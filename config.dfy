/** Application settings: the default values and the parsing of the
    comma-separated list of allowed image types. Loading the values from the
    environment or a `.env` file is not modelled: a `Settings` value is what
    that loading produced. */
module Config {
  import opened Common

  datatype Settings = Settings(
    databaseUrl: string,
    secretKey: string,
    accessTokenExpireMinutes: int,
    refreshTokenExpireDays: int,
    uploadDirectory: string,
    maxFileSize: int,
    allowedImageTypesStr: string,
    gstVerificationApiKey: string)

  const DefaultAccessTokenExpireMinutes := 15
  const DefaultRefreshTokenExpireDays := 7
  const DefaultUploadDirectory := "./uploads"
  const DefaultMaxFileSize := 10485760
  const DefaultAllowedImageTypesStr := "jpg,jpeg,png,webp"

  /** The list the default string stands for. */
  const DefaultAllowedImageTypes: seq<string> := ["jpg", "jpeg", "png", "webp"]

  /** The settings when only the three values without a default are given. */
  function DefaultSettings(databaseUrl: string, secretKey: string, gstKey: string): Settings
  {
    Settings(databaseUrl, secretKey, DefaultAccessTokenExpireMinutes, DefaultRefreshTokenExpireDays,
             DefaultUploadDirectory, DefaultMaxFileSize, DefaultAllowedImageTypesStr, gstKey)
  }

  /** Whitespace as Python's `str.isspace()` defines it. */
  predicate IsSpace(c: char)
  {
    || ('\t' <= c <= '\r')
    || ('\U{1C}' <= c <= '\U{1F}')
    || c == ' ' || c == '\U{85}' || c == '\U{A0}' || c == '\U{1680}'
    || ('\U{2000}' <= c <= '\U{200A}')
    || c == '\U{2028}' || c == '\U{2029}' || c == '\U{202F}' || c == '\U{205F}' || c == '\U{3000}'
  }

  /** `s.lstrip()`: the suffix left after the leading whitespace. */
  function StripStart(s: string): (r: string)
    ensures |r| <= |s| && r == s[|s| - |r|..]
    ensures r == [] || !IsSpace(r[0])
    ensures forall i :: 0 <= i < |s| - |r| ==> IsSpace(s[i])
  {
    if |s| > 0 && IsSpace(s[0]) then StripStart(s[1..]) else s
  }

  /** `s.rstrip()`: the prefix left before the trailing whitespace. */
  function StripEnd(s: string): (r: string)
    ensures |r| <= |s| && r == s[..|r|]
    ensures r == [] || !IsSpace(r[|r| - 1])
    ensures forall i :: |r| <= i < |s| ==> IsSpace(s[i])
  {
    if |s| > 0 && IsSpace(s[|s| - 1]) then StripEnd(s[..|s| - 1]) else s
  }

  /** How many leading whitespace characters `s.lstrip()` removes. */
  function LeadingSpace(s: string): nat
  {
    |s| - |StripStart(s)|
  }

  /** `s.strip()`. */
  function Strip(s: string): string
  {
    StripEnd(StripStart(s))
  }

  /** The stripped text is the part of `s` that neither starts nor ends with
      whitespace and is surrounded in `s` by whitespace only. */
  lemma StripShape(s: string)
    ensures var r := Strip(s);
      && LeadingSpace(s) + |r| <= |s|
      && r == s[LeadingSpace(s)..LeadingSpace(s) + |r|]
      && (forall j :: 0 <= j < LeadingSpace(s) ==> IsSpace(s[j]))
      && (forall j :: LeadingSpace(s) + |r| <= j < |s| ==> IsSpace(s[j]))
      && (r == [] || (!IsSpace(r[0]) && !IsSpace(r[|r| - 1])))
  {
    var t := StripStart(s);
    var r := StripEnd(t);
    assert r == t[..|r|] && t == s[LeadingSpace(s)..];
  }

  /** Each piece stripped, in order. */
  function StripEach(parts: seq<string>): seq<string>
  {
    seq(|parts|, k requires 0 <= k < |parts| => Strip(parts[k]))
  }

  /** The `allowed_image_types` property: split on commas, strip each item. */
  function AllowedImageTypes(s: Settings): seq<string>
  {
    StripEach(Split(s.allowedImageTypesStr, ','))
  }

  /** One entry per comma-separated item, in order, each the stripped item;
      empty items stay as empty strings. */
  lemma AllowedImageTypesShape(s: Settings)
    ensures |AllowedImageTypes(s)| == Count(s.allowedImageTypesStr, ',') + 1
    ensures forall k :: 0 <= k < |AllowedImageTypes(s)| ==>
      AllowedImageTypes(s)[k] == Strip(Split(s.allowedImageTypesStr, ',')[k])
      && ',' !in AllowedImageTypes(s)[k]
  {
    SplitCount(s.allowedImageTypesStr, ',');
    SplitPiecesClean(s.allowedImageTypesStr, ',');
  }

  /** With the default string the list is jpg, jpeg, png, webp; the other
      defaults are 15 minutes, 7 days, "./uploads" and 10 MiB. */
  lemma DefaultSettingsValues(databaseUrl: string, secretKey: string, gstKey: string)
    ensures var s := DefaultSettings(databaseUrl, secretKey, gstKey);
      && s.accessTokenExpireMinutes == 15
      && s.refreshTokenExpireDays == 7
      && s.uploadDirectory == "./uploads"
      && s.maxFileSize == 10 * 1024 * 1024
      && AllowedImageTypes(s) == DefaultAllowedImageTypes
  {
    DefaultSplit();
    DefaultTypesStripped();
  }

  lemma DefaultTypesStripped()
    ensures StripEach(DefaultAllowedImageTypes) == DefaultAllowedImageTypes
  {
    NoSpaceStrip("jpg");
    NoSpaceStrip("jpeg");
    NoSpaceStrip("png");
    NoSpaceStrip("webp");
    StripFour("jpg", "jpeg", "png", "webp");
  }

  /** Stripping pieces that carry no surrounding whitespace changes nothing. */
  lemma StripFour(a: string, b: string, c: string, d: string)
    requires Strip(a) == a && Strip(b) == b && Strip(c) == c && Strip(d) == d
    ensures StripEach([a, b, c, d]) == [a, b, c, d]
  {
  }

  lemma DefaultSplit()
    ensures Split(DefaultAllowedImageTypesStr, ',') == DefaultAllowedImageTypes
  {
    SplitFour("jpg", "jpeg", "png", "webp", ',');
    assert DefaultAllowedImageTypesStr == "jpg" + ([','] + ("jpeg" + ([','] + ("png" + ([','] + "webp")))));
  }

  lemma SplitFour(a: string, b: string, c: string, d: string, sep: char)
    requires sep !in a && sep !in b && sep !in c && sep !in d
    ensures Split(a + ([sep] + (b + ([sep] + (c + ([sep] + d))))), sep) == [a, b, c, d]
  {
    SplitOfWord(d, [], sep);
    assert d + [] == d;
    SplitCons(c, d, sep);
    SplitCons(b, c + ([sep] + d), sep);
    SplitCons(a, b + ([sep] + (c + ([sep] + d))), sep);
  }

  lemma SplitCons(w: string, t: string, sep: char)
    requires sep !in w
    ensures Split(w + ([sep] + t), sep) == [w] + Split(t, sep)
  {
    SplitOfWord(w, [sep] + t, sep);
    assert ([sep] + t)[1..] == t;
  }

  /** Splitting a separator-free word followed by more text. */
  lemma {:induction false} SplitOfWord(w: string, tail: string, sep: char)
    requires sep !in w
    requires tail == [] || tail[0] == sep
    ensures Split(w + tail, sep) ==
      if tail == [] then [w] else [w] + Split(tail[1..], sep)
    decreases |w|
  {
    if w == [] {
      assert w + tail == tail;
    } else {
      SplitOfWord(w[1..], tail, sep);
      assert (w + tail)[1..] == w[1..] + tail;
      assert [w[0]] + w[1..] == w;
    }
  }

  lemma NoSpaceStrip(w: string)
    requires |w| > 0 && IsAsciiLower(w[0]) && IsAsciiLower(w[|w| - 1])
    ensures Strip(w) == w
  {
  }
}
