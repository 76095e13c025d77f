/** Format checks for GST numbers and Indian phone numbers, and the mock GST
    verification built on them.

    Both checks are Python `re.match` calls whose pattern ends in `$`. In
    Python that anchor also matches just before one final newline, so a
    well-formed number followed by a single "\n" is accepted as well. */
module Validators {
  import opened Common

  predicate IsGstAlnum(c: char) { IsAsciiDigit(c) || IsAsciiUpper(c) }

  /** `[0-9]{2}[A-Z]{5}[0-9]{4}[A-Z]{1}[1-9A-Z]{1}Z[0-9A-Z]{1}` over the
      whole text, with no trailing newline. */
  predicate GstShape(s: string)
  {
    && |s| == 15
    && (forall i :: 0 <= i < 2 ==> IsAsciiDigit(s[i]))
    && (forall i :: 2 <= i < 7 ==> IsAsciiUpper(s[i]))
    && (forall i :: 7 <= i < 11 ==> IsAsciiDigit(s[i]))
    && IsAsciiUpper(s[11])
    && (('1' <= s[12] <= '9') || IsAsciiUpper(s[12]))
    && s[13] == 'Z'
    && IsGstAlnum(s[14])
  }

  /** The text a Python `$` anchor sees as the whole input: one final
      newline, if present, is not part of the match. */
  function AnchoredBody(s: string): (t: string)
  {
    if |s| > 0 && s[|s| - 1] == '\n' then s[..|s| - 1] else s
  }

  /** `validate_gst_number`: `re.match` of the GST pattern. The match either
      covers the whole text or stops before a final newline. */
  predicate ValidateGstNumber(gst: string)
  {
    GstShape(gst) || (gst != AnchoredBody(gst) && GstShape(AnchoredBody(gst)))
  }

  /** An accepted GST number has 15 characters, or 16 with a final newline,
      and its fifteen significant characters follow the pattern. */
  lemma GstAccepted(gst: string)
    ensures ValidateGstNumber(gst) <==>
      (|gst| == 15 && GstShape(gst)) || (|gst| == 16 && gst[15] == '\n' && GstShape(gst[..15]))
  {
  }

  /** A lower-case letter anywhere rejects the number. */
  lemma GstRejectsLowercase(gst: string, i: nat)
    requires i < |gst| && IsAsciiLower(gst[i])
    ensures !ValidateGstNumber(gst)
  {
    GstShapeNoLower(gst);
    GstShapeNoLower(AnchoredBody(gst));
    assert i < |AnchoredBody(gst)| ==> AnchoredBody(gst)[i] == gst[i];
  }

  lemma GstShapeNoLower(t: string)
    ensures GstShape(t) ==> forall j :: 0 <= j < |t| ==> !IsAsciiLower(t[j])
  {
  }

  /** The thirteenth character may not be `0`. */
  lemma GstRejectsZeroAt13(gst: string)
    requires |gst| >= 13 && gst[12] == '0'
    ensures !ValidateGstNumber(gst)
  {
    if !GstShape(gst) && gst != AnchoredBody(gst) {
      assert AnchoredBody(gst)[12] == gst[12];
    }
  }

  /** The fourteenth character is always `Z`. */
  lemma GstFixedZ(gst: string)
    requires ValidateGstNumber(gst)
    ensures gst[13] == 'Z'
  {
    if !GstShape(gst) {
      assert AnchoredBody(gst)[13] == gst[13];
    }
  }

  const SampleGst1 := "09ABCDE1234F1Z5"
  const SampleGst2 := "09ABCDE1234F1Z6"

  /** The GST numbers used for the sample seller accounts are well formed. */
  lemma SampleGstNumbersValid()
    ensures ValidateGstNumber(SampleGst1) && ValidateGstNumber(SampleGst2)
  {
    assert GstShape(SampleGst1);
    assert GstShape(SampleGst2);
  }

  /** What `verify_gst_number` returns, as the dictionary's two shapes. */
  datatype GstVerification =
    | InvalidGst(message: string)
    | ValidGst(companyName: string, status: string)
  {
    predicate IsValid() { ValidGst? }
  }

  /** The mock verification: a fixed company and status for any well-formed
      number, the format error otherwise. */
  function VerifyGstNumber(gst: string): (r: GstVerification)
    ensures r.IsValid() <==> ValidateGstNumber(gst)
    ensures !r.IsValid() ==> r.message == "Invalid GST format"
    ensures r.IsValid() ==> r.companyName == "Mock Company Name" && r.status == "Active"
  {
    if !ValidateGstNumber(gst) then InvalidGst("Invalid GST format")
    else ValidGst("Mock Company Name", "Active")
  }

  /** `[6-9]\d{9}`: a ten-digit Indian mobile number. */
  predicate IndianMobile(m: string)
  {
    |m| == 10 && '6' <= m[0] <= '9' && AllDigits(m)
  }

  /** `(\+91|91)?[6-9]\d{9}` over the whole text. */
  predicate PhoneShape(s: string)
  {
    || IndianMobile(s)
    || (|s| >= 2 && s[..2] == "91" && IndianMobile(s[2..]))
    || (|s| >= 3 && s[..3] == "+91" && IndianMobile(s[3..]))
  }

  /** `validate_phone_number`: `re.match` of the phone pattern. */
  predicate ValidatePhoneNumber(phone: string)
  {
    PhoneShape(phone) || (phone != AnchoredBody(phone) && PhoneShape(AnchoredBody(phone)))
  }

  /** Without a final newline an accepted number has 10, 12 or 13
      characters: the bare mobile number, `91` before it, or `+91` before it;
      the last ten characters are always the mobile number. */
  lemma PhoneAccepted(phone: string)
    requires ValidatePhoneNumber(phone) && AnchoredBody(phone) == phone
    ensures |phone| == 10 || |phone| == 12 || |phone| == 13
    ensures IndianMobile(phone[|phone| - 10..])
    ensures |phone| == 12 ==> phone[..2] == "91"
    ensures |phone| == 13 ==> phone[..3] == "+91"
  {
    if |phone| == 10 {
      assert phone[|phone| - 10..] == phone;
    }
  }

  const SamplePhone := "+919876543210"

  /** The phone number of the sample accounts is accepted. */
  lemma SamplePhoneValid()
    ensures ValidatePhoneNumber(SamplePhone)
  {
    assert SamplePhone[..3] == "+91";
    assert IndianMobile(SamplePhone[3..]);
  }

  /** `^\d{6}$` as Pydantic checks it (the anchor is end of text). */
  predicate IsPincode(s: string)
  {
    |s| == 6 && AllDigits(s)
  }
}
