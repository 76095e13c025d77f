/** Naming and placing an uploaded product image: the extension, the unique
    file name, the per-product directory layout with its three renditions,
    and the directories and files `process_product_image` creates.

    Decoding, colour conversion, resizing and re-encoding are not modelled:
    whether the stored bytes decode as an image is a field of the upload,
    and the extensions the image library can write are a parameter of
    `ProcessProductImage`. The uuid is a parameter. */
module ImageProcessing {
  import opened Common

  /** `file.filename.split('.')[-1].lower()`. */
  function FileExtension(filename: string): string
  {
    Lower(Last(Split(filename, '.')))
  }

  /** The extension is the lower-cased text after the last `.`: it never
      contains a `.`, it is the end of the name, and either the name has no
      `.` at all or a `.` stands right before it. */
  lemma FileExtensionShape(filename: string)
    ensures var l := Last(Split(filename, '.'));
      && FileExtension(filename) == Lower(l)
      && '.' !in l
      && |l| <= |filename|
      && l == filename[|filename| - |l|..]
      && (|l| < |filename| ==> filename[|filename| - |l| - 1] == '.')
    ensures '.' !in filename ==> FileExtension(filename) == Lower(filename)
    ensures |filename| > 0 && filename[|filename| - 1] == '.' ==> FileExtension(filename) == ""
  {
    SplitLast(filename, '.');
    var l := Last(Split(filename, '.'));
    if '.' !in filename {
      SplitSingle(filename, '.');
    }
  }

  /** Lower-casing twice is lower-casing once. */
  lemma LowerIdempotent(s: string)
    ensures Lower(Lower(s)) == Lower(s)
  {
  }

  /** `f"{uuid}.{ext}"`. */
  function UniqueFilename(uuid: string, ext: string): string
  {
    uuid + "." + ext
  }

  /** The stored name keeps the upload's extension: taking the extension of
      `uuid.ext` gives back the extension of the uploaded name. */
  lemma UniqueFilenameKeepsExtension(uuid: string, filename: string)
    ensures FileExtension(UniqueFilename(uuid, FileExtension(filename))) == FileExtension(filename)
  {
    var ext := FileExtension(filename);
    FileExtensionShape(filename);
    var l0 := Last(Split(filename, '.'));
    LowerKeepsNonLetters(l0, '.');
    var s := UniqueFilename(uuid, ext);
    SplitLast(s, '.');
    assert s[|s| - |ext| - 1] == '.' && s[|s| - |ext|..] == ext;
    DotlessSuffixUnique(s, Last(Split(s, '.')), ext);
    LowerIdempotent(l0);
  }

  /** The longest end of a text without a `.` is determined by the text. */
  lemma DotlessSuffixUnique(s: string, l: string, e: string)
    requires |l| <= |s| && l == s[|s| - |l|..] && '.' !in l
    requires |l| < |s| ==> s[|s| - |l| - 1] == '.'
    requires |e| < |s| && e == s[|s| - |e|..] && '.' !in e && s[|s| - |e| - 1] == '.'
    ensures l == e
  {
    assert forall i :: |s| - |l| <= i < |s| ==> s[i] == l[i - (|s| - |l|)];
    assert forall i :: |s| - |e| <= i < |s| ==> s[i] == e[i - (|s| - |e|)];
    assert |l| == |e|;
  }

  /** Lower-casing neither adds nor removes a character that is not a
      letter, such as `.` or `/`. */
  lemma LowerKeepsNonLetters(s: string, c: char)
    requires !IsAsciiUpper(c) && !IsAsciiLower(c)
    ensures (c in Lower(s)) <==> (c in s)
  {
    if c in s {
      var i :| 0 <= i < |s| && s[i] == c;
      assert Lower(s)[i] == c;
    }
    if c in Lower(s) {
      var i :| 0 <= i < |Lower(s)| && Lower(s)[i] == c;
      assert s[i] == c;
    }
  }

  /** `os.path.join(a, b)` on POSIX: an absolute `b` replaces `a`; otherwise
      a `/` is inserted unless `a` is empty or already ends with one. */
  function PathJoin(a: string, b: string): string
  {
    if |b| > 0 && b[0] == '/' then b
    else if a == [] || a[|a| - 1] == '/' then a + b
    else a + "/" + b
  }

  /** A single non-empty path component. */
  predicate Segment(s: string) { |s| > 0 && '/' !in s }

  datatype Rendition = Original | Medium | Thumbnail

  function RenditionName(r: Rendition): string
  {
    match r
    case Original => "original"
    case Medium => "medium"
    case Thumbnail => "thumbnail"
  }

  /** `upload_dir/products` */
  function ProductsRoot(uploadDir: string): string { PathJoin(uploadDir, "products") }

  /** `product_dir`. */
  function ProductDir(uploadDir: string, productId: string): string
  {
    PathJoin(ProductsRoot(uploadDir), productId)
  }

  /** `original_dir`, `medium_dir` or `thumb_dir`. */
  function RenditionDir(uploadDir: string, productId: string, r: Rendition): string
  {
    PathJoin(ProductDir(uploadDir, productId), RenditionName(r))
  }

  /** `original_path`, `medium_path` or `thumb_path`. */
  function RenditionPath(uploadDir: string, productId: string, r: Rendition, filename: string): string
  {
    PathJoin(RenditionDir(uploadDir, productId, r), filename)
  }

  /** With a plain product id and file name, a rendition is stored at
      `upload_dir/products/<product id>/<rendition>/<file name>`. */
  lemma RenditionLayout(uploadDir: string, productId: string, r: Rendition, filename: string)
    requires Segment(productId) && Segment(filename)
    ensures RenditionDir(uploadDir, productId, r) ==
      ProductsRoot(uploadDir) + "/" + productId + "/" + RenditionName(r)
    ensures RenditionPath(uploadDir, productId, r, filename) ==
      ProductsRoot(uploadDir) + "/" + productId + "/" + RenditionName(r) + "/" + filename
  {
    assert productId[0] != '/' && filename[0] != '/';
    var root := ProductsRoot(uploadDir);
    assert root[|root| - 1] == 's';
    var pd := ProductDir(uploadDir, productId);
    assert pd == root + "/" + productId;
    assert pd[|pd| - 1] == productId[|productId| - 1];
    var rd := RenditionDir(uploadDir, productId, r);
    assert rd == pd + "/" + RenditionName(r);
    assert rd[|rd| - 1] == RenditionName(r)[|RenditionName(r)| - 1];
  }

  /** The default upload directory gives `./uploads/products/...`. */
  lemma DefaultRoot()
    ensures ProductsRoot("./uploads") == "./uploads/products"
  {
  }

  /** The three renditions of one upload share the name and differ only in
      the rendition segment, so no two of them collide; nor do the files of
      two different names. */
  lemma RenditionPathsDistinct(uploadDir: string, productId: string, r1: Rendition, r2: Rendition,
                               f1: string, f2: string)
    requires Segment(productId) && Segment(f1) && Segment(f2)
    requires r1 != r2 || f1 != f2
    ensures RenditionPath(uploadDir, productId, r1, f1) != RenditionPath(uploadDir, productId, r2, f2)
  {
    RenditionPathSplit(uploadDir, productId, r1, f1);
    RenditionPathSplit(uploadDir, productId, r2, f2);
    PrefixCancel(ProductPrefix(uploadDir, productId), RenditionName(r1) + "/" + f1, RenditionName(r2) + "/" + f2);
    RenditionNamesDistinct(r1, r2);
    SegmentSplit(RenditionName(r1), f1, RenditionName(r2), f2);
  }

  /** `upload_dir/products/<product id>/` */
  function ProductPrefix(uploadDir: string, productId: string): string
  {
    ProductsRoot(uploadDir) + "/" + productId + "/"
  }

  lemma RenditionPathSplit(uploadDir: string, productId: string, r: Rendition, filename: string)
    requires Segment(productId) && Segment(filename)
    ensures RenditionPath(uploadDir, productId, r, filename) ==
      ProductPrefix(uploadDir, productId) + (RenditionName(r) + "/" + filename)
  {
    RenditionLayout(uploadDir, productId, r, filename);
  }

  lemma RenditionNamesDistinct(r1: Rendition, r2: Rendition)
    ensures '/' !in RenditionName(r1)
    ensures r1 != r2 ==> RenditionName(r1) != RenditionName(r2)
  {
  }

  /** Equal texts with a common beginning have equal remainders. */
  lemma PrefixCancel(prefix: string, t1: string, t2: string)
    ensures prefix + t1 == prefix + t2 ==> t1 == t2
  {
    assert (prefix + t1)[|prefix|..] == t1;
    assert (prefix + t2)[|prefix|..] == t2;
  }

  /** `a/b` determines `a` and `b` when `a` contains no `/`. */
  lemma SegmentSplit(a1: string, b1: string, a2: string, b2: string)
    requires '/' !in a1 && '/' !in a2
    ensures a1 + "/" + b1 == a2 + "/" + b2 ==> a1 == a2 && b1 == b2
  {
    var s1 := a1 + "/" + b1;
    var s2 := a2 + "/" + b2;
    assert forall i :: 0 <= i < |a1| ==> s1[i] == a1[i] && s1[i] != '/';
    assert forall i :: 0 <= i < |a2| ==> s2[i] == a2[i] && s2[i] != '/';
    assert s1[|a1|] == '/' && s2[|a2|] == '/';
    if s1 == s2 {
      assert |a1| == |a2|;
      assert a1 == s1[..|a1|] && a2 == s2[..|a2|];
      assert b1 == s1[|a1| + 1..] && b2 == s2[|a2| + 1..];
    }
  }

  /** An uploaded file as the handler sees it; `decodable` says whether the
      image library can open the bytes. */
  datatype UploadFile = UploadFile(filename: string, contentType: string, size: nat, decodable: bool)

  /** The text of a `uuid4()`: 36 characters, lower-case hex digits and
      dashes. */
  predicate UuidText(uuid: string)
  {
    |uuid| == 36 && forall c :: c in uuid ==> c == '-' || '0' <= c <= '9' || 'a' <= c <= 'f'
  }

  /** Whether `open(original_path, "wb")` can create a file of this name
      in the original directory: the name is one path component (a `/`
      would name a directory inside `original` that does not exist), holds
      no NUL character, and has at most 255 characters. */
  predicate StorableName(name: string)
  {
    '/' !in name && '\0' !in name && |name| <= 255
  }

  /** The same test on the extension alone, for a stored name
      `<uuid>.<ext>`, whose first 37 characters are the uuid and the dot. */
  predicate StorableExtension(ext: string)
  {
    '/' !in ext && '\0' !in ext && |ext| <= 218
  }

  /** A stored name built from a uuid can be opened exactly when its
      extension passes `StorableExtension`. */
  lemma StorableNameOfUuid(uuid: string, ext: string)
    requires UuidText(uuid)
    ensures StorableName(UniqueFilename(uuid, ext)) <==> StorableExtension(ext)
  {
    var name := UniqueFilename(uuid, ext);
    assert name == uuid + ("." + ext);
    assert '/' !in uuid && '\0' !in uuid;
    assert '/' in name <==> '/' in ext;
    assert '\0' in name <==> '\0' in ext;
  }

  /** A name `<base>.<e>` with no `.` in `e` has the extension `e`,
      lower-cased. */
  lemma ExtensionAfterLastDot(base: string, e: string)
    requires '.' !in e
    ensures FileExtension(base + "." + e) == Lower(e)
  {
    var s := base + "." + e;
    FileExtensionShape(s);
    assert s[|s| - |e| - 1] == '.';
    assert s[|s| - |e|..] == e;
    DotlessSuffixUnique(s, Last(Split(s, '.')), e);
  }

  /** An upload named `photo./png` has the extension `/png`: its stored
      name `<uuid>./png` cannot be opened. */
  lemma SlashExtensionNotStorable(uuid: string)
    requires UuidText(uuid)
    ensures FileExtension("photo./png") == "/png"
    ensures !StorableName(UniqueFilename(uuid, FileExtension("photo./png")))
  {
    assert "photo./png" == "photo" + "." + "/png";
    ExtensionAfterLastDot("photo", "/png");
    assert Lower("/png") == "/png";
    StorableNameOfUuid(uuid, "/png");
  }

  /** Whether both renditions can be written: the stored name can be
      opened, the bytes open as an image, and `savable`, the extensions the
      image library has a writer for, holds the extension of the stored
      name, from which `save` picks the output format. An upload named
      `blob` (extension "blob") or `photo.` (extension "") fails here
      whenever the library has no writer under that name, even though its
      bytes decode. */
  predicate Renderable(file: UploadFile, savable: set<string>)
  {
    var ext := FileExtension(file.filename);
    StorableExtension(ext) && file.decodable && ext in savable
  }

  /** An upload whose name ends in `.` is stored under a name ending in
      `.`, with the empty extension; it cannot be rendered unless the
      library has a writer for the empty extension, whatever its bytes. */
  lemma TrailingDotNotRenderable(file: UploadFile, savable: set<string>)
    requires |file.filename| > 0 && file.filename[|file.filename| - 1] == '.'
    requires "" !in savable
    ensures FileExtension(file.filename) == ""
    ensures !Renderable(file, savable)
  {
    FileExtensionShape(file.filename);
  }

  /** The dictionary `process_product_image` returns. */
  datatype ProcessedImage = ProcessedImage(
    filename: string,
    originalPath: string,
    mediumPath: string,
    thumbnailPath: string,
    fileSize: nat)

  /** `open` cannot create the original file, `Image.open` refuses the
      bytes, or the first `save` finds no writer for the extension. */
  datatype ProcessError = CannotOpen(name: string) | CannotDecode | NoWriterFor(ext: string)

  /** The result for an upload that can be rendered: every path under the product's
      directory, all three ending in the same unique name, and the size of
      the stored original. */
  function ProcessedFor(file: UploadFile, productId: string, uploadDir: string, uuid: string): ProcessedImage
  {
    var name := UniqueFilename(uuid, FileExtension(file.filename));
    ProcessedImage(name, RenditionPath(uploadDir, productId, Original, name),
                   RenditionPath(uploadDir, productId, Medium, name),
                   RenditionPath(uploadDir, productId, Thumbnail, name), file.size)
  }

  /** For a uuid and an upload name without `/`, the unique name is a
      single path component that keeps the upload's extension. */
  lemma UniqueNameIsSegment(uuid: string, filename: string)
    requires '/' !in uuid && '/' !in filename
    ensures Segment(UniqueFilename(uuid, FileExtension(filename)))
    ensures FileExtension(UniqueFilename(uuid, FileExtension(filename))) == FileExtension(filename)
  {
    var ext := FileExtension(filename);
    FileExtensionShape(filename);
    var l := Last(Split(filename, '.'));
    assert forall i :: 0 <= i < |l| ==> l[i] == filename[|filename| - |l| + i];
    LowerKeepsNonLetters(l, '/');
    var name := UniqueFilename(uuid, ext);
    assert forall i :: 0 <= i < |name| ==> name[i] != '/' by {
      assert forall i :: 0 <= i < |uuid| ==> name[i] == uuid[i];
      assert forall i :: |uuid| + 1 <= i < |name| ==> name[i] == ext[i - |uuid| - 1];
    }
    UniqueFilenameKeepsExtension(uuid, filename);
  }

  /** For a plain product id, uuid and upload name, the three renditions
      are stored under `upload_dir/products/<product id>/`, one per
      rendition directory, all under the unique name; no two of the paths
      coincide. */
  lemma ProcessedLayout(file: UploadFile, productId: string, uploadDir: string, uuid: string)
    requires Segment(productId) && '/' !in uuid && '/' !in file.filename
    ensures var p := ProcessedFor(file, productId, uploadDir, uuid);
      && p.filename == UniqueFilename(uuid, FileExtension(file.filename))
      && p.originalPath == ProductPrefix(uploadDir, productId) + (RenditionName(Original) + "/" + p.filename)
      && p.mediumPath == ProductPrefix(uploadDir, productId) + (RenditionName(Medium) + "/" + p.filename)
      && p.thumbnailPath == ProductPrefix(uploadDir, productId) + (RenditionName(Thumbnail) + "/" + p.filename)
      && p.originalPath != p.mediumPath && p.originalPath != p.thumbnailPath && p.mediumPath != p.thumbnailPath
      && p.fileSize == file.size
  {
    var name := UniqueFilename(uuid, FileExtension(file.filename));
    UniqueNameIsSegment(uuid, file.filename);
    RenditionPathSplit(uploadDir, productId, Original, name);
    RenditionPathSplit(uploadDir, productId, Medium, name);
    RenditionPathSplit(uploadDir, productId, Thumbnail, name);
    RenditionPathsDistinct(uploadDir, productId, Original, Medium, name, name);
    RenditionPathsDistinct(uploadDir, productId, Original, Thumbnail, name, name);
    RenditionPathsDistinct(uploadDir, productId, Medium, Thumbnail, name, name);
  }

  /** The directories and files on disk. */
  class FileSystem {
    var dirs: set<string>
    var files: set<string>

    constructor (dirs0: set<string>, files0: set<string>)
      ensures dirs == dirs0 && files == files0
    {
      dirs := dirs0;
      files := files0;
    }

    /** `create_directory`: `makedirs(path, exist_ok=True)`; an existing
        directory is left as it is. */
    method CreateDirectory(path: string)
      modifies this
      ensures dirs == old(dirs) + {path}
      ensures path in old(dirs) ==> dirs == old(dirs)
      ensures files == old(files)
    {
      dirs := dirs + {path};
    }

    /** `process_product_image`: create the three rendition directories,
        store the original, and, when the bytes decode and the library can
        write the derived extension, store the medium and thumbnail
        renditions under the same name. A stored name that cannot be opened
        fails after the directories are created and before any file is
        written. A file that does not decode, or whose extension has no
        writer, fails after the original has been written and before any
        rendition is. */
    method ProcessProductImage(file: UploadFile, productId: string, uploadDir: string, uuid: string,
                               savable: set<string>)
      returns (r: Result<ProcessedImage, ProcessError>)
      requires UuidText(uuid)
      modifies this
      ensures dirs == old(dirs) + {RenditionDir(uploadDir, productId, Original),
                                   RenditionDir(uploadDir, productId, Medium),
                                   RenditionDir(uploadDir, productId, Thumbnail)}
      ensures var p := ProcessedFor(file, productId, uploadDir, uuid);
        var ext := FileExtension(file.filename);
        if !StorableExtension(ext) then
          r == Err(CannotOpen(p.filename)) && files == old(files)
        else if Renderable(file, savable) then
          r == Ok(p) && files == old(files) + {p.originalPath, p.mediumPath, p.thumbnailPath}
        else
          && r == (if file.decodable then Err(NoWriterFor(ext)) else Err(CannotDecode))
          && files == old(files) + {p.originalPath}
    {
      var ext := FileExtension(file.filename);
      var name := UniqueFilename(uuid, ext);
      var originalDir := RenditionDir(uploadDir, productId, Original);
      var mediumDir := RenditionDir(uploadDir, productId, Medium);
      var thumbDir := RenditionDir(uploadDir, productId, Thumbnail);
      CreateDirectory(originalDir);
      CreateDirectory(mediumDir);
      CreateDirectory(thumbDir);
      StorableNameOfUuid(uuid, ext);
      if !StorableName(name) {
        return Err(CannotOpen(name));
      }
      ghost var p := ProcessedFor(file, productId, uploadDir, uuid);
      var originalPath := PathJoin(originalDir, name);
      assert originalPath == p.originalPath;
      files := files + {originalPath};
      if !file.decodable {
        return Err(CannotDecode);
      }
      if ext !in savable {
        return Err(NoWriterFor(ext));
      }
      var mediumPath := PathJoin(mediumDir, name);
      files := files + {mediumPath};
      var thumbPath := PathJoin(thumbDir, name);
      files := files + {thumbPath};
      return Ok(ProcessedImage(name, originalPath, mediumPath, thumbPath, file.size));
    }
  }
}
