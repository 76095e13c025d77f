/** The product endpoints: listings with one representative image per
    product, the product page with its view counter, the seller's own
    listing, and the batch image upload. */
module ProductsApi {
  import opened Common
  import opened ProductSchema
  import opened ProductSearch
  import opened ProductService
  import opened ImageProcessing

  datatype ApiError = ProductNotFound | ImageProcessingFailed

  /** The image a listing shows: the first primary image in stored order,
      otherwise the first image, otherwise none. */
  function PrimaryImage(imgs: seq<ProductImage>): Option<ProductImage>
  {
    match FirstIndex(imgs, (img: ProductImage) => img.isPrimary)
    case Some(i) => Some(imgs[i])
    case None => if imgs == [] then None else Some(imgs[0])
  }

  /** The selection is empty only for a product without images, and then
      picks the earliest primary image, or the first image when none is
      primary. */
  lemma PrimaryImageChoice(imgs: seq<ProductImage>)
    ensures PrimaryImage(imgs).None? <==> imgs == []
    ensures PrimaryImage(imgs).Some? ==> PrimaryImage(imgs).value in imgs
    ensures (exists i :: 0 <= i < |imgs| && imgs[i].isPrimary) ==>
      exists i :: 0 <= i < |imgs| && PrimaryImage(imgs) == Some(imgs[i]) && imgs[i].isPrimary
        && forall j :: 0 <= j < i ==> !imgs[j].isPrimary
    ensures (forall i :: 0 <= i < |imgs| ==> !imgs[i].isPrimary) && imgs != [] ==> PrimaryImage(imgs) == Some(imgs[0])
  {
    var f := FirstIndex(imgs, (img: ProductImage) => img.isPrimary);
    if f.Some? {
      assert imgs[f.value].isPrimary;
    }
  }

  /** The `ProductListItem` of a product: its own fields copied, and the
      path of its representative image, which exists exactly when the
      product has an image and is a primary one whenever the product has a
      primary image. */
  function ToListItem(p: Product, images: seq<ProductImage>): ProductListItem
  {
    var chosen := PrimaryImage(ImagesOf(images, p.id));
    ProductListItem(p.id, p.title, p.price, p.priceNegotiable, p.condition, p.locationCity,
                    p.locationState, p.viewsCount, p.status, p.createdAt,
                    if chosen.Some? then Some(chosen.value.imagePath) else None)
  }

  /** A list item copies the product's own fields; its image path exists
      exactly when the product has an image, is the path of one of the
      product's images, and of a primary one whenever the product has a
      primary image. */
  lemma ListItemFields(p: Product, images: seq<ProductImage>)
    ensures var item := ToListItem(p, images);
      && item.id == p.id && item.title == p.title && item.price == p.price
      && item.priceNegotiable == p.priceNegotiable && item.condition == p.condition
      && item.locationCity == p.locationCity && item.locationState == p.locationState
      && item.viewsCount == p.viewsCount && item.status == p.status && item.createdAt == p.createdAt
    ensures var item := ToListItem(p, images);
      item.primaryImage.None? <==> forall img :: img in images ==> img.productId != p.id
    ensures var item := ToListItem(p, images);
      item.primaryImage.Some? ==>
        exists img :: img in images && img.productId == p.id && img.imagePath == item.primaryImage.value
    ensures var item := ToListItem(p, images);
      (exists img :: img in images && img.productId == p.id && img.isPrimary) ==>
        item.primaryImage.Some? &&
        exists img :: img in images && img.productId == p.id && img.isPrimary && img.imagePath == item.primaryImage.value
  {
    var own := ImagesOf(images, p.id);
    PrimaryImageChoice(own);
    assert own != [] ==> own[0] in own;
    if exists img :: img in images && img.productId == p.id && img.isPrimary {
      var img :| img in images && img.productId == p.id && img.isPrimary;
      assert img in own;
      var i :| 0 <= i < |own| && own[i] == img;
    }
  }

  /** Once a primary image has been added, listings show that image. */
  lemma NewPrimaryIsListed(images: seq<ProductImage>, productId: Uuid, data: ImageData)
    requires data.isPrimary
    ensures PrimaryImage(ImagesOf(AddImage(images, productId, data), productId)) == Some(ImageRow(productId, data))
  {
    var row := ImageRow(productId, data);
    var cleared := ClearPrimary(images, productId);
    var keep := (img: ProductImage) => img.productId == productId;
    assert AddImage(images, productId, data) == cleared + [row];
    FilterAppend(cleared, [row], keep);
    assert Filter([row], keep) == [row] by {
      assert [row][1..] == [];
    }
    var front := ImagesOf(cleared, productId);
    forall x | x in front ensures !x.isPrimary {
      var i :| 0 <= i < |cleared| && cleared[i] == x;
    }
    PrimaryAfterNonPrimary(front, row);
  }

  /** A primary image after images none of which is primary is the one a
      listing shows. */
  lemma PrimaryAfterNonPrimary(front: seq<ProductImage>, row: ProductImage)
    requires forall x :: x in front ==> !x.isPrimary
    requires row.isPrimary
    ensures PrimaryImage(front + [row]) == Some(row)
  {
    var own := front + [row];
    PrimaryImageChoice(own);
    assert own[|front|].isPrimary;
    assert forall j :: 0 <= j < |front| ==> own[j] == front[j] && own[j] in front;
  }

  /** Of two images of a product, a non-primary one stored first and a
      primary one after it, the listing shows the primary one. */
  lemma PrimaryImageExample(p: Product, first: ProductImage, second: ProductImage)
    requires first.productId == p.id && second.productId == p.id
    requires !first.isPrimary && second.isPrimary
    ensures ToListItem(p, [first, second]).primaryImage == Some(second.imagePath)
  {
    assert ImagesOf([first, second], p.id) == [first] + [second] by {
      assert [first, second][1..] == [second];
      assert [second][1..] == [];
    }
    PrimaryAfterNonPrimary([first], second);
  }

  /** The loop of the list endpoints: one item per product, in order. */
  method ProjectListItems(products: seq<Product>, images: seq<ProductImage>) returns (items: seq<ProductListItem>)
    ensures |items| == |products|
    ensures forall i :: 0 <= i < |products| ==> items[i] == ToListItem(products[i], images)
  {
    items := [];
    var i := 0;
    while i < |products|
      invariant 0 <= i <= |products|
      invariant |items| == i
      invariant forall k :: 0 <= k < i ==> items[k] == ToListItem(products[k], images)
    {
      items := items + [ToListItem(products[i], images)];
      i := i + 1;
    }
  }

  /** `list_products`: the search results as list items. */
  method ListProducts(catalog: Catalog, c: Criteria) returns (items: seq<ProductListItem>)
    ensures |items| == |Search(catalog.products, c)|
    ensures forall i :: 0 <= i < |items| ==> items[i] == ToListItem(Search(catalog.products, c)[i], catalog.images)
  {
    items := ProjectListItems(Search(catalog.products, c), catalog.images);
  }

  /** The products of one seller, in stored order, whatever their state. */
  function SellerProducts(products: seq<Product>, userId: Uuid): (r: seq<Product>)
    ensures forall p :: p in r <==> p in products && p.sellerId == userId
  {
    Filter(products, (p: Product) => p.sellerId == userId)
  }

  /** The query of `get_my_products`: only the caller's products, active or
      not, paged; a page that covers them all contains every one. The query
      has no ORDER BY, so the order of the rows is unspecified: the model
      takes stored order, and the contract does not fix it. */
  function MyProducts(products: seq<Product>, userId: Uuid, skip: nat, limit: nat): (r: seq<Product>)
    ensures forall p :: p in r ==> p in products && p.sellerId == userId
    ensures |r| == Min(limit, Max(0, |SellerProducts(products, userId)| - skip))
    ensures skip == 0 && limit >= |SellerProducts(products, userId)| ==>
      forall p :: p in products && p.sellerId == userId ==> p in r
  {
    var own := SellerProducts(products, userId);
    assert forall i :: 0 <= i < |Page(own, skip, limit)| ==> Page(own, skip, limit)[i] in own;
    assert skip == 0 && limit >= |own| ==> Page(own, skip, limit) == own;
    Page(own, skip, limit)
  }

  /** An inactive product never appears in a search, yet its seller's own
      listing shows it. */
  lemma InactiveListedOnlyToSeller(products: seq<Product>, c: Criteria, p: Product)
    requires p in products && !p.isActive
    ensures p !in Search(products, c)
    ensures p in MyProducts(products, p.sellerId, 0, |products|)
  {
    if p in Search(products, c) {
      SearchSound(products, c, p);
    }
  }

  /** `get_my_products`. */
  method GetMyProducts(catalog: Catalog, userId: Uuid, skip: nat, limit: nat) returns (items: seq<ProductListItem>)
    ensures |items| == |MyProducts(catalog.products, userId, skip, limit)|
    ensures forall i :: 0 <= i < |items| ==>
      items[i] == ToListItem(MyProducts(catalog.products, userId, skip, limit)[i], catalog.images)
  {
    items := ProjectListItems(MyProducts(catalog.products, userId, skip, limit), catalog.images);
  }

  /** `get_product`: a missing product is not found and nothing changes;
      otherwise its view count goes up by one and the updated row is
      returned. */
  method GetProduct(catalog: Catalog, productId: Uuid) returns (r: Result<Product, ApiError>)
    requires catalog.Valid()
    modifies catalog
    ensures catalog.Valid() && catalog.images == old(catalog.images)
    ensures var k := FindProduct(old(catalog.products), productId);
      if k.None? then r == Err(ProductNotFound) && catalog.products == old(catalog.products)
      else (var p := old(catalog.products)[k.value];
            r == Ok(p.(viewsCount := p.viewsCount + 1)) && catalog.products == old(catalog.products)[k.value := r.value])
  {
    var k := FindProduct(catalog.products, productId);
    if k.None? {
      return Err(ProductNotFound);
    }
    catalog.IncrementViews(productId);
    return Ok(catalog.products[k.value]);
  }

  /** The content types the upload endpoint accepts; others are skipped. */
  const AllowedUploadTypes: set<string> := {"image/jpeg", "image/png", "image/webp"}

  predicate AllowedUpload(f: UploadFile, allowed: set<string>) { f.contentType in allowed }

  /** The data stored for the accepted file at position `i` of the batch:
      only position 0 can be primary, and the MIME type is the declared
      content type. */
  function UploadData(productId: Uuid, uploadDir: string, f: UploadFile, uuid: string, i: nat, isPrimary: bool): (d: ImageData)
    ensures d.isPrimary <==> isPrimary && i == 0
    ensures d.mimeType == Some(f.contentType)
  {
    var p := ProcessedFor(f, productId, uploadDir, uuid);
    ImageData(p.originalPath, p.filename, p.fileSize, isPrimary && i == 0, Some(f.contentType))
  }

  /** The positions among the first `n` files whose content type is accepted. */
  function Accepted(files: seq<UploadFile>, allowed: set<string>, n: nat): (r: seq<nat>)
    requires n <= |files|
    ensures forall k :: 0 <= k < |r| ==> r[k] < n
  {
    if n == 0 then [] else Accepted(files, allowed, n - 1) + (if AllowedUpload(files[n - 1], allowed) then [n - 1] else [])
  }

  /** The accepted positions are exactly the positions below `n` of files
      with an accepted content type, in increasing order. */
  lemma {:induction false} AcceptedShape(files: seq<UploadFile>, allowed: set<string>, n: nat)
    requires n <= |files|
    ensures var r := Accepted(files, allowed, n);
      && (forall k :: 0 <= k < |r| ==> r[k] < n && AllowedUpload(files[r[k]], allowed))
      && (forall k, l :: 0 <= k < l < |r| ==> r[k] < r[l])
      && (forall j :: 0 <= j < n && AllowedUpload(files[j], allowed) ==> j in r)
  {
    if n > 0 {
      AcceptedShape(files, allowed, n - 1);
    }
  }

  /** The image data stored for the first `n` files of the batch. */
  function BatchData(productId: Uuid, uploadDir: string, files: seq<UploadFile>, uuids: seq<string>,
                     isPrimary: bool, allowed: set<string>, n: nat): seq<ImageData>
    requires n <= |files| && |uuids| == |files|
  {
    if n == 0 then []
    else (BatchData(productId, uploadDir, files, uuids, isPrimary, allowed, n - 1)
      + (if AllowedUpload(files[n - 1], allowed) then [UploadData(productId, uploadDir, files[n - 1], uuids[n - 1], n - 1, isPrimary)] else []))
  }

  /** `b` holds, position by position, the data of the files at the
      positions `acc`. */
  predicate Aligned(productId: Uuid, uploadDir: string, files: seq<UploadFile>, uuids: seq<string>,
                    isPrimary: bool, acc: seq<nat>, b: seq<ImageData>)
    requires |uuids| == |files|
  {
    && |b| == |acc|
    && forall k :: 0 <= k < |acc| ==>
      acc[k] < |files| && b[k] == UploadData(productId, uploadDir, files[acc[k]], uuids[acc[k]], acc[k], isPrimary)
  }

  lemma AlignedSnoc(productId: Uuid, uploadDir: string, files: seq<UploadFile>, uuids: seq<string>,
                    isPrimary: bool, acc: seq<nat>, b: seq<ImageData>, j: nat)
    requires |uuids| == |files| && j < |files|
    requires Aligned(productId, uploadDir, files, uuids, isPrimary, acc, b)
    ensures Aligned(productId, uploadDir, files, uuids, isPrimary, acc + [j],
                    b + [UploadData(productId, uploadDir, files[j], uuids[j], j, isPrimary)])
  {
  }

  /** The stored data follow the accepted files in input order, skipping
      the others. */
  lemma {:induction false} BatchInOrder(productId: Uuid, uploadDir: string, files: seq<UploadFile>,
                                        uuids: seq<string>, isPrimary: bool, allowed: set<string>, n: nat)
    requires n <= |files| && |uuids| == |files|
    ensures Aligned(productId, uploadDir, files, uuids, isPrimary, Accepted(files, allowed, n),
                    BatchData(productId, uploadDir, files, uuids, isPrimary, allowed, n))
  {
    if n > 0 {
      BatchInOrder(productId, uploadDir, files, uuids, isPrimary, allowed, n - 1);
      var acc := Accepted(files, allowed, n - 1);
      var b := BatchData(productId, uploadDir, files, uuids, isPrimary, allowed, n - 1);
      if AllowedUpload(files[n - 1], allowed) {
        AlignedSnoc(productId, uploadDir, files, uuids, isPrimary, acc, b, n - 1);
        AcceptedBatchSnoc(productId, uploadDir, files, uuids, isPrimary, allowed, n);
      } else {
        AcceptedBatchSkip(productId, uploadDir, files, uuids, isPrimary, allowed, n);
      }
    }
  }

  lemma AcceptedBatchSnoc(productId: Uuid, uploadDir: string, files: seq<UploadFile>,
                          uuids: seq<string>, isPrimary: bool, allowed: set<string>, n: nat)
    requires 0 < n <= |files| && |uuids| == |files| && AllowedUpload(files[n - 1], allowed)
    ensures Accepted(files, allowed, n) == Accepted(files, allowed, n - 1) + [n - 1]
    ensures BatchData(productId, uploadDir, files, uuids, isPrimary, allowed, n)
      == BatchData(productId, uploadDir, files, uuids, isPrimary, allowed, n - 1)
         + [UploadData(productId, uploadDir, files[n - 1], uuids[n - 1], n - 1, isPrimary)]
  {
  }

  lemma AcceptedBatchSkip(productId: Uuid, uploadDir: string, files: seq<UploadFile>,
                          uuids: seq<string>, isPrimary: bool, allowed: set<string>, n: nat)
    requires 0 < n <= |files| && |uuids| == |files| && !AllowedUpload(files[n - 1], allowed)
    ensures Accepted(files, allowed, n) == Accepted(files, allowed, n - 1)
    ensures BatchData(productId, uploadDir, files, uuids, isPrimary, allowed, n)
      == BatchData(productId, uploadDir, files, uuids, isPrimary, allowed, n - 1)
  {
  }

  /** An image of the batch is primary exactly when it is the first one,
      primary was requested and the file at position 0 was accepted; so a
      skipped first file leaves the whole batch without a primary image. */
  lemma BatchPrimaryRule(productId: Uuid, uploadDir: string, files: seq<UploadFile>,
                         uuids: seq<string>, isPrimary: bool, allowed: set<string>, n: nat)
    requires n <= |files| && |uuids| == |files|
    ensures var b := BatchData(productId, uploadDir, files, uuids, isPrimary, allowed, n);
      forall k :: 0 <= k < |b| ==>
        (b[k].isPrimary <==> k == 0 && isPrimary && 0 < |files| && AllowedUpload(files[0], allowed))
  {
    BatchInOrder(productId, uploadDir, files, uuids, isPrimary, allowed, n);
    AcceptedShape(files, allowed, n);
    var acc := Accepted(files, allowed, n);
    if 0 < n && AllowedUpload(files[0], allowed) {
      assert 0 in acc;
      assert acc[0] == 0;
    }
  }

  /** The image table after adding the batch's images one by one. */
  function AddAll(images: seq<ProductImage>, productId: Uuid, ds: seq<ImageData>): seq<ProductImage>
    decreases |ds|
  {
    if ds == [] then images
    else AddImage(AddAll(images, productId, ds[..|ds| - 1]), productId, ds[|ds| - 1])
  }

  /** Adding a batch appends one row per image data, with its stored path,
      leaves the images of other products untouched, and keeps at most one
      primary image per product. */
  lemma {:induction false} AddAllLaws(images: seq<ProductImage>, productId: Uuid, ds: seq<ImageData>)
    ensures var r := AddAll(images, productId, ds);
      && |r| == |images| + |ds|
      && (forall i :: 0 <= i < |images| && images[i].productId != productId ==> r[i] == images[i])
      && (forall k :: 0 <= k < |ds| ==> r[|images| + k].imagePath == ds[k].originalPath)
      && (AtMostOnePrimary(images) ==> AtMostOnePrimary(r))
  {
    AddAllRows(images, productId, ds);
    if AtMostOnePrimary(images) {
      AddAllKeepsAtMostOnePrimary(images, productId, ds);
    }
  }

  lemma {:induction false} AddAllRows(images: seq<ProductImage>, productId: Uuid, ds: seq<ImageData>)
    ensures var r := AddAll(images, productId, ds);
      && |r| == |images| + |ds|
      && (forall i :: 0 <= i < |images| && images[i].productId != productId ==> r[i] == images[i])
      && (forall k :: 0 <= k < |ds| ==> r[|images| + k].imagePath == ds[k].originalPath)
    decreases |ds|
  {
    if ds != [] {
      var front := ds[..|ds| - 1];
      var before := AddAll(images, productId, front);
      AddAllRows(images, productId, front);
      AddImageLaws(before, productId, ds[|ds| - 1]);
      var r := AddAll(images, productId, ds);
      assert r == AddImage(before, productId, ds[|ds| - 1]);
      forall k | 0 <= k < |ds| ensures r[|images| + k].imagePath == ds[k].originalPath {
        if k < |front| {
          assert r[|images| + k].imagePath == before[|images| + k].imagePath;
          assert front[k] == ds[k];
        }
      }
    }
  }

  lemma {:induction false} AddAllKeepsAtMostOnePrimary(images: seq<ProductImage>, productId: Uuid, ds: seq<ImageData>)
    requires AtMostOnePrimary(images)
    ensures AtMostOnePrimary(AddAll(images, productId, ds))
    decreases |ds|
  {
    if ds != [] {
      var before := AddAll(images, productId, ds[..|ds| - 1]);
      AddAllKeepsAtMostOnePrimary(images, productId, ds[..|ds| - 1]);
      AddImageLaws(before, productId, ds[|ds| - 1]);
    }
  }

  /** The rows the endpoint reports, one per stored image data. */
  function Rows(productId: Uuid, ds: seq<ImageData>): seq<ProductImage>
    decreases |ds|
  {
    if ds == [] then [] else Rows(productId, ds[..|ds| - 1]) + [ImageRow(productId, ds[|ds| - 1])]
  }

  /** The reported rows are the image rows of the stored data, in order. */
  lemma {:induction false} RowsShape(productId: Uuid, ds: seq<ImageData>)
    ensures |Rows(productId, ds)| == |ds|
    ensures forall k :: 0 <= k < |ds| ==> Rows(productId, ds)[k] == ImageRow(productId, ds[k])
    decreases |ds|
  {
    if ds != [] {
      RowsShape(productId, ds[..|ds| - 1]);
    }
  }

  /** How many files the upload loop gets through: it stops at the first
      accepted file that cannot be rendered (see `Renderable`). */
  function ProcessedCount(files: seq<UploadFile>, allowed: set<string>, savable: set<string>): (n: nat)
    ensures n <= |files|
  {
    match FirstIndex(files, (f: UploadFile) => AllowedUpload(f, allowed) && !Renderable(f, savable))
    case None => |files|
    case Some(i) => i
  }

  /** Every file before the count is skipped or renderable, and the file at
      the count, if any, is accepted but cannot be rendered. */
  lemma ProcessedCountShape(files: seq<UploadFile>, allowed: set<string>, savable: set<string>)
    ensures var n := ProcessedCount(files, allowed, savable);
      && (forall j :: 0 <= j < n ==> !(AllowedUpload(files[j], allowed) && !Renderable(files[j], savable)))
      && (n < |files| ==> AllowedUpload(files[n], allowed) && !Renderable(files[n], savable))
  {
  }

  /** The loop reaches the count exactly at the first accepted file that
      cannot be rendered. */
  lemma ProcessedStep(files: seq<UploadFile>, allowed: set<string>, savable: set<string>, i: nat)
    requires i <= ProcessedCount(files, allowed, savable) && i < |files|
    ensures AllowedUpload(files[i], allowed) && !Renderable(files[i], savable) ==> i == ProcessedCount(files, allowed, savable)
    ensures !(AllowedUpload(files[i], allowed) && !Renderable(files[i], savable)) ==> i < ProcessedCount(files, allowed, savable)
  {
    ProcessedCountShape(files, allowed, savable);
  }

  /** One more file of the batch: an accepted file adds its image, any
      other file adds nothing. */
  lemma BatchStep(images0: seq<ProductImage>, productId: Uuid, uploadDir: string, files: seq<UploadFile>,
                  uuids: seq<string>, isPrimary: bool, allowed: set<string>, i: nat)
    requires i < |files| && |uuids| == |files|
    ensures var ds := BatchData(productId, uploadDir, files, uuids, isPrimary, allowed, i);
      var next := BatchData(productId, uploadDir, files, uuids, isPrimary, allowed, i + 1);
      var d := UploadData(productId, uploadDir, files[i], uuids[i], i, isPrimary);
      if AllowedUpload(files[i], allowed) then
        && next == ds + [d]
        && AddAll(images0, productId, next) == AddImage(AddAll(images0, productId, ds), productId, d)
        && Rows(productId, next) == Rows(productId, ds) + [ImageRow(productId, d)]
      else
        next == ds
  {
    var ds := BatchData(productId, uploadDir, files, uuids, isPrimary, allowed, i);
    var d := UploadData(productId, uploadDir, files[i], uuids[i], i, isPrimary);
    if AllowedUpload(files[i], allowed) {
      assert (ds + [d])[..|ds|] == ds;
    }
  }

  /** A batch of three renderable files whose second file has a content
      type outside the allow-list is processed to the end and stores two
      images: the upload reports `uploaded_count` 2. */
  lemma UploadCountExample(productId: Uuid, uploadDir: string, files: seq<UploadFile>,
                           uuids: seq<string>, isPrimary: bool, savable: set<string>)
    requires |files| == 3 && |uuids| == 3
    requires forall j :: 0 <= j < 3 ==> Renderable(files[j], savable)
    requires files[0].contentType in AllowedUploadTypes && files[2].contentType in AllowedUploadTypes
    requires files[1].contentType !in AllowedUploadTypes
    ensures ProcessedCount(files, AllowedUploadTypes, savable) == 3
    ensures |BatchData(productId, uploadDir, files, uuids, isPrimary, AllowedUploadTypes, 3)| == 2
  {
    ProcessedCountShape(files, AllowedUploadTypes, savable);
    AcceptedBatchSnoc(productId, uploadDir, files, uuids, isPrimary, AllowedUploadTypes, 1);
    AcceptedBatchSkip(productId, uploadDir, files, uuids, isPrimary, AllowedUploadTypes, 2);
    AcceptedBatchSnoc(productId, uploadDir, files, uuids, isPrimary, AllowedUploadTypes, 3);
  }

  /** The response of the upload endpoint. */
  datatype UploadResult = UploadResult(uploadedCount: nat, images: seq<ProductImage>)

  /** The body of the upload loop for an accepted file: it is processed
      and its image stored, unless it cannot be rendered. */
  method StoreUpload(catalog: Catalog, fs: FileSystem, productId: Uuid, uploadDir: string,
                     f: UploadFile, uuid: string, i: nat, isPrimary: bool, savable: set<string>)
    returns (r: Result<ProductImage, ApiError>)
    requires catalog.Valid() && UuidText(uuid)
    modifies catalog, fs
    ensures catalog.Valid() && catalog.products == old(catalog.products)
    ensures old(fs.dirs) <= fs.dirs && old(fs.files) <= fs.files
    ensures !Renderable(f, savable) ==> r == Err(ImageProcessingFailed) && catalog.images == old(catalog.images)
    ensures Renderable(f, savable) ==>
      var d := UploadData(productId, uploadDir, f, uuid, i, isPrimary);
      && r == Ok(ImageRow(productId, d))
      && catalog.images == AddImage(old(catalog.images), productId, d)
      && d.originalPath in fs.files
  {
    var processed := fs.ProcessProductImage(f, productId, uploadDir, uuid, savable);
    if processed.Err? {
      return Err(ImageProcessingFailed);
    }
    var data := ImageData(processed.value.originalPath, processed.value.filename, processed.value.fileSize,
                          isPrimary && i == 0, Some(f.contentType));
    var img := catalog.AddProductImage(productId, data);
    return Ok(img);
  }

  /** One pass of the upload loop, at position `i`, with the images stored
      and reported so far: a file of another content type is skipped, an
      accepted one is processed and stored, and one that cannot be
      rendered ends the loop. */
  method StoreNext(catalog: Catalog, fs: FileSystem, productId: Uuid, files: seq<UploadFile>,
                   isPrimary: bool, uuids: seq<string>, uploadDir: string, allowed: set<string>,
                   savable: set<string>, i: nat, uploaded: seq<ProductImage>, ghost images0: seq<ProductImage>)
    returns (r: Result<seq<ProductImage>, ApiError>)
    requires i < |files| && |uuids| == |files| && catalog.Valid()
    requires forall j :: 0 <= j < |uuids| ==> UuidText(uuids[j])
    requires catalog.images == AddAll(images0, productId, BatchData(productId, uploadDir, files, uuids, isPrimary, allowed, i))
    requires uploaded == Rows(productId, BatchData(productId, uploadDir, files, uuids, isPrimary, allowed, i))
    modifies catalog, fs
    ensures catalog.Valid() && catalog.products == old(catalog.products)
    ensures old(fs.dirs) <= fs.dirs && old(fs.files) <= fs.files
    ensures r.Err? <==> AllowedUpload(files[i], allowed) && !Renderable(files[i], savable)
    ensures r.Err? ==> r.error == ImageProcessingFailed && catalog.images == old(catalog.images)
    ensures r.Ok? ==>
      var ds := BatchData(productId, uploadDir, files, uuids, isPrimary, allowed, i + 1);
      catalog.images == AddAll(images0, productId, ds) && r.value == Rows(productId, ds)
  {
    BatchStep(images0, productId, uploadDir, files, uuids, isPrimary, allowed, i);
    if files[i].contentType !in allowed {
      return Ok(uploaded);
    }
    var stored := StoreUpload(catalog, fs, productId, uploadDir, files[i], uuids[i], i, isPrimary, savable);
    if stored.Err? {
      return Err(ImageProcessingFailed);
    }
    return Ok(uploaded + [stored.value]);
  }

  /** The loop of `upload_product_images`, for a product the caller owns,
      with the accepted content types `allowed`. */
  method StoreBatch(catalog: Catalog, fs: FileSystem, productId: Uuid, files: seq<UploadFile>,
                    isPrimary: bool, uuids: seq<string>, uploadDir: string, allowed: set<string>,
                    savable: set<string>)
    returns (r: Result<UploadResult, ApiError>)
    requires catalog.Valid() && |uuids| == |files|
    requires forall j :: 0 <= j < |uuids| ==> UuidText(uuids[j])
    modifies catalog, fs
    ensures catalog.Valid() && catalog.products == old(catalog.products)
    ensures var n := ProcessedCount(files, allowed, savable);
      var batch := BatchData(productId, uploadDir, files, uuids, isPrimary, allowed, n);
      && catalog.images == AddAll(old(catalog.images), productId, batch)
      && (n == |files| ==> r == Ok(UploadResult(|batch|, Rows(productId, batch))))
      && (n < |files| ==> r == Err(ImageProcessingFailed))
    ensures old(fs.dirs) <= fs.dirs && old(fs.files) <= fs.files
  {
    ghost var n := ProcessedCount(files, allowed, savable);
    ghost var images0 := catalog.images;
    var uploaded: seq<ProductImage> := [];
    var i := 0;
    while i < |files|
      invariant 0 <= i <= n
      invariant catalog.Valid() && catalog.products == old(catalog.products)
      invariant catalog.images == AddAll(images0, productId, BatchData(productId, uploadDir, files, uuids, isPrimary, allowed, i))
      invariant uploaded == Rows(productId, BatchData(productId, uploadDir, files, uuids, isPrimary, allowed, i))
      invariant old(fs.dirs) <= fs.dirs && old(fs.files) <= fs.files
    {
      ProcessedStep(files, allowed, savable, i);
      var step := StoreNext(catalog, fs, productId, files, isPrimary, uuids, uploadDir, allowed, savable, i, uploaded, images0);
      if step.Err? {
        return Err(ImageProcessingFailed);
      }
      uploaded := step.value;
      i := i + 1;
    }
    RowsShape(productId, BatchData(productId, uploadDir, files, uuids, isPrimary, allowed, i));
    return Ok(UploadResult(|uploaded|, uploaded));
  }

  /** `upload_product_images`: for a product the caller owns, each accepted
      file is processed and stored, in order, the first one as primary when
      requested; a file that cannot be rendered ends the request with an
      error, the images stored before it remaining. For a product the
      caller does not own nothing is stored. */
  method UploadProductImages(catalog: Catalog, fs: FileSystem, productId: Uuid, userId: Uuid,
                             files: seq<UploadFile>, isPrimary: bool, uuids: seq<string>, uploadDir: string,
                             savable: set<string>)
    returns (r: Result<UploadResult, ApiError>)
    requires catalog.Valid() && |uuids| == |files|
    requires forall j :: 0 <= j < |uuids| ==> UuidText(uuids[j])
    modifies catalog, fs
    ensures catalog.Valid() && catalog.products == old(catalog.products)
    ensures OwnedIndex(old(catalog.products), productId, userId).None? ==>
      r == Err(ProductNotFound) && catalog.images == old(catalog.images)
      && fs.dirs == old(fs.dirs) && fs.files == old(fs.files)
    ensures OwnedIndex(old(catalog.products), productId, userId).Some? ==>
      var n := ProcessedCount(files, AllowedUploadTypes, savable);
      var batch := BatchData(productId, uploadDir, files, uuids, isPrimary, AllowedUploadTypes, n);
      && catalog.images == AddAll(old(catalog.images), productId, batch)
      && (n == |files| ==> r == Ok(UploadResult(|batch|, Rows(productId, batch))))
      && (n < |files| ==> r == Err(ImageProcessingFailed))
    ensures old(fs.dirs) <= fs.dirs && old(fs.files) <= fs.files
  {
    var owned := OwnedIndex(catalog.products, productId, userId);
    if owned.None? {
      return Err(ProductNotFound);
    }
    r := StoreBatch(catalog, fs, productId, files, isPrimary, uuids, uploadDir, AllowedUploadTypes, savable);
  }
}
