/** The product service: creating, updating and deleting products, counting
    views, and the image table with its rule that a product has at most
    one primary image. The two tables are sequences in insertion order;
    a query's `.first()` picks the earliest matching row. */
module ProductService {
  import opened Common
  import opened ProductSchema

  /** No product has two primary images. */
  predicate AtMostOnePrimary(images: seq<ProductImage>)
  {
    forall i, j ::
      (0 <= i < |images| && 0 <= j < |images| && images[i].isPrimary && images[j].isPrimary
       && images[i].productId == images[j].productId) ==> i == j
  }

  /** Why the database refuses to delete a product: a conversation's
      non-null foreign key still points at it. */
  datatype DeleteError = ReferencedByConversation

  /** The dictionary `add_product_image` receives. */
  datatype ImageData = ImageData(
    originalPath: string,
    filename: string,
    fileSize: int,
    isPrimary: bool,
    mimeType: Option<string>)

  /** The row `add_product_image` inserts for `data`. */
  function ImageRow(productId: Uuid, data: ImageData): (img: ProductImage)
    ensures img.productId == productId && img.imagePath == data.originalPath
    ensures img.imageName == data.filename && img.isPrimary == data.isPrimary
    ensures img.fileSize == Some(data.fileSize) && img.mimeType == data.mimeType
  {
    ProductImage(productId, data.originalPath, data.filename, data.isPrimary, Some(data.fileSize), data.mimeType)
  }

  /** The bulk `UPDATE ... SET is_primary = false` over one product's images. */
  function ClearPrimary(images: seq<ProductImage>, productId: Uuid): (r: seq<ProductImage>)
    ensures |r| == |images|
    ensures forall i :: 0 <= i < |r| && r[i].productId == productId ==> !r[i].isPrimary
    ensures forall i :: 0 <= i < |r| && images[i].productId != productId ==> r[i] == images[i]
    ensures forall i :: 0 <= i < |r| ==> r[i] == images[i].(isPrimary := r[i].isPrimary)
  {
    seq(|images|, i requires 0 <= i < |images| =>
      if images[i].productId == productId then images[i].(isPrimary := false) else images[i])
  }

  /** The image table after `add_product_image`. */
  function AddImage(images: seq<ProductImage>, productId: Uuid, data: ImageData): (r: seq<ProductImage>)
    ensures |r| == |images| + 1 && r[|images|] == ImageRow(productId, data)
  {
    (if data.isPrimary then ClearPrimary(images, productId) else images) + [ImageRow(productId, data)]
  }

  /** `add_product_image` inserts one row at the end; when it is primary, no
      earlier image of the same product still is; the images of other
      products are untouched, earlier rows change in their primary flag at
      most; and the table keeps at most one primary image per product. */
  lemma AddImageLaws(images: seq<ProductImage>, productId: Uuid, data: ImageData)
    ensures var r := AddImage(images, productId, data);
      && (forall i :: 0 <= i < |images| && images[i].productId != productId ==> r[i] == images[i])
      && (!data.isPrimary ==> r[..|images|] == images)
      && (data.isPrimary ==> forall i :: 0 <= i < |images| && r[i].productId == productId ==> !r[i].isPrimary)
      && (forall i :: 0 <= i < |images| ==> r[i] == images[i].(isPrimary := r[i].isPrimary))
      && (AtMostOnePrimary(images) ==> AtMostOnePrimary(r))
  {
    var cleared := if data.isPrimary then ClearPrimary(images, productId) else images;
    var r := AddImage(images, productId, data);
    assert r[..|images|] == cleared;
  }

  /** The images of one product, in stored order. */
  function ImagesOf(images: seq<ProductImage>, productId: Uuid): (r: seq<ProductImage>)
    ensures forall img :: img in r <==> img in images && img.productId == productId
  {
    Filter(images, (img: ProductImage) => img.productId == productId)
  }

  /** Deleting rows keeps at most one primary image per product. */
  lemma {:induction false} FilterKeepsAtMostOnePrimary(images: seq<ProductImage>, keep: ProductImage -> bool)
    requires AtMostOnePrimary(images)
    ensures AtMostOnePrimary(Filter(images, keep))
    decreases |images|
  {
    if images != [] {
      var tail := images[1..];
      assert AtMostOnePrimary(tail) by {
        forall i, j | 0 <= i < |tail| && 0 <= j < |tail| && tail[i].isPrimary && tail[j].isPrimary
          && tail[i].productId == tail[j].productId
          ensures i == j
        {
          assert images[i + 1] == tail[i] && images[j + 1] == tail[j];
        }
      }
      FilterKeepsAtMostOnePrimary(tail, keep);
      var rest := Filter(tail, keep);
      if keep(images[0]) && images[0].isPrimary {
        forall k | 0 <= k < |rest| && rest[k].isPrimary ensures rest[k].productId != images[0].productId {
          assert rest[k] in rest && rest[k] in tail;
          var j :| 0 <= j < |tail| && tail[j] == rest[k];
          assert images[j + 1] == rest[k];
        }
        var r := [images[0]] + rest;
        assert forall k :: 1 <= k < |r| ==> r[k] == rest[k - 1];
        assert Filter(images, keep) == r;
      }
    }
  }

  /** The row `update_product`, `delete_product` and `upload_product_images`
      act on: the first product with that id owned by that user. */
  function OwnedIndex(products: seq<Product>, productId: Uuid, userId: Uuid): (r: Option<nat>)
    ensures r.Some? ==> r.value < |products| && products[r.value].id == productId && products[r.value].sellerId == userId
    ensures r.None? <==> forall p :: p in products ==> !(p.id == productId && p.sellerId == userId)
  {
    FirstIndex(products, (p: Product) => p.id == productId && p.sellerId == userId)
  }

  /** The row `get_product` and `increment_views` act on: the first product
      with that id. */
  function FindProduct(products: seq<Product>, productId: Uuid): (r: Option<nat>)
    ensures r.Some? ==> r.value < |products| && products[r.value].id == productId
    ensures r.Some? ==> forall j :: 0 <= j < r.value ==> products[j].id != productId
    ensures r.None? <==> forall p :: p in products ==> p.id != productId
  {
    FirstIndex(products, (p: Product) => p.id == productId)
  }

  /** The product and image tables. */
  class Catalog {
    var products: seq<Product>
    var images: seq<ProductImage>

    predicate Valid()
      reads this
    {
      AtMostOnePrimary(images)
    }

    constructor ()
      ensures products == [] && images == [] && Valid()
    {
      products := [];
      images := [];
    }

    /** `create_product`: the request's fields under the seller's id, with
        the column defaults. */
    method CreateProduct(pc: ProductCreate, sellerId: Uuid, newId: Uuid, now: int) returns (p: Product)
      requires Valid()
      modifies this
      ensures Valid()
      ensures p == NewProduct(pc, sellerId, newId, now)
      ensures products == old(products) + [p] && images == old(images)
    {
      p := NewProduct(pc, sellerId, newId, now);
      products := products + [p];
    }

    /** `update_product`: only the owner's product changes, and only in the
        supplied fields; otherwise nothing changes and there is no result. */
    method UpdateProduct(productId: Uuid, upd: ProductUpdate, userId: Uuid) returns (r: Option<Product>)
      requires Valid()
      modifies this
      ensures Valid() && images == old(images)
      ensures var k := OwnedIndex(old(products), productId, userId);
        if k.None? then r.None? && products == old(products)
        else (r == Some(ApplyProductUpdate(old(products)[k.value], upd))
              && products == old(products)[k.value := r.value])
    {
      var k := OwnedIndex(products, productId, userId);
      if k.None? {
        return None;
      }
      var updated := ApplyProductUpdate(products[k.value], upd);
      products := products[k.value := updated];
      return Some(updated);
    }

    /** `delete_product`: the owner's product is removed together with its
        images (the relationship cascades deletes); otherwise nothing
        changes. `referenced` holds the ids of the products a conversation
        names: the conversations relationship does not cascade and its
        foreign key cannot be null, so deleting such a product fails at the
        commit and the transaction leaves both tables as they were. */
    method DeleteProduct(productId: Uuid, userId: Uuid, referenced: set<Uuid>) returns (r: Result<bool, DeleteError>)
      requires Valid()
      modifies this
      ensures Valid()
      ensures var k := OwnedIndex(old(products), productId, userId);
        if k.None? then r == Ok(false) && products == old(products) && images == old(images)
        else if productId in referenced then
          r == Err(ReferencedByConversation) && products == old(products) && images == old(images)
        else (r == Ok(true)
              && products == old(products)[..k.value] + old(products)[k.value + 1..]
              && images == Filter(old(images), (img: ProductImage) => img.productId != productId))
    {
      var k := OwnedIndex(products, productId, userId);
      if k.None? {
        return Ok(false);
      }
      if productId in referenced {
        return Err(ReferencedByConversation);
      }
      products := products[..k.value] + products[k.value + 1..];
      FilterKeepsAtMostOnePrimary(images, (img: ProductImage) => img.productId != productId);
      images := Filter(images, (img: ProductImage) => img.productId != productId);
      return Ok(true);
    }

    /** `increment_views`: the first product with that id gains exactly one
        view; with no such product nothing changes. */
    method IncrementViews(productId: Uuid)
      requires Valid()
      modifies this
      ensures Valid() && images == old(images)
      ensures var k := FindProduct(old(products), productId);
        if k.None? then products == old(products)
        else products == old(products)[k.value := old(products)[k.value].(viewsCount := old(products)[k.value].viewsCount + 1)]
    {
      var k := FindProduct(products, productId);
      if k.Some? {
        var p := products[k.value];
        products := products[k.value := p.(viewsCount := p.viewsCount + 1)];
      }
    }

    /** `add_product_image`: clear the product's primary flags when the new
        image is primary, then insert the new row. */
    method AddProductImage(productId: Uuid, data: ImageData) returns (img: ProductImage)
      requires Valid()
      modifies this
      ensures Valid()
      ensures img == ImageRow(productId, data)
      ensures images == AddImage(old(images), productId, data) && products == old(products)
    {
      AddImageLaws(images, productId, data);
      if data.isPrimary {
        images := ClearPrimary(images, productId);
      }
      img := ImageRow(productId, data);
      images := images + [img];
    }
  }
}
