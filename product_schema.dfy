/** Products and their images: the stored rows, the create and update
    requests, the list item, and the field constraints and defaults the
    schema enforces. Prices are integers in minor units (hundredths), dates
    and times are integers, and `specifications` is kept as opaque text. */
module ProductSchema {
  import opened Common
  import opened Validators

  datatype Condition = New | LikeNew | Good | Fair | Poor

  datatype Status = Active | Sold | Reserved | Inactive

  function ConditionName(c: Condition): string
  {
    match c
    case New => "new"
    case LikeNew => "like_new"
    case Good => "good"
    case Fair => "fair"
    case Poor => "poor"
  }

  /** The enumeration member a text names, if any. */
  function ParseCondition(s: string): (r: Option<Condition>)
    ensures r.Some? ==> ConditionName(r.value) == s
  {
    if s == "new" then Some(New)
    else if s == "like_new" then Some(LikeNew)
    else if s == "good" then Some(Good)
    else if s == "fair" then Some(Fair)
    else if s == "poor" then Some(Poor)
    else None
  }

  /** Every condition is named by exactly one text. */
  lemma ConditionNamesRoundTrip(c: Condition, s: string)
    ensures ParseCondition(ConditionName(c)) == Some(c)
    ensures ParseCondition(s).None? <==> forall d: Condition :: ConditionName(d) != s
  {
    if ParseCondition(s).None? {
      forall d: Condition ensures ConditionName(d) != s {
        match d
        case New => assert ParseCondition("new").Some?;
        case LikeNew => assert ParseCondition("like_new").Some?;
        case Good => assert ParseCondition("good").Some?;
        case Fair => assert ParseCondition("fair").Some?;
        case Poor => assert ParseCondition("poor").Some?;
      }
    }
  }

  function StatusName(s: Status): string
  {
    match s
    case Active => "active"
    case Sold => "sold"
    case Reserved => "reserved"
    case Inactive => "inactive"
  }

  function ParseStatus(s: string): (r: Option<Status>)
    ensures r.Some? ==> StatusName(r.value) == s
  {
    if s == "active" then Some(Active)
    else if s == "sold" then Some(Sold)
    else if s == "reserved" then Some(Reserved)
    else if s == "inactive" then Some(Inactive)
    else None
  }

  /** Every status is named by exactly one text. */
  lemma StatusNamesRoundTrip(st: Status, s: string)
    ensures ParseStatus(StatusName(st)) == Some(st)
    ensures ParseStatus(s).None? <==> forall d: Status :: StatusName(d) != s
  {
    if ParseStatus(s).None? {
      forall d: Status ensures StatusName(d) != s {
        match d
        case Active => assert ParseStatus("active").Some?;
        case Sold => assert ParseStatus("sold").Some?;
        case Reserved => assert ParseStatus("reserved").Some?;
        case Inactive => assert ParseStatus("inactive").Some?;
      }
    }
  }

  /** The stored product row. */
  datatype Product = Product(
    id: Uuid,
    sellerId: Uuid,
    title: string,
    description: string,
    categoryId: Uuid,
    materialId: Option<Uuid>,
    quantity: int,
    unit: Option<string>,
    price: Option<int>,
    priceNegotiable: bool,
    condition: Condition,
    manufacturingDate: Option<int>,
    locationCity: Option<string>,
    locationState: Option<string>,
    pincode: Option<string>,
    specifications: Option<string>,
    isActive: bool,
    isFeatured: bool,
    viewsCount: int,
    status: Status,
    createdAt: int,
    updatedAt: int)

  /** The stored image row. */
  datatype ProductImage = ProductImage(
    productId: Uuid,
    imagePath: string,
    imageName: string,
    isPrimary: bool,
    fileSize: Option<int>,
    mimeType: Option<string>)

  /** The create request (`ProductBase`/`ProductCreate`). */
  datatype ProductCreate = ProductCreate(
    title: string,
    description: string,
    categoryId: Uuid,
    materialId: Option<Uuid>,
    quantity: int,
    unit: Option<string>,
    price: Option<int>,
    priceNegotiable: bool,
    condition: Condition,
    manufacturingDate: Option<int>,
    locationCity: Option<string>,
    locationState: Option<string>,
    pincode: Option<string>,
    specifications: Option<string>)

  /** The update request: every field may be left out. */
  datatype ProductUpdate = ProductUpdate(
    title: Patch<string>,
    description: Patch<string>,
    categoryId: Patch<Uuid>,
    materialId: Patch<Option<Uuid>>,
    quantity: Patch<int>,
    unit: Patch<Option<string>>,
    price: Patch<Option<int>>,
    priceNegotiable: Patch<bool>,
    condition: Patch<Condition>,
    manufacturingDate: Patch<Option<int>>,
    locationCity: Patch<Option<string>>,
    locationState: Patch<Option<string>>,
    pincode: Patch<Option<string>>,
    specifications: Patch<Option<string>>,
    status: Patch<Status>)

  /** One entry of a product listing. */
  datatype ProductListItem = ProductListItem(
    id: Uuid,
    title: string,
    price: Option<int>,
    priceNegotiable: bool,
    condition: Condition,
    locationCity: Option<string>,
    locationState: Option<string>,
    viewsCount: int,
    status: Status,
    createdAt: int,
    primaryImage: Option<string>)

  const MinTitleLength := 5
  const MaxTitleLength := 200
  const MinDescriptionLength := 10

  predicate ValidTitle(t: string) { MinTitleLength <= |t| <= MaxTitleLength }
  predicate ValidDescription(d: string) { |d| >= MinDescriptionLength }
  predicate ValidQuantity(q: int) { q > 0 }
  predicate ValidPrice(p: Option<int>) { p.Some? ==> p.value >= 0 }
  predicate ValidPincode(p: Option<string>) { p.Some? ==> IsPincode(p.value) }

  /** The field constraints of `ProductBase`. */
  predicate ValidProductCreate(pc: ProductCreate)
  {
    && ValidTitle(pc.title)
    && ValidDescription(pc.description)
    && ValidQuantity(pc.quantity)
    && ValidPrice(pc.price)
    && ValidPincode(pc.pincode)
  }

  /** The field constraints of `ProductUpdate`: each supplied field obeys the
      constraint it has on create. */
  predicate ValidProductUpdate(u: ProductUpdate)
  {
    && (u.title.Given? ==> ValidTitle(u.title.value))
    && (u.description.Given? ==> ValidDescription(u.description.value))
    && (u.quantity.Given? ==> ValidQuantity(u.quantity.value))
    && (u.price.Given? ==> ValidPrice(u.price.value))
    && (u.pincode.Given? ==> ValidPincode(u.pincode.value))
  }

  /** A create request that supplies only the required fields. */
  function MinimalProductCreate(title: string, description: string, categoryId: Uuid, quantity: int): (pc: ProductCreate)
    ensures pc.priceNegotiable && pc.condition == Good
    ensures pc.materialId.None? && pc.price.None? && pc.pincode.None? && pc.unit.None?
    ensures ValidProductCreate(pc) <==>
      5 <= |title| <= 200 && |description| >= 10 && quantity > 0
  {
    ProductCreate(title, description, categoryId, None, quantity, None, None, true, Good,
                  None, None, None, None, None)
  }

  /** A stored row keeps the constraints it was created under. */
  predicate ValidProduct(p: Product)
  {
    && ValidTitle(p.title)
    && ValidDescription(p.description)
    && ValidQuantity(p.quantity)
    && ValidPrice(p.price)
    && ValidPincode(p.pincode)
    && p.viewsCount >= 0
  }

  /** The row `create_product` inserts: the request's fields, the seller,
      and the column defaults (active, not featured, no views, status
      active). */
  function NewProduct(pc: ProductCreate, sellerId: Uuid, id: Uuid, now: int): (p: Product)
    ensures p.id == id && p.sellerId == sellerId
    ensures p.title == pc.title && p.description == pc.description && p.price == pc.price
    ensures p.condition == pc.condition && p.quantity == pc.quantity
    ensures p.categoryId == pc.categoryId && p.materialId == pc.materialId && p.unit == pc.unit
    ensures p.priceNegotiable == pc.priceNegotiable && p.manufacturingDate == pc.manufacturingDate
    ensures p.locationCity == pc.locationCity && p.locationState == pc.locationState
    ensures p.pincode == pc.pincode && p.specifications == pc.specifications
    ensures p.createdAt == now && p.updatedAt == now
    ensures p.isActive && !p.isFeatured && p.viewsCount == 0 && p.status == Active
    ensures ValidProductCreate(pc) ==> ValidProduct(p)
  {
    Product(id, sellerId, pc.title, pc.description, pc.categoryId, pc.materialId, pc.quantity,
            pc.unit, pc.price, pc.priceNegotiable, pc.condition, pc.manufacturingDate,
            pc.locationCity, pc.locationState, pc.pincode, pc.specifications,
            true, false, 0, Active, now, now)
  }

  /** The `setattr` loop of `update_product`: supplied fields are written,
      everything else, and every column the request cannot name, is kept. */
  function ApplyProductUpdate(p: Product, u: ProductUpdate): (r: Product)
    ensures r.id == p.id && r.sellerId == p.sellerId
    ensures r.isActive == p.isActive && r.isFeatured == p.isFeatured
    ensures r.viewsCount == p.viewsCount && r.createdAt == p.createdAt
    ensures u.title.Omitted? ==> r.title == p.title
    ensures u.title.Given? ==> r.title == u.title.value
    ensures u.description.Omitted? ==> r.description == p.description
    ensures u.description.Given? ==> r.description == u.description.value
    ensures u.categoryId.Omitted? ==> r.categoryId == p.categoryId
    ensures u.categoryId.Given? ==> r.categoryId == u.categoryId.value
    ensures u.materialId.Omitted? ==> r.materialId == p.materialId
    ensures u.materialId.Given? ==> r.materialId == u.materialId.value
    ensures u.quantity.Omitted? ==> r.quantity == p.quantity
    ensures u.quantity.Given? ==> r.quantity == u.quantity.value
    ensures u.unit.Omitted? ==> r.unit == p.unit
    ensures u.unit.Given? ==> r.unit == u.unit.value
    ensures u.price.Omitted? ==> r.price == p.price
    ensures u.price.Given? ==> r.price == u.price.value
    ensures u.priceNegotiable.Omitted? ==> r.priceNegotiable == p.priceNegotiable
    ensures u.priceNegotiable.Given? ==> r.priceNegotiable == u.priceNegotiable.value
    ensures u.condition.Omitted? ==> r.condition == p.condition
    ensures u.condition.Given? ==> r.condition == u.condition.value
    ensures u.manufacturingDate.Omitted? ==> r.manufacturingDate == p.manufacturingDate
    ensures u.manufacturingDate.Given? ==> r.manufacturingDate == u.manufacturingDate.value
    ensures u.locationCity.Omitted? ==> r.locationCity == p.locationCity
    ensures u.locationCity.Given? ==> r.locationCity == u.locationCity.value
    ensures u.locationState.Omitted? ==> r.locationState == p.locationState
    ensures u.locationState.Given? ==> r.locationState == u.locationState.value
    ensures u.pincode.Omitted? ==> r.pincode == p.pincode
    ensures u.pincode.Given? ==> r.pincode == u.pincode.value
    ensures u.specifications.Omitted? ==> r.specifications == p.specifications
    ensures u.specifications.Given? ==> r.specifications == u.specifications.value
    ensures u.status.Omitted? ==> r.status == p.status
    ensures u.status.Given? ==> r.status == u.status.value
  {
    p.(title := Patched(p.title, u.title),
       description := Patched(p.description, u.description),
       categoryId := Patched(p.categoryId, u.categoryId),
       materialId := Patched(p.materialId, u.materialId),
       quantity := Patched(p.quantity, u.quantity),
       unit := Patched(p.unit, u.unit),
       price := Patched(p.price, u.price),
       priceNegotiable := Patched(p.priceNegotiable, u.priceNegotiable),
       condition := Patched(p.condition, u.condition),
       manufacturingDate := Patched(p.manufacturingDate, u.manufacturingDate),
       locationCity := Patched(p.locationCity, u.locationCity),
       locationState := Patched(p.locationState, u.locationState),
       pincode := Patched(p.pincode, u.pincode),
       specifications := Patched(p.specifications, u.specifications),
       status := Patched(p.status, u.status))
  }

  const EmptyProductUpdate := ProductUpdate(Omitted, Omitted, Omitted, Omitted, Omitted, Omitted, Omitted,
                                            Omitted, Omitted, Omitted, Omitted, Omitted, Omitted, Omitted, Omitted)

  /** A valid update keeps a valid row valid; an empty update changes
      nothing; applying an update twice equals applying it once. */
  lemma ApplyProductUpdateLaws(p: Product, u: ProductUpdate)
    ensures ValidProduct(p) && ValidProductUpdate(u) ==> ValidProduct(ApplyProductUpdate(p, u))
    ensures ApplyProductUpdate(p, EmptyProductUpdate) == p
    ensures ApplyProductUpdate(ApplyProductUpdate(p, u), u) == ApplyProductUpdate(p, u)
  {
  }
}
