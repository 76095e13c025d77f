/** `search_products`: keep the active products that satisfy every supplied
    filter, sort them on one column in one direction, then skip and limit.

    Each filter applies only when its argument is truthy, as the source's
    `if` tests do: an absent or empty text, and an absent or zero price
    bound, impose nothing. Text filters are `ILIKE '%text%'`, modelled as
    substring search under ASCII case folding. A NULL column never satisfies
    a comparison, and sorts after every value in ascending order (and so
    before every value in descending order). */
module ProductSearch {
  import opened Common
  import opened ProductSchema

  /** The columns a search can sort on. */
  datatype SortKey = CreatedAt | UpdatedAt | Price | ViewsCount | Quantity

  /** The search parameters, with the source's defaults listed in
      `DefaultCriteria`. */
  datatype Criteria = Criteria(
    query: Option<string>,
    categoryId: Option<Uuid>,
    materialId: Option<Uuid>,
    city: Option<string>,
    state: Option<string>,
    minPrice: Option<int>,
    maxPrice: Option<int>,
    condition: Option<string>,
    sortBy: SortKey,
    sortOrder: string,
    skip: nat,
    limit: nat)

  const DefaultCriteria := Criteria(None, None, None, None, None, None, None, None, CreatedAt, "desc", 0, 20)

  /** A truthy text argument. */
  predicate Given(t: Option<string>) { t.Some? && t.value != "" }

  predicate TextMatches(p: Product, q: Option<string>)
  {
    Given(q) ==> ContainsFolded(p.title, q.value) || ContainsFolded(p.description, q.value)
  }

  /** `column ILIKE '%text%'` on a nullable column. */
  predicate LikeMatches(column: Option<string>, t: Option<string>)
  {
    Given(t) ==> column.Some? && ContainsFolded(column.value, t.value)
  }

  predicate MinPriceMatches(p: Product, bound: Option<int>)
  {
    bound.Some? && bound.value != 0 ==> p.price.Some? && p.price.value >= bound.value
  }

  predicate MaxPriceMatches(p: Product, bound: Option<int>)
  {
    bound.Some? && bound.value != 0 ==> p.price.Some? && p.price.value <= bound.value
  }

  /** The whole WHERE clause. */
  predicate Matches(p: Product, c: Criteria)
  {
    && p.isActive
    && TextMatches(p, c.query)
    && (c.categoryId.Some? ==> p.categoryId == c.categoryId.value)
    && (c.materialId.Some? ==> p.materialId == c.materialId)
    && LikeMatches(p.locationCity, c.city)
    && LikeMatches(p.locationState, c.state)
    && MinPriceMatches(p, c.minPrice)
    && MaxPriceMatches(p, c.maxPrice)
    && (Given(c.condition) ==> ConditionName(p.condition) == c.condition.value)
  }

  /** A sort key's value; only the price column can be NULL. */
  datatype KeyValue = Value(n: int) | Null

  function KeyOf(p: Product, k: SortKey): KeyValue
  {
    match k
    case CreatedAt => Value(p.createdAt)
    case UpdatedAt => Value(p.updatedAt)
    case Price => if p.price.Some? then Value(p.price.value) else Null
    case ViewsCount => Value(p.viewsCount)
    case Quantity => Value(p.quantity)
  }

  /** Ascending key order with NULL largest. */
  predicate KeyLe(a: KeyValue, b: KeyValue)
  {
    b.Null? || (a.Value? && a.n <= b.n)
  }

  /** `a` may come before `b` in the requested order. */
  predicate Before(a: Product, b: Product, k: SortKey, descending: bool)
  {
    if descending then KeyLe(KeyOf(b, k), KeyOf(a, k)) else KeyLe(KeyOf(a, k), KeyOf(b, k))
  }

  predicate SortedBy(s: seq<Product>, k: SortKey, descending: bool)
  {
    forall i, j :: 0 <= i < j < |s| ==> Before(s[i], s[j], k, descending)
  }

  /** Insert `x` in front of the first element it may precede. */
  function Insert(x: Product, s: seq<Product>, k: SortKey, descending: bool): seq<Product>
  {
    if s == [] then [x]
    else if Before(x, s[0], k, descending) then [x] + s
    else [s[0]] + Insert(x, s[1..], k, descending)
  }

  /** One ordering that satisfies ORDER BY; the database may order ties
      differently, and nothing below depends on how ties are ordered. */
  function Sort(s: seq<Product>, k: SortKey, descending: bool): seq<Product>
  {
    if s == [] then [] else Insert(s[0], Sort(s[1..], k, descending), k, descending)
  }

  lemma BeforeTotal(a: Product, b: Product, k: SortKey, descending: bool)
    ensures Before(a, b, k, descending) || Before(b, a, k, descending)
  {
  }

  lemma BeforeTransitive(a: Product, b: Product, c: Product, k: SortKey, descending: bool)
    requires Before(a, b, k, descending) && Before(b, c, k, descending)
    ensures Before(a, c, k, descending)
  {
  }

  /** An element that may precede every element of a sorted sequence can be
      put in front of it. */
  lemma SortedCons(a: Product, r: seq<Product>, k: SortKey, descending: bool)
    requires SortedBy(r, k, descending)
    requires forall e :: e in r ==> Before(a, e, k, descending)
    ensures SortedBy([a] + r, k, descending)
  {
    var t := [a] + r;
    forall i, j | 0 <= i < j < |t| ensures Before(t[i], t[j], k, descending) {
      if i == 0 { assert t[j] == r[j - 1]; }
      else { assert t[i] == r[i - 1] && t[j] == r[j - 1]; }
    }
  }

  lemma {:induction false} InsertPermutes(x: Product, s: seq<Product>, k: SortKey, descending: bool)
    ensures multiset(Insert(x, s, k, descending)) == multiset(s) + multiset{x}
  {
    if s != [] {
      assert s == [s[0]] + s[1..];
      if !Before(x, s[0], k, descending) {
        InsertPermutes(x, s[1..], k, descending);
      }
    }
  }

  lemma {:induction false} InsertSorted(x: Product, s: seq<Product>, k: SortKey, descending: bool)
    requires SortedBy(s, k, descending)
    ensures SortedBy(Insert(x, s, k, descending), k, descending)
  {
    if s == [] {
    } else if Before(x, s[0], k, descending) {
      forall e | e in s ensures Before(x, e, k, descending) {
        var j :| 0 <= j < |s| && s[j] == e;
        if j > 0 { BeforeTransitive(x, s[0], e, k, descending); }
      }
      SortedCons(x, s, k, descending);
    } else {
      var rest := Insert(x, s[1..], k, descending);
      InsertSorted(x, s[1..], k, descending);
      InsertPermutes(x, s[1..], k, descending);
      BeforeTotal(x, s[0], k, descending);
      forall e | e in rest ensures Before(s[0], e, k, descending) {
        assert e in multiset(rest);
        if e != x {
          assert e in multiset(s[1..]);
          var j :| 0 <= j < |s[1..]| && s[1..][j] == e;
          assert s[j + 1] == e;
        }
      }
      SortedCons(s[0], rest, k, descending);
    }
  }

  /** Sorting orders the products and keeps each of them as often as it
      occurs. */
  lemma {:induction false} SortCorrect(s: seq<Product>, k: SortKey, descending: bool)
    ensures SortedBy(Sort(s, k, descending), k, descending)
    ensures multiset(Sort(s, k, descending)) == multiset(s)
  {
    if s != [] {
      SortCorrect(s[1..], k, descending);
      InsertSorted(s[0], Sort(s[1..], k, descending), k, descending);
      InsertPermutes(s[0], Sort(s[1..], k, descending), k, descending);
      assert s == [s[0]] + s[1..];
    }
  }

  /** `.offset(skip).limit(limit)`. */
  function Page<T>(s: seq<T>, skip: nat, limit: nat): (r: seq<T>)
    ensures |r| == Min(limit, Max(0, |s| - skip))
    ensures forall i :: 0 <= i < |r| ==> r[i] == s[skip + i]
  {
    if skip >= |s| then [] else s[skip..][..Min(limit, |s| - skip)]
  }

  /** A run of consecutive elements of a sorted sequence is sorted. */
  lemma PageSorted(s: seq<Product>, skip: nat, limit: nat, k: SortKey, descending: bool)
    requires SortedBy(s, k, descending)
    ensures SortedBy(Page(s, skip, limit), k, descending)
  {
    var r := Page(s, skip, limit);
    forall i, j | 0 <= i < j < |r| ensures Before(r[i], r[j], k, descending) {
      assert r[i] == s[skip + i] && r[j] == s[skip + j];
    }
  }

  /** The products the WHERE clause keeps, in stored order. */
  function Matching(products: seq<Product>, c: Criteria): (r: seq<Product>)
    ensures forall p :: p in r <==> p in products && Matches(p, c)
  {
    Filter(products, (p: Product) => Matches(p, c))
  }

  /** The search: every result is a matching product, the results are in
      the requested order (descending exactly when the order is "desc"),
      and there are as many as the page leaves of the matches. Above all,
      the result is the `skip`/`limit` page of some ordering of all the
      matches by the requested key; which ordering is left open only
      among products with equal keys. */
  function Search(products: seq<Product>, c: Criteria): (r: seq<Product>)
    ensures forall p :: p in r ==> p in products && Matches(p, c)
    ensures SortedBy(r, c.sortBy, c.sortOrder == "desc")
    ensures |r| == Min(c.limit, Max(0, |Matching(products, c)| - c.skip))
    ensures exists t :: && multiset(t) == multiset(Matching(products, c))
                        && SortedBy(t, c.sortBy, c.sortOrder == "desc")
                        && r == Page(t, c.skip, c.limit)
  {
    var matching := Matching(products, c);
    var sorted := Sort(matching, c.sortBy, c.sortOrder == "desc");
    SortCorrect(matching, c.sortBy, c.sortOrder == "desc");
    PageSorted(sorted, c.skip, c.limit, c.sortBy, c.sortOrder == "desc");
    assert |sorted| == |multiset(sorted)| == |multiset(matching)| == |matching|;
    assert forall i :: 0 <= i < |Page(sorted, c.skip, c.limit)| ==> Page(sorted, c.skip, c.limit)[i] in multiset(matching);
    Page(sorted, c.skip, c.limit)
  }

  /** Without skipping, and with a limit that covers all matches, every
      matching product is returned. */
  lemma SearchComplete(products: seq<Product>, c: Criteria, p: Product)
    requires c.skip == 0 && c.limit >= |Matching(products, c)|
    requires p in products && Matches(p, c)
    ensures p in Search(products, c)
  {
    var matching := Matching(products, c);
    var sorted := Sort(matching, c.sortBy, c.sortOrder == "desc");
    SortCorrect(matching, c.sortBy, c.sortOrder == "desc");
    assert p in multiset(sorted);
    var j :| 0 <= j < |sorted| && sorted[j] == p;
    assert |sorted| == |matching| by {
      assert |multiset(sorted)| == |multiset(matching)|;
    }
    assert Search(products, c)[j] == p;
  }

  /** A result is active and meets every supplied filter: the text occurs in
      the title or description, category, material and condition are equal,
      city and state contain the given text, and the price lies within each
      non-zero bound (so a product without a price is excluded by any such
      bound). */
  lemma SearchSound(products: seq<Product>, c: Criteria, p: Product)
    requires p in Search(products, c)
    ensures p.isActive
    ensures Given(c.query) ==> ContainsFolded(p.title, c.query.value) || ContainsFolded(p.description, c.query.value)
    ensures c.categoryId.Some? ==> p.categoryId == c.categoryId.value
    ensures c.materialId.Some? ==> p.materialId == c.materialId
    ensures Given(c.city) ==> p.locationCity.Some? && ContainsFolded(p.locationCity.value, c.city.value)
    ensures Given(c.state) ==> p.locationState.Some? && ContainsFolded(p.locationState.value, c.state.value)
    ensures c.minPrice.Some? && c.minPrice.value != 0 ==> p.price.Some? && c.minPrice.value <= p.price.value
    ensures c.maxPrice.Some? && c.maxPrice.value != 0 ==> p.price.Some? && p.price.value <= c.maxPrice.value
    ensures Given(c.condition) ==> ConditionName(p.condition) == c.condition.value
  {
  }

  /** Absent or empty texts and absent or zero bounds filter nothing: such a
      search matches exactly the active products. */
  lemma UnfilteredSearchMatchesActive(products: seq<Product>, c: Criteria, p: Product)
    requires !Given(c.query) && !Given(c.city) && !Given(c.state) && !Given(c.condition)
    requires c.categoryId.None? && c.materialId.None?
    requires c.minPrice.None? || c.minPrice == Some(0)
    requires c.maxPrice.None? || c.maxPrice == Some(0)
    ensures p in Matching(products, c) <==> p in products && p.isActive
  {
  }

  /** 25 matches, skipping 20 and limited to 10, leave 5 results. */
  lemma PageExample(s: seq<Product>)
    requires |s| == 25
    ensures |Page(s, 20, 10)| == 5
  {
  }

  /** A product titled "Steel Rods 10mm" matches the queries "steel" and
      "ROD", whatever its description. */
  lemma TextMatchExample(p: Product)
    requires p.title == "Steel Rods 10mm"
    ensures TextMatches(p, Some("steel")) && TextMatches(p, Some("ROD"))
  {
    var hay := Lower(p.title);
    assert hay[0] == 's' && hay[1] == 't' && hay[2] == 'e' && hay[3] == 'e' && hay[4] == 'l';
    assert hay[6] == 'r' && hay[7] == 'o' && hay[8] == 'd';
    assert Lower("steel") == "steel" == hay[0..5];
    assert Lower("ROD") == "rod" == hay[6..9];
    SubstringAt("steel", hay, 0);
    SubstringAt("rod", hay, 6);
  }

  /** A run of characters found at some position of a text is a substring
      of it. */
  lemma {:induction false} SubstringAt(needle: string, hay: string, i: nat)
    requires i + |needle| <= |hay| && hay[i..i + |needle|] == needle
    ensures IsSubstring(needle, hay)
    decreases i
  {
    if i == 0 {
      assert needle <= hay;
    } else {
      assert hay[1..][i - 1..i - 1 + |needle|] == needle;
      SubstringAt(needle, hay[1..], i - 1);
    }
  }
}
