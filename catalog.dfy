/**
 * The product catalog, in the order the store returns it: how `/addproduct`
 * picks the next id and validates the required fields, what `/removeproduct`
 * deletes, how checkout looks a product up, and the two curated views
 * `/newcollections` and `/popularsnacks`.
 */
module Catalog {
  import opened JsValues

  /** A product; prices are integer cents. The creation date and the `available` flag are not modelled. */
  datatype Product = Product(
    id: int,
    name: string,
    image: string,
    category: string,
    newPrice: int,
    oldPrice: int)

  /** The request body of `/addproduct`; every field may be missing. */
  datatype ProductForm = ProductForm(
    name: Option<string>,
    imagePath: Option<string>,
    image: Option<string>,
    category: Option<string>,
    newPrice: Option<int>,
    oldPrice: Option<int>)

  const PopularCategory := "sweets"
  const NewCollectionSize: nat := 8
  const PopularSize: nat := 4

  /** The invariant id assignment keeps: ids are positive and strictly increase in store order. */
  predicate IdsIncreasing(catalog: seq<Product>) {
    && (forall i :: 0 <= i < |catalog| ==> catalog[i].id >= 1)
    && (forall i, j :: 0 <= i < j < |catalog| ==> catalog[i].id < catalog[j].id)
  }

  /** The id `/addproduct` assigns: the last record's id plus one, or 1 for an empty catalog. */
  function NextId(catalog: seq<Product>): int {
    if |catalog| > 0 then catalog[|catalog| - 1].id + 1 else 1
  }

  /** The largest id in a non-empty catalog. */
  function MaxId(catalog: seq<Product>): (m: int)
    requires |catalog| > 0
    ensures forall i :: 0 <= i < |catalog| ==> catalog[i].id <= m
    ensures exists i :: 0 <= i < |catalog| && catalog[i].id == m
  {
    if |catalog| == 1 then catalog[0].id
    else
      var rest := MaxId(catalog[1..]);
      assert forall i :: 1 <= i < |catalog| ==> catalog[i] == catalog[1..][i - 1];
      if catalog[0].id >= rest then catalog[0].id else rest
  }

  /** Under the id invariant, "last + 1" is a fresh id above every id in the catalog, and is at least 1. */
  lemma NextIdIsFresh(catalog: seq<Product>)
    requires IdsIncreasing(catalog)
    ensures NextId(catalog) >= 1
    ensures forall p :: p in catalog ==> p.id < NextId(catalog)
  {
  }

  /** Under the id invariant the last record holds the maximum, so "last + 1" is "max + 1". */
  lemma NextIdIsMaxPlusOne(catalog: seq<Product>)
    requires IdsIncreasing(catalog) && |catalog| > 0
    ensures NextId(catalog) == MaxId(catalog) + 1
  {
    var n := |catalog|;
    var i :| 0 <= i < n && catalog[i].id == MaxId(catalog);
    if i < n - 1 {
      assert catalog[i].id < catalog[n - 1].id;
    }
  }

  /** Appending a product with the next id keeps the id invariant. */
  lemma AppendNextKeepsIdsIncreasing(catalog: seq<Product>, p: Product)
    requires IdsIncreasing(catalog) && p.id == NextId(catalog)
    ensures IdsIncreasing(catalog + [p])
  {
    NextIdIsFresh(catalog);
    var c := catalog + [p];
    forall i, j | 0 <= i < j < |c| ensures c[i].id < c[j].id {
      if j == |catalog| {
        assert c[i] in catalog;
      }
    }
  }

  /** The product `/addproduct` stores, or None when a field the schema requires is missing or empty. */
  function BuildProduct(id: int, form: ProductForm): (r: Option<Product>)
    ensures r.Some? <==>
      Truthy(form.name) && Truthy(Or(form.imagePath, form.image)) && Truthy(form.category)
      && form.newPrice.Some? && form.oldPrice.Some?
    ensures r.Some? ==>
      (&& r.value.id == id && r.value.name == form.name.value
       && r.value.category == form.category.value
       && r.value.newPrice == form.newPrice.value && r.value.oldPrice == form.oldPrice.value)
    ensures r.Some? && Truthy(form.imagePath) ==> r.value.image == form.imagePath.value
    ensures r.Some? && !Truthy(form.imagePath) ==> r.value.image == form.image.value
  {
    var image := Or(form.imagePath, form.image);
    if Truthy(form.name) && Truthy(image) && Truthy(form.category)
      && form.newPrice.Some? && form.oldPrice.Some?
    then Some(Product(id, form.name.value, image.value, form.category.value,
                      form.newPrice.value, form.oldPrice.value))
    else None
  }

  /** The position of the first record with that id, or the catalog's length when there is none. */
  function FirstIndexOf(catalog: seq<Product>, id: int): (i: nat)
    ensures i <= |catalog|
    ensures i < |catalog| ==> catalog[i].id == id
    ensures forall j :: 0 <= j < i ==> catalog[j].id != id
  {
    if |catalog| == 0 then 0
    else if catalog[0].id == id then 0
    else 1 + FirstIndexOf(catalog[1..], id)
  }

  /** `Product.findOne({id})`: the first record with that id. */
  function FindProduct(catalog: seq<Product>, id: int): (r: Option<Product>)
    ensures r.None? <==> forall p :: p in catalog ==> p.id != id
    ensures r.Some? ==> r.value in catalog && r.value.id == id
  {
    var i := FirstIndexOf(catalog, id);
    if i < |catalog| then Some(catalog[i]) else None
  }

  /** Under the id invariant, looking up a record's id finds that very record. */
  lemma FindByOwnId(catalog: seq<Product>, i: int)
    requires IdsIncreasing(catalog) && 0 <= i < |catalog|
    ensures FindProduct(catalog, catalog[i].id) == Some(catalog[i])
  {
    var j := FirstIndexOf(catalog, catalog[i].id);
    if j < i {
      assert false;
    }
  }

  /** `findOneAndDelete({id})`: drop the first record with that id, or nothing when there is none. */
  function RemoveFirstWithId(catalog: seq<Product>, id: int): (r: seq<Product>)
    ensures FindProduct(catalog, id).None? ==> r == catalog
    ensures FindProduct(catalog, id).Some? ==>
      |r| == |catalog| - 1 && multiset(r) + multiset{FindProduct(catalog, id).value} == multiset(catalog)
  {
    var i := FirstIndexOf(catalog, id);
    if i < |catalog| then
      assert catalog == catalog[..i] + [catalog[i]] + catalog[i + 1..];
      catalog[..i] + catalog[i + 1..]
    else catalog
  }

  /** Deleting a product keeps the id invariant. */
  lemma RemoveKeepsIdsIncreasing(catalog: seq<Product>, id: int)
    requires IdsIncreasing(catalog)
    ensures IdsIncreasing(RemoveFirstWithId(catalog, id))
  {
    var r := RemoveFirstWithId(catalog, id);
    var i := FirstIndexOf(catalog, id);
    if i < |catalog| {
      assert forall a :: 0 <= a < |r| ==> r[a] == catalog[if a < i then a else a + 1];
    }
  }

  /**
   * Ids are not monotone over creations: after the newest product is deleted,
   * the next product gets an id no larger than the deleted one's (the same id
   * when the ids were consecutive).
   */
  lemma RemoveLastReusesId(catalog: seq<Product>)
    requires IdsIncreasing(catalog) && |catalog| > 0
    ensures NextId(RemoveFirstWithId(catalog, catalog[|catalog| - 1].id)) <= catalog[|catalog| - 1].id
  {
    var n := |catalog|;
    var i := FirstIndexOf(catalog, catalog[n - 1].id);
    assert i == n - 1;
    assert RemoveFirstWithId(catalog, catalog[n - 1].id) == catalog[..n - 1];
  }

  /** `/newcollections`: `slice(1).slice(-8)`, the last up to eight records after the first one. */
  function NewCollections(catalog: seq<Product>): (r: seq<Product>)
    ensures |r| == if |catalog| <= 1 then 0
                   else if |catalog| - 1 <= NewCollectionSize then |catalog| - 1
                   else NewCollectionSize
    ensures r == catalog[|catalog| - |r|..]
  {
    var rest := if |catalog| == 0 then [] else catalog[1..];
    var start := if |rest| > NewCollectionSize then |rest| - NewCollectionSize else 0;
    rest[start..]
  }

  /** With unique ids the first record is never among the new collection. */
  lemma NewCollectionsSkipFirst(catalog: seq<Product>)
    requires IdsIncreasing(catalog) && |catalog| > 0
    ensures catalog[0] !in NewCollections(catalog)
  {
    var r := NewCollections(catalog);
    forall k | 0 <= k < |r| ensures r[k] != catalog[0] {
      assert r[k] == catalog[|catalog| - |r| + k];
    }
  }

  /** `Product.find({category: "sweets"})`: the sweets, in store order. */
  function Sweets(catalog: seq<Product>): (r: seq<Product>)
    ensures |r| <= |catalog|
    ensures forall p :: p in r <==> p in catalog && p.category == PopularCategory
  {
    if |catalog| == 0 then []
    else
      var rest := Sweets(catalog[1..]);
      assert forall p :: p in catalog <==> p == catalog[0] || p in catalog[1..];
      if catalog[0].category == PopularCategory then [catalog[0]] + rest else rest
  }

  /** The filter keeps store order: a product appended to the catalog comes last among the sweets. */
  lemma {:induction false} SweetsAppend(catalog: seq<Product>, p: Product)
    ensures Sweets(catalog + [p]) == Sweets(catalog) + (if p.category == PopularCategory then [p] else [])
  {
    if |catalog| > 0 {
      assert (catalog + [p])[1..] == catalog[1..] + [p];
      SweetsAppend(catalog[1..], p);
    }
  }

  /** `/popularsnacks`: the first four sweets in store order (all of them when there are fewer). */
  function PopularSnacks(catalog: seq<Product>): (r: seq<Product>)
    ensures |r| == if |Sweets(catalog)| < PopularSize then |Sweets(catalog)| else PopularSize
    ensures r == Sweets(catalog)[..|r|]
    ensures forall p :: p in r ==> p in catalog && p.category == PopularCategory
  {
    var sweets := Sweets(catalog);
    var r := sweets[..if |sweets| < PopularSize then |sweets| else PopularSize];
    assert forall p :: p in r ==> p in sweets;
    r
  }
}
