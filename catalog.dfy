/** The catalog entities the TradeMaster tasks read and write, and the
    first-match lookups (`Collection::firstWhere`, `findOneBy`) over them. */
module Catalog {
  import opened Php

  /** Entity identifiers; `NIL` stands for the all-zero uuid. */
  type Uuid = nat

  const NIL: Uuid := 0

  datatype Status = Work | Delete

  /** The terminal states a background task reports. */
  datatype TaskStatus = Running | Done | Fail | Cancel

  /** A stored file: its uuid, its MIME type and its public path. */
  datatype File = File(uuid: Uuid, mimeType: string, publicPath: string)

  /** The fields the category download writes with `replace($data)`;
      `buf` carries the ERP parent id and is absent on a category that this
      pass has not seen. */
  datatype CategoryData = CategoryData(
    externalId: string,
    parent: Uuid,
    title: string,
    order: int,
    description: string,
    address: string,
    field1: string,
    field2: string,
    field3: string,
    buf: Option<string>)

  datatype Category = Category(uuid: Uuid, status: Status, files: seq<File>, data: CategoryData)

  /** The fields the product download writes with `replace($data)`; `buf` is
      set to 1 on every product this pass has seen. Prices, stock and volume
      are integer stand-ins for PHP floats. */
  datatype ProductData = ProductData(
    externalId: string,
    category: Uuid,
    title: string,
    order: int,
    description: string,
    extra: string,
    address: string,
    field1: string,
    field2: string,
    field3: string,
    field4: string,
    field5: string,
    vendorcode: string,
    barcode: string,
    priceFirst: int,
    price: int,
    priceWholesale: int,
    unit: string,
    volume: int,
    country: string,
    manufacturer: string,
    tags: string,
    date: int,
    stock: int,
    buf: Option<int>)

  datatype Product = Product(uuid: Uuid, status: Status, files: seq<File>, data: ProductData)

  /** One entry of the image list handed from the catalog download to the
      image task: the `;`-separated photo names, the entity type
      ('category' or 'product') and the entity's uuid. */
  datatype ImageRequest = ImageRequest(photo: string, kind: string, uuid: Uuid)

  /** One element of the `tovarJson` list an order is sent with. Quantities and prices are integer
      stand-ins for PHP floats. */
  datatype LineItem = LineItem(id: string, name: string, quantity: int, price: int)

  /** The index of the first element satisfying `p`, as `firstWhere` finds it. */
  function FirstIndex<T>(xs: seq<T>, p: T -> bool): (r: Option<nat>)
    ensures r.Some? ==> r.value < |xs| && p(xs[r.value]) && forall j :: 0 <= j < r.value ==> !p(xs[j])
    ensures r.None? ==> forall j :: 0 <= j < |xs| ==> !p(xs[j])
  {
    if xs == [] then None
    else if p(xs[0]) then Some(0)
    else
      match FirstIndex(xs[1..], p)
      case None => None
      case Some(k) => Some(k + 1)
  }

  /** Lists that agree pointwise on the searched property have the same first match. */
  lemma {:induction false} FirstIndexAgree<T, U>(a: seq<T>, p: T -> bool, b: seq<U>, q: U -> bool)
    requires |a| == |b|
    requires forall i :: 0 <= i < |a| ==> p(a[i]) == q(b[i])
    ensures FirstIndex(a, p) == FirstIndex(b, q)
  {
    if a != [] && !p(a[0]) {
      FirstIndexAgree(a[1..], p, b[1..], q);
    }
  }

  /** The first match is the one index that matches with no match before it. */
  lemma {:induction false} FirstIndexIs<T>(xs: seq<T>, p: T -> bool, k: nat)
    requires k < |xs| && p(xs[k])
    requires forall j :: 0 <= j < k ==> !p(xs[j])
    ensures FirstIndex(xs, p) == Some(k)
  {
    if k > 0 {
      FirstIndexIs(xs[1..], p, k - 1);
    }
  }

  function CategoryByExternal(cats: seq<Category>, id: string): Option<nat> {
    FirstIndex(cats, (c: Category) => c.data.externalId == id)
  }

  function CategoryByUuid(cats: seq<Category>, u: Uuid): Option<nat> {
    FirstIndex(cats, (c: Category) => c.uuid == u)
  }

  function ProductByExternal(prods: seq<Product>, id: string): Option<nat> {
    FirstIndex(prods, (p: Product) => p.data.externalId == id)
  }

  function ProductByUuid(prods: seq<Product>, u: Uuid): Option<nat> {
    FirstIndex(prods, (p: Product) => p.uuid == u)
  }

  /** No two categories share an `external_id`. */
  ghost predicate DistinctCategoryIds(cats: seq<Category>) {
    forall i, j :: 0 <= i < j < |cats| ==> cats[i].data.externalId != cats[j].data.externalId
  }

  /** No two products share an `external_id`. */
  ghost predicate DistinctProductIds(prods: seq<Product>) {
    forall i, j :: 0 <= i < j < |prods| ==> prods[i].data.externalId != prods[j].data.externalId
  }
}
