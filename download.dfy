/** `CatalogDownloadTask`: the catalog download reconciler. One pass upserts
    the ERP categories by `external_id`, resolves their parent links from
    the flat `idParent` values, optionally prefixes their addresses with the
    parent's address, pages through the ERP products in steps of 100 and
    upserts them, and finally soft-deletes every category and product the
    pass has not seen (`buf` still null).

    The pass is the class `DownloadTask` below; each phase is a method proved
    against a specification function on the phase's input state, and the
    properties of the pass are lemmas about those functions. The ERP answers,
    the two `check` filters, `Category::getChildren` and the `DateTime`
    parser are parameters. */
module CatalogDownload {
  import opened Php
  import opened Catalog
  import Gateway

  /** One element of the `catalog/list` answer; `idParent` is absent when
      the ERP sends null. */
  datatype CategoryItem = CategoryItem(
    idZvena: string,
    idParent: Option<string>,
    nameZvena: string,
    poryadok: int,
    opisanie: string,
    link: string,
    ind1: string,
    ind2: string,
    ind3: string,
    foto: string)

  /** One element of an `item/list` page. */
  datatype ProductItem = ProductItem(
    idTovar: string,
    vStrukture: string,
    name: string,
    poryadok: int,
    opisanie: string,
    opisanieDop: string,
    link: string,
    ind1: string,
    ind2: string,
    ind3: string,
    ind4: string,
    ind5: string,
    artikul: string,
    strihKod: string,
    sebestomost: int,
    price: int,
    optPrice: int,
    edIzmer: string,
    ves: int,
    strana: string,
    proizv: string,
    tags: string,
    changeDate: string,
    kolvo: int,
    foto: string)

  /** The settings the pass reads: `file_is_enabled` and
      `common_auto_generate_address` (each compared with 'yes') and
      `TradeMasterPlugin_storage`. */
  datatype Settings = Settings(fileEnabled: bool, autoAddress: bool, storage: Value)

  /** The page size of the product download. */
  const Step: nat := 100

  // ============================================================ categories

  /** The `$data` array built for one category item (lines 109-128). */
  function CategoryDataOf(item: CategoryItem): CategoryData {
    CategoryData(item.idZvena, NIL, item.nameZvena, item.poryadok, item.opisanie,
                 item.link, item.ind1, item.ind2, item.ind3, item.idParent)
  }

  /** `firstWhere('external_id', …)` followed by `replace($data)`, or a new
      WORK model with uuid `newUuid` appended when there is none. */
  function UpsertCategory(cats: seq<Category>, d: CategoryData, newUuid: Uuid): seq<Category>
  {
    match CategoryByExternal(cats, d.externalId)
    case Some(k) => cats[k := cats[k].(data := d)]
    case None =>
      var r := cats + [Category(newUuid, Work, [], d)];
      assert r[|cats|].data.externalId == d.externalId;
      r
  }

  /** The upsert changes only the data of the category with `d`'s
      `external_id`, or appends a new WORK category when there is none; the
      lookup then finds `d`, and `external_id`s stay distinct. */
  lemma UpsertCategoryFacts(cats: seq<Category>, d: CategoryData, newUuid: Uuid)
    ensures var r := UpsertCategory(cats, d, newUuid);
      && (CategoryByExternal(cats, d.externalId).Some? ==> |r| == |cats|)
      && (CategoryByExternal(cats, d.externalId).None? ==> r == cats + [Category(newUuid, Work, [], d)])
      && (forall j :: 0 <= j < |cats| ==> SameCategoryKey(r[j], cats[j]))
      && (forall j :: 0 <= j < |cats| && cats[j].data.externalId != d.externalId ==> r[j] == cats[j])
      && CategoryByExternal(r, d.externalId).Some?
      && r[CategoryByExternal(r, d.externalId).value].data == d
      && (DistinctCategoryIds(cats) ==> DistinctCategoryIds(r))
  {
    if CategoryByExternal(cats, d.externalId).None? {
      var r := cats + [Category(newUuid, Work, [], d)];
      assert r[|cats|].data.externalId == d.externalId;
    }
  }

  /** The parts of a category the upsert loop never changes. */
  predicate SameCategoryKey(a: Category, b: Category) {
    a.uuid == b.uuid && a.status == b.status && a.files == b.files && a.data.externalId == b.data.externalId
  }

  /** One more turn of the loop over `items`. */
  lemma CategoryUpsertsNext(s: CategoryState, items: seq<CategoryItem>, i: nat, check: CategoryData -> bool, fileEnabled: bool)
    requires i < |items|
    ensures CategoryUpserts(s, items[..i + 1], check, fileEnabled) == CategoryStep(CategoryUpserts(s, items[..i], check, fileEnabled), items[i], check, fileEnabled)
  {
    assert items[..i + 1][..i] == items[..i];
  }

  /** The state the category loop threads: the collection, the next fresh
      uuid and the image list. */
  datatype CategoryState = CategoryState(cats: seq<Category>, next: Uuid, images: seq<ImageRequest>)

  /** One turn of the loop at lines 108-146. */
  function CategoryStep(s: CategoryState, item: CategoryItem, check: CategoryData -> bool, fileEnabled: bool): CategoryState {
    var d := CategoryDataOf(item);
    if !check(d) then s
    else
      var found := CategoryByExternal(s.cats, d.externalId);
      var u := if found.Some? then s.cats[found.value].uuid else s.next;
      CategoryState(
        UpsertCategory(s.cats, d, s.next),
        if found.Some? then s.next else s.next + 1,
        if fileEnabled then s.images + [ImageRequest(item.foto, "category", u)] else s.images)
  }

  /** The loop at lines 108-146 over `items`, in order. */
  function CategoryUpserts(s: CategoryState, items: seq<CategoryItem>, check: CategoryData -> bool, fileEnabled: bool): CategoryState
    decreases |items|
  {
    if items == [] then s
    else CategoryStep(CategoryUpserts(s, items[..|items| - 1], check, fileEnabled), items[|items| - 1], check, fileEnabled)
  }

  /** All uuids lie below the next fresh one, which is not NIL. */
  ghost predicate FreshAbove(cats: seq<Category>, prods: seq<Product>, next: Uuid) {
    && next > NIL
    && (forall j :: 0 <= j < |cats| ==> cats[j].uuid < next)
    && (forall j :: 0 <= j < |prods| ==> prods[j].uuid < next)
  }

  /** One turn of the category loop only appends, keeps every earlier
      category's key parts and takes new uuids above all old ones. */
  lemma CategoryStepKeys(s: CategoryState, item: CategoryItem, check: CategoryData -> bool, fileEnabled: bool, prods: seq<Product>)
    ensures var r := CategoryStep(s, item, check, fileEnabled);
      && |r.cats| >= |s.cats|
      && (forall j :: 0 <= j < |s.cats| ==> SameCategoryKey(r.cats[j], s.cats[j]))
      && r.next >= s.next
      && (FreshAbove(s.cats, prods, s.next) ==> FreshAbove(r.cats, prods, r.next))
  {
    UpsertCategoryFacts(s.cats, CategoryDataOf(item), s.next);
  }

  /** The category loop only appends, keeps every earlier category's uuid,
      status, files and `external_id`, and takes new uuids above all old ones. */
  lemma {:induction false} CategoryUpsertsKeys(s: CategoryState, items: seq<CategoryItem>, check: CategoryData -> bool, fileEnabled: bool, prods: seq<Product>)
    ensures |CategoryUpserts(s, items, check, fileEnabled).cats| >= |s.cats|
    ensures forall j :: 0 <= j < |s.cats| ==> SameCategoryKey(CategoryUpserts(s, items, check, fileEnabled).cats[j], s.cats[j])
    ensures CategoryUpserts(s, items, check, fileEnabled).next >= s.next
    ensures FreshAbove(s.cats, prods, s.next) ==>
      var r := CategoryUpserts(s, items, check, fileEnabled);
      FreshAbove(r.cats, prods, r.next)
    decreases |items|
  {
    if items != [] {
      var prev := CategoryUpserts(s, items[..|items| - 1], check, fileEnabled);
      CategoryUpsertsKeys(s, items[..|items| - 1], check, fileEnabled, prods);
      CategoryStepKeys(prev, items[|items| - 1], check, fileEnabled, prods);
    }
  }

  /** After the loop, no two categories share an `external_id` if none did
      before: accepted items with the same `idZvena` never make two models. */
  lemma {:induction false} CategoryUpsertsDistinct(s: CategoryState, items: seq<CategoryItem>, check: CategoryData -> bool, fileEnabled: bool)
    requires DistinctCategoryIds(s.cats)
    ensures DistinctCategoryIds(CategoryUpserts(s, items, check, fileEnabled).cats)
    decreases |items|
  {
    if items != [] {
      var prev := CategoryUpserts(s, items[..|items| - 1], check, fileEnabled);
      CategoryUpsertsDistinct(s, items[..|items| - 1], check, fileEnabled);
      UpsertCategoryFacts(prev.cats, CategoryDataOf(items[|items| - 1]), prev.next);
    }
  }

  /** An accepted item leaves its data under its `idZvena`. */
  lemma CategoryStepSaves(s: CategoryState, item: CategoryItem, check: CategoryData -> bool, fileEnabled: bool)
    requires check(CategoryDataOf(item))
    ensures var r := CategoryStep(s, item, check, fileEnabled).cats;
      && CategoryByExternal(r, item.idZvena).Some?
      && r[CategoryByExternal(r, item.idZvena).value].data == CategoryDataOf(item)
  {
    UpsertCategoryFacts(s.cats, CategoryDataOf(item), s.next);
  }

  /** A turn keeps every category where it is with its `external_id`, and one
      that does not save data under `id` leaves the category found under
      `id` where and as it was. */
  lemma CategoryStepKeepsOther(s: CategoryState, item: CategoryItem, check: CategoryData -> bool, fileEnabled: bool, id: string, k: nat)
    requires CategoryByExternal(s.cats, id) == Some(k)
    ensures var r := CategoryStep(s, item, check, fileEnabled).cats;
      && CategoryByExternal(r, id) == Some(k)
      && (item.idZvena != id || !check(CategoryDataOf(item)) ==> r[k] == s.cats[k])
  {
    var r := CategoryStep(s, item, check, fileEnabled).cats;
    if check(CategoryDataOf(item)) {
      UpsertCategoryFacts(s.cats, CategoryDataOf(item), s.next);
      assert r[k].data.externalId == id;
      assert forall j :: 0 <= j < k ==> r[j].data.externalId == s.cats[j].data.externalId;
      FirstIndexIs(r, (c: Category) => c.data.externalId == id, k);
    }
  }

  /** Every accepted item has a category with its `idZvena` afterwards. */
  lemma {:induction false} CategoryUpsertsPresent(s: CategoryState, items: seq<CategoryItem>, check: CategoryData -> bool, fileEnabled: bool, i: nat)
    requires i < |items| && check(CategoryDataOf(items[i]))
    ensures CategoryByExternal(CategoryUpserts(s, items, check, fileEnabled).cats, items[i].idZvena).Some?
    decreases |items|
  {
    var n := |items| - 1;
    var prev := CategoryUpserts(s, items[..n], check, fileEnabled);
    if i == n {
      CategoryStepSaves(prev, items[n], check, fileEnabled);
    } else {
      CategoryUpsertsPresent(s, items[..n], check, fileEnabled, i);
      var k := CategoryByExternal(prev.cats, items[i].idZvena).value;
      CategoryStepKeepsOther(prev, items[n], check, fileEnabled, items[i].idZvena, k);
    }
  }

  /** The last accepted item with a given `idZvena` decides that category's
      data: an existing model is replaced, not duplicated. */
  lemma {:induction false} CategoryUpsertsLastWins(s: CategoryState, items: seq<CategoryItem>, check: CategoryData -> bool, fileEnabled: bool, i: nat)
    requires i < |items| && check(CategoryDataOf(items[i]))
    requires forall j :: i < j < |items| ==> items[j].idZvena != items[i].idZvena || !check(CategoryDataOf(items[j]))
    ensures var r := CategoryUpserts(s, items, check, fileEnabled).cats;
      && CategoryByExternal(r, items[i].idZvena).Some?
      && r[CategoryByExternal(r, items[i].idZvena).value].data == CategoryDataOf(items[i])
    decreases |items|
  {
    var n := |items| - 1;
    var prev := CategoryUpserts(s, items[..n], check, fileEnabled);
    if i == n {
      CategoryStepSaves(prev, items[n], check, fileEnabled);
    } else {
      CategoryUpsertsLastWins(s, items[..n], check, fileEnabled, i);
      var k := CategoryByExternal(prev.cats, items[i].idZvena).value;
      CategoryStepKeepsOther(prev, items[n], check, fileEnabled, items[i].idZvena, k);
    }
  }

  /** When the filter rejects every item, the loop changes nothing. */
  lemma {:induction false} CategoryUpsertsRejected(s: CategoryState, items: seq<CategoryItem>, check: CategoryData -> bool, fileEnabled: bool)
    requires forall i :: 0 <= i < |items| ==> !check(CategoryDataOf(items[i]))
    ensures CategoryUpserts(s, items, check, fileEnabled) == s
    decreases |items|
  {
    if items != [] {
      CategoryUpsertsRejected(s, items[..|items| - 1], check, fileEnabled);
    }
  }

  /** Upserting the same data twice is upserting it once. */
  lemma UpsertCategoryIdempotent(cats: seq<Category>, d: CategoryData, newUuid: Uuid, newUuid': Uuid)
    ensures UpsertCategory(UpsertCategory(cats, d, newUuid), d, newUuid') == UpsertCategory(cats, d, newUuid)
  {
    UpsertCategoryFacts(cats, d, newUuid);
    var once := UpsertCategory(cats, d, newUuid);
    var k := CategoryByExternal(once, d.externalId).value;
    assert once[k := once[k].(data := d)] == once;
  }

  // =============================================================== parents

  /** `+$model->buf` as a condition: a null `buf` reads as 0; nothing when
      the text has no leading number, where the arithmetic throws a
      `TypeError`. */
  function BufTruthy(c: Category): Option<bool> {
    match c.data.buf
    case None => Some(false)
    case Some(b) => PlusTruthy(b)
  }

  /** The parent the loop at lines 149-156 gives `c`: NIL when `+buf` is
      falsy, otherwise the uuid of the first category whose `external_id`
      is `buf`; nothing when `+buf` throws, and nothing when there is no
      such category, where `->get` is called on null. Both are `\Error`s. */
  function ResolvedParent(cats: seq<Category>, c: Category): (r: Option<Uuid>)
    ensures BufTruthy(c).None? ==> r.None?
    ensures BufTruthy(c) == Some(false) ==> r == Some(NIL)
    ensures BufTruthy(c) == Some(true) ==>
      (r.None? <==> forall j :: 0 <= j < |cats| ==> cats[j].data.externalId != c.data.buf.value)
    ensures BufTruthy(c) == Some(true) && r.Some? ==>
      exists j :: 0 <= j < |cats| && cats[j].data.externalId == c.data.buf.value && cats[j].uuid == r.value
  {
    match BufTruthy(c)
    case None => None
    case Some(truthy) =>
      if !truthy then Some(NIL)
      else
        match CategoryByExternal(cats, c.data.buf.value)
        case Some(j) => Some(cats[j].uuid)
        case None => None
  }

  /** `+buf` throws, or it is truthy and no category has `buf` as its
      `external_id`. */
  predicate Unresolvable(cats: seq<Category>, c: Category) {
    || BufTruthy(c).None?
    || (BufTruthy(c) == Some(true) && forall j :: 0 <= j < |cats| ==> cats[j].data.externalId != c.data.buf.value)
  }

  function SetParent(c: Category, p: Uuid): Category {
    c.(data := c.data.(parent := p))
  }

  /** The collection once the loop at lines 149-156 has set the parents of
      its first `n` categories. */
  function WithParents(cats: seq<Category>, n: nat): (r: seq<Category>)
    requires n <= |cats|
    requires forall j :: 0 <= j < n ==> ResolvedParent(cats, cats[j]).Some?
  {
    seq(|cats|, i requires 0 <= i < |cats| =>
      if i < n then SetParent(cats[i], ResolvedParent(cats, cats[i]).value) else cats[i])
  }

  /** The whole loop at lines 149-156: the collection it leaves and whether
      it ends in an `\Error`: a `buf` without a leading number, or one
      naming no category. */
  function ResolveParentsSpec(cats: seq<Category>): (r: (seq<Category>, bool))
    ensures |r.0| == |cats|
    ensures forall k :: 0 <= k < |cats| ==>
      r.0[k] == cats[k].(data := cats[k].data.(parent := r.0[k].data.parent))
    ensures r.1 <==> exists k :: 0 <= k < |cats| && ResolvedParent(cats, cats[k]).None?
    ensures r.1 <==> exists k :: 0 <= k < |cats| && Unresolvable(cats, cats[k])
    ensures !r.1 ==> forall k :: 0 <= k < |cats| ==> ResolvedParent(cats, cats[k]) == Some(r.0[k].data.parent)
  {
    match FirstIndex(cats, (c: Category) => ResolvedParent(cats, c).None?)
    case None => (WithParents(cats, |cats|), false)
    case Some(f) => (WithParents(cats, f), true)
  }

  /** A category whose `idParent` is empty or textual makes `+buf` throw,
      and the parent loop ends in the `\Error`. */
  lemma NonNumericParentEscapes(cats: seq<Category>, k: nat)
    requires k < |cats| && (cats[k].data.buf == Some("") || cats[k].data.buf == Some("abc"))
    ensures ResolveParentsSpec(cats).1
  {
    PlusThrowsExamples();
    assert Unresolvable(cats, cats[k]);
  }

  /** The loop escapes at the first unresolvable category, with the
      parents before it set. */
  lemma ResolveEscapesAt(cats: seq<Category>, k: nat)
    requires k < |cats|
    requires forall j :: 0 <= j < k ==> ResolvedParent(cats, cats[j]).Some?
    requires ResolvedParent(cats, cats[k]).None?
    ensures ResolveParentsSpec(cats) == (WithParents(cats, k), true)
  {
    FirstIndexIs(cats, (c: Category) => ResolvedParent(cats, c).None?, k);
  }

  /** When every parent resolves, the loop sets them all. */
  lemma ResolveCompletes(cats: seq<Category>)
    requires forall j :: 0 <= j < |cats| ==> ResolvedParent(cats, cats[j]).Some?
    ensures ResolveParentsSpec(cats) == (WithParents(cats, |cats|), false)
  {
    assert FirstIndex(cats, (c: Category) => ResolvedParent(cats, c).None?).None?;
  }

  /** Setting parents keeps every `external_id`, so a lookup by it gives the
      same answer before and after. */
  lemma WithParentsByExternal(cats: seq<Category>, n: nat, id: string)
    requires n <= |cats|
    requires forall j :: 0 <= j < n ==> ResolvedParent(cats, cats[j]).Some?
    ensures CategoryByExternal(WithParents(cats, n), id) == CategoryByExternal(cats, id)
  {
    var r := WithParents(cats, n);
    assert forall i :: 0 <= i < |r| ==> r[i].data.externalId == cats[i].data.externalId;
    FirstIndexAgree(r, (c: Category) => c.data.externalId == id, cats, (c: Category) => c.data.externalId == id);
  }

  /** At turn `k` the loop sees `k` untouched, and its lookup in the
      partly updated collection resolves exactly as `ResolvedParent` says. */
  lemma ResolveTurn(orig: seq<Category>, k: nat)
    requires k < |orig|
    requires forall j :: 0 <= j < k ==> ResolvedParent(orig, orig[j]).Some?
    ensures var cur := WithParents(orig, k);
      && cur[k] == orig[k]
      && (BufTruthy(orig[k]) == Some(true) ==>
            var found := CategoryByExternal(cur, orig[k].data.buf.value);
            && (found.None? <==> ResolvedParent(orig, orig[k]).None?)
            && (found.Some? ==> ResolvedParent(orig, orig[k]) == Some(cur[found.value].uuid)))
  {
    if BufTruthy(orig[k]) == Some(true) {
      WithParentsByExternal(orig, k, orig[k].data.buf.value);
    }
  }

  /** Setting `k`'s resolved parent extends the updated prefix by one. */
  lemma WithParentsNext(orig: seq<Category>, k: nat)
    requires k < |orig|
    requires forall j :: 0 <= j <= k ==> ResolvedParent(orig, orig[j]).Some?
    ensures WithParents(orig, k)[k := SetParent(orig[k], ResolvedParent(orig, orig[k]).value)] == WithParents(orig, k + 1)
  {
  }

  // ============================================================= addresses

  /** A category with its address blanked: what the address loop keeps. */
  function Unaddressed(c: Category): Category {
    c.(data := c.data.(address := ""))
  }

  /** The address category `k` has after its turn of the loop at lines
      160-170, on the collection as the earlier turns left it. */
  function PrefixedAddress(cats: seq<Category>, k: nat): string
    requires k < |cats|
  {
    var model := cats[k];
    match CategoryByUuid(cats, model.data.parent)
    case Some(p) =>
      if !StartsWith(cats[p].data.address, model.data.address) then cats[p].data.address + "/" + model.data.address
      else model.data.address
    case None => model.data.address
  }

  /** That turn: only `k`'s address can change. */
  function PrefixStep(cats: seq<Category>, k: nat): (r: seq<Category>)
    requires k < |cats|
    ensures |r| == |cats|
    ensures forall j :: 0 <= j < |cats| && j != k ==> r[j] == cats[j]
    ensures Unaddressed(r[k]) == Unaddressed(cats[k])
    ensures r[k].data.address == PrefixedAddress(cats, k)
  {
    cats[k := cats[k].(data := cats[k].data.(address := PrefixedAddress(cats, k)))]
  }

  /** The loop at lines 160-170 after its first `n` turns. */
  function PrefixAddresses(cats: seq<Category>, n: nat): (r: seq<Category>)
    requires n <= |cats|
    ensures |r| == |cats|
    ensures forall j :: 0 <= j < |cats| ==> r[j].uuid == cats[j].uuid
    ensures forall j :: n <= j < |cats| ==> r[j] == cats[j]
    decreases n
  {
    if n == 0 then cats else PrefixStep(PrefixAddresses(cats, n - 1), n - 1)
  }

  /** The address loop changes addresses and nothing else. */
  lemma {:induction false} PrefixAddressesOnlyAddresses(cats: seq<Category>, n: nat)
    requires n <= |cats|
    ensures forall j :: 0 <= j < |cats| ==> Unaddressed(PrefixAddresses(cats, n)[j]) == Unaddressed(cats[j])
    decreases n
  {
    if n > 0 {
      PrefixAddressesOnlyAddresses(cats, n - 1);
    }
  }

  /** A category's address is settled at its own turn. */
  lemma {:induction false} PrefixAddressesSettled(cats: seq<Category>, n: nat, k: nat)
    requires k < n <= |cats|
    ensures PrefixAddresses(cats, n)[k] == PrefixAddresses(cats, k + 1)[k]
    decreases n
  {
    if n > k + 1 {
      var prev := PrefixAddresses(cats, n - 1);
      assert PrefixAddresses(cats, n)[k] == prev[k];
      PrefixAddressesSettled(cats, n - 1, k);
    }
  }

  /** With auto-address on, category `k` ends with the address
      `parent.address + '/' + address` exactly when its parent is in the
      collection and the parent's address, as the loop sees it at `k`'s turn
      (already prefixed when the parent comes earlier), does not start with
      `k`'s address; otherwise its address is unchanged. */
  lemma PrefixAddressesFinal(cats: seq<Category>, k: nat)
    requires k < |cats|
    ensures var r := PrefixAddresses(cats, |cats|);
      var p := CategoryByUuid(cats, cats[k].data.parent);
      var pa := if p.Some? && p.value < k then r[p.value].data.address
                else if p.Some? then cats[p.value].data.address else "";
      r[k].data.address ==
        if p.Some? && !StartsWith(pa, cats[k].data.address) then pa + "/" + cats[k].data.address
        else cats[k].data.address
  {
    var r := PrefixAddresses(cats, |cats|);
    var prev := PrefixAddresses(cats, k);
    PrefixAddressesSettled(cats, |cats|, k);
    PrefixTurn(cats, k);
    var p := CategoryByUuid(cats, cats[k].data.parent);
    if p.Some? && p.value < k {
      PrefixAddressesSettled(cats, |cats|, p.value);
      PrefixAddressesSettled(cats, k, p.value);
    }
  }

  /** At `k`'s turn the loop finds the same parent index as in the input
      collection, and `k` itself is not yet touched. */
  lemma PrefixTurn(cats: seq<Category>, k: nat)
    requires k < |cats|
    ensures var prev := PrefixAddresses(cats, k);
      && prev[k] == cats[k]
      && CategoryByUuid(prev, cats[k].data.parent) == CategoryByUuid(cats, cats[k].data.parent)
      && PrefixAddresses(cats, |cats|)[k].data.address == PrefixedAddress(prev, k)
  {
    var prev := PrefixAddresses(cats, k);
    var u := cats[k].data.parent;
    FirstIndexAgree(prev, (c: Category) => c.uuid == u, cats, (c: Category) => c.uuid == u);
    PrefixAddressesSettled(cats, |cats|, k);
  }

  // ============================================================== products

  /** The `$data` array built for one product item (lines 199-230), with
      the parsed `changeDate`. */
  function ProductDataOf(item: ProductItem, date: int): ProductData {
    ProductData(
      item.idTovar, NIL, Trim(item.name), item.poryadok, Trim(item.opisanie), Trim(item.opisanieDop),
      item.link, item.ind1, item.ind2, item.ind3, item.ind4, item.ind5, item.artikul, item.strihKod,
      item.sebestomost, item.price, item.optPrice, RTrim(item.edIzmer, '.'), item.ves, item.strana,
      item.proizv, item.tags, date, item.kolvo, Some(1))
  }

  /** Lines 245-251: the category whose `external_id` is `vStrukture` gives
      the product its uuid and, with auto-address, its address prefix. */
  function Placed(cats: seq<Category>, d: ProductData, vStrukture: string, autoAddress: bool): ProductData {
    match CategoryByExternal(cats, vStrukture)
    case None => d
    case Some(c) =>
      d.(category := cats[c].uuid,
         address := if autoAddress then cats[c].data.address + "/" + d.address else d.address)
  }

  /** The parts of a product the product loop never changes. */
  predicate SameProductKey(a: Product, b: Product) {
    a.uuid == b.uuid && a.status == b.status && a.files == b.files && a.data.externalId == b.data.externalId
  }

  /** `firstWhere('external_id', …)` followed by `replace($data)`, or a new
      WORK product with uuid `newUuid` appended when there is none. */
  function UpsertProduct(prods: seq<Product>, d: ProductData, newUuid: Uuid): seq<Product>
  {
    match ProductByExternal(prods, d.externalId)
    case Some(k) => prods[k := prods[k].(data := d)]
    case None =>
      var r := prods + [Product(newUuid, Work, [], d)];
      assert r[|prods|].data.externalId == d.externalId;
      r
  }

  /** The upsert changes only the data of the product with `d`'s
      `external_id`, or appends a new WORK product when there is none; the
      lookup then finds `d`, and `external_id`s stay distinct. */
  lemma UpsertProductFacts(prods: seq<Product>, d: ProductData, newUuid: Uuid)
    ensures var r := UpsertProduct(prods, d, newUuid);
      && (ProductByExternal(prods, d.externalId).Some? ==> |r| == |prods|)
      && (ProductByExternal(prods, d.externalId).None? ==> r == prods + [Product(newUuid, Work, [], d)])
      && (forall j :: 0 <= j < |prods| ==> SameProductKey(r[j], prods[j]))
      && (forall j :: 0 <= j < |prods| && prods[j].data.externalId != d.externalId ==> r[j] == prods[j])
      && ProductByExternal(r, d.externalId).Some?
      && r[ProductByExternal(r, d.externalId).value].data == d
      && (DistinctProductIds(prods) ==> DistinctProductIds(r))
  {
    if ProductByExternal(prods, d.externalId).None? {
      var r := prods + [Product(newUuid, Work, [], d)];
      assert r[|prods|].data.externalId == d.externalId;
    }
  }

  /** The state the product loops thread; `threw` records the `\Exception`
      of an unparsable `changeDate`, after which nothing more happens. */
  datatype ProductState = ProductState(prods: seq<Product>, next: Uuid, images: seq<ImageRequest>, threw: bool)

  /** One turn of the loop at lines 198-261. */
  function ProductStep(cats: seq<Category>, s: ProductState, item: ProductItem, check: ProductData -> bool,
                       parseDate: string -> Option<int>, st: Settings): ProductState
  {
    if s.threw then s
    else
      match parseDate(Trim(item.changeDate))
      case None => s.(threw := true)
      case Some(date) =>
        var d := ProductDataOf(item, date);
        if !check(d) then s
        else
          var found := ProductByExternal(s.prods, d.externalId);
          var u := if found.Some? then s.prods[found.value].uuid else s.next;
          ProductState(
            UpsertProduct(s.prods, SavedData(cats, item, date, st), s.next),
            if found.Some? then s.next else s.next + 1,
            if StrTruthy(item.foto) && st.fileEnabled then s.images + [ImageRequest(item.foto, "product", u)] else s.images,
            false)
  }

  /** The items loop over `items`, in order. */
  function ProductItems(cats: seq<Category>, s: ProductState, items: seq<ProductItem>, check: ProductData -> bool,
                        parseDate: string -> Option<int>, st: Settings): ProductState
    decreases |items|
  {
    if items == [] then s
    else ProductStep(cats, ProductItems(cats, s, items[..|items| - 1], check, parseDate, st), items[|items| - 1], check, parseDate, st)
  }

  /** Running the loop over `a + b` is running it over `a`, then over `b`. */
  lemma {:induction false} ProductItemsAppend(cats: seq<Category>, s: ProductState, a: seq<ProductItem>, b: seq<ProductItem>,
                                              check: ProductData -> bool, parseDate: string -> Option<int>, st: Settings)
    ensures ProductItems(cats, s, a + b, check, parseDate, st)
         == ProductItems(cats, ProductItems(cats, s, a, check, parseDate, st), b, check, parseDate, st)
    decreases |b|
  {
    if b == [] {
      assert a + b == a;
    } else {
      assert (a + b)[..|a + b| - 1] == a + b[..|b| - 1];
      assert (a + b)[|a + b| - 1] == b[|b| - 1];
      ProductItemsAppend(cats, s, a, b[..|b| - 1], check, parseDate, st);
    }
  }

  /** After the `\Exception`, no further item changes anything. */
  lemma {:induction false} ProductItemsAfterThrow(cats: seq<Category>, s: ProductState, items: seq<ProductItem>,
                                                  check: ProductData -> bool, parseDate: string -> Option<int>, st: Settings)
    requires s.threw
    ensures ProductItems(cats, s, items, check, parseDate, st) == s
    decreases |items|
  {
    if items != [] {
      ProductItemsAfterThrow(cats, s, items[..|items| - 1], check, parseDate, st);
    }
  }

  /** One more turn of the loop over `items`. */
  lemma ProductItemsNext(cats: seq<Category>, s: ProductState, items: seq<ProductItem>, j: nat,
                         check: ProductData -> bool, parseDate: string -> Option<int>, st: Settings)
    requires j < |items|
    ensures ProductItems(cats, s, items[..j + 1], check, parseDate, st)
         == ProductStep(cats, ProductItems(cats, s, items[..j], check, parseDate, st), items[j], check, parseDate, st)
  {
    assert items[..j + 1][..j] == items[..j];
  }

  /** A turn that throws ends the loop: the rest of the items change nothing. */
  lemma ProductItemsThrowAt(cats: seq<Category>, s: ProductState, items: seq<ProductItem>, j: nat,
                            check: ProductData -> bool, parseDate: string -> Option<int>, st: Settings)
    requires j <= |items| && ProductItems(cats, s, items[..j], check, parseDate, st).threw
    ensures ProductItems(cats, s, items, check, parseDate, st) == ProductItems(cats, s, items[..j], check, parseDate, st)
  {
    ProductItemsAppend(cats, s, items[..j], items[j..], check, parseDate, st);
    ProductItemsAfterThrow(cats, ProductItems(cats, s, items[..j], check, parseDate, st), items[j..], check, parseDate, st);
    assert items[..j] + items[j..] == items;
  }

  /** The data an accepted item is saved with (lines 239-253): marked
      `buf = 1`, in the category whose `external_id` is `vStrukture` (NIL
      when there is none, and the product is saved all the same), and with
      auto-address at that category's address, '/', and `link`. */
  function SavedData(cats: seq<Category>, item: ProductItem, date: int, st: Settings): (d: ProductData)
    ensures d.externalId == item.idTovar && d.buf == Some(1) && d.date == date
    ensures var c := CategoryByExternal(cats, item.vStrukture);
      && d.category == (if c.Some? then cats[c.value].uuid else NIL)
      && d.address == (if c.Some? && st.autoAddress then cats[c.value].data.address + "/" + item.link else item.link)
  {
    Placed(cats, ProductDataOf(item, date), item.vStrukture, st.autoAddress)
  }

  /** What one turn of the product loop does to the collection and the uuid
      counter: nothing, or the upsert of the item's saved data. */
  lemma ProductStepShape(cats: seq<Category>, s: ProductState, item: ProductItem,
                         check: ProductData -> bool, parseDate: string -> Option<int>, st: Settings)
    ensures var r := ProductStep(cats, s, item, check, parseDate, st);
      var date := parseDate(Trim(item.changeDate));
      if !s.threw && date.Some? && check(ProductDataOf(item, date.value)) then
        && r.prods == UpsertProduct(s.prods, SavedData(cats, item, date.value, st), s.next)
        && r.next == (if ProductByExternal(s.prods, item.idTovar).Some? then s.next else s.next + 1)
      else r.prods == s.prods && r.next == s.next
  {
  }

  /** The turn of an item whose date does not parse throws; one whose data
      the filter rejects changes nothing. */
  lemma ProductStepSkips(cats: seq<Category>, s: ProductState, item: ProductItem, check: ProductData -> bool,
                         parseDate: string -> Option<int>, st: Settings)
    requires !s.threw
    ensures parseDate(Trim(item.changeDate)).None? ==> ProductStep(cats, s, item, check, parseDate, st) == s.(threw := true)
    ensures var date := parseDate(Trim(item.changeDate));
      date.Some? && !check(ProductDataOf(item, date.value)) ==> ProductStep(cats, s, item, check, parseDate, st) == s
  {
  }

  /** The turn of an item whose date parses and whose data passes the filter. */
  lemma ProductStepAccepted(cats: seq<Category>, s: ProductState, item: ProductItem, check: ProductData -> bool,
                            parseDate: string -> Option<int>, st: Settings, date: int)
    requires !s.threw && parseDate(Trim(item.changeDate)) == Some(date) && check(ProductDataOf(item, date))
    ensures var found := ProductByExternal(s.prods, item.idTovar);
      var u := if found.Some? then s.prods[found.value].uuid else s.next;
      ProductStep(cats, s, item, check, parseDate, st)
      == ProductState(
           UpsertProduct(s.prods, SavedData(cats, item, date, st), s.next),
           if found.Some? then s.next else s.next + 1,
           if StrTruthy(item.foto) && st.fileEnabled then s.images + [ImageRequest(item.foto, "product", u)] else s.images,
           false)
  {
  }

  /** One turn of the product loop only appends, keeps every earlier
      product's key parts, takes new uuids above all old ones and keeps
      `external_id`s distinct. */
  lemma ProductStepKeys(cats: seq<Category>, s: ProductState, item: ProductItem,
                        check: ProductData -> bool, parseDate: string -> Option<int>, st: Settings)
    ensures var r := ProductStep(cats, s, item, check, parseDate, st);
      && |r.prods| >= |s.prods|
      && (forall j :: 0 <= j < |s.prods| ==> SameProductKey(r.prods[j], s.prods[j]))
      && (FreshAbove(cats, s.prods, s.next) ==> FreshAbove(cats, r.prods, r.next))
      && (DistinctProductIds(s.prods) ==> DistinctProductIds(r.prods))
  {
    ProductStepShape(cats, s, item, check, parseDate, st);
    var date := parseDate(Trim(item.changeDate));
    if date.Some? {
      UpsertProductFacts(s.prods, SavedData(cats, item, date.value, st), s.next);
    }
  }

  /** The product loop only appends, keeps every earlier product's uuid,
      status, files and `external_id`, takes new uuids above all old ones,
      and leaves no two products with one `external_id` if none did before. */
  lemma {:induction false} ProductItemsKeys(cats: seq<Category>, s: ProductState, items: seq<ProductItem>,
                                            check: ProductData -> bool, parseDate: string -> Option<int>, st: Settings)
    ensures var r := ProductItems(cats, s, items, check, parseDate, st);
      && |r.prods| >= |s.prods|
      && (forall j :: 0 <= j < |s.prods| ==> SameProductKey(r.prods[j], s.prods[j]))
      && (FreshAbove(cats, s.prods, s.next) ==> FreshAbove(cats, r.prods, r.next))
      && (DistinctProductIds(s.prods) ==> DistinctProductIds(r.prods))
    decreases |items|
  {
    if items != [] {
      var prev := ProductItems(cats, s, items[..|items| - 1], check, parseDate, st);
      ProductItemsKeys(cats, s, items[..|items| - 1], check, parseDate, st);
      ProductStepKeys(cats, prev, items[|items| - 1], check, parseDate, st);
    }
  }

  /** An accepted item leaves its saved data under its `idTovar`. */
  lemma ProductStepSaves(cats: seq<Category>, s: ProductState, item: ProductItem,
                         check: ProductData -> bool, parseDate: string -> Option<int>, st: Settings)
    requires !s.threw && parseDate(Trim(item.changeDate)).Some?
    requires check(ProductDataOf(item, parseDate(Trim(item.changeDate)).value))
    ensures var r := ProductStep(cats, s, item, check, parseDate, st).prods;
      && ProductByExternal(r, item.idTovar).Some?
      && r[ProductByExternal(r, item.idTovar).value].data == SavedData(cats, item, parseDate(Trim(item.changeDate)).value, st)
  {
    ProductStepShape(cats, s, item, check, parseDate, st);
    var date := parseDate(Trim(item.changeDate));
    if date.Some? {
      UpsertProductFacts(s.prods, SavedData(cats, item, date.value, st), s.next);
    }
  }

  /** A turn that does not save data under `id` leaves the product found
      under `id` where and as it was. */
  lemma ProductStepKeepsOther(cats: seq<Category>, s: ProductState, item: ProductItem,
                              check: ProductData -> bool, parseDate: string -> Option<int>, st: Settings, id: string, k: nat)
    requires ProductByExternal(s.prods, id) == Some(k)
    requires item.idTovar == id && parseDate(Trim(item.changeDate)).Some? ==>
      !check(ProductDataOf(item, parseDate(Trim(item.changeDate)).value))
    ensures var r := ProductStep(cats, s, item, check, parseDate, st).prods;
      ProductByExternal(r, id) == Some(k) && r[k] == s.prods[k]
  {
    ProductStepShape(cats, s, item, check, parseDate, st);
    var date := parseDate(Trim(item.changeDate));
    var r := ProductStep(cats, s, item, check, parseDate, st).prods;
    if r != s.prods {
      var d := SavedData(cats, item, date.value, st);
      UpsertProductFacts(s.prods, d, s.next);
      assert d.externalId != id;
      assert r[k] == s.prods[k];
      assert forall j :: 0 <= j < k ==> r[j].data.externalId == s.prods[j].data.externalId;
      FirstIndexIs(r, (p: Product) => p.data.externalId == id, k);
    }
  }

  /** Without the `\Exception`, the last accepted item with a given
      `idTovar` decides that product's data: its saved data replaces any
      earlier one, and no second product with that id appears. */
  lemma {:induction false} ProductItemsLastWins(cats: seq<Category>, s: ProductState, items: seq<ProductItem>,
                                                check: ProductData -> bool, parseDate: string -> Option<int>, st: Settings, i: nat)
    requires !ProductItems(cats, s, items, check, parseDate, st).threw
    requires i < |items| && parseDate(Trim(items[i].changeDate)).Some?
    requires check(ProductDataOf(items[i], parseDate(Trim(items[i].changeDate)).value))
    requires forall j :: i < j < |items| && items[j].idTovar == items[i].idTovar && parseDate(Trim(items[j].changeDate)).Some? ==>
      !check(ProductDataOf(items[j], parseDate(Trim(items[j].changeDate)).value))
    ensures var r := ProductItems(cats, s, items, check, parseDate, st).prods;
      && ProductByExternal(r, items[i].idTovar).Some?
      && r[ProductByExternal(r, items[i].idTovar).value].data
         == SavedData(cats, items[i], parseDate(Trim(items[i].changeDate)).value, st)
    decreases |items|
  {
    var n := |items| - 1;
    var prev := ProductItems(cats, s, items[..n], check, parseDate, st);
    if prev.threw {
      assert false;
    }
    if i == n {
      ProductStepSaves(cats, prev, items[n], check, parseDate, st);
    } else {
      ProductItemsLastWins(cats, s, items[..n], check, parseDate, st, i);
      var k := ProductByExternal(prev.prods, items[i].idTovar).value;
      ProductStepKeepsOther(cats, prev, items[n], check, parseDate, st, items[i].idTovar, k);
    }
  }

  /** The number of pages the loop at lines 187-265 requests for a count:
      the least `n >= 1` with `100 * n > count`, which is `count div 100 + 1`
      and not the ceiling of `count / 100`. */
  function PageCount(count: int): (n: nat)
    ensures n >= 1 && Step * n > count
    ensures n == 1 || Step * (n - 1) <= count
  {
    if count < 0 then 1 else count / Step + 1
  }

  /** The loop condition `$step * $i <= $count`, checked after page `i`,
      holds exactly while pages remain. */
  lemma PageCountGuard(count: int, i: nat)
    requires 1 <= i
    ensures (Step * i <= count) == (i < PageCount(count))
  {
  }

  /** A count of 200 asks for three pages; so does 250; 99 asks for one. */
  lemma PageCountExamples()
    ensures PageCount(200) == 3 && PageCount(250) == 3 && PageCount(99) == 1 && PageCount(0) == 1
  {
  }

  /** The arguments of the page request at `offset` (lines 188-195). */
  function PageArgs(storage: Value, offset: nat): Gateway.ApiArgs {
    Gateway.ApiArgs(
      Some("item/list"),
      Some([(StrKey("sklad"), storage), (StrKey("offset"), Int(offset)), (StrKey("limit"), Int(Step))]),
      None)
  }

  /** The first `n` page requests: offsets 0, 100, 200, … with limit 100. */
  function PageRequests(storage: Value, n: nat): (r: seq<Gateway.ApiArgs>)
    ensures |r| == n
    ensures forall i :: 0 <= i < n ==> r[i] == PageArgs(storage, Step * i)
  {
    seq(n, i requires 0 <= i < n => PageArgs(storage, Step * i))
  }

  /** The items of the first `n` pages, page after page. */
  function PageItems(pageAt: nat -> seq<ProductItem>, n: nat): seq<ProductItem> {
    if n == 0 then [] else PageItems(pageAt, n - 1) + pageAt(Step * (n - 1))
  }

  /** The loop at lines 186-265 from page `i` on, in state `s`, when there
      are `limit` pages: each page's items in turn, stopping after the page
      whose item throws; the final state and the number of pages requested
      in all. */
  function PagesFrom(cats: seq<Category>, s: ProductState, pageAt: nat -> seq<ProductItem>, check: ProductData -> bool,
                     parseDate: string -> Option<int>, st: Settings, i: nat, limit: nat): (r: (ProductState, nat))
    decreases limit - i
  {
    if i >= limit then (s, i)
    else
      var next := ProductItems(cats, s, pageAt(Step * i), check, parseDate, st);
      if next.threw then (next, i + 1)
      else PagesFrom(cats, next, pageAt, check, parseDate, st, i + 1, limit)
  }

  // ================================================================= sweep

  /** A catalog snapshot: the two collections the sweep works on. */
  datatype Store = Store(cats: seq<Category>, prods: seq<Product>)

  /** `whereIn('uuid', …)->set('status', DELETE)`: exactly the models whose
      uuid is listed are marked, in place. */
  function MarkWhere<T>(xs: seq<T>, uuids: seq<Uuid>, uuid: T -> Uuid, marked: T -> T): (r: seq<T>)
    ensures |r| == |xs|
    ensures forall j :: 0 <= j < |xs| ==> r[j] == if uuid(xs[j]) in uuids then marked(xs[j]) else xs[j]
  {
    seq(|xs|, i requires 0 <= i < |xs| => if uuid(xs[i]) in uuids then marked(xs[i]) else xs[i])
  }

  /** The mark on the categories. */
  function MarkCategories(cats: seq<Category>, uuids: seq<Uuid>): seq<Category> {
    MarkWhere(cats, uuids, (c: Category) => c.uuid, (c: Category) => c.(status := Delete))
  }

  /** The mark on the products. */
  function MarkProducts(prods: seq<Product>, uuids: seq<Uuid>): seq<Product> {
    MarkWhere(prods, uuids, (p: Product) => p.uuid, (p: Product) => p.(status := Delete))
  }

  /** The turn of the loop at lines 274-291 for category `k`: an unseen
      category marks the categories and the products whose uuid is among its
      children's uuids, then itself. */
  function CascadeStep(s: Store, k: nat, children: (seq<Category>, Category) -> seq<Uuid>): (r: Store)
    requires k < |s.cats|
    ensures |r.cats| == |s.cats| && |r.prods| == |s.prods|
  {
    if s.cats[k].data.buf.Some? then s
    else
      var ch := children(s.cats, s.cats[k]);
      var cats := MarkCategories(s.cats, ch);
      Store(cats[k := cats[k].(status := Delete)], MarkProducts(s.prods, ch))
  }

  /** The loop at lines 274-291 after its first `n` turns. */
  function Cascade(s: Store, n: nat, children: (seq<Category>, Category) -> seq<Uuid>): (r: Store)
    requires n <= |s.cats|
    ensures |r.cats| == |s.cats| && |r.prods| == |s.prods|
    decreases n
  {
    if n == 0 then s else CascadeStep(Cascade(s, n - 1, children), n - 1, children)
  }

  /** The uuids the first `n` turns of the cascade select. */
  function Selected(s: Store, n: nat, children: (seq<Category>, Category) -> seq<Uuid>): seq<Uuid>
    requires n <= |s.cats|
    decreases n
  {
    if n == 0 then []
    else
      var prev := Cascade(s, n - 1, children);
      Selected(s, n - 1, children)
        + (if prev.cats[n - 1].data.buf.None? then children(prev.cats, prev.cats[n - 1]) else [])
  }

  /** The loop at lines 294-297: WORK products with a null `buf` go DELETE. */
  function SweepProducts(prods: seq<Product>): (r: seq<Product>)
    ensures |r| == |prods|
  {
    seq(|prods|, i requires 0 <= i < |prods| =>
      if prods[i].status == Work && prods[i].data.buf.None? then prods[i].(status := Delete) else prods[i])
  }

  /** `remove`: the cascade over the unseen categories, then the product sweep. */
  function Sweep(s: Store, children: (seq<Category>, Category) -> seq<Uuid>): Store {
    var c := Cascade(s, |s.cats|, children);
    Store(c.cats, SweepProducts(c.prods))
  }

  /** The cascade changes statuses only: a category is DELETE after `n`
      turns exactly when it was, or it is unseen and among the first `n`, or
      its uuid was selected; a product exactly when it was or its own uuid
      was selected. */
  lemma {:induction false} CascadeStatus(s: Store, n: nat, children: (seq<Category>, Category) -> seq<Uuid>)
    requires n <= |s.cats|
    ensures var r := Cascade(s, n, children);
      && (forall k :: 0 <= k < |s.cats| ==>
            r.cats[k] == s.cats[k].(status :=
              if (k < n && s.cats[k].data.buf.None?) || s.cats[k].uuid in Selected(s, n, children) then Delete
              else s.cats[k].status))
      && (forall j :: 0 <= j < |s.prods| ==>
            r.prods[j] == s.prods[j].(status :=
              if s.prods[j].uuid in Selected(s, n, children) then Delete else s.prods[j].status))
    decreases n
  {
    if n > 0 {
      CascadeStatus(s, n - 1, children);
      var prev := Cascade(s, n - 1, children);
      assert prev.cats[n - 1].data.buf == s.cats[n - 1].data.buf;
    }
  }

  /** After the sweep, every unseen category and every category whose uuid
      the cascade selected is DELETE; every product that was WORK with a
      null `buf`, and every product whose own uuid was selected, is DELETE;
      everything else keeps its status, and nothing but statuses changes. */
  lemma SweepOutcome(s: Store, children: (seq<Category>, Category) -> seq<Uuid>)
    ensures var r := Sweep(s, children);
      var sel := Selected(s, |s.cats|, children);
      && |r.cats| == |s.cats| && |r.prods| == |s.prods|
      && (forall k :: 0 <= k < |s.cats| ==>
            r.cats[k] == s.cats[k].(status :=
              if s.cats[k].data.buf.None? || s.cats[k].uuid in sel then Delete else s.cats[k].status))
      && (forall j :: 0 <= j < |s.prods| ==>
            r.prods[j] == s.prods[j].(status :=
              if s.prods[j].uuid in sel || (s.prods[j].status == Work && s.prods[j].data.buf.None?) then Delete
              else s.prods[j].status))
  {
    CascadeStatus(s, |s.cats|, children);
  }

  /** Every uuid the cascade selects is one that `children` returned; when
      `children` only returns uuids of categories in the collection. */
  lemma {:induction false} SelectedAreCategories(s: Store, n: nat, children: (seq<Category>, Category) -> seq<Uuid>)
    requires n <= |s.cats|
    requires forall cs: seq<Category>, c: Category, u :: u in children(cs, c) ==> exists i :: 0 <= i < |cs| && cs[i].uuid == u
    ensures forall u :: u in Selected(s, n, children) ==> exists i :: 0 <= i < |s.cats| && s.cats[i].uuid == u
    decreases n
  {
    if n > 0 {
      SelectedAreCategories(s, n - 1, children);
      CascadeStatus(s, n - 1, children);
    }
  }

  /** As written, the cascade deletes the products whose own uuid equals a
      child category's uuid; when no product shares a uuid with a category,
      it deletes no product, and the products end exactly as the product
      sweep alone leaves them. */
  lemma CascadeSparesProducts(s: Store, children: (seq<Category>, Category) -> seq<Uuid>)
    requires forall cs: seq<Category>, c: Category, u :: u in children(cs, c) ==> exists i :: 0 <= i < |cs| && cs[i].uuid == u
    requires forall i, j :: 0 <= i < |s.cats| && 0 <= j < |s.prods| ==> s.cats[i].uuid != s.prods[j].uuid
    ensures Sweep(s, children).prods == SweepProducts(s.prods)
  {
    SelectedAreCategories(s, |s.cats|, children);
    SweepOutcome(s, children);
  }

  // ================================================================= phases

  /** `category`: the upsert loop, the parent loop, and with auto-address
      the address loop; the flag is the `\Error` of an unresolvable parent,
      which ends the phase (and the pass) after the parent loop's partial
      work. */
  function CategoryPhaseSpec(s: CategoryState, list: seq<CategoryItem>, check: CategoryData -> bool, st: Settings): (r: (CategoryState, bool))
  {
    var up := CategoryUpserts(s, list, check, st.fileEnabled);
    var resolved := ResolveParentsSpec(up.cats);
    if resolved.1 || !st.autoAddress then (up.(cats := resolved.0), resolved.1)
    else (up.(cats := PrefixAddresses(resolved.0, |resolved.0|)), false)
  }

  /** `product`: no page when the count answer is empty; otherwise the
      pagination loop over `PageCount(count)` pages, with the number of
      pages actually requested (fewer when an `\Exception` stops the loop). */
  function ProductPhaseSpec(cats: seq<Category>, s: ProductState, countResp: Value, pageAt: nat -> seq<ProductItem>,
                            check: ProductData -> bool, parseDate: string -> Option<int>, st: Settings): (r: (ProductState, nat))
  {
    if !Truthy(countResp) then (s, 0)
    else PagesFrom(cats, s, pageAt, check, parseDate, st, 0, PageCount(IntCast(Read(countResp, StrKey("count")))))
  }

  /** Once a prefix of the pages has thrown, the later pages change nothing. */
  lemma {:induction false} PageItemsAfterThrow(cats: seq<Category>, s: ProductState, pageAt: nat -> seq<ProductItem>,
                                               check: ProductData -> bool, parseDate: string -> Option<int>, st: Settings, m: nat, n: nat)
    requires m <= n && ProductItems(cats, s, PageItems(pageAt, m), check, parseDate, st).threw
    ensures ProductItems(cats, s, PageItems(pageAt, n), check, parseDate, st)
         == ProductItems(cats, s, PageItems(pageAt, m), check, parseDate, st)
    decreases n
  {
    if n > m {
      PageItemsAfterThrow(cats, s, pageAt, check, parseDate, st, m, n - 1);
      var prev := ProductItems(cats, s, PageItems(pageAt, n - 1), check, parseDate, st);
      ProductItemsAppend(cats, s, PageItems(pageAt, n - 1), pageAt(Step * (n - 1)), check, parseDate, st);
      ProductItemsAfterThrow(cats, prev, pageAt(Step * (n - 1)), check, parseDate, st);
    }
  }

  /** Running the loop over one more page. */
  lemma PageItemsNext(cats: seq<Category>, s: ProductState, pageAt: nat -> seq<ProductItem>,
                      check: ProductData -> bool, parseDate: string -> Option<int>, st: Settings, i: nat)
    ensures ProductItems(cats, s, PageItems(pageAt, i + 1), check, parseDate, st)
         == ProductItems(cats, ProductItems(cats, s, PageItems(pageAt, i), check, parseDate, st), pageAt(Step * i), check, parseDate, st)
  {
    ProductItemsAppend(cats, s, PageItems(pageAt, i), pageAt(Step * i), check, parseDate, st);
  }

  /** The pages are one stream: from page `i` on, the loop ends in the
      state the items loop reaches over the items of all `limit` pages. */
  lemma {:induction false} PagesFromFlat(cats: seq<Category>, s: ProductState, pageAt: nat -> seq<ProductItem>,
                                         check: ProductData -> bool, parseDate: string -> Option<int>, st: Settings, i: nat, limit: nat)
    requires i <= limit
    requires !ProductItems(cats, s, PageItems(pageAt, i), check, parseDate, st).threw
    ensures PagesFrom(cats, ProductItems(cats, s, PageItems(pageAt, i), check, parseDate, st), pageAt, check, parseDate, st, i, limit).0
         == ProductItems(cats, s, PageItems(pageAt, limit), check, parseDate, st)
    decreases limit - i
  {
    if i < limit {
      PageItemsNext(cats, s, pageAt, check, parseDate, st, i);
      if ProductItems(cats, s, PageItems(pageAt, i + 1), check, parseDate, st).threw {
        PageItemsAfterThrow(cats, s, pageAt, check, parseDate, st, i + 1, limit);
      } else {
        PagesFromFlat(cats, s, pageAt, check, parseDate, st, i + 1, limit);
      }
    }
  }

  /** From page `i < limit` on, at least one more page is requested and at
      most `limit` in all; the loop stops short of `limit` only after a
      page that throws, and a loop that does not throw requests them all. */
  lemma {:induction false} PagesFromCount(cats: seq<Category>, s: ProductState, pageAt: nat -> seq<ProductItem>,
                                          check: ProductData -> bool, parseDate: string -> Option<int>, st: Settings, i: nat, limit: nat)
    requires i < limit
    ensures var r := PagesFrom(cats, s, pageAt, check, parseDate, st, i, limit);
      && i < r.1 <= limit
      && (r.1 < limit ==> r.0.threw)
      && (!r.0.threw ==> r.1 == limit)
    decreases limit - i
  {
    var next := ProductItems(cats, s, pageAt(Step * i), check, parseDate, st);
    if !next.threw && i + 1 < limit {
      PagesFromCount(cats, next, pageAt, check, parseDate, st, i + 1, limit);
    }
  }

  /** The product phase as the items loop over all the pages' items, in
      page order; with a truthy count answer, at least one page is requested,
      at most `count div 100 + 1`, and all of them when no item throws; with
      an empty one, none. */
  lemma ProductPhasePages(cats: seq<Category>, s: ProductState, countResp: Value, pageAt: nat -> seq<ProductItem>,
                          check: ProductData -> bool, parseDate: string -> Option<int>, st: Settings)
    requires !s.threw
    ensures var r := ProductPhaseSpec(cats, s, countResp, pageAt, check, parseDate, st);
      var limit := PageCount(IntCast(Read(countResp, StrKey("count"))));
      && (!Truthy(countResp) ==> r.1 == 0 && r.0 == s)
      && (Truthy(countResp) ==> r.0 == ProductItems(cats, s, PageItems(pageAt, limit), check, parseDate, st))
      && (Truthy(countResp) ==> 1 <= r.1 <= limit)
      && (Truthy(countResp) && !r.0.threw ==> r.1 == limit)
  {
    if Truthy(countResp) {
      var limit := PageCount(IntCast(Read(countResp, StrKey("count"))));
      assert ProductItems(cats, s, PageItems(pageAt, 0), check, parseDate, st) == s;
      PagesFromFlat(cats, s, pageAt, check, parseDate, st, 0, limit);
      PagesFromCount(cats, s, pageAt, check, parseDate, st, 0, limit);
    }
  }

  /** The request for page `i` extends the first `i` requests. */
  lemma PageRequestsNext(storage: Value, i: nat)
    ensures PageRequests(storage, i) + [PageArgs(storage, Step * i)] == PageRequests(storage, i + 1)
  {
  }

  /** The state of a pass: the two collections, the uuid counter, the image
      list, the page requests sent, the progress reported, the status, and
      the image task queued. */
  datatype Run = Run(
    cats: seq<Category>,
    prods: seq<Product>,
    next: Uuid,
    images: seq<ImageRequest>,
    requests: seq<Gateway.ApiArgs>,
    progress: seq<nat>,
    status: TaskStatus,
    imageTask: Option<seq<ImageRequest>>)

  /** Lines 67-84 of `action`: progress 33 and the product phase; then,
      unless it throws (Fail), progress 66, the sweep, progress 99, the
      image task when the image list is non-empty, progress 100 and Done. */
  function AfterCategories(r: Run, countResp: Value, pageAt: nat -> seq<ProductItem>, checkProduct: ProductData -> bool,
                           parseDate: string -> Option<int>, st: Settings, children: (seq<Category>, Category) -> seq<Uuid>): Run
  {
    var p := ProductPhaseSpec(r.cats, ProductState(r.prods, r.next, r.images, false), countResp, pageAt, checkProduct, parseDate, st);
    var r1 := r.(prods := p.0.prods, next := p.0.next, images := p.0.images,
                 requests := r.requests + PageRequests(st.storage, p.1), progress := r.progress + [33]);
    if p.0.threw then r1.(status := Fail) else Finish(r1, children)
  }

  /** Lines 72-84 of `action`: progress 66, the sweep, progress 99, the
      image task when the image list is non-empty, progress 100 and Done. */
  function Finish(r: Run, children: (seq<Category>, Category) -> seq<Uuid>): Run {
    var sw := Sweep(Store(r.cats, r.prods), children);
    r.(cats := sw.cats, prods := sw.prods, progress := r.progress + [66, 99, 100], status := Done,
       imageTask := if r.images != [] then Some(r.images) else r.imageTask)
  }

  /** `action`: progress 1 and the category phase; its `\Error` ends the
      pass there (the flag), otherwise the rest follows. */
  function ActionSpec(r: Run, list: seq<CategoryItem>, countResp: Value, pageAt: nat -> seq<ProductItem>,
                      checkCategory: CategoryData -> bool, checkProduct: ProductData -> bool,
                      parseDate: string -> Option<int>, st: Settings, children: (seq<Category>, Category) -> seq<Uuid>): (Run, bool)
  {
    var c := CategoryPhaseSpec(CategoryState(r.cats, r.next, r.images), list, checkCategory, st);
    var r1 := r.(cats := c.0.cats, next := c.0.next, images := c.0.images, progress := r.progress + [1]);
    if c.1 then (r1, true)
    else (AfterCategories(r1, countResp, pageAt, checkProduct, parseDate, st, children), false)
  }

  /** The end of a pass that did not throw: Done, progress 66, 99 and 100,
      the sweep, and the image task exactly when images were collected;
      the uuid counter, the image list and the requests stay. */
  lemma FinishOutcome(r: Run, children: (seq<Category>, Category) -> seq<Uuid>)
    ensures var out := Finish(r, children);
      && out.progress == r.progress + [66, 99, 100]
      && Store(out.cats, out.prods) == Sweep(Store(r.cats, r.prods), children)
      && out.status == Done
      && out.next == r.next && out.images == r.images && out.requests == r.requests
      && (out.imageTask.Some? <==> (r.images != [] || r.imageTask.Some?))
      && (r.images != [] ==> out.imageTask == Some(r.images))
  {
  }

  /** When the `\Error` of an unresolvable parent escapes, the pass ends
      after progress 1 with the category phase's partial work, the products,
      the requests, the status and the image task untouched. */
  lemma ActionEscapes(r: Run, list: seq<CategoryItem>, countResp: Value, pageAt: nat -> seq<ProductItem>,
                      checkCategory: CategoryData -> bool, checkProduct: ProductData -> bool,
                      parseDate: string -> Option<int>, st: Settings, children: (seq<Category>, Category) -> seq<Uuid>)
    requires CategoryPhaseSpec(CategoryState(r.cats, r.next, r.images), list, checkCategory, st).1
    ensures var (out, escaped) := ActionSpec(r, list, countResp, pageAt, checkCategory, checkProduct, parseDate, st, children);
      var c := CategoryPhaseSpec(CategoryState(r.cats, r.next, r.images), list, checkCategory, st);
      && escaped
      && out.progress == r.progress + [1]
      && out.cats == c.0.cats && out.next == c.0.next && out.images == c.0.images
      && out.prods == r.prods && out.requests == r.requests
      && out.status == r.status && out.imageTask == r.imageTask
  {
  }

  /** The state after progress 1, the category phase and the product phase. */
  function AfterProducts(r: Run, list: seq<CategoryItem>, countResp: Value, pageAt: nat -> seq<ProductItem>,
                         checkCategory: CategoryData -> bool, checkProduct: ProductData -> bool,
                         parseDate: string -> Option<int>, st: Settings): (Run, bool)
  {
    var c := CategoryPhaseSpec(CategoryState(r.cats, r.next, r.images), list, checkCategory, st);
    var p := ProductPhaseSpec(c.0.cats, ProductState(r.prods, c.0.next, c.0.images, false), countResp, pageAt, checkProduct, parseDate, st);
    (r.(cats := c.0.cats, prods := p.0.prods, next := p.0.next, images := p.0.images,
        requests := r.requests + PageRequests(st.storage, p.1), progress := r.progress + [1, 33]),
     p.0.threw)
  }

  /** Without the `\Error`, the pass goes through the product phase, whose
      `\Exception` ends it with Fail after progress 1 and 33 and no sweep
      and no image task; otherwise it finishes. */
  lemma ActionProceeds(r: Run, list: seq<CategoryItem>, countResp: Value, pageAt: nat -> seq<ProductItem>,
                       checkCategory: CategoryData -> bool, checkProduct: ProductData -> bool,
                       parseDate: string -> Option<int>, st: Settings, children: (seq<Category>, Category) -> seq<Uuid>)
    requires !CategoryPhaseSpec(CategoryState(r.cats, r.next, r.images), list, checkCategory, st).1
    ensures var (out, escaped) := ActionSpec(r, list, countResp, pageAt, checkCategory, checkProduct, parseDate, st, children);
      var (mid, threw) := AfterProducts(r, list, countResp, pageAt, checkCategory, checkProduct, parseDate, st);
      && !escaped
      && (threw ==> out == mid.(status := Fail))
      && (!threw ==> out == Finish(mid, children))
  {
    assert r.progress + [1] + [33] == r.progress + [1, 33];
  }

  /** A product phase that throws ends the pass with Fail after progress 1
      and 33: no sweep and no image task, with the products saved so far kept. */
  lemma ActionFails(r: Run, list: seq<CategoryItem>, countResp: Value, pageAt: nat -> seq<ProductItem>,
                    checkCategory: CategoryData -> bool, checkProduct: ProductData -> bool,
                    parseDate: string -> Option<int>, st: Settings, children: (seq<Category>, Category) -> seq<Uuid>)
    requires !CategoryPhaseSpec(CategoryState(r.cats, r.next, r.images), list, checkCategory, st).1
    requires AfterProducts(r, list, countResp, pageAt, checkCategory, checkProduct, parseDate, st).1
    ensures var (out, escaped) := ActionSpec(r, list, countResp, pageAt, checkCategory, checkProduct, parseDate, st, children);
      var c := CategoryPhaseSpec(CategoryState(r.cats, r.next, r.images), list, checkCategory, st);
      && !escaped && out.status == Fail
      && out.progress == r.progress + [1, 33]
      && out.cats == c.0.cats
      && out.imageTask == r.imageTask
  {
    ActionProceeds(r, list, countResp, pageAt, checkCategory, checkProduct, parseDate, st, children);
  }

  /** A pass without exception ends Done after progress 1, 33, 66, 99 and
      100, with the store swept and an image task exactly when the two
      phases collected images. */
  lemma ActionCompletes(r: Run, list: seq<CategoryItem>, countResp: Value, pageAt: nat -> seq<ProductItem>,
                        checkCategory: CategoryData -> bool, checkProduct: ProductData -> bool,
                        parseDate: string -> Option<int>, st: Settings, children: (seq<Category>, Category) -> seq<Uuid>)
    requires !CategoryPhaseSpec(CategoryState(r.cats, r.next, r.images), list, checkCategory, st).1
    requires !AfterProducts(r, list, countResp, pageAt, checkCategory, checkProduct, parseDate, st).1
    ensures var (out, escaped) := ActionSpec(r, list, countResp, pageAt, checkCategory, checkProduct, parseDate, st, children);
      var (mid, _) := AfterProducts(r, list, countResp, pageAt, checkCategory, checkProduct, parseDate, st);
      && !escaped && out.status == Done
      && out.progress == r.progress + [1, 33, 66, 99, 100]
      && Store(out.cats, out.prods) == Sweep(Store(mid.cats, mid.prods), children)
      && (mid.images != [] ==> out.imageTask == Some(mid.images))
      && (mid.images == [] ==> out.imageTask == r.imageTask)
  {
    ActionProceeds(r, list, countResp, pageAt, checkCategory, checkProduct, parseDate, st, children);
    var (mid, _) := AfterProducts(r, list, countResp, pageAt, checkCategory, checkProduct, parseDate, st);
    FinishOutcome(mid, children);
    assert r.progress + [1, 33] + [66, 99, 100] == r.progress + [1, 33, 66, 99, 100];
  }

  /** A bound on the uuids of a collection. */
  function MaxUuid<T>(xs: seq<T>, uuid: T -> Uuid): (m: nat)
    ensures forall j :: 0 <= j < |xs| ==> uuid(xs[j]) <= m
  {
    if xs == [] then 0
    else
      var rest := MaxUuid(xs[1..], uuid);
      if uuid(xs[0]) > rest then uuid(xs[0]) else rest
  }

  /** The download job: the two collections it reconciles (the WORK models exported
      to TradeMaster, loaded before the pass), the image list it
      accumulates, and what it reports of its run. */
  class DownloadTask {
    const settings: Settings
    var categories: seq<Category>
    var products: seq<Product>
    var downloadImages: seq<ImageRequest>
    /** The uuid the next new model gets. */
    var nextUuid: Uuid
    var pageRequests: seq<Gateway.ApiArgs>
    var progress: seq<nat>
    var status: TaskStatus
    /** The list handed to the image task, once one is queued. */
    var imageTask: Option<seq<ImageRequest>>

    ghost predicate Valid()
      reads this
    {
      FreshAbove(categories, products, nextUuid)
    }

    constructor (settings: Settings, categories: seq<Category>, products: seq<Product>)
      ensures Valid()
      ensures this.settings == settings && this.categories == categories && this.products == products
      ensures downloadImages == [] && pageRequests == [] && progress == [] && status == Running && imageTask == None
    {
      this.settings := settings;
      this.categories := categories;
      this.products := products;
      var top := MaxUuid(categories, (c: Category) => c.uuid);
      var topProduct := MaxUuid(products, (p: Product) => p.uuid);
      if topProduct > top {
        top := topProduct;
      }
      nextUuid := top + 1;
      downloadImages := [];
      pageRequests := [];
      progress := [];
      status := Running;
      imageTask := None;
    }

    /** The loop at lines 108-146. */
    method UpsertCategories(list: seq<CategoryItem>, check: CategoryData -> bool)
      requires Valid()
      modifies this`categories, this`nextUuid, this`downloadImages
      ensures Valid()
      ensures CategoryState(categories, nextUuid, downloadImages)
           == CategoryUpserts(old(CategoryState(categories, nextUuid, downloadImages)), list, check, settings.fileEnabled)
    {
      ghost var s0 := CategoryState(categories, nextUuid, downloadImages);
      var i := 0;
      while i < |list|
        invariant 0 <= i <= |list|
        invariant CategoryState(categories, nextUuid, downloadImages) == CategoryUpserts(s0, list[..i], check, settings.fileEnabled)
      {
        CategoryUpsertsNext(s0, list, i, check, settings.fileEnabled);
        var item := list[i];
        var d := CategoryDataOf(item);
        if check(d) {
          var u := SaveCategory(d);
          if settings.fileEnabled {
            downloadImages := downloadImages + [ImageRequest(item.foto, "category", u)];
          }
        }
        i := i + 1;
      }
      assert list[..|list|] == list;
      CategoryUpsertsKeys(s0, list, check, settings.fileEnabled, products);
    }

    /** Lines 133-138: `firstWhere('external_id', …)`, a new persisted
        category when there is none, then `replace($data)`; the uuid of the
        saved category. */
    method SaveCategory(d: CategoryData) returns (u: Uuid)
      modifies this`categories, this`nextUuid
      ensures categories == UpsertCategory(old(categories), d, old(nextUuid))
      ensures var found := CategoryByExternal(old(categories), d.externalId);
        && nextUuid == (if found.Some? then old(nextUuid) else old(nextUuid) + 1)
        && u == (if found.Some? then old(categories)[found.value].uuid else old(nextUuid))
    {
      var found := CategoryByExternal(categories, d.externalId);
      if found.Some? {
        u := categories[found.value].uuid;
        categories := categories[found.value := categories[found.value].(data := d)];
      } else {
        u := nextUuid;
        categories := categories + [Category(nextUuid, Work, [], d)];
        nextUuid := nextUuid + 1;
      }
    }

    /** The loop at lines 149-156. */
    method ResolveParents() returns (escaped: bool)
      modifies this`categories
      ensures (categories, escaped) == ResolveParentsSpec(old(categories))
    {
      ghost var orig := categories;
      var k := 0;
      while k < |categories|
        invariant |categories| == |orig| && k <= |orig|
        invariant forall j :: 0 <= j < k ==> ResolvedParent(orig, orig[j]).Some?
        invariant categories == WithParents(orig, k)
      {
        ResolveTurn(orig, k);
        var model := categories[k];
        var plus := BufTruthy(model);
        if plus.None? {
          ResolveEscapesAt(orig, k);
          return true;
        }
        if plus.value {
          var found := CategoryByExternal(categories, model.data.buf.value);
          if found.None? {
            ResolveEscapesAt(orig, k);
            return true;
          }
          WithParentsNext(orig, k);
          categories := categories[k := SetParent(model, categories[found.value].uuid)];
        } else {
          WithParentsNext(orig, k);
          categories := categories[k := SetParent(model, NIL)];
        }
        k := k + 1;
      }
      ResolveCompletes(orig);
      return false;
    }

    /** The loop at lines 160-170. */
    method PrefixCategoryAddresses()
      modifies this`categories
      ensures categories == PrefixAddresses(old(categories), |old(categories)|)
    {
      ghost var orig := categories;
      var k := 0;
      while k < |categories|
        invariant |categories| == |orig| && k <= |orig|
        invariant categories == PrefixAddresses(orig, k)
      {
        var model := categories[k];
        var found := CategoryByUuid(categories, model.data.parent);
        if found.Some? && !StartsWith(categories[found.value].data.address, model.data.address) {
          categories := categories[k := model.(data := model.data.(address := categories[found.value].data.address + "/" + model.data.address))];
        } else {
          assert categories == PrefixStep(categories, k);
        }
        k := k + 1;
      }
    }

    /** `category` (lines 95-172). */
    method CategoryPhase(list: seq<CategoryItem>, check: CategoryData -> bool) returns (escaped: bool)
      requires Valid()
      modifies this`categories, this`nextUuid, this`downloadImages
      ensures Valid()
      ensures (CategoryState(categories, nextUuid, downloadImages), escaped)
           == CategoryPhaseSpec(old(CategoryState(categories, nextUuid, downloadImages)), list, check, settings)
    {
      UpsertCategories(list, check);
      ghost var up := categories;
      escaped := ResolveParents();
      if !escaped && settings.autoAddress {
        PrefixCategoryAddresses();
      }
      assert forall j :: 0 <= j < |categories| ==> categories[j].uuid == up[j].uuid;
    }

    /** Lines 239-251: `firstWhere('external_id', …)`, a new persisted
        product when there is none, then `replace($data)`; the uuid of the
        saved product. */
    method SaveProduct(d: ProductData) returns (u: Uuid)
      requires Valid()
      modifies this`products, this`nextUuid
      ensures Valid()
      ensures products == UpsertProduct(old(products), d, old(nextUuid))
      ensures var found := ProductByExternal(old(products), d.externalId);
        && nextUuid == (if found.Some? then old(nextUuid) else old(nextUuid) + 1)
        && u == (if found.Some? then old(products)[found.value].uuid else old(nextUuid))
    {
      var found := ProductByExternal(products, d.externalId);
      if found.Some? {
        u := products[found.value].uuid;
        products := products[found.value := products[found.value].(data := d)];
      } else {
        u := nextUuid;
        products := products + [Product(nextUuid, Work, [], d)];
        nextUuid := nextUuid + 1;
      }
    }

    /** Lines 245-251: the category whose `external_id` is `vStrukture`
        gives the data its uuid and, with auto-address, its address prefix. */
    method PlaceProduct(d: ProductData, vStrukture: string) returns (r: ProductData)
      ensures r == Placed(categories, d, vStrukture, settings.autoAddress)
    {
      r := d;
      var category := CategoryByExternal(categories, vStrukture);
      if category.Some? {
        r := r.(category := categories[category.value].uuid);
        if settings.autoAddress {
          r := r.(address := categories[category.value].data.address + "/" + r.address);
        }
      }
    }

    /** One turn of the loop at lines 198-261; the flag is the `\Exception`
        of an unparsable `changeDate`. */
    method UpsertProductItem(item: ProductItem, check: ProductData -> bool, parseDate: string -> Option<int>) returns (threw: bool)
      requires Valid()
      modifies this`products, this`nextUuid, this`downloadImages
      ensures Valid()
      ensures ProductState(products, nextUuid, downloadImages, threw)
           == ProductStep(categories, ProductState(old(products), old(nextUuid), old(downloadImages), false), item, check, parseDate, settings)
    {
      ProductStepSkips(categories, ProductState(products, nextUuid, downloadImages, false), item, check, parseDate, settings);
      var date := parseDate(Trim(item.changeDate));
      if date.None? {
        return true;
      }
      var data := ProductDataOf(item, date.value);
      if !check(data) {
        return false;
      }
      data := PlaceProduct(data, item.vStrukture);
      ProductStepAccepted(categories, ProductState(products, nextUuid, downloadImages, false), item, check, parseDate, settings, date.value);
      var u := SaveProduct(data);
      if StrTruthy(item.foto) && settings.fileEnabled {
        downloadImages := downloadImages + [ImageRequest(item.foto, "product", u)];
      }
      return false;
    }

    /** The `foreach` over one page (lines 198-262). */
    method UpsertPage(list: seq<ProductItem>, check: ProductData -> bool, parseDate: string -> Option<int>) returns (threw: bool)
      requires Valid()
      modifies this`products, this`nextUuid, this`downloadImages
      ensures Valid()
      ensures ProductState(products, nextUuid, downloadImages, threw)
           == ProductItems(categories, ProductState(old(products), old(nextUuid), old(downloadImages), false), list, check, parseDate, settings)
    {
      ghost var s0 := ProductState(products, nextUuid, downloadImages, false);
      var j := 0;
      while j < |list|
        invariant j <= |list|
        invariant Valid()
        invariant ProductState(products, nextUuid, downloadImages, false) == ProductItems(categories, s0, list[..j], check, parseDate, settings)
      {
        ProductItemsNext(categories, s0, list, j, check, parseDate, settings);
        var t := UpsertProductItem(list[j], check, parseDate);
        if t {
          ProductItemsThrowAt(categories, s0, list, j + 1, check, parseDate, settings);
          return true;
        }
        j := j + 1;
      }
      assert list[..j] == list;
      return false;
    }

    /** One page of the loop at lines 186-265: the request at offset
        `100 * i`, then the `foreach` over its items. */
    method FetchPage(i: nat, pageAt: nat -> seq<ProductItem>, check: ProductData -> bool,
                     parseDate: string -> Option<int>) returns (threw: bool)
      requires Valid()
      modifies this`products, this`nextUuid, this`downloadImages, this`pageRequests
      ensures Valid()
      ensures pageRequests == old(pageRequests) + [PageArgs(settings.storage, Step * i)]
      ensures ProductState(products, nextUuid, downloadImages, threw)
           == ProductItems(categories, ProductState(old(products), old(nextUuid), old(downloadImages), false), pageAt(Step * i), check, parseDate, settings)
    {
      var list := pageAt(Step * i);
      pageRequests := pageRequests + [PageArgs(settings.storage, Step * i)];
      threw := UpsertPage(list, check, parseDate);
    }

    /** The loop at lines 186-265 for a count of `count`. */
    method PageLoop(count: int, pageAt: nat -> seq<ProductItem>, check: ProductData -> bool,
                    parseDate: string -> Option<int>) returns (threw: bool)
      requires Valid()
      modifies this`products, this`nextUuid, this`downloadImages, this`pageRequests
      ensures Valid()
      ensures var r := PagesFrom(categories, ProductState(old(products), old(nextUuid), old(downloadImages), false),
                                 pageAt, check, parseDate, settings, 0, PageCount(count));
        && ProductState(products, nextUuid, downloadImages, threw) == r.0
        && pageRequests == old(pageRequests) + PageRequests(settings.storage, r.1)
    {
      ghost var spec := PagesFrom(categories, ProductState(products, nextUuid, downloadImages, false),
                                  pageAt, check, parseDate, settings, 0, PageCount(count));
      ghost var req0 := pageRequests;
      ghost var limit := PageCount(count);
      var i: nat := 0;
      var go := true;
      while go
        invariant i <= limit && go == (i < limit)
        invariant Valid()
        invariant spec == PagesFrom(categories, ProductState(products, nextUuid, downloadImages, false),
                                    pageAt, check, parseDate, settings, i, limit)
        invariant pageRequests == req0 + PageRequests(settings.storage, i)
        decreases limit - i
      {
        PageRequestsNext(settings.storage, i);
        var t := FetchPage(i, pageAt, check, parseDate);
        if t {
          return true;
        }
        i := i + 1;
        PageCountGuard(count, i);
        go := Step * i <= count;
      }
      return false;
    }

    /** `product` (lines 174-267): nothing when the count answer is falsy,
        else the pagination loop over `(int) $count['count']`. */
    method ProductPhase(countResp: Value, pageAt: nat -> seq<ProductItem>, check: ProductData -> bool,
                        parseDate: string -> Option<int>) returns (threw: bool)
      requires Valid()
      modifies this`products, this`nextUuid, this`downloadImages, this`pageRequests
      ensures Valid()
      ensures var r := ProductPhaseSpec(categories, ProductState(old(products), old(nextUuid), old(downloadImages), false),
                                        countResp, pageAt, check, parseDate, settings);
        && ProductState(products, nextUuid, downloadImages, threw) == r.0
        && pageRequests == old(pageRequests) + PageRequests(settings.storage, r.1)
    {
      threw := false;
      if Truthy(countResp) {
        var count := IntCast(Read(countResp, StrKey("count")));
        threw := PageLoop(count, pageAt, check, parseDate);
      }
    }

    /** `whereIn('uuid', $uuids)->set('status', DELETE)` on the categories. */
    method MarkCategoriesIn(uuids: seq<Uuid>)
      modifies this`categories
      ensures categories == MarkCategories(old(categories), uuids)
    {
      ghost var before := categories;
      var j := 0;
      while j < |categories|
        invariant |categories| == |before| && j <= |before|
        invariant forall m :: 0 <= m < j ==> categories[m] == MarkCategories(before, uuids)[m]
        invariant forall m :: j <= m < |before| ==> categories[m] == before[m]
      {
        if categories[j].uuid in uuids {
          categories := categories[j := categories[j].(status := Delete)];
        }
        j := j + 1;
      }
      assert categories == MarkCategories(before, uuids);
    }

    /** `whereIn('uuid', $uuids)->set('status', DELETE)` on the products. */
    method MarkProductsIn(uuids: seq<Uuid>)
      modifies this`products
      ensures products == MarkProducts(old(products), uuids)
    {
      ghost var before := products;
      var j := 0;
      while j < |products|
        invariant |products| == |before| && j <= |before|
        invariant forall m :: 0 <= m < j ==> products[m] == MarkProducts(before, uuids)[m]
        invariant forall m :: j <= m < |before| ==> products[m] == before[m]
      {
        if products[j].uuid in uuids {
          products := products[j := products[j].(status := Delete)];
        }
        j := j + 1;
      }
      assert products == MarkProducts(before, uuids);
    }

    /** The loop at lines 274-291 over every category. */
    method CascadeDeletes(children: (seq<Category>, Category) -> seq<Uuid>)
      modifies this`categories, this`products
      ensures Store(categories, products) == Cascade(old(Store(categories, products)), |old(categories)|, children)
    {
      ghost var s0 := Store(categories, products);
      var k := 0;
      while k < |categories|
        invariant |categories| == |s0.cats| && k <= |categories|
        invariant Store(categories, products) == Cascade(s0, k, children)
      {
        if categories[k].data.buf.None? {
          var ch := children(categories, categories[k]);
          MarkCategoriesIn(ch);
          MarkProductsIn(ch);
          categories := categories[k := categories[k].(status := Delete)];
        }
        k := k + 1;
      }
    }

    /** The loop at lines 294-297. */
    method SweepUnseenProducts()
      modifies this`products
      ensures products == SweepProducts(old(products))
    {
      ghost var before := products;
      var j := 0;
      while j < |products|
        invariant |products| == |before| && j <= |before|
        invariant forall m :: 0 <= m < j ==> products[m] == SweepProducts(before)[m]
        invariant forall m :: j <= m < |before| ==> products[m] == before[m]
      {
        if products[j].status == Work && products[j].data.buf.None? {
          products := products[j := products[j].(status := Delete)];
        }
        j := j + 1;
      }
      assert products == SweepProducts(before);
    }

    /** `remove` (lines 269-298). */
    method RemovePhase(children: (seq<Category>, Category) -> seq<Uuid>)
      requires Valid()
      modifies this`categories, this`products
      ensures Valid()
      ensures Store(categories, products) == Sweep(old(Store(categories, products)), children)
    {
      ghost var s0 := Store(categories, products);
      CascadeDeletes(children);
      SweepUnseenProducts();
      SweepOutcome(s0, children);
      assert forall k :: 0 <= k < |categories| ==> categories[k].uuid == s0.cats[k].uuid;
      assert forall j :: 0 <= j < |products| ==> products[j].uuid == s0.prods[j].uuid;
    }

    /** Everything the pass reads and writes, as one value. */
    ghost function Snapshot(): Run
      reads this
    {
      Run(categories, products, nextUuid, downloadImages, pageRequests, progress, status, imageTask)
    }

    /** Lines 67-84 of `action`, after the category phase. */
    method ProductsAndSweep(countResp: Value, pageAt: nat -> seq<ProductItem>, checkProduct: ProductData -> bool,
                            parseDate: string -> Option<int>, children: (seq<Category>, Category) -> seq<Uuid>)
      requires Valid()
      modifies this`categories, this`products, this`nextUuid, this`downloadImages, this`pageRequests
      modifies this`progress, this`status, this`imageTask
      ensures Valid()
      ensures Snapshot() == AfterCategories(old(Snapshot()), countResp, pageAt, checkProduct, parseDate, settings, children)
    {
      progress := progress + [33];
      var threw := ProductPhase(countResp, pageAt, checkProduct, parseDate);
      if threw {
        status := Fail;
        return;
      }
      SweepAndFinish(children);
    }

    /** Lines 72-84 of `action`. */
    method SweepAndFinish(children: (seq<Category>, Category) -> seq<Uuid>)
      requires Valid()
      modifies this`categories, this`products, this`progress, this`status, this`imageTask
      ensures Valid()
      ensures Snapshot() == Finish(old(Snapshot()), children)
    {
      ghost var p0 := progress;
      progress := progress + [66];
      RemovePhase(children);
      progress := progress + [99];
      if downloadImages != [] {
        imageTask := Some(downloadImages);
      }
      progress := progress + [100];
      status := Done;
      assert progress == p0 + [66, 99, 100];
    }

    /** `action` (lines 45-93). */
    method Action(list: seq<CategoryItem>, countResp: Value, pageAt: nat -> seq<ProductItem>,
                  checkCategory: CategoryData -> bool, checkProduct: ProductData -> bool,
                  parseDate: string -> Option<int>, children: (seq<Category>, Category) -> seq<Uuid>)
      returns (escaped: bool)
      requires Valid()
      modifies this`categories, this`products, this`nextUuid, this`downloadImages, this`pageRequests
      modifies this`progress, this`status, this`imageTask
      ensures Valid()
      ensures (Snapshot(), escaped)
           == ActionSpec(old(Snapshot()), list, countResp, pageAt, checkCategory, checkProduct, parseDate, settings, children)
    {
      progress := progress + [1];
      escaped := CategoryPhase(list, checkCategory);
      if escaped {
        return;
      }
      ProductsAndSweep(countResp, pageAt, checkProduct, parseDate, children);
    }
  }
}
