/** `DownloadImageTask`: the job that attaches the photos the catalog download
    listed to their categories and products. For each item with a photo it
    looks the entity up by uuid, clears its files, fetches every
    `;`-separated name from the image cache and attaches the files that
    arrive, in order, collecting the uuids of the images for a conversion
    task queued at the end.

    The fetch (`File::getFromPath`) is a parameter; the two repositories are
    the sequences of the job's stores. */
module DownloadImage {
  import opened Php
  import opened Catalog
  import Gateway

  const Yes: string := "yes"
  const KindCategory: string := "category"
  const KindProduct: string := "product"
  /** The MIME prefix that marks a file for conversion. */
  const ImageType: string := "image/"

  /** The entity an item resolved to: its position in one of the stores. */
  datatype Target = CategoryAt(index: nat) | ProductAt(index: nat)

  /** The two repositories the job writes to. */
  datatype Stores = Stores(cats: seq<Category>, prods: seq<Product>)

  predicate InRange(s: Stores, t: Target) {
    match t
    case CategoryAt(i) => i < |s.cats|
    case ProductAt(i) => i < |s.prods|
  }

  /** `$entity` is either unset or one of the stored entities. */
  predicate EntityOk(s: Stores, e: Option<Target>) {
    e.None? || InRange(s, e.value)
  }

  function FilesOf(s: Stores, t: Target): seq<File>
    requires InRange(s, t)
  {
    match t
    case CategoryAt(i) => s.cats[i].files
    case ProductAt(i) => s.prods[i].files
  }

  /** The stores with the files of `t` set to `files`; nothing else changes. */
  function WithFiles(s: Stores, t: Target, files: seq<File>): (r: Stores)
    requires InRange(s, t)
    ensures |r.cats| == |s.cats| && |r.prods| == |s.prods| && InRange(r, t)
    ensures FilesOf(r, t) == files
  {
    match t
    case CategoryAt(i) => s.(cats := s.cats[i := s.cats[i].(files := files)])
    case ProductAt(i) => s.(prods := s.prods[i := s.prods[i].(files := files)])
  }

  /** Only the files of `t` change: every other entity, and every other field
      of `t`, stays as it was. */
  lemma WithFilesOthers(s: Stores, t: Target, files: seq<File>)
    requires InRange(s, t)
    ensures var r := WithFiles(s, t, files);
      && (forall i :: 0 <= i < |s.cats| && t != CategoryAt(i) ==> r.cats[i] == s.cats[i])
      && (forall i :: 0 <= i < |s.prods| && t != ProductAt(i) ==> r.prods[i] == s.prods[i])
      && match t
         case CategoryAt(i) => r.cats[i] == s.cats[i].(files := files)
         case ProductAt(i) => r.prods[i] == s.prods[i].(files := files)
  {
  }

  /** Setting the files twice keeps only the second. */
  lemma WithFilesTwice(s: Stores, t: Target, a: seq<File>, b: seq<File>)
    requires InRange(s, t)
    ensures WithFiles(WithFiles(s, t, a), t, b) == WithFiles(s, t, b)
  {
  }

  /** Setting an entity's own files changes nothing. */
  lemma WithFilesSame(s: Stores, t: Target)
    requires InRange(s, t)
    ensures WithFiles(s, t, FilesOf(s, t)) == s
  {
    match t
    case CategoryAt(i) => assert s.cats[i := s.cats[i]] == s.cats;
    case ProductAt(i) => assert s.prods[i := s.prods[i]] == s.prods;
  }

  // ================================================================ fetching

  /** The names of one `photo` field (line 79). */
  function Names(photo: string): seq<string> {
    Explode(';', photo)
  }

  /** The files `File::getFromPath(getFilePath(name))` returns for the names,
      in split order; a name whose fetch fails adds nothing. */
  function Fetched(names: seq<string>, cfg: Gateway.Config, fetch: string -> Option<File>): seq<File> {
    if names == [] then []
    else
      var n := |names| - 1;
      var got := fetch(Gateway.FilePath(cfg, names[n]));
      Fetched(names[..n], cfg, fetch) + (if got.Some? then [got.value] else [])
  }

  /** One more name adds its file when the fetch succeeds and nothing otherwise. */
  lemma FetchedStep(names: seq<string>, j: nat, cfg: Gateway.Config, fetch: string -> Option<File>)
    requires j < |names|
    ensures var got := fetch(Gateway.FilePath(cfg, names[j]));
      Fetched(names[..j + 1], cfg, fetch) == Fetched(names[..j], cfg, fetch) + (if got.Some? then [got.value] else [])
  {
    assert names[..j + 1][..j] == names[..j];
  }

  /** The files of consecutive name lists follow each other: split order is kept. */
  lemma {:induction false} FetchedAppend(a: seq<string>, b: seq<string>, cfg: Gateway.Config, fetch: string -> Option<File>)
    ensures Fetched(a + b, cfg, fetch) == Fetched(a, cfg, fetch) + Fetched(b, cfg, fetch)
    decreases |b|
  {
    if b == [] {
      assert a + b == a;
    } else {
      var n := |b| - 1;
      assert (a + b)[..|a + b| - 1] == a + b[..n];
      assert (a + b)[|a + b| - 1] == b[n];
      FetchedAppend(a, b[..n], cfg, fetch);
    }
  }

  /** Every file attached was fetched for one of the names, at its cache path;
      at most one file per name. */
  lemma {:induction false} FetchedFrom(names: seq<string>, cfg: Gateway.Config, fetch: string -> Option<File>)
    ensures |Fetched(names, cfg, fetch)| <= |names|
    ensures forall f :: f in Fetched(names, cfg, fetch) ==>
      exists i :: 0 <= i < |names| && fetch(Gateway.FilePath(cfg, names[i])) == Some(f)
  {
    if names != [] {
      var n := |names| - 1;
      FetchedFrom(names[..n], cfg, fetch);
      forall f | f in Fetched(names, cfg, fetch)
        ensures exists i :: 0 <= i < |names| && fetch(Gateway.FilePath(cfg, names[i])) == Some(f)
      {
        if f in Fetched(names[..n], cfg, fetch) {
          var i :| 0 <= i < n && fetch(Gateway.FilePath(cfg, names[..n][i])) == Some(f);
          assert names[..n][i] == names[i];
        } else {
          assert fetch(Gateway.FilePath(cfg, names[n])) == Some(f);
        }
      }
    }
  }

  /** When every fetch fails nothing is attached. */
  lemma {:induction false} FetchedNone(names: seq<string>, cfg: Gateway.Config, fetch: string -> Option<File>)
    requires forall i :: 0 <= i < |names| ==> fetch(Gateway.FilePath(cfg, names[i])).None?
    ensures Fetched(names, cfg, fetch) == []
  {
    if names != [] {
      var n := |names| - 1;
      assert forall i :: 0 <= i < n ==> names[..n][i] == names[i];
      FetchedNone(names[..n], cfg, fetch);
    }
  }

  /** `Str::start('image/', $model->type)`: the file is an image. */
  predicate IsImage(f: File) {
    StartsWith(f.mimeType, ImageType)
  }

  /** The uuids of the files `keep` selects, in order. */
  function UuidsOf(files: seq<File>, keep: File -> bool): seq<Uuid> {
    if files == [] then []
    else
      var n := |files| - 1;
      UuidsOf(files[..n], keep) + (if keep(files[n]) then [files[n].uuid] else [])
  }

  lemma UuidsOfStep(files: seq<File>, keep: File -> bool, f: File)
    ensures UuidsOf(files + [f], keep) == UuidsOf(files, keep) + (if keep(f) then [f.uuid] else [])
  {
    assert (files + [f])[..|files|] == files;
  }

  /** A uuid is collected exactly when it is the uuid of a selected file. */
  lemma {:induction false} UuidsOfExact(files: seq<File>, keep: File -> bool, u: Uuid)
    ensures u in UuidsOf(files, keep) <==> exists i :: 0 <= i < |files| && keep(files[i]) && files[i].uuid == u
  {
    if files != [] {
      var n := |files| - 1;
      UuidsOfExact(files[..n], keep, u);
      if u in UuidsOf(files[..n], keep) {
        var i :| 0 <= i < n && keep(files[..n][i]) && files[..n][i].uuid == u;
        assert files[i] == files[..n][i];
      }
      if exists i :: 0 <= i < |files| && keep(files[i]) && files[i].uuid == u {
        var i :| 0 <= i < |files| && keep(files[i]) && files[i].uuid == u;
        if i < n {
          assert files[..n][i] == files[i];
        }
      }
    }
  }

  /** The uuids of the image files, in order (lines 87-89). */
  function ImageUuids(files: seq<File>): seq<Uuid> {
    UuidsOf(files, IsImage)
  }

  /** The convert list gets exactly the uuids of the image files. */
  lemma ImageUuidsExact(files: seq<File>, u: Uuid)
    ensures u in ImageUuids(files) <==> exists i :: 0 <= i < |files| && IsImage(files[i]) && files[i].uuid == u
  {
    UuidsOfExact(files, IsImage, u);
  }

  // =================================================================== items

  /** The `switch` of lines 65-72. Another type leaves `$entity` as the
      previous item left it. */
  function Resolve(s: Stores, item: ImageRequest, stale: Option<Target>): (r: Option<Target>)
    ensures EntityOk(s, stale) ==> EntityOk(s, r)
    ensures item.kind == KindCategory ==>
      r == (if CategoryByUuid(s.cats, item.uuid).Some? then Some(CategoryAt(CategoryByUuid(s.cats, item.uuid).value)) else None)
    ensures item.kind == KindProduct ==>
      r == (if ProductByUuid(s.prods, item.uuid).Some? then Some(ProductAt(ProductByUuid(s.prods, item.uuid).value)) else None)
    ensures item.kind != KindCategory && item.kind != KindProduct ==> r == stale
  {
    if item.kind == KindCategory then
      match CategoryByUuid(s.cats, item.uuid)
      case None => None
      case Some(i) => Some(CategoryAt(i))
    else if item.kind == KindProduct then
      match ProductByUuid(s.prods, item.uuid)
      case None => None
      case Some(i) => Some(ProductAt(i))
    else stale
  }

  /** What the job has done so far: the stores, the convert list and the
      progress marks `setProgress($index, count($list))`. */
  datatype Pass = Pass(stores: Stores, convert: seq<Uuid>, progress: seq<(nat, nat)>)

  /** One pass of the loop at lines 60-103; the second component is `$entity`
      afterwards. */
  function ItemStep(p: Pass, stale: Option<Target>, item: ImageRequest, index: nat, count: nat,
                    cfg: Gateway.Config, fetch: string -> Option<File>): (Pass, Option<Target>)
  {
    var marked := p.(progress := p.progress + [(index, count)]);
    if !StrTruthy(item.photo) then (marked, stale)
    else
      var e := Resolve(p.stores, item, stale);
      if e.Some? && InRange(p.stores, e.value) then
        var files := Fetched(Names(item.photo), cfg, fetch);
        (marked.(stores := WithFiles(p.stores, e.value, files), convert := p.convert + ImageUuids(files)), e)
      else (marked, e)
  }

  /** An item keeps the store sizes and leaves `$entity` on a stored entity. */
  lemma ItemStepKeeps(p: Pass, stale: Option<Target>, item: ImageRequest, index: nat, count: nat,
                      cfg: Gateway.Config, fetch: string -> Option<File>)
    requires EntityOk(p.stores, stale)
    ensures var (q, e) := ItemStep(p, stale, item, index, count, cfg, fetch);
      |q.stores.cats| == |p.stores.cats| && |q.stores.prods| == |p.stores.prods| && EntityOk(q.stores, e)
  {
  }

  /** The loop over the list, the item at position `k` with index `k`. */
  function Items(p: Pass, list: seq<ImageRequest>, count: nat, cfg: Gateway.Config,
                 fetch: string -> Option<File>): (Pass, Option<Target>)
  {
    if list == [] then (p, None)
    else
      var n := |list| - 1;
      var prev := Items(p, list[..n], count, cfg, fetch);
      ItemStep(prev.0, prev.1, list[n], n, count, cfg, fetch)
  }

  lemma ItemsStep(p: Pass, list: seq<ImageRequest>, k: nat, count: nat, cfg: Gateway.Config, fetch: string -> Option<File>)
    requires k < |list|
    ensures var prev := Items(p, list[..k], count, cfg, fetch);
      Items(p, list[..k + 1], count, cfg, fetch) == ItemStep(prev.0, prev.1, list[k], k, count, cfg, fetch)
  {
    assert list[..k + 1][..k] == list[..k];
  }

  /** An item whose `photo` is empty (or "0") changes nothing but the progress. */
  lemma ItemSkipped(p: Pass, stale: Option<Target>, item: ImageRequest, index: nat, count: nat,
                    cfg: Gateway.Config, fetch: string -> Option<File>)
    requires !StrTruthy(item.photo)
    ensures ItemStep(p, stale, item, index, count, cfg, fetch) == (p.(progress := p.progress + [(index, count)]), stale)
  {
  }

  /** For a found entity the old files are gone: its files become exactly the
      fetched ones in split order (`WithFilesOthers`: nothing else changes), and the image
      uuids among them join the convert list in fetch order. */
  lemma ItemReplaces(p: Pass, stale: Option<Target>, item: ImageRequest, index: nat, count: nat,
                     cfg: Gateway.Config, fetch: string -> Option<File>)
    requires EntityOk(p.stores, stale) && StrTruthy(item.photo)
    requires Resolve(p.stores, item, stale).Some?
    ensures var t := Resolve(p.stores, item, stale).value;
      var (q, e) := ItemStep(p, stale, item, index, count, cfg, fetch);
      var files := Fetched(Names(item.photo), cfg, fetch);
      && e == Some(t) && InRange(q.stores, t)
      && FilesOf(q.stores, t) == files
      && q.stores == WithFiles(p.stores, t, files)
      && q.convert == p.convert + ImageUuids(files)
      && q.progress == p.progress + [(index, count)]
  {
  }

  /** An entity that is not found leaves the stores and the convert list as
      they were. */
  lemma ItemNotFound(p: Pass, stale: Option<Target>, item: ImageRequest, index: nat, count: nat,
                     cfg: Gateway.Config, fetch: string -> Option<File>)
    requires Resolve(p.stores, item, stale).None?
    ensures ItemStep(p, stale, item, index, count, cfg, fetch).0 == p.(progress := p.progress + [(index, count)])
  {
  }

  /** A photo of another type is attached to the entity of the last item that
      found one: its files are replaced as well. */
  lemma ItemOtherKind(p: Pass, stale: Option<Target>, item: ImageRequest, index: nat, count: nat,
                      cfg: Gateway.Config, fetch: string -> Option<File>)
    requires EntityOk(p.stores, stale) && stale.Some? && StrTruthy(item.photo)
    requires item.kind != KindCategory && item.kind != KindProduct
    ensures var q := ItemStep(p, stale, item, index, count, cfg, fetch);
      q.1 == stale && FilesOf(q.0.stores, stale.value) == Fetched(Names(item.photo), cfg, fetch)
  {
  }

  /** The loop keeps `$entity` on a stored entity and the store sizes; the
      convert list only grows, and one progress mark per item is recorded,
      with the item's index and the list's size. */
  lemma {:induction false} ItemsFacts(p: Pass, list: seq<ImageRequest>, count: nat, cfg: Gateway.Config,
                                      fetch: string -> Option<File>)
    ensures var (q, e) := Items(p, list, count, cfg, fetch);
      && |q.stores.cats| == |p.stores.cats| && |q.stores.prods| == |p.stores.prods|
      && EntityOk(q.stores, e)
      && |q.convert| >= |p.convert| && q.convert[..|p.convert|] == p.convert
      && |q.progress| == |p.progress| + |list|
      && q.progress[..|p.progress|] == p.progress
      && forall k :: 0 <= k < |list| ==> q.progress[|p.progress| + k] == (k, count)
  {
    if list != [] {
      var n := |list| - 1;
      ItemsFacts(p, list[..n], count, cfg, fetch);
      var (q, e) := Items(p, list[..n], count, cfg, fetch);
      ItemStepKeeps(q, e, list[n], n, count, cfg, fetch);
      var r := Items(p, list, count, cfg, fetch).0;
      assert r.progress == q.progress + [(n, count)];
      assert r.convert[..|q.convert|] == q.convert;
      assert r.convert[..|p.convert|] == q.convert[..|p.convert|];
    }
  }

  /** `action` (lines 52-113): nothing is processed unless `file_is_enabled`
      is the string 'yes'; a convert task is queued, with the whole list,
      exactly when the convert list is non-empty. */
  function ActionSpec(p: Pass, queued: Option<seq<Uuid>>, enabled: Value, list: seq<ImageRequest>,
                      cfg: Gateway.Config, fetch: string -> Option<File>): (Pass, Option<seq<Uuid>>)
  {
    var r := if enabled == Str(Yes) then Items(p, list, |list|, cfg, fetch).0 else p;
    (r, if r.convert != [] then Some(r.convert) else queued)
  }

  /** With the setting other than 'yes' the stores, the convert list and the
      progress stay as they were. */
  lemma ActionDisabled(p: Pass, queued: Option<seq<Uuid>>, enabled: Value, list: seq<ImageRequest>,
                       cfg: Gateway.Config, fetch: string -> Option<File>)
    requires enabled != Str(Yes)
    ensures ActionSpec(p, queued, enabled, list, cfg, fetch).0 == p
  {
  }

  /** From a fresh task, a convert task is queued iff some image uuid was
      collected, and it carries the collected list. */
  lemma ActionConvert(p: Pass, enabled: Value, list: seq<ImageRequest>, cfg: Gateway.Config, fetch: string -> Option<File>)
    requires p.convert == []
    ensures var (r, queued) := ActionSpec(p, None, enabled, list, cfg, fetch);
      (queued.Some? <==> r.convert != []) && (queued.Some? ==> queued.value == r.convert)
  {
  }

  /** The image download job. */
  class ImageTask {
    var categories: seq<Category>
    var products: seq<Product>
    var convertImageUuids: seq<Uuid>
    var progress: seq<(nat, nat)>
    /** The uuid list handed to `ConvertImageTask`, once one is queued. */
    var convertTask: Option<seq<Uuid>>
    var status: TaskStatus

    function Snapshot(): Pass
      reads this`categories, this`products, this`convertImageUuids, this`progress
    {
      Pass(Stores(categories, products), convertImageUuids, progress)
    }

    constructor (categories: seq<Category>, products: seq<Product>)
      ensures this.categories == categories && this.products == products
      ensures convertImageUuids == [] && progress == [] && convertTask == None && status == Running
    {
      this.categories := categories;
      this.products := products;
      convertImageUuids := [];
      progress := [];
      convertTask := None;
      status := Running;
    }

    /** `$entity->clearFiles()`. */
    method ClearFiles(t: Target)
      requires InRange(Stores(categories, products), t)
      modifies this`categories, this`products
      ensures Stores(categories, products) == WithFiles(old(Stores(categories, products)), t, [])
    {
      match t
      case CategoryAt(i) => categories := categories[i := categories[i].(files := [])];
      case ProductAt(i) => products := products[i := products[i].(files := [])];
    }

    /** `$entity->addFile($model)`. */
    method AddFile(t: Target, f: File)
      requires InRange(Stores(categories, products), t)
      modifies this`categories, this`products
      ensures Stores(categories, products)
           == WithFiles(old(Stores(categories, products)), t, FilesOf(old(Stores(categories, products)), t) + [f])
    {
      match t
      case CategoryAt(i) => categories := categories[i := categories[i].(files := categories[i].files + [f])];
      case ProductAt(i) => products := products[i := products[i].(files := products[i].files + [f])];
    }

    /** Lines 82-89 for a file that arrived: it is attached, and its uuid
        joins the convert list when it is an image. */
    method Attach(t: Target, f: File)
      requires InRange(Stores(categories, products), t)
      modifies this`categories, this`products, this`convertImageUuids
      ensures Stores(categories, products)
           == WithFiles(old(Stores(categories, products)), t, FilesOf(old(Stores(categories, products)), t) + [f])
      ensures convertImageUuids == old(convertImageUuids) + (if IsImage(f) then [f.uuid] else [])
    {
      AddFile(t, f);
      if StartsWith(f.mimeType, ImageType) {
        convertImageUuids := convertImageUuids + [f.uuid];
      }
    }

    /** The inner loop at lines 79-93. */
    method AddFiles(t: Target, names: seq<string>, cfg: Gateway.Config, fetch: string -> Option<File>)
      requires InRange(Stores(categories, products), t)
      modifies this`categories, this`products, this`convertImageUuids
      ensures Stores(categories, products)
           == WithFiles(old(Stores(categories, products)), t, FilesOf(old(Stores(categories, products)), t) + Fetched(names, cfg, fetch))
      ensures convertImageUuids == old(convertImageUuids) + ImageUuids(Fetched(names, cfg, fetch))
    {
      ghost var s0 := Stores(categories, products);
      ghost var base := FilesOf(s0, t);
      WithFilesSame(s0, t);
      assert names[..0] == [];
      assert base + Fetched(names[..0], cfg, fetch) == base;
      var j := 0;
      while j < |names|
        invariant 0 <= j <= |names|
        invariant Stores(categories, products) == WithFiles(s0, t, base + Fetched(names[..j], cfg, fetch))
        invariant convertImageUuids == old(convertImageUuids) + ImageUuids(Fetched(names[..j], cfg, fetch))
      {
        FetchedStep(names, j, cfg, fetch);
        ghost var before := Fetched(names[..j], cfg, fetch);
        var path := Gateway.FilePath(cfg, names[j]);
        var model := fetch(path);
        if model.Some? {
          Attach(t, model.value);
          WithFilesTwice(s0, t, base + before, base + before + [model.value]);
          AppendAssoc(base, before, [model.value]);
          UuidsOfStep(before, IsImage, model.value);
          AppendAssoc(old(convertImageUuids), ImageUuids(before), if IsImage(model.value) then [model.value.uuid] else []);
        } else {
          assert before + [] == before;
        }
        j := j + 1;
      }
      assert names[..j] == names;
    }

    /** The `switch` of lines 65-72. */
    method FindEntity(item: ImageRequest, stale: Option<Target>) returns (entity: Option<Target>)
      ensures entity == Resolve(Stores(categories, products), item, stale)
    {
      entity := stale;
      if item.kind == KindCategory {
        var found := CategoryByUuid(categories, item.uuid);
        entity := if found.Some? then Some(CategoryAt(found.value)) else None;
      } else if item.kind == KindProduct {
        var found := ProductByUuid(products, item.uuid);
        entity := if found.Some? then Some(ProductAt(found.value)) else None;
      }
    }

    /** Lines 75-93: the entity's files are cleared, then the fetched ones
        are attached. */
    method ReplaceFiles(t: Target, photo: string, cfg: Gateway.Config, fetch: string -> Option<File>)
      requires InRange(Stores(categories, products), t)
      modifies this`categories, this`products, this`convertImageUuids
      ensures Stores(categories, products) == WithFiles(old(Stores(categories, products)), t, Fetched(Names(photo), cfg, fetch))
      ensures convertImageUuids == old(convertImageUuids) + ImageUuids(Fetched(Names(photo), cfg, fetch))
    {
      ghost var s0 := Stores(categories, products);
      if FilesOf(Stores(categories, products), t) != [] {
        ClearFiles(t);
      } else {
        WithFilesSame(s0, t);
      }
      ghost var files := Fetched(Names(photo), cfg, fetch);
      AddFiles(t, Names(photo), cfg, fetch);
      WithFilesTwice(s0, t, [], [] + files);
      assert [] + files == files;
    }

    /** One pass of the loop at lines 60-103; `$entity` is passed in and out. */
    method ProcessItem(item: ImageRequest, index: nat, count: nat, stale: Option<Target>,
                       cfg: Gateway.Config, fetch: string -> Option<File>) returns (entity: Option<Target>)
      requires EntityOk(Stores(categories, products), stale)
      modifies this`categories, this`products, this`convertImageUuids, this`progress
      ensures (Snapshot(), entity) == ItemStep(old(Snapshot()), stale, item, index, count, cfg, fetch)
    {
      entity := stale;
      if StrTruthy(item.photo) {
        entity := FindEntity(item, stale);
        if entity.Some? {
          ReplaceFiles(entity.value, item.photo, cfg, fetch);
        }
      }
      progress := progress + [(index, count)];
    }

    /** `action` (lines 52-113). */
    method Action(enabled: Value, list: seq<ImageRequest>, cfg: Gateway.Config, fetch: string -> Option<File>)
      modifies this
      ensures (Snapshot(), convertTask) == ActionSpec(old(Snapshot()), old(convertTask), enabled, list, cfg, fetch)
      ensures status == Done
    {
      if enabled == Str(Yes) {
        ghost var p0 := Snapshot();
        var entity: Option<Target> := None;
        var i := 0;
        while i < |list|
          invariant 0 <= i <= |list|
          invariant (Snapshot(), entity) == Items(p0, list[..i], |list|, cfg, fetch)
          invariant EntityOk(Stores(categories, products), entity)
          invariant convertTask == old(convertTask)
        {
          ItemsStep(p0, list, i, |list|, cfg, fetch);
          ghost var before, stale := Snapshot(), entity;
          entity := ProcessItem(list[i], i, |list|, entity, cfg, fetch);
          ItemStepKeeps(before, stale, list[i], i, |list|, cfg, fetch);
          i := i + 1;
        }
        assert list[..i] == list;
      }
      if convertImageUuids != [] {
        convertTask := Some(convertImageUuids);
      }
      status := Done;
    }
  }
}
