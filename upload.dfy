/** `CatalogUploadTask`: the background task that pushes the storefront's
    products to TradeMaster. It optionally keeps only the products changed in
    the last five minutes, splits them into chunks of 100 and posts each
    chunk to `item/updateTovarSite` as one `<Attributes>` XML document built
    by plain string concatenation. The job ends Done whatever the ERP
    answers.

    The product query (WORK products exported to TradeMaster), the clock,
    the transport and `json_decode` are parameters. */
module CatalogUpload {
  import opened Php
  import opened Catalog
  import Gateway

  /** The chunk size. */
  const Step: nat := 100

  /** Five minutes, in seconds. */
  const Window: int := 300

  // ================================================================ filter

  /** The products changed after `cutoff`, in query order (lines 51-55). */
  function Recent(products: seq<Product>, cutoff: int): seq<Product> {
    if products == [] then []
    else
      var last := products[|products| - 1];
      Recent(products[..|products| - 1], cutoff) + (if last.data.date > cutoff then [last] else [])
  }

  /** Exactly the products changed after the cutoff are kept. */
  lemma {:induction false} RecentExact(products: seq<Product>, cutoff: int)
    ensures forall p :: p in Recent(products, cutoff) <==> p in products && p.data.date > cutoff
    ensures |Recent(products, cutoff)| <= |products|
  {
    if products != [] {
      var front := products[..|products| - 1];
      RecentExact(front, cutoff);
      assert products == front + [products[|products| - 1]];
    }
  }

  /** The filter keeps the query order. */
  lemma {:induction false} RecentAppend(a: seq<Product>, b: seq<Product>, cutoff: int)
    ensures Recent(a + b, cutoff) == Recent(a, cutoff) + Recent(b, cutoff)
    decreases |b|
  {
    if b != [] {
      assert (a + b)[..|a + b| - 1] == a + b[..|b| - 1];
      assert (a + b)[|a + b| - 1] == b[|b| - 1];
      RecentAppend(a, b[..|b| - 1], cutoff);
    } else {
      assert a + b == a;
    }
  }

  /** The loop at lines 51-55. */
  method KeepRecent(products: seq<Product>, cutoff: int) returns (buf: seq<Product>)
    ensures buf == Recent(products, cutoff)
  {
    buf := [];
    var i := 0;
    while i < |products|
      invariant 0 <= i <= |products|
      invariant buf == Recent(products[..i], cutoff)
    {
      assert products[..i + 1][..i] == products[..i];
      if products[i].data.date > cutoff {
        buf := buf + [products[i]];
      }
      i := i + 1;
    }
    assert products[..i] == products;
  }

  /** Lines 46-59: only `only_updated === true` filters. */
  function Selected(onlyUpdated: Value, now: int, products: seq<Product>): seq<Product> {
    if onlyUpdated == Bool(true) then Recent(products, now - Window) else products
  }

  // ================================================================ chunks

  /** `Collection::chunk(100)`. */
  function Chunks<T>(s: seq<T>): seq<seq<T>>
    decreases |s|
  {
    if s == [] then []
    else if |s| <= Step then [s]
    else [s[..Step]] + Chunks(s[Step..])
  }

  function Flatten<T>(ss: seq<seq<T>>): seq<T> {
    if ss == [] then [] else ss[0] + Flatten(ss[1..])
  }

  /** The chunks, in order, are the products: none is lost, repeated or
      moved. */
  lemma {:induction false} ChunksFlatten<T>(s: seq<T>)
    ensures Flatten(Chunks(s)) == s
    decreases |s|
  {
    if |s| > Step {
      ChunksFlatten(s[Step..]);
      assert Chunks(s)[1..] == Chunks(s[Step..]);
      assert s[..Step] + s[Step..] == s;
    }
  }

  /** Every chunk holds 1 to 100 products, and every chunk but the last
      exactly 100; there are `ceil(|s| / 100)` of them, none for no
      products. */
  lemma {:induction false} ChunksSizes<T>(s: seq<T>)
    ensures |Chunks(s)| == (|s| + Step - 1) / Step
    ensures forall k :: 0 <= k < |Chunks(s)| ==> 1 <= |Chunks(s)[k]| <= Step
    ensures forall k :: 0 <= k < |Chunks(s)| - 1 ==> |Chunks(s)[k]| == Step
    decreases |s|
  {
    if |s| > Step {
      ChunksSizes(s[Step..]);
      assert Chunks(s)[1..] == Chunks(s[Step..]);
    }
  }

  lemma ChunksExample()
    ensures |Chunks(seq(250, i => i))| == 3
    ensures |Chunks(seq(0, i => i))| == 0
    ensures |Chunks(seq(100, i => i))| == 1
  {
    ChunksSizes(seq(250, i => i));
    ChunksSizes(seq(0, i => i));
    ChunksSizes(seq(100, i => i));
  }

  // =================================================================== xml

  const Comma: string := ","

  /** The `<foto>` text: the public paths, each after the host, joined by ",". */
  function Fotos(files: seq<File>, host: string): string {
    Implode(Comma, FotoUrls(files, host))
  }

  function FotoUrls(files: seq<File>, host: string): (r: seq<string>)
    ensures |r| == |files| && forall i :: 0 <= i < |files| ==> r[i] == host + files[i].publicPath
  {
    if files == [] then [] else FotoUrls(files[..|files| - 1], host) + [host + files[|files| - 1].publicPath]
  }

  /** `rtrim(common_homepage, '/')`: the host never ends with '/', so a
      public path starting with '/' is joined with exactly one slash. */
  function Host(homepage: string): (h: string)
    ensures h == [] || h[|h| - 1] != '/'
    ensures StartsWith(homepage, h) && forall i :: |h| <= i < |homepage| ==> homepage[i] == '/'
  {
    RTrimFacts(homepage, '/');
    RTrim(homepage, '/')
  }

  /** The pieces of text around the values. They are named constants so
      that a proof about a block does not have to take the characters apart. */
  const FieldStart: string := "\n            <"
  const FieldEnd: string := "</"
  const TagEnd: string := ">"
  const BlockStart: string := "\n    <ProductAttribute idTovar=\""
  const ValueStart: string := "\">\n        <ProductAttributeValue>"
  const CloseTag: string := "\n        </ProductAttributeValue>\n    </ProductAttribute>"
  const TagName: string := "name"
  const TagOpisanie: string := "opisanie"
  const TagOpisanieDop: string := "opisanieDop"
  const TagArtikul: string := "artikul"
  const TagEdIzmer: string := "edIzmer"
  const TagStrihKod: string := "strihKod"
  const TagPoryadok: string := "poryadok"
  const TagFoto: string := "foto"
  const TagLink: string := "link"
  const TagSebestoim: string := "sebestoim"
  const TagPrice: string := "price"
  const TagOptPrice: string := "opt_price"
  const TagKolvo: string := "kolvo"
  const TagInd1: string := "ind1"
  const TagInd2: string := "ind2"
  const TagInd3: string := "ind3"
  const TagInd4: string := "ind4"
  const TagInd5: string := "ind5"
  const TagTags: string := "tags"
  const TagVes: string := "ves"
  const TagProizv: string := "proizv"
  const TagStrana: string := "strana"

  /** One `<name>value</name>` line. */
  function Field(name: string, value: string): string {
    FieldStart + name + TagEnd + value + FieldEnd + name + TagEnd
  }

  function OpenTag(p: Product): string {
    BlockStart + p.data.externalId + ValueStart
  }

  /** The text lines 92-118 append for one product; the values are inserted
      as they are, without escaping. */
  function Block(p: Product, fotos: string): string {
    OpenTag(p) + Fields(FieldValues(p, fotos)) + CloseTag
  }

  /** The elements of `<ProductAttributeValue>` and their values, in
      document order. */
  function FieldValues(p: Product, fotos: string): seq<(string, string)> {
    var d := p.data;
    [ (TagName, d.title),
      (TagOpisanie, d.description),
      (TagOpisanieDop, d.extra),
      (TagArtikul, d.vendorcode),
      (TagEdIzmer, d.unit),
      (TagStrihKod, d.barcode),
      (TagPoryadok, IntToString(d.order)),
      (TagFoto, fotos),
      (TagLink, d.address),
      (TagSebestoim, IntToString(d.priceFirst)),
      (TagPrice, IntToString(d.price)),
      (TagOptPrice, IntToString(d.priceWholesale)),
      (TagKolvo, IntToString(d.stock)),
      (TagInd1, d.field1),
      (TagInd2, d.field2),
      (TagInd3, d.field3),
      (TagInd4, d.field4),
      (TagInd5, d.field5),
      (TagTags, d.tags),
      (TagVes, IntToString(d.volume)),
      (TagProizv, d.manufacturer),
      (TagStrana, d.country)
    ]
  }

  function Fields(fs: seq<(string, string)>): string {
    if fs == [] then "" else Field(fs[0].0, fs[0].1) + Fields(fs[1..])
  }

  /** The texts `f` renders for the elements, concatenated in order. */
  function ConcatMap<T>(xs: seq<T>, f: T -> string): string {
    if xs == [] then "" else ConcatMap(xs[..|xs| - 1], f) + f(xs[|xs| - 1])
  }

  /** Concatenation distributes over the element list. */
  lemma {:induction false} ConcatMapAppend<T>(a: seq<T>, b: seq<T>, f: T -> string)
    ensures ConcatMap(a + b, f) == ConcatMap(a, f) + ConcatMap(b, f)
    decreases |b|
  {
    if b != [] {
      assert (a + b)[..|a + b| - 1] == a + b[..|b| - 1];
      assert (a + b)[|a + b| - 1] == b[|b| - 1];
      ConcatMapAppend(a, b[..|b| - 1], f);
    } else {
      assert a + b == a;
    }
  }

  lemma ConcatMapStep<T>(xs: seq<T>, f: T -> string, i: nat)
    requires i < |xs|
    ensures ConcatMap(xs[..i + 1], f) == ConcatMap(xs[..i], f) + f(xs[i])
  {
    assert xs[..i + 1][..i] == xs[..i];
  }

  /** The text of element `k` sits between those of the elements before and
      after it. */
  lemma {:induction false} ConcatMapAt<T>(xs: seq<T>, f: T -> string, k: nat)
    requires k < |xs|
    ensures ConcatMap(xs, f) == ConcatMap(xs[..k], f) + f(xs[k]) + ConcatMap(xs[k + 1..], f)
    decreases |xs|
  {
    var n := |xs| - 1;
    if k == n {
      assert xs[k + 1..] == [];
    } else {
      ConcatMapAt(xs[..n], f, k);
      assert xs[..n][..k] == xs[..k];
      assert xs[..n][k + 1..] == xs[k + 1..n];
      assert xs[k + 1..][..|xs[k + 1..]| - 1] == xs[k + 1..n];
    }
  }

  /** The block of a product, its photos joined after `host`. */
  function BlockOf(host: string): Product -> string {
    (p: Product) => Block(p, Fotos(p.files, host))
  }

  /** The product blocks, in chunk order. */
  function Blocks(products: seq<Product>, host: string): string {
    ConcatMap(products, BlockOf(host))
  }

  /** One more product appends its block. */
  lemma BlocksStep(products: seq<Product>, host: string, i: nat)
    requires i < |products|
    ensures Blocks(products[..i + 1], host) == Blocks(products[..i], host) + Block(products[i], Fotos(products[i].files, host))
  {
    ConcatMapStep(products, BlockOf(host), i);
  }

  /** Between the root tags come the blocks of the products, one per product
      and in order: the block of product `k` follows those of the products
      before it. */
  lemma BlockAt(products: seq<Product>, host: string, k: nat)
    requires k < |products|
    ensures Blocks(products, host) == Blocks(products[..k], host)
        + Block(products[k], Fotos(products[k].files, host)) + Blocks(products[k + 1..], host)
  {
    ConcatMapAt(products, BlockOf(host), k);
  }

  /** The document `getPruductXML` builds: the blocks between the root tags. */
  function Xml(products: seq<Product>, host: string): string {
    RootOpen + Blocks(products, host) + RootClose
  }

  const RootOpen: string := "<Attributes>"
  const RootClose: string := "</Attributes>"

  /** The final `trim` of `getPruductXML` removes nothing: the document
      starts with '<' and ends with '>'. */
  lemma XmlTrimmed(products: seq<Product>, host: string)
    ensures Trim(Xml(products, host)) == Xml(products, host)
  {
    var s := Xml(products, host);
    assert s[0] == RootOpen[0] == '<';
    assert s[|s| - 1] == RootClose[|RootClose| - 1] == '>';
    TrimKeeps(s);
  }

  /** The document opens with `<Attributes>` and closes with
      `</Attributes>`; with no products it is just the two tags. */
  lemma XmlEnds(products: seq<Product>, host: string)
    ensures StartsWith(Xml(products, host), RootOpen)
    ensures |RootClose| <= |Xml(products, host)| && Xml(products, host)[|Xml(products, host)| - |RootClose|..] == RootClose
    ensures products == [] ==> Xml(products, host) == RootOpen + RootClose
  {
    var s := Xml(products, host);
    assert s[..|RootOpen|] == RootOpen;
    assert s[|s| - |RootClose|..] == RootClose;
  }

  /** A block opens with the product's tag, carrying its `external_id`
      verbatim, and closes the element. */
  lemma BlockTags(p: Product, fotos: string)
    ensures StartsWith(Block(p, fotos), BlockStart + p.data.externalId + ValueStart)
    ensures |CloseTag| <= |Block(p, fotos)| && Block(p, fotos)[|Block(p, fotos)| - |CloseTag|..] == CloseTag
  {
    var b := Block(p, fotos);
    var rest := b[|OpenTag(p)|..|b| - |CloseTag|];
    assert b == OpenTag(p) + rest + CloseTag;
  }

  /** The inner loop at lines 87-89: the urls of the files, in order. */
  method FotoList(files: seq<File>, host: string) returns (images: seq<string>)
    ensures images == FotoUrls(files, host)
  {
    images := [];
    var i := 0;
    while i < |files|
      invariant 0 <= i <= |files|
      invariant images == FotoUrls(files[..i], host)
    {
      assert files[..i + 1][..i] == files[..i];
      images := images + [host + files[i].publicPath];
      i := i + 1;
    }
    assert files[..i] == files;
  }

  /** `getPruductXML` (lines 77-124). */
  method ProductXml(products: seq<Product>, homepage: string) returns (output: string)
    ensures output == Xml(products, Host(homepage))
  {
    output := RootOpen;
    var host := RTrim(homepage, '/');
    var i := 0;
    while i < |products|
      invariant 0 <= i <= |products|
      invariant output == RootOpen + Blocks(products[..i], host)
    {
      var images := FotoList(products[i].files, host);
      var fotos := Implode(Comma, images);
      BlocksStep(products, host, i);
      AppendAssoc(RootOpen, Blocks(products[..i], host), Block(products[i], fotos));
      output := output + Block(products[i], fotos);
      i := i + 1;
    }
    assert products[..i] == products;
    output := output + RootClose;
    XmlTrimmed(products, host);
    output := Trim(output);
  }

  // ============================================================== requests

  const UploadEndpoint: string := "item/updateTovarSite"
  const XmlParam: string := "tovarxml"
  const Post: string := "POST"

  /** The `api` call of line 63: the chunk's XML posted as `tovarxml`. */
  function UploadArgs(xml: string): Gateway.ApiArgs {
    Gateway.ApiArgs(Some(UploadEndpoint), Some([(StrKey(XmlParam), Str(xml))]), Some(Post))
  }

  /** `f` applied to each element, in order. */
  function MapSeq<T, U>(xs: seq<T>, f: T -> U): (r: seq<U>)
    ensures |r| == |xs| && forall k :: 0 <= k < |xs| ==> r[k] == f(xs[k])
  {
    if xs == [] then [] else MapSeq(xs[..|xs| - 1], f) + [f(xs[|xs| - 1])]
  }

  lemma MapSeqStep<T, U>(xs: seq<T>, f: T -> U, i: nat)
    requires i < |xs|
    ensures MapSeq(xs[..i + 1], f) == MapSeq(xs[..i], f) + [f(xs[i])]
  {
    assert xs[..i + 1][..i] == xs[..i];
  }

  /** The request `api` builds for one chunk. */
  function RequestOf(cfg: Gateway.Config, host: string): seq<Product> -> Option<Gateway.Request> {
    (chunk: seq<Product>) => Gateway.RequestFor(cfg, UploadArgs(Xml(chunk, host)))
  }

  /** The requests sent for the chunks, in order. */
  function Requests(cfg: Gateway.Config, chunks: seq<seq<Product>>, host: string): seq<Option<Gateway.Request>> {
    MapSeq(chunks, RequestOf(cfg, host))
  }

  /** The progress marks `setProgress($index, $count / 100)`, as the chunk
      index and the product count. */
  function Marks(k: nat, count: nat): (r: seq<(nat, nat)>)
    ensures |r| == k && forall i :: 0 <= i < k ==> r[i] == (i, count)
  {
    if k == 0 then [] else Marks(k - 1, count) + [(k - 1, count)]
  }

  /** The upload makes `ceil(n / 100)` calls, none for no products, the
      call for chunk `k` carrying that chunk's document. */
  lemma UploadRequests(cfg: Gateway.Config, products: seq<Product>, host: string)
    ensures |Requests(cfg, Chunks(products), host)| == |Chunks(products)| == (|products| + Step - 1) / Step
    ensures products == [] <==> Requests(cfg, Chunks(products), host) == []
    ensures forall k :: 0 <= k < |Chunks(products)| ==>
      Requests(cfg, Chunks(products), host)[k] == Gateway.RequestFor(cfg, UploadArgs(Xml(Chunks(products)[k], host)))
  {
    ChunksSizes(products);
  }

  /** With an API key, each call is a POST to `item/updateTovarSite` whose
      body is the document as `tovarxml`; without a key nothing is sent. */
  lemma UploadRequestShape(cfg: Gateway.Config, xml: string)
    ensures Gateway.RequestFor(cfg, UploadArgs(xml)).None? <==> cfg.key.None?
    ensures cfg.key.Some? ==>
      var r := Gateway.RequestFor(cfg, UploadArgs(xml)).value;
      && r.verb == Post
      && r.url == cfg.host + "/v" + cfg.version + "/" + UploadEndpoint
      && r.body == Some([(StrKey(XmlParam), Str(xml))])
  {
    assert Gateway.MethodOf(UploadArgs(xml)) == Post;
  }

  /** The upload job. */
  class UploadTask {
    var progress: seq<(nat, nat)>
    var sent: seq<Option<Gateway.Request>>
    var status: TaskStatus

    constructor ()
      ensures progress == [] && sent == [] && status == Running
    {
      progress := [];
      sent := [];
      status := Running;
    }

    /** One pass of the loop at lines 61-72: the chunk's document is
        built and posted; the answer is not used. */
    method SendChunk(chunk: seq<Product>, homepage: string, cfg: Gateway.Config,
                     transport: Gateway.Request -> Option<string>, decode: string -> Value)
      returns (request: Option<Gateway.Request>)
      ensures request == RequestOf(cfg, Host(homepage))(chunk)
    {
      var xml := ProductXml(chunk, homepage);
      var response;
      response, request := Gateway.Api(cfg, UploadArgs(xml), transport, decode);
    }

    /** The loop at lines 61-72. */
    method UploadChunks(chunks: seq<seq<Product>>, count: nat, homepage: string, cfg: Gateway.Config,
                        transport: Gateway.Request -> Option<string>, decode: string -> Value)
      modifies this`progress, this`sent
      ensures progress == old(progress) + Marks(|chunks|, count)
      ensures sent == old(sent) + Requests(cfg, chunks, Host(homepage))
    {
      var i := 0;
      while i < |chunks|
        invariant 0 <= i <= |chunks|
        invariant progress == old(progress) + Marks(i, count)
        invariant sent == old(sent) + Requests(cfg, chunks[..i], Host(homepage))
      {
        AppendAssoc(old(progress), Marks(i, count), [(i, count)]);
        progress := progress + [(i, count)];
        var request := SendChunk(chunks[i], homepage, cfg, transport, decode);
        MapSeqStep(chunks, RequestOf(cfg, Host(homepage)), i);
        AppendAssoc(old(sent), Requests(cfg, chunks[..i], Host(homepage)), [request]);
        sent := sent + [request];
        i := i + 1;
      }
      assert chunks[..i] == chunks;
    }

    /** `CatalogUploadTask::action`: the answers are ignored and the job
        always ends Done. */
    method Action(onlyUpdated: Value, now: int, products: seq<Product>, homepage: string, cfg: Gateway.Config,
                  transport: Gateway.Request -> Option<string>, decode: string -> Value)
      modifies this
      ensures var kept := Selected(onlyUpdated, now, products);
        && sent == old(sent) + Requests(cfg, Chunks(kept), Host(homepage))
        && progress == old(progress) + Marks(|Chunks(kept)|, |kept|)
        && status == Done
    {
      var kept := products;
      if onlyUpdated == Bool(true) {
        kept := KeepRecent(products, now - Window);
      }
      UploadChunks(Chunks(kept), |kept|, homepage, cfg, transport, decode);
      status := Done;
    }
  }
}
