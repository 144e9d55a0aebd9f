/** The ERP gateway of the plugin class: `TradeMasterPlugin::api`, which
    shapes one HTTP request to the TradeMaster API and decodes the answer,
    and `getFilePath`, which builds the URL of a cached image. The transport
    (`file_get_contents`) and `json_decode` are parameters; the query and
    body are kept as key/value lists, before `http_build_query`. */
module Gateway {
  import opened Php

  type Params = seq<(Key, Value)>

  /** The settings `api` and `getFilePath` read; `key` is absent when the
      API key setting is unset. */
  datatype Config = Config(
    key: Option<string>,
    host: string,
    version: string,
    cacheHost: string,
    cacheFolder: string)

  /** The array passed to `api`; an absent entry takes its default. */
  datatype ApiArgs = ApiArgs(endpoint: Option<string>, params: Option<Params>, verb: Option<string>)

  /** One HTTP request: method, URL, query parameters, form body and timeout
      in seconds (absent: the stream default). */
  datatype Request = Request(
    verb: string,
    url: string,
    query: Params,
    body: Option<Params>,
    timeout: Option<nat>)

  const ApiKey: Key := StrKey("apikey")

  function EndpointOf(a: ApiArgs): string {
    a.endpoint.GetOr("")
  }

  function ParamsOf(a: ApiArgs): Params {
    a.params.GetOr([])
  }

  /** The method after `array_merge` with the default and `mb_strtoupper`. */
  function MethodOf(a: ApiArgs): string {
    ToUpper(a.verb.GetOr("GET"))
  }

  /** The request `api` sends; none when no API key is configured. */
  function RequestFor(cfg: Config, a: ApiArgs): (r: Option<Request>)
    ensures r.None? <==> cfg.key.None?
    ensures r.Some? ==> r.value.url == cfg.host + "/v" + cfg.version + "/" + EndpointOf(a)
    ensures r.Some? && MethodOf(a) == "GET" ==>
      && r.value.verb == "GET"
      && r.value.body.None?
      && r.value.timeout.None?
      && Find(r.value.query, ApiKey) == Some(Str(cfg.key.value))
      && (forall k :: k != ApiKey ==> Find(r.value.query, k) == Find(ParamsOf(a), k))
    ensures r.Some? && MethodOf(a) != "GET" ==>
      && r.value.verb == "POST"
      && r.value.query == [(ApiKey, Str(cfg.key.value))]
      && r.value.body == Some(ParamsOf(a))
      && r.value.timeout == Some(60)
  {
    if cfg.key.None? then None
    else
      var url := Implode("/", [cfg.host, "v" + cfg.version, EndpointOf(a)]);
      Implode3("/", cfg.host, "v" + cfg.version, EndpointOf(a));
      if MethodOf(a) == "GET" then
        Some(Request("GET", url, Put(ParamsOf(a), ApiKey, Str(cfg.key.value)), None, None))
      else
        Some(Request("POST", url, [(ApiKey, Str(cfg.key.value))], Some(ParamsOf(a)), Some(60)))
  }

  /** With nothing given, `api` sends a GET to `{host}/v{version}/` whose
      only query parameter is the key; a lower-case 'post' is a POST. */
  lemma RequestDefaults(cfg: Config, params: Params)
    requires cfg.key.Some?
    ensures RequestFor(cfg, ApiArgs(None, None, None))
         == Some(Request("GET", cfg.host + "/v" + cfg.version + "/", [(ApiKey, Str(cfg.key.value))], None, None))
    ensures var r := RequestFor(cfg, ApiArgs(None, Some(params), Some("post")));
      r.Some? && r.value.verb == "POST" && r.value.body == Some(params)
  {
    var none := ApiArgs(None, None, None);
    assert MethodOf(none) == "GET";
    assert EndpointOf(none) == "" && ParamsOf(none) == [];
    Implode3("/", cfg.host, "v" + cfg.version, "");
    assert cfg.host + "/" + ("v" + cfg.version) + "/" + "" == cfg.host + "/v" + cfg.version + "/";
    assert Put([], ApiKey, Str(cfg.key.value)) == [(ApiKey, Str(cfg.key.value))];
    assert RequestFor(cfg, none).value.url == cfg.host + "/v" + cfg.version + "/";
    assert MethodOf(ApiArgs(None, Some(params), Some("post"))) == "POST";
  }

  /** The decoded answer to a sent request: a failed fetch or a falsy body
      ("" or "0") reads as `[]`. */
  function Answer(raw: Option<string>, decode: string -> Value): Value {
    if raw.Some? && StrTruthy(raw.value) then decode(raw.value) else Arr([])
  }

  /** `TradeMasterPlugin::api`: fill in the defaults, upper-case the method,
      place the key, send, and decode a truthy body; a falsy body ("" , "0"
      or a failed fetch) and a missing key give `[]`. */
  method Api(cfg: Config, a: ApiArgs, transport: Request -> Option<string>, decode: string -> Value)
    returns (result: Value, sent: Option<Request>)
    ensures sent == RequestFor(cfg, a)
    ensures sent.None? ==> result == Arr([])
    ensures sent.Some? && (transport(sent.value).None? || !StrTruthy(transport(sent.value).value)) ==>
      result == Arr([])
    ensures sent.Some? && transport(sent.value).Some? && StrTruthy(transport(sent.value).value) ==>
      result == decode(transport(sent.value).value)
  {
    var endpoint, params, verb := "", [], "GET";
    if a.endpoint.Some? {
      endpoint := a.endpoint.value;
    }
    if a.params.Some? {
      params := a.params.value;
    }
    if a.verb.Some? {
      verb := a.verb.value;
    }
    verb := ToUpper(verb);

    if cfg.key.None? {
      return Arr([]), None;
    }
    var key := cfg.key.value;
    var url := Implode("/", [cfg.host, "v" + cfg.version, endpoint]);
    var request: Request;
    if verb == "GET" {
      params := Put(params, ApiKey, Str(key));
      request := Request("GET", url, params, None, None);
    } else {
      request := Request("POST", url, [(ApiKey, Str(key))], Some(params), Some(60));
    }
    var raw := transport(request);
    result := if raw.Some? && StrTruthy(raw.value) then decode(raw.value) else Arr([]);
    sent := Some(request);
  }

  // ------------------------------------------------------------ image path

  /** The unreserved characters of section 2.3 of RFC 3986. */
  predicate Unreserved(c: char) {
    ('A' <= c <= 'Z') || ('a' <= c <= 'z') || ('0' <= c <= '9') || c == '-' || c == '_' || c == '.' || c == '~'
  }

  type Byte = b: int | 0 <= b < 256

  /** The UTF-8 encoding of one Unicode scalar value. */
  function Utf8(c: char): (bs: seq<Byte>)
    ensures |bs| >= 1
  {
    var n := c as int;
    if n < 0x80 then [n]
    else if n < 0x800 then [0xC0 + n / 0x40, 0x80 + n % 0x40]
    else if n < 0x10000 then [0xE0 + n / 0x1000, 0x80 + (n / 0x40) % 0x40, 0x80 + n % 0x40]
    else [0xF0 + n / 0x40000, 0x80 + (n / 0x1000) % 0x40, 0x80 + (n / 0x40) % 0x40, 0x80 + n % 0x40]
  }

  function Utf8String(s: string): seq<Byte> {
    if s == [] then [] else Utf8(s[0]) + Utf8String(s[1..])
  }

  function HexDigit(d: nat): (c: char)
    requires d < 16
    ensures Unreserved(c)
  {
    if d < 10 then (48 + d) as char else (55 + d) as char
  }

  function PercentBytes(bs: seq<Byte>): (r: string)
    ensures forall i :: 0 <= i < |r| ==> Unreserved(r[i]) || r[i] == '%'
  {
    if bs == [] then []
    else ['%', HexDigit(bs[0] / 16), HexDigit(bs[0] % 16)] + PercentBytes(bs[1..])
  }

  function EncodeChar(c: char): string {
    if Unreserved(c) then [c] else PercentBytes(Utf8(c))
  }

  /** `rawurlencode($s)`: unreserved characters stay; every byte of the
      UTF-8 text of any other character becomes `%XX` (upper-case hex). */
  function RawUrlEncode(s: string): (r: string)
    ensures forall i :: 0 <= i < |r| ==> Unreserved(r[i]) || r[i] == '%'
    ensures (forall i :: 0 <= i < |s| ==> Unreserved(s[i])) ==> r == s
  {
    if s == [] then []
    else
      var r := EncodeChar(s[0]) + RawUrlEncode(s[1..]);
      assert (forall i :: 0 <= i < |s| ==> Unreserved(s[i])) ==> r == [s[0]] + s[1..];
      r
  }

  function HexValue(c: char): nat {
    if '0' <= c <= '9' then c as int - 48
    else if 'A' <= c <= 'F' then c as int - 55
    else if 'a' <= c <= 'f' then c as int - 87
    else 0
  }

  /** Percent-decoding (section 2.1 of RFC 3986) back to bytes. */
  function PercentDecode(s: string): seq<int> {
    if s == [] then []
    else if s[0] == '%' && |s| >= 3 then [16 * HexValue(s[1]) + HexValue(s[2])] + PercentDecode(s[3..])
    else [s[0] as int] + PercentDecode(s[1..])
  }

  lemma HexDigitValue(d: nat)
    requires d < 16
    ensures HexValue(HexDigit(d)) == d
  {
  }

  lemma {:induction false} DecodePercentBytes(bs: seq<Byte>, rest: string)
    ensures PercentDecode(PercentBytes(bs) + rest) == bs + PercentDecode(rest)
  {
    if bs != [] {
      var b := bs[0];
      var tail := PercentBytes(bs[1..]) + rest;
      var s := PercentBytes(bs) + rest;
      assert s == ['%', HexDigit(b / 16), HexDigit(b % 16)] + tail;
      assert s[3..] == tail;
      HexDigitValue(b / 16);
      HexDigitValue(b % 16);
      assert PercentDecode(s) == [b] + PercentDecode(tail);
      DecodePercentBytes(bs[1..], rest);
      assert bs == [b] + bs[1..];
    } else {
      assert PercentBytes(bs) + rest == rest;
    }
  }

  /** Percent-decoding the encoded name gives exactly its UTF-8 bytes. */
  lemma {:induction false} RawUrlEncodeRoundTrip(s: string)
    ensures PercentDecode(RawUrlEncode(s)) == Utf8String(s)
  {
    if s != [] {
      RawUrlEncodeRoundTrip(s[1..]);
      var rest := RawUrlEncode(s[1..]);
      if Unreserved(s[0]) {
        assert ([s[0]] + rest)[1..] == rest;
      } else {
        DecodePercentBytes(Utf8(s[0]), rest);
      }
    }
  }

  /** The code point a UTF-8 sequence of one to four bytes stands for. */
  function Utf8Value(bs: seq<Byte>): int
    requires 1 <= |bs| <= 4
  {
    var b := seq(|bs|, i requires 0 <= i < |bs| => bs[i] as int);
    if |b| == 1 then b[0]
    else if |b| == 2 then (b[0] - 0xC0) * 0x40 + (b[1] - 0x80)
    else if |b| == 3 then (b[0] - 0xE0) * 0x1000 + (b[1] - 0x80) * 0x40 + (b[2] - 0x80)
    else (b[0] - 0xF0) * 0x40000 + (b[1] - 0x80) * 0x1000 + (b[2] - 0x80) * 0x40 + (b[3] - 0x80)
  }

  /** The first byte of a character's encoding tells how many bytes it has,
      and the bytes give the character back. */
  lemma Utf8Decodes(c: char)
    ensures var bs := Utf8(c);
      && |bs| <= 4
      && (|bs| == 1 <==> bs[0] < 0x80)
      && (|bs| == 2 <==> 0xC0 <= bs[0] < 0xE0)
      && (|bs| == 3 <==> 0xE0 <= bs[0] < 0xF0)
      && (|bs| == 4 <==> 0xF0 <= bs[0])
      && Utf8Value(bs) == c as int
  {
    var n := c as int;
    if n >= 0x10000 {
      assert n == (n / 0x40000) * 0x40000 + ((n / 0x1000) % 0x40) * 0x1000 + ((n / 0x40) % 0x40) * 0x40 + n % 0x40;
    } else if n >= 0x800 {
      assert n == (n / 0x1000) * 0x1000 + ((n / 0x40) % 0x40) * 0x40 + n % 0x40;
    }
  }

  /** UTF-8 is a prefix code: an encoding determines its character. */
  lemma Utf8Prefix(a: char, b: char, x: seq<Byte>, y: seq<Byte>)
    requires Utf8(a) + x == Utf8(b) + y
    ensures a == b && x == y
  {
    var ea, eb := Utf8(a), Utf8(b);
    Utf8Decodes(a);
    Utf8Decodes(b);
    assert ea[0] == (ea + x)[0] == (eb + y)[0] == eb[0];
    assert |ea| == |eb|;
    assert ea == (ea + x)[..|ea|] == (eb + y)[..|eb|] == eb;
    assert x == (ea + x)[|ea|..] == (eb + y)[|eb|..] == y;
  }

  lemma Utf8StringEmpty(s: string)
    ensures Utf8String(s) == [] <==> s == []
  {
  }

  /** Distinct texts have distinct UTF-8 encodings. */
  lemma {:induction false} Utf8StringInjective(a: string, b: string)
    ensures Utf8String(a) == Utf8String(b) ==> a == b
  {
    if Utf8String(a) == Utf8String(b) {
      if a == [] || b == [] {
        Utf8StringEmpty(a);
        Utf8StringEmpty(b);
      } else {
        Utf8Prefix(a[0], b[0], Utf8String(a[1..]), Utf8String(b[1..]));
        Utf8StringInjective(a[1..], b[1..]);
        assert a == [a[0]] + a[1..] && b == [b[0]] + b[1..];
      }
    }
  }

  const ImagesPrefix: string := "/tradeMasterImages/"

  /** `getFilePath($name)`: the `trim` around `rawurlencode` never removes
      anything, and the encoded name is one path segment. */
  function FilePath(cfg: Config, name: string): (p: string)
    ensures p == cfg.cacheHost + ImagesPrefix + cfg.cacheFolder + "/" + RawUrlEncode(name)
    ensures forall i :: |cfg.cacheHost + ImagesPrefix + cfg.cacheFolder + "/"| <= i < |p| ==>
      Unreserved(p[i]) || p[i] == '%'
  {
    var prefix := cfg.cacheHost + ImagesPrefix + cfg.cacheFolder + "/";
    var e := RawUrlEncode(name);
    TrimEncoded(name);
    assert forall i :: |prefix| <= i < |prefix + e| ==> (prefix + e)[i] == e[i - |prefix|];
    prefix + Trim(e)
  }

  /** The encoding has no character `trim` removes, so `trim` keeps it. */
  lemma TrimEncoded(name: string)
    ensures Trim(RawUrlEncode(name)) == RawUrlEncode(name)
  {
    var e := RawUrlEncode(name);
    TrimFacts(e);
    if e != [] {
      SafeNotTrim(e[0]);
      SafeNotTrim(e[|e| - 1]);
    }
  }

  lemma SafeNotTrim(c: char)
    requires Unreserved(c) || c == '%'
    ensures !IsTrimChar(c)
  {
  }

  /** Distinct image names get distinct cache paths. */
  lemma FilePathInjective(cfg: Config, a: string, b: string)
    ensures FilePath(cfg, a) == FilePath(cfg, b) ==> a == b
  {
    if FilePath(cfg, a) == FilePath(cfg, b) {
      var prefix := cfg.cacheHost + ImagesPrefix + cfg.cacheFolder + "/";
      assert RawUrlEncode(a) == FilePath(cfg, a)[|prefix|..];
      assert RawUrlEncode(b) == FilePath(cfg, b)[|prefix|..];
      RawUrlEncodeRoundTrip(a);
      RawUrlEncodeRoundTrip(b);
      Utf8StringInjective(a, b);
    }
  }
}
