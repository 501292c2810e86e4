/**
 * The `Assets` request builder of the content-delivery SDK: it collects query
 * parameters and an output-format flag, and on `fetch` turns them, together with
 * the connection settings and headers supplied by the enclosing stack, into the
 * request descriptor handed to the SDK's transport.
 */
module Assets {
  import opened Wrappers
  import opened JsValues

  /** A query-string value: `addParam` stores strings, `includeFallback` the boolean `true`. */
  datatype QVal = Str(s: string) | Bool(b: bool)

  type Query = map<string, QVal>

  type Headers = map<string, string>

  /** The connection settings the enclosing stack supplies; `assetsPath` is `config.urls.assets`. */
  datatype Config = Config(protocol: string, host: string, port: Port, version: string, assetsPath: string)

  /** A TCP port number. */
  type Port = p: nat | p < 0x1_0000

  /** The body of the request: the `_method` override marker and the query map. */
  datatype Body = Body(overrideMethod: string, query: Query)

  /** The request descriptor `fetch` stores in `requestParams`. */
  datatype Request = Request(httpMethod: string, headers: Headers, url: string, body: Body)

  const FallbackKey: string := "include_fallback"

  /** The guard of `addParam`: key and value are both non-empty strings. */
  predicate ParamAccepted(key: JsArg, value: JsArg)
  {
    IsNonEmptyString(key) && IsNonEmptyString(value)
  }

  /**
   * The one key a plain JavaScript object does not store: assigning to
   * `__proto__` runs the setter every `{}` inherits from Object.prototype, and
   * that setter ignores a string value.
   */
  const ProtoKey: string := "__proto__"

  /** Whether `addParam(key, value)` adds an entry: the guard accepts, and the key is not `__proto__`. */
  predicate ParamStored(key: JsArg, value: JsArg)
  {
    ParamAccepted(key, value) && key.s != ProtoKey
  }

  /** The query map after `addParam(key, value)`. */
  function WithParam(q: Query, key: JsArg, value: JsArg): (r: Query)
    ensures ParamStored(key, value) ==>
              && r.Keys == q.Keys + {key.s}
              && r[key.s] == Str(value.s)
              && forall k :: k in q && k != key.s ==> r[k] == q[k]
    ensures !ParamStored(key, value) ==> r == q
  {
    if ParamStored(key, value) then q[key.s := Str(value.s)] else q
  }

  /** The query map after `includeFallback()`. */
  function WithFallback(q: Query): (r: Query)
    ensures r.Keys == q.Keys + {FallbackKey}
    ensures r[FallbackKey] == Bool(true)
    ensures forall k :: k in q && k != FallbackKey ==> r[k] == q[k]
  {
    q[FallbackKey := Bool(true)]
  }

  /** Everything in an asset URL before the asset's UID. */
  function AssetsBaseUrl(c: Config): string
  {
    c.protocol + "://" + c.host + ":" + NatToDecimal(c.port) + "/" + c.version + c.assetsPath
  }

  /** The URL of one asset: the stack's assets endpoint followed by the UID. */
  function AssetUrl(c: Config, uid: string): (url: string)
    ensures |url| == |AssetsBaseUrl(c)| + |uid|
    ensures url[..|AssetsBaseUrl(c)|] == AssetsBaseUrl(c)
    ensures url[|AssetsBaseUrl(c)|..] == uid
  {
    AssetsBaseUrl(c) + uid
  }

  /**
   * The request `fetch` builds, or None when no asset UID is set (an empty UID
   * is falsy in JavaScript, as are undefined and null).
   */
  function FetchRequest(c: Config, h: Headers, uid: string, q: Query): (r: Option<Request>)
    ensures r.Some? <==> uid != ""
    ensures r.Some? ==>
              && r.value.httpMethod == "POST"
              && r.value.headers == h
              && r.value.url == AssetUrl(c, uid)
              && r.value.body.overrideMethod == "GET"
              && r.value.body.query == q
  {
    if uid == "" then None
    else Some(Request("POST", h, AssetUrl(c, uid), Body("GET", q)))
  }

  /** The builder. `assetUid`, `config` and `headers` are set by the enclosing stack. */
  class Assets {
    var query: Query
    var tojson: bool
    var assetUid: string
    var config: Config
    var headers: Headers
    var requestParams: Option<Request>

    /** A fresh builder has an empty query map and has built no request yet. */
    constructor (uid: string, config: Config, headers: Headers)
      ensures query == map[] && !tojson && requestParams == None
      ensures assetUid == uid && this.config == config && this.headers == headers
    {
      query := map[];
      tojson := false;
      requestParams := None;
      assetUid := uid;
      this.config := config;
      this.headers := headers;
    }

    /** Asks for plain-object output; returns the same builder. */
    method ToJson() returns (r: Assets)
      modifies this`tojson
      ensures tojson && r == this
      ensures query == old(query) && requestParams == old(requestParams)
    {
      tojson := true;
      r := this;
    }

    /**
     * Adds or overwrites one query parameter. Returns the same builder, or null
     * (JavaScript's undefined, which ends the chain) when the guard rejects the
     * arguments, in which case the query map is left as it was. An accepted
     * `__proto__` key returns the same builder and leaves the map as it was.
     */
    method AddParam(key: JsArg, value: JsArg) returns (r: Assets?)
      modifies this`query
      ensures query == WithParam(old(query), key, value)
      ensures r == (if ParamAccepted(key, value) then this else null)
      ensures tojson == old(tojson) && requestParams == old(requestParams)
    {
      if IsNonEmptyString(key) && IsNonEmptyString(value) {
        if key.s != ProtoKey {
          query := query[key.s := Str(value.s)];
        }
        r := this;
      } else {
        r := null;
      }
    }

    /** Marks the query with `include_fallback: true`; returns the same builder. */
    method IncludeFallback() returns (r: Assets)
      modifies this`query
      ensures query == WithFallback(old(query)) && r == this
      ensures tojson == old(tojson) && requestParams == old(requestParams)
    {
      query := query[FallbackKey := Bool(true)];
      r := this;
    }

    /**
     * Builds the request descriptor for the asset UID and stores it in
     * `requestParams`; without a UID it builds nothing and returns None.
     * The query map is read, not changed.
     */
    method Fetch() returns (r: Option<Request>)
      modifies this`requestParams
      ensures r == FetchRequest(config, headers, assetUid, query)
      ensures requestParams == (if assetUid == "" then old(requestParams) else r)
      ensures query == old(query) && tojson == old(tojson)
    {
      if assetUid != "" {
        requestParams := Some(Request("POST", headers, AssetUrl(config, assetUid), Body("GET", query)));
        r := requestParams;
      } else {
        r := None;
      }
    }
  }

  /** Two `addParam` calls with the same key: the second value is the one kept. */
  lemma WithParamLastWriteWins(q: Query, key: JsArg, first: JsArg, second: JsArg)
    requires ParamStored(key, second)
    ensures WithParam(WithParam(q, key, first), key, second) == WithParam(q, key, second)
    ensures WithParam(WithParam(q, key, first), key, second)[key.s] == Str(second.s)
  {
  }

  /** Parameters under different keys do not interfere: their order does not matter. */
  lemma WithParamCommutes(q: Query, k1: JsArg, v1: JsArg, k2: JsArg, v2: JsArg)
    requires k1 != k2
    ensures WithParam(WithParam(q, k1, v1), k2, v2) == WithParam(WithParam(q, k2, v2), k1, v1)
  {
  }

  /** `addParam('__proto__', v)` passes the guard but leaves the query map as it was. */
  lemma ProtoKeyIgnored(q: Query, value: JsArg)
    ensures ParamAccepted(JsString(ProtoKey), value) <==> IsNonEmptyString(value)
    ensures WithParam(q, JsString(ProtoKey), value) == q
  {
  }

  /** `includeFallback` twice is the same as once. */
  lemma WithFallbackIdempotent(q: Query)
    ensures WithFallback(WithFallback(q)) == WithFallback(q)
  {
  }

  /** A parameter added with `addParam` appears, with its value, in the body of the request `fetch` builds. */
  lemma AddParamReachesRequest(c: Config, h: Headers, uid: string, q: Query, key: JsArg, value: JsArg)
    requires uid != "" && ParamStored(key, value)
    ensures FetchRequest(c, h, uid, WithParam(q, key, value)).Some?
    ensures key.s in FetchRequest(c, h, uid, WithParam(q, key, value)).value.body.query
    ensures FetchRequest(c, h, uid, WithParam(q, key, value)).value.body.query[key.s] == Str(value.s)
  {
  }

  /** Under one configuration the URL determines the asset UID. */
  lemma AssetUrlDeterminesUid(c: Config, u1: string, u2: string)
    ensures AssetUrl(c, u1) == AssetUrl(c, u2) <==> u1 == u2
  {
  }

  /**
   * Two configurations that differ at most in the port give the same URL only
   * when the ports are equal: the rendered port is delimited by the '/' after it,
   * which is never a digit.
   */
  lemma AssetUrlDeterminesPort(c: Config, p1: Port, p2: Port, uid: string)
    ensures AssetUrl(c.(port := p1), uid) == AssetUrl(c.(port := p2), uid) <==> p1 == p2
  {
    var head := c.protocol + "://" + c.host + ":";
    var tail := "/" + c.version + c.assetsPath + uid;
    var d1, d2 := NatToDecimal(p1), NatToDecimal(p2);
    assert AssetUrl(c.(port := p1), uid) == head + d1 + tail;
    assert AssetUrl(c.(port := p2), uid) == head + d2 + tail;
    if head + d1 + tail == head + d2 + tail {
      assert tail == "/" + tail[1..];
      assert (head + d1 + tail)[|head|..] == d1 + "/" + tail[1..];
      assert (head + d2 + tail)[|head|..] == d2 + "/" + tail[1..];
      DigitsThenSlash(d1, d2, tail[1..], tail[1..]);
      NatToDecimalInjective(p1, p2);
    }
  }

  /** Digit strings followed by '/' can only be equal, with what follows, if the digits are equal. */
  lemma DigitsThenSlash(d1: string, d2: string, t1: string, t2: string)
    requires AllDigits(d1) && AllDigits(d2)
    ensures d1 + "/" + t1 == d2 + "/" + t2 ==> d1 == d2
  {
    var s1, s2 := d1 + "/" + t1, d2 + "/" + t2;
    assert s1[|d1|] == '/' && s2[|d2|] == '/';
    assert forall i :: 0 <= i < |d1| ==> IsDigit(s1[i]);
    assert forall i :: 0 <= i < |d2| ==> IsDigit(s2[i]);
    if s1 == s2 {
      assert |d1| == |d2|;
      assert d1 == s1[..|d1|] && d2 == s2[..|d2|];
    }
  }

  lemma Port443Text()
    ensures NatToDecimal(443) == "443"
  {
    assert DigitChar(4) == '4' && DigitChar(3) == '3';
    assert NatToDecimal(4) == "4";
    assert NatToDecimal(44) == "4" + "4";
    assert NatToDecimal(443) == "44" + "3";
  }

  /** The assets endpoint of an HTTPS stack at api.example.com, port 443, API version v3. */
  lemma ExampleBaseUrl()
    ensures AssetsBaseUrl(Config("https", "api.example.com", 443, "v3", "/assets/"))
              == "https://api.example.com:443/v3/assets/"
  {
    Port443Text();
    assert "https" + "://" == "https://";
    assert "https://" + "api.example.com" == "https://api.example.com";
    assert "https://api.example.com" + ":" + "443" == "https://api.example.com:443";
    assert "https://api.example.com:443" + "/" + "v3" == "https://api.example.com:443/v3";
    assert "https://api.example.com:443/v3" + "/assets/" == "https://api.example.com:443/v3/assets/";
  }

  /** The URL of asset "abc123" on that stack. */
  lemma ExampleUrl()
    ensures AssetUrl(Config("https", "api.example.com", 443, "v3", "/assets/"), "abc123")
              == "https://api.example.com:443/v3/assets/abc123"
  {
    ExampleBaseUrl();
    assert "https://api.example.com:443/v3/assets/" + "abc123" == "https://api.example.com:443/v3/assets/abc123";
  }

  /** The single-asset request for that URL, with one parameter set by `addParam`. */
  lemma ExampleFetch()
    ensures
      var c := Config("https", "api.example.com", 443, "v3", "/assets/");
      var q := WithParam(map[], JsString("include_dimension"), JsString("true"));
      FetchRequest(c, map[], "abc123", q)
        == Some(Request("POST", map[], "https://api.example.com:443/v3/assets/abc123",
                        Body("GET", map["include_dimension" := Str("true")])))
  {
    ExampleUrl();
  }

  /** The chain from the builder's documentation: addParam, toJSON, fetch. */
  method ChainExample(c: Config, h: Headers)
  {
    var a := new Assets("abc123", c, h);
    var b := a.AddParam(JsString("include_dimension"), JsString("true"));
    assert b == a;
    var j := b.ToJson();
    var r := j.Fetch();
    assert r.Some? && r.value.body.query == map["include_dimension" := Str("true")];
    assert a.requestParams == r;

    var proto := a.AddParam(JsString("__proto__"), JsString("x"));
    assert proto == a && a.query == map["include_dimension" := Str("true")];

    var rejected := a.AddParam(JsString(""), JsString("x"));
    assert rejected == null && a.query == map["include_dimension" := Str("true")];

    var none := new Assets("", c, h);
    var n := none.Fetch();
    assert n == None && none.requestParams == None;
  }
}
