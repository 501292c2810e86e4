# Assets request builder

A model of the `Assets` builder of the content-delivery JavaScript SDK
(`src/core/modules/assets.js`). The builder collects query parameters
(`addParam`, `includeFallback`) and an output-format flag (`toJSON`). On
`fetch` it turns them into a request descriptor for one asset:

- method `POST`;
- the stack's headers;
- a URL made by concatenating protocol, host, port, version, the assets path and the asset UID;
- a body `{_method: 'GET', query}`.

The descriptor is stored in `requestParams`.

The files:

- `wrappers.dfy`: `Option`, standing for JavaScript's `undefined` result.
- `js_values.dfy`: the two pieces of JavaScript semantics the builder depends on.
  - `JsArg` is an argument as `addParam`'s guard sees it: a string, or anything else.
  - `NatToDecimal` is the text `+` produces for the port number. `DecimalValue` reads that text back.
- `assets.dfy`:
  - the query, configuration and request datatypes;
  - the pure functions describing each operation's effect (`WithParam`, `WithFallback`, `AssetUrl`, `FetchRequest`);
  - the class `Assets`, whose methods update its fields in place as the JavaScript methods update `this`;
  - lemmas about the functions;
  - `ChainExample`, a verified client method that calls the documented chain `addParam(...).toJSON().fetch()` using only the method contracts.

Points where the code's behaviour is easy to misread:

- The query map is not string-to-string. `includeFallback` stores the boolean `true`, so values are `QVal = Str | Bool`.
- The URL puts no separator between the version and the assets path. Any `/` comes from the configured path itself.
- Invalid `addParam` arguments and a missing UID raise no error. The method returns `undefined`, modelled as `null` or `None`, and leaves the state unchanged.
- `addParam('__proto__', v)` passes the guard but stores nothing. The query map is a plain object literal, and assigning to its `__proto__` runs the setter it inherits from `Object.prototype`, which ignores a string. So an accepted `addParam(k, v)` puts `k: v` in the request body for every key except `__proto__`.

## Model

| member | source | states |
|---|---|---|
| `Assets.Assets.constructor` | src/core/modules/assets.js:33-37 | a new builder has an empty query map, no JSON flag and no request built |
| `Assets.Assets.ToJson` | src/core/modules/assets.js:55-58 | sets `tojson`, leaves the query map and the stored request unchanged, returns the same builder |
| `Assets.Assets.AddParam` | src/core/modules/assets.js:73-80 | the query map becomes `WithParam` of the old one; returns the same builder when both arguments are non-empty strings (also for the key `__proto__`, which stores nothing), otherwise null (undefined) with the map unchanged |
| `Assets.Assets.IncludeFallback` | src/core/modules/assets.js:90-93 | the query map becomes `WithFallback` of the old one; returns the same builder |
| `Assets.Assets.Fetch` | src/core/modules/assets.js:108-124 | returns `FetchRequest` of the builder's state; stores it in `requestParams` when a UID is set, otherwise leaves `requestParams` as it was; never changes the query map |
| `Assets.WithParam` | src/core/modules/assets.js:73-79 | accepted arguments with a key other than `__proto__`: the key is present, maps to the string value, and every other key keeps its value; rejected arguments (empty or non-string key or value) or the key `__proto__`: the map is unchanged |
| `Assets.ProtoKeyIgnored` | src/core/modules/assets.js:34-75 | `addParam('__proto__', v)` is accepted exactly when `v` is a non-empty string, and leaves the query map unchanged |
| `Assets.WithFallback` | src/core/modules/assets.js:90-92 | `include_fallback` maps to boolean true, every other key keeps its value, no other key is added |
| `Assets.AssetUrl` | src/core/modules/assets.js:113 | the URL is the assets endpoint of the configuration followed by exactly the UID |
| `Assets.FetchRequest` | src/core/modules/assets.js:109-118 | a request exists exactly when the UID is non-empty; it is a POST with the stack's headers, the asset URL and a body carrying `_method` GET and the query map |
| `JsValues.NatToDecimal` | src/core/modules/assets.js:113 | the port text (ports are below 65536) is non-empty, all decimal digits, without a leading zero |
| `JsValues.DecimalRoundTrip` | src/core/modules/assets.js:113 | reading the port text back as a decimal number gives the port |
| `JsValues.NatToDecimalInjective` | src/core/modules/assets.js:113 | two ports render to the same text exactly when they are equal |
| `Assets.WithParamLastWriteWins` | src/core/modules/assets.js:75 | two `addParam` calls on one key, when the second call is accepted and the key is not `__proto__`, leave one entry holding the second value, as if only the second call had been made |
| `Assets.WithParamCommutes` | src/core/modules/assets.js:75 | `addParam` calls on different keys give the same map in either order |
| `Assets.WithFallbackIdempotent` | src/core/modules/assets.js:91 | `includeFallback` twice gives the same map as once |
| `Assets.AddParamReachesRequest` | src/core/modules/assets.js:73-118 | after an accepted `addParam(k, v)` with `k` other than `__proto__`, the request `fetch` builds has `query[k] == v` in its body |
| `Assets.AssetUrlDeterminesUid` | src/core/modules/assets.js:113 | under one configuration, two UIDs give the same URL exactly when they are equal |
| `Assets.AssetUrlDeterminesPort` | src/core/modules/assets.js:113 | configurations differing only in the port give the same URL exactly when the ports are equal |
| `Assets.ExampleUrl` | src/core/modules/assets.js:113 | UID `abc123` on `https`, `api.example.com`, port 443, version `v3`, path `/assets/` gives `https://api.example.com:443/v3/assets/abc123` |
| `Assets.ExampleFetch` | src/core/modules/assets.js:108-118 | the request for that asset after `addParam('include_dimension', 'true')` is exactly a POST to that URL with body `{_method: GET, query: {include_dimension: 'true'}}` |

## Left out

- `Utils.sendRequest`: the network send and the promise it returns are not modelled. `Fetch` returns the request descriptor it would hand over.
- `Utils.mergeDeep`: the merge of `fetchOptions` with the caller's options is not part of this model. Neither option record appears.
- `Utils.transform('only')`: the `only` helper set by the constructor is not part of this model. Nothing in the builder reads it.
- `console.error` diagnostics are not modelled as output. Only the outcome is kept: no change, and no result.
- Origin of `asset_uid`, `config` and `headers`: the enclosing stack sets these fields. Here they are constructor parameters.
- Falsy UIDs: `undefined`, `null` and `""` all collapse to the empty string.
- Port type: the port is an integer from 0 to 65535 rendered in decimal. Non-integer or non-numeric ports are not modelled.
- JsValues.NatToDecimal: gives exact decimal digits for every natural number. JavaScript rounds the digits from 2^53 and uses exponent form from 10^21. The function is only applied to ports, which are far below both limits.
- `Assets.Assets.Fetch`: the stored body holds a copy of the query map. In JavaScript it is the same object as `this._query`, so a later `addParam` also changes the stored request. The model does not capture that aliasing.
- Listing all assets (`Query().find()`) appears in the documentation comment but is not implemented by this class, so it is not modelled.
