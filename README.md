# HTTP output of libbeat, modelled in Dafny

This project models the core of libbeat's `httpout` output
(`libbeat/outputs/httpout/http.go`). The output forwards batches of events to
an HTTP endpoint as JSON. An operator can wrap each batch in a *capsule*: a
JSON-like template in which one string, the *signature*, marks where the batch
goes.

The model covers four things:

- **Construction** (`initHttpObject`). An empty host is rejected. The URL is
  built from host and port. The configured custom headers and fields are merged
  into the package-wide maps. A capsule without a signature is refused.
- **The substitution engine** (`substitueMapValue`, `substitueInterfaceArray`,
  `substitueInterfaceMap`). This is a recursive tree transform. It replaces
  every string equal to the signature with the current batch.
- **Custom-field injection** (`PublishEvent`, `BulkPublish`). The custom
  fields are written into each event in place.
- **Request assembly** (`PublishEvents`). It records the current batch,
  chooses the body, builds the header map and decides what to signal back.

Modules:

- `Wrappers` holds `Option` and `Result`.
- `Decimal` models `strconv.Itoa` and proves it can be read back.
- `Maps` holds `Overlay`, the key-by-key merge the source writes as a
  `range` loop. `SetAll` is that loop.
- `Template` holds the value tree, the substitution specification
  (`Substituted*`), the loop methods that compute it (`Substitute*`) and its
  properties.
- `HttpOut` holds the rest:
  - the package-level variables, as class `Globals`;
  - events, as class `Event`, because publishing changes them in place;
  - the output itself, as class `HttpOutput`, with its URL and the `Globals`
    it shares with every other output.

Three behaviours of the code are worth knowing:

- A marshal error or a request-construction error returns the error but
  signals *Completed*. Only a transport error signals *Failed*.
- A missing signature fails construction only after the custom headers and
  fields have been merged and the capsule has been stored in the shared
  state.
- The body is chosen by whether the shared `signature` is non-empty, not by
  whether a capsule is configured. Suppose one output is built with a capsule
  and a signature, and a later one without a capsule. The later construction
  clears the capsule but keeps the signature, so every output then sends an
  empty object (`StaleSignatureSendsEmptyObject`).

## Model

| member | source | states |
|---|---|---|
| `HttpOut.InitHttpObject` | libbeat/outputs/httpout/http.go:37-73 | An empty host fails with MissingHost and changes no shared state. Otherwise the configured headers and fields are merged into the shared maps: configured keys take their configured value and other keys are kept. The capsule is stored. A capsule with an empty signature fails with MissingSignature after those writes. The signature changes only when a capsule and a non-empty signature are both given. Success happens exactly when the host is set and any capsule has a signature; the new output then has URL `Url(host, port)` |
| `HttpOut.Url` | libbeat/outputs/httpout/http.go:44-50 | The URL equals the host exactly when the port is 0. Otherwise it is the host followed by `:` and `Itoa(port)`, the canonical decimal form without leading zeros, which reads back as the port |
| `Decimal.AtoiItoa` | libbeat/outputs/httpout/http.go:49 | Reading back the decimal form of any integer, negative ones included, gives that integer |
| `Decimal.ItoaInjective` | libbeat/outputs/httpout/http.go:49 | Distinct ports give distinct decimal strings |
| `Maps.Overlay` | libbeat/outputs/httpout/http.go:52-62 | Merging keeps the union of the keys. Merged-in entries win, and entries that were not merged in keep their old value. This is accumulation, not replacement |
| `Maps.SetAll` | libbeat/outputs/httpout/http.go:53-55 | The key-by-key assignment loop computes `Overlay` of the old map and the new entries |
| `Maps.OverlayIdempotent` | libbeat/outputs/httpout/http.go:140-144 | Injecting the same fields into an event twice gives the same result as injecting them once |
| `Template.SubstituteValue` | libbeat/outputs/httpout/http.go:105-120 | The type switch computes `Substituted`: sequences and maps are rebuilt, the signature string becomes the batch, and anything else is returned unchanged |
| `Template.SubstituteArray` | libbeat/outputs/httpout/http.go:88-94 | The loop over a preallocated slice yields the element-wise substitution of the sequence |
| `Template.SubstituteMap` | libbeat/outputs/httpout/http.go:97-103 | The loop over the map's keys yields a fresh map with the same keys and substituted values |
| `Template.SubstituteLeaf` | libbeat/outputs/httpout/http.go:111-118 | A leaf becomes the batch exactly when it is the signature string. Numbers, booleans, null, other strings and batches are returned unchanged |
| `Template.SubstituteShape` | libbeat/outputs/httpout/http.go:88-103 | A sequence keeps its length and a map keeps its keys. Each element or value is the substitution of the one at the same index or key |
| `Template.NoPlaceholderUnchanged` | libbeat/outputs/httpout/http.go:105-119 | A template in which no string equals the signature is returned structurally unchanged |
| `Template.NoPlaceholderRemains` | libbeat/outputs/httpout/http.go:105-119 | After substitution, no string equal to the signature is left outside the inserted batches |
| `Template.SubstituteIdempotent` | libbeat/outputs/httpout/http.go:105-119 | Substituting an already substituted template with the same signature changes nothing |
| `Template.SubstituteAt` | libbeat/outputs/httpout/http.go:88-120 | For any path, the node of the result at that path is the substitution of the template's node there |
| `Template.PlaceholderAtAnyDepth` | libbeat/outputs/httpout/http.go:111-113 | At any nesting depth, a placeholder position holds the whole batch in the result |
| `Template.LeafKeptAtAnyDepth` | libbeat/outputs/httpout/http.go:114-118 | At any nesting depth, a leaf other than the placeholder is kept at its position |
| `Template.HasPlaceholderIffPath` | libbeat/outputs/httpout/http.go:105-119 | A template contains the signature string if and only if some path of indices and keys leads to it |
| `HttpOut.RequestHeaders` | libbeat/outputs/httpout/http.go:180-185 | The headers are exactly the custom headers plus `Content-Type` and `X-Custom-Header`. Each custom header has its configured value. The defaults `application/json` and `myvalue` hold unless a custom header with the same key overrides them |
| `HttpOut.Outcome` | libbeat/outputs/httpout/http.go:166-206 | A request exists only when marshalling and request construction succeeded. Only a transport error signals Failed. An error is returned on every path except delivery |
| `HttpOut.HttpOutput.PublishEvents` | libbeat/outputs/httpout/http.go:151-185 | The current batch becomes the given events. The result is `Outcome` of a POST to the output's URL, with `RequestHeaders` of the shared custom headers and `Body` of the shared signature and capsule over the events' contents. Nothing else changes |
| `HttpOut.HttpOutput.PublishEvent` | libbeat/outputs/httpout/http.go:124-133 | The event's fields become the old fields overlaid with the custom fields as strings, and no other key changes. The event is then published as a batch of one |
| `HttpOut.HttpOutput.BulkPublish` | libbeat/outputs/httpout/http.go:135-146 | Every event of the batch gets the custom fields with the same overlay, even when one event occurs several times. The order and number of events are unchanged, and the whole batch is then published |
| `HttpOut.InjectAll` | libbeat/outputs/httpout/http.go:140-144 | The nested loop leaves every event of the list with its old fields overlaid by the custom fields, also when one event occurs several times in the list |
| `HttpOut.BodyWithoutSignature` | libbeat/outputs/httpout/http.go:159-164 | With no signature, the body is the raw batch |
| `HttpOut.BodyWithCapsule` | libbeat/outputs/httpout/http.go:159-161 | With a signature and a capsule, every placeholder in the capsule, at any depth, holds the batch in the body, and every other leaf keeps its position |
| `HttpOut.CapsuleWithoutPlaceholder` | libbeat/outputs/httpout/http.go:159-161 | A capsule without the signature string is sent as configured |
| `HttpOut.StaleSignatureSendsEmptyObject` | libbeat/outputs/httpout/http.go:159-160 | When the shared signature is set but no capsule is stored, the body is the empty object |
| `HttpOut.CapsuleExample` | libbeat/outputs/httpout/http.go:158-161 | `{"type": "batch", "payload": "EVENTS"}` with signature `EVENTS` and batch `[{"msg": "hi"}]` gives `{"type": "batch", "payload": [{"msg": "hi"}]}` |
| `HttpOut.Globals.constructor` | libbeat/outputs/httpout/http.go:17-21 | The package starts with empty header and field maps, no capsule, an empty signature and no current batch |

## Left out

- The HTTP round trip is not modelled: `http.Client`, `http.NewRequest`, `client.Do`, and reading and closing the response body are network I/O and library code. Their outcome enters as the `Delivery` parameter.
- `json.Marshal` is not modelled. It is a foreign serialiser, so the body stays a value tree. Its failure is the `MarshalError` case of `Delivery`.
- Logging (`logp.*`) and the `opts.Guaranteed` branch are left out. They only change the log severity.
- Plugin registration (`init`, `NewOutput`) is left out. It is host-framework plumbing, and `NewOutput` only forwards to `initHttpObject`.
- The unused `count` variable is left out.
- Header keys are taken verbatim. `Header.Set` would canonicalise them (`content-type` becomes `Content-Type`), and that library behaviour is not modelled.
- Template keys are assumed to be strings already, so the `%v` stringification of map keys is the identity. Collisions between distinct keys that print alike cannot arise.
- There is a single map variant. In the source, only `map[interface{}]interface{}` is walked, and an already-stringified `common.MapStr` nested in a template falls through unchanged.
- Numbers are modelled as integers. Floating-point values in a template are not represented. They would fall through unchanged like any other scalar.
- Concurrent publish calls on the shared package variables are not modelled. Each method runs alone on one `Globals` object.
- Go's fixed-width `int` for the port is modelled as an unbounded integer. Only its decimal form matters here.
