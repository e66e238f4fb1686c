# Admission mutation step of a Kubernetes Pod webhook

This project models the `mutate` package of a Kubernetes mutating admission
webhook, written in Go. Its `Mutate` function receives the body of an
`AdmissionReview` request and makes one of these decisions:

- it returns an error;
- it returns an empty body;
- it panics;
- it returns the same review, encoded again, with an allowing
  `AdmissionResponse` attached.

That response carries a JSON Patch of one operation, `replace` at
`metadata/annotations`. Its value is the JSON encoding of the Pod's annotation
map after `owner` has been set to `devang` in it. That encoding is carried as a
byte slice, which the JSON encoder writes as a base64 string, so on the wire the
value is a string and not a map. The model keeps it as `ByteSlice`.

Modules:

- `Common` (common.dfy): `Option`, `Result`, bytes.
- `Kube` (kube.dfy): the parts of the Kubernetes API types that the step reads
  or writes. A Go `map[string]string` is a class, `StringMap`, because Go maps
  are references and `addAnnotation` writes into the Pod's map in place.
- `Patch` (patch.dfy): the `patchOperation` record of `type.go`. It also holds
  the members the JSON encoder writes for it, as its struct tags dictate.
- `Mutate` (mutate.dfy): the policy on the annotation map (`WithOwner`),
  `addAnnotation` (`AddAnnotation`) and `Mutate`.

The JSON library is not modelled. `Mutate.Codec` is a record of five functions
that are passed in: decode a review, decode a Pod, encode a map, encode a patch
list, encode a review. Each one returns a value or an error message.
Decoding the JSON literal `null` as a Pod gives `None`. This matches Go, where
that leaves the `*corev1.Pod` nil and reports no error. The result of one call
is a `Mutate.Outcome`: `Err(message)`, `Empty`, `Ok(review, body)` or
`Panic(cause)`. `Ok` carries the review whose encoding `body` is returned, so
that contracts can talk about its fields.

Where this code differs from what an idealised webhook would do, the model
follows the code:

- A Pod without annotations (a nil map) makes the step panic. No map is created.
- `PatchType` is always set to `JSONPatch`. It does not depend on the patch.
- There is no structural diff. The patch always has its one `replace`
  operation, even when the owner annotation was already present.
- Because of the path below, the patch is not a JSON Patch that can be applied
  as written: section 5 of RFC 6902 makes an operation with an invalid pointer
  an error, and then no part of the patch is applied.
- The returned review keeps its request next to the new response.
- The patch path `metadata/annotations` has no leading `/`. So it is not a JSON
  Pointer (section 3 of RFC 6901). The operation name is the `replace`
  operation of section 4.3 of RFC 6902.
- `omitempty` on the `interface{}` field `Value` leaves the `value` key out only
  when the interface is nil. An empty byte slice stored in it is still written.

## Model

| member | source | states |
|---|---|---|
| `Mutate.Mutate` | internal/mutate/mutate.go:16-75 | Gives the outcome of every branch, and together the clauses fix it for every codec and body. If the envelope does not decode: the prefixed error and no bytes. If there is no request: an empty body and no error. If the Pod does not decode: the prefixed error. A `null` Pod or a nil annotation map panics, and so does a failed map or patch encoding. When all of those succeed, the outcome is `Ok` with the `Answered` review and its encoding, or that encoding's error. `Ok` happens on no other path. |
| `Mutate.Answered` | internal/mutate/mutate.go:40-61 | The answered review is the decoded one with only `Response` set, and the request is unchanged. The response has `Allowed`, the request's UID verbatim, `PatchType` `JSONPatch` whatever the patch, audit annotations exactly `assignedBy → spectrocloud`, status `Success`, and the given patch bytes. |
| `Mutate.AddAnnotation` | internal/mutate/mutate.go:77-92 | A nil map panics and no map is created. Otherwise the map is updated in place to `WithOwner` of its old contents. A failed encoding of the new map panics with "bad marshalling". Otherwise the result is a list of exactly one operation: `replace`, `metadata/annotations`, and the encoding of the updated map as its value. That op is an RFC 6902 operation name, and that path is not a JSON Pointer. |
| `Mutate.WithOwner` | internal/mutate/mutate.go:78-79 | `owner` maps to `devang`. Every other key keeps its old value. The key set is the old one plus `owner`. |
| `Mutate.WithOwnerIdempotent` | internal/mutate/mutate.go:79 | Applying the policy twice equals applying it once. |
| `Mutate.WithOwnerFixedPoint` | internal/mutate/mutate.go:79 | The policy leaves the map unchanged exactly when `owner` already maps to `devang`. |
| `Kube.StringMap.Put` | internal/mutate/mutate.go:79 | A map write sets one key and leaves every other entry unchanged. |
| `Patch.EncodeOperation` | internal/mutate/type.go:3-7 | The members come in field order: `op`, `path`, then `value`. The encoded object always has an `op` key carrying `Op` verbatim and a `path` key carrying `Path` verbatim. It has a `value` key if and only if `Value` is not the nil interface, and then that key carries `Value` unchanged, whatever it holds. It has no other keys, and no key appears twice. |
| `Patch.EncodeOperations` | internal/mutate/type.go:3-7 | A list of operations encodes to a list of the same length. In each object, `op` and `path` carry the operation's fields verbatim, `value` is present exactly when the value is not nil and then carries it, and no key repeats. |
| `Patch.EncodeOperationInjective` | internal/mutate/type.go:3-7 | Two operations with the same encoding are equal, so the encoding loses nothing. |

## Left out

- Text-level JSON encoding and decoding (`encoding/json`): these are parameters of `Codec`. This includes map key sorting and the base64 form of a `[]byte` `Value`.
- Fields of the Pod that the step never reads (its spec, its status, the rest of its metadata): only the annotation map is encoded again. The request's other fields (kind, namespace, operation, user info, old object, dry-run flag, ...) pass through unchanged into the returned review; the model holds them as one opaque part, `otherFields`, which `Answered` keeps as decoded.
- The `verbose` parameter and its logging (internal/mutate/mutate.go:17-19, 70-72): side effects with no bearing on the result.
- `Mutate.Mutate`: models Go's copy of the Pod struct in `addAnnotation(*pod)` as passing the `Pod` value. The copy shares the annotation map, as in Go.
- `Mutate.Mutate`: does not model the difference between a nil and an empty byte slice, or between a nil and an empty map, in the response.
- main.go, middleware.go, internal/handler/mutate.go and internal/handler/root.go: server start-up, flag parsing, request logging, panic-to-500 recovery and HTTP body handling. Note that internal/handler/mutate.go:20 calls `Mutate` with one argument, while it takes two.
