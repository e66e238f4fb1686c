/**
 * The admission-mutation step: decode an `AdmissionReview`, decode the Pod
 * it carries, write the owner annotation into the Pod's annotation map,
 * build an allowing response with a one-operation patch and encode the
 * review again.
 */
module Mutate {
  import opened Common
  import opened Kube
  import opened Patch

  /** The annotation the policy writes. */
  const OwnerKey: string := "owner"
  const OwnerValue: string := "devang"

  /** The single operation of the patch. */
  const ReplaceOp: string := "replace"
  const AnnotationsPath: string := "metadata/annotations"

  /** The audit annotation of every response. */
  const AuditKey: string := "assignedBy"
  const AuditValue: string := "spectrocloud"

  const SuccessStatus: string := "Success"

  /** Prefixes of the two decoding error messages. */
  const UnmarshalRequestFailed: string := "unmarshaling request failed with "
  const UnmarshalPodFailed: string := "unable to unmarshal pod json object "

  /**
   * The JSON library, which this model does not look into: each function
   * turns bytes into a value or a value into bytes, or reports an error.
   * `decodePod` yields `None` for the JSON literal `null`, which leaves the
   * Go `*corev1.Pod` nil without an error.
   */
  datatype Codec = Codec(
    decodeReview: Bytes -> Result<AdmissionReview>,
    decodePod: Bytes -> Result<Option<PodDocument>>,
    encodeAnnotations: map<string, string> -> Result<Bytes>,
    encodePatch: seq<seq<Field>> -> Result<Bytes>,
    encodeReview: AdmissionReview -> Result<Bytes>)

  /** The three ways the step panics. */
  datatype PanicCause =
    | NilMapAssignment       // writing a key into a nil map
    | NilPointerDereference  // dereferencing a nil *corev1.Pod
    | BadMarshalling         // panic("bad marshalling")

  /** A Go call that either returns a value or panics. */
  datatype Completion<+T> = Returned(value: T) | Panicked(cause: PanicCause)

  /**
   * What `Mutate` does with one body: returns an error and no bytes, returns
   * an empty body and no error, returns the encoding `body` of `review`, or
   * panics.
   */
  datatype Outcome =
    | Err(message: string)
    | Empty
    | Ok(review: AdmissionReview, body: Bytes)
    | Panic(cause: PanicCause)

  /** The annotation map after the policy has written the owner key. */
  function WithOwner(annotations: map<string, string>): (r: map<string, string>)
    ensures OwnerKey in r && r[OwnerKey] == OwnerValue
    ensures r.Keys == annotations.Keys + {OwnerKey}
    ensures forall k :: k in annotations && k != OwnerKey ==> r[k] == annotations[k]
  {
    annotations[OwnerKey := OwnerValue]
  }

  /** Writing the owner annotation twice is writing it once. */
  lemma WithOwnerIdempotent(annotations: map<string, string>)
    ensures WithOwner(WithOwner(annotations)) == WithOwner(annotations)
  {
  }

  /** The policy changes nothing exactly when the owner annotation is already in place. */
  lemma WithOwnerFixedPoint(annotations: map<string, string>)
    ensures WithOwner(annotations) == annotations <==>
              OwnerKey in annotations && annotations[OwnerKey] == OwnerValue
  {
  }

  /** The request of the envelope, when the envelope decodes and has one. */
  ghost function RequestIn(codec: Codec, body: Bytes): Option<AdmissionRequest> {
    match codec.decodeReview(body)
    case Failure(_) => None
    case Success(review) => review.request
  }

  /** The annotation map of the request's Pod, when the Pod decodes, is not `null` and has a non-nil map. */
  ghost function AnnotationsIn(codec: Codec, req: AdmissionRequest): Option<map<string, string>> {
    match codec.decodePod(req.rawObject)
    case Success(Some(PodDocument(Some(annotations)))) => Some(annotations)
    case _ => None
  }

  /** The patch bytes for a Pod with annotation map `annotations`, when both encodings succeed. */
  ghost function OwnerPatchIn(codec: Codec, annotations: map<string, string>): Option<Bytes> {
    match codec.encodeAnnotations(WithOwner(annotations))
    case Failure(_) => None
    case Success(value) =>
      match codec.encodePatch(EncodeOperations([PatchOperation(ReplaceOp, AnnotationsPath, ByteSlice(value))]))
      case Failure(_) => None
      case Success(patch) => Some(patch)
  }

  /**
   * The review the step encodes: the decoded one with only its response set.
   * The response allows the request, echoes `uid` verbatim, sets the patch
   * type whatever the patch, and carries the fixed audit annotation and
   * status.
   */
  ghost function Answered(review: AdmissionReview, uid: string, patch: Bytes): (r: AdmissionReview)
    ensures r == review.(response := r.response)
    ensures r.request == review.request
    ensures r.response.Some?
    ensures r.response.value.uid == uid
    ensures r.response.value.allowed
    ensures r.response.value.patchType == Some(PatchTypeJSONPatch)
    ensures r.response.value.auditAnnotations == map[AuditKey := AuditValue]
    ensures r.response.value.result == Some(Status(SuccessStatus))
    ensures r.response.value.patch == patch
  {
    review.(response := Some(AdmissionResponse(
      uid, true, Some(Status(SuccessStatus)), patch, Some(PatchTypeJSONPatch), map[AuditKey := AuditValue])))
  }

  /**
   * `addAnnotation`: writes the owner annotation into the Pod's annotation
   * map in place, then returns a one-operation patch replacing the whole
   * map with its encoding. A nil map panics; no map is created.
   */
  method AddAnnotation(codec: Codec, pod: Pod) returns (list: Completion<seq<PatchOperation>>)
    modifies pod.metadata.annotations
    ensures pod.metadata.annotations == null ==> list == Panicked(NilMapAssignment)
    ensures pod.metadata.annotations != null ==>
              pod.metadata.annotations.entries == WithOwner(old(pod.metadata.annotations.entries))
    ensures pod.metadata.annotations != null ==>
              (list.Panicked? <==> codec.encodeAnnotations(pod.metadata.annotations.entries).Failure?)
    ensures pod.metadata.annotations != null && list.Panicked? ==> list.cause == BadMarshalling
    ensures list.Returned? ==>
              && pod.metadata.annotations != null
              && codec.encodeAnnotations(pod.metadata.annotations.entries).Success?
              && |list.value| == 1
              && list.value[0].op == ReplaceOp
              && list.value[0].path == AnnotationsPath
              && list.value[0].value == ByteSlice(codec.encodeAnnotations(pod.metadata.annotations.entries).value)
    ensures list.Returned? ==> list.value[0].op in JsonPatchOps && !IsJsonPointer(list.value[0].path)
  {
    var podAnnotations := pod.metadata.annotations;
    if podAnnotations == null {
      return Panicked(NilMapAssignment);
    }
    podAnnotations.Put(OwnerKey, OwnerValue);
    var newAnnotations := codec.encodeAnnotations(podAnnotations.entries);
    if newAnnotations.Failure? {
      return Panicked(BadMarshalling);
    }
    var ops: seq<PatchOperation> := [];
    ops := ops + [PatchOperation(ReplaceOp, AnnotationsPath, ByteSlice(newAnnotations.value))];
    return Returned(ops);
  }

  /**
   * `Mutate`: the whole step for one request body. Each `ensures` below is
   * one branch of the step; together they determine the outcome for every
   * codec and body.
   */
  method Mutate(codec: Codec, body: Bytes) returns (outcome: Outcome)
    // The envelope does not decode: an error and no bytes.
    ensures codec.decodeReview(body).Failure? ==>
              outcome == Err(UnmarshalRequestFailed + codec.decodeReview(body).error)
    // The envelope has no request: an empty body, no error, no response.
    ensures codec.decodeReview(body).Success? && codec.decodeReview(body).value.request.None? ==>
              outcome == Empty
    // The Pod does not decode: an error and no bytes; a `null` Pod or a nil map panics.
    ensures RequestIn(codec, body).Some? ==>
              var pod := codec.decodePod(RequestIn(codec, body).value.rawObject);
              && (pod.Failure? ==> outcome == Err(UnmarshalPodFailed + pod.error))
              && (pod == Success(None) ==> outcome == Panic(NilPointerDereference))
              && (pod.Success? && pod.value.Some? && pod.value.value.annotations.None? ==>
                    outcome == Panic(NilMapAssignment))
    // Encoding the new map or the patch fails: panic.
    ensures RequestIn(codec, body).Some? && AnnotationsIn(codec, RequestIn(codec, body).value).Some? ==>
              OwnerPatchIn(codec, AnnotationsIn(codec, RequestIn(codec, body).value).value).None? ==>
              outcome == Panic(BadMarshalling)
    // Everything decodes and the patch encodes: the answered review, encoded
    // again, or the error of that last encoding.
    ensures RequestIn(codec, body).Some? && AnnotationsIn(codec, RequestIn(codec, body).value).Some? ==>
              var req := RequestIn(codec, body).value;
              var patch := OwnerPatchIn(codec, AnnotationsIn(codec, req).value);
              patch.Some? ==>
              var answered := Answered(codec.decodeReview(body).value, req.uid, patch.value);
              match codec.encodeReview(answered)
              case Failure(e) => outcome == Err(e)
              case Success(responseBody) => outcome == Ok(answered, responseBody)
    // Success happens only on that path.
    ensures outcome.Ok? ==>
              && RequestIn(codec, body).Some?
              && AnnotationsIn(codec, RequestIn(codec, body).value).Some?
              && OwnerPatchIn(codec, AnnotationsIn(codec, RequestIn(codec, body).value).value).Some?
              && codec.encodeReview(outcome.review) == Success(outcome.body)
  {
    var decoded := codec.decodeReview(body);
    if decoded.Failure? {
      return Err(UnmarshalRequestFailed + decoded.error);
    }
    var admReview := decoded.value;
    var ar := admReview.request;
    var resp := ZeroResponse;
    if ar.None? {
      return Empty;
    }
    var req := ar.value;
    var podDecoded := codec.decodePod(req.rawObject);
    if podDecoded.Failure? {
      return Err(UnmarshalPodFailed + podDecoded.error);
    }
    resp := resp.(allowed := true);
    resp := resp.(uid := req.uid);
    var pT := PatchTypeJSONPatch;
    resp := resp.(patchType := Some(pT));
    resp := resp.(auditAnnotations := map[AuditKey := AuditValue]);
    if podDecoded.value.None? {
      return Panic(NilPointerDereference);
    }
    var document := podDecoded.value.value;
    assert RequestIn(codec, body) == Some(req);
    assert AnnotationsIn(codec, req) == document.annotations;
    var annotations: StringMap? := null;
    if document.annotations.Some? {
      annotations := new StringMap(document.annotations.value);
    }
    var list := AddAnnotation(codec, Pod(ObjectMeta(annotations)));
    if list.Panicked? {
      return Panic(list.cause);
    }
    assert list.value == [PatchOperation(ReplaceOp, AnnotationsPath, list.value[0].value)];
    var patch := codec.encodePatch(EncodeOperations(list.value));
    if patch.Failure? {
      return Panic(BadMarshalling);
    }
    resp := resp.(patch := patch.value);
    resp := resp.(result := Some(Status(SuccessStatus)));
    admReview := admReview.(response := Some(resp));
    var responseBody := codec.encodeReview(admReview);
    if responseBody.Failure? {
      return Err(responseBody.error);
    }
    return Ok(admReview, responseBody.value);
  }
}
