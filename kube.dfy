/**
 * The parts of the Kubernetes API types (admission/v1beta1, core/v1,
 * meta/v1) that the mutation step reads or writes. Pod fields the step never
 * reads are left out; the request's other fields are kept as one opaque part,
 * because the step encodes the whole request again.
 */
module Kube {
  import opened Common

  /** The only patch type the admission API defines, `v1beta1.PatchTypeJSONPatch`. */
  const PatchTypeJSONPatch: string := "JSONPatch"

  /** `metav1.Status`, reduced to its `Status` field. */
  datatype Status = Status(status: string)

  /**
   * `v1beta1.AdmissionRequest`: the correlation id, the raw target object and,
   * as one opaque value, every other decoded field (kind, namespace,
   * operation, user info, old object, dry-run flag, ...).
   */
  datatype AdmissionRequest = AdmissionRequest(
    uid: string,
    rawObject: Bytes,
    otherFields: Bytes)

  /**
   * `v1beta1.AdmissionResponse`. Pointer fields (`Result`, `PatchType`) are
   * options; `Patch` and `AuditAnnotations` are a slice and a map, whose nil
   * value is the empty one.
   */
  datatype AdmissionResponse = AdmissionResponse(
    uid: string,
    allowed: bool,
    result: Option<Status>,
    patch: Bytes,
    patchType: Option<string>,
    auditAnnotations: map<string, string>)

  /** The zero value `v1beta1.AdmissionResponse{}`. */
  const ZeroResponse := AdmissionResponse("", false, None, [], None, map[])

  /** `v1beta1.AdmissionReview`: type tag, optional request, optional response. */
  datatype AdmissionReview = AdmissionReview(
    apiVersion: string,
    kind: string,
    request: Option<AdmissionRequest>,
    response: Option<AdmissionResponse>)

  /**
   * What decoding a Pod's JSON yields for the mutation step: the annotation
   * map, absent (a nil map) when the document has no `metadata.annotations`.
   */
  datatype PodDocument = PodDocument(annotations: Option<map<string, string>>)

  /**
   * A Go `map[string]string`. Go maps are references: a copy of the Pod
   * struct shares its annotation map, so writes through one are seen by all.
   */
  class StringMap {
    var entries: map<string, string>

    constructor (entries: map<string, string>)
      ensures this.entries == entries
    {
      this.entries := entries;
    }

    /** `m[key] = value`. */
    method Put(key: string, value: string)
      modifies this
      ensures entries == old(entries)[key := value]
    {
      entries := entries[key := value];
    }
  }

  /** `metav1.ObjectMeta`, reduced to `Annotations`; null stands for a nil map. */
  datatype ObjectMeta = ObjectMeta(annotations: StringMap?)

  /** `corev1.Pod`, reduced to its `ObjectMeta`. */
  datatype Pod = Pod(metadata: ObjectMeta)
}
