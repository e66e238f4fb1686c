/**
 * The JSON Patch operation record and the rules its struct tags give the
 * JSON encoder: which wire key each field is written under, in which order,
 * and when a field is left out.
 */
module Patch {
  import opened Common

  const OpKey: string := "op"
  const PathKey: string := "path"
  const ValueKey: string := "value"

  /**
   * A value of Go's `interface{}` type as far as this model needs it: the
   * nil interface, or a dynamic value of one of a few kinds. The mutation
   * step stores a byte slice here.
   */
  datatype Dynamic =
    | Nil
    | Bool(b: bool)
    | Number(n: int)
    | Str(s: string)
    | ByteSlice(bytes: Bytes)

  /** `patchOperation`: one operation of a JSON Patch document. */
  datatype PatchOperation = PatchOperation(op: string, path: string, value: Dynamic)

  /** One member of an encoded JSON object: its key and the Go value written there. */
  datatype Field = Field(key: string, value: Dynamic)

  /** The value of the first member named `key`, if any. */
  function Lookup(fields: seq<Field>, key: string): (r: Option<Dynamic>)
    ensures r.None? <==> forall i :: 0 <= i < |fields| ==> fields[i].key != key
    ensures r.Some? ==> exists i :: 0 <= i < |fields| && fields[i] == Field(key, r.value)
                                   && forall j :: 0 <= j < i ==> fields[j].key != key
  {
    if fields == [] then None
    else if fields[0].key == key then Some(fields[0].value)
    else
      var r := Lookup(fields[1..], key);
      assert r.Some? ==> exists i :: 0 <= i < |fields[1..]| && fields[1..][i] == Field(key, r.value)
                                   && forall j :: 0 <= j < i ==> fields[1..][j].key != key;
      assert forall i :: 0 < i < |fields| ==> fields[i] == fields[1..][i - 1];
      r
  }

  /** No key occurs twice. */
  ghost predicate DistinctKeys(fields: seq<Field>) {
    forall i, j :: 0 <= i < j < |fields| ==> fields[i].key != fields[j].key
  }

  /**
   * The members the JSON encoder writes for a `patchOperation`, in field
   * order: `op` and `path` always; `value` only when the interface is not
   * nil (`omitempty` on an interface field tests for the nil interface, so
   * an empty byte slice is still written).
   */
  function EncodeOperation(p: PatchOperation): (fields: seq<Field>)
    ensures |fields| >= 2 && fields[0].key == OpKey && fields[1].key == PathKey
    ensures |fields| == 3 ==> fields[2].key == ValueKey
    ensures Lookup(fields, OpKey) == Some(Str(p.op))
    ensures Lookup(fields, PathKey) == Some(Str(p.path))
    ensures Lookup(fields, ValueKey).Some? <==> p.value != Nil
    ensures Lookup(fields, ValueKey).Some? ==> Lookup(fields, ValueKey).value == p.value
    ensures forall i :: 0 <= i < |fields| ==> fields[i].key in {OpKey, PathKey, ValueKey}
    ensures DistinctKeys(fields)
  {
    var tail := if p.value == Nil then [] else [Field(ValueKey, p.value)];
    var fields := [Field(OpKey, Str(p.op)), Field(PathKey, Str(p.path))] + tail;
    assert fields[1..][1..] == tail;
    assert tail != [] ==> fields[2] == Field(ValueKey, p.value);
    assert OpKey != ValueKey && PathKey != ValueKey;
    fields
  }

  /**
   * The encoding of a list of operations, in order: every element is an
   * object that obeys the wire-key rules of its operation.
   */
  function EncodeOperations(ops: seq<PatchOperation>): (objects: seq<seq<Field>>)
    ensures |objects| == |ops|
    ensures forall i :: 0 <= i < |ops| ==>
              && Lookup(objects[i], OpKey) == Some(Str(ops[i].op))
              && Lookup(objects[i], PathKey) == Some(Str(ops[i].path))
              && (Lookup(objects[i], ValueKey).Some? <==> ops[i].value != Nil)
              && (Lookup(objects[i], ValueKey).Some? ==> Lookup(objects[i], ValueKey).value == ops[i].value)
              && DistinctKeys(objects[i])
  {
    if ops == [] then []
    else [EncodeOperation(ops[0])] + EncodeOperations(ops[1..])
  }

  /** The encoding loses nothing: two operations with one encoding are equal. */
  lemma EncodeOperationInjective(p: PatchOperation, q: PatchOperation)
    requires EncodeOperation(p) == EncodeOperation(q)
    ensures p == q
  {
  }

  /**
   * JSON Pointer syntax (section 3 of RFC 6901): empty, or a sequence of
   * reference tokens each introduced by `/`, in which `~` only appears as
   * the escapes `~0` and `~1`.
   */
  predicate IsJsonPointer(s: string) {
    && (s == [] || s[0] == '/')
    && forall i :: 0 <= i < |s| && s[i] == '~' ==> i + 1 < |s| && (s[i + 1] == '0' || s[i + 1] == '1')
  }

  /** The operation names of section 4 of RFC 6902. */
  const JsonPatchOps: set<string> := {"add", "remove", "replace", "move", "copy", "test"}
}
