/**
 * The capsule template and its substitution engine.
 *
 * A template is a JSON-like tree. Substitution walks it, rebuilding every
 * sequence and map, and replaces each string equal to the signature by the
 * current batch of events; every other value is kept as it is. The functions
 * `Substituted*` say what the result is; the methods `Substitute*` are the
 * loops of the Go code (http.go) and are proved to compute it.
 */
module Template {
  import opened Wrappers

  /** An event record: field name to value. */
  type Record = map<string, Value>

  /**
   * A template or payload node. `Batch` is the list of event records put in
   * place of a placeholder; substitution never looks inside it.
   */
  datatype Value =
    | Null
    | Bool(b: bool)
    | Int(i: int)
    | Str(s: string)
    | Array(elems: seq<Value>)
    | Object(fields: map<string, Value>)
    | Batch(events: seq<Record>)

  /** Neither a sequence nor a map: substitution does not descend into it. */
  predicate IsLeaf(v: Value) {
    !v.Array? && !v.Object?
  }

  // ---------------------------------------------------------------------------
  // Specification

  /** The value `v` becomes once every placeholder `sig` in it is replaced by `batch`. */
  function Substituted(v: Value, sig: string, batch: seq<Record>): Value
    decreases v, 1
  {
    match v
    case Array(elems) => Array(SubstitutedArray(elems, sig, batch))
    case Object(fields) => Object(SubstitutedMap(fields, sig, batch))
    case Str(s) => if s == sig then Batch(batch) else v
    case _ => v
  }

  function SubstitutedArray(elems: seq<Value>, sig: string, batch: seq<Record>): seq<Value>
    decreases Array(elems), 0
  {
    seq(|elems|, i requires 0 <= i < |elems| => Substituted(elems[i], sig, batch))
  }

  function SubstitutedMap(fields: map<string, Value>, sig: string, batch: seq<Record>): map<string, Value>
    decreases Object(fields), 0
  {
    map k | k in fields :: Substituted(fields[k], sig, batch)
  }

  /** Some string equal to `sig` occurs in `v`, outside any batch. */
  predicate HasPlaceholder(v: Value, sig: string) {
    match v
    case Str(s) => s == sig
    case Array(elems) => exists i :: 0 <= i < |elems| && HasPlaceholder(elems[i], sig)
    case Object(fields) => exists k :: k in fields && HasPlaceholder(fields[k], sig)
    case _ => false
  }

  /** One step down a tree: an index into a sequence or a key of a map. */
  datatype Step = Index(i: nat) | Key(k: string)

  /** The node reached from `v` by following `path`, if there is one. */
  function At(v: Value, path: seq<Step>): Option<Value>
    decreases |path|
  {
    if path == [] then Some(v)
    else match (v, path[0])
      case (Array(elems), Index(i)) => if i < |elems| then At(elems[i], path[1..]) else None
      case (Object(fields), Key(k)) => if k in fields then At(fields[k], path[1..]) else None
      case _ => None
  }

  // ---------------------------------------------------------------------------
  // The engine (substitueMapValue, substitueInterfaceArray, substitueInterfaceMap)

  method SubstituteValue(v: Value, sig: string, batch: seq<Record>) returns (r: Value)
    decreases v, 1
    ensures r == Substituted(v, sig, batch)
  {
    match v
    case Array(elems) =>
      var a := SubstituteArray(elems, sig, batch);
      r := Array(a);
    case Object(fields) =>
      var m := SubstituteMap(fields, sig, batch);
      r := Object(m);
    case Str(s) =>
      if s == sig {
        r := Batch(batch);
      } else {
        r := v;
      }
    case _ =>
      r := v;
  }

  /** Builds a fresh sequence of the same length, substituting element by element. */
  method SubstituteArray(elems: seq<Value>, sig: string, batch: seq<Record>) returns (r: seq<Value>)
    decreases Array(elems), 0
    ensures r == SubstitutedArray(elems, sig, batch)
  {
    r := seq(|elems|, _ => Null);
    var i := 0;
    while i < |elems|
      invariant 0 <= i <= |elems| && |r| == |elems|
      invariant forall j :: 0 <= j < i ==> r[j] == Substituted(elems[j], sig, batch)
    {
      var x := SubstituteValue(elems[i], sig, batch);
      r := r[i := x];
      i := i + 1;
    }
  }

  /** Builds a fresh map with the same keys, substituting value by value. */
  method SubstituteMap(fields: map<string, Value>, sig: string, batch: seq<Record>) returns (r: map<string, Value>)
    decreases Object(fields), 0
    ensures r == SubstitutedMap(fields, sig, batch)
  {
    r := map[];
    var todo := fields.Keys;
    while todo != {}
      invariant todo <= fields.Keys
      invariant r == map k | k in fields.Keys - todo :: Substituted(fields[k], sig, batch)
      decreases todo
    {
      var k :| k in todo;
      var x := SubstituteValue(fields[k], sig, batch);
      r := r[k := x];
      todo := todo - {k};
    }
  }

  // ---------------------------------------------------------------------------
  // Properties

  /**
   * A leaf is replaced by the batch exactly when it is the string `sig`;
   * numbers, booleans, null, other strings and batches come back unchanged.
   */
  lemma SubstituteLeaf(v: Value, sig: string, batch: seq<Record>)
    requires IsLeaf(v)
    ensures v == Str(sig) ==> Substituted(v, sig, batch) == Batch(batch)
    ensures v != Str(sig) ==> Substituted(v, sig, batch) == v
  {
  }

  /**
   * Sequences keep their length and maps their keys; each element or value is
   * the substitution of the one at the same index or key.
   */
  lemma SubstituteShape(v: Value, sig: string, batch: seq<Record>)
    ensures v.Array? ==> var r := Substituted(v, sig, batch);
      && r.Array? && |r.elems| == |v.elems|
      && forall i :: 0 <= i < |v.elems| ==> r.elems[i] == Substituted(v.elems[i], sig, batch)
    ensures v.Object? ==> var r := Substituted(v, sig, batch);
      && r.Object? && r.fields.Keys == v.fields.Keys
      && forall k :: k in v.fields ==> r.fields[k] == Substituted(v.fields[k], sig, batch)
  {
  }

  /** A template without a placeholder is returned structurally unchanged. */
  lemma {:induction false} NoPlaceholderUnchanged(v: Value, sig: string, batch: seq<Record>)
    requires !HasPlaceholder(v, sig)
    ensures Substituted(v, sig, batch) == v
  {
    match v
    case Array(elems) =>
      forall i | 0 <= i < |elems|
        ensures Substituted(elems[i], sig, batch) == elems[i]
      {
        NoPlaceholderUnchanged(elems[i], sig, batch);
      }
      assert SubstitutedArray(elems, sig, batch) == elems;
    case Object(fields) =>
      forall k | k in fields
        ensures Substituted(fields[k], sig, batch) == fields[k]
      {
        NoPlaceholderUnchanged(fields[k], sig, batch);
      }
      assert SubstitutedMap(fields, sig, batch) == fields;
    case _ =>
  }

  /** No placeholder survives substitution. */
  lemma {:induction false} NoPlaceholderRemains(v: Value, sig: string, batch: seq<Record>)
    ensures !HasPlaceholder(Substituted(v, sig, batch), sig)
  {
    match v
    case Array(elems) =>
      var r := SubstitutedArray(elems, sig, batch);
      forall i | 0 <= i < |r|
        ensures !HasPlaceholder(r[i], sig)
      {
        NoPlaceholderRemains(elems[i], sig, batch);
      }
    case Object(fields) =>
      var r := SubstitutedMap(fields, sig, batch);
      forall k | k in r
        ensures !HasPlaceholder(r[k], sig)
      {
        NoPlaceholderRemains(fields[k], sig, batch);
      }
    case _ =>
  }

  /** Substituting an already substituted template changes nothing. */
  lemma SubstituteIdempotent(v: Value, sig: string, batch: seq<Record>)
    ensures Substituted(Substituted(v, sig, batch), sig, batch) == Substituted(v, sig, batch)
  {
    NoPlaceholderRemains(v, sig, batch);
    NoPlaceholderUnchanged(Substituted(v, sig, batch), sig, batch);
  }

  /** Substitution commutes with navigation: whatever sits at a path is substituted in place. */
  lemma {:induction false} SubstituteAt(v: Value, path: seq<Step>, w: Value, sig: string, batch: seq<Record>)
    requires At(v, path) == Some(w)
    ensures At(Substituted(v, sig, batch), path) == Some(Substituted(w, sig, batch))
    decreases |path|
  {
    if path != [] {
      match (v, path[0])
      case (Array(elems), Index(i)) =>
        SubstituteAt(elems[i], path[1..], w, sig, batch);
      case (Object(fields), Key(k)) =>
        SubstituteAt(fields[k], path[1..], w, sig, batch);
    }
  }

  /** At any depth, a placeholder becomes the whole batch. */
  lemma PlaceholderAtAnyDepth(v: Value, path: seq<Step>, sig: string, batch: seq<Record>)
    requires At(v, path) == Some(Str(sig))
    ensures At(Substituted(v, sig, batch), path) == Some(Batch(batch))
  {
    SubstituteAt(v, path, Str(sig), sig, batch);
  }

  /** At any depth, a leaf other than the placeholder is left as it is. */
  lemma LeafKeptAtAnyDepth(v: Value, path: seq<Step>, w: Value, sig: string, batch: seq<Record>)
    requires At(v, path) == Some(w) && IsLeaf(w) && w != Str(sig)
    ensures At(Substituted(v, sig, batch), path) == Some(w)
  {
    SubstituteAt(v, path, w, sig, batch);
  }

  /** A template has a placeholder exactly when some path leads to one. */
  lemma {:induction false} HasPlaceholderIffPath(v: Value, sig: string)
    ensures HasPlaceholder(v, sig) <==> exists path :: At(v, path) == Some(Str(sig))
  {
    if HasPlaceholder(v, sig) {
      var path := PlaceholderPath(v, sig);
    }
    if p :| At(v, p) == Some(Str(sig)) {
      PathHasPlaceholder(v, p, sig);
    }
  }

  lemma {:induction false} PlaceholderPath(v: Value, sig: string) returns (path: seq<Step>)
    requires HasPlaceholder(v, sig)
    ensures At(v, path) == Some(Str(sig))
  {
    match v
    case Str(s) =>
      path := [];
    case Array(elems) =>
      var i :| 0 <= i < |elems| && HasPlaceholder(elems[i], sig);
      var rest := PlaceholderPath(elems[i], sig);
      path := [Index(i)] + rest;
      assert path[1..] == rest;
    case Object(fields) =>
      var k :| k in fields && HasPlaceholder(fields[k], sig);
      var rest := PlaceholderPath(fields[k], sig);
      path := [Key(k)] + rest;
      assert path[1..] == rest;
  }

  lemma {:induction false} PathHasPlaceholder(v: Value, path: seq<Step>, sig: string)
    requires At(v, path) == Some(Str(sig))
    ensures HasPlaceholder(v, sig)
    decreases |path|
  {
    if path != [] {
      match (v, path[0])
      case (Array(elems), Index(i)) =>
        PathHasPlaceholder(elems[i], path[1..], sig);
      case (Object(fields), Key(k)) =>
        PathHasPlaceholder(fields[k], path[1..], sig);
    }
  }
}
