/** The shipped record transforms (`src/transform.rs`) and the `Transform` interface (`src/processor.rs`). */
module Transforms {
  import opened Wrappers
  import opened Errors
  import Json
  import Records
  import Text

  /**
   * The four shipped transforms. Filter and Map carry the caller's closure; a custom
   * implementation of the `Transform` interface is not part of this model.
   */
  datatype Transform =
    | Filter(name: string, keep: Records.Record -> bool)
    | MapValue(name: string, mapper: Json.Value -> Json.Value)
    | Enrich(name: string, field: string, extra: Json.Value)
    | NormalizeStrings(name: string, fields: seq<string>)

  /** Two records agree on everything but their payload. */
  predicate SameExceptValue(a: Records.Record, b: Records.Record) {
    a.id == b.id && a.key == b.key && a.metadata == b.metadata && a.tags == b.tags
  }

  /** `EnrichTransform` on a payload: an object gets `field := extra`; any other payload is left alone. */
  function Enriched(v: Json.Value, field: string, extra: Json.Value): (r: Json.Value)
    ensures v.Obj? ==> r.Obj? && r.fields.Keys == v.fields.Keys + {field} && r.fields[field] == extra
    ensures v.Obj? ==> forall k :: k in v.fields && k != field ==> r.fields[k] == v.fields[k]
    ensures !v.Obj? ==> r == v
  {
    if v.Obj? then Json.Obj(v.fields[field := extra]) else v
  }

  /** Enriching twice with the same field and value is enriching once. */
  lemma EnrichIdempotent(v: Json.Value, field: string, extra: Json.Value)
    ensures Enriched(Enriched(v, field, extra), field, extra) == Enriched(v, field, extra)
  {
  }

  /** One member after normalization: strings are trimmed and lower-cased, all else kept. */
  function NormalizeEntry(v: Json.Value): Json.Value {
    if v.Str? then Json.Str(Text.Normalize(v.s)) else v
  }

  lemma NormalizeEntryIdempotent(v: Json.Value)
    ensures NormalizeEntry(NormalizeEntry(v)) == NormalizeEntry(v)
  {
    if v.Str? {
      Text.NormalizeIdempotent(v.s);
    }
  }

  /**
   * `NormalizeTransform` on a payload, member by member: exactly the listed members
   * that are strings change; other members, and payloads that are not objects, stay.
   */
  function Normalized(v: Json.Value, fields: seq<string>): (r: Json.Value)
    ensures v.Obj? ==> r.Obj? && r.fields.Keys == v.fields.Keys
    ensures v.Obj? ==> forall k :: k in v.fields ==>
      r.fields[k] == if k in fields && v.fields[k].Str? then Json.Str(Text.Normalize(v.fields[k].s)) else v.fields[k]
    ensures !v.Obj? ==> r == v
  {
    if v.Obj? then Json.Obj(map k | k in v.fields :: if k in fields then NormalizeEntry(v.fields[k]) else v.fields[k])
    else v
  }

  /** Normalizing twice is normalizing once (strings are ASCII in this model). */
  lemma NormalizedIdempotent(v: Json.Value, fields: seq<string>)
    ensures Normalized(Normalized(v, fields), fields) == Normalized(v, fields)
  {
    if v.Obj? {
      var once := Normalized(v, fields);
      var twice := Normalized(once, fields);
      forall k | k in v.fields ensures twice.fields[k] == once.fields[k] {
        NormalizeEntryIdempotent(v.fields[k]);
      }
    }
  }

  /** What a transform does to a record. Only the filter can fail, and only the payload ever changes. */
  function Spec(t: Transform, r: Records.Record): (res: Result<Records.Record, Error>)
    ensures res.Failure? ==> t.Filter? && res.error == Processing("Record filtered out")
    ensures res.Success? ==> SameExceptValue(res.value, r)
    ensures t.Filter? ==> (res.Success? <==> t.keep(r)) && (res.Success? ==> res.value == r)
    ensures t.MapValue? ==> res.Success? && res.value.value == t.mapper(r.value)
    ensures t.Enrich? ==> res.Success? && res.value.value == Enriched(r.value, t.field, t.extra)
    ensures t.NormalizeStrings? ==> res.Success? && res.value.value == Normalized(r.value, t.fields)
  {
    match t
    case Filter(_, p) => if p(r) then Success(r) else Failure(Processing("Record filtered out"))
    case MapValue(_, f) => Success(r.(value := f(r.value)))
    case Enrich(_, field, x) => Success(r.(value := Enriched(r.value, field, x)))
    case NormalizeStrings(_, fields) => Success(r.(value := Normalized(r.value, fields)))
  }

  /** One member after normalizing one more field. */
  lemma NormalizedSnocAt(obj: map<string, Json.Value>, fs: seq<string>, f: string, k: string)
    requires k in obj
    ensures var m := Normalized(Json.Obj(obj), fs).fields;
      Normalized(Json.Obj(obj), fs + [f]).fields[k]
        == if k == f && m[k].Str? then Json.Str(Text.Normalize(m[k].s)) else m[k]
  {
    assert (k in fs + [f]) <==> (k in fs || k == f);
    if k == f && obj[f].Str? && f in fs {
      Text.NormalizeIdempotent(obj[f].s);
    }
  }

  /** Normalizing one more field changes at most that member, and only if it is a string. */
  lemma NormalizedSnoc(obj: map<string, Json.Value>, fs: seq<string>, f: string)
    ensures var m := Normalized(Json.Obj(obj), fs).fields;
      Normalized(Json.Obj(obj), fs + [f]).fields
        == if f in m && m[f].Str? then m[f := Json.Str(Text.Normalize(m[f].s))] else m
  {
    var m := Normalized(Json.Obj(obj), fs).fields;
    var n := Normalized(Json.Obj(obj), fs + [f]).fields;
    var expected := if f in m && m[f].Str? then m[f := Json.Str(Text.Normalize(m[f].s))] else m;
    forall k | k in obj ensures n[k] == expected[k] {
      NormalizedSnocAt(obj, fs, f, k);
    }
    assert n == expected;
  }

  /** The loop of `NormalizeTransform::transform`, rewriting the object's members in place. */
  method NormalizeMembers(obj: map<string, Json.Value>, fields: seq<string>) returns (out: map<string, Json.Value>)
    ensures Json.Obj(out) == Normalized(Json.Obj(obj), fields)
  {
    out := obj;
    var i := 0;
    assert fields[..0] == [];
    while i < |fields|
      invariant 0 <= i <= |fields|
      invariant Json.Obj(out) == Normalized(Json.Obj(obj), fields[..i])
    {
      var f := fields[i];
      assert fields[..i + 1] == fields[..i] + [f];
      NormalizedSnoc(obj, fields[..i], f);
      if f in out && out[f].Str? {
        out := out[f := Json.Str(Text.Normalize(out[f].s))];
      }
      i := i + 1;
    }
    assert fields[..i] == fields;
  }

  /**
   * `Transform::transform` for the shipped transforms. The filter, map and enrich
   * transforms compute no more than `Spec` states; the normalize transform rewrites the
   * payload's members one at a time.
   */
  method Apply(t: Transform, r: Records.Record) returns (res: Result<Records.Record, Error>)
    ensures res == Spec(t, r)
  {
    if t.NormalizeStrings? {
      var v := r.value;
      if v.Obj? {
        var members := NormalizeMembers(v.fields, t.fields);
        v := Json.Obj(members);
      }
      res := Success(r.(value := v));
    } else {
      res := Spec(t, r);
    }
  }

  /** The transforms in order, stopping at the first error. */
  function ApplyAll(ts: seq<Transform>, r: Records.Record): (res: Result<Records.Record, Error>)
    ensures res.Success? ==> SameExceptValue(res.value, r)
    ensures res.Failure? ==> res.error == Processing("Record filtered out")
    ensures res.Failure? ==> exists i :: 0 <= i < |ts| && ts[i].Filter?
  {
    if ts == [] then Success(r)
    else match Spec(ts[0], r)
      case Failure(e) => Failure(e)
      case Success(r') => ApplyAll(ts[1..], r')
  }

  /** Without a filter among them, the transforms never fail. */
  lemma {:induction false} ApplyAllWithoutFilterSucceeds(ts: seq<Transform>, r: Records.Record)
    requires forall i :: 0 <= i < |ts| ==> !ts[i].Filter?
    ensures ApplyAll(ts, r).Success?
  {
    if ts != [] {
      ApplyAllWithoutFilterSucceeds(ts[1..], Spec(ts[0], r).value);
    }
  }
}
