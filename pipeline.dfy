/** Pipelines: ordered, fail-fast chains of validation, transform and storage stages (`src/pipeline.rs`). */
module Pipelines {
  import opened Wrappers
  import opened Errors
  import opened Records
  import Json
  import Text
  import Validation
  import Transforms
  import Storage

  /**
   * The three stage kinds. A validation stage holds the validator's rules: a validator
   * shared behind `Arc` can no longer gain rules. A storage stage stores into an
   * in-memory table.
   */
  datatype Stage =
    | ValidationStage(rules: seq<Validation.Rule>)
    | TransformStage(transform: Transforms.Transform)
    | StorageStage(target: Storage.InMemoryStorage)

  /** `PipelineStage::name`. */
  function StageName(s: Stage): (r: string)
    ensures s.ValidationStage? ==> r == "validation"
    ensures s.TransformStage? ==> r == s.transform.name
    ensures s.StorageStage? ==> r == "storage"
  {
    match s
    case ValidationStage(_) => "validation"
    case TransformStage(t) => t.name
    case StorageStage(_) => "storage"
  }

  /**
   * What one stage's `execute` returns: a validation stage passes the record on unchanged
   * or fails with the validator's error; a transform stage returns the transform's result;
   * a storage stage returns the record it stored.
   */
  function StageStep(s: Stage, r: Record): (res: Result<Record, Error>)
    ensures s.ValidationStage? ==> (res.Success? <==> Validation.CheckAll(s.rules, r).Pass?)
    ensures s.ValidationStage? && res.Success? ==> res.value == r
    ensures s.ValidationStage? && res.Failure? ==> Validation.CheckAll(s.rules, r) == Fail(res.error)
    ensures s.TransformStage? ==> res == Transforms.Spec(s.transform, r)
    ensures s.StorageStage? ==> res == Success(r)
  {
    match s
    case ValidationStage(rules) =>
      (match Validation.CheckAll(rules, r)
       case Pass => Success(r)
       case Fail(e) => Failure(e))
    case TransformStage(t) => Transforms.Spec(t, r)
    case StorageStage(_) => Success(r)
  }

  /** A record stored into a table by a storage stage. */
  datatype Write = Write(target: Storage.InMemoryStorage, record: Record)

  /** The outcome of running stages: the result, and the stores made on the way, in order. */
  datatype Run = Run(result: Result<Record, Error>, writes: seq<Write>)

  /** The tables the storage stages write to. */
  function Targets(stages: seq<Stage>): set<Storage.InMemoryStorage> {
    set i | 0 <= i < |stages| && stages[i].StorageStage? :: stages[i].target
  }

  /** `Pipeline::execute` as a function: stages left to right, each fed the previous one's output. */
  function RunStages(stages: seq<Stage>, r: Record): (run: Run)
    ensures forall w :: w in run.writes ==> w.target in Targets(stages)
    ensures |run.writes| <= |stages|
  {
    if stages == [] then Run(Success(r), [])
    else match StageStep(stages[0], r)
      case Failure(e) => Run(Failure(e), [])
      case Success(r') =>
        var rest := RunStages(stages[1..], r');
        assert forall w :: w in rest.writes ==> w.target in Targets(stages) by {
          forall w | w in rest.writes ensures w.target in Targets(stages) {
            var j :| 0 <= j < |stages[1..]| && stages[1..][j].StorageStage? && stages[1..][j].target == w.target;
            assert stages[j + 1] == stages[1..][j];
          }
        }
        var here := if stages[0].StorageStage? then [Write(stages[0].target, r)] else [];
        Run(rest.result, here + rest.writes)
  }

  /** A run whose earlier stores are `ws`. */
  function After(ws: seq<Write>, run: Run): Run {
    Run(run.result, ws + run.writes)
  }

  /** The table `s` after the stores `ws` that target it, applied in order to `m`. */
  function ApplyWrites(m: map<Uuid, Record>, ws: seq<Write>, s: Storage.InMemoryStorage): map<Uuid, Record> {
    if ws == [] then m
    else
      var prev := ApplyWrites(m, ws[..|ws| - 1], s);
      var w := ws[|ws| - 1];
      if w.target == s then prev[w.record.id := w.record] else prev
  }

  /** A pipeline without stages returns its input unchanged and stores nothing. */
  lemma EmptyPipelineIsIdentity(r: Record)
    ensures RunStages([], r) == Run(Success(r), [])
  {
  }

  /** Running `a + b` is running `a`, then, if that succeeded, running `b` on its output. */
  lemma {:induction false} RunAppend(a: seq<Stage>, b: seq<Stage>, r: Record)
    ensures var ra := RunStages(a, r);
      RunStages(a + b, r) == if ra.result.Failure? then ra else After(ra.writes, RunStages(b, ra.result.value))
  {
    if a == [] {
      assert a + b == b;
    } else {
      assert (a + b)[0] == a[0];
      assert (a + b)[1..] == a[1..] + b;
      match StageStep(a[0], r)
      case Failure(e) =>
      case Success(r') =>
        RunAppend(a[1..], b, r');
    }
  }

  /**
   * Fail-fast: when stage `st` fails on what the stages before it produced, the run fails
   * with that error, and the stores made are exactly those of the earlier stages, whatever follows.
   */
  lemma FailFast(pre: seq<Stage>, st: Stage, post: seq<Stage>, r: Record)
    requires RunStages(pre, r).result.Success?
    requires StageStep(st, RunStages(pre, r).result.value).Failure?
    ensures RunStages(pre + [st] + post, r)
            == Run(Failure(StageStep(st, RunStages(pre, r).result.value).error), RunStages(pre, r).writes)
  {
    assert pre + [st] + post == pre + ([st] + post);
    RunAppend(pre, [st] + post, r);
  }

  /** A record the validation stage rejects never reaches a storage stage that follows it. */
  lemma RejectedRecordIsNotStored(rules: seq<Validation.Rule>, post: seq<Stage>, r: Record)
    requires Validation.CheckAll(rules, r).Fail?
    ensures RunStages([ValidationStage(rules)] + post, r) == Run(Failure(Validation.CheckAll(rules, r).error), [])
  {
    FailFast([], ValidationStage(rules), post, r);
    assert [] + [ValidationStage(rules)] + post == [ValidationStage(rules)] + post;
  }

  /** `Pipeline`: a name and the stages appended to it. */
  class Pipeline {
    const name: string
    var stages: seq<Stage>

    /** `Pipeline::new`: no stages. */
    constructor (name: string)
      ensures this.name == name && stages == []
    {
      this.name := name;
      stages := [];
    }

    /** `add_stage`: the stage goes last. */
    method AddStage(s: Stage)
      modifies this
      ensures stages == old(stages) + [s]
      ensures StageCount() == old(StageCount()) + 1
    {
      stages := stages + [s];
    }

    /** `stage_count`. */
    function StageCount(): (n: nat)
      reads this
      ensures n == |stages|
    {
      |stages|
    }

    /**
     * `execute`: runs the stages in append order, feeding each stage the previous one's
     * output, and returns the first error at once. Each table the stages write to ends up
     * with exactly the stores of the run applied.
     */
    method Execute(r: Record) returns (res: Result<Record, Error>)
      modifies Targets(stages)
      ensures res == RunStages(stages, r).result
      ensures forall s :: s in Targets(stages) ==> s.records == ApplyWrites(old(s.records), RunStages(stages, r).writes, s)
    {
      var record := r;
      var i := 0;
      ghost var writes: seq<Write> := [];
      while i < |stages|
        invariant 0 <= i <= |stages|
        invariant RunStages(stages, r) == After(writes, RunStages(stages[i..], record))
        invariant forall s :: s in Targets(stages) ==> s.records == ApplyWrites(old(s.records), writes, s)
      {
        var st := stages[i];
        ghost var here := Stored(st, record);
        var out := ExecuteStage(st, record);
        if out.Failure? {
          RunFails(stages, i, r, record, writes);
          return out;
        }
        RunAdvances(stages, i, r, record, writes);
        forall s | s in Targets(stages)
          ensures s.records == ApplyWrites(old(s.records), writes + here, s)
        {
          ApplyWritesSnoc(old(s.records), writes, here, s);
        }
        writes := writes + here;
        record := out.value;
        i := i + 1;
      }
      assert stages[i..] == [] && writes + [] == writes;
      return Success(record);
    }
  }

  /** The store a stage makes when it runs on `r`: one for a storage stage, none otherwise. */
  function Stored(st: Stage, r: Record): (ws: seq<Write>)
    ensures st.StorageStage? ==> ws == [Write(st.target, r)]
    ensures !st.StorageStage? ==> ws == []
  {
    if st.StorageStage? then [Write(st.target, r)] else []
  }

  /** One step of a run: the stage at `i`, then the rest. */
  lemma RunStep(stages: seq<Stage>, i: nat, r: Record)
    requires i < |stages|
    ensures RunStages(stages[i..], r) ==
      match StageStep(stages[i], r)
      case Failure(e) => Run(Failure(e), [])
      case Success(r') => After(Stored(stages[i], r), RunStages(stages[i + 1..], r'))
  {
    assert stages[i..][0] == stages[i] && stages[i..][1..] == stages[i + 1..];
  }

  /** A run that has made `writes` and now fails at stage `i` ends with that failure and those writes. */
  lemma RunFails(stages: seq<Stage>, i: nat, r: Record, record: Record, writes: seq<Write>)
    requires i < |stages|
    requires RunStages(stages, r) == After(writes, RunStages(stages[i..], record))
    requires StageStep(stages[i], record).Failure?
    ensures RunStages(stages, r) == Run(StageStep(stages[i], record), writes)
  {
    RunStep(stages, i, record);
    assert writes + [] == writes;
  }

  /** A run that has made `writes` and passes stage `i` goes on with that stage's store added. */
  lemma RunAdvances(stages: seq<Stage>, i: nat, r: Record, record: Record, writes: seq<Write>)
    requires i < |stages|
    requires RunStages(stages, r) == After(writes, RunStages(stages[i..], record))
    requires StageStep(stages[i], record).Success?
    ensures RunStages(stages, r)
      == After(writes + Stored(stages[i], record), RunStages(stages[i + 1..], StageStep(stages[i], record).value))
  {
    RunStep(stages, i, record);
    var rest := RunStages(stages[i + 1..], StageStep(stages[i], record).value);
    assert writes + (Stored(stages[i], record) + rest.writes) == (writes + Stored(stages[i], record)) + rest.writes;
  }

  /** Applying one more batch of at most one store. */
  lemma ApplyWritesSnoc(m: map<Uuid, Record>, ws: seq<Write>, more: seq<Write>, s: Storage.InMemoryStorage)
    requires |more| <= 1
    ensures ApplyWrites(m, ws + more, s) ==
      if more != [] && more[0].target == s then ApplyWrites(m, ws, s)[more[0].record.id := more[0].record]
      else ApplyWrites(m, ws, s)
  {
    if more == [] {
      assert ws + more == ws;
    } else {
      assert (ws + more)[..|ws + more| - 1] == ws;
    }
  }

  /**
   * One stage's `execute`: validation checks the rules, a transform applies its transform,
   * and a storage stage stores the record in its table and returns it.
   */
  method ExecuteStage(st: Stage, r: Record) returns (res: Result<Record, Error>)
    modifies if st.StorageStage? then {st.target} else {}
    ensures res == StageStep(st, r)
    ensures st.StorageStage? ==> st.target.records == old(st.target.records)[r.id := r]
  {
    match st {
      case ValidationStage(rules) =>
        var outcome := Validation.CheckAll(rules, r);
        if outcome.Fail? {
          return Failure(outcome.error);
        }
        return Success(r);
      case TransformStage(t) =>
        res := Transforms.Apply(t, r);
      case StorageStage(target) =>
        var _ := target.Store(r);
        return Success(r);
    }
  }

  /** `PipelineBuilder`: a pipeline under construction; each call appends one stage. */
  class PipelineBuilder {
    const pipeline: Pipeline

    constructor (name: string)
      ensures fresh(pipeline) && pipeline.name == name && pipeline.stages == []
    {
      pipeline := new Pipeline(name);
    }

    /** `validate`: appends one validation stage over the validator's rules. */
    method Validate(v: Validation.Validator)
      modifies pipeline
      ensures pipeline.stages == old(pipeline.stages) + [ValidationStage(v.rules)]
      ensures pipeline.StageCount() == old(pipeline.StageCount()) + 1
    {
      pipeline.AddStage(ValidationStage(v.rules));
    }

    /** `transform`: appends one transform stage. */
    method Transform(t: Transforms.Transform)
      modifies pipeline
      ensures pipeline.stages == old(pipeline.stages) + [TransformStage(t)]
      ensures pipeline.StageCount() == old(pipeline.StageCount()) + 1
      ensures StageName(pipeline.stages[old(pipeline.StageCount())]) == t.name
    {
      pipeline.AddStage(TransformStage(t));
    }

    /** `store`: appends one storage stage. */
    method Store(s: Storage.InMemoryStorage)
      modifies pipeline
      ensures pipeline.stages == old(pipeline.stages) + [StorageStage(s)]
      ensures pipeline.StageCount() == old(pipeline.StageCount()) + 1
    {
      pipeline.AddStage(StorageStage(s));
    }

    /** `build`: the pipeline as built. */
    method Build() returns (p: Pipeline)
      ensures p == pipeline
    {
      p := pipeline;
    }
  }
}

/** End-to-end runs of the pipeline [require "email", normalize "name", store]. */
module PipelineScenarios {
  import opened Wrappers
  import opened Records
  import Json
  import Text
  import Errors
  import Validation
  import Transforms
  import Storage
  import opened Pipelines

  /** A user record's payload: a name and, optionally, an email. */
  function Payload(name: string, email: Option<string>): Json.Value {
    if email.Some? then Json.Obj(map["name" := Json.Str(name), "email" := Json.Str(email.value)])
    else Json.Obj(map["name" := Json.Str(name)])
  }

  /** The stages the scenario's builder produces. */
  function UsersStages(storage: Storage.InMemoryStorage): seq<Stage> {
    [ValidationStage([Validation.RequiredField("email")]),
     TransformStage(Transforms.NormalizeStrings("normalize", ["name"])),
     StorageStage(storage)]
  }

  lemma NormalizeShout()
    ensures Text.Normalize("  JOHN  ") == "john"
  {
    var padded, once, word := "  JOHN  ", " JOHN  ", "JOHN  ";
    assert padded[1..] == once && once[1..] == word;
    assert Text.TrimStart(word) == word by {
      assert !Text.IsWhitespace(word[0]);
    }
    assert Text.TrimStart(padded) == word by {
      assert Text.IsWhitespace(padded[0]) && Text.IsWhitespace(once[0]);
      assert Text.TrimStart(padded) == Text.TrimStart(once);
    }
    var shorter, name := "JOHN ", "JOHN";
    assert word[..5] == shorter && shorter[..4] == name;
    assert Text.TrimEnd(name) == name by {
      assert !Text.IsWhitespace(name[3]);
    }
    assert Text.TrimEnd(word) == name by {
      assert Text.IsWhitespace(word[5]) && Text.IsWhitespace(shorter[4]);
      assert Text.TrimEnd(word) == Text.TrimEnd(shorter);
    }
    var lower := Text.ToLower(name);
    assert lower[0] == 'j' && lower[1] == 'o' && lower[2] == 'h' && lower[3] == 'n';
    assert lower == "john";
  }

  /** Normalizing "name" changes the name member only. */
  lemma NormalizedPayload(name: string, email: string)
    ensures Transforms.Normalized(Payload(name, Some(email)), ["name"]) == Payload(Text.Normalize(name), Some(email))
  {
    var v := Payload(name, Some(email));
    var n := Transforms.Normalized(v, ["name"]);
    var expected := Payload(Text.Normalize(name), Some(email));
    assert n.fields.Keys == expected.fields.Keys by {
      assert v.fields.Keys == {"name", "email"} == expected.fields.Keys;
    }
    assert n.fields["email"] == expected.fields["email"] by {
      assert "email" in v.fields && "email" !in ["name"];
    }
    assert n.fields["name"] == expected.fields["name"] by {
      assert "name" in v.fields && "name" in ["name"];
    }
  }

  /** A record with an email passes, has its name normalized, and is stored exactly once. */
  lemma AcceptedRun(storage: Storage.InMemoryStorage, id: Uuid, name: string, email: string)
    ensures var run := RunStages(UsersStages(storage), New(id, "user", Payload(name, Some(email)), 0));
      run.result.Success? && run.writes == [Write(storage, run.result.value)] && run.result.value.id == id
      && run.result.value.value == Payload(Text.Normalize(name), Some(email))
  {
    var stages := UsersStages(storage);
    var r := New(id, "user", Payload(name, Some(email)), 0);
    assert Validation.CheckAll([Validation.RequiredField("email")], r).Pass?;
    assert StageStep(stages[0], r) == Success(r);
    var r1 := StageStep(stages[1], r).value;
    NormalizedPayload(name, email);
    assert stages[1..][1..] == [StorageStage(storage)];
    assert RunStages([StorageStage(storage)], r1) == Run(Success(r1), [Write(storage, r1)]);
    assert RunStages(stages[1..], r) == Run(Success(r1), [Write(storage, r1)]);
  }

  /** The table after the accepted run holds that one record. */
  lemma AcceptedTable(storage: Storage.InMemoryStorage, id: Uuid, name: string, email: string)
    ensures var t := ApplyWrites(map[], RunStages(UsersStages(storage), New(id, "user", Payload(name, Some(email)), 0)).writes, storage);
      |t.Keys| == 1 && id in t && t[id].value == Payload(Text.Normalize(name), Some(email))
  {
    var run := RunStages(UsersStages(storage), New(id, "user", Payload(name, Some(email)), 0));
    AcceptedRun(storage, id, name, email);
    var w := run.writes[0];
    assert run.writes[..0] == [];
    assert ApplyWrites(map[], run.writes, storage) == map[id := w.record];
    assert map[id := w.record].Keys == {id};
  }

  /** The accepted run on "  JOHN  " stores one record, whose name is "john". */
  lemma AcceptedJohn(storage: Storage.InMemoryStorage)
    ensures var t := ApplyWrites(map[], RunStages(UsersStages(storage), New(7, "user", Payload("  JOHN  ", Some("j@x.com")), 0)).writes, storage);
      |t.Keys| == 1 && 7 in t && t[7].value == Payload("john", Some("j@x.com"))
  {
    AcceptedTable(storage, 7, "  JOHN  ", "j@x.com");
    NormalizeShout();
  }

  /** The scenario's pipeline writes to its one table only. */
  lemma UsersTargets(storage: Storage.InMemoryStorage)
    ensures Targets(UsersStages(storage)) == {storage}
  {
    assert UsersStages(storage)[2].target == storage;
  }

  /** A record without an email is rejected with a validation error on "email" and nothing is stored. */
  lemma RejectedRun(storage: Storage.InMemoryStorage, id: Uuid)
    ensures var run := RunStages(UsersStages(storage), New(id, "user", Payload("x", None), 0));
      run.result.Failure? && run.result.error.Validation? && run.result.error.detail.field == "email"
      && run.writes == []
  {
    var r := New(id, "user", Payload("x", None), 0);
    var rules := [Validation.RequiredField("email")];
    assert Validation.Check(rules[0], r).Fail?;
    assert Validation.CheckAll(rules, r) == Validation.Check(rules[0], r);
    RejectedRecordIsNotStored(rules, UsersStages(storage)[1..], r);
    assert UsersStages(storage) == [ValidationStage(rules)] + UsersStages(storage)[1..];
  }

  /** Builds the scenario's pipeline through `PipelineBuilder`. */
  method BuildUsers(storage: Storage.InMemoryStorage) returns (p: Pipeline)
    ensures fresh(p) && p.stages == UsersStages(storage)
  {
    var validator := new Validation.Validator();
    validator.AddRule(Validation.RequiredField("email"));
    assert validator.rules == [Validation.RequiredField("email")];
    var builder := new PipelineBuilder("users");
    assert builder.pipeline.stages == [];
    assert validator.rules == [Validation.RequiredField("email")];
    builder.Validate(validator);
    assert builder.pipeline.stages == [ValidationStage([Validation.RequiredField("email")])];
    builder.Transform(Transforms.NormalizeStrings("normalize", ["name"]));
    builder.Store(storage);
    p := builder.Build();
  }

  /** Executing on a complete record leaves one stored record, named "john". */
  method Accepted() returns (count: nat, name: Json.Value)
    ensures count == 1 && name == Json.Str("john")
  {
    var storage := new Storage.InMemoryStorage();
    var p := BuildUsers(storage);
    UsersTargets(storage);
    var r := New(7, "user", Payload("  JOHN  ", Some("j@x.com")), 0);
    ghost var t := ApplyWrites(map[], RunStages(UsersStages(storage), r).writes, storage);
    AcceptedJohn(storage);
    var res := p.Execute(r);
    assert storage.records == t;
    count := storage.Count();
    assert storage.records[7].value.fields == map["name" := Json.Str("john"), "email" := Json.Str("j@x.com")];
    name := storage.records[7].value.fields["name"];
  }

  /** Executing on a record without an email fails validation and stores nothing. */
  method Rejected() returns (res: Result<Record, Errors.Error>, count: nat)
    ensures res.Failure? && res.error.Validation? && res.error.detail.field == "email"
    ensures count == 0
  {
    var storage := new Storage.InMemoryStorage();
    var p := BuildUsers(storage);
    RejectedRun(storage, 8);
    UsersTargets(storage);
    res := p.Execute(New(8, "user", Payload("x", None), 0));
    count := storage.Count();
  }
}
