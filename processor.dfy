/**
 * The processor (`src/processor.rs`): a table of records, a registry of named transforms,
 * and the `process` / `process_batch` operations that run every registered transform over
 * a record and keep the table up to date. Records in a batch are processed one after the
 * other, in input order.
 */
module Processing {
  import opened Wrappers
  import opened Errors
  import opened Records
  import Text
  import Config
  import Transforms

  /** `ProcessingResult` without the measured duration. */
  datatype ProcessingResult = ProcessingResult(record: Record, success: bool, error: Option<string>)

  /** No two registered transforms share a name: the registry is keyed by name. */
  predicate DistinctNames(ts: seq<Transforms.Transform>) {
    forall i, j :: 0 <= i < j < |ts| ==> ts[i].name != ts[j].name
  }


  /** The position of the transform registered under `name`, if there is one. */
  function Find(ts: seq<Transforms.Transform>, name: string): (r: Option<nat>)
    ensures r.Some? ==> r.value < |ts| && ts[r.value].name == name
    ensures r.None? <==> forall i :: 0 <= i < |ts| ==> ts[i].name != name
  {
    if ts == [] then None
    else if ts[0].name == name then Some(0)
    else match Find(ts[1..], name)
      case None => None
      case Some(k) => Some(k + 1)
  }

  /** The transform registered under `name`, if there is one: the registry read as a map. */
  function Lookup(ts: seq<Transforms.Transform>, name: string): (r: Option<Transforms.Transform>)
    ensures r.Some? ==> r.value in ts && r.value.name == name
    ensures r.None? <==> forall i :: 0 <= i < |ts| ==> ts[i].name != name
  {
    match Find(ts, name)
    case None => None
    case Some(i) => Some(ts[i])
  }

  /**
   * `process`, as a function of the registry, the record and the clock: the record is
   * marked processing, every transform runs in registry order, and on success the result
   * is marked completed; on failure the result is the record as it was stored before the
   * transforms ran, together with the error's text.
   */
  function ProcessSpec(registry: seq<Transforms.Transform>, record: Record, now: Timestamp): (res: ProcessingResult)
    ensures res.record.id == record.id && res.record.key == record.key
    ensures res.record.tags == record.tags && res.record.metadata.source == record.metadata.source
    ensures res.record.metadata.processCount == record.metadata.processCount + 1
    ensures res.record.metadata.failureCount == record.metadata.failureCount
    ensures res.record.metadata.updatedAt == now
    ensures res.success ==> res.error == None && res.record.metadata.status == Completed
    ensures !res.success ==> res.record == record.MarkProcessing(now)
    ensures !res.success ==> res.error == Some("Processing error: Record filtered out")
    ensures !res.success ==> exists i :: 0 <= i < |registry| && registry[i].Filter?
  {
    var p := record.MarkProcessing(now);
    match Transforms.ApplyAll(registry, p)
    case Success(done) => ProcessingResult(done.MarkCompleted(now), true, None)
    case Failure(e) =>
      FilteredOutText();
      ProcessingResult(p, false, Some(Display(e)))
  }

  /** The text of the error a filter raises. */
  lemma FilteredOutText()
    ensures Display(Error.Processing("Record filtered out")) == "Processing error: Record filtered out"
  {
    var e := Error.Processing("Record filtered out");
    assert Heading(e) == "Processing error: " && Payload(e) == "Record filtered out";
  }

  /** The table after storing each result's record, in order. */
  function Recorded(m: map<Uuid, Record>, rs: seq<ProcessingResult>): map<Uuid, Record> {
    if rs == [] then m
    else
      var last := rs[|rs| - 1];
      Recorded(m, rs[..|rs| - 1])[last.record.id := last.record]
  }

  /** The ids of the results' records. */
  function Ids(rs: seq<ProcessingResult>): set<Uuid> {
    set i | 0 <= i < |rs| :: rs[i].record.id
  }

  /** The ids the table holds after a batch: those it held and those of the batch's records. */
  lemma {:induction false} RecordedKeys(m: map<Uuid, Record>, rs: seq<ProcessingResult>)
    ensures Recorded(m, rs).Keys == m.Keys + Ids(rs)
  {
    if rs != [] {
      var init := rs[..|rs| - 1];
      RecordedKeys(m, init);
      assert Ids(rs) == Ids(init) + {rs[|rs| - 1].record.id} by {
        forall x | x in Ids(rs)
          ensures x in Ids(init) + {rs[|rs| - 1].record.id}
        {
          var i :| 0 <= i < |rs| && rs[i].record.id == x;
          if i < |init| {
            assert init[i] == rs[i];
          }
        }
        forall x | x in Ids(init)
          ensures x in Ids(rs)
        {
          var i :| 0 <= i < |init| && init[i].record.id == x;
          assert rs[i] == init[i];
        }
      }
    }
  }

  /** After a batch, each id holds the record of the last result that carries it. */
  lemma {:induction false} RecordedLastWins(m: map<Uuid, Record>, rs: seq<ProcessingResult>, i: nat)
    requires i < |rs|
    requires forall j :: i < j < |rs| ==> rs[j].record.id != rs[i].record.id
    ensures rs[i].record.id in Recorded(m, rs)
    ensures Recorded(m, rs)[rs[i].record.id] == rs[i].record
  {
    if i < |rs| - 1 {
      var init := rs[..|rs| - 1];
      assert init[i] == rs[i];
      forall j | i < j < |init| ensures init[j].record.id != init[i].record.id {
        assert init[j] == rs[j];
      }
      RecordedLastWins(m, init, i);
    }
  }

  /** A registry without filters processes every record successfully. */
  lemma ProcessWithoutFiltersSucceeds(registry: seq<Transforms.Transform>, record: Record, now: Timestamp)
    requires forall i :: 0 <= i < |registry| ==> !registry[i].Filter?
    ensures ProcessSpec(registry, record, now).success
  {
    Transforms.ApplyAllWithoutFilterSucceeds(registry, record.MarkProcessing(now));
  }

  /** With no transforms registered, processing only marks the record completed. */
  lemma EmptyRegistryCompletes(record: Record, now: Timestamp)
    ensures ProcessSpec([], record, now).record == record.MarkProcessing(now).MarkCompleted(now)
    ensures ProcessSpec([], record, now).record.value == record.value
  {
  }

  /** The error of an oversized batch. */
  function BatchTooLarge(size: nat, max: nat): (e: Error)
    ensures e.Processing?
    ensures e.msg == "Batch size " + Text.Decimal(size) + " exceeds maximum of " + Text.Decimal(max)
    ensures Display(e) == "Processing error: " + e.msg
  {
    var e := Error.Processing("Batch size " + Text.Decimal(size) + " exceeds maximum of " + Text.Decimal(max));
    assert Heading(e) == "Processing error: " && Payload(e) == e.msg;
    e
  }

  /**
   * `Processor`. Between calls no task is active: the calls of this model run one at a time,
   * so the count of active tasks is one while `process` runs and zero otherwise.
   */
  class Processor {
    const config: Config.ProcessorConfig
    var records: map<Uuid, Record>
    var activeTasks: nat
    var registry: seq<Transforms.Transform>

    ghost predicate Valid()
      reads this
    {
      Config.Validate(config).Pass? && activeTasks == 0 && DistinctNames(registry)
    }

    constructor (config: Config.ProcessorConfig)
      requires Config.Validate(config).Pass?
      ensures Valid() && this.config == config && records == map[] && registry == []
    {
      this.config := config;
      records := map[];
      activeTasks := 0;
      registry := [];
    }

    /** `Processor::new`: refuses a configuration that does not validate, with its error. */
    static method New(config: Config.ProcessorConfig) returns (res: Result<Processor, Error>)
      ensures res.Success? <==> Config.Validate(config).Pass?
      ensures res.Failure? ==> Config.Validate(config) == Fail(res.error)
      ensures res.Success? ==> fresh(res.value) && res.value.Valid() && res.value.config == config
      ensures res.Success? ==> res.value.records == map[] && res.value.registry == []
    {
      var v := Config.Validate(config);
      if v.Fail? {
        return Failure(v.error);
      }
      var p := new Processor(config);
      return Success(p);
    }

    /**
     * `process_internal`: the registered transforms in registry order, stopping at the
     * first error; on success the record is marked completed and stored again.
     */
    method ProcessInternal(record: Record, now: Timestamp) returns (res: Result<Record, Error>)
      modifies this`records
      ensures res.Success? <==> Transforms.ApplyAll(registry, record).Success?
      ensures res.Success? ==> res.value == Transforms.ApplyAll(registry, record).value.MarkCompleted(now)
      ensures res.Success? ==> records == old(records)[res.value.id := res.value]
      ensures res.Failure? ==> res.error == Transforms.ApplyAll(registry, record).error && records == old(records)
    {
      var cur := record;
      var i := 0;
      while i < |registry|
        invariant 0 <= i <= |registry|
        invariant Transforms.ApplyAll(registry, record) == Transforms.ApplyAll(registry[i..], cur)
        invariant records == old(records)
      {
        assert registry[i..][1..] == registry[i + 1..];
        var step := Transforms.Apply(registry[i], cur);
        if step.Failure? {
          return Failure(step.error);
        }
        cur := step.value;
        i := i + 1;
      }
      assert registry[i..] == [];
      cur := cur.MarkCompleted(now);
      records := records[cur.id := cur];
      return Success(cur);
    }

    /**
     * `process`: one more active task while the record is processed; the record is
     * stored as processing, then as completed if every transform accepts it.
     */
    method Process(record: Record, now: Timestamp) returns (res: ProcessingResult)
      requires Valid()
      modifies this
      ensures Valid() && registry == old(registry)
      ensures res == ProcessSpec(registry, record, now)
      ensures records == old(records)[record.id := res.record]
    {
      activeTasks := activeTasks + 1;
      assert activeTasks <= config.maxWorkers;
      var p := record.MarkProcessing(now);
      records := records[p.id := p];
      var result := ProcessInternal(p, now);
      activeTasks := activeTasks - 1;
      match result {
        case Success(done) =>
          res := ProcessingResult(done, true, None);
        case Failure(e) =>
          res := ProcessingResult(records[record.id], false, Some(Display(e)));
      }
    }

    /**
     * `process_batch`: a batch larger than the configured maximum is refused before
     * anything is processed; otherwise every record is processed and gets one result,
     * in input order.
     */
    method ProcessBatch(batch: seq<Record>, now: Timestamp) returns (res: Result<seq<ProcessingResult>, Error>)
      requires Valid()
      modifies this
      ensures Valid() && registry == old(registry)
      ensures |batch| > config.maxBatchSize ==>
        res == Failure(BatchTooLarge(|batch|, config.maxBatchSize)) && records == old(records)
      ensures |batch| <= config.maxBatchSize ==> res.Success? && |res.value| == |batch|
      ensures |batch| <= config.maxBatchSize ==>
        forall i :: 0 <= i < |batch| ==> res.value[i] == ProcessSpec(registry, batch[i], now)
      ensures res.Success? ==> records == Recorded(old(records), res.value)
    {
      if |batch| > config.maxBatchSize {
        return Failure(BatchTooLarge(|batch|, config.maxBatchSize));
      }
      var results: seq<ProcessingResult> := [];
      var i := 0;
      while i < |batch|
        invariant 0 <= i <= |batch|
        invariant Valid() && registry == old(registry)
        invariant |results| == i
        invariant forall j :: 0 <= j < i ==> results[j] == ProcessSpec(registry, batch[j], now)
        invariant records == Recorded(old(records), results)
      {
        var r := Process(batch[i], now);
        assert (results + [r])[..i] == results;
        forall j | 0 <= j < i + 1
          ensures (results + [r])[j] == ProcessSpec(registry, batch[j], now)
        {
          if j < i {
            assert (results + [r])[j] == results[j];
          }
        }
        results := results + [r];
        i := i + 1;
      }
      return Success(results);
    }

    /**
     * `register_transform`: a transform replaces the one registered under the same name,
     * in its place; a new name joins the registry at a position the model leaves open,
     * since the iteration order of the source's map is unspecified.
     */
    method RegisterTransform(t: Transforms.Transform)
      requires Valid()
      modifies this`registry
      ensures Valid()
      ensures Lookup(registry, t.name) == Some(t)
      ensures forall n :: n != t.name ==> Lookup(registry, n) == Lookup(old(registry), n)
      ensures Find(old(registry), t.name).Some? ==> registry == old(registry)[Find(old(registry), t.name).value := t]
      ensures Find(old(registry), t.name).None? ==> |registry| == |old(registry)| + 1
    {
      ghost var before := registry;
      var f := Find(registry, t.name);
      if f.Some? {
        ReplaceKeepsDistinct(registry, f.value, t);
        registry := registry[f.value := t];
        forall n ensures Lookup(registry, n) == if n == t.name then Some(t) else Lookup(before, n) {
          ReplaceLookup(before, f.value, t, n);
        }
      } else {
        var k :| 0 <= k <= |registry|;
        InsertKeepsDistinct(registry, k, t);
        registry := registry[..k] + [t] + registry[k..];
        forall n ensures Lookup(registry, n) == if n == t.name then Some(t) else Lookup(before, n) {
          InsertLookup(before, k, t, n);
        }
      }
    }

    /** `get_record`. */
    function GetRecord(id: Uuid): (r: Option<Record>)
      reads this
      ensures r.Some? <==> id in records
      ensures r.Some? ==> r.value == records[id]
    {
      if id in records then Some(records[id]) else None
    }

    /** `total_records`. */
    function TotalRecords(): (n: nat)
      reads this
      ensures n == |records.Keys|
    {
      |records|
    }

    /** `active_tasks`. */
    function ActiveTasks(): (n: nat)
      reads this
      ensures Valid() ==> n == 0
    {
      activeTasks
    }

    /** `clear_records`. */
    method ClearRecords()
      modifies this`records
      ensures records == map[]
    {
      records := map[];
    }
  }

  /** With distinct names, each transform is what its own name looks up. */
  lemma LookupAt(ts: seq<Transforms.Transform>, i: nat)
    requires DistinctNames(ts) && i < |ts|
    ensures Lookup(ts, ts[i].name) == Some(ts[i])
  {
    var j := Find(ts, ts[i].name).value;
    assert ts[j].name == ts[i].name;
  }

  /** Replacing a transform by one of the same name, in place, keeps the names distinct. */
  lemma ReplaceKeepsDistinct(ts: seq<Transforms.Transform>, k: nat, t: Transforms.Transform)
    requires DistinctNames(ts) && k < |ts| && ts[k].name == t.name
    ensures DistinctNames(ts[k := t])
  {
    var us := ts[k := t];
    forall i, j | 0 <= i < j < |us| ensures us[i].name != us[j].name {
      assert us[i].name == ts[i].name && us[j].name == ts[j].name;
    }
  }

  /** Replacing a transform by one of the same name, in place, changes only that name's lookup. */
  lemma ReplaceLookup(ts: seq<Transforms.Transform>, k: nat, t: Transforms.Transform, n: string)
    requires DistinctNames(ts) && k < |ts| && ts[k].name == t.name
    ensures Lookup(ts[k := t], n) == if n == t.name then Some(t) else Lookup(ts, n)
  {
    var us := ts[k := t];
    ReplaceKeepsDistinct(ts, k, t);
    if n == t.name {
      LookupAt(us, k);
    } else {
      var f := Find(ts, n);
      if f.Some? {
        LookupAt(ts, f.value);
        LookupAt(us, f.value);
      } else {
        assert forall i :: 0 <= i < |us| ==> us[i].name != n by {
          forall i | 0 <= i < |us| ensures us[i].name != n {
            if i != k {
              assert us[i] == ts[i];
            }
          }
        }
      }
    }
  }

  /** Where the elements of `ts` sit once `t` is inserted at position `k`. */
  lemma InsertPositions(ts: seq<Transforms.Transform>, k: nat, t: Transforms.Transform)
    requires k <= |ts|
    ensures var us := ts[..k] + [t] + ts[k..];
      |us| == |ts| + 1 && us[k] == t
      && (forall i :: 0 <= i < k ==> us[i] == ts[i])
      && (forall i :: k < i < |us| ==> us[i] == ts[i - 1])
  {
  }

  /** Inserting a transform under a new name, anywhere, keeps the names distinct. */
  lemma InsertKeepsDistinct(ts: seq<Transforms.Transform>, k: nat, t: Transforms.Transform)
    requires DistinctNames(ts) && k <= |ts|
    requires forall i :: 0 <= i < |ts| ==> ts[i].name != t.name
    ensures DistinctNames(ts[..k] + [t] + ts[k..])
  {
    var us := ts[..k] + [t] + ts[k..];
    InsertPositions(ts, k, t);
    forall i, j | 0 <= i < j < |us| ensures us[i].name != us[j].name {
      if j < k {
      } else if i < k && j == k {
      } else if i < k {
        assert us[j] == ts[j - 1];
      } else if i == k {
        assert us[j] == ts[j - 1];
      } else {
        assert us[i] == ts[i - 1] && us[j] == ts[j - 1];
      }
    }
  }

  /** Inserting a transform under a new name, anywhere, adds that name and changes no other lookup. */
  lemma InsertLookup(ts: seq<Transforms.Transform>, k: nat, t: Transforms.Transform, n: string)
    requires DistinctNames(ts) && k <= |ts|
    requires forall i :: 0 <= i < |ts| ==> ts[i].name != t.name
    ensures Lookup(ts[..k] + [t] + ts[k..], n) == if n == t.name then Some(t) else Lookup(ts, n)
  {
    var us := ts[..k] + [t] + ts[k..];
    InsertPositions(ts, k, t);
    InsertKeepsDistinct(ts, k, t);
    if n == t.name {
      LookupAt(us, k);
    } else {
      var f := Find(ts, n);
      if f.Some? {
        var i: int := f.value;
        var j: int := if i < k then i else i + 1;
        assert us[j] == ts[i];
        LookupAt(ts, i);
        LookupAt(us, j);
      } else {
        assert forall j :: 0 <= j < |us| ==> us[j].name != n by {
          forall j | 0 <= j < |us| ensures us[j].name != n {
            if j < k {
              assert us[j] == ts[j];
            } else if j > k {
              assert us[j] == ts[j - 1];
            }
          }
        }
      }
    }
  }
}
