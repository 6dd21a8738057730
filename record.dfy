/** Records and their lifecycle metadata (`src/record.rs`). */
module Records {
  import opened Wrappers
  import Json
  import Errors
  import Text

  /** A UUID is a 128-bit number. Fresh ones come from the caller: generation is random. */
  type Uuid = x: nat | x < 0x1_0000_0000_0000_0000_0000_0000_0000_0000

  /**
   * The hyphenated lower-case rendering of a UUID: its 32 hexadecimal digits in groups of
   * 8, 4, 4, 4 and 12, with hyphens at positions 8, 13, 18 and 23.
   */
  function UuidText(id: Uuid): (r: string)
    ensures |r| == 36
    ensures r[8] == '-' && r[13] == '-' && r[18] == '-' && r[23] == '-'
    ensures Digits(r) == Text.Hex(id, 32)
  {
    var h := Text.Hex(id, 32);
    var r := h[..8] + "-" + h[8..12] + "-" + h[12..16] + "-" + h[16..20] + "-" + h[20..];
    assert Digits(r) == h by {
      assert r[..8] == h[..8] && r[9..13] == h[8..12] && r[14..18] == h[12..16];
      assert r[19..23] == h[16..20] && r[24..] == h[20..];
      assert h == h[..8] + h[8..12] + h[12..16] + h[16..20] + h[20..];
    }
    r
  }

  /** The characters of a rendered UUID other than its four hyphens. */
  function Digits(r: string): string
    requires |r| == 36
  {
    r[..8] + r[9..13] + r[14..18] + r[19..23] + r[24..]
  }

  /** Reading the digits of the rendering back gives the id. */
  lemma UuidTextRoundTrip(id: Uuid)
    ensures Text.HexValue(Digits(UuidText(id))) == id
  {
    Text.HexRoundTrip(id, 32);
    Text.Pow16Of32();
    Text.ModUnique(id, Text.Pow16(32), 0, id);
  }

  /** Distinct ids have distinct renderings. */
  lemma UuidTextInjective(a: Uuid, b: Uuid)
    ensures UuidText(a) == UuidText(b) ==> a == b
  {
    UuidTextRoundTrip(a);
    UuidTextRoundTrip(b);
  }

  /** A reading of the wall clock; every call that reads `Utc::now()` takes it as a parameter. */
  type Timestamp = int

  datatype Status = Pending | Processing | Completed | Failed | Archived

  datatype Metadata = Metadata(
    createdAt: Timestamp,
    updatedAt: Timestamp,
    source: string,
    version: nat,
    status: Status,
    processCount: nat,
    failureCount: nat,
    lastError: Option<string>)

  /**
   * A record. Rust's `&mut self` methods on this cloneable value become
   * functions from the record before the call to the record after it.
   */
  datatype Record = Record(
    id: Uuid,
    key: string,
    value: Json.Value,
    metadata: Metadata,
    tags: map<string, string>)
  {
    /** `update_value`: a new payload, and the version goes up by exactly one. */
    function UpdateValue(v: Json.Value, now: Timestamp): (r: Record)
      ensures r.value == v && r.metadata.version == metadata.version + 1
      ensures r.metadata.updatedAt == now
      ensures r.id == id && r.key == key && r.tags == tags
      ensures r.metadata.status == metadata.status
      ensures r.metadata.processCount == metadata.processCount
      ensures r.metadata.failureCount == metadata.failureCount
      ensures r.metadata.lastError == metadata.lastError
      ensures r.metadata.source == metadata.source && r.metadata.createdAt == metadata.createdAt
    {
      this.(value := v, metadata := metadata.(updatedAt := now, version := metadata.version + 1))
    }

    /** `mark_processing`: status Processing and one more processing attempt. */
    function MarkProcessing(now: Timestamp): (r: Record)
      ensures r.metadata.status == Processing
      ensures r.metadata.processCount == metadata.processCount + 1
      ensures r.metadata.failureCount == metadata.failureCount
      ensures r.metadata.lastError == metadata.lastError
      ensures r.metadata.version == metadata.version && r.metadata.updatedAt == now
      ensures r.id == id && r.key == key && r.value == value && r.tags == tags
      ensures r.metadata.source == metadata.source && r.metadata.createdAt == metadata.createdAt
    {
      this.(metadata := metadata.(status := Processing, updatedAt := now,
                                  processCount := metadata.processCount + 1))
    }

    /** `mark_completed`: status Completed and the last error forgotten; counters untouched. */
    function MarkCompleted(now: Timestamp): (r: Record)
      ensures r.metadata.status == Completed && r.metadata.lastError == None
      ensures r.metadata.processCount == metadata.processCount
      ensures r.metadata.failureCount == metadata.failureCount
      ensures r.metadata.version == metadata.version && r.metadata.updatedAt == now
      ensures r.id == id && r.key == key && r.value == value && r.tags == tags
      ensures r.metadata.source == metadata.source && r.metadata.createdAt == metadata.createdAt
    {
      this.(metadata := metadata.(status := Completed, updatedAt := now, lastError := None))
    }

    /** `mark_failed`: status Failed, one more failure, and the error remembered. */
    function MarkFailed(error: string, now: Timestamp): (r: Record)
      ensures r.metadata.status == Failed && r.metadata.lastError == Some(error)
      ensures r.metadata.failureCount == metadata.failureCount + 1
      ensures r.metadata.processCount == metadata.processCount
      ensures r.metadata.version == metadata.version && r.metadata.updatedAt == now
      ensures r.id == id && r.key == key && r.value == value && r.tags == tags
      ensures r.metadata.source == metadata.source && r.metadata.createdAt == metadata.createdAt
    {
      this.(metadata := metadata.(status := Failed, updatedAt := now,
                                  failureCount := metadata.failureCount + 1,
                                  lastError := Some(error)))
    }

    /** `has_tag`. */
    predicate HasTag(k: string) {
      k in tags
    }

    /** `get_tag`: the tag's value exactly when the tag is present (`has_tag`). */
    function GetTag(k: string): (r: Option<string>)
      ensures r.Some? <==> HasTag(k)
      ensures r.Some? ==> r.value == tags[k]
    {
      if k in tags then Some(tags[k]) else None
    }

    /** `add_tag`: afterwards the tag is present with this value; every other tag is as it was. */
    function AddTag(k: string, v: string, now: Timestamp): (r: Record)
      ensures r.HasTag(k) && r.GetTag(k) == Some(v)
      ensures forall k' :: k' != k ==> r.GetTag(k') == GetTag(k')
      ensures r.metadata == metadata.(updatedAt := now)
      ensures r.id == id && r.key == key && r.value == value
    {
      this.(tags := tags[k := v], metadata := metadata.(updatedAt := now))
    }

    /**
     * `remove_tag`: the removed value, if any, and the record without the tag.
     * Removing an absent tag changes nothing at all, not even the update time.
     */
    function RemoveTag(k: string, now: Timestamp): (res: (Record, Option<string>))
      ensures res.1 == GetTag(k)
      ensures !res.0.HasTag(k)
      ensures forall k' :: k' != k ==> res.0.GetTag(k') == GetTag(k')
      ensures !HasTag(k) ==> res.0 == this
      ensures HasTag(k) ==> res.0.metadata == metadata.(updatedAt := now)
      ensures res.0.id == id && res.0.key == key && res.0.value == value
    {
      if k in tags then (this.(tags := tags - {k}, metadata := metadata.(updatedAt := now)), Some(tags[k]))
      else (this, None)
    }
  }

  /** The metadata every newly built record starts with. */
  predicate IsFresh(r: Record, now: Timestamp) {
    && r.metadata.createdAt == now
    && r.metadata.updatedAt == now
    && r.metadata.version == 1
    && r.metadata.status == Pending
    && r.metadata.processCount == 0
    && r.metadata.failureCount == 0
    && r.metadata.lastError == None
  }

  /** `Record::new`: a pending record, version 1, no tags, source "default". */
  function New(id: Uuid, key: string, value: Json.Value, now: Timestamp): (r: Record)
    ensures IsFresh(r, now)
    ensures r.id == id && r.key == key && r.value == value
    ensures r.tags == map[] && r.metadata.source == "default"
  {
    Record(id, key, value, Metadata(now, now, "default", 1, Pending, 0, 0, None), map[])
  }

  /** `RecordBuilder`: every part optional until `build`. */
  datatype RecordBuilder = RecordBuilder(
    id: Option<Uuid>,
    key: Option<string>,
    value: Option<Json.Value>,
    source: Option<string>,
    tags: map<string, string>)
  {
    /** `id`: sets the id and nothing else. */
    function WithId(i: Uuid): (b: RecordBuilder)
      ensures b.id == Some(i) && b == this.(id := b.id)
    {
      this.(id := Some(i))
    }

    /** `key`: sets the key and nothing else. */
    function WithKey(k: string): (b: RecordBuilder)
      ensures b.key == Some(k) && b == this.(key := b.key)
    {
      this.(key := Some(k))
    }

    /** `value`: sets the payload and nothing else. */
    function WithValue(v: Json.Value): (b: RecordBuilder)
      ensures b.value == Some(v) && b == this.(value := b.value)
    {
      this.(value := Some(v))
    }

    /** `source`: sets the source and nothing else. */
    function WithSource(s: string): (b: RecordBuilder)
      ensures b.source == Some(s) && b == this.(source := b.source)
    {
      this.(source := Some(s))
    }

    /** `tag`: adds or overwrites one tag; the other tags and parts stay. */
    function WithTag(k: string, v: string): (b: RecordBuilder)
      ensures k in b.tags && b.tags[k] == v
      ensures forall k' :: k' in tags && k' != k ==> k' in b.tags && b.tags[k'] == tags[k']
      ensures b.tags.Keys == tags.Keys + {k}
      ensures b == this.(tags := b.tags)
    {
      this.(tags := tags[k := v])
    }

    /**
     * `build`: fails with a configuration error when the key is missing (checked
     * first) or the value is missing; otherwise a fresh pending record that keeps
     * the builder's tags, with the given id or else `freshId`.
     */
    function Build(freshId: Uuid, now: Timestamp): (r: Result<Record, Errors.Error>)
      ensures key.None? ==> r == Failure(Errors.Config("Record key is required"))
      ensures key.Some? && value.None? ==> r == Failure(Errors.Config("Record value is required"))
      ensures r.Success? <==> key.Some? && value.Some?
      ensures r.Success? ==> IsFresh(r.value, now)
      ensures r.Success? ==> r.value.key == key.value && r.value.value == value.value
      ensures r.Success? ==> r.value.tags == tags
      ensures r.Success? ==> r.value.id == (if id.Some? then id.value else freshId)
      ensures r.Success? ==> r.value.metadata.source == (if source.Some? then source.value else "default")
    {
      if key.None? then Failure(Errors.Config("Record key is required"))
      else if value.None? then Failure(Errors.Config("Record value is required"))
      else
        var src := if source.Some? then source.value else "default";
        var rid := if id.Some? then id.value else freshId;
        Success(Record(rid, key.value, value.value, Metadata(now, now, src, 1, Pending, 0, 0, None), tags))
    }
  }

  /** `RecordBuilder::new`: nothing set, so building it fails for want of a key. */
  function EmptyBuilder(): (b: RecordBuilder)
    ensures b.id.None? && b.key.None? && b.value.None? && b.source.None? && b.tags == map[]
    ensures forall freshId, now :: b.Build(freshId, now) == Failure(Errors.Config("Record key is required"))
  {
    RecordBuilder(None, None, None, None, map[])
  }

  /** Building from just a key and a value gives exactly the record `Record::new` gives. */
  lemma BuildAgreesWithNew(id: Uuid, k: string, v: Json.Value, now: Timestamp)
    ensures EmptyBuilder().WithKey(k).WithValue(v).Build(id, now) == Success(New(id, k, v, now))
  {
  }

  /** The setters each fill exactly their own part: a chain of all of them builds the record it describes. */
  lemma BuildFromSetters(id: Uuid, freshId: Uuid, k: string, v: Json.Value, src: string,
                         tk: string, tv: string, now: Timestamp)
    ensures var r := EmptyBuilder().WithId(id).WithKey(k).WithValue(v).WithSource(src).WithTag(tk, tv).Build(freshId, now);
      r.Success? && r.value.id == id && r.value.key == k && r.value.value == v
      && r.value.metadata.source == src && r.value.tags == map[tk := tv]
      && r.value.GetTag(tk) == Some(tv)
  {
  }

  /** A setter that is never called leaves `build` failing: a value without a key is an error. */
  lemma BuildNeedsKey(v: Json.Value, src: string, freshId: Uuid, now: Timestamp)
    ensures EmptyBuilder().WithValue(v).WithSource(src).Build(freshId, now).Failure?
  {
  }

  /** The mutating operations on a record, as a caller performs them one after another. */
  datatype Event =
    | BeginProcessing
    | Complete
    | FailWith(error: string)
    | SetValue(newValue: Json.Value)
    | PutTag(k: string, tagValue: string)
    | DropTag(k: string)

  function Step(r: Record, e: Event, now: Timestamp): Record {
    match e
    case BeginProcessing => r.MarkProcessing(now)
    case Complete => r.MarkCompleted(now)
    case FailWith(msg) => r.MarkFailed(msg, now)
    case SetValue(v) => r.UpdateValue(v, now)
    case PutTag(k, v) => r.AddTag(k, v, now)
    case DropTag(k) => r.RemoveTag(k, now).0
  }

  /** The record after the events, in order. */
  function Replay(r: Record, events: seq<Event>, now: Timestamp): Record {
    if events == [] then r else Step(Replay(r, events[..|events| - 1], now), events[|events| - 1], now)
  }

  /** How many of the events satisfy `p`. */
  function CountWhere(events: seq<Event>, p: Event -> bool): nat {
    if events == [] then 0
    else CountWhere(events[..|events| - 1], p) + (if p(events[|events| - 1]) then 1 else 0)
  }

  /**
   * Over any lifecycle: the process count counts the `mark_processing` calls, the failure count
   * the `mark_failed` calls, the version the value updates; identity never changes, and no
   * operation ever archives a record.
   */
  lemma {:induction false} ReplayCounters(r: Record, events: seq<Event>, now: Timestamp)
    ensures var r' := Replay(r, events, now);
      && r'.metadata.processCount == r.metadata.processCount + CountWhere(events, (e: Event) => e.BeginProcessing?)
      && r'.metadata.failureCount == r.metadata.failureCount + CountWhere(events, (e: Event) => e.FailWith?)
      && r'.metadata.version == r.metadata.version + CountWhere(events, (e: Event) => e.SetValue?)
      && r'.id == r.id && r'.key == r.key
      && (r.metadata.status != Archived ==> r'.metadata.status != Archived)
  {
    if events != [] {
      ReplayCounters(r, events[..|events| - 1], now);
    }
  }
}
