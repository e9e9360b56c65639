/**
  Model of DataConcentrator/DataCollector.cs: the in-memory registry of tags, the
  per-tag scan timers, the running flag and the list of activated alarms.

  Each `System.Threading.Timer` is represented by its period, in a map keyed by
  tag id; a timer firing is the explicit call `ScanSingleTag`. The database is
  represented by the ids and types of the stored tags; every database write is
  assumed to succeed.
 */
module Collector {
  import opened Common
  import opened Alarms
  import opened Tags
  import opened Plc

  /** `ActivatedAlarm`: the record kept for each alarm activation. */
  datatype ActivatedAlarm = ActivatedAlarm(alarmId: string, tagName: string, message: string, alarmTime: Time)

  const DefaultScanTime: real := 1000.0
  const Int32Min: int := -0x8000_0000
  const Int32Max: int := 0x7fff_ffff

  // ---------------------------------------------------------------------------
  // Scan timers
  // ---------------------------------------------------------------------------

  /** Truncation toward zero, as a C# cast from double to int does it. */
  function Truncate(r: real): int {
    if r >= 0.0 then r.Floor else -((-r).Floor)
  }

  /**
    `(int)(tag.ScanTime ?? 1000)`: the scan time truncated toward zero; a value
    outside the int range converts to int.MinValue, as on x86 and x64.
   */
  function ScanPeriod(scanTime: Option<real>): int {
    var ms := Truncate(if scanTime.Some? then scanTime.value else DefaultScanTime);
    if Int32Min <= ms <= Int32Max then ms else Int32Min
  }

  /** The Timer constructor throws ArgumentOutOfRangeException for a negative period other than -1 (Infinite). */
  predicate TimerAccepts(period: int) {
    period >= -1
  }

  /** An unset scan time gives 1000 ms; an in-range one is truncated; a negative one below -1 is refused. */
  lemma ScanPeriodValues(r: real)
    ensures ScanPeriod(None) == 1000
    ensures 0.0 <= r < 2147483648.0 ==> ScanPeriod(Some(r)) as real <= r < ScanPeriod(Some(r)) as real + 1.0
    ensures r <= -2.0 ==> !TimerAccepts(ScanPeriod(Some(r)))
    ensures 0.0 <= r < 2147483648.0 ==> TimerAccepts(ScanPeriod(Some(r)))
    ensures r >= 2147483648.0 ==> !TimerAccepts(ScanPeriod(Some(r)))
  {
  }

  /** The result of starting timers: whether a Timer constructor threw, and the timer map. */
  datatype TimerStep = TimerStep(outcome: Outcome, timers: map<string, int>)

  /** `StartTimerForTag` on the timer map. */
  function StartTimer(timers: map<string, int>, id: string, scanTime: Option<real>): TimerStep {
    if id in timers then TimerStep(Pass, timers)
    else
      var period := ScanPeriod(scanTime);
      if TimerAccepts(period) then TimerStep(Pass, timers[id := period])
      else TimerStep(Fail(ArgumentOutOfRange), timers)
  }

  /** A timer is never created twice for an id, and a new one runs at the tag's scan period. */
  lemma StartTimerEffect(timers: map<string, int>, id: string, scanTime: Option<real>)
    ensures id in timers ==> StartTimer(timers, id, scanTime) == TimerStep(Pass, timers)
    ensures id !in timers ==>
              StartTimer(timers, id, scanTime) ==
                if TimerAccepts(ScanPeriod(scanTime)) then TimerStep(Pass, timers[id := ScanPeriod(scanTime)])
                else TimerStep(Fail(ArgumentOutOfRange), timers)
  {
  }

  /** A tag a timer is started for by `StartAllTagTimers`: its id and scan time. */
  datatype ScanRequest = ScanRequest(id: string, scanTime: Option<real>)

  /** `ShouldScanTag`: only input tags whose OnOffScan is true are scanned. */
  predicate ShouldScan(t: TagType, onOffScan: Option<bool>) {
    IsInputType(t) && onOffScan == Some(true)
  }

  lemma ShouldScanExactly(t: TagType, onOffScan: Option<bool>)
    ensures ShouldScan(t, onOffScan) <==> (t == DI || t == AI) && onOffScan == Some(true)
  {
  }

  /** `tags.Where(t => ShouldScanTag(t))`, as timer requests in list order. */
  function ScanRequests(s: seq<Tag>): seq<ScanRequest>
    reads s`onOffScan, s`scanTime
  {
    if s == [] then []
    else
      (if ShouldScan(s[0].tagType, s[0].onOffScan) then [ScanRequest(s[0].id, s[0].scanTime)] else [])
      + ScanRequests(s[1..])
  }

  lemma ScanRequestsStep(s: seq<Tag>, i: int)
    requires 0 <= i < |s|
    ensures ScanRequests(s[i..]) ==
              (if ShouldScan(s[i].tagType, s[i].onOffScan) then [ScanRequest(s[i].id, s[i].scanTime)] else [])
              + ScanRequests(s[i + 1..])
  {
    assert s[i..][0] == s[i] && s[i..][1..] == s[i + 1..];
  }

  function ScannableIds(s: seq<Tag>): set<string>
    reads s`onOffScan
  {
    set k | 0 <= k < |s| && ShouldScan(s[k].tagType, s[k].onOffScan) :: s[k].id
  }

  function RequestIds(reqs: seq<ScanRequest>): set<string> {
    set k | 0 <= k < |reqs| :: reqs[k].id
  }

  /** The foreach of `StartAllTagTimers`: the first Timer constructor that throws ends it. */
  function StartEach(timers: map<string, int>, reqs: seq<ScanRequest>): TimerStep
    decreases |reqs|
  {
    if reqs == [] then TimerStep(Pass, timers)
    else
      var step := StartTimer(timers, reqs[0].id, reqs[0].scanTime);
      if step.outcome.Fail? then step else StartEach(step.timers, reqs[1..])
  }

  /** One iteration of the foreach: the tag at `i` either starts its timer or is skipped. */
  lemma StartEachStep(timers: map<string, int>, s: seq<Tag>, i: int)
    requires 0 <= i < |s|
    ensures StartEach(timers, ScanRequests(s[i..])) ==
              if !ShouldScan(s[i].tagType, s[i].onOffScan) then StartEach(timers, ScanRequests(s[i + 1..]))
              else
                var step := StartTimer(timers, s[i].id, s[i].scanTime);
                if step.outcome.Fail? then step else StartEach(step.timers, ScanRequests(s[i + 1..]))
  {
    ScanRequestsStep(s, i);
    var rest := ScanRequests(s[i + 1..]);
    if ShouldScan(s[i].tagType, s[i].onOffScan) {
      var request := ScanRequest(s[i].id, s[i].scanTime);
      assert ([request] + rest)[0] == request && ([request] + rest)[1..] == rest;
    } else {
      assert ScanRequests(s[i..]) == rest;
    }
  }

  lemma {:induction false} RequestsAreTheScannableTags(s: seq<Tag>)
    ensures RequestIds(ScanRequests(s)) == ScannableIds(s)
    decreases |s|
  {
    if s != [] {
      RequestsAreTheScannableTags(s[1..]);
      var head: seq<ScanRequest> := if ShouldScan(s[0].tagType, s[0].onOffScan) then [ScanRequest(s[0].id, s[0].scanTime)] else [];
      var rest: seq<ScanRequest> := ScanRequests(s[1..]);
      assert ScanRequests(s) == head + rest;
      forall id | id in RequestIds(ScanRequests(s))
        ensures id in ScannableIds(s)
      {
        var k :| 0 <= k < |head + rest| && (head + rest)[k].id == id;
        if k < |head| {
          assert s[0].id == id;
        } else {
          assert rest[k - |head|].id == id;
          assert id in ScannableIds(s[1..]);
          var j :| 0 <= j < |s[1..]| && ShouldScan(s[1..][j].tagType, s[1..][j].onOffScan) && s[1..][j].id == id;
          assert s[j + 1] == s[1..][j];
        }
      }
      forall id | id in ScannableIds(s)
        ensures id in RequestIds(ScanRequests(s))
      {
        var k :| 0 <= k < |s| && ShouldScan(s[k].tagType, s[k].onOffScan) && s[k].id == id;
        if k == 0 {
          assert (head + rest)[0].id == id;
        } else {
          assert s[1..][k - 1] == s[k];
          assert id in RequestIds(rest);
          var j :| 0 <= j < |rest| && rest[j].id == id;
          assert (head + rest)[|head| + j].id == id;
        }
      }
    }
  }

  /**
    Starting timers keeps every existing timer, adds timers only for requested
    ids, and on success adds one for every requested id; the only failure is the
    Timer constructor's ArgumentOutOfRangeException.
   */
  lemma {:induction false} StartEachEffect(timers: map<string, int>, reqs: seq<ScanRequest>)
    ensures var r := StartEach(timers, reqs);
            && timers.Keys <= r.timers.Keys <= timers.Keys + RequestIds(reqs)
            && (forall id :: id in timers ==> r.timers[id] == timers[id])
            && (r.outcome.Pass? ==> r.timers.Keys == timers.Keys + RequestIds(reqs))
            && (r.outcome.Fail? ==> r.outcome.error == ArgumentOutOfRange)
    decreases |reqs|
  {
    if reqs != [] {
      var step := StartTimer(timers, reqs[0].id, reqs[0].scanTime);
      StartEachEffect(step.timers, reqs[1..]);
      assert RequestIds(reqs) == {reqs[0].id} + RequestIds(reqs[1..]) by {
        forall id | id in RequestIds(reqs)
          ensures id in {reqs[0].id} + RequestIds(reqs[1..])
        {
          var k :| 0 <= k < |reqs| && reqs[k].id == id;
          if k > 0 {
            assert reqs[1..][k - 1].id == id;
          }
        }
        forall id | id in RequestIds(reqs[1..])
          ensures id in RequestIds(reqs)
        {
          var k :| 0 <= k < |reqs[1..]| && reqs[1..][k].id == id;
          assert reqs[k + 1].id == id;
        }
      }
    }
  }

  /** When every requested period is one the Timer constructor accepts, starting all timers succeeds. */
  lemma {:induction false} StartEachSucceeds(timers: map<string, int>, reqs: seq<ScanRequest>)
    requires forall k :: 0 <= k < |reqs| ==> TimerAccepts(ScanPeriod(reqs[k].scanTime))
    ensures StartEach(timers, reqs).outcome == Pass
    decreases |reqs|
  {
    if reqs != [] {
      var step := StartTimer(timers, reqs[0].id, reqs[0].scanTime);
      StartEachSucceeds(step.timers, reqs[1..]);
    }
  }

  // ---------------------------------------------------------------------------
  // Addresses, reads and activation records
  // ---------------------------------------------------------------------------

  /** `GetTagAddress`: the IOAddress, with the "ADDR" prefix added when it is absent. */
  function TagAddress(ioAddress: string): (r: string)
    ensures StartsWith(r, "ADDR")
    ensures r == ioAddress <==> StartsWith(ioAddress, "ADDR")
    ensures r == ioAddress || r == "ADDR" + ioAddress
  {
    if StartsWith(ioAddress, "ADDR") then ioAddress else "ADDR" + ioAddress
  }

  lemma TagAddressIsIdempotent(ioAddress: string)
    ensures TagAddress(TagAddress(ioAddress)) == TagAddress(ioAddress)
  {
  }

  /** `ReadTagValue` through a given simulator reference: AI and DI are read, other types throw. */
  function ReadTagValue(source: PlcSimulator?, t: TagType, address: string): (r: Result<real>)
    reads source
  {
    match t
    case AI => if source == null then Err(NullReference) else Ok(source.GetAnalogValue(address))
    case DI => if source == null then Err(NullReference) else Ok(source.GetDigitalValue(address))
    case _ => Err(InvalidOperation)
  }

  /** Through a simulator, an input tag reads its register, or -1 for an unknown address. */
  lemma ReadTagValueOfInputs(source: PlcSimulator, t: TagType, address: string)
    requires IsInputType(t)
    ensures ReadTagValue(source, t, address) == Ok(Read(source.addressValues, address))
    ensures address !in source.addressValues ==> ReadTagValue(source, t, address) == Ok(-1.0)
  {
  }

  /** Through the never-assigned `plcSimulator` field every read throws: no scan ever gets a value. */
  lemma ReadThroughUnassignedFieldFails(t: TagType, address: string)
    ensures ReadTagValue(null, t, address).Err?
    ensures IsInputType(t) ==> ReadTagValue(null, t, address) == Err(NullReference)
  {
  }

  /** The records `SaveActivatedAlarm` adds for the alarms `CheckAlarms` returned, in that order. */
  function Records(fired: seq<Alarm>, tagId: string, now: Time): (r: seq<ActivatedAlarm>)
    reads fired`id, fired`message
    ensures |r| == |fired|
    ensures forall k :: 0 <= k < |r| ==>
              r[k].alarmId == fired[k].id && r[k].message == fired[k].message
              && r[k].tagName == tagId && r[k].alarmTime == now
    decreases |fired|
  {
    if fired == [] then []
    else
      var n := |fired| - 1;
      Records(fired[..n], tagId, now) + [ActivatedAlarm(fired[n].id, tagId, fired[n].message, now)]
  }

  // ---------------------------------------------------------------------------
  // Output initialisation
  // ---------------------------------------------------------------------------

  /** The value an output tag holds after `InitializeOutputTags` wrote its InitialValue. */
  function InitializedValue(t: TagType, initial: Option<real>, current: Option<real>): Option<real> {
    if IsOutputType(t) && initial.Some? && CheckWrite(t, initial.value).Pass? then initial else current
  }

  /** The PLC write `WriteToPLCSimulator` makes for a tag's accepted value: AO and DO only. */
  function PlcWrite(t: TagType, ioAddress: string, value: real): Option<(string, real)> {
    if t == AO || t == DO then Some((TagAddress(ioAddress), value)) else None
  }

  /** The PLC writes `InitializeOutputTags` makes, in list order. */
  function InitWrites(s: seq<Tag>): seq<(string, real)>
    reads s`initialValue, s`ioAddress
  {
    if s == [] then [] else InitWriteOf(s[0]) + InitWrites(s[1..])
  }

  /** The PLC write `InitializeOutputTags` makes for one tag: none unless it is an output whose InitialValue is accepted. */
  function InitWriteOf(t: Tag): seq<(string, real)>
    reads t`initialValue, t`ioAddress
  {
    if IsOutputType(t.tagType) && t.initialValue.Some? && CheckWrite(t.tagType, t.initialValue.value).Pass?
    then [(TagAddress(t.ioAddress), t.initialValue.value)]
    else []
  }

  lemma InitWritesStep(s: seq<Tag>, i: int)
    requires 0 <= i < |s|
    ensures InitWrites(s[i..]) == InitWriteOf(s[i]) + InitWrites(s[i + 1..])
  {
    assert s[i..][0] == s[i] && s[i..][1..] == s[i + 1..];
  }

  lemma ApplyOneWrite(m: map<string, Register>, w: seq<(string, real)>, rest: seq<(string, real)>)
    requires |w| <= 1
    ensures ApplyWrites(m, w + rest) ==
              if w == [] then ApplyWrites(m, rest) else ApplyWrites(Written(m, w[0].0, w[0].1), rest)
  {
    if w != [] {
      assert (w + rest)[0] == w[0] && (w + rest)[1..] == rest;
    } else {
      assert w + rest == rest;
    }
  }

  /** A sequence of register writes applied in order. */
  function ApplyWrites(m: map<string, Register>, writes: seq<(string, real)>): map<string, Register>
    decreases |writes|
  {
    if writes == [] then m else ApplyWrites(Written(m, writes[0].0, writes[0].1), writes[1..])
  }

  /** Writing registers never changes the address set nor any register's type. */
  lemma {:induction false} ApplyWritesKeepsLayout(m: map<string, Register>, writes: seq<(string, real)>)
    ensures ApplyWrites(m, writes).Keys == m.Keys
    ensures forall a :: a in m ==> ApplyWrites(m, writes)[a].kind == m[a].kind
    decreases |writes|
  {
    if writes != [] {
      ApplyWritesKeepsLayout(Written(m, writes[0].0, writes[0].1), writes[1..]);
    }
  }

  /** Initialising writes only registers of output tags, only values their type accepts. */
  lemma {:induction false} InitWritesAreAccepted(s: seq<Tag>)
    ensures forall w :: w in InitWrites(s) ==>
              exists k :: 0 <= k < |s| && IsOutputType(s[k].tagType) && s[k].initialValue == Some(w.1)
                          && CheckWrite(s[k].tagType, w.1).Pass? && w.0 == TagAddress(s[k].ioAddress)
    decreases |s|
  {
    if s != [] {
      InitWritesAreAccepted(s[1..]);
      forall w | w in InitWrites(s)
        ensures exists k :: 0 <= k < |s| && IsOutputType(s[k].tagType) && s[k].initialValue == Some(w.1)
                            && CheckWrite(s[k].tagType, w.1).Pass? && w.0 == TagAddress(s[k].ioAddress)
      {
        if w !in InitWrites(s[1..]) {
          assert IsOutputType(s[0].tagType);
        } else {
          var j :| 0 <= j < |s[1..]| && IsOutputType(s[1..][j].tagType) && s[1..][j].initialValue == Some(w.1)
                   && CheckWrite(s[1..][j].tagType, w.1).Pass? && w.0 == TagAddress(s[1..][j].ioAddress);
          assert s[j + 1] == s[1..][j];
        }
      }
    }
  }

  // ---------------------------------------------------------------------------
  // Tag lists
  // ---------------------------------------------------------------------------

  /** The ids of a tag list, in list order. */
  function Ids(s: seq<Tag>): (r: seq<string>)
    ensures |r| == |s|
  {
    seq(|s|, k requires 0 <= k < |s| => s[k].id)
  }

  predicate HasTagId(s: seq<Tag>, id: string) {
    id in Ids(s)
  }

  /** The ids of a tag list, as a set. */
  function IdSet(s: seq<Tag>): set<string> {
    set id | id in Ids(s)
  }

  lemma IdSetMembers(s: seq<Tag>)
    ensures forall id :: id in IdSet(s) <==> HasTagId(s, id)
  {
  }

  /** Tag ids are unique within the list. */
  ghost predicate UniqueTagIds(s: seq<Tag>) {
    IsDistinct(Ids(s))
  }

  /** `tags.FirstOrDefault(t => t.Id == id)`, as an index: the first tag with that id, or -1. */
  function FindTag(s: seq<Tag>, id: string): (k: int)
    ensures -1 <= k < |s|
    ensures k == -1 <==> !HasTagId(s, id)
    ensures 0 <= k ==> s[k].id == id && !HasTagId(s[..k], id)
  {
    var k := IndexOf(Ids(s), id);
    assert 0 <= k ==> Ids(s[..k]) == Ids(s)[..k];
    k
  }

  /** Unique ids means no two positions hold the same id, and each tag is the one found by its id. */
  lemma UniqueTagIdsPairwise(s: seq<Tag>)
    ensures UniqueTagIds(s) <==> forall i, j :: 0 <= i < j < |s| ==> s[i].id != s[j].id
    ensures UniqueTagIds(s) ==> forall k :: 0 <= k < |s| ==> FindTag(s, s[k].id) == k
  {
    if UniqueTagIds(s) {
      forall k | 0 <= k < |s|
        ensures FindTag(s, s[k].id) == k
      {
        assert Ids(s)[k] == s[k].id;
      }
    }
  }

  lemma IdsOfAppend(s: seq<Tag>, t: Tag)
    ensures Ids(s + [t]) == Ids(s) + [t.id]
  {
  }

  lemma IdsOfRemoval(s: seq<Tag>, k: int)
    requires 0 <= k < |s|
    ensures Ids(s[..k] + s[k + 1..]) == Ids(s)[..k] + Ids(s)[k + 1..]
  {
  }

  /** Removing the tag at `k` from a list with unique ids leaves unique ids, none of them the removed one; it is `List.Remove`. */
  lemma RemovalKeepsUniqueIds(s: seq<Tag>, k: int)
    requires UniqueTagIds(s) && 0 <= k < |s|
    ensures var r := s[..k] + s[k + 1..];
            && UniqueTagIds(r)
            && !HasTagId(r, s[k].id)
            && (forall id :: HasTagId(r, id) <==> HasTagId(s, id) && id != s[k].id)
            && RemoveFirst(s, s[k]) == r
  {
    IdsOfRemoval(s, k);
    DistinctRemoval(Ids(s), k);
    assert Ids(s)[k] == s[k].id;
    OthersAreOtherTags(s, k);
    assert s[k] !in s[..k];
  }

  /** Appending a tag whose id is absent keeps the ids unique. */
  lemma AppendKeepsUniqueIds(s: seq<Tag>, t: Tag)
    requires UniqueTagIds(s) && !HasTagId(s, t.id)
    ensures UniqueTagIds(s + [t])
    ensures forall id :: HasTagId(s + [t], id) <==> HasTagId(s, id) || id == t.id
  {
    IdsOfAppend(s, t);
    DistinctAppend(Ids(s), t.id);
  }

  /** In a list with unique ids, no other position holds the same tag object. */
  lemma OthersAreOtherTags(s: seq<Tag>, k: int)
    requires UniqueTagIds(s) && 0 <= k < |s|
    ensures forall j :: 0 <= j < |s| && j != k ==> s[j] != s[k]
  {
    UniqueTagIdsPairwise(s);
  }

  /** The tag list after `RemoveTag(id)`: the first tag with that id is dropped. */
  function RemovedById(s: seq<Tag>, id: string): seq<Tag> {
    var k := FindTag(s, id);
    if k == -1 then s else s[..k] + s[k + 1..]
  }

  /** Every timer belongs to a listed input tag whose OnOffScan is true. */
  ghost predicate TimersForScannable(tags: seq<Tag>, timers: map<string, int>)
    reads tags`onOffScan
  {
    timers.Keys <= ScannableIds(tags)
  }

  /** Removing the tag at `k` keeps every other scannable id scannable. */
  lemma ScannableAfterRemoval(s: seq<Tag>, k: int)
    requires 0 <= k < |s|
    ensures ScannableIds(s) - {s[k].id} <= ScannableIds(s[..k] + s[k + 1..])
  {
    var r := s[..k] + s[k + 1..];
    forall x | x in ScannableIds(s) - {s[k].id}
      ensures x in ScannableIds(r)
    {
      var j :| 0 <= j < |s| && ShouldScan(s[j].tagType, s[j].onOffScan) && s[j].id == x;
      if j < k {
        assert r[j] == s[j];
      } else {
        assert r[j - 1] == s[j];
      }
    }
  }

  /** Appending a tag keeps every scannable id, and adds its own when it is scanned. */
  lemma ScannableAfterAppend(s: seq<Tag>, t: Tag)
    ensures ScannableIds(s) <= ScannableIds(s + [t])
    ensures ShouldScan(t.tagType, t.onOffScan) ==> t.id in ScannableIds(s + [t])
  {
    var r := s + [t];
    forall x | x in ScannableIds(s)
      ensures x in ScannableIds(r)
    {
      var j :| 0 <= j < |s| && ShouldScan(s[j].tagType, s[j].onOffScan) && s[j].id == x;
      assert r[j] == s[j];
    }
    assert r[|s|] == t;
  }

  /**
    What the collector keeps true of its tag list, the database rows and the
    timers: ids are unique, every listed tag is stored, every timer belongs to a
    listed tag, and no timer runs while the collector is stopped.
   */
  ghost predicate CollectorInvariant(tags: seq<Tag>, stored: map<string, TagType>, timers: map<string, int>, running: bool) {
    && UniqueTagIds(tags)
    && IdSet(tags) <= stored.Keys
    && timers.Keys <= IdSet(tags)
    && (!running ==> timers == map[])
  }

  /** Removing the tag with `id` and its timer keeps every other timer on a scanned tag. */
  lemma RemovalKeepsScannedTimers(tags: seq<Tag>, timers: map<string, int>, id: string)
    ensures TimersForScannable(tags, timers) ==> TimersForScannable(RemovedById(tags, id), timers - {id})
  {
    var k := FindTag(tags, id);
    assert (timers - {id}).Keys == timers.Keys - {id};
    if k != -1 {
      ScannableAfterRemoval(tags, k);
      assert RemovedById(tags, id) == tags[..k] + tags[k + 1..] && tags[k].id == id;
    } else {
      assert RemovedById(tags, id) == tags;
    }
  }

  /** `RemoveTag` keeps the invariant, and afterwards no tag with that id is listed. */
  lemma RemovalKeepsInvariant(tags: seq<Tag>, stored: map<string, TagType>, timers: map<string, int>, running: bool, id: string)
    requires CollectorInvariant(tags, stored, timers, running)
    ensures CollectorInvariant(RemovedById(tags, id), stored - {id}, timers - {id}, running)
    ensures !HasTagId(RemovedById(tags, id), id)
    ensures TimersForScannable(tags, timers) ==> TimersForScannable(RemovedById(tags, id), timers - {id})
  {
    RemovalKeepsListedIds(tags, stored, timers, running, id);
    RemovalKeepsScannedTimers(tags, timers, id);
  }

  /** The part of `RemovalKeepsInvariant` about ids and stored rows. */
  lemma RemovalKeepsListedIds(tags: seq<Tag>, stored: map<string, TagType>, timers: map<string, int>, running: bool, id: string)
    requires CollectorInvariant(tags, stored, timers, running)
    ensures CollectorInvariant(RemovedById(tags, id), stored - {id}, timers - {id}, running)
    ensures !HasTagId(RemovedById(tags, id), id)
  {
    var k := FindTag(tags, id);
    if k != -1 {
      RemovalKeepsUniqueIds(tags, k);
      IdSetMembers(tags);
      IdSetMembers(RemovedById(tags, id));
      assert IdSet(RemovedById(tags, id)) == IdSet(tags) - {id};
    } else {
      assert IdSet(RemovedById(tags, id)) == IdSet(tags) - {id};
    }
    assert !running ==> timers - {id} == map[];
  }

  /** `AddTag` keeps the invariant: the new id was not stored, hence not listed. */
  lemma AppendKeepsInvariant(tags: seq<Tag>, stored: map<string, TagType>, timers: map<string, int>, running: bool, t: Tag)
    requires CollectorInvariant(tags, stored, timers, running) && t.id !in stored
    ensures CollectorInvariant(tags + [t], stored[t.id := t.tagType], timers, running)
    ensures HasTagId(tags + [t], t.id)
    ensures TimersForScannable(tags, timers) ==> TimersForScannable(tags + [t], timers)
    ensures ShouldScan(t.tagType, t.onOffScan) ==> t.id in ScannableIds(tags + [t])
  {
    ScannableAfterAppend(tags, t);
    AppendKeepsUniqueIds(tags, t);
    IdSetMembers(tags);
    IdSetMembers(tags + [t]);
    assert IdSet(tags + [t]) == IdSet(tags) + {t.id};
  }

  /** `UpdateTag` keeps the invariant: the updated tag replaces the listed one, its timer stopped. */
  lemma ReplaceKeepsInvariant(tags: seq<Tag>, stored: map<string, TagType>, timers: map<string, int>, running: bool, u: Tag)
    requires CollectorInvariant(tags, stored, timers, running) && u.id in stored
    ensures CollectorInvariant(RemovedById(tags, u.id) + [u], stored, timers - {u.id}, running)
    ensures HasTagId(RemovedById(tags, u.id) + [u], u.id)
    ensures TimersForScannable(tags, timers) ==> TimersForScannable(RemovedById(tags, u.id) + [u], timers - {u.id})
    ensures ShouldScan(u.tagType, u.onOffScan) ==> u.id in ScannableIds(RemovedById(tags, u.id) + [u])
  {
    RemovalKeepsInvariant(tags, stored, timers, running, u.id);
    ScannableAfterAppend(RemovedById(tags, u.id), u);
    AppendKeepsUniqueIds(RemovedById(tags, u.id), u);
    IdSetMembers(RemovedById(tags, u.id));
    IdSetMembers(RemovedById(tags, u.id) + [u]);
    assert IdSet(RemovedById(tags, u.id) + [u]) == IdSet(RemovedById(tags, u.id)) + {u.id};
  }

  /** Starting the timer of a listed tag while running keeps the invariant, and of a scanned one keeps timers only for scanned tags. */
  lemma TimerStartKeepsInvariant(tags: seq<Tag>, stored: map<string, TagType>, timers: map<string, int>, t: Tag)
    requires CollectorInvariant(tags, stored, timers, true) && HasTagId(tags, t.id)
    ensures CollectorInvariant(tags, stored, StartTimer(timers, t.id, t.scanTime).timers, true)
    ensures TimersForScannable(tags, timers) && t.id in ScannableIds(tags) ==>
              TimersForScannable(tags, StartTimer(timers, t.id, t.scanTime).timers)
  {
  }

  /** Starting the timers of all scan-enabled listed tags while running keeps the invariant. */
  lemma StartAllKeepsInvariant(tags: seq<Tag>, stored: map<string, TagType>, timers: map<string, int>)
    requires CollectorInvariant(tags, stored, timers, true)
    ensures CollectorInvariant(tags, stored, StartEach(timers, ScanRequests(tags)).timers, true)
    ensures TimersForScannable(tags, timers) ==> TimersForScannable(tags, StartEach(timers, ScanRequests(tags)).timers)
  {
    StartEachEffect(timers, ScanRequests(tags));
    RequestsAreTheScannableTags(tags);
    forall id | id in ScannableIds(tags)
      ensures HasTagId(tags, id)
    {
      var k :| 0 <= k < |tags| && ShouldScan(tags[k].tagType, tags[k].onOffScan) && tags[k].id == id;
      assert Ids(tags)[k] == id;
    }
  }

  // ---------------------------------------------------------------------------
  // The collector
  // ---------------------------------------------------------------------------

  class DataCollector {
    var tags: seq<Tag>
    /** `tagTimers`: one entry per running Timer, holding its period in milliseconds. */
    var tagTimers: map<string, int>
    var isRunning: bool
    var activeAlarms: seq<ActivatedAlarm>
    /** The Tags table of the database: id and type of every stored tag. */
    var storedTags: map<string, TagType>
    /** `_plc`, the simulator the constructor receives. */
    const plc: PlcSimulator
    /** `plcSimulator`, declared and never assigned: it stays null. */
    var plcSimulator: PlcSimulator?
    /** Number of `ValuesUpdated` events raised. */
    ghost var valuesUpdated: nat

    ghost predicate Valid()
      reads this`tags, this`storedTags, this`tagTimers, this`isRunning, this`plcSimulator
    {
      && plcSimulator == null
      && CollectorInvariant(tags, storedTags, tagTimers, isRunning)
    }

    /**
      `DataCollector(db, plc)` with `LoadConfiguration`: the tags loaded from the
      database, or none when loading throws. Stored tag ids are unique (the key).
     */
    constructor (plc: PlcSimulator, stored: map<string, TagType>, loaded: Option<seq<Tag>>)
      requires loaded.Some? ==> UniqueTagIds(loaded.value)
      requires loaded.Some? ==> forall k :: 0 <= k < |loaded.value| ==> loaded.value[k].id in stored
      ensures Valid()
      ensures this.plc == plc && storedTags == stored
      ensures tags == (if loaded.Some? then loaded.value else [])
      ensures tagTimers == map[] && !isRunning && activeAlarms == [] && valuesUpdated == 0
      ensures plcSimulator == null
    {
      this.plc := plc;
      plcSimulator := null;
      storedTags := stored;
      tagTimers := map[];
      isRunning := false;
      activeAlarms := [];
      valuesUpdated := 0;
      tags := if loaded.Some? then loaded.value else [];
    }

    /**
      The constructor's null checks: a null `db` (the stored tags, `None`) throws
      first, then a null `plc`; otherwise the collector is built as above.
     */
    static method Create(db: Option<map<string, TagType>>, plc: PlcSimulator?, loaded: Option<seq<Tag>>)
      returns (r: Result<DataCollector>)
      requires db.Some? && loaded.Some? ==> UniqueTagIds(loaded.value)
      requires db.Some? && loaded.Some? ==> forall k :: 0 <= k < |loaded.value| ==> loaded.value[k].id in db.value
      ensures db.None? ==> r == Err(ArgumentNull)
      ensures db.Some? && plc == null ==> r == Err(ArgumentNull)
      ensures r.Ok? <==> db.Some? && plc != null
      ensures r.Ok? ==> fresh(r.value) && r.value.Valid() && r.value.plc == plc && r.value.storedTags == db.value
      ensures r.Ok? ==> r.value.tags == (if loaded.Some? then loaded.value else [])
      ensures r.Ok? ==> r.value.tagTimers == map[] && !r.value.isRunning && r.value.activeAlarms == []
    {
      if db.None? || plc == null {
        return Err(ArgumentNull);
      }
      var c := new DataCollector(plc, db.value, loaded);
      return Ok(c);
    }

    /**
      A timer runs only for a listed input tag whose OnOffScan is true. Not part
      of `Valid`: callers hold the Tag objects and may change OnOffScan directly;
      every collector operation keeps it.
     */
    ghost predicate TimersOnlyForScannable()
      reads this`tags, this`tagTimers, tags`onOffScan
    {
      TimersForScannable(tags, tagTimers)
    }

    function ShouldScanTag(tag: Tag): bool
      reads tag`onOffScan
    {
      ShouldScan(tag.tagType, tag.onOffScan)
    }

    method StartTimerForTag(tag: Tag) returns (o: Outcome)
      modifies this`tagTimers
      ensures TimerStep(o, tagTimers) == StartTimer(old(tagTimers), tag.id, tag.scanTime)
    {
      if tag.id in tagTimers {
        return Pass;
      }
      var period := ScanPeriod(tag.scanTime);
      if !TimerAccepts(period) {
        return Fail(ArgumentOutOfRange);
      }
      tagTimers := tagTimers[tag.id := period];
      return Pass;
    }

    method StopTimerForTag(tagId: string)
      modifies this`tagTimers
      ensures tagTimers == old(tagTimers) - {tagId}
    {
      if tagId in tagTimers {
        tagTimers := tagTimers - {tagId};
      }
    }

    method AddTag(tag: Tag?) returns (o: Outcome)
      requires Valid()
      modifies this`tags, this`storedTags, this`tagTimers
      ensures Valid()
      ensures tag == null ==> o == Fail(ArgumentNull)
      ensures old(TimersOnlyForScannable()) ==> TimersOnlyForScannable()
      ensures tag != null && tag.id in old(storedTags) ==> o == Fail(InvalidOperation)
      ensures o.Fail? && o.error != ArgumentOutOfRange ==>
                tags == old(tags) && storedTags == old(storedTags) && tagTimers == old(tagTimers)
      ensures tag != null && tag.id !in old(storedTags) ==>
                && storedTags == old(storedTags)[tag.id := tag.tagType]
                && tags == old(tags) + [tag]
                && (if isRunning && ShouldScanTag(tag)
                    then TimerStep(o, tagTimers) == StartTimer(old(tagTimers), tag.id, tag.scanTime)
                    else o == Pass && tagTimers == old(tagTimers))
    {
      if tag == null {
        return Fail(ArgumentNull);
      }
      if tag.id in storedTags {
        return Fail(InvalidOperation);
      }
      AppendKeepsInvariant(tags, storedTags, tagTimers, isRunning, tag);
      storedTags := storedTags[tag.id := tag.tagType];
      tags := tags + [tag];
      o := Pass;
      if isRunning && ShouldScanTag(tag) {
        TimerStartKeepsInvariant(tags, storedTags, tagTimers, tag);
        o := StartTimerForTag(tag);
      }
    }

    method RemoveTag(tagId: Option<string>) returns (o: Outcome)
      requires Valid()
      modifies this`tags, this`storedTags, this`tagTimers
      ensures Valid()
      ensures IsNullOrWhiteSpace(tagId) ==>
                o == Fail(Argument) && tags == old(tags) && storedTags == old(storedTags) && tagTimers == old(tagTimers)
      ensures old(TimersOnlyForScannable()) ==> TimersOnlyForScannable()
      ensures !IsNullOrWhiteSpace(tagId) ==>
                && o == Pass
                && storedTags == old(storedTags) - {tagId.value}
                && tags == RemovedById(old(tags), tagId.value)
                && tagTimers == old(tagTimers) - {tagId.value}
    {
      if IsNullOrWhiteSpace(tagId) {
        return Fail(Argument);
      }
      var id := tagId.value;
      RemovalKeepsInvariant(tags, storedTags, tagTimers, isRunning, id);
      ghost var scanned := TimersOnlyForScannable() ==> TimersForScannable(RemovedById(tags, id), tagTimers - {id});
      if FindTag(tags, id) != -1 {
        // the Tags row goes, then `tags.Remove(tagToRemove)`: with unique ids, the first occurrence is the tag found
        tags, storedTags := RemovedById(tags, id), storedTags - {id};
        StopTimerForTag(id);
      } else {
        storedTags := storedTags - {id};
        assert tagTimers - {id} == tagTimers;
      }
      assert scanned;
      return Pass;
    }

    method UpdateTag(updated: Tag?) returns (o: Outcome)
      requires Valid()
      modifies this`tags, this`tagTimers
      ensures Valid()
      ensures updated == null ==> o == Fail(ArgumentNull) && tags == old(tags) && tagTimers == old(tagTimers)
      ensures old(TimersOnlyForScannable()) ==> TimersOnlyForScannable()
      ensures updated != null && updated.id !in storedTags ==>
                o == Fail(InvalidOperation) && tags == old(tags) && tagTimers == old(tagTimers)
      ensures updated != null && updated.id in storedTags ==>
                if !HasTagId(old(tags), updated.id) then o == Pass && tags == old(tags) && tagTimers == old(tagTimers)
                else
                  && tags == RemovedById(old(tags), updated.id) + [updated]
                  && (if isRunning && ShouldScanTag(updated)
                      then TimerStep(o, tagTimers) == StartTimer(old(tagTimers) - {updated.id}, updated.id, updated.scanTime)
                      else o == Pass && tagTimers == old(tagTimers) - {updated.id})
    {
      if updated == null {
        return Fail(ArgumentNull);
      }
      if updated.id !in storedTags {
        return Fail(InvalidOperation);
      }
      o := Pass;
      var k := FindTag(tags, updated.id);
      if k != -1 {
        ReplaceKeepsInvariant(tags, storedTags, tagTimers, isRunning, updated);
        ghost var replaced := RemovedById(tags, updated.id) + [updated];
        ghost var scanned := TimersOnlyForScannable() ==> TimersForScannable(replaced, tagTimers - {updated.id});
        StopTimerForTag(updated.id);
        // `_tags.Remove(existingTag)` then `_tags.Add(tag)`
        tags := tags[..k] + tags[k + 1..] + [updated];
        assert tags == replaced && scanned;
        if isRunning && ShouldScanTag(updated) {
          TimerStartKeepsInvariant(tags, storedTags, tagTimers, updated);
          o := StartTimerForTag(updated);
        }
      }
    }

    /** `AddAlarmToTag`: the database checks, then the alarm is appended to the tag in memory, if there is one. */
    method AddAlarmToTag(tagId: Option<string>, alarm: Alarm?) returns (o: Outcome)
      requires Valid()
      modifies alarm, tags`alarms
      ensures Valid()
      ensures IsNullOrWhiteSpace(tagId) ==> o == Fail(Argument)
      ensures !IsNullOrWhiteSpace(tagId) && alarm == null ==> o == Fail(ArgumentNull)
      ensures !IsNullOrWhiteSpace(tagId) && alarm != null ==>
                o == if tagId.value !in storedTags || storedTags[tagId.value] != AI then Fail(InvalidOperation) else Pass
      ensures o.Pass? ==>
                && alarm != null && alarm.tagId == tagId
                && alarm.Rule() == old(alarm.Rule()) && alarm.State() == old(alarm.State())
                && var k := FindTag(tags, tagId.value);
                   forall j :: 0 <= j < |tags| ==>
                     tags[j].alarms == if j == k then old(tags[j].alarms) + [alarm] else old(tags[j].alarms)
      ensures o.Fail? ==> forall j :: 0 <= j < |tags| ==> tags[j].alarms == old(tags[j].alarms)
      ensures o.Fail? && alarm != null ==> alarm.tagId == old(alarm.tagId)
    {
      if IsNullOrWhiteSpace(tagId) {
        return Fail(Argument);
      }
      if alarm == null {
        return Fail(ArgumentNull);
      }
      var id := tagId.value;
      if id !in storedTags || storedTags[id] != AI {
        return Fail(InvalidOperation);
      }
      alarm.tagId := tagId;
      var k := FindTag(tags, id);
      if k != -1 {
        var tag := tags[k];
        tag.alarms := tag.alarms + [alarm];
        OthersAreOtherTags(tags, k);
      }
      return Pass;
    }

    /** `RemoveAlarmFromTag`: removes the first alarm with that id from the tag in memory, if both exist. */
    method RemoveAlarmFromTag(tagId: Option<string>, alarmId: Option<string>) returns (o: Outcome)
      requires Valid()
      modifies tags`alarms
      ensures Valid()
      ensures IsNullOrWhiteSpace(tagId) || IsNullOrWhiteSpace(alarmId) ==>
                o == Fail(Argument) && forall j :: 0 <= j < |tags| ==> tags[j].alarms == old(tags[j].alarms)
      ensures !IsNullOrWhiteSpace(tagId) && !IsNullOrWhiteSpace(alarmId) ==>
                && o == Pass
                && var k := FindTag(tags, tagId.value);
                   forall j :: 0 <= j < |tags| ==>
                     var i := FindAlarmIndex(old(tags[j].alarms), alarmId.value);
                     tags[j].alarms == if j == k && i != -1 then old(tags[j].alarms[..i] + tags[j].alarms[i + 1..])
                                       else old(tags[j].alarms)
    {
      if IsNullOrWhiteSpace(tagId) || IsNullOrWhiteSpace(alarmId) {
        return Fail(Argument);
      }
      var k := FindTag(tags, tagId.value);
      if k != -1 {
        var tag := tags[k];
        var i := FindAlarmIndex(tag.alarms, alarmId.value);
        if i != -1 {
          assert tag.alarms[i] !in tag.alarms[..i];
          tag.alarms := RemoveFirst(tag.alarms, tag.alarms[i]);
        }
        OthersAreOtherTags(tags, k);
      }
      return Pass;
    }

    /** `SetTagScanning`: an unknown id and an output tag are ignored. */
    method SetTagScanning(tagId: string, enable: bool) returns (o: Outcome)
      requires Valid()
      modifies this`tagTimers, tags`onOffScan
      ensures Valid()
      ensures old(TimersOnlyForScannable()) ==> TimersOnlyForScannable()
      ensures var k := FindTag(tags, tagId);
              if k == -1 || !IsInputType(tags[k].tagType) then
                o == Pass && tagTimers == old(tagTimers) && forall j :: 0 <= j < |tags| ==> tags[j].onOffScan == old(tags[j].onOffScan)
              else
                && tags[k].onOffScan == Some(enable)
                && (forall j :: 0 <= j < |tags| && j != k ==> tags[j].onOffScan == old(tags[j].onOffScan))
                && (if enable && isRunning
                    then TimerStep(o, tagTimers) == StartTimer(old(tagTimers), tagId, tags[k].scanTime)
                    else o == Pass && tagTimers == old(tagTimers) - {tagId})
    {
      var k := FindTag(tags, tagId);
      o := Pass;
      if k != -1 && IsInputType(tags[k].tagType) {
        var tag := tags[k];
        var _ := tag.ValidateAndSetOnOffScan(Some(enable));
        OthersAreOtherTags(tags, k);
        // Only this tag's flag changed: every other scanned tag is still scanned.
        forall x | x in old(ScannableIds(tags)) - {tagId}
          ensures x in ScannableIds(tags)
        {
          var j :| 0 <= j < |tags| && ShouldScan(tags[j].tagType, old(tags[j].onOffScan)) && tags[j].id == x;
          assert j != k;
        }
        if enable && isRunning {
          o := StartTimerForTag(tag);
        } else {
          StopTimerForTag(tagId);
        }
      }
    }

    /** `StartAllTagTimers`: a timer for every scan-enabled input tag, until a Timer constructor throws. */
    method StartAllTagTimers() returns (o: Outcome)
      modifies this`tagTimers
      ensures TimerStep(o, tagTimers) == StartEach(old(tagTimers), ScanRequests(tags))
    {
      // The timers map is threaded through the loop and stored back on every
      // exit, the thrown case included: timers started before it stay running.
      var list := tags;
      var timers := tagTimers;
      ghost var final := StartEach(timers, ScanRequests(list));
      assert list[0..] == list;
      var i := 0;
      while i < |list|
        invariant 0 <= i <= |list|
        invariant StartEach(timers, ScanRequests(list[i..])) == final
      {
        var tag := list[i];
        StartEachStep(timers, list, i);
        if ShouldScanTag(tag) {
          var step := StartTimer(timers, tag.id, tag.scanTime);
          if step.outcome.Fail? {
            tagTimers := step.timers;
            return step.outcome;
          }
          timers := step.timers;
        }
        i := i + 1;
      }
      assert list[i..] == [];
      tagTimers := timers;
      o := Pass;
    }

    /** `Start`: a no-op while running; otherwise initialise the outputs, then start the timers. */
    method Start() returns (o: Outcome)
      requires Valid() && plc.Valid()
      modifies this`isRunning, this`tagTimers, tags`currentValue, plc
      ensures Valid() && plc.Valid() && isRunning
      ensures !old(isRunning) || old(TimersOnlyForScannable()) ==> TimersOnlyForScannable()
      ensures old(isRunning) ==>
                o == Pass && tagTimers == old(tagTimers) && plc.addressValues == old(plc.addressValues)
                && forall k :: 0 <= k < |tags| ==> tags[k].currentValue == old(tags[k].currentValue)
      ensures !old(isRunning) ==>
                && TimerStep(o, tagTimers) == StartEach(map[], ScanRequests(tags))
                && (o.Pass? ==> tagTimers.Keys == ScannableIds(tags))
                && (forall k :: 0 <= k < |tags| ==>
                      tags[k].currentValue == InitializedValue(tags[k].tagType, tags[k].initialValue, old(tags[k].currentValue)))
                && plc.addressValues == ApplyWrites(old(plc.addressValues), old(InitWrites(tags)))
    {
      if isRunning {
        return Pass;
      }
      o := StartStopped();
    }

    /** The body of `Start` once the collector is known to be stopped. */
    method StartStopped() returns (o: Outcome)
      requires Valid() && plc.Valid() && !isRunning
      modifies this`isRunning, this`tagTimers, tags`currentValue, plc
      ensures Valid() && plc.Valid() && isRunning
      ensures TimerStep(o, tagTimers) == StartEach(map[], ScanRequests(tags))
      ensures o.Pass? ==> tagTimers.Keys == ScannableIds(tags)
      ensures TimersOnlyForScannable()
      ensures forall k :: 0 <= k < |tags| ==>
                tags[k].currentValue == InitializedValue(tags[k].tagType, tags[k].initialValue, old(tags[k].currentValue))
      ensures plc.addressValues == ApplyWrites(old(plc.addressValues), old(InitWrites(tags)))
    {
      ghost var writes := InitWrites(tags);
      isRunning := true;
      InitializeOutputTags();
      ghost var registers := plc.addressValues;
      assert registers == ApplyWrites(old(plc.addressValues), writes);
      o := StartAllTagTimers();
      assert plc.addressValues == registers;
      StartAllKeepsInvariant(tags, storedTags, map[]);
      StartEachEffect(map[], ScanRequests(tags));
      RequestsAreTheScannableTags(tags);
    }

    /** `Stop`: a no-op while stopped; otherwise every timer is disposed. `plcSimulator?.Abort()` does nothing. */
    method Stop()
      requires Valid()
      modifies this`isRunning, this`tagTimers
      ensures Valid()
      ensures !isRunning && tagTimers == map[]
      ensures TimersOnlyForScannable()
    {
      if !isRunning {
        return;
      }
      isRunning := false;
      StopAllTimers();
    }

    method StopAllTimers()
      modifies this`tagTimers
      ensures tagTimers == map[]
    {
      tagTimers := map[];
    }

    /** `SaveActivatedAlarm`, in-memory part: the record is appended; the database half is not modelled. */
    method SaveActivatedAlarm(alarm: Alarm, tagId: string, now: Time)
      modifies this`activeAlarms
      ensures activeAlarms == old(activeAlarms) + [ActivatedAlarm(alarm.id, tagId, alarm.message, now)]
    {
      activeAlarms := activeAlarms + [ActivatedAlarm(alarm.id, tagId, alarm.message, now)];
    }

    /** `ProcessTagValue`: store the value; for an AI tag, record every alarm the value activated. */
    method ProcessTagValue(tag: Tag, value: real, now: Time)
      requires tag.Valid()
      modifies this`activeAlarms, tag`currentValue, tag.alarms`isActive, tag.alarms`isAcknowledged, tag.alarms`activationTime
      ensures tag.currentValue == Some(value)
      ensures tag.tagType != AI ==>
                activeAlarms == old(activeAlarms)
                && forall k :: 0 <= k < |tag.alarms| ==> tag.alarms[k].State() == old(tag.alarms[k].State())
      ensures tag.tagType == AI ==>
                && (forall k :: 0 <= k < |tag.alarms| ==>
                      tag.alarms[k].State() ==
                        TryActivateStep(old(tag.alarms[k].State()), tag.alarms[k].CheckTriggerCondition(value), now).next)
                && activeAlarms ==
                     old(activeAlarms) +
                     Records(Marked(tag.alarms, old(ActivationMarks(States(tag.alarms), Conditions(tag.alarms, value)))), tag.id, now)
    {
      ghost var marks := ActivationMarks(States(tag.alarms), Conditions(tag.alarms, value));
      tag.currentValue := Some(value);
      assert marks == ActivationMarks(States(tag.alarms), Conditions(tag.alarms, value));
      if tag.tagType == AI {
        var fired := tag.CheckAlarms(value, now);
        assert fired == Marked(tag.alarms, marks);
        SaveActivatedAlarms(fired, tag.id, now);
      }
    }

    /** The `foreach` of `ProcessTagValue` over the alarms `CheckAlarms` returned. */
    method SaveActivatedAlarms(fired: seq<Alarm>, tagId: string, now: Time)
      modifies this`activeAlarms
      ensures activeAlarms == old(activeAlarms) + Records(fired, tagId, now)
    {
      var i := 0;
      while i < |fired|
        invariant 0 <= i <= |fired|
        invariant activeAlarms == old(activeAlarms) + Records(fired[..i], tagId, now)
      {
        SaveActivatedAlarm(fired[i], tagId, now);
        assert fired[..i + 1] == fired[..i] + [fired[i]];
        i := i + 1;
      }
      assert fired[..i] == fired;
    }

    /** `ScanSingleTag`, reading through `_plc`: what the timer callback evidently means to do. */
    method ScanSingleTag(tag: Tag, now: Time)
      requires Valid() && tag.Valid()
      modifies this`activeAlarms, this`valuesUpdated, tag`currentValue
      modifies tag.alarms`isActive, tag.alarms`isAcknowledged, tag.alarms`activationTime
      ensures Valid()
      ensures !old(isRunning && ShouldScanTag(tag)) ==>
                tag.currentValue == old(tag.currentValue) && activeAlarms == old(activeAlarms)
                && valuesUpdated == old(valuesUpdated)
                && forall k :: 0 <= k < |tag.alarms| ==> tag.alarms[k].State() == old(tag.alarms[k].State())
      ensures old(isRunning && ShouldScanTag(tag)) ==>
                var value := Read(plc.addressValues, TagAddress(tag.ioAddress));
                && tag.currentValue == Some(value)
                && valuesUpdated == old(valuesUpdated) + 1
                && (tag.tagType == AI ==>
                      && (forall k :: 0 <= k < |tag.alarms| ==>
                            tag.alarms[k].State() ==
                              TryActivateStep(old(tag.alarms[k].State()), tag.alarms[k].CheckTriggerCondition(value), now).next)
                      && activeAlarms ==
                           old(activeAlarms) +
                           Records(Marked(tag.alarms, old(ActivationMarks(States(tag.alarms), Conditions(tag.alarms, value)))), tag.id, now))
                && (tag.tagType != AI ==>
                      && activeAlarms == old(activeAlarms)
                      && forall k :: 0 <= k < |tag.alarms| ==> tag.alarms[k].State() == old(tag.alarms[k].State()))
    {
      if !isRunning || !ShouldScanTag(tag) {
        return;
      }
      var read := ReadTagValue(plc, tag.tagType, TagAddress(tag.ioAddress));
      if read.Err? {
        return;
      }
      ProcessTagValue(tag, read.value, now);
      valuesUpdated := valuesUpdated + 1;
    }

    /** `ScanSingleTag` as written: it reads through `plcSimulator`, which is null, and swallows the exception. */
    method ScanSingleTagAsWritten(tag: Tag, now: Time)
      requires tag.Valid()
      modifies this`activeAlarms, this`valuesUpdated, tag`currentValue
      modifies tag.alarms`isActive, tag.alarms`isAcknowledged, tag.alarms`activationTime
      ensures plcSimulator == null ==>
                tag.currentValue == old(tag.currentValue) && activeAlarms == old(activeAlarms)
                && valuesUpdated == old(valuesUpdated)
                && forall k :: 0 <= k < |tag.alarms| ==> tag.alarms[k].State() == old(tag.alarms[k].State())
    {
      if !isRunning || !ShouldScanTag(tag) {
        return;
      }
      var read := ReadTagValue(plcSimulator, tag.tagType, TagAddress(tag.ioAddress));
      if read.Err? {
        return;
      }
      ProcessTagValue(tag, read.value, now);
      valuesUpdated := valuesUpdated + 1;
    }

    /** `WriteToPLCSimulator`, writing to `_plc`: what the method evidently means to do. */
    method WriteToPlc(tag: Tag, value: real)
      requires plc.Valid()
      modifies plc
      ensures plc.Valid()
      ensures var w := PlcWrite(tag.tagType, tag.ioAddress, value);
              plc.addressValues == if w.Some? then Written(old(plc.addressValues), w.value.0, w.value.1)
                                   else old(plc.addressValues)
    {
      var address := TagAddress(tag.ioAddress);
      match tag.tagType {
        case AO => plc.SetAnalogValue(address, value);
        case DO => plc.SetDigitalValue(address, value);
        case _ =>
      }
    }

    /** `WriteToPLCSimulator` as written: `plcSimulator` is null, so it returns before writing. */
    method WriteToPlcAsWritten(tag: Tag, value: real)
      requires plcSimulator != null ==> plcSimulator.Valid()
      modifies plcSimulator
      ensures plcSimulator == null ==> plc.addressValues == old(plc.addressValues)
    {
      if plcSimulator == null {
        return;
      }
      var address := TagAddress(tag.ioAddress);
      match tag.tagType {
        case AO => plcSimulator.SetAnalogValue(address, value);
        case DO => plcSimulator.SetDigitalValue(address, value);
        case _ =>
      }
    }

    /** `WriteTagValue`: unknown ids and non-output tags are ignored; a refused value is swallowed. */
    method WriteTagValue(tagId: string, value: real)
      requires Valid() && plc.Valid()
      modifies tags`currentValue, plc
      ensures plc.Valid()
      ensures var k := FindTag(tags, tagId);
              if k == -1 || !IsOutputType(tags[k].tagType) || CheckWrite(tags[k].tagType, value).Fail? then
                plc.addressValues == old(plc.addressValues)
                && forall j :: 0 <= j < |tags| ==> tags[j].currentValue == old(tags[j].currentValue)
              else
                && tags[k].currentValue == Some(value)
                && (forall j :: 0 <= j < |tags| && j != k ==> tags[j].currentValue == old(tags[j].currentValue))
                && var w := PlcWrite(tags[k].tagType, tags[k].ioAddress, value);
                   plc.addressValues == if w.Some? then Written(old(plc.addressValues), w.value.0, w.value.1)
                                        else old(plc.addressValues)
    {
      var k := FindTag(tags, tagId);
      if k != -1 && IsOutputType(tags[k].tagType) {
        var tag := tags[k];
        var o := tag.WriteValue(value);
        OthersAreOtherTags(tags, k);
        if o.Pass? {
          WriteToPlc(tag, value);
        }
      }
    }

    /**
      `WriteTagValue` as written: the tag takes the value, but `WriteToPLCSimulator`
      returns at once because `plcSimulator` is null, so no register changes.
     */
    method WriteTagValueAsWritten(tagId: string, value: real)
      requires Valid()
      modifies tags`currentValue
      ensures plc.addressValues == old(plc.addressValues)
      ensures var k := FindTag(tags, tagId);
              if k == -1 || !IsOutputType(tags[k].tagType) || CheckWrite(tags[k].tagType, value).Fail? then
                forall j :: 0 <= j < |tags| ==> tags[j].currentValue == old(tags[j].currentValue)
              else
                && tags[k].currentValue == Some(value)
                && forall j :: 0 <= j < |tags| && j != k ==> tags[j].currentValue == old(tags[j].currentValue)
    {
      var k := FindTag(tags, tagId);
      if k != -1 && IsOutputType(tags[k].tagType) {
        var tag := tags[k];
        var o := tag.WriteValue(value);
        OthersAreOtherTags(tags, k);
        if o.Pass? {
          WriteToPlcAsWritten(tag, value);
        }
      }
    }

    function GetTagValue(tagId: string): (r: Option<real>)
      reads this`tags, tags`currentValue
      ensures !HasTagId(tags, tagId) ==> r == None
      ensures HasTagId(tags, tagId) ==> r == tags[FindTag(tags, tagId)].currentValue
    {
      var k := FindTag(tags, tagId);
      if k == -1 then None else tags[k].currentValue
    }

    /** One iteration of `InitializeOutputTags`: the tag at `i`, if it is an output with an InitialValue, is written through `WriteTagValue`. */
    method InitializeOutputTag(i: int)
      requires Valid() && plc.Valid() && 0 <= i < |tags|
      modifies tags`currentValue, plc
      ensures plc.Valid()
      ensures tags[i].currentValue == InitializedValue(tags[i].tagType, tags[i].initialValue, old(tags[i].currentValue))
      ensures forall k :: 0 <= k < |tags| && k != i ==> tags[k].currentValue == old(tags[k].currentValue)
      ensures var w := InitWriteOf(tags[i]);
              plc.addressValues == if w == [] then old(plc.addressValues) else Written(old(plc.addressValues), w[0].0, w[0].1)
    {
      var tag := tags[i];
      if IsOutputType(tag.tagType) && tag.initialValue.Some? {
        UniqueTagIdsPairwise(tags);
        WriteTagValue(tag.id, tag.initialValue.value);
      }
    }

    /** `InitializeOutputTags`: every output tag with an InitialValue is written through `WriteTagValue`. */
    method InitializeOutputTags()
      requires Valid() && plc.Valid()
      modifies tags`currentValue, plc
      ensures plc.Valid()
      ensures forall k :: 0 <= k < |tags| ==>
                tags[k].currentValue == InitializedValue(tags[k].tagType, tags[k].initialValue, old(tags[k].currentValue))
      ensures plc.addressValues == ApplyWrites(old(plc.addressValues), old(InitWrites(tags)))
    {
      assert tags[0..] == tags && tags[|tags|..] == [];
      ghost var target := ApplyWrites(plc.addressValues, InitWrites(tags));
      ghost var pending := InitWrites(tags);
      var i := 0;
      while i < |tags|
        invariant 0 <= i <= |tags|
        invariant plc.Valid()
        invariant forall k :: 0 <= k < i ==>
                    tags[k].currentValue == InitializedValue(tags[k].tagType, tags[k].initialValue, old(tags[k].currentValue))
        invariant forall k :: i <= k < |tags| ==> tags[k].currentValue == old(tags[k].currentValue)
        invariant pending == old(InitWrites(tags[i..]))
        invariant ApplyWrites(plc.addressValues, pending) == target
      {
        ghost var m := plc.addressValues;
        ghost var w := old(InitWriteOf(tags[i]));
        ghost var rest := old(InitWrites(tags[i + 1..]));
        assert pending == w + rest by {
          assert tags[i..][0] == tags[i] && tags[i..][1..] == tags[i + 1..];
        }
        ApplyOneWrite(m, w, rest);
        InitializeOutputTag(i);
        assert InitWriteOf(tags[i]) == w;
        pending := rest;
        i := i + 1;
      }
    }
  }
}
