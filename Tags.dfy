/**
  Model of DataConcentrator/Tag.cs: an I/O point whose characteristics are gated
  by its type, and which owns the list of alarms of an analog-input point.

  `CurrentValue`, `WriteValue` and `GetCurrentValue` are used by
  DataConcentrator/DataCollector.cs but are not declared in Tag.cs; they are
  modelled here with the contract the repository's own tests expect of them.
 */
module Tags {
  import opened Common
  import opened Alarms

  const MaxTagIdLength := 50
  const MaxDescriptionLength := 300
  const MinIOAddress := 0
  const MaxIOAddress := 65535

  predicate IsInputType(t: TagType) { t == DI || t == AI }
  predicate IsOutputType(t: TagType) { t == DO || t == AO }
  predicate IsAnalogType(t: TagType) { t == AI || t == AO }
  predicate IsDigitalType(t: TagType) { t == DI || t == DO }
  predicate IsAnalogInputType(t: TagType) { IsInputType(t) && IsAnalogType(t) }

  /** Every type is exactly one of input/output and exactly one of analog/digital; only AI is analog input. */
  lemma TypeClassification(t: TagType)
    ensures IsInputType(t) != IsOutputType(t)
    ensures IsAnalogType(t) != IsDigitalType(t)
    ensures IsAnalogInputType(t) <==> t == AI
  {
  }

  /** The type gate of each `ValidateAndSet*`: InvalidOperationException outside the allowed types. */
  function Gate(allowed: bool): Outcome {
    if allowed then Pass else Fail(InvalidOperation)
  }

  /** The type gates: scan settings on DI/AI, limits and units on AI/AO, the initial value on DO/AO. */
  lemma CharacteristicGates(t: TagType)
    ensures Gate(IsInputType(t)).Pass? <==> t in {DI, AI}
    ensures Gate(IsAnalogType(t)).Pass? <==> t in {AI, AO}
    ensures Gate(IsOutputType(t)).Pass? <==> t in {DO, AO}
  {
  }

  /**
    `WriteValue` (absent from Tag.cs): only output tags accept a value, and a
    digital output only 0 or 1.
   */
  function CheckWrite(t: TagType, value: real): Outcome {
    if !IsOutputType(t) then Fail(InvalidOperation)
    else if IsDigitalType(t) && value != 0.0 && value != 1.0 then Fail(Argument)
    else Pass
  }

  /** A digital output accepts exactly 0 and 1; an analog output accepts every value; inputs accept none. */
  lemma WriteDomain(value: real)
    ensures CheckWrite(DO, value).Pass? <==> value == 0.0 || value == 1.0
    ensures CheckWrite(AO, value).Pass?
    ensures CheckWrite(DI, value).Fail? && CheckWrite(AI, value).Fail?
  {
  }

  // ---------------------------------------------------------------------------
  // ValidateConfiguration
  // ---------------------------------------------------------------------------

  predicate IsDecimalDigit(c: char) { '0' <= c <= '9' }

  predicate IsDecimalNumeral(s: string) {
    |s| > 0 && forall i :: 0 <= i < |s| ==> IsDecimalDigit(s[i])
  }

  /** The value of a string of decimal digits. */
  function DigitsValue(s: string): nat
    requires forall i :: 0 <= i < |s| ==> IsDecimalDigit(s[i])
    decreases |s|
  {
    if s == [] then 0 else 10 * DigitsValue(s[..|s| - 1]) + DigitValue(s[|s| - 1])
  }

  function DigitValue(c: char): nat
    requires IsDecimalDigit(c)
  {
    c as int - '0' as int
  }

  /** IOAddress within [0, 65535], reading the address text as a decimal number. */
  predicate AddressInRange(address: string) {
    IsDecimalNumeral(address) && MinIOAddress <= DigitsValue(address) <= MaxIOAddress
  }

  function CheckConfiguration(id: string, description: string, ioAddress: string): Outcome {
    if IsBlank(id) || Utf16Length(id) > MaxTagIdLength then Fail(InvalidOperation)
    else if IsBlank(description) || Utf16Length(description) > MaxDescriptionLength then Fail(InvalidOperation)
    else if !AddressInRange(ioAddress) then Fail(InvalidOperation)
    else Pass
  }

  lemma {:induction false} DigitsValueBound(s: string)
    requires forall i :: 0 <= i < |s| ==> IsDecimalDigit(s[i])
    ensures DigitsValue(s) < Pow10(|s|)
    decreases |s|
  {
    if s != [] {
      DigitsValueBound(s[..|s| - 1]);
    }
  }

  function Pow10(n: nat): (p: nat)
    ensures p >= 1
  {
    if n == 0 then 1 else 10 * Pow10(n - 1)
  }

  /** Every numeral of at most four digits is a valid address; "65535" is the largest one. */
  lemma ShortNumeralsAreInRange(s: string)
    requires IsDecimalNumeral(s) && |s| <= 4
    ensures AddressInRange(s)
  {
    DigitsValueBound(s);
    assert Pow10(|s|) <= Pow10(4) by {
      var n := |s|;
      assert n == 1 || n == 2 || n == 3 || n == 4;
    }
  }

  // ---------------------------------------------------------------------------
  // Alarm lists
  // ---------------------------------------------------------------------------

  /** No two alarms of the list share an Id: what `AddAlarm` keeps. */
  ghost predicate UniqueAlarmIds(s: seq<Alarm>)
    reads s`id
  {
    forall i, j :: 0 <= i < j < |s| ==> s[i].id != s[j].id
  }

  predicate HasAlarmId(s: seq<Alarm>, alarmId: string)
    reads s
  {
    exists k :: 0 <= k < |s| && s[k].id == alarmId
  }

  /** `FirstOrDefault(a => a.Id == alarmId)`, as an index: the first alarm with that Id, or -1. */
  function FindAlarmIndex(s: seq<Alarm>, alarmId: string): (k: int)
    reads s
    ensures -1 <= k < |s|
    ensures k == -1 <==> !HasAlarmId(s, alarmId)
    ensures 0 <= k ==> s[k].id == alarmId && forall j :: 0 <= j < k ==> s[j].id != alarmId
  {
    if s == [] then -1
    else if s[0].id == alarmId then 0
    else
      var k := FindAlarmIndex(s[1..], alarmId);
      if k == -1 then -1 else k + 1
  }

  /** With unique Ids, dropping the alarm found for an Id leaves no alarm with that Id. */
  lemma RemovedIdIsGone(s: seq<Alarm>, alarmId: string)
    requires UniqueAlarmIds(s)
    requires FindAlarmIndex(s, alarmId) != -1
    ensures var k := FindAlarmIndex(s, alarmId);
            !HasAlarmId(s[..k] + s[k + 1..], alarmId) && UniqueAlarmIds(s[..k] + s[k + 1..])
  {
    var k := FindAlarmIndex(s, alarmId);
    var r := s[..k] + s[k + 1..];
    forall j | 0 <= j < |r|
      ensures r[j].id != alarmId
    {
      if j < k { assert r[j] == s[j]; } else { assert r[j] == s[j + 1]; }
    }
  }

  /** The states of the alarms of a list, position by position. */
  function States(s: seq<Alarm>): (r: seq<AlarmState>)
    reads s
    ensures |r| == |s|
  {
    seq(|s|, k requires 0 <= k < |s| reads s => s[k].State())
  }

  /** Whether each alarm's trigger condition holds for the value, position by position. */
  function Conditions(s: seq<Alarm>, value: real): (r: seq<bool>)
    reads s
    ensures |r| == |s|
  {
    seq(|s|, k requires 0 <= k < |s| reads s => s[k].CheckTriggerCondition(value))
  }

  function ActivationMarks(before: seq<AlarmState>, holds: seq<bool>): (r: seq<bool>)
    requires |holds| == |before|
    ensures |r| == |before|
  {
    seq(|before|, k requires 0 <= k < |before| => WouldActivate(before[k], holds[k]))
  }

  function ResetMarks(before: seq<AlarmState>, holds: seq<bool>): (r: seq<bool>)
    requires |holds| == |before|
    ensures |r| == |before|
  {
    seq(|before|, k requires 0 <= k < |before| => WouldReset(before[k], holds[k]))
  }

  /** The elements of `s` whose mark is set, in list order. */
  function Marked<T>(s: seq<T>, marks: seq<bool>): seq<T>
    requires |marks| == |s|
    decreases |s|
  {
    if s == [] then []
    else
      var n := |s| - 1;
      Marked(s[..n], marks[..n]) + (if marks[n] then [s[n]] else [])
  }

  /** Collecting one more position of a prefix. */
  lemma MarkedExtend<T>(s: seq<T>, marks: seq<bool>, i: nat)
    requires |marks| == |s| && i < |s|
    ensures Marked(s[..i + 1], marks[..i + 1]) == Marked(s[..i], marks[..i]) + (if marks[i] then [s[i]] else [])
  {
    assert s[..i + 1][..i] == s[..i] && marks[..i + 1][..i] == marks[..i];
  }

  /** An element is collected exactly when it occurs at a marked position. */
  lemma {:induction false} MarkedMembers<T>(s: seq<T>, marks: seq<bool>, x: T)
    requires |marks| == |s|
    ensures x in Marked(s, marks) <==> exists k :: 0 <= k < |s| && s[k] == x && marks[k]
    decreases |s|
  {
    if s != [] {
      var n := |s| - 1;
      MarkedMembers(s[..n], marks[..n], x);
      if x in Marked(s[..n], marks[..n]) {
        var k :| 0 <= k < n && s[..n][k] == x && marks[..n][k];
        assert s[k] == x && marks[k];
      }
      if exists k :: 0 <= k < |s| && s[k] == x && marks[k] {
        var k :| 0 <= k < |s| && s[k] == x && marks[k];
        if k < n {
          assert s[..n][k] == x && marks[..n][k];
        }
      }
    }
  }

  /** Nothing is collected when no position is marked. */
  lemma {:induction false} MarkedNone<T>(s: seq<T>, marks: seq<bool>)
    requires |marks| == |s|
    requires forall k :: 0 <= k < |s| ==> !marks[k]
    ensures Marked(s, marks) == []
    decreases |s|
  {
    if s != [] {
      MarkedNone(s[..|s| - 1], marks[..|s| - 1]);
    }
  }

  /** Collecting from a list without repetitions collects no element twice. */
  lemma {:induction false} MarkedIsDistinct<T>(s: seq<T>, marks: seq<bool>)
    requires |marks| == |s|
    requires IsDistinct(s)
    ensures IsDistinct(Marked(s, marks))
    decreases |s|
  {
    if s != [] {
      var n := |s| - 1;
      var p := Marked(s[..n], marks[..n]);
      MarkedIsDistinct(s[..n], marks[..n]);
      if marks[n] {
        var r := p + [s[n]];
        forall i, j | 0 <= i < j < |r|
          ensures r[i] != r[j]
        {
          if j == |p| {
            MarkedMembers(s[..n], marks[..n], p[i]);
            assert r[i] == p[i] && p[i] in p;
          } else {
            assert r[i] == p[i] && r[j] == p[j];
          }
        }
        assert Marked(s, marks) == r;
      }
    }
  }

  /** Alarms with unique Ids are distinct objects. */
  lemma UniqueIdsAreDistinct(s: seq<Alarm>)
    requires UniqueAlarmIds(s)
    ensures IsDistinct(s)
  {
  }

  /** The loop of `CheckAlarms`: TryActivate on each alarm of a list without repetitions, in order. */
  method ActivateEach(list: seq<Alarm>, value: real, now: Time) returns (fired: seq<Alarm>)
    requires IsDistinct(list)
    modifies list`isActive, list`isAcknowledged, list`activationTime
    ensures forall k :: 0 <= k < |list| ==>
              list[k].State() == TryActivateStep(old(list[k].State()), list[k].CheckTriggerCondition(value), now).next
    ensures fired == Marked(list, old(ActivationMarks(States(list), Conditions(list, value))))
  {
    ghost var before := States(list);
    ghost var holds := Conditions(list, value);
    ghost var marks := ActivationMarks(before, holds);
    ghost var after := seq(|before|, k requires 0 <= k < |before| => TryActivateStep(before[k], holds[k], now).next);
    fired := [];
    var i := 0;
    while i < |list|
      invariant 0 <= i <= |list|
      invariant forall k :: 0 <= k < |list| ==> list[k].State() == if k < i then after[k] else before[k]
      invariant fired == Marked(list[..i], marks[..i])
    {
      var alarm := list[i];
      assert alarm.CheckTriggerCondition(value) == holds[i];
      label Pre:
      var activated := alarm.TryActivate(value, now);
      assert activated == marks[i];
      forall k | 0 <= k < |list|
        ensures list[k].State() == if k <= i then after[k] else before[k]
      {
        if k != i {
          assert list[k] != alarm;
          assert list[k].State() == old@Pre(list[k].State());
        }
      }
      fired := fired + if activated then [alarm] else [];
      MarkedExtend(list, marks, i);
      i := i + 1;
    }
    assert list[..i] == list;
    assert marks[..i] == marks;
  }

  /** The loop of `ResetAlarms`: Reset on each active and acknowledged alarm of a list without repetitions, in order. */
  method ResetEach(list: seq<Alarm>, value: real) returns (reset: seq<Alarm>)
    requires IsDistinct(list)
    modifies list`isActive, list`activationTime
    ensures forall k :: 0 <= k < |list| ==>
              list[k].State() == ResetStep(old(list[k].State()), list[k].CheckTriggerCondition(value)).next
    ensures reset == Marked(list, old(ResetMarks(States(list), Conditions(list, value))))
  {
    ghost var before := States(list);
    ghost var holds := Conditions(list, value);
    ghost var marks := ResetMarks(before, holds);
    ghost var after := seq(|before|, k requires 0 <= k < |before| => ResetStep(before[k], holds[k]).next);
    reset := [];
    var i := 0;
    while i < |list|
      invariant 0 <= i <= |list|
      invariant forall k :: 0 <= k < |list| ==> list[k].State() == if k < i then after[k] else before[k]
      invariant reset == Marked(list[..i], marks[..i])
    {
      var alarm := list[i];
      assert alarm.CheckTriggerCondition(value) == holds[i];
      label Pre:
      var ok := false;
      if alarm.isActive && alarm.isAcknowledged {
        ok := alarm.Reset(value);
      }
      ResetIsGated(before[i], holds[i]);
      assert ok == marks[i];
      forall k | 0 <= k < |list|
        ensures list[k].State() == if k <= i then after[k] else before[k]
      {
        if k != i {
          assert list[k] != alarm;
          assert list[k].State() == old@Pre(list[k].State());
        }
      }
      reset := reset + if ok then [alarm] else [];
      MarkedExtend(list, marks, i);
      i := i + 1;
    }
    assert list[..i] == list;
    assert marks[..i] == marks;
  }

  /** Whether each alarm is active, position by position. */
  function ActiveMarks(s: seq<Alarm>): (r: seq<bool>)
    reads s
    ensures |r| == |s|
  {
    seq(|s|, k requires 0 <= k < |s| reads s => s[k].isActive)
  }

  /** Whether each alarm is active and not yet acknowledged, position by position. */
  function UnacknowledgedMarks(s: seq<Alarm>): (r: seq<bool>)
    reads s
    ensures |r| == |s|
  {
    seq(|s|, k requires 0 <= k < |s| reads s => s[k].isActive && !s[k].isAcknowledged)
  }

  /**
    `GetActiveAlarms`: `Where(a => a.IsActive).ToList()`, the active alarms in
    list order, each as often as it is listed.
   */
  function ActiveAmong(s: seq<Alarm>): (r: seq<Alarm>)
    reads s
    ensures r == Marked(s, ActiveMarks(s))
    decreases |s|
  {
    if s == [] then []
    else
      var n := |s| - 1;
      assert ActiveMarks(s)[..n] == ActiveMarks(s[..n]);
      ActiveAmong(s[..n]) + (if s[n].isActive then [s[n]] else [])
  }

  /**
    `GetUnacknowledgedAlarms`: `Where(a => a.IsActive && !a.IsAcknowledged).ToList()`,
    in list order, each as often as it is listed.
   */
  function UnacknowledgedAmong(s: seq<Alarm>): (r: seq<Alarm>)
    reads s
    ensures r == Marked(s, UnacknowledgedMarks(s))
    decreases |s|
  {
    if s == [] then []
    else
      var n := |s| - 1;
      assert UnacknowledgedMarks(s)[..n] == UnacknowledgedMarks(s[..n]);
      UnacknowledgedAmong(s[..n]) + (if s[n].isActive && !s[n].isAcknowledged then [s[n]] else [])
  }

  /** The two filters keep exactly the alarms their condition selects, and from a list without repetitions none twice. */
  lemma FiltersSelectExactly(s: seq<Alarm>, x: Alarm)
    ensures x in ActiveAmong(s) <==> x in s && x.isActive
    ensures x in UnacknowledgedAmong(s) <==> x in s && x.isActive && !x.isAcknowledged
    ensures IsDistinct(s) ==> IsDistinct(ActiveAmong(s)) && IsDistinct(UnacknowledgedAmong(s))
  {
    MarkedMembers(s, ActiveMarks(s), x);
    MarkedMembers(s, UnacknowledgedMarks(s), x);
    if IsDistinct(s) {
      MarkedIsDistinct(s, ActiveMarks(s));
      MarkedIsDistinct(s, UnacknowledgedMarks(s));
    }
  }

  // ---------------------------------------------------------------------------
  // The tag object
  // ---------------------------------------------------------------------------

  class Tag {
    const id: string
    var description: string
    var ioAddress: string
    const tagType: TagType
    var scanTime: Option<real>
    var onOffScan: Option<bool>
    var lowLimit: Option<real>
    var highLimit: Option<real>
    var units: Option<string>
    var initialValue: Option<real>
    var currentValue: Option<real>
    var alarms: seq<Alarm>

    /** What `AddAlarm` keeps: alarm Ids are unique within the tag. */
    ghost predicate Valid()
      reads this`alarms, alarms`id
    {
      UniqueAlarmIds(alarms)
    }

    constructor (tagType: TagType, id: string, description: string, ioAddress: string)
      ensures this.tagType == tagType && this.id == id
      ensures this.description == description && this.ioAddress == ioAddress
      ensures scanTime == None && onOffScan == None && lowLimit == None && highLimit == None
      ensures units == None && initialValue == None && currentValue == None
      ensures alarms == [] && Valid()
    {
      this.tagType := tagType;
      this.id := id;
      this.description := description;
      this.ioAddress := ioAddress;
      scanTime, onOffScan, lowLimit, highLimit := None, None, None, None;
      units, initialValue, currentValue := None, None, None;
      alarms := [];
    }

    method ValidateAndSetScanTime(value: Option<real>) returns (o: Outcome)
      modifies this`scanTime
      ensures o == Gate(IsInputType(tagType))
      ensures scanTime == if o.Pass? then value else old(scanTime)
    {
      o := Gate(IsInputType(tagType));
      if o.Pass? {
        scanTime := value;
      }
    }

    method ValidateAndSetOnOffScan(value: Option<bool>) returns (o: Outcome)
      modifies this`onOffScan
      ensures o == Gate(IsInputType(tagType))
      ensures onOffScan == if o.Pass? then value else old(onOffScan)
    {
      o := Gate(IsInputType(tagType));
      if o.Pass? {
        onOffScan := value;
      }
    }

    method ValidateAndSetLowLimit(value: Option<real>) returns (o: Outcome)
      modifies this`lowLimit
      ensures o == Gate(IsAnalogType(tagType))
      ensures lowLimit == if o.Pass? then value else old(lowLimit)
    {
      o := Gate(IsAnalogType(tagType));
      if o.Pass? {
        lowLimit := value;
      }
    }

    method ValidateAndSetHighLimit(value: Option<real>) returns (o: Outcome)
      modifies this`highLimit
      ensures o == Gate(IsAnalogType(tagType))
      ensures highLimit == if o.Pass? then value else old(highLimit)
    {
      o := Gate(IsAnalogType(tagType));
      if o.Pass? {
        highLimit := value;
      }
    }

    method ValidateAndSetUnits(value: Option<string>) returns (o: Outcome)
      modifies this`units
      ensures o == Gate(IsAnalogType(tagType))
      ensures units == if o.Pass? then value else old(units)
    {
      o := Gate(IsAnalogType(tagType));
      if o.Pass? {
        units := value;
      }
    }

    method ValidateAndSetInitialValue(value: Option<real>) returns (o: Outcome)
      modifies this`initialValue
      ensures o == Gate(IsOutputType(tagType))
      ensures initialValue == if o.Pass? then value else old(initialValue)
    {
      o := Gate(IsOutputType(tagType));
      if o.Pass? {
        initialValue := value;
      }
    }

    /** Not in Tag.cs; the contract its callers and tests rely on. */
    method WriteValue(value: real) returns (o: Outcome)
      modifies this`currentValue
      ensures o == CheckWrite(tagType, value)
      ensures currentValue == if o.Pass? then Some(value) else old(currentValue)
    {
      o := CheckWrite(tagType, value);
      if o.Pass? {
        currentValue := Some(value);
      }
    }

    /** Not in Tag.cs: the cached value, null before the first scan or write. */
    function GetCurrentValue(): Option<real>
      reads this
    {
      currentValue
    }

    method AddAlarm(alarm: Alarm?) returns (o: Outcome)
      modifies this`alarms, alarm
      ensures old(Valid()) ==> Valid()
      ensures !IsAnalogInputType(tagType) ==> o == Fail(InvalidOperation)
      ensures IsAnalogInputType(tagType) && alarm == null ==> o == Fail(ArgumentNull)
      ensures IsAnalogInputType(tagType) && alarm != null ==>
                o == if HasAlarmId(old(alarms), alarm.id) then Fail(InvalidOperation) else Pass
      ensures o.Pass? ==> alarm != null && alarms == old(alarms) + [alarm] && alarm.tagId == Some(id)
      ensures o.Fail? ==> alarms == old(alarms) && (alarm != null ==> alarm.tagId == old(alarm.tagId))
      ensures alarm != null ==> alarm.Rule() == old(alarm.Rule()) && alarm.State() == old(alarm.State())
    {
      if !IsAnalogInputType(tagType) {
        return Fail(InvalidOperation);
      }
      if alarm == null {
        return Fail(ArgumentNull);
      }
      if FindAlarmIndex(alarms, alarm.id) != -1 {
        return Fail(InvalidOperation);
      }
      alarm.tagId := Some(id);
      alarms := alarms + [alarm];
      return Pass;
    }

    method RemoveAlarm(alarmId: string) returns (r: Result<bool>)
      requires Valid()
      modifies this`alarms
      ensures Valid()
      ensures !IsAnalogInputType(tagType) ==> r == Err(InvalidOperation) && alarms == old(alarms)
      ensures IsAnalogInputType(tagType) ==>
                var k := FindAlarmIndex(old(alarms), alarmId);
                && r == Ok(k != -1)
                && alarms == (if k == -1 then old(alarms) else old(alarms[..k] + alarms[k + 1..]))
      ensures !HasAlarmId(alarms, alarmId) || !IsAnalogInputType(tagType)
    {
      if !IsAnalogInputType(tagType) {
        return Err(InvalidOperation);
      }
      var k := FindAlarmIndex(alarms, alarmId);
      if k != -1 {
        var alarm := alarms[k];
        assert alarm !in alarms[..k];
        alarms := RemoveFirst(alarms, alarm);
        RemovedIdIsGone(old(alarms), alarmId);
        return Ok(true);
      }
      return Ok(false);
    }

    function GetAlarm(alarmId: string): (r: Option<Alarm>)
      reads this, alarms
      ensures r.None? <==> !HasAlarmId(alarms, alarmId)
      ensures r.Some? ==> r.value in alarms && r.value.id == alarmId
      ensures r.Some? ==> r.value == alarms[FindAlarmIndex(alarms, alarmId)]
    {
      var k := FindAlarmIndex(alarms, alarmId);
      if k == -1 then None else Some(alarms[k])
    }

    /**
      `CheckAlarms`: TryActivate on every alarm; returns, in list order, those
      that were activated by this call. A non-AI tag returns an empty list.
     */
    method CheckAlarms(value: real, now: Time) returns (fired: seq<Alarm>)
      requires Valid()
      modifies alarms`isActive, alarms`isAcknowledged, alarms`activationTime
      ensures !IsAnalogInputType(tagType) ==>
                fired == [] && forall k :: 0 <= k < |alarms| ==> alarms[k].State() == old(alarms[k].State())
      ensures IsAnalogInputType(tagType) ==>
                forall k :: 0 <= k < |alarms| ==>
                  alarms[k].State() == TryActivateStep(old(alarms[k].State()), alarms[k].CheckTriggerCondition(value), now).next
      ensures IsAnalogInputType(tagType) ==>
                fired == Marked(alarms, old(ActivationMarks(States(alarms), Conditions(alarms, value))))
    {
      if !IsAnalogInputType(tagType) {
        return [];
      }
      UniqueIdsAreDistinct(alarms);
      fired := ActivateEach(alarms, value, now);
    }

    /** `GetAlarms`: the alarms, as a read-only view of the same list. */
    function GetAlarms(): seq<Alarm>
      reads this
    {
      alarms
    }

    /**
      `ResetAlarms`: Reset on every alarm that is active and acknowledged; returns,
      in list order, those that were reset. A non-AI tag returns an empty list.
     */
    method ResetAlarms(value: real) returns (reset: seq<Alarm>)
      requires Valid()
      modifies alarms`isActive, alarms`activationTime
      ensures !IsAnalogInputType(tagType) ==>
                reset == [] && forall k :: 0 <= k < |alarms| ==> alarms[k].State() == old(alarms[k].State())
      ensures IsAnalogInputType(tagType) ==>
                forall k :: 0 <= k < |alarms| ==>
                  alarms[k].State() == ResetStep(old(alarms[k].State()), alarms[k].CheckTriggerCondition(value)).next
      ensures IsAnalogInputType(tagType) ==>
                reset == Marked(alarms, old(ResetMarks(States(alarms), Conditions(alarms, value))))
    {
      if !IsAnalogInputType(tagType) {
        return [];
      }
      UniqueIdsAreDistinct(alarms);
      reset := ResetEach(alarms, value);
    }

    method AcknowledgeAlarm(alarmId: string) returns (r: Result<bool>)
      modifies alarms`isAcknowledged
      ensures !IsAnalogInputType(tagType) ==> r == Err(InvalidOperation)
      ensures IsAnalogInputType(tagType) && !HasAlarmId(alarms, alarmId) ==> r == Ok(false)
      ensures IsAnalogInputType(tagType) && HasAlarmId(alarms, alarmId) ==>
                var found := alarms[FindAlarmIndex(alarms, alarmId)];
                && r == Ok(AcknowledgeStep(old(found.State())).result)
                && found.State() == AcknowledgeStep(old(found.State())).next
      ensures forall a :: a in alarms && (!IsAnalogInputType(tagType) || GetAlarm(alarmId) != Some(a)) ==>
                a.State() == old(a.State())
    {
      if !IsAnalogInputType(tagType) {
        return Err(InvalidOperation);
      }
      var found := GetAlarm(alarmId);
      if found.Some? {
        var ok := found.value.Acknowledge();
        return Ok(ok);
      }
      return Ok(false);
    }

    function GetActiveAlarms(): (r: seq<Alarm>)
      reads this, alarms
    {
      ActiveAmong(alarms)
    }

    function GetUnacknowledgedAlarms(): (r: seq<Alarm>)
      reads this, alarms
    {
      UnacknowledgedAmong(alarms)
    }

    /**
      `ValidateConfiguration`: throws exactly when the Id or the Description is
      blank or longer than its bound in UTF-16 code units, or the IOAddress lies
      outside [0, 65535].
     */
    function ValidateConfiguration(): (o: Outcome)
      reads this
      ensures o.Pass? <==>
                && !IsBlank(id) && Utf16Length(id) <= MaxTagIdLength
                && !IsBlank(description) && Utf16Length(description) <= MaxDescriptionLength
                && AddressInRange(ioAddress)
      ensures o.Fail? ==> o.error == InvalidOperation
    {
      CheckConfiguration(id, description, ioAddress)
    }
  }

  /** Calling CheckAlarms twice with the same value: the second call activates nothing. */
  lemma CheckAlarmsIsEdgeTriggered(s: seq<Alarm>, before: seq<AlarmState>, after: seq<AlarmState>, holds: seq<bool>, now: Time)
    requires |before| == |s| && |after| == |s| && |holds| == |s|
    requires forall k :: 0 <= k < |s| ==> after[k] == TryActivateStep(before[k], holds[k], now).next
    ensures Marked(s, ActivationMarks(after, holds)) == []
  {
    var marks := ActivationMarks(after, holds);
    forall k | 0 <= k < |s|
      ensures !marks[k]
    {
      TryActivateSettles(before[k], holds[k], now);
    }
    MarkedNone(s, marks);
  }

  /**
    The alarms CheckAlarms returns are exactly those that were inactive and whose
    condition held, and none is returned twice.
   */
  lemma CheckAlarmsReturnsTheActivated(s: seq<Alarm>, before: seq<AlarmState>, holds: seq<bool>, a: Alarm)
    requires |before| == |s| && |holds| == |s|
    requires UniqueAlarmIds(s)
    ensures a in Marked(s, ActivationMarks(before, holds)) <==>
              exists k :: 0 <= k < |s| && s[k] == a && WouldActivate(before[k], holds[k])
    ensures IsDistinct(Marked(s, ActivationMarks(before, holds)))
  {
    MarkedMembers(s, ActivationMarks(before, holds), a);
    MarkedIsDistinct(s, ActivationMarks(before, holds));
  }
}
