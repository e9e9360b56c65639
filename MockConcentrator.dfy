/**
  Model of ScadaGUI/Services/MockDataConcentratorService.cs: the GUI's own
  polling loop. One pass of `ReadValuesFromPLC` refreshes every scanning tag
  from the PLC and then re-evaluates the tag's alarm definitions in a
  level-triggered way: an active-alarm entry exists for every condition that
  holds (one per tag name and message), and all of a tag's entries disappear as
  soon as none of its conditions holds. The 500 ms `System.Timers.Timer` that
  triggers a pass is replaced by explicit calls.

  The pass is specified by pure functions over the active list (`Raise`,
  `Clear`, `Evaluate`, `ScanPass`); the lemmas state what the pass means.
 */
module MockConcentrator {
  import opened Common
  import opened GuiModels
  import opened MockDatabase
  import Plc

  /** An alarm's condition at a value: strict in both directions. */
  predicate Holds(a: GuiAlarm, value: real) {
    || (a.kind == Above && value > a.limit)
    || (a.kind == Below && value < a.limit)
  }

  /** `_activeAlarms.Any(a => a.TagName == name && a.Message == message)`. */
  predicate HasEntry(active: seq<ActiveAlarm>, name: string, message: string) {
    exists k :: 0 <= k < |active| && active[k].tagName == name && active[k].message == message
  }

  /** No (TagName, Message) pair is listed twice. */
  predicate UniquePairs(active: seq<ActiveAlarm>) {
    forall i, j :: 0 <= i < j < |active| ==> active[i].tagName != active[j].tagName || active[i].message != active[j].message
  }

  /** Some alarm of the tag named `name` holds at `value`. */
  predicate AnyHolds(name: string, value: real, rules: seq<GuiAlarm>) {
    exists k :: 0 <= k < |rules| && rules[k].tagName == name && Holds(rules[k], value)
  }

  /**
    The inner foreach over the alarms of the tag named `name`: each alarm whose
    condition holds and whose message is not yet listed for the tag appends an
    entry stamped `now`.
   */
  function Raise(active: seq<ActiveAlarm>, name: string, value: real, rules: seq<GuiAlarm>, now: Time): seq<ActiveAlarm>
    decreases |rules|
  {
    if rules == [] then active
    else
      var n := |rules| - 1;
      var before := Raise(active, name, value, rules[..n], now);
      var a := rules[n];
      if a.tagName == name && Holds(a, value) && !HasEntry(before, name, a.message)
      then before + [ActiveAlarm(now, name, a.message)]
      else before
  }

  /** `_activeAlarms.Where(a => a.TagName == name)`. */
  function Matching(active: seq<ActiveAlarm>, name: string): seq<ActiveAlarm>
    decreases |active|
  {
    if active == [] then []
    else (if active[0].tagName == name then [active[0]] else []) + Matching(active[1..], name)
  }

  /** The active list without the entries of the tag named `name`, in order. */
  function Clear(active: seq<ActiveAlarm>, name: string): seq<ActiveAlarm>
    decreases |active|
  {
    if active == [] then []
    else (if active[0].tagName == name then [] else [active[0]]) + Clear(active[1..], name)
  }

  /**
    What one tag does to the active list, given its value after the scan step:
    nothing when the value is null; otherwise raise the holding alarms, or
    clear the tag's entries when none holds.
   */
  function Evaluate(active: seq<ActiveAlarm>, name: string, value: Option<real>, rules: seq<GuiAlarm>, now: Time): seq<ActiveAlarm> {
    if value.None? then active
    else if AnyHolds(name, value.value, rules) then Raise(active, name, value.value, rules, now)
    else Clear(active, name)
  }

  /** A tag's name and its value after the scan step. */
  datatype Reading = Reading(name: string, value: Option<real>)

  /** `if (tag.IsScanning == true) tag.CurrentValue = _plc.GetAnalogValue(tag.IOAddress)`. */
  function ScannedValue(scanning: Option<bool>, current: Option<real>, registers: map<string, Plc.Register>, address: string): Option<real> {
    if scanning == Some(true) then Some(Plc.Read(registers, address)) else current
  }

  function ReadingOf(t: GuiTag, registers: map<string, Plc.Register>): Reading
    reads t`characteristics, t`currentValue
  {
    Reading(t.name, ScannedValue(t.IsScanning(), t.currentValue, registers, t.ioAddress))
  }

  function Readings(tags: seq<GuiTag>, registers: map<string, Plc.Register>): (r: seq<Reading>)
    reads tags`characteristics, tags`currentValue
    ensures |r| == |tags|
    decreases |tags|
  {
    if tags == [] then []
    else Readings(tags[..|tags| - 1], registers) + [ReadingOf(tags[|tags| - 1], registers)]
  }

  /** The readings of a list are those of its tags, position by position. */
  lemma {:induction false} ReadingsPointwise(tags: seq<GuiTag>, registers: map<string, Plc.Register>)
    ensures forall k :: 0 <= k < |tags| ==> Readings(tags, registers)[k] == ReadingOf(tags[k], registers)
    decreases |tags|
  {
    if tags != [] {
      var n := |tags| - 1;
      ReadingsPointwise(tags[..n], registers);
      assert forall k :: 0 <= k < n ==> tags[..n][k] == tags[k];
    }
  }

  /** The whole pass over the tags, in list order. */
  function ScanPass(active: seq<ActiveAlarm>, readings: seq<Reading>, rules: seq<GuiAlarm>, now: Time): seq<ActiveAlarm>
    decreases |readings|
  {
    if readings == [] then active
    else
      var n := |readings| - 1;
      Evaluate(ScanPass(active, readings[..n], rules, now), readings[n].name, readings[n].value, rules, now)
  }

  /** Evaluating one more reading of a prefix. */
  lemma ScanPassStep(active: seq<ActiveAlarm>, readings: seq<Reading>, i: nat, rules: seq<GuiAlarm>, now: Time)
    requires i < |readings|
    ensures ScanPass(active, readings[..i + 1], rules, now)
            == Evaluate(ScanPass(active, readings[..i], rules, now), readings[i].name, readings[i].value, rules, now)
  {
    assert readings[..i + 1][..i] == readings[..i];
  }

  // ---------------------------------------------------------------------------
  // Raising
  // ---------------------------------------------------------------------------

  /** Raising only appends, and only entries of this tag, stamped `now`, for one of its holding alarms. */
  lemma {:induction false} RaiseAppends(active: seq<ActiveAlarm>, name: string, value: real, rules: seq<GuiAlarm>, now: Time)
    ensures var r := Raise(active, name, value, rules, now);
            && |active| <= |r| && r[..|active|] == active
            && forall k :: |active| <= k < |r| ==>
                 && r[k].tagName == name && r[k].time == now
                 && exists j :: 0 <= j < |rules| && rules[j].tagName == name && Holds(rules[j], value) && rules[j].message == r[k].message
    decreases |rules|
  {
    if rules != [] {
      var n := |rules| - 1;
      RaiseAppends(active, name, value, rules[..n], now);
      var before := Raise(active, name, value, rules[..n], now);
      var r := Raise(active, name, value, rules, now);
      forall k | |active| <= k < |r|
        ensures exists j :: 0 <= j < |rules| && rules[j].tagName == name && Holds(rules[j], value) && rules[j].message == r[k].message
      {
        if k < |before| {
          assert r[k] == before[k];
          assert exists j :: 0 <= j < |rules[..n]| && rules[..n][j].tagName == name && Holds(rules[..n][j], value) && rules[..n][j].message == before[k].message;
          var j :| 0 <= j < |rules[..n]| && rules[..n][j].tagName == name && Holds(rules[..n][j], value) && rules[..n][j].message == before[k].message;
          assert rules[j] == rules[..n][j];
        } else {
          assert r[k].message == rules[n].message;
        }
      }
    }
  }

  /** When none of the tag's alarms holds, raising changes nothing. */
  lemma {:induction false} RaiseWithoutHolding(active: seq<ActiveAlarm>, name: string, value: real, rules: seq<GuiAlarm>, now: Time)
    requires !AnyHolds(name, value, rules)
    ensures Raise(active, name, value, rules, now) == active
    decreases |rules|
  {
    if rules != [] {
      var n := |rules| - 1;
      assert !AnyHolds(name, value, rules[..n]) by {
        forall k | 0 <= k < n
          ensures !(rules[..n][k].tagName == name && Holds(rules[..n][k], value))
        {
          assert rules[..n][k] == rules[k];
        }
      }
      RaiseWithoutHolding(active, name, value, rules[..n], now);
    }
  }

  /** After raising, every holding alarm of the tag has an entry with its message. */
  lemma {:induction false} RaiseCovers(active: seq<ActiveAlarm>, name: string, value: real, rules: seq<GuiAlarm>, now: Time, j: int)
    requires 0 <= j < |rules| && rules[j].tagName == name && Holds(rules[j], value)
    ensures HasEntry(Raise(active, name, value, rules, now), name, rules[j].message)
    decreases |rules|
  {
    var n := |rules| - 1;
    var before := Raise(active, name, value, rules[..n], now);
    var r := Raise(active, name, value, rules, now);
    if j < n {
      assert rules[..n][j] == rules[j];
      RaiseCovers(active, name, value, rules[..n], now, j);
      var k :| 0 <= k < |before| && before[k].tagName == name && before[k].message == rules[j].message;
      assert r[k] == before[k];
    } else if !HasEntry(before, name, rules[n].message) {
      assert r[|before|] == ActiveAlarm(now, name, rules[n].message);
    }
  }

  /** Raising appends nothing for a tag whose every holding alarm already has an entry. */
  lemma {:induction false} RaiseCoveredIsNoop(active: seq<ActiveAlarm>, name: string, value: real, rules: seq<GuiAlarm>, now: Time)
    requires forall j :: 0 <= j < |rules| && rules[j].tagName == name && Holds(rules[j], value) ==> HasEntry(active, name, rules[j].message)
    ensures Raise(active, name, value, rules, now) == active
    decreases |rules|
  {
    if rules != [] {
      var n := |rules| - 1;
      forall j | 0 <= j < n && rules[..n][j].tagName == name && Holds(rules[..n][j], value)
        ensures HasEntry(active, name, rules[..n][j].message)
      {
        assert rules[..n][j] == rules[j];
      }
      RaiseCoveredIsNoop(active, name, value, rules[..n], now);
    }
  }

  /** Raising never lists a (TagName, Message) pair twice. */
  lemma {:induction false} RaiseKeepsUniquePairs(active: seq<ActiveAlarm>, name: string, value: real, rules: seq<GuiAlarm>, now: Time)
    requires UniquePairs(active)
    ensures UniquePairs(Raise(active, name, value, rules, now))
    decreases |rules|
  {
    if rules != [] {
      var n := |rules| - 1;
      RaiseKeepsUniquePairs(active, name, value, rules[..n], now);
    }
  }

  // ---------------------------------------------------------------------------
  // Clearing
  // ---------------------------------------------------------------------------

  /** Clearing removes exactly the entries of the tag, keeping the others in order. */
  lemma {:induction false} ClearKeepsOthers(active: seq<ActiveAlarm>, name: string, other: string)
    ensures Matching(Clear(active, name), name) == []
    ensures other != name ==> Matching(Clear(active, name), other) == Matching(active, other)
    ensures forall x :: x in Clear(active, name) <==> x in active && x.tagName != name
    decreases |active|
  {
    if active != [] {
      ClearKeepsOthers(active[1..], name, other);
      var rest := Clear(active[1..], name);
      if active[0].tagName != name {
        assert Clear(active, name) == [active[0]] + rest;
        assert ([active[0]] + rest)[1..] == rest;
      } else {
        assert Clear(active, name) == rest;
      }
    }
  }

  /** Every entry `Where` selects belongs to the tag. */
  lemma {:induction false} MatchingIsOfTag(active: seq<ActiveAlarm>, name: string)
    ensures forall k :: 0 <= k < |Matching(active, name)| ==> Matching(active, name)[k].tagName == name
    decreases |active|
  {
    if active != [] {
      MatchingIsOfTag(active[1..], name);
    }
  }

  /** A list without entries of the tag is its own clearing. */
  lemma {:induction false} NoMatchIsClear(active: seq<ActiveAlarm>, name: string)
    requires Matching(active, name) == []
    ensures Clear(active, name) == active
    decreases |active|
  {
    if active != [] {
      assert active[0].tagName != name;
      NoMatchIsClear(active[1..], name);
      assert active == [active[0]] + active[1..];
    }
  }

  /** Clearing keeps a subsequence, so it never creates a repeated pair. */
  lemma {:induction false} ClearKeepsUniquePairs(active: seq<ActiveAlarm>, name: string)
    requires UniquePairs(active)
    ensures UniquePairs(Clear(active, name))
    decreases |active|
  {
    if active != [] {
      ClearKeepsUniquePairs(active[1..], name);
      ClearKeepsOthers(active[1..], name, name);
    }
  }

  /**
    One `Remove` of the first remaining entry of the tag drops that entry and
    leaves the clearing unchanged: `Remove` finds the entry itself, since every
    equal entry belongs to the tag and none comes earlier.
   */
  lemma {:induction false} RemoveFirstMatch(active: seq<ActiveAlarm>, name: string)
    requires Matching(active, name) != []
    ensures var r := RemoveFirst(active, Matching(active, name)[0]);
            && Clear(r, name) == Clear(active, name)
            && Matching(r, name) == Matching(active, name)[1..]
    decreases |active|
  {
    var x := Matching(active, name)[0];
    MatchingIsOfTag(active, name);
    if active[0] == x {
      assert x.tagName == name;
      assert IndexOf(active, x) == 0;
      assert RemoveFirst(active, x) == active[1..] by {
        assert active[..0] + active[1..] == active[1..];
      }
      assert Matching(active, name) == [x] + Matching(active[1..], name);
      assert Clear(active, name) == Clear(active[1..], name);
    } else {
      assert active[0].tagName != name;
      assert Matching(active, name) == Matching(active[1..], name);
      RemoveFirstMatch(active[1..], name);
      var i := IndexOf(active[1..], x);
      assert IndexOf(active, x) == i + 1;
      var r := RemoveFirst(active, x);
      assert r == [active[0]] + RemoveFirst(active[1..], x) by {
        assert active[..i + 1] == [active[0]] + active[1..][..i];
        assert active[i + 2..] == active[1..][i + 1..];
      }
      assert r[0] == active[0] && r[1..] == RemoveFirst(active[1..], x);
    }
  }

  // ---------------------------------------------------------------------------
  // What a pass means
  // ---------------------------------------------------------------------------

  /**
    After a tag with a value is evaluated, its entries are exactly right in the
    level-triggered sense: every holding alarm has an entry when some alarm
    holds, and the tag has no entry when none holds. Entries of other tags are
    untouched, and a null value changes nothing.
   */
  lemma EvaluateMeaning(active: seq<ActiveAlarm>, name: string, value: Option<real>, rules: seq<GuiAlarm>, now: Time, other: string)
    ensures value.None? ==> Evaluate(active, name, value, rules, now) == active
    ensures value.Some? && AnyHolds(name, value.value, rules) ==>
              forall j :: 0 <= j < |rules| && rules[j].tagName == name && Holds(rules[j], value.value) ==>
                HasEntry(Evaluate(active, name, value, rules, now), name, rules[j].message)
    ensures value.Some? && !AnyHolds(name, value.value, rules) ==>
              Matching(Evaluate(active, name, value, rules, now), name) == []
    ensures other != name ==> Matching(Evaluate(active, name, value, rules, now), other) == Matching(active, other)
  {
    ClearKeepsOthers(active, name, other);
    if value.Some? && AnyHolds(name, value.value, rules) {
      forall j | 0 <= j < |rules| && rules[j].tagName == name && Holds(rules[j], value.value)
        ensures HasEntry(Raise(active, name, value.value, rules, now), name, rules[j].message)
      {
        RaiseCovers(active, name, value.value, rules, now, j);
      }
      if other != name {
        RaiseAppends(active, name, value.value, rules, now);
        MatchingOfExtension(active, Raise(active, name, value.value, rules, now), name, other);
      }
    }
  }

  /** Appending entries of the tag `name` does not change the entries of another tag. */
  lemma {:induction false} MatchingOfExtension(active: seq<ActiveAlarm>, r: seq<ActiveAlarm>, name: string, other: string)
    requires |active| <= |r| && r[..|active|] == active && other != name
    requires forall k :: |active| <= k < |r| ==> r[k].tagName == name
    ensures Matching(r, other) == Matching(active, other)
    decreases |active|
  {
    if active == [] {
      NoOtherMatch(r, other);
    } else {
      assert r[1..][..|active| - 1] == active[1..];
      MatchingOfExtension(active[1..], r[1..], name, other);
    }
  }

  lemma {:induction false} NoOtherMatch(r: seq<ActiveAlarm>, other: string)
    requires forall k :: 0 <= k < |r| ==> r[k].tagName != other
    ensures Matching(r, other) == []
    decreases |r|
  {
    if r != [] {
      NoOtherMatch(r[1..], other);
    }
  }

  /** Level triggering: evaluating the same reading twice in a row is the same as once. */
  lemma EvaluateIsIdempotent(active: seq<ActiveAlarm>, name: string, value: Option<real>, rules: seq<GuiAlarm>, now: Time)
    ensures var once := Evaluate(active, name, value, rules, now);
            Evaluate(once, name, value, rules, now) == once
  {
    if value.Some? {
      var once := Evaluate(active, name, value, rules, now);
      if AnyHolds(name, value.value, rules) {
        forall j | 0 <= j < |rules| && rules[j].tagName == name && Holds(rules[j], value.value)
          ensures HasEntry(once, name, rules[j].message)
        {
          RaiseCovers(active, name, value.value, rules, now, j);
        }
        RaiseCoveredIsNoop(once, name, value.value, rules, now);
      } else {
        ClearKeepsOthers(active, name, name);
        NoMatchIsClear(once, name);
      }
    }
  }

  /** A pass never lists a (TagName, Message) pair twice. */
  lemma {:induction false} PassKeepsUniquePairs(active: seq<ActiveAlarm>, readings: seq<Reading>, rules: seq<GuiAlarm>, now: Time)
    requires UniquePairs(active)
    ensures UniquePairs(ScanPass(active, readings, rules, now))
    decreases |readings|
  {
    if readings != [] {
      var n := |readings| - 1;
      PassKeepsUniquePairs(active, readings[..n], rules, now);
      var before := ScanPass(active, readings[..n], rules, now);
      if readings[n].value.Some? {
        RaiseKeepsUniquePairs(before, readings[n].name, readings[n].value.value, rules, now);
        ClearKeepsUniquePairs(before, readings[n].name);
      }
    }
  }

  // ---------------------------------------------------------------------------
  // The service
  // ---------------------------------------------------------------------------

  class MockDataConcentratorService {
    const db: MockDatabaseService
    const plc: Plc.PlcSimulator
    var activeAlarms: seq<ActiveAlarm>
    /** Number of `ValuesUpdated` events raised. */
    ghost var valuesUpdated: nat

    constructor (db: MockDatabaseService, plc: Plc.PlcSimulator)
      ensures this.db == db && this.plc == plc
      ensures activeAlarms == [] && valuesUpdated == 0
    {
      this.db := db;
      this.plc := plc;
      activeAlarms := [];
      valuesUpdated := 0;
    }

    /**
      `ReadValuesFromPLC`, one tick of the timer: every tag is refreshed and
      evaluated in list order, then `ValuesUpdated` is raised once.
     */
    method ReadValuesFromPLC(now: Time)
      requires db.Valid()
      modifies db.tags`currentValue, this`activeAlarms, this`valuesUpdated
      ensures forall k :: 0 <= k < |db.tags| ==>
                db.tags[k].currentValue == old(ReadingOf(db.tags[k], plc.addressValues)).value
      ensures activeAlarms == ScanPass(old(activeAlarms), old(Readings(db.tags, plc.addressValues)), db.alarms, now)
      ensures valuesUpdated == old(valuesUpdated) + 1
    {
      var tags := db.GetTags();
      var rules := db.GetAlarms();
      ScanTags(tags, rules, now);
      valuesUpdated := valuesUpdated + 1;
    }

    /** The foreach over the tags of one pass. */
    method ScanTags(tags: seq<GuiTag>, rules: seq<GuiAlarm>, now: Time)
      requires IsDistinct(tags)
      modifies tags`currentValue, this`activeAlarms
      ensures forall k :: 0 <= k < |tags| ==> tags[k].currentValue == old(ReadingOf(tags[k], plc.addressValues)).value
      ensures activeAlarms == ScanPass(old(activeAlarms), old(Readings(tags, plc.addressValues)), rules, now)
    {
      ghost var readings := Readings(tags, plc.addressValues);
      ReadingsPointwise(tags, plc.addressValues);
      var i := 0;
      while i < |tags|
        invariant 0 <= i <= |tags|
        invariant forall k :: 0 <= k < |tags| ==> readings[k] == old(ReadingOf(tags[k], plc.addressValues))
        invariant forall k :: 0 <= k < i ==> tags[k].currentValue == readings[k].value
        invariant forall k :: i <= k < |tags| ==> tags[k].currentValue == old(tags[k].currentValue)
        invariant activeAlarms == ScanPass(old(activeAlarms), readings[..i], rules, now)
      {
        var tag := tags[i];
        assert forall k :: 0 <= k < |tags| && k != i ==> tags[k] != tag;
        assert ReadingOf(tag, plc.addressValues) == readings[i];
        ScanTag(tag, rules, now, readings[i]);
        ScanPassStep(old(activeAlarms), readings, i, rules, now);
        i := i + 1;
      }
      assert readings[..i] == readings;
    }

    /** The loop body for one tag: refresh a scanning tag, then evaluate its alarms unless its value is null. */
    method ScanTag(tag: GuiTag, rules: seq<GuiAlarm>, now: Time, ghost reading: Reading)
      requires ReadingOf(tag, plc.addressValues) == reading
      modifies tag`currentValue, this`activeAlarms
      ensures tag.currentValue == reading.value
      ensures activeAlarms == Evaluate(old(activeAlarms), reading.name, reading.value, rules, now)
    {
      if tag.IsScanning() == Some(true) {
        tag.currentValue := Some(plc.GetAnalogValue(tag.ioAddress));
      }
      if tag.currentValue.Some? {
        EvaluateAlarms(tag.name, tag.currentValue.value, rules, now);
      }
    }

    /** The alarm half of the loop body, for a tag whose value is not null. */
    method EvaluateAlarms(name: string, value: real, rules: seq<GuiAlarm>, now: Time)
      modifies this`activeAlarms
      ensures activeAlarms == Evaluate(old(activeAlarms), name, Some(value), rules, now)
    {
      var isAlarmActiveForTag := false;
      var j := 0;
      while j < |rules|
        invariant 0 <= j <= |rules|
        invariant activeAlarms == Raise(old(activeAlarms), name, value, rules[..j], now)
        invariant isAlarmActiveForTag <==> AnyHolds(name, value, rules[..j])
      {
        var alarm := rules[j];
        assert rules[..j + 1][..j] == rules[..j] && rules[..j + 1][j] == alarm;
        if alarm.tagName == name && Holds(alarm, value) {
          isAlarmActiveForTag := true;
          if !HasEntry(activeAlarms, name, alarm.message) {
            activeAlarms := activeAlarms + [ActiveAlarm(now, name, alarm.message)];
          }
        } else {
          assert AnyHolds(name, value, rules[..j + 1]) ==> AnyHolds(name, value, rules[..j]) by {
            if AnyHolds(name, value, rules[..j + 1]) {
              var k :| 0 <= k < j + 1 && rules[..j + 1][k].tagName == name && Holds(rules[..j + 1][k], value);
              assert rules[..j][k] == rules[..j + 1][k];
            }
          }
        }
        j := j + 1;
      }
      assert rules[..j] == rules;
      if !isAlarmActiveForTag {
        RaiseWithoutHolding(old(activeAlarms), name, value, rules, now);
        RemoveAlarmsOf(name);
      }
    }

    /** `alarmsToRemove = ...Where(a => a.TagName == name).ToList()`, then `Remove` of each. */
    method RemoveAlarmsOf(name: string)
      modifies this`activeAlarms
      ensures activeAlarms == Clear(old(activeAlarms), name)
    {
      var alarmsToRemove := Matching(activeAlarms, name);
      var j := 0;
      while j < |alarmsToRemove|
        invariant 0 <= j <= |alarmsToRemove|
        invariant Clear(activeAlarms, name) == Clear(old(activeAlarms), name)
        invariant Matching(activeAlarms, name) == alarmsToRemove[j..]
      {
        RemoveFirstMatch(activeAlarms, name);
        activeAlarms := RemoveFirst(activeAlarms, alarmsToRemove[j]);
        j := j + 1;
      }
      NoMatchIsClear(activeAlarms, name);
    }

    /** `GetActiveAlarms`: the live list itself. */
    method GetActiveAlarms() returns (r: seq<ActiveAlarm>)
      ensures r == activeAlarms
    {
      r := activeAlarms;
    }
  }
}
