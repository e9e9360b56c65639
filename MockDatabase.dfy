/**
  Model of ScadaGUI/Services/MockDatabaseService.cs: an in-memory stand-in for
  the database behind the GUI, holding a list of tags and a list of alarm
  definitions. Tags and alarms are objects: `DeleteTag` and `DeleteAlarm` remove
  by reference (`List<T>.Remove`), and the add operations store new copies.
 */
module MockDatabase {
  import opened Common
  import opened GuiModels

  /** `tagFromViewModel.InitialValue ?? 0`: the value a newly added tag starts with. */
  function StartingValue(bag: Bag): (r: real)
    ensures InitialValueKey in bag && bag[InitialValueKey].Number? ==> r == bag[InitialValueKey].r
    ensures InitialValueKey !in bag || !bag[InitialValueKey].Number? ==> r == 0.0
  {
    var v := InitialValueOf(bag);
    if v.Some? then v.value else 0.0
  }

  /** Deleting an object from a list without repetitions removes exactly that object and keeps the list without repetitions. */
  lemma DeleteFromDistinct<T>(s: seq<T>, x: T)
    requires IsDistinct(s)
    ensures IsDistinct(RemoveFirst(s, x))
    ensures forall y :: y in RemoveFirst(s, x) <==> y in s && y != x
  {
    if x in s {
      DistinctRemoval(s, IndexOf(s, x));
    }
  }

  /** Deleting keeps every other element, with its multiplicity: one occurrence of `x` goes, if any. */
  lemma DeleteIsMultisetRemoval<T>(s: seq<T>, x: T)
    ensures multiset(RemoveFirst(s, x)) == multiset(s) - multiset{x}
  {
    if x in s {
      var i := IndexOf(s, x);
      assert s == s[..i] + [x] + s[i + 1..];
      assert multiset(s) == multiset(s[..i]) + multiset{x} + multiset(s[i + 1..]);
    } else {
      assert multiset(s)[x] == 0;
    }
  }

  // The four seed tags, each built by an object initialiser of the constructor.

  method NewSineWave() returns (t: GuiTag)
    ensures fresh(t) && t.name == "SINE_WAVE" && t.tagType == AI && t.ioAddress == "ADDR001"
    ensures t.characteristics == map[UnitsKey := Text("V"), ScanTimeKey := Integer(100),
              IsScanningKey := Flag(true), LowLimitKey := Number(-100.0), HighLimitKey := Number(100.0)]
    ensures t.currentValue == Some(0.0)
  {
    t := new GuiTag("SINE_WAVE", AI, "ADDR001", "Sinusni signal");
    t.SetUnits(Some("V"));
    t.SetScanTime(Some(100));
    t.SetIsScanning(Some(true));
    t.SetLowLimit(Some(-100.0));
    t.SetHighLimit(Some(100.0));
    t.SetCurrentValue(Some(0.0));
  }

  method NewRampSignal() returns (t: GuiTag)
    ensures fresh(t) && t.name == "RAMP_SIGNAL" && t.tagType == AI && t.ioAddress == "ADDR002"
    ensures t.characteristics == map[UnitsKey := Text("%"), ScanTimeKey := Integer(100),
              IsScanningKey := Flag(true), LowLimitKey := Number(10.0), HighLimitKey := Number(90.0)]
    ensures t.currentValue == Some(0.0)
  {
    t := new GuiTag("RAMP_SIGNAL", AI, "ADDR002", "Rastu\U{0107}i signal");
    t.SetUnits(Some("%"));
    t.SetScanTime(Some(100));
    t.SetIsScanning(Some(true));
    t.SetLowLimit(Some(10.0));
    t.SetHighLimit(Some(90.0));
    t.SetCurrentValue(Some(0.0));
  }

  method NewSwitch1() returns (t: GuiTag)
    ensures fresh(t) && t.name == "SWITCH_1" && t.tagType == DI && t.ioAddress == "ADDR009"
    ensures t.characteristics == map[ScanTimeKey := Integer(1000), IsScanningKey := Flag(true)]
    ensures t.currentValue == Some(0.0)
  {
    t := new GuiTag("SWITCH_1", DI, "ADDR009", "Status prekida\U{010D}a 1");
    t.SetScanTime(Some(1000));
    t.SetIsScanning(Some(true));
    t.SetCurrentValue(Some(0.0));
  }

  method NewMotorSpeed() returns (t: GuiTag)
    ensures fresh(t) && t.name == "MOTOR_SPEED" && t.tagType == AO && t.ioAddress == "ADDR005"
    ensures t.characteristics == map[UnitsKey := Text("RPM"), InitialValueKey := Number(0.0),
              IsScanningKey := Flag(false), LowLimitKey := Number(10.0), HighLimitKey := Number(90.0)]
    ensures t.currentValue == Some(0.0)
  {
    t := new GuiTag("MOTOR_SPEED", AO, "ADDR005", "Brzina motora");
    t.SetUnits(Some("RPM"));
    t.SetInitialValue(Some(0.0));
    t.SetIsScanning(Some(false));
    t.SetLowLimit(Some(10.0));
    t.SetHighLimit(Some(90.0));
    t.SetCurrentValue(Some(0.0));
  }

  class MockDatabaseService {
    var tags: seq<GuiTag>
    var alarms: seq<GuiAlarm>

    /** No tag object is listed twice: each one is created by the constructor or by `AddTag`. */
    ghost predicate Valid()
      reads this`tags
    {
      IsDistinct(tags)
    }

    /** The seed data: four tags and one alarm on RAMP_SIGNAL. */
    constructor ()
      ensures Valid()
      ensures |tags| == 4 && |alarms| == 1
      ensures tags[0].name == "SINE_WAVE" && tags[0].tagType == AI && tags[0].ioAddress == "ADDR001"
      ensures tags[0].characteristics == map[UnitsKey := Text("V"), ScanTimeKey := Integer(100),
                IsScanningKey := Flag(true), LowLimitKey := Number(-100.0), HighLimitKey := Number(100.0)]
      ensures tags[1].name == "RAMP_SIGNAL" && tags[1].tagType == AI && tags[1].ioAddress == "ADDR002"
      ensures tags[1].characteristics == map[UnitsKey := Text("%"), ScanTimeKey := Integer(100),
                IsScanningKey := Flag(true), LowLimitKey := Number(10.0), HighLimitKey := Number(90.0)]
      ensures tags[2].name == "SWITCH_1" && tags[2].tagType == DI && tags[2].ioAddress == "ADDR009"
      ensures tags[2].characteristics == map[ScanTimeKey := Integer(1000), IsScanningKey := Flag(true)]
      ensures tags[3].name == "MOTOR_SPEED" && tags[3].tagType == AO && tags[3].ioAddress == "ADDR005"
      ensures tags[3].characteristics == map[UnitsKey := Text("RPM"), InitialValueKey := Number(0.0),
                IsScanningKey := Flag(false), LowLimitKey := Number(10.0), HighLimitKey := Number(90.0)]
      ensures forall k :: 0 <= k < 4 ==> tags[k].currentValue == Some(0.0) && fresh(tags[k])
      ensures alarms[0].tagName == "RAMP_SIGNAL" && alarms[0].kind == Above && alarms[0].limit == 85.0
      ensures alarms[0].message == "UPOZORENJE: Rampa je dostigla gornju granicu!"
    {
      var sine := NewSineWave();
      var ramp := NewRampSignal();
      var switch1 := NewSwitch1();
      var motor := NewMotorSpeed();
      var ramp85 := new GuiAlarm("RAMP_SIGNAL", Above, 85.0, "UPOZORENJE: Rampa je dostigla gornju granicu!");
      tags := [sine, ramp, switch1, motor];
      alarms := [ramp85];
    }

    /** `GetTags`: a new list holding the same tag objects in the same order. */
    method GetTags() returns (r: seq<GuiTag>)
      ensures r == tags
    {
      r := tags;
    }

    /** `GetAlarms`: a new list holding the same alarm objects in the same order. */
    method GetAlarms() returns (r: seq<GuiAlarm>)
      ensures r == alarms
    {
      r := alarms;
    }

    /**
      `AddTag`: appends a new tag carrying the given tag's name, type, address,
      description and every characteristic, starting at its InitialValue or 0.
      Names are not checked for duplicates.
     */
    method AddTag(source: GuiTag)
      requires Valid()
      modifies this`tags
      ensures Valid()
      ensures |tags| == |old(tags)| + 1 && tags[..|old(tags)|] == old(tags)
      ensures var added := tags[|old(tags)|];
              && fresh(added)
              && added.name == source.name && added.tagType == source.tagType
              && added.ioAddress == source.ioAddress && added.description == source.description
              && added.characteristics == source.characteristics
              && added.currentValue == Some(StartingValue(source.characteristics))
    {
      var added := new GuiTag(source.name, source.tagType, source.ioAddress, source.description);
      added.SetCurrentValue(Some(StartingValue(source.characteristics)));
      var bag := source.characteristics;
      var pending := bag.Keys;
      while pending != {}
        invariant pending <= bag.Keys
        invariant added.characteristics.Keys == bag.Keys - pending
        invariant forall k :: k in added.characteristics ==> added.characteristics[k] == bag[k]
        invariant added.currentValue == Some(StartingValue(bag))
        invariant fresh(added) && tags == old(tags)
        decreases pending
      {
        var key :| key in pending;
        // `Characteristics.Add` throws on a present key; the keys copied so far are other keys.
        assert key !in added.characteristics;
        added.SetValue(key, bag[key]);
        pending := pending - {key};
      }
      assert added.characteristics == bag;
      tags := tags + [added];
      assert added !in old(tags);
    }

    /** `DeleteTag`: `List.Remove` of that tag object. */
    method DeleteTag(tag: GuiTag)
      requires Valid()
      modifies this`tags
      ensures Valid()
      ensures tags == RemoveFirst(old(tags), tag)
      ensures tag !in tags
    {
      DeleteFromDistinct(tags, tag);
      tags := RemoveFirst(tags, tag);
    }

    /** `AddAlarm`: appends a new alarm with the same tag name, type, limit and message. */
    method AddAlarm(source: GuiAlarm)
      modifies this`alarms
      ensures |alarms| == |old(alarms)| + 1 && alarms[..|old(alarms)|] == old(alarms)
      ensures var added := alarms[|old(alarms)|];
              && fresh(added)
              && added.tagName == source.tagName && added.kind == source.kind
              && added.limit == source.limit && added.message == source.message
    {
      var added := new GuiAlarm(source.tagName, source.kind, source.limit, source.message);
      alarms := alarms + [added];
    }

    /** `DeleteAlarm`: `List.Remove` of that alarm object. */
    method DeleteAlarm(alarm: GuiAlarm)
      modifies this`alarms
      ensures alarms == RemoveFirst(old(alarms), alarm)
    {
      alarms := RemoveFirst(alarms, alarm);
    }
  }
}
