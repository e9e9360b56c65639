/**
  Model of ScadaGUI/Models/Tag.cs and ScadaGUI/Models/Alarm.cs: the GUI-side
  tag, whose characteristics live in a string-keyed property bag read and
  written through typed accessors, the alarm definition, and the active-alarm
  record.

  A bag entry is a `Value`: the kinds of object the accessors store, or null.
  `GetValue<T>` converts what it finds with `Convert.ChangeType`; the model
  reads a value of the accessor's own kind and treats any other kind as absent.
 */
module GuiModels {
  import opened Common

  /** An object stored in `Characteristics`. */
  datatype Value = Null | Number(r: real) | Integer(i: int) | Flag(b: bool) | Text(s: string)

  /** `Dictionary<string, object> Characteristics`. */
  type Bag = map<string, Value>

  const LowLimitKey := "LowLimit"
  const HighLimitKey := "HighLimit"
  const UnitsKey := "Units"
  const ScanTimeKey := "ScanTime"
  const IsScanningKey := "IsScanning"
  const InitialValueKey := "InitialValue"

  /** `GetValue<T>`: the stored object; nothing when the key is missing or holds null. */
  function Lookup(bag: Bag, key: string): (r: Option<Value>)
    ensures r.None? <==> key !in bag || bag[key] == Null
    ensures r.Some? ==> key in bag && r.value == bag[key]
  {
    if key in bag && bag[key] != Null then Some(bag[key]) else None
  }

  // The conversions between a nullable accessor value and a bag entry.

  function AsReal(v: Option<Value>): Option<real> {
    if v.Some? && v.value.Number? then Some(v.value.r) else None
  }

  function FromReal(x: Option<real>): Value {
    if x.Some? then Number(x.value) else Null
  }

  function AsInt(v: Option<Value>): Option<int> {
    if v.Some? && v.value.Integer? then Some(v.value.i) else None
  }

  function FromInt(x: Option<int>): Value {
    if x.Some? then Integer(x.value) else Null
  }

  function AsBool(v: Option<Value>): Option<bool> {
    if v.Some? && v.value.Flag? then Some(v.value.b) else None
  }

  function FromBool(x: Option<bool>): Value {
    if x.Some? then Flag(x.value) else Null
  }

  /** `string` is a reference type: null is `None`. */
  function AsText(v: Option<Value>): Option<string> {
    if v.Some? && v.value.Text? then Some(v.value.s) else None
  }

  function FromText(x: Option<string>): Value {
    if x.Some? then Text(x.value) else Null
  }

  // The typed accessors, each reading one fixed key.

  function LowLimitOf(bag: Bag): Option<real> { AsReal(Lookup(bag, LowLimitKey)) }
  function HighLimitOf(bag: Bag): Option<real> { AsReal(Lookup(bag, HighLimitKey)) }
  function UnitsOf(bag: Bag): Option<string> { AsText(Lookup(bag, UnitsKey)) }
  function ScanTimeOf(bag: Bag): Option<int> { AsInt(Lookup(bag, ScanTimeKey)) }
  function IsScanningOf(bag: Bag): Option<bool> { AsBool(Lookup(bag, IsScanningKey)) }
  function InitialValueOf(bag: Bag): Option<real> { AsReal(Lookup(bag, InitialValueKey)) }

  /** `SetValue` then `GetValue`: the written key reads back what was written (null reads as absent); every other key reads as before. */
  lemma LookupAfterStore(bag: Bag, key: string, v: Value, other: string)
    ensures Lookup(bag[key := v], key) == if v == Null then None else Some(v)
    ensures other != key ==> Lookup(bag[key := v], other) == Lookup(bag, other)
    ensures (bag[key := v]).Keys == bag.Keys + {key}
  {
  }

  /** A missing key reads as the default: null for every nullable accessor. */
  lemma MissingKeysReadAsNull(bag: Bag)
    requires LowLimitKey !in bag && HighLimitKey !in bag && UnitsKey !in bag
    requires ScanTimeKey !in bag && IsScanningKey !in bag && InitialValueKey !in bag
    ensures LowLimitOf(bag).None? && HighLimitOf(bag).None? && UnitsOf(bag).None?
    ensures ScanTimeOf(bag).None? && IsScanningOf(bag).None? && InitialValueOf(bag).None?
  {
  }

  /** Every typed accessor reads back, through its own key, exactly what its setter stored, null included. */
  lemma AccessorsRoundTrip(bag: Bag, x: Option<real>, n: Option<int>, b: Option<bool>, s: Option<string>)
    ensures LowLimitOf(bag[LowLimitKey := FromReal(x)]) == x
    ensures HighLimitOf(bag[HighLimitKey := FromReal(x)]) == x
    ensures UnitsOf(bag[UnitsKey := FromText(s)]) == s
    ensures ScanTimeOf(bag[ScanTimeKey := FromInt(n)]) == n
    ensures IsScanningOf(bag[IsScanningKey := FromBool(b)]) == b
    ensures InitialValueOf(bag[InitialValueKey := FromReal(x)]) == x
  {
  }

  /** The six keys are distinct, so each accessor reads only its own key: a write through one leaves the other five unchanged. */
  lemma AccessorsAreIndependent(bag: Bag, key: string, v: Value)
    requires key in {LowLimitKey, HighLimitKey, UnitsKey, ScanTimeKey, IsScanningKey, InitialValueKey}
    ensures var after := bag[key := v];
            && (key != LowLimitKey ==> LowLimitOf(after) == LowLimitOf(bag))
            && (key != HighLimitKey ==> HighLimitOf(after) == HighLimitOf(bag))
            && (key != UnitsKey ==> UnitsOf(after) == UnitsOf(bag))
            && (key != ScanTimeKey ==> ScanTimeOf(after) == ScanTimeOf(bag))
            && (key != IsScanningKey ==> IsScanningOf(after) == IsScanningOf(bag))
            && (key != InitialValueKey ==> InitialValueOf(after) == InitialValueOf(bag))
  {
  }

  /**
    `ScadaGUI.Models.Tag`. Name, Type, IOAddress and Description are set by the
    object initialisers that create a tag and never afterwards in this model.
   */
  class GuiTag {
    var currentValue: Option<real>
    const name: string
    const tagType: TagType
    const ioAddress: string
    const description: string
    var characteristics: Bag

    constructor (name: string, tagType: TagType, ioAddress: string, description: string)
      ensures this.name == name && this.tagType == tagType
      ensures this.ioAddress == ioAddress && this.description == description
      ensures characteristics == map[] && currentValue == None
    {
      this.name := name;
      this.tagType := tagType;
      this.ioAddress := ioAddress;
      this.description := description;
      characteristics := map[];
      currentValue := None;
    }

    /** The `CurrentValue` setter: the value lives outside the bag. */
    method SetCurrentValue(v: Option<real>)
      modifies this`currentValue
      ensures currentValue == v && characteristics == old(characteristics)
    {
      currentValue := v;
    }

    /** `SetValue`: adds the key or overwrites its entry; nothing else changes. */
    method SetValue(key: string, v: Value)
      modifies this`characteristics
      ensures characteristics == old(characteristics)[key := v]
      ensures currentValue == old(currentValue)
    {
      characteristics := characteristics[key := v];
    }

    function LowLimit(): Option<real> reads this`characteristics { LowLimitOf(characteristics) }
    function HighLimit(): Option<real> reads this`characteristics { HighLimitOf(characteristics) }
    function Units(): Option<string> reads this`characteristics { UnitsOf(characteristics) }
    function ScanTime(): Option<int> reads this`characteristics { ScanTimeOf(characteristics) }
    function IsScanning(): Option<bool> reads this`characteristics { IsScanningOf(characteristics) }
    function InitialValue(): Option<real> reads this`characteristics { InitialValueOf(characteristics) }

    method SetLowLimit(x: Option<real>)
      modifies this`characteristics
      ensures characteristics == old(characteristics)[LowLimitKey := FromReal(x)]
      ensures LowLimit() == x
    {
      SetValue(LowLimitKey, FromReal(x));
    }

    method SetHighLimit(x: Option<real>)
      modifies this`characteristics
      ensures characteristics == old(characteristics)[HighLimitKey := FromReal(x)]
      ensures HighLimit() == x
    {
      SetValue(HighLimitKey, FromReal(x));
    }

    method SetUnits(s: Option<string>)
      modifies this`characteristics
      ensures characteristics == old(characteristics)[UnitsKey := FromText(s)]
      ensures Units() == s
    {
      SetValue(UnitsKey, FromText(s));
    }

    method SetScanTime(n: Option<int>)
      modifies this`characteristics
      ensures characteristics == old(characteristics)[ScanTimeKey := FromInt(n)]
      ensures ScanTime() == n
    {
      SetValue(ScanTimeKey, FromInt(n));
    }

    method SetIsScanning(b: Option<bool>)
      modifies this`characteristics
      ensures characteristics == old(characteristics)[IsScanningKey := FromBool(b)]
      ensures IsScanning() == b
    {
      SetValue(IsScanningKey, FromBool(b));
    }

    method SetInitialValue(x: Option<real>)
      modifies this`characteristics
      ensures characteristics == old(characteristics)[InitialValueKey := FromReal(x)]
      ensures InitialValue() == x
    {
      SetValue(InitialValueKey, FromReal(x));
    }
  }

  /** `ScadaGUI.Models.AlarmType`. */
  datatype AlarmType = Above | Below

  /** `ScadaGUI.Models.Alarm`: a limit on the tag named `tagName`. Its properties are set only by object initialisers. */
  class GuiAlarm {
    const tagName: string
    const limit: real
    const kind: AlarmType
    const message: string

    constructor (tagName: string, kind: AlarmType, limit: real, message: string)
      ensures this.tagName == tagName && this.kind == kind && this.limit == limit && this.message == message
    {
      this.tagName := tagName;
      this.kind := kind;
      this.limit := limit;
      this.message := message;
    }
  }

  /** `ScadaGUI.Models.ActiveAlarm`: when an alarm of which tag raised which message. */
  datatype ActiveAlarm = ActiveAlarm(time: Time, tagName: string, message: string)
}
