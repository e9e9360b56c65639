/**
  Model of PLCSimulator/PLCSimulatorManager.cs: a fixed map from register
  address to a value and a get-only type. The generator threads are modelled as
  an explicitly invoked step (only the digital one: the analog waveforms are
  floating-point functions of the clock and of a random source).
 */
module Plc {
  import opened Common

  /** `TagValue`: the register's value, and its type, which no member changes. */
  datatype Register = Register(value: real, kind: TagType)

  /** The registers the constructor adds, in the order it adds them, all at 0. */
  const InitialRegisters: map<string, Register> := map[
    "ADDR001" := Register(0.0, AI), "ADDR002" := Register(0.0, AI),
    "ADDR003" := Register(0.0, AI), "ADDR004" := Register(0.0, AI),
    "ADDR005" := Register(0.0, AO), "ADDR006" := Register(0.0, AO),
    "ADDR007" := Register(0.0, AO), "ADDR008" := Register(0.0, AO),
    "ADDR009" := Register(0.0, DI), "ADDR011" := Register(0.0, DI),
    "ADDR012" := Register(0.0, DI), "ADDR013" := Register(0.0, DI),
    "ADDR010" := Register(0.0, DO), "ADDR014" := Register(0.0, DO),
    "ADDR015" := Register(0.0, DO), "ADDR016" := Register(0.0, DO),
    "ADDR017" := Register(0.0, DO)
  ]

  /** The digital input the digital generator toggles. */
  const ToggledAddress := "ADDR009"

  /** `GetAnalogValue` on a register map: the stored value, or -1 for an unknown address. */
  function Read(m: map<string, Register>, address: string): real {
    if address in m then m[address].value else -1.0
  }

  /** `SetAnalogValue`/`SetDigitalValue` on a register map: only a known address is written. */
  function Written(m: map<string, Register>, address: string, value: real): map<string, Register> {
    if address in m then m[address := m[address].(value := value)] else m
  }

  /** A write then a read of the same known address returns the value written; other addresses read as before. */
  lemma ReadAfterWrite(m: map<string, Register>, written: string, read: string, value: real)
    ensures Read(Written(m, written, value), read) ==
              if written == read && written in m then value else Read(m, read)
  {
  }

  /** A write to an unknown address changes nothing, and reading one gives -1. */
  lemma UnknownAddress(m: map<string, Register>, address: string, value: real)
    requires address !in m
    ensures Written(m, address, value) == m
    ensures Read(m, address) == -1.0
  {
  }

  /** Writes keep the address set and every register's type, whatever type the address has. */
  lemma WriteKeepsAddressesAndTypes(m: map<string, Register>, address: string, value: real)
    ensures Written(m, address, value).Keys == m.Keys
    ensures forall a :: a in m ==> Written(m, address, value)[a].kind == m[a].kind
  {
  }

  /** One pass of `GeneratingDigitalInputs`: ADDR009 goes from 0 to 1, and from any other value to 0. */
  function Toggled(m: map<string, Register>): map<string, Register>
    requires ToggledAddress in m
  {
    Written(m, ToggledAddress, if m[ToggledAddress].value == 0.0 then 1.0 else 0.0)
  }

  lemma ToggleTouchesOnlyAddr009(m: map<string, Register>)
    requires ToggledAddress in m
    ensures Toggled(m).Keys == m.Keys
    ensures Read(Toggled(m), ToggledAddress) == if Read(m, ToggledAddress) == 0.0 then 1.0 else 0.0
    ensures forall a :: a in m && a != ToggledAddress ==> Toggled(m)[a] == m[a]
    ensures Toggled(m)[ToggledAddress].kind == m[ToggledAddress].kind
  {
  }

  /** Two passes of the digital generator bring ADDR009 back to 0 if it was 0, and to 1 otherwise. */
  lemma {:induction false} ToggleTwice(m: map<string, Register>)
    requires ToggledAddress in m
    ensures Toggled(Toggled(m))[ToggledAddress].value ==
              if m[ToggledAddress].value == 0.0 then 0.0 else 1.0
  {
    ToggleTouchesOnlyAddr009(m);
    ToggleTouchesOnlyAddr009(Toggled(m));
  }

  class PlcSimulator {
    var addressValues: map<string, Register>

    /** The address set and the types are those the constructor created. */
    ghost predicate Valid()
      reads this
    {
      && addressValues.Keys == InitialRegisters.Keys
      && forall a :: a in addressValues ==> addressValues[a].kind == InitialRegisters[a].kind
    }

    constructor ()
      ensures Valid()
      ensures addressValues == InitialRegisters
      ensures forall a :: a in addressValues ==> addressValues[a].value == 0.0
    {
      addressValues := map[];
      new;
      // AI
      addressValues := addressValues["ADDR001" := Register(0.0, AI)];
      addressValues := addressValues["ADDR002" := Register(0.0, AI)];
      addressValues := addressValues["ADDR003" := Register(0.0, AI)];
      addressValues := addressValues["ADDR004" := Register(0.0, AI)];
      // AO
      addressValues := addressValues["ADDR005" := Register(0.0, AO)];
      addressValues := addressValues["ADDR006" := Register(0.0, AO)];
      addressValues := addressValues["ADDR007" := Register(0.0, AO)];
      addressValues := addressValues["ADDR008" := Register(0.0, AO)];
      // DI
      addressValues := addressValues["ADDR009" := Register(0.0, DI)];
      addressValues := addressValues["ADDR011" := Register(0.0, DI)];
      addressValues := addressValues["ADDR012" := Register(0.0, DI)];
      addressValues := addressValues["ADDR013" := Register(0.0, DI)];
      // DO
      addressValues := addressValues["ADDR010" := Register(0.0, DO)];
      addressValues := addressValues["ADDR014" := Register(0.0, DO)];
      addressValues := addressValues["ADDR015" := Register(0.0, DO)];
      addressValues := addressValues["ADDR016" := Register(0.0, DO)];
      addressValues := addressValues["ADDR017" := Register(0.0, DO)];
    }

    function GetAnalogValue(address: string): real
      reads this
    {
      Read(addressValues, address)
    }

    /** Not declared in PLCSimulatorManager.cs; the same lookup as `GetAnalogValue`. */
    function GetDigitalValue(address: string): real
      reads this
    {
      Read(addressValues, address)
    }

    method SetAnalogValue(address: string, value: real)
      requires Valid()
      modifies this
      ensures Valid()
      ensures addressValues == Written(old(addressValues), address, value)
      ensures GetAnalogValue(address) == if address in old(addressValues) then value else -1.0
    {
      if address in addressValues {
        addressValues := addressValues[address := addressValues[address].(value := value)];
      }
    }

    method SetDigitalValue(address: string, value: real)
      requires Valid()
      modifies this
      ensures Valid()
      ensures addressValues == Written(old(addressValues), address, value)
      ensures GetDigitalValue(address) == if address in old(addressValues) then value else -1.0
    {
      if address in addressValues {
        addressValues := addressValues[address := addressValues[address].(value := value)];
      }
    }

    /** One iteration of `GeneratingDigitalInputs`, without the sleep and the lock. */
    method GenerateDigitalStep()
      requires Valid()
      modifies this
      ensures Valid()
      ensures ToggledAddress in old(addressValues) && addressValues == Toggled(old(addressValues))
    {
      assert ToggledAddress in InitialRegisters;
      if addressValues[ToggledAddress].value == 0.0 {
        addressValues := addressValues[ToggledAddress := addressValues[ToggledAddress].(value := 1.0)];
      } else {
        addressValues := addressValues[ToggledAddress := addressValues[ToggledAddress].(value := 0.0)];
      }
    }

    /**
      `GetAllAddresses`: one (address, type) pair per register, each address once.
      Dictionary enumeration order is not specified, and neither is the order here.
     */
    method GetAllAddresses() returns (r: seq<(string, TagType)>)
      ensures forall a :: a in addressValues <==> exists i :: 0 <= i < |r| && r[i].0 == a
      ensures forall i :: 0 <= i < |r| ==> r[i].0 in addressValues && addressValues[r[i].0].kind == r[i].1
      ensures forall i, j :: 0 <= i < j < |r| ==> r[i].0 != r[j].0
    {
      r := [];
      var remaining := addressValues.Keys;
      while remaining != {}
        invariant remaining <= addressValues.Keys
        invariant forall i :: 0 <= i < |r| ==> r[i].0 !in remaining
        invariant forall a :: a in addressValues && a !in remaining ==> exists i :: 0 <= i < |r| && r[i].0 == a
        invariant forall i :: 0 <= i < |r| ==> r[i].0 in addressValues && addressValues[r[i].0].kind == r[i].1
        invariant forall i, j :: 0 <= i < j < |r| ==> r[i].0 != r[j].0
        decreases remaining
      {
        var a :| a in remaining;
        ghost var listed := r;
        r := r + [(a, addressValues[a].kind)];
        remaining := remaining - {a};
        forall b | b in addressValues && b !in remaining
          ensures exists i :: 0 <= i < |r| && r[i].0 == b
        {
          if b == a {
            assert r[|r| - 1].0 == b;
          } else {
            var i :| 0 <= i < |listed| && listed[i].0 == b;
            assert r[i].0 == b;
          }
        }
      }
    }
  }
}
