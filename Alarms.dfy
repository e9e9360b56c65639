/**
  Model of DataConcentrator/Alarm.cs: a threshold alarm owned by an analog-input
  tag. Its Id, Trigger, Threshold and Message setters validate what they store;
  its transient state (IsActive, IsAcknowledged, ActivationTime) moves through an
  edge-triggered activate / acknowledge / reset cycle.

  The cycle is stated twice: once as pure steps over `AlarmState` (what the
  lemmas reason about) and once as the methods of class `Alarm`, whose
  postconditions tie each call to the corresponding step.
 */
module Alarms {
  import opened Common

  datatype AlarmTrigger = Above | Below

  const MaxIdLength := 50
  const MaxMessageLength := 1000

  /** A C# `double` as the Threshold setter sees it. */
  datatype Double = Finite(r: real) | NaN | PositiveInfinity | NegativeInfinity

  /** An `AlarmTrigger` cast from its raw value: `Enum.IsDefined` admits 0 (Above) and 1 (Below) only. */
  function TriggerFromCode(code: int): Option<AlarmTrigger> {
    if code == 0 then Some(Above) else if code == 1 then Some(Below) else None
  }

  /**
    The check made by the Id setter (bound 50) and by the Message setter (bound
    1000); the bound is on `value.Length`, in UTF-16 code units.
   */
  function CheckText(value: Option<string>, maxLength: nat): Outcome {
    if IsNullOrWhiteSpace(value) then Fail(InvalidOperation)
    else if Utf16Length(value.value) > maxLength then Fail(InvalidOperation)
    else Pass
  }

  function CheckTrigger(code: int): Outcome {
    if TriggerFromCode(code).None? then Fail(InvalidOperation) else Pass
  }

  function CheckThreshold(value: Double): Outcome {
    if value.NaN? then Fail(Argument)
    else if value.PositiveInfinity? || value.NegativeInfinity? then Fail(Argument)
    else Pass
  }

  /** The checks of the constructor, which runs the four setters in order. */
  function CheckConstruction(id: Option<string>, code: int, threshold: Double, message: Option<string>): Outcome {
    if CheckText(id, MaxIdLength).Fail? then CheckText(id, MaxIdLength)
    else if CheckTrigger(code).Fail? then CheckTrigger(code)
    else if CheckThreshold(threshold).Fail? then CheckThreshold(threshold)
    else CheckText(message, MaxMessageLength)
  }

  /** `CheckTriggerCondition`. */
  predicate ConditionHolds(trigger: AlarmTrigger, threshold: real, value: real) {
    if trigger == Above then value > threshold else value < threshold
  }

  /** The condition is strict: a value equal to the threshold never triggers, in either direction. */
  lemma ConditionIsStrict(trigger: AlarmTrigger, threshold: real)
    ensures !ConditionHolds(trigger, threshold, threshold)
  {
  }

  /**
    An Id accepted by the setter is non-blank and at most 50 UTF-16 code units
    long; a Message at most 1000. Text within the Basic Multilingual Plane is
    measured in characters.
   */
  lemma AcceptedTextIsBounded(value: Option<string>, maxLength: nat)
    ensures CheckText(value, maxLength).Pass? <==>
              value.Some? && !IsBlank(value.value) && Utf16Length(value.value) <= maxLength
    ensures value.Some? && (forall i :: 0 <= i < |value.value| ==> !IsSupplementary(value.value[i])) ==>
              (CheckText(value, maxLength).Pass? <==> !IsBlank(value.value) && |value.value| <= maxLength)
  {
    if value.Some? {
      Utf16LengthOfBmp(value.value);
    }
  }

  /** 26 supplementary characters are 52 UTF-16 units: too long for an Id, although only 26 characters. */
  lemma SupplementaryIdIsTooLong()
    ensures CheckText(Some(seq(26, _ => '\U{1F600}')), MaxIdLength) == Fail(InvalidOperation)
  {
    var id: string := seq(26, _ => '\U{1F600}');
    Utf16LengthOfSupplementary(id);
    assert !IsWhiteSpace(id[0]);
  }

  /** Threshold accepts exactly the finite doubles; Trigger exactly the two defined values. */
  lemma SetterDomains(value: Double, code: int)
    ensures CheckThreshold(value).Pass? <==> value.Finite?
    ensures CheckTrigger(code).Pass? <==> code == 0 || code == 1
  {
  }

  // ---------------------------------------------------------------------------
  // The transient state and its three transitions
  // ---------------------------------------------------------------------------

  /** `IsActive`, `IsAcknowledged` and `ActivationTime` of one alarm. */
  datatype AlarmState = AlarmState(isActive: bool, isAcknowledged: bool, activationTime: Option<Time>)

  /** The state of a newly constructed alarm. */
  const Cleared := AlarmState(false, false, None)

  /** One call: the state after it and the value it returns. */
  datatype Step = Step(next: AlarmState, result: bool)

  predicate WouldActivate(s: AlarmState, holds: bool) { !s.isActive && holds }
  predicate WouldAcknowledge(s: AlarmState) { s.isActive && !s.isAcknowledged }
  predicate WouldReset(s: AlarmState, holds: bool) { s.isActive && s.isAcknowledged && !holds }

  /** `TryActivate`, given whether the trigger condition holds for the value. */
  function TryActivateStep(s: AlarmState, holds: bool, now: Time): Step {
    if WouldActivate(s, holds) then Step(AlarmState(true, false, Some(now)), true) else Step(s, false)
  }

  function AcknowledgeStep(s: AlarmState): Step {
    if WouldAcknowledge(s) then Step(s.(isAcknowledged := true), true) else Step(s, false)
  }

  /** `Reset`: clears IsActive and ActivationTime, and leaves IsAcknowledged as it was. */
  function ResetStep(s: AlarmState, holds: bool): Step {
    if WouldReset(s, holds) then Step(s.(isActive := false, activationTime := None), true) else Step(s, false)
  }

  /** Edge triggering: once active, TryActivate returns false and changes nothing, whatever the value. */
  lemma ActiveAlarmDoesNotReactivate(s: AlarmState, holds: bool, now: Time)
    requires s.isActive
    ensures TryActivateStep(s, holds, now) == Step(s, false)
  {
  }

  /** After one TryActivate, a second one with the same condition never succeeds. */
  lemma TryActivateSettles(s: AlarmState, holds: bool, now: Time)
    ensures !WouldActivate(TryActivateStep(s, holds, now).next, holds)
  {
  }

  /** Acknowledge is idempotent: the second call returns false and changes nothing. */
  lemma AcknowledgeIsIdempotent(s: AlarmState)
    ensures var first := AcknowledgeStep(s).next;
            AcknowledgeStep(first) == Step(first, false)
  {
  }

  /** Reset is gated on acknowledgement and on the condition no longer holding. */
  lemma ResetIsGated(s: AlarmState, holds: bool)
    ensures ResetStep(s, holds).result <==> s.isActive && s.isAcknowledged && !holds
    ensures !s.isAcknowledged || !s.isActive ==> ResetStep(s, holds) == Step(s, false)
    ensures ResetStep(s, holds).next.isAcknowledged == s.isAcknowledged
  {
  }

  /** A second Reset never succeeds: the first one left the alarm inactive or did nothing. */
  lemma ResetSettles(s: AlarmState, holds: bool)
    ensures !WouldReset(ResetStep(s, holds).next, holds)
  {
  }

  /** The phases of the cycle Inactive -> Unacknowledged -> Acknowledged -> Inactive. */
  datatype Phase = Inactive | Unacknowledged | Acknowledged

  function PhaseOf(s: AlarmState): Phase {
    if !s.isActive then Inactive else if !s.isAcknowledged then Unacknowledged else Acknowledged
  }

  function NextPhase(p: Phase): Phase {
    match p
    case Inactive => Unacknowledged
    case Unacknowledged => Acknowledged
    case Acknowledged => Inactive
  }

  /** Each call that returns true moves one phase forward; one that returns false stays put. */
  lemma StepsFollowTheCycle(s: AlarmState, holds: bool, now: Time)
    ensures var t := TryActivateStep(s, holds, now);
            PhaseOf(t.next) == if t.result then NextPhase(PhaseOf(s)) else PhaseOf(s)
    ensures var t := AcknowledgeStep(s);
            PhaseOf(t.next) == if t.result then NextPhase(PhaseOf(s)) else PhaseOf(s)
    ensures var t := ResetStep(s, holds);
            PhaseOf(t.next) == if t.result then NextPhase(PhaseOf(s)) else PhaseOf(s)
    ensures TryActivateStep(s, holds, now).result ==> PhaseOf(s) == Inactive
    ensures AcknowledgeStep(s).result ==> PhaseOf(s) == Unacknowledged
    ensures ResetStep(s, holds).result ==> PhaseOf(s) == Acknowledged
  {
  }

  /** `ActivationTime != null` exactly when the alarm is active. */
  predicate TimeTracksActivity(s: AlarmState) {
    s.activationTime.Some? <==> s.isActive
  }

  // ---------------------------------------------------------------------------
  // Runs of calls
  // ---------------------------------------------------------------------------

  /** A call on an alarm, with the value it is given and the clock reading it sees. */
  datatype Call = TryActivateCall(value: real, now: Time) | AcknowledgeCall | ResetCall(value: real)

  function Apply(s: AlarmState, trigger: AlarmTrigger, threshold: real, c: Call): Step {
    match c
    case TryActivateCall(v, now) => TryActivateStep(s, ConditionHolds(trigger, threshold, v), now)
    case AcknowledgeCall => AcknowledgeStep(s)
    case ResetCall(v) => ResetStep(s, ConditionHolds(trigger, threshold, v))
  }

  /** The state after a run of calls. */
  function Final(s: AlarmState, trigger: AlarmTrigger, threshold: real, calls: seq<Call>): AlarmState
    decreases |calls|
  {
    if calls == [] then s else Final(Apply(s, trigger, threshold, calls[0]).next, trigger, threshold, calls[1..])
  }

  /** How many calls of a run returned true from TryActivate, and how many from Reset. */
  function Activations(s: AlarmState, trigger: AlarmTrigger, threshold: real, calls: seq<Call>): nat
    decreases |calls|
  {
    if calls == [] then 0
    else
      var t := Apply(s, trigger, threshold, calls[0]);
      (if calls[0].TryActivateCall? && t.result then 1 else 0) + Activations(t.next, trigger, threshold, calls[1..])
  }

  function Resets(s: AlarmState, trigger: AlarmTrigger, threshold: real, calls: seq<Call>): nat
    decreases |calls|
  {
    if calls == [] then 0
    else
      var t := Apply(s, trigger, threshold, calls[0]);
      (if calls[0].ResetCall? && t.result then 1 else 0) + Resets(t.next, trigger, threshold, calls[1..])
  }

  /**
    If the state changes only through the three transitions, `ActivationTime != null`
    holds exactly when the alarm is active, after any run of calls.
   */
  lemma {:induction false} TimeTracksActivityInvariant(s: AlarmState, trigger: AlarmTrigger, threshold: real, calls: seq<Call>)
    requires TimeTracksActivity(s)
    ensures TimeTracksActivity(Final(s, trigger, threshold, calls))
    decreases |calls|
  {
    if calls != [] {
      TimeTracksActivityInvariant(Apply(s, trigger, threshold, calls[0]).next, trigger, threshold, calls[1..]);
    }
  }

  /**
    Edge triggering over a whole run: every activation but the first needs a
    successful Reset before it. Counting from the start state, activations
    and resets differ exactly by the change in IsActive.
   */
  lemma {:induction false} ActivationsAlternateWithResets(s: AlarmState, trigger: AlarmTrigger, threshold: real, calls: seq<Call>)
    ensures var f := Final(s, trigger, threshold, calls);
            Activations(s, trigger, threshold, calls) + (if s.isActive then 1 else 0)
            == Resets(s, trigger, threshold, calls) + (if f.isActive then 1 else 0)
    decreases |calls|
  {
    if calls != [] {
      ActivationsAlternateWithResets(Apply(s, trigger, threshold, calls[0]).next, trigger, threshold, calls[1..]);
    }
  }

  /** Without a Reset in the run, an alarm activates at most once, and never if it starts active. */
  lemma {:induction false} AtMostOneActivationWithoutReset(s: AlarmState, trigger: AlarmTrigger, threshold: real, calls: seq<Call>)
    requires forall k :: 0 <= k < |calls| ==> !calls[k].ResetCall?
    ensures Activations(s, trigger, threshold, calls) <= (if s.isActive then 0 else 1)
    decreases |calls|
  {
    if calls != [] {
      var t := Apply(s, trigger, threshold, calls[0]);
      assert s.isActive ==> t.next.isActive;
      AtMostOneActivationWithoutReset(t.next, trigger, threshold, calls[1..]);
    }
  }

  /** The results of TryActivate for a run of values, one call per value. */
  function TryActivateResults(s: AlarmState, trigger: AlarmTrigger, threshold: real, values: seq<real>, now: Time): seq<bool>
    decreases |values|
  {
    if values == [] then []
    else
      var t := TryActivateStep(s, ConditionHolds(trigger, threshold, values[0]), now);
      [t.result] + TryActivateResults(t.next, trigger, threshold, values[1..], now)
  }

  /** An Above alarm at 80 fed 50, 85, 85, 70 activates at the second value only. */
  lemma EdgeTriggeredScenario(now: Time)
    ensures TryActivateResults(Cleared, Above, 80.0, [50.0, 85.0, 85.0, 70.0], now) == [false, true, false, false]
  {
    var a := TryActivateStep(Cleared, false, now).next;
    var b := TryActivateStep(a, true, now).next;
    assert TryActivateResults(b, Above, 80.0, [70.0], now) == [false];
    assert TryActivateResults(b, Above, 80.0, [85.0, 70.0], now) == [false, false];
    assert [85.0, 85.0, 70.0][1..] == [85.0, 70.0];
    assert [50.0, 85.0, 85.0, 70.0][1..] == [85.0, 85.0, 70.0];
  }

  /** Reset fails while unacknowledged whatever the value; after Acknowledge, Reset below the threshold succeeds. */
  lemma AcknowledgeThenResetScenario(now: Time, value: real)
    ensures var active := TryActivateStep(Cleared, ConditionHolds(Above, 80.0, 85.0), now);
            && active.result
            && !ResetStep(active.next, ConditionHolds(Above, 80.0, value)).result
            && AcknowledgeStep(active.next).result
            && ResetStep(AcknowledgeStep(active.next).next, ConditionHolds(Above, 80.0, 70.0))
               == Step(AlarmState(false, true, None), true)
  {
  }

  // ---------------------------------------------------------------------------
  // The alarm object
  // ---------------------------------------------------------------------------

  /** The configured part of an alarm, which the transitions never touch. */
  datatype AlarmRule = AlarmRule(id: string, trigger: AlarmTrigger, threshold: real, message: string)

  class Alarm {
    var id: string
    var tagId: Option<string>
    var trigger: AlarmTrigger
    var threshold: real
    var message: string
    var isActive: bool
    var isAcknowledged: bool
    var activationTime: Option<Time>

    /** What the setters guarantee of the stored Id and Message. */
    ghost predicate Valid()
      reads this`id, this`message
    {
      CheckText(Some(id), MaxIdLength).Pass? && CheckText(Some(message), MaxMessageLength).Pass?
    }

    function State(): AlarmState
      reads this`isActive, this`isAcknowledged, this`activationTime
    {
      AlarmState(isActive, isAcknowledged, activationTime)
    }

    function Rule(): AlarmRule
      reads this`id, this`trigger, this`threshold, this`message
    {
      AlarmRule(id, trigger, threshold, message)
    }

    /** `CheckTriggerCondition`. */
    predicate CheckTriggerCondition(value: real)
      reads this`trigger, this`threshold
    {
      ConditionHolds(trigger, threshold, value)
    }

    /** Allocation with values the setters have already accepted; see `Create`. */
    constructor (id: string, trigger: AlarmTrigger, threshold: real, message: string)
      requires CheckText(Some(id), MaxIdLength).Pass? && CheckText(Some(message), MaxMessageLength).Pass?
      ensures Valid()
      ensures Rule() == AlarmRule(id, trigger, threshold, message)
      ensures State() == Cleared && tagId == None
    {
      this.id := id;
      this.tagId := None;
      this.trigger := trigger;
      this.threshold := threshold;
      this.message := message;
      this.isActive := false;
      this.isAcknowledged := false;
      this.activationTime := None;
    }

    /** The public constructor: it runs the Id, Trigger, Threshold and Message setters in that order. */
    static method Create(id: Option<string>, triggerCode: int, threshold: Double, message: Option<string>)
      returns (r: Result<Alarm>)
      ensures r.Err? <==> CheckConstruction(id, triggerCode, threshold, message).Fail?
      ensures r.Err? ==> r.error == CheckConstruction(id, triggerCode, threshold, message).error
      ensures r.Ok? ==> fresh(r.value) && r.value.Valid()
      ensures r.Ok? ==> r.value.Rule() == AlarmRule(id.value, TriggerFromCode(triggerCode).value, threshold.r, message.value)
      ensures r.Ok? ==> r.value.State() == Cleared && r.value.tagId == None
    {
      var check := CheckConstruction(id, triggerCode, threshold, message);
      if check.Fail? {
        return Err(check.error);
      }
      var a := new Alarm(id.value, TriggerFromCode(triggerCode).value, threshold.r, message.value);
      return Ok(a);
    }

    /** The Id setter: a blank or over-long id throws and keeps the old one. */
    method SetId(value: Option<string>) returns (o: Outcome)
      modifies this`id
      ensures o == CheckText(value, MaxIdLength)
      ensures id == if o.Pass? then value.value else old(id)
      ensures old(Valid()) ==> Valid()
    {
      o := CheckText(value, MaxIdLength);
      if o.Pass? {
        id := value.value;
      }
    }

    method SetTrigger(code: int) returns (o: Outcome)
      modifies this`trigger
      ensures o == CheckTrigger(code)
      ensures trigger == if o.Pass? then TriggerFromCode(code).value else old(trigger)
    {
      o := CheckTrigger(code);
      if o.Pass? {
        trigger := TriggerFromCode(code).value;
      }
    }

    method SetThreshold(value: Double) returns (o: Outcome)
      modifies this`threshold
      ensures o == CheckThreshold(value)
      ensures threshold == if o.Pass? then value.r else old(threshold)
    {
      o := CheckThreshold(value);
      if o.Pass? {
        threshold := value.r;
      }
    }

    method SetMessage(value: Option<string>) returns (o: Outcome)
      modifies this`message
      ensures o == CheckText(value, MaxMessageLength)
      ensures message == if o.Pass? then value.value else old(message)
      ensures old(Valid()) ==> Valid()
    {
      o := CheckText(value, MaxMessageLength);
      if o.Pass? {
        message := value.value;
      }
    }

    /** The public IsActive setter, which bypasses the cycle (and the ActivationTime bookkeeping). */
    method SetIsActive(value: bool)
      modifies this`isActive
      ensures isActive == value
    {
      isActive := value;
    }

    method TryActivate(value: real, now: Time) returns (activated: bool)
      modifies this`isActive, this`isAcknowledged, this`activationTime
      ensures activated <==> !old(isActive) && CheckTriggerCondition(value)
      ensures activated ==> isActive && !isAcknowledged && activationTime == Some(now)
      ensures !activated ==> State() == old(State())
      ensures Step(State(), activated) == TryActivateStep(old(State()), CheckTriggerCondition(value), now)
    {
      var shouldBeActive := CheckTriggerCondition(value);
      if !isActive && shouldBeActive {
        isActive := true;
        isAcknowledged := false;
        activationTime := Some(now);
        return true;
      }
      return false;
    }

    method Acknowledge() returns (ok: bool)
      modifies this`isAcknowledged
      ensures ok <==> old(isActive) && !old(isAcknowledged)
      ensures isAcknowledged == (old(isAcknowledged) || ok)
      ensures Step(State(), ok) == AcknowledgeStep(old(State()))
    {
      if isActive && !isAcknowledged {
        isAcknowledged := true;
        return true;
      }
      return false;
    }

    method Reset(value: real) returns (ok: bool)
      modifies this`isActive, this`activationTime
      ensures ok <==> old(isActive) && isAcknowledged && !CheckTriggerCondition(value)
      ensures ok ==> !isActive && activationTime == None
      ensures !ok ==> State() == old(State())
      ensures Step(State(), ok) == ResetStep(old(State()), CheckTriggerCondition(value))
    {
      if isActive && isAcknowledged && !CheckTriggerCondition(value) {
        isActive := false;
        activationTime := None;
        return true;
      }
      return false;
    }
  }
}
