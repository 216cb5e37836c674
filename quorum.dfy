/**
 The specification of the shutdown vote: which readings count as working, which
 as triggered, how the required number of sensors is lowered when sensors have
 failed, and when the vote calls for a shutdown. The flag sequences are the
 lists `sensor_ok` and `sensor_trig` the plugin fills, and `Count` is `list.count`.
 */
module Quorum {
  import AvtechCom

  /** A reading equal to this value marks a failed sensor: the sentinel of a failed read. */
  const FailureMarker: real := AvtechCom.ErrorReading

  function Max(a: int, b: int): int {
    if a >= b then a else b
  }

  function Min(a: int, b: int): int {
    if a <= b then a else b
  }

  /** `sensor_ok`: true for each reading that is not the failure marker. */
  function OkFlags(values: seq<real>): seq<bool> {
    seq(|values|, i requires 0 <= i < |values| => values[i] != FailureMarker)
  }

  /** `sensor_trig`: true for each working reading strictly above the threshold. */
  function TriggerFlags(values: seq<real>, threshold: real): seq<bool> {
    seq(|values|, i requires 0 <= i < |values| => values[i] != FailureMarker && values[i] > threshold)
  }

  /** `flags.count(b)`. */
  function Count(flags: seq<bool>, b: bool): nat {
    if flags == [] then 0 else (if flags[0] == b then 1 else 0) + Count(flags[1..], b)
  }

  /**
   The required number of triggered sensors once failures are taken into account: when
   some sensor failed and more sensors are required than work, the requirement drops by
   the number of failures, but not below 1.
   */
  function EffectiveRequired(required: int, failed: nat, ok: nat): int {
    if failed > 0 && required > ok then Max(required - failed, 1) else required
  }

  /** The vote: at least the effective number of sensors triggered. */
  predicate ShutdownVote(values: seq<real>, required: int, threshold: real) {
    var ok := OkFlags(values);
    Count(TriggerFlags(values, threshold), true) >= EffectiveRequired(required, Count(ok, false), Count(ok, true))
  }

  /** The number of readings strictly above the threshold, failed or not. */
  function CountAbove(values: seq<real>, threshold: real): nat {
    if values == [] then 0 else (if values[0] > threshold then 1 else 0) + CountAbove(values[1..], threshold)
  }

  /** The number of readings equal to the failure marker. */
  function CountMarked(values: seq<real>): nat {
    if values == [] then 0 else (if values[0] == FailureMarker then 1 else 0) + CountMarked(values[1..])
  }

  lemma OkFlagsTail(values: seq<real>)
    requires values != []
    ensures OkFlags(values)[0] == (values[0] != FailureMarker)
    ensures OkFlags(values)[1..] == OkFlags(values[1..])
  {
  }

  lemma TriggerFlagsTail(values: seq<real>, threshold: real)
    requires values != []
    ensures TriggerFlags(values, threshold)[0] == (values[0] != FailureMarker && values[0] > threshold)
    ensures TriggerFlags(values, threshold)[1..] == TriggerFlags(values[1..], threshold)
  {
  }

  /** Every flag is either true or false: the two counts add up to the length. */
  lemma {:induction false} CountSplit(flags: seq<bool>)
    ensures Count(flags, true) + Count(flags, false) == |flags|
  {
    if flags != [] {
      CountSplit(flags[1..]);
    }
  }

  /** The failed sensors are exactly the readings equal to the marker; the rest work. */
  lemma {:induction false} FailedAreMarked(values: seq<real>)
    ensures Count(OkFlags(values), false) == CountMarked(values)
    ensures Count(OkFlags(values), true) == |values| - CountMarked(values)
  {
    CountSplit(OkFlags(values));
    if values != [] {
      OkFlagsTail(values);
      FailedAreMarked(values[1..]);
    }
  }

  /** A triggered sensor is a working one: never more triggered sensors than working ones. */
  lemma {:induction false} TriggeredAreWorking(values: seq<real>, threshold: real)
    ensures Count(TriggerFlags(values, threshold), true) <= Count(OkFlags(values), true)
  {
    if values != [] {
      OkFlagsTail(values);
      TriggerFlagsTail(values, threshold);
      TriggeredAreWorking(values[1..], threshold);
    }
  }

  /** Without failures, the triggered sensors are exactly the readings above the threshold. */
  lemma {:induction false} TriggeredWithoutFailures(values: seq<real>, threshold: real)
    requires CountMarked(values) == 0
    ensures Count(TriggerFlags(values, threshold), true) == CountAbove(values, threshold)
  {
    if values != [] {
      TriggerFlagsTail(values, threshold);
      TriggeredWithoutFailures(values[1..], threshold);
    }
  }

  /**
   For a valid requirement, the effective requirement stays between 1 and the original,
   never exceeds the number of working sensors (or 1 when none work), is unchanged without
   failures or when enough sensors work, and is `max(required - failed, 1)` otherwise.
   */
  lemma EffectiveRequiredBounds(values: seq<real>, required: int)
    requires 1 <= required <= |values|
    ensures var ok := OkFlags(values);
      var e := EffectiveRequired(required, Count(ok, false), Count(ok, true));
      && 1 <= e <= required
      && e <= Max(Count(ok, true), 1)
      && (Count(ok, false) == 0 || required <= Count(ok, true) ==> e == required)
      && (Count(ok, false) > 0 && required > Count(ok, true) ==> e == Max(required - Count(ok, false), 1))
  {
    CountSplit(OkFlags(values));
  }

  /**
   With the plugin's three sensors, the lowered requirement is exactly the requirement
   adjusted to the number of available sensors, with a floor of 1. The equality depends
   on the fixed arity of three: with four sensors, a requirement of 3 and two failures
   the reduction gives 1 although two sensors work.
   */
  lemma ThreeSensorsAdjustToAvailable(values: seq<real>, required: int)
    requires |values| == 3 && 1 <= required <= 3
    ensures var ok := OkFlags(values);
      EffectiveRequired(required, Count(ok, false), Count(ok, true)) == Min(required, Max(Count(ok, true), 1))
  {
    EffectiveRequiredBounds(values, required);
    CountSplit(OkFlags(values));
  }

  /** Degradation only lowers the bar: more failures among the same sensors never raise it. */
  lemma DegradationMonotone(required: int, total: nat, failed1: nat, failed2: nat)
    requires failed1 <= failed2 <= total
    ensures EffectiveRequired(required, failed2, total - failed2) <= EffectiveRequired(required, failed1, total - failed1)
    ensures EffectiveRequired(required, failed2, total - failed2) <= required
  {
  }

  /** With every reading at the marker, no requirement of at least 1 is met. */
  lemma AllFailedNoShutdown(values: seq<real>, required: int, threshold: real)
    requires forall i :: 0 <= i < |values| ==> values[i] == FailureMarker
    requires required >= 1
    ensures !ShutdownVote(values, required, threshold)
  {
    var ok := OkFlags(values);
    assert forall i :: 0 <= i < |ok| ==> !ok[i];
    assert Count(ok, true) == 0 by {
      CountSplit(ok);
      assert ok == seq(|values|, i => false);
      FalseFlagsCount(|values|);
    }
    TriggeredAreWorking(values, threshold);
  }

  lemma {:induction false} FalseFlagsCount(n: nat)
    ensures Count(seq(n, i => false), true) == 0
  {
    if n > 0 {
      assert seq(n, i => false)[1..] == seq(n - 1, i => false);
      FalseFlagsCount(n - 1);
    }
  }

  /** Without failures, the vote calls for a shutdown iff at least `required` readings exceed the threshold. */
  lemma NoFailuresVote(values: seq<real>, required: int, threshold: real)
    requires forall i :: 0 <= i < |values| ==> values[i] != FailureMarker
    ensures ShutdownVote(values, required, threshold) <==> CountAbove(values, threshold) >= required
  {
    assert CountMarked(values) == 0 by {
      NoMarkedCount(values);
    }
    FailedAreMarked(values);
    TriggeredWithoutFailures(values, threshold);
  }

  lemma {:induction false} NoMarkedCount(values: seq<real>)
    requires forall i :: 0 <= i < |values| ==> values[i] != FailureMarker
    ensures CountMarked(values) == 0
  {
    if values != [] {
      NoMarkedCount(values[1..]);
    }
  }

  /** A reading equal to the threshold, or at the marker, never triggers. */
  lemma ClassifyReading(values: seq<real>, threshold: real, i: nat)
    requires i < |values|
    ensures values[i] == FailureMarker ==> !OkFlags(values)[i] && !TriggerFlags(values, threshold)[i]
    ensures values[i] <= threshold ==> !TriggerFlags(values, threshold)[i]
    ensures OkFlags(values)[i] ==> (TriggerFlags(values, threshold)[i] <==> values[i] > threshold)
  {
  }
}
