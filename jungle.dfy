/**
 * The "Jungle" pitch shifter: two delay lines whose delay times are swept by
 * looping ramp buffers, crossfaded by a fade buffer.  The model covers the
 * buffer contents, the start times of the six looping sources and the
 * control state that `setPitchOffset` writes (which voice pair is audible
 * and how deep the delay sweep is).
 *
 * Buffer lengths are sample counts: `length1` is activeTime * sampleRate and
 * `length2` is (activeTime - 2 * fadeTime) * sampleRate.
 */
module Pitch {
  import Wrappers
  const DelayTime: real := 0.1
  const FadeTime: real := 0.05
  const BufferTime: real := 0.1

  /** A ratio of a part to a positive whole lies in [0, 1]. */
  lemma Fraction(part: real, whole: real)
    requires 0.0 <= part <= whole && 0.0 < whole
    ensures 0.0 <= part / whole <= 1.0
  {
  }

  /** Entry i of a delay-time ramp buffer. */
  function DelayTimeEntry(length1: nat, length2: nat, shiftUp: bool, i: nat): (v: real)
    requires i < length1 + length2
    ensures 0.0 <= v <= 1.0
    ensures i >= length1 ==> v == 0.0
  {
    if i < length1 then
      if shiftUp then
        Fraction((length1 - i) as real, (length1 + length2) as real);
        (length1 - i) as real / (length1 + length2) as real
      else
        Fraction(i as real, length1 as real);
        i as real / length1 as real
    else 0.0
  }

  /** Without a tail the shift-up ramp mirrors the shift-down ramp. */
  lemma ShiftUpMirrorsShiftDown(length1: nat, i: nat)
    requires i < length1
    ensures DelayTimeEntry(length1, 0, true, i) == 1.0 - DelayTimeEntry(length1, 0, false, i)
  {
    var l := length1 as real;
    calc {
      DelayTimeEntry(length1, 0, true, i);
      (l - i as real) / l;
      l / l - i as real / l;
      1.0 - DelayTimeEntry(length1, 0, false, i);
    }
  }

  /** The shift-down ramp rises by 1/length1 per sample; the shift-up ramp falls by 1/length. */
  lemma RampSteps(length1: nat, length2: nat, i: nat)
    requires i + 1 < length1
    ensures DelayTimeEntry(length1, length2, false, i + 1) == DelayTimeEntry(length1, length2, false, i) + 1.0 / length1 as real
    ensures DelayTimeEntry(length1, length2, true, i + 1) == DelayTimeEntry(length1, length2, true, i) - 1.0 / (length1 + length2) as real
  {
    var l1 := length1 as real;
    var l := (length1 + length2) as real;
    assert (i + 1) as real / l1 == i as real / l1 + 1.0 / l1;
    assert (length1 - (i + 1)) as real / l == (length1 - i) as real / l - 1.0 / l;
  }

  /** createDelayTimeBuffer: the ramp fills the first length1 samples, the tail is silent. */
  method CreateDelayTimeBuffer(length1: nat, length2: nat, shiftUp: bool) returns (p: array<real>)
    ensures fresh(p)
    ensures p.Length == length1 + length2
    ensures forall i :: 0 <= i < p.Length ==> p[i] == DelayTimeEntry(length1, length2, shiftUp, i)
  {
    p := new real[length1 + length2];
    var i := 0;
    while i < length1
      invariant 0 <= i <= length1
      invariant forall k :: 0 <= k < i ==> p[k] == DelayTimeEntry(length1, length2, shiftUp, k)
    {
      if shiftUp {
        p[i] := (length1 - i) as real / (length1 + length2) as real;
      } else {
        p[i] := i as real / length1 as real;
      }
      i := i + 1;
    }
    while i < length1 + length2
      invariant length1 <= i <= length1 + length2
      invariant forall k :: 0 <= k < i ==> p[k] == DelayTimeEntry(length1, length2, shiftUp, k)
    {
      p[i] := 0.0;
      i := i + 1;
    }
  }

  /**
   * The argument the fade buffer passes to sqrt at sample i of the first
   * part, or None where the entry is the constant 1.
   */
  function FadeArgument(length1: nat, fadeLength: real, i: nat): (x: Wrappers.Option<real>)
    requires fadeLength >= 0.0 && i < length1
    ensures x.Some? ==> 0.0 <= x.value <= 1.0
    ensures x.None? <==> fadeLength <= i as real < length1 as real - fadeLength
  {
    if (i as real) < fadeLength then Wrappers.Some(i as real / fadeLength)
    else if (i as real) >= length1 as real - fadeLength then
      Wrappers.Some(1.0 - (i as real - (length1 as real - fadeLength)) / fadeLength)
    else Wrappers.None
  }

  /** Entry i of the fade buffer. */
  function FadeEntry(length1: nat, length2: nat, fadeLength: real, sqrt: real -> real, i: nat): real
    requires fadeLength >= 0.0 && i < length1 + length2
  {
    if i < length1 then
      match FadeArgument(length1, fadeLength, i)
      case Some(x) => sqrt(x)
      case None => 1.0
    else 0.0
  }

  /** The fade buffer is 1 strictly between the fade indices and 0 on the tail. */
  lemma FadeShape(length1: nat, length2: nat, fadeLength: real, sqrt: real -> real, i: nat)
    requires fadeLength >= 0.0 && i < length1 + length2
    ensures fadeLength <= i as real < length1 as real - fadeLength ==> FadeEntry(length1, length2, fadeLength, sqrt, i) == 1.0
    ensures i >= length1 ==> FadeEntry(length1, length2, fadeLength, sqrt, i) == 0.0
  {
  }

  /** With a square root that maps [0,1] into [0,1], every fade entry lies in [0,1]. */
  lemma FadeBounded(length1: nat, length2: nat, fadeLength: real, sqrt: real -> real, i: nat)
    requires fadeLength >= 0.0 && i < length1 + length2
    requires forall x :: 0.0 <= x <= 1.0 ==> 0.0 <= sqrt(x) <= 1.0
    ensures 0.0 <= FadeEntry(length1, length2, fadeLength, sqrt, i) <= 1.0
  {
    if i < length1 {
      var a := FadeArgument(length1, fadeLength, i);
      if a.Some? {
        assert 0.0 <= sqrt(a.value) <= 1.0;
      }
    }
  }

  /** createFadeBuffer, with sqrt left uninterpreted. */
  method CreateFadeBuffer(length1: nat, length2: nat, fadeLength: real, sqrt: real -> real) returns (p: array<real>)
    requires fadeLength >= 0.0
    ensures fresh(p)
    ensures p.Length == length1 + length2
    ensures forall i :: 0 <= i < p.Length ==> p[i] == FadeEntry(length1, length2, fadeLength, sqrt, i)
  {
    p := new real[length1 + length2];
    var fadeIndex1 := fadeLength;
    var fadeIndex2 := length1 as real - fadeLength;
    var i := 0;
    while i < length1
      invariant 0 <= i <= length1
      invariant forall k :: 0 <= k < i ==> p[k] == FadeEntry(length1, length2, fadeLength, sqrt, k)
    {
      var value: real;
      if (i as real) < fadeIndex1 {
        value := sqrt(i as real / fadeLength);
      } else if (i as real) >= fadeIndex2 {
        value := sqrt(1.0 - (i as real - fadeIndex2) / fadeLength);
      } else {
        value := 1.0;
      }
      p[i] := value;
      i := i + 1;
    }
    while i < length1 + length2
      invariant length1 <= i <= length1 + length2
      invariant forall k :: 0 <= k < i ==> p[k] == FadeEntry(length1, length2, fadeLength, sqrt, k)
    {
      p[i] := 0.0;
      i := i + 1;
    }
  }

  /** mapPitchFromSemitone: linear below 0, a table on the integers 0..12, 0 elsewhere. */
  function MapPitchFromSemitone(e: real): (r: real)
    ensures e < 0.0 ==> r == e / 12.0
  {
    if e < 0.0 then e / 12.0
    else if e == 0.0 then 0.0
    else if e == 1.0 then 0.15
    else if e == 2.0 then 0.2396498469723199
    else if e == 3.0 then 0.3392416223392665
    else if e == 4.0 then 0.5240613184290452
    else if e == 5.0 then 0.6938443526464626
    else if e == 6.0 then 0.8531707712586548
    else if e == 7.0 then 1.0062309336345026
    else if e == 8.0 then 1.1572897600301169
    else if e == 9.0 then 1.3572897600301168
    else if e == 10.0 then 1.5356230933634503
    else if e == 11.0 then 1.7056230933634502
    else if e == 12.0 then 2.0
    else 0.0
  }

  /** Non-negative arguments off the integer table map to 0. */
  lemma MapPitchOffTable(e: real)
    requires e >= 0.0 && (e.Floor as real != e || e > 12.0)
    ensures MapPitchFromSemitone(e) == 0.0
  {
  }

  /** The table runs from 0 to two octaves. */
  lemma MapPitchEndpoints()
    ensures MapPitchFromSemitone(0.0) == 0.0 && MapPitchFromSemitone(12.0) == 2.0
  {
  }

  /** The table is strictly increasing on 0..12. */
  lemma {:induction false} MapPitchIncreasing(a: int, b: int)
    requires 0 <= a < b <= 12
    ensures MapPitchFromSemitone(a as real) < MapPitchFromSemitone(b as real)
    decreases b - a
  {
    if b == a + 1 {
      MapPitchStep(a);
    } else {
      MapPitchIncreasing(a, b - 1);
      MapPitchStep(b - 1);
    }
  }

  lemma MapPitchStep(k: int)
    requires 0 <= k < 12
    ensures MapPitchFromSemitone(k as real) < MapPitchFromSemitone((k + 1) as real)
  {
  }

  /** `parseInt(a.toString(), 10)` on a number written without an exponent: truncation towards zero. */
  function TruncateToInt(a: real): (n: int)
    ensures a >= 0.0 ==> n as real <= a < n as real + 1.0
    ensures a < 0.0 ==> n as real - 1.0 < a <= n as real
  {
    if a >= 0.0 then a.Floor else -((-a).Floor)
  }

  class Jungle {
    const shiftDownBuffer: array<real>
    const shiftUpBuffer: array<real>
    const fadeBuffer: array<real>

    /** Start times of mod1, mod2, mod3, mod4, fade1, fade2. */
    const mod1Start: real
    const mod2Start: real
    const mod3Start: real
    const mod4Start: real
    const fade1Start: real
    const fade2Start: real

    /** Gains that select the shift-down pair (mod1, mod2) or the shift-up pair (mod3, mod4). */
    var mod1Gain: real
    var mod2Gain: real
    var mod3Gain: real
    var mod4Gain: real

    /** Targets of modGain1 and modGain2, the depth of the delay sweep. */
    var modGain1Target: real
    var modGain2Target: real

    var value: real

    /** Exactly one voice pair is audible and both delay lines sweep equally deep. */
    predicate Valid()
      reads this
    {
      ((mod1Gain == 1.0 && mod2Gain == 1.0 && mod3Gain == 0.0 && mod4Gain == 0.0)
       || (mod1Gain == 0.0 && mod2Gain == 0.0 && mod3Gain == 1.0 && mod4Gain == 1.0))
      && modGain1Target == modGain2Target >= 0.0
    }

    predicate ShiftingUp()
      reads this
    {
      mod3Gain == 1.0 && mod4Gain == 1.0 && mod1Gain == 0.0 && mod2Gain == 0.0
    }

    /**
     * `periodSamples` is bufferTime * sampleRate; `now` is the context's
     * currentTime.
     */
    constructor(periodSamples: nat, now: real, sqrt: real -> real)
      ensures Valid() && !ShiftingUp()
      ensures fresh(shiftDownBuffer) && fresh(shiftUpBuffer) && fresh(fadeBuffer)
      ensures shiftDownBuffer.Length == shiftUpBuffer.Length == fadeBuffer.Length == periodSamples
      ensures forall i :: 0 <= i < periodSamples ==>
        shiftDownBuffer[i] == DelayTimeEntry(periodSamples, 0, false, i)
        && shiftUpBuffer[i] == DelayTimeEntry(periodSamples, 0, true, i)
        && fadeBuffer[i] == FadeEntry(periodSamples, 0, periodSamples as real / 2.0, sqrt, i)
      ensures mod1Start == mod3Start == fade1Start == now + 0.05
      ensures mod2Start == mod4Start == fade2Start == now + 0.05 + BufferTime - FadeTime
      ensures modGain1Target == modGain2Target == 0.5 * DelayTime
      ensures value == 0.0
    {
      // (activeTime - 2 * fadeTime) * sampleRate vanishes with these constants.
      assert BufferTime - 2.0 * FadeTime == 0.0;
      var fadeLength := periodSamples as real * FadeTime / BufferTime;
      var down := CreateDelayTimeBuffer(periodSamples, 0, false);
      var up := CreateDelayTimeBuffer(periodSamples, 0, true);
      var fade := CreateFadeBuffer(periodSamples, 0, fadeLength, sqrt);
      shiftDownBuffer := down;
      shiftUpBuffer := up;
      fadeBuffer := fade;
      mod1Gain := 1.0;
      mod2Gain := 1.0;
      mod3Gain := 0.0;
      mod4Gain := 0.0;
      var t := now + 0.05;
      var t2 := t + BufferTime - FadeTime;
      mod1Start := t;
      mod2Start := t2;
      mod3Start := t;
      mod4Start := t2;
      fade1Start := t;
      fade2Start := t2;
      value := 0.0;
      modGain1Target := 0.0;
      modGain2Target := 0.0;
      new;
      SetDelay(DelayTime);
    }

    method SetDelay(delayTime: real)
      modifies this
      ensures modGain1Target == modGain2Target == 0.5 * delayTime
      ensures mod1Gain == old(mod1Gain) && mod2Gain == old(mod2Gain)
      ensures mod3Gain == old(mod3Gain) && mod4Gain == old(mod4Gain)
      ensures value == old(value)
    {
      modGain1Target := 0.5 * delayTime;
      modGain2Target := 0.5 * delayTime;
    }

    method SetPitchOffset(mult: real)
      modifies this
      ensures Valid()
      ensures ShiftingUp() <==> mult > 0.0
      ensures modGain1Target == 0.5 * DelayTime * (if mult < 0.0 then -mult else mult)
      ensures value == mult
    {
      if mult > 0.0 {
        mod1Gain := 0.0;
        mod2Gain := 0.0;
        mod3Gain := 1.0;
        mod4Gain := 1.0;
      } else {
        mod1Gain := 1.0;
        mod2Gain := 1.0;
        mod3Gain := 0.0;
        mod4Gain := 0.0;
      }
      SetDelay(DelayTime * (if mult < 0.0 then -mult else mult));
      value := mult;
    }

    method SetPitchTranspose(e: real, a: real)
      modifies this
      ensures var t := MapPitchFromSemitone(TruncateToInt(a) as real) + e / 12.0;
        Valid() && (ShiftingUp() <==> t > 0.0)
        && modGain1Target == 0.5 * DelayTime * (if t < 0.0 then -t else t)
        && value == t
    {
      var aInt := TruncateToInt(a);
      var t := MapPitchFromSemitone(aInt as real) + (1.0 * e) / 12.0;
      SetPitchOffset(t);
    }
  }
}
