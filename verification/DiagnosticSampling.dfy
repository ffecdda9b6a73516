/** The sampling counter that decides which telemetry messages carry diagnostic properties.

    The counter is a 32-bit number that is folded back when it reaches its largest value.
    The results below compare it with a counter that never folds. */
module DiagnosticSampling {
  import opened Words

  // The source computes floor over doubles. Every product is below 2^40, so the integer
  // division (which rounds down for negative numerators as well) is the same number.
  predicate Sampled(percentage: nat, number: int) {
    (number - 2) * percentage / 100 < (number - 1) * percentage / 100
  }

  // One step of the 32-bit counter.
  function NextNumber(percentage: nat, number: nat): nat
    requires percentage > 0
  {
    (if number == UINT32_MAX then number % (percentage * 100) else number) + 1
  }

  // The 32-bit counter after the given number of messages.
  function NumberAfter(percentage: nat, messages: nat): nat
    requires percentage > 0
  {
    if messages == 0 then 0 else NextNumber(percentage, NumberAfter(percentage, messages - 1))
  }

  // How many of messages first + 1 .. first + count the code samples.
  function SampledByCode(percentage: nat, first: nat, count: nat): nat
    requires percentage > 0
  {
    if count == 0 then 0
    else
      SampledByCode(percentage, first, count - 1) +
      (if Sampled(percentage, NumberAfter(percentage, first + count)) then 1 else 0)
  }

  class DiagnosticSetting {
    var diagSamplingPercentage: nat
    var currentMessageNumber: nat
    // Messages offered since the percentage was last set, never folded.
    ghost var offered: nat

    ghost predicate Valid()
      reads this
    {
      && diagSamplingPercentage <= 100
      && currentMessageNumber <= UINT32_MAX
      && (if diagSamplingPercentage == 0
          then currentMessageNumber == 0
          else currentMessageNumber == NumberAfter(diagSamplingPercentage, offered))
    }

    constructor ()
      ensures Valid() && diagSamplingPercentage == 0 && offered == 0
    {
      diagSamplingPercentage, currentMessageNumber, offered := 0, 0, 0;
    }

    // The decision is the one an unbounded counter would make.
    method ShouldAddDiagnosticInfo() returns (result: bool)
      requires Valid()
      modifies this`currentMessageNumber, this`offered
      ensures Valid()
      ensures diagSamplingPercentage == 0 ==>
        !result && currentMessageNumber == old(currentMessageNumber) && offered == old(offered)
      ensures diagSamplingPercentage > 0 ==>
        && offered == old(offered) + 1
        && result == Sampled(diagSamplingPercentage, offered)
        && 1 <= currentMessageNumber
    {
      result := false;
      if diagSamplingPercentage > 0 {
        if currentMessageNumber == UINT32_MAX {
          currentMessageNumber := currentMessageNumber % (diagSamplingPercentage * 100);
        }
        currentMessageNumber := currentMessageNumber + 1;
        offered := offered + 1;
        assert currentMessageNumber == NumberAfter(diagSamplingPercentage, offered);
        result := Sampled(diagSamplingPercentage, currentMessageNumber);
        FoldedCounterDecidesAlike(diagSamplingPercentage, offered);
      }
    }

    // OPTION_DIAGNOSTIC_SAMPLING_PERCENTAGE: out-of-range values are refused and change nothing.
    method SetSamplingPercentage(value: nat) returns (ok: bool)
      requires Valid()
      modifies this
      ensures Valid()
      ensures ok == (value <= 100)
      ensures ok ==> diagSamplingPercentage == value && currentMessageNumber == 0 && offered == 0
      ensures !ok ==>
        && diagSamplingPercentage == old(diagSamplingPercentage)
        && currentMessageNumber == old(currentMessageNumber)
        && offered == old(offered)
    {
      if value > 100 {
        ok := false;
      } else {
        diagSamplingPercentage, currentMessageNumber, offered := value, 0, 0;
        ok := true;
      }
    }
  }

  lemma SampledHasPeriod100(percentage: nat, number: int, turns: int)
    ensures Sampled(percentage, number + 100 * turns) == Sampled(percentage, number)
  {
    FloorShift((number - 2) * percentage, turns * percentage);
    FloorShift((number - 1) * percentage, turns * percentage);
    assert (number + 100 * turns - 2) * percentage
        == (number - 2) * percentage + 100 * (turns * percentage);
    assert (number + 100 * turns - 1) * percentage
        == (number - 1) * percentage + 100 * (turns * percentage);
  }

  lemma FloorShift(x: int, q: int)
    ensures (x + 100 * q) / 100 == x / 100 + q
  {
  }

  // The folded counter stays in range and keeps the residue that the decision depends on.
  lemma {:induction false} CounterKeepsResidue(percentage: nat, messages: nat) returns (turns: nat)
    requires 1 <= percentage <= 100
    ensures NumberAfter(percentage, messages) <= UINT32_MAX
    ensures messages >= 1 ==> NumberAfter(percentage, messages) >= 1
    ensures messages == NumberAfter(percentage, messages) + 100 * turns
  {
    if messages == 0 {
      turns := 0;
    } else {
      var before := CounterKeepsResidue(percentage, messages - 1);
      var number := NumberAfter(percentage, messages - 1);
      if number == UINT32_MAX {
        var modulus := percentage * 100;
        assert number == modulus * (number / modulus) + number % modulus;
        var q := number / modulus;
        assert modulus * q == 100 * (percentage * q);
        turns := before + percentage * q;
      } else {
        turns := before;
      }
    }
  }

  // The wrapping counter makes the decision of the unbounded one, for every message.
  lemma FoldedCounterDecidesAlike(percentage: nat, messages: nat)
    requires 1 <= percentage <= 100
    ensures NumberAfter(percentage, messages) <= UINT32_MAX
    ensures messages >= 1 ==> NumberAfter(percentage, messages) >= 1
    ensures Sampled(percentage, NumberAfter(percentage, messages)) == Sampled(percentage, messages)
  {
    var turns := CounterKeepsResidue(percentage, messages);
    SampledHasPeriod100(percentage, NumberAfter(percentage, messages), turns);
  }

  // The number sampled in any block of consecutive messages is a difference of two floors.
  lemma {:induction false} SampledCount(percentage: nat, first: nat, count: nat)
    requires 1 <= percentage <= 100
    ensures SampledByCode(percentage, first, count)
         == (first + count - 1) * percentage / 100 - (first - 1) * percentage / 100
  {
    if count > 0 {
      SampledCount(percentage, first, count - 1);
      FoldedCounterDecidesAlike(percentage, first + count);
      var x := (first + count - 2) * percentage;
      assert (first + count - 1) * percentage == x + percentage;
      assert (x + percentage) / 100 <= x / 100 + 1;
    }
  }

  // Any 100 consecutive messages carry exactly `percentage` samples, folding or not.
  lemma AnyHundredMessages(percentage: nat, first: nat)
    requires 1 <= percentage <= 100
    ensures SampledByCode(percentage, first, 100) == percentage
  {
    SampledCount(percentage, first, 100);
    FloorShift((first - 1) * percentage, percentage);
    assert (first + 99) * percentage == (first - 1) * percentage + 100 * percentage;
  }

  // The first message after the option is set is always sampled, then one in every 100/percentage.
  lemma FirstMessages(percentage: nat, count: nat)
    requires 1 <= percentage <= 100 && count >= 1
    ensures SampledByCode(percentage, 0, count) == (count - 1) * percentage / 100 + 1
  {
    SampledCount(percentage, 0, count);
    assert -1 * percentage / 100 == -1;
  }
}
