/** Bank and other charges of `src/utils/calculator.ts`: flat fees plus fees
    of a percentage of the goods value, floored at a minimum and, for the
    acceptance fee, optionally capped. */
module Charges {
  import opened Wrappers
  import opened Types

  /** `value * rate / 100`. */
  function PercentOf(value: real, rate: real): real {
    value * rate / 100.0
  }

  /** A percentage of the value for a non-negative rate grows with the value. */
  lemma PercentOfMonotone(value: real, value': real, rate: real)
    requires value <= value' && rate >= 0.0
    ensures PercentOf(value, rate) <= PercentOf(value', rate)
  {
  }

  /** A percent fee floored at its minimum. */
  function Floored(value: real, fee: PercentFee): (r: real)
    ensures r >= fee.min && r >= PercentOf(value, fee.rate)
    ensures r == fee.min || r == PercentOf(value, fee.rate)
  {
    Max(PercentOf(value, fee.rate), fee.min)
  }

  /** The ceiling applies only when `max` is truthy: present and non-zero. */
  predicate HasCap(fee: CappedPercentFee) {
    fee.max.Some? && fee.max.value != 0.0
  }

  /** The acceptance fee: the floored percentage, then capped when a ceiling
      is configured. With `min <= max` this clamps the percentage into
      `[min, max]`. */
  function Acceptance(value: real, fee: CappedPercentFee): (r: real)
    ensures !HasCap(fee) ==> r == Floored(value, PercentFee(fee.rate, fee.min))
    ensures HasCap(fee) ==> r <= fee.max.value
    ensures HasCap(fee) ==> r >= Min(fee.min, fee.max.value)
    ensures HasCap(fee) && fee.min <= fee.max.value ==>
              var p := PercentOf(value, fee.rate);
              && (p <= fee.min ==> r == fee.min)
              && (fee.min <= p <= fee.max.value ==> r == p)
              && (fee.max.value <= p ==> r == fee.max.value)
  {
    var floored := Floored(value, PercentFee(fee.rate, fee.min));
    if HasCap(fee) then Min(floored, fee.max.value) else floored
  }

  /** The least the acceptance fee can be: its minimum, or the ceiling when
      the ceiling lies below the minimum. */
  function AcceptanceFloor(fee: CappedPercentFee): real {
    if HasCap(fee) then Min(fee.min, fee.max.value) else fee.min
  }

  /** Bank charges: opening cable, acceptance, payment and cable, added up. */
  function CalculateBankCharges(value: real, charges: BankCharges): (r: real)
    ensures r == charges.openingCable + Acceptance(value, charges.acceptance)
                 + Floored(value, charges.payment) + charges.cable
    ensures r >= charges.openingCable + AcceptanceFloor(charges.acceptance)
                 + charges.payment.min + charges.cable
    ensures r >= charges.openingCable + Acceptance(value, charges.acceptance)
                 + PercentOf(value, charges.payment.rate) + charges.cable
    ensures HasCap(charges.acceptance) ==>
              r <= charges.openingCable + charges.acceptance.max.value
                   + Floored(value, charges.payment) + charges.cable
  {
    charges.openingCable + Acceptance(value, charges.acceptance)
    + Floored(value, charges.payment) + charges.cable
  }

  /** A floored percent fee with a non-negative rate grows with the value. */
  lemma FlooredMonotone(value: real, value': real, fee: PercentFee)
    requires value <= value' && fee.rate >= 0.0
    ensures Floored(value, fee) <= Floored(value', fee)
  {
    PercentOfMonotone(value, value', fee.rate);
  }

  /** Bank charges never decrease as the value grows, for non-negative rates. */
  lemma BankChargesMonotone(value: real, value': real, charges: BankCharges)
    requires value <= value'
    requires charges.acceptance.rate >= 0.0 && charges.payment.rate >= 0.0
    ensures CalculateBankCharges(value, charges) <= CalculateBankCharges(value', charges)
  {
    FlooredMonotone(value, value', PercentFee(charges.acceptance.rate, charges.acceptance.min));
    FlooredMonotone(value, value', charges.payment);
  }

  /** Other charges: import inspection, customs, forwarder and EXW overseas. */
  function CalculateOtherCharges(value: real, charges: OtherCharges): (r: real)
    ensures r == Floored(value, charges.importInspection) + charges.importCustoms
                 + Floored(value, charges.importForwarder) + Floored(value, charges.exwOverseas)
    ensures r >= charges.importCustoms + charges.importInspection.min
                 + charges.importForwarder.min + charges.exwOverseas.min
    ensures r >= charges.importCustoms + PercentOf(value, charges.importInspection.rate)
                 + PercentOf(value, charges.importForwarder.rate)
                 + PercentOf(value, charges.exwOverseas.rate)
  {
    Floored(value, charges.importInspection) + charges.importCustoms
    + Floored(value, charges.importForwarder) + Floored(value, charges.exwOverseas)
  }

  /** Other charges never decrease as the value grows, for non-negative rates. */
  lemma OtherChargesMonotone(value: real, value': real, charges: OtherCharges)
    requires value <= value'
    requires charges.importInspection.rate >= 0.0
    requires charges.importForwarder.rate >= 0.0
    requires charges.exwOverseas.rate >= 0.0
    ensures CalculateOtherCharges(value, charges) <= CalculateOtherCharges(value', charges)
  {
    FlooredMonotone(value, value', charges.importInspection);
    FlooredMonotone(value, value', charges.importForwarder);
    FlooredMonotone(value, value', charges.exwOverseas);
  }
}
