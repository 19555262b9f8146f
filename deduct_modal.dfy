/// The dialog that records a print job: the amount typed, the error shown,
/// and the check that lets a deduction through only when it is a positive
/// number no larger than what the spool holds.
module DeductModal {
  import opened JsNumber

  /** The two messages the dialog can show. The overdraft message names the
      grams still on the spool. */
  datatype ModalError = InvalidAmount | Overdraft(available: real)

  datatype Decision = Accept(grams: real) | Reject(error: ModalError)

  /** `handleConfirm`'s decision on the typed text: NaN or a non-positive
      amount is invalid; otherwise more than the spool holds is an overdraft;
      otherwise the amount goes through. */
  function Check(amount: string, currentWeight: real): (d: Decision)
    ensures d == Reject(InvalidAmount)
            <==> ParseFloat(amount).None? || ParseFloat(amount).value <= 0.0
    ensures d == Reject(Overdraft(currentWeight))
            <==> ParseFloat(amount).Some? && 0.0 < ParseFloat(amount).value && ParseFloat(amount).value > currentWeight
    ensures d.Accept? <==> ParseFloat(amount).Some? && 0.0 < ParseFloat(amount).value <= currentWeight
    ensures d.Accept? ==> d.grams == ParseFloat(amount).value
  {
    var val := ParseFloat(amount);
    if val.None? || val.value <= 0.0 then Reject(InvalidAmount)
    else if val.value > currentWeight then Reject(Overdraft(currentWeight))
    else Accept(val.value)
  }

  /** A deduction that passes the check leaves a spool with a non-negative
      weight still non-negative. */
  lemma AcceptedKeepsStock(amount: string, currentWeight: real)
    requires Check(amount, currentWeight).Accept?
    ensures 0.0 <= currentWeight - Check(amount, currentWeight).grams < currentWeight
  {
  }

  /** The amount field and the error line of an open dialog. */
  class Modal {
    var amount: string
    var error: Option<ModalError>

    /** Opening: an empty field and no error. */
    constructor ()
      ensures amount == "" && error == None
    {
      amount := "";
      error := None;
    }

    /** Typing into the field stores the text and always clears the error. */
    method Input(text: string)
      modifies this
      ensures amount == text && error == None
    {
      amount := text;
      error := None;
    }

    /** `handleConfirm` against the spool's current weight: a rejection shows
        one error and keeps the text; an acceptance hands the grams on
        (`onConfirm`), then empties the field and clears the error. */
    method Confirm(currentWeight: real) returns (confirmed: Option<real>)
      modifies this
      ensures match Check(old(amount), currentWeight)
              case Reject(e) => confirmed == None && error == Some(e) && amount == old(amount)
              case Accept(g) => confirmed == Some(g) && error == None && amount == ""
    {
      var val := ParseFloat(amount);
      if val.None? || val.value <= 0.0 {
        error := Some(InvalidAmount);
        return None;
      }
      if val.value > currentWeight {
        error := Some(Overdraft(currentWeight));
        return None;
      }
      confirmed := Some(val.value);
      amount := "";
      error := None;
    }
  }

  /** Examples: an empty field and "0" are invalid, "0.5" of 0.4 g is an
      overdraft, "12.5" of 100 g goes through. */
  lemma CheckExamples()
    ensures Check("", 100.0) == Reject(InvalidAmount)
    ensures Check("0", 100.0) == Reject(InvalidAmount)
    ensures Check("0.5", 0.4) == Reject(Overdraft(0.4))
    ensures Check("12.5", 100.0) == Accept(12.5)
  {
    hide ParseFloat, Check;
    ParseNumericEdit("");
    ParseWhole("0");
    assert DigitsValue("0") == 0;
    assert "0.5" == "0" + "." + "5";
    ParseDecimal("0", "5");
    assert DigitsValue("0") as real + FracValue("5") == 0.5;
    assert "12.5" == "12" + "." + "5";
    ParseDecimal("12", "5");
    assert DigitsValue("12") as real + FracValue("5") == 12.5;
  }
}
