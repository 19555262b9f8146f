/// The stock bar of one spool: the remaining share as a clamped percentage,
/// the low-stock flag and the bar colour.
module ProgressBar {
  import opened JsNumber

  /** The low-stock threshold in grams when the caller gives none. */
  const DefaultThreshold: real := 200.0

  function Clamp(x: real): (c: real)
    ensures 0.0 <= c <= 100.0
    ensures 0.0 <= x <= 100.0 ==> c == x
  {
    if x < 0.0 then 0.0 else if x > 100.0 then 100.0 else x
  }

  /** `Math.min(100, Math.max(0, (current / total) * 100))`, where `None`
      stands for NaN. Over a zero total the quotient is +Infinity (clamped to
      100), -Infinity (clamped to 0) or, for 0 / 0, NaN, which both clamps pass
      through. */
  function Percentage(current: real, total: real): (p: Option<real>)
    ensures p.Some? ==> 0.0 <= p.value <= 100.0
    ensures p.None? <==> current == 0.0 && total == 0.0
  {
    if total != 0.0 then Some(Clamp(current / total * 100.0))
    else if current > 0.0 then Some(100.0)
    else if current < 0.0 then Some(0.0)
    else None
  }

  /** For a spool holding between nothing and its full weight, the percentage
      is the plain share, and it grows with what is left. */
  lemma PercentageOfStock(current: real, total: real)
    requires total > 0.0 && 0.0 <= current <= total
    ensures Percentage(current, total) == Some(current / total * 100.0)
  {
    assert current / total <= 1.0;
  }

  lemma PercentageMonotone(c1: real, c2: real, total: real)
    requires total > 0.0 && c1 <= c2
    ensures Percentage(c1, total).value <= Percentage(c2, total).value
  {
    assert c1 / total <= c2 / total;
  }

  /** `current < lowStockThreshold`. */
  predicate IsLowStock(current: real, threshold: real) {
    current < threshold
  }

  datatype BarColor = Red | Yellow | Emerald

  /** The colour chain: red below 20 % or when low on stock, else yellow below
      50 %, else emerald. A NaN percentage passes neither comparison. */
  function Color(current: real, total: real, threshold: real): BarColor {
    var p := Percentage(current, total);
    if (p.Some? && p.value < 20.0) || IsLowStock(current, threshold) then Red
    else if p.Some? && p.value < 50.0 then Yellow
    else Emerald
  }

  /** Red exactly when the percentage is below 20 or stock is low. */
  lemma RedIff(current: real, total: real, threshold: real)
    ensures var p := Percentage(current, total);
      (Color(current, total, threshold) == Red) <==> ((p.Some? && p.value < 20.0) || current < threshold)
  {
  }

  /** Yellow exactly when not red and the percentage is below 50. */
  lemma YellowIff(current: real, total: real, threshold: real)
    ensures var p := Percentage(current, total);
      (Color(current, total, threshold) == Yellow)
      <==> (Color(current, total, threshold) != Red && p.Some? && p.value < 50.0)
  {
  }

  /** Emerald exactly when stock is not low and the percentage is at least 50,
      or is NaN (a 0 g spool of 0 g with a threshold at or below 0). */
  lemma EmeraldIff(current: real, total: real, threshold: real)
    ensures var p := Percentage(current, total);
      (Color(current, total, threshold) == Emerald)
      <==> (current >= threshold && (p.None? || p.value >= 50.0))
  {
  }

  /** How alarming a colour is: red above yellow above emerald. */
  function Severity(c: BarColor): nat {
    match c
    case Red => 2
    case Yellow => 1
    case Emerald => 0
  }

  /** On a spool of positive total weight, more stock never shows a more
      alarming colour. */
  lemma {:induction false} MoreStockNoWorseColor(c1: real, c2: real, total: real, threshold: real)
    requires total > 0.0 && c1 <= c2
    ensures Severity(Color(c2, total, threshold)) <= Severity(Color(c1, total, threshold))
  {
    PercentageMonotone(c1, c2, total);
  }

  /** With the default threshold an empty spool is red whatever its total. */
  lemma EmptySpoolIsRed(total: real)
    ensures Color(0.0, total, DefaultThreshold) == Red
  {
  }
}
