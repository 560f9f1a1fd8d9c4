/** `EditBalanceModal`: the form where the user types the balance they
    want. The field starts at the current balance; the form previews the
    adjustment the new balance implies, and submitting passes the typed
    balance to `onAdjust`. Text that does not read as a number (`NaN`) is
    `None` here, with `parse` standing for `parseFloat`. */
module EditBalanceForm {
  import opened Wrappers
  import opened Ledger

  /** `isValid`. */
  predicate IsValid(newBalance: string, parse: string -> Option<real>) {
    parse(newBalance).Some?
  }

  /** `difference = parseFloat(newBalance) - currentBalance`; `None` for
      NaN. */
  function Difference(newBalance: string, current: real, parse: string -> Option<real>): (d: Option<real>)
    ensures d.Some? <==> IsValid(newBalance, parse)
    ensures d.Some? ==> current + d.value == parse(newBalance).value
  {
    match parse(newBalance)
    case None => None
    case Some(b) => Some(b - current)
  }

  function Abs(x: real): (r: real)
    ensures r >= 0.0 && (r == x || r == -x)
  {
    if x < 0.0 then -x else x
  }

  /** The "Balance Adjustment" line: an income when the balance goes up,
      an expense otherwise, of the size of the difference. */
  datatype Preview = Preview(kind: Kind, amount: real)

  /** The preview, shown while the input is valid and the difference is
      not 0. */
  function PreviewOf(newBalance: string, current: real, parse: string -> Option<real>): (p: Option<Preview>)
    ensures p.Some? <==> IsValid(newBalance, parse) && parse(newBalance).value != current
    ensures p.Some? ==> p.value.amount > 0.0
    ensures p.Some? ==> (p.value.kind == Income <==> parse(newBalance).value > current)
    ensures p.Some? ==> current + (if p.value.kind == Income then p.value.amount else -p.value.amount)
                        == parse(newBalance).value
  {
    match Difference(newBalance, current, parse)
    case None => None
    case Some(d) =>
      if d == 0.0 then None
      else Some(Preview(if d > 0.0 then Income else Expense, Abs(d)))
  }

  /** `disabled={!isValid || difference === 0}`. */
  predicate SubmitDisabled(newBalance: string, current: real, parse: string -> Option<real>) {
    !IsValid(newBalance, parse) || Difference(newBalance, current, parse) == Some(0.0)
  }

  /** The button is enabled exactly while the preview is shown. */
  lemma EnabledIffPreviewed(newBalance: string, current: real, parse: string -> Option<real>)
    ensures !SubmitDisabled(newBalance, current, parse) <==> PreviewOf(newBalance, current, parse).Some?
  {
  }

  class EditBalanceModal {
    var newBalance: string

    constructor()
      ensures newBalance == ""
    {
      newBalance := "";
    }

    /** The effect on `open` and `currentBalance`: while the dialog is open
        the field is reset to the current balance, written by `numberText`
        (`toString`). */
    method Open(open: bool, current: real, numberText: real -> string)
      modifies this
      ensures newBalance == if open then numberText(current) else old(newBalance)
    {
      if open {
        newBalance := numberText(current);
      }
    }

    /** `handleSubmit`: the balance passed to `onAdjust`, if any. */
    method Submit(parse: string -> Option<real>) returns (adjusted: Option<real>)
      ensures adjusted.Some? <==> IsValid(newBalance, parse)
      ensures adjusted.Some? ==> adjusted == parse(newBalance)
    {
      adjusted := parse(newBalance);
    }
  }

  /** Right after opening, provided `parse` reads back what `numberText`
      wrote, the difference is 0: no preview is shown, the button is
      disabled, and submitting anyway passes the current balance. */
  lemma OpenedShowsNoChange(current: real, numberText: real -> string, parse: string -> Option<real>)
    requires parse(numberText(current)) == Some(current)
    ensures Difference(numberText(current), current, parse) == Some(0.0)
    ensures PreviewOf(numberText(current), current, parse).None?
    ensures SubmitDisabled(numberText(current), current, parse)
  {
  }
}
