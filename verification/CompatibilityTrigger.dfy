/**
 The row trigger of migrations/0003_compatibility.sql, which keeps the legacy column
 `amount_cents` and the target pair (`amount_minor`, `currency_code`) in agreement.
 */
module CompatibilityTrigger {
  import opened Sql

  datatype Row = Row(cents: Cell<int>, minor: Cell<int>, currency: Cell<string>)

  datatype Outcome = Accepted(row: Row) | Rejected

  const EUR: Cell<string> := Val("EUR")

  /** A row the backfill has not reached: a legacy amount and no target pair. */
  predicate Pending(r: Row) {
    r.cents.Val? && 0 <= r.cents.v && r.minor.Null? && r.currency.Null?
  }

  /** A row whose two representations agree. */
  predicate Complete(r: Row) {
    r.cents.Val? && 0 <= r.cents.v && r.minor == r.cents && r.currency == EUR
  }

  function CompleteRow(amount: int): Row {
    Row(Val(amount), Val(amount), EUR)
  }

  /** What one representation of a row says about its amount. */
  datatype Claim = Silent | Amount(a: int) | Broken

  function LegacyClaim(r: Row): Claim {
    if r.cents.Null? then Silent else if r.cents.v < 0 then Broken else Amount(r.cents.v)
  }

  function TargetClaim(r: Row): Claim {
    if r.minor.Null? && r.currency.Null? then Silent
    else if r.minor.Val? && 0 <= r.minor.v && r.currency == EUR then Amount(r.minor.v)
    else Broken
  }

  function Agree(p: Claim, q: Claim): Claim {
    if p.Silent? then q else if q.Silent? || p == q then p else Broken
  }

  function Settled(c: Claim): Outcome {
    if c.Amount? then Accepted(CompleteRow(c.a)) else Rejected
  }

  /** An insert stands when the representations it gives, at least one of them, name one amount. */
  function InsertOutcome(after: Row): Outcome {
    Settled(Agree(LegacyClaim(after), TargetClaim(after)))
  }

  /**
   An update stands when every representation it changes names one amount. When it changes neither,
   both must name an amount, but the two amounts are not compared.
   */
  function UpdateOutcome(before: Row, after: Row): Outcome {
    var legacyChanged := before.cents != after.cents;
    var targetChanged := before.minor != after.minor || before.currency != after.currency;
    if legacyChanged && !targetChanged then Settled(LegacyClaim(after))
    else if targetChanged && !legacyChanged then Settled(TargetClaim(after))
    else if !LegacyClaim(after).Amount? || !TargetClaim(after).Amount? then Rejected
    else if legacyChanged then Settled(Agree(LegacyClaim(after), TargetClaim(after)))
    else Accepted(after)
  }

  /** The insert branch of the trigger function. */
  method OnInsert(row: Row) returns (out: Outcome)
    ensures out == InsertOutcome(row)
  {
    var after := row;
    if Holds(And(And(Not(IsNull(after.cents)), IsNull(after.minor)), IsNull(after.currency))) {
      if Holds(Less(after.cents, 0)) {
        return Rejected;
      }
      after := after.(minor := after.cents);
      after := after.(currency := EUR);
    } else if Holds(And(And(IsNull(after.cents), Not(IsNull(after.minor))),
                        And(Equal(after.currency, EUR), Not(Less(after.minor, 0))))) {
      after := after.(cents := after.minor);
    } else if Holds(And(And(Not(IsNull(after.cents)), Not(IsNull(after.minor))),
                        And(Equal(after.cents, after.minor),
                            And(Equal(after.currency, EUR), Not(Less(after.cents, 0)))))) {
    } else {
      return Rejected;
    }
    return Accepted(after);
  }

  /** The update branches of the trigger function. */
  method OnUpdate(before: Row, row: Row) returns (out: Outcome)
    ensures out == UpdateOutcome(before, row)
  {
    var after := row;
    var legacyChanged := IsDistinct(after.cents, before.cents);
    var targetChanged := Or(IsDistinct(after.minor, before.minor), IsDistinct(after.currency, before.currency));
    if Holds(And(legacyChanged, Not(targetChanged))) {
      if Holds(Or(IsNull(after.cents), Less(after.cents, 0))) {
        return Rejected;
      }
      after := after.(minor := after.cents);
      after := after.(currency := EUR);
    } else if Holds(And(targetChanged, Not(legacyChanged))) {
      if Holds(Or(Or(IsNull(after.minor), Less(after.minor, 0)), IsDistinct(after.currency, EUR))) {
        return Rejected;
      }
      after := after.(cents := after.minor);
    } else if Holds(And(legacyChanged, targetChanged)) {
      if Holds(Or(Or(Or(IsNull(after.cents), IsNull(after.minor)), Or(Less(after.cents, 0), Less(after.minor, 0))),
                  Or(Not(Equal(after.cents, after.minor)), IsDistinct(after.currency, EUR)))) {
        return Rejected;
      }
    } else if Holds(Or(Or(Or(IsNull(after.cents), IsNull(after.minor)), Or(Less(after.cents, 0), Less(after.minor, 0))),
                       IsDistinct(after.currency, EUR))) {
      return Rejected;
    }
    return Accepted(after);
  }

  /** An accepted insert always stores a complete row, and the amount is the one its caller named. */
  lemma {:induction false} InsertStoresOneAmount(after: Row)
    ensures InsertOutcome(after).Accepted? <==>
            exists a | 0 <= a ::
              after == Row(Val(a), Null, Null) || after == Row(Null, Val(a), EUR) || after == CompleteRow(a)
    ensures InsertOutcome(after).Accepted? ==>
              && Complete(InsertOutcome(after).row)
              && InsertOutcome(after).row.cents == (if after.cents.Val? then after.cents else after.minor)
  {
    if InsertOutcome(after).Accepted? {
      var a := InsertOutcome(after).row.cents.v;
      assert after == Row(Val(a), Null, Null) || after == Row(Null, Val(a), EUR) || after == CompleteRow(a);
    }
  }

  /**
   An accepted update leaves the two representations in agreement exactly when it changed the row or
   the row was already in agreement: the branch for an unchanged row does not compare the amounts.
   */
  lemma {:induction false} UpdateAgreesExactlyWhen(before: Row, after: Row)
    requires UpdateOutcome(before, after).Accepted?
    ensures Complete(UpdateOutcome(before, after).row) <==> before != after || before.cents == before.minor
  {
    assert before == after <==>
           before.cents == after.cents && before.minor == after.minor && before.currency == after.currency;
  }

  /** A row whose amounts already disagree passes an update that changes nothing. */
  lemma {:induction false} UnchangedMismatchPasses()
    ensures var row := Row(Val(1), Val(2), EUR);
            UpdateOutcome(row, row) == Accepted(row) && !Complete(row)
  {
  }

  /**
   On a pending or complete row every accepted update stores a complete row holding the amount the
   caller wrote, and updating nothing is accepted only on a complete row.
   */
  lemma {:induction false} UpdateStoresOneAmount(before: Row, after: Row)
    requires Pending(before) || Complete(before)
    ensures UpdateOutcome(before, after).Accepted? ==>
              && Complete(UpdateOutcome(before, after).row)
              && UpdateOutcome(before, after).row.cents ==
                 (if after.cents != before.cents then after.cents
                  else if after.minor != before.minor || after.currency != before.currency then after.minor
                  else before.cents)
    ensures before == after ==> (UpdateOutcome(before, after).Accepted? <==> Complete(before))
  {
    if UpdateOutcome(before, after).Accepted? {
      UpdateAgreesExactlyWhen(before, after);
    }
  }

  /** The backfill's own update passes the trigger and completes the row with its legacy amount. */
  lemma {:induction false} FillPasses(before: Row)
    requires Pending(before) || Complete(before)
    ensures UpdateOutcome(before, before.(minor := before.cents, currency := EUR))
            == Accepted(CompleteRow(before.cents.v))
  {
  }
}
