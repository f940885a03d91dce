/**
 * Settlement of a prediction against the round's actual multiplier: the
 * correctness flag, the change each balance account undergoes, and the
 * accuracy figures derived from the result ledger.
 */
module Ledger {
  import opened Logic

  /** A balance account with no snapshot reads as this. */
  const INITIAL_BALANCE: real := 0.1
  /** Stake of the flat account on every "Above" call. */
  const FLAT_BET: real := 0.01
  /** Stake of the fixed account on every "Above" call. */
  const FIXED_BET: real := 0.02

  /** One row of the result ledger. */
  datatype Record = Record(prediction: Label, actual: real, correct: bool)

  /**
   * The correct flag of save_result: "Above" wins on a multiplier strictly
   * above the threshold, "Under" on one at or below it.
   */
  function IsCorrect(prediction: Label, actual: real): (b: bool)
    ensures b <==> (actual > THRESHOLD <==> prediction == Above)
  {
    (prediction == Above && actual > THRESHOLD) || (prediction == Under && actual <= THRESHOLD)
  }

  /** There is no dead zone and no overlap: for any actual exactly one call is correct. */
  lemma ExactlyOneCallCorrect(actual: real)
    ensures IsCorrect(Above, actual) != IsCorrect(Under, actual)
    ensures IsCorrect(Above, actual) <==> actual > THRESHOLD
    ensures IsCorrect(Under, actual) <==> actual <= THRESHOLD
  {
  }

  /** What update_flat_balance adds to the flat account: a stake won or lost on "Above", nothing on "Under". */
  function FlatDelta(prediction: Label, actual: real): (d: real)
    ensures d == 0.0 <==> prediction == Under
    ensures prediction == Above ==> (d == FLAT_BET || d == -FLAT_BET) && (d > 0.0 <==> actual > THRESHOLD)
  {
    match prediction
    case Above => if actual > THRESHOLD then FLAT_BET else -FLAT_BET
    case Under => 0.0
  }

  /** What save_result adds to the fixed account: update_fixed_balance runs on "Above" only. */
  function FixedDelta(prediction: Label, actual: real): (d: real)
    ensures d == 2.0 * FlatDelta(prediction, actual)
    ensures d == 0.0 <==> prediction == Under
  {
    if prediction == Above then (if actual > THRESHOLD then FIXED_BET else -FIXED_BET) else 0.0
  }

  /**
   * Both accounts move only on "Above", in the same direction, the fixed one
   * by twice as much, and they gain exactly when the call was correct.
   */
  lemma DeltasFollowCorrectness(prediction: Label, actual: real)
    ensures prediction == Under ==> FlatDelta(prediction, actual) == 0.0 && FixedDelta(prediction, actual) == 0.0
    ensures prediction == Above ==> FlatDelta(prediction, actual) == (if IsCorrect(prediction, actual) then FLAT_BET else -FLAT_BET)
    ensures FixedDelta(prediction, actual) == 2.0 * FlatDelta(prediction, actual)
  {
  }

  /** The worked settlements: only "Above" moves money, +0.01/+0.02 on a win and -0.01/-0.02 on a loss. */
  lemma SettlementExamples()
    ensures IsCorrect(Above, 2.5) && FlatDelta(Above, 2.5) == 0.01 && FixedDelta(Above, 2.5) == 0.02
    ensures !IsCorrect(Above, 1.5) && FlatDelta(Above, 1.5) == -0.01 && FixedDelta(Above, 1.5) == -0.02
    ensures IsCorrect(Under, 1.5) && FlatDelta(Under, 1.5) == 0.0 && FixedDelta(Under, 1.5) == 0.0
    ensures !IsCorrect(Under, 2.5) && FlatDelta(Under, 2.5) == 0.0 && FixedDelta(Under, 2.5) == 0.0
  {
  }

  /** The record save_result appends for a settlement. */
  function Settle(prediction: Label, actual: real): (r: Record)
    ensures r.prediction == prediction && r.actual == actual
    ensures r.correct <==> (actual > THRESHOLD <==> prediction == Above)
  {
    Record(prediction, actual, IsCorrect(prediction, actual))
  }

  /** Every row's correct flag is the one settlement computes from its call and actual. */
  ghost predicate Consistent(rs: seq<Record>)
  {
    forall i :: 0 <= i < |rs| ==> rs[i].correct == IsCorrect(rs[i].prediction, rs[i].actual)
  }

  /** Sum of the flat-account changes of all settlements in `rs`. */
  function FlatTotal(rs: seq<Record>): (t: real)
  {
    if rs == [] then 0.0
    else FlatTotal(rs[..|rs| - 1]) + FlatDelta(rs[|rs| - 1].prediction, rs[|rs| - 1].actual)
  }

  /** Sum of the fixed-account changes of all settlements in `rs`. */
  function FixedTotal(rs: seq<Record>): (t: real)
  {
    if rs == [] then 0.0
    else FixedTotal(rs[..|rs| - 1]) + FixedDelta(rs[|rs| - 1].prediction, rs[|rs| - 1].actual)
  }

  /** Number of rows whose correct flag is set (`results_df['correct'].sum()`). */
  function CountCorrect(rs: seq<Record>): (n: nat)
    ensures n <= |rs|
  {
    if rs == [] then 0
    else CountCorrect(rs[..|rs| - 1]) + (if rs[|rs| - 1].correct then 1 else 0)
  }

  /** Number of "Above" rows with the given correct flag. */
  function CountAbove(rs: seq<Record>, correct: bool): (n: nat)
    ensures n <= |rs|
  {
    if rs == [] then 0
    else CountAbove(rs[..|rs| - 1], correct) + (if rs[|rs| - 1].prediction == Above && rs[|rs| - 1].correct == correct then 1 else 0)
  }

  /** Appending one settlement adds its changes to the totals and its flag to the count. */
  lemma AppendRecord(rs: seq<Record>, r: Record)
    ensures FlatTotal(rs + [r]) == FlatTotal(rs) + FlatDelta(r.prediction, r.actual)
    ensures FixedTotal(rs + [r]) == FixedTotal(rs) + FixedDelta(r.prediction, r.actual)
    ensures CountCorrect(rs + [r]) == CountCorrect(rs) + (if r.correct then 1 else 0)
  {
    assert (rs + [r])[..|rs|] == rs;
  }

  /**
   * The balance movements of a consistent ledger are fixed by its "Above"
   * rows alone: one flat stake per correct "Above" call minus one per wrong
   * one, and the fixed account moves twice as far.
   */
  lemma {:induction false} TotalsFromAboveCalls(rs: seq<Record>)
    requires Consistent(rs)
    ensures FlatTotal(rs) == FLAT_BET * (CountAbove(rs, true) as real - CountAbove(rs, false) as real)
    ensures FixedTotal(rs) == 2.0 * FlatTotal(rs)
  {
    if rs != [] {
      var p, r := rs[..|rs| - 1], rs[|rs| - 1];
      assert Consistent(p) by {
        forall i | 0 <= i < |p| ensures p[i].correct == IsCorrect(p[i].prediction, p[i].actual) {
          assert p[i] == rs[i];
        }
      }
      TotalsFromAboveCalls(p);
      assert r.correct == IsCorrect(r.prediction, r.actual);
    }
  }

  /** The figures of the accuracy tracker. */
  datatype Stats = Stats(total: nat, correct: nat, rate: real)

  /** Total, correct and their ratio, the ratio guarded to 0 for an empty ledger. */
  function Accuracy(rs: seq<Record>): (s: Stats)
    ensures s.total == |rs| && s.correct == CountCorrect(rs)
    ensures s.correct <= s.total
    ensures s.total > 0 ==> s.rate * s.total as real == s.correct as real
    ensures s.total == 0 ==> s.rate == 0.0
    ensures 0.0 <= s.rate <= 1.0
  {
    var total := |rs|;
    var correct := CountCorrect(rs);
    Stats(total, correct, if total > 0 then correct as real / total as real else 0.0)
  }

  /** The aggregate of an empty ledger. */
  lemma AccuracyOfEmpty()
    ensures Accuracy([]) == Stats(0, 0, 0.0)
  {
  }

  /** Settling one more prediction adds one to the total and, when it was correct, one to the correct count. */
  lemma AccuracyAfterSettle(rs: seq<Record>, r: Record)
    ensures Accuracy(rs + [r]).total == Accuracy(rs).total + 1
    ensures Accuracy(rs + [r]).correct == Accuracy(rs).correct + (if r.correct then 1 else 0)
  {
    AppendRecord(rs, r);
  }
}
