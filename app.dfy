/**
 * The session of the predictor app: the in-memory history and pending call,
 * and the persisted result ledger and balance snapshots, with the
 * operations one rerun of the page performs on them.
 */
module App {
  import opened Wrappers
  import opened Logic
  import opened Ledger

  /**
   * What one rerun of the page receives: the parsed content of a file still
   * in the uploader, whether the reset button was clicked, whether the add
   * button was clicked, and the typed entry (None when it does not parse as
   * a number).
   */
  datatype Interaction = Interaction(
    uploaded: Option<seq<real>>,
    resetClicked: bool,
    addClicked: bool,
    entry: Option<real>)

  class Session {
    /** The outcome history, oldest first (session state and history file). */
    var history: seq<real>
    /** The call awaiting its settling round (`last_prediction`). */
    var pending: Option<Label>
    /** The result ledger (results file; absent means empty). */
    var results: seq<Record>
    /** The flat balance file: None when the file is absent. */
    var flatSnapshot: Option<real>
    /** The fixed balance file: None when the file is absent. */
    var fixedSnapshot: Option<real>

    /**
     * Every recorded flag is the one settlement computes, and each balance is
     * the initial balance plus the changes of every settlement since the last
     * reset.
     */
    ghost predicate Valid()
      reads this
    {
      && Consistent(results)
      && FlatBalance() == INITIAL_BALANCE + FlatTotal(results)
      && FixedBalance() == INITIAL_BALANCE + FixedTotal(results)
    }

    /** get_flat_balance: the stored value, or the initial balance when there is none. */
    function FlatBalance(): (b: real)
      reads this
      ensures flatSnapshot.None? ==> b == INITIAL_BALANCE
      ensures flatSnapshot.Some? ==> b == flatSnapshot.value
    {
      flatSnapshot.GetOr(INITIAL_BALANCE)
    }

    /** get_fixed_balance: the stored value, or the initial balance when there is none. */
    function FixedBalance(): (b: real)
      reads this
      ensures fixedSnapshot.None? ==> b == INITIAL_BALANCE
      ensures fixedSnapshot.Some? ==> b == fixedSnapshot.value
    {
      fixedSnapshot.GetOr(INITIAL_BALANCE)
    }

    /** A first visit: no stored files, no pending call. */
    constructor ()
      ensures Valid()
      ensures history == [] && pending == None && results == []
      ensures flatSnapshot == None && fixedSnapshot == None
    {
      history := [];
      pending := None;
      results := [];
      flatSnapshot := None;
      fixedSnapshot := None;
    }

    /** update_flat_balance: on "Above", read the balance, move it by one flat stake and store it. */
    method UpdateFlatBalance(prediction: Label, actual: real)
      modifies this
      ensures flatSnapshot == if prediction == Above
                              then Some(old(FlatBalance()) + (if actual > THRESHOLD then FLAT_BET else -FLAT_BET))
                              else old(flatSnapshot)
      ensures FlatBalance() == old(FlatBalance()) + FlatDelta(prediction, actual)
      ensures history == old(history) && pending == old(pending) && results == old(results)
      ensures fixedSnapshot == old(fixedSnapshot)
    {
      var balance := FlatBalance();
      if prediction == Above {
        balance := balance + if actual > THRESHOLD then FLAT_BET else -FLAT_BET;
        flatSnapshot := Some(balance);
      }
    }

    /** update_fixed_balance: read the balance, move it by one fixed stake and store it. */
    method UpdateFixedBalance(actual: real)
      modifies this
      ensures fixedSnapshot == Some(old(FixedBalance()) + (if actual > THRESHOLD then FIXED_BET else -FIXED_BET))
      ensures history == old(history) && pending == old(pending) && results == old(results)
      ensures flatSnapshot == old(flatSnapshot)
    {
      var balance := FixedBalance();
      balance := balance + if actual > THRESHOLD then FIXED_BET else -FIXED_BET;
      fixedSnapshot := Some(balance);
    }

    /**
     * save_result: append one settled record, then update the flat account
     * and, on "Above", the fixed account.
     */
    method SaveResult(prediction: Label, actual: real)
      requires Valid()
      modifies this
      ensures Valid()
      ensures results == old(results) + [Settle(prediction, actual)]
      ensures FlatBalance() == old(FlatBalance()) + FlatDelta(prediction, actual)
      ensures FixedBalance() == old(FixedBalance()) + FixedDelta(prediction, actual)
      ensures prediction == Under ==> flatSnapshot == old(flatSnapshot) && fixedSnapshot == old(fixedSnapshot)
      ensures history == old(history) && pending == old(pending)
    {
      var row := Settle(prediction, actual);
      AppendRecord(results, row);
      results := results + [row];
      UpdateFlatBalance(prediction, actual);
      if prediction == Above {
        UpdateFixedBalance(actual);
      }
    }

    /** reset_balance: delete both balance files and the results file. */
    method ResetBalance()
      modifies this
      ensures Valid()
      ensures results == [] && flatSnapshot == None && fixedSnapshot == None
      ensures history == old(history) && pending == old(pending)
    {
      flatSnapshot := None;
      fixedSnapshot := None;
      results := [];
    }

    /**
     * The reset button: empty the history and delete every stored file. The
     * pending call is kept, so the next entry still settles it.
     */
    method Reset()
      modifies this
      ensures Valid()
      ensures history == [] && results == []
      ensures FlatBalance() == INITIAL_BALANCE && FixedBalance() == INITIAL_BALANCE
      ensures pending == old(pending)
    {
      history := [];
      ResetBalance();
    }

    /** A file in the uploader: its values replace the history, without normalization. */
    method Upload(values: seq<real>)
      modifies this
      ensures history == values
      ensures pending == old(pending) && results == old(results)
      ensures flatSnapshot == old(flatSnapshot) && fixedSnapshot == old(fixedSnapshot)
    {
      history := values;
    }

    /**
     * The add button. An entry that did not parse changes nothing. Otherwise
     * the entry is normalized; a pending call is settled against it and
     * cleared; then the entry is appended to the history.
     */
    method AddMultiplier(entry: Option<real>) returns (added: bool)
      requires Valid()
      modifies this
      ensures Valid()
      ensures added <==> entry.Some?
      ensures !added ==> history == old(history) && pending == old(pending) && results == old(results)
      ensures !added ==> flatSnapshot == old(flatSnapshot) && fixedSnapshot == old(fixedSnapshot)
      ensures added ==> history == old(history) + [Normalize(entry.value)] && pending == None
      ensures added && old(pending).Some? ==>
                results == old(results) + [Settle(old(pending).value, Normalize(entry.value))]
      ensures added && old(pending).Some? ==>
                FlatBalance() == old(FlatBalance()) + FlatDelta(old(pending).value, Normalize(entry.value)) &&
                FixedBalance() == old(FixedBalance()) + FixedDelta(old(pending).value, Normalize(entry.value))
      ensures added && old(pending).None? ==>
                results == old(results) && flatSnapshot == old(flatSnapshot) && fixedSnapshot == old(fixedSnapshot)
    {
      if entry.None? {
        return false;
      }
      var val := Normalize(entry.value);
      if pending.Some? {
        SaveResult(pending.value, val);
        pending := None;
      }
      history := history + [val];
      added := true;
    }

    /**
     * The prediction shown after every rerun: computed from the history with
     * the configured trigger; when there is one it becomes the pending call,
     * otherwise the pending slot is left as it was.
     */
    method RefreshPrediction(minUnders: nat) returns (shown: Option<Prediction>)
      requires 10 <= minUnders <= 20
      modifies this
      ensures shown == Predict(history, THRESHOLD, WINDOW, minUnders)
      ensures pending == if shown.Some? then Some(shown.value.call) else old(pending)
      ensures history == old(history) && results == old(results)
      ensures flatSnapshot == old(flatSnapshot) && fixedSnapshot == old(fixedSnapshot)
    {
      shown := None;
      if history != [] {
        shown := Predict(history, THRESHOLD, WINDOW, minUnders);
        if shown.Some? {
          pending := Some(shown.value.call);
        }
      }
    }

    /**
     * One rerun of the page: the upload, the reset and the add blocks in
     * that order, then the prediction refresh and the accuracy figures.
     */
    method Round(step: Interaction, minUnders: nat) returns (shown: Option<Prediction>, stats: Stats)
      requires Valid()
      requires 10 <= minUnders <= 20
      modifies this
      ensures Valid()
      ensures var base := if step.resetClicked then [] else if step.uploaded.Some? then step.uploaded.value else old(history);
              history == if step.addClicked && step.entry.Some? then base + [Normalize(step.entry.value)] else base
      ensures var settled := step.addClicked && step.entry.Some? && old(pending).Some?;
              results == (if step.resetClicked then [] else old(results)) +
                         (if settled then [Settle(old(pending).value, Normalize(step.entry.value))] else [])
      ensures shown == Predict(history, THRESHOLD, WINDOW, minUnders)
      ensures shown.Some? ==> pending == Some(shown.value.call)
      ensures shown.None? && step.addClicked && step.entry.Some? ==> pending == None
      ensures shown.None? && !(step.addClicked && step.entry.Some?) ==> pending == old(pending)
      ensures stats == Accuracy(results)
    {
      if step.uploaded.Some? {
        Upload(step.uploaded.value);
      }
      if step.resetClicked {
        Reset();
      }
      if step.addClicked {
        var _ := AddMultiplier(step.entry);
      }
      shown := RefreshPrediction(minUnders);
      stats := Accuracy(results);
    }
  }

  /**
   * A reset followed by an add settles the call made before the reset, and
   * the balances then reflect that one settlement alone.
   */
  method ResetKeepsPendingCall(s: Session, v: real)
    requires s.Valid() && s.pending.Some?
    modifies s
    ensures s.Valid()
    ensures s.history == [Normalize(v)] && s.pending == None
    ensures s.results == [Settle(old(s.pending).value, Normalize(v))]
    ensures s.FlatBalance() == INITIAL_BALANCE + FlatDelta(old(s.pending).value, Normalize(v))
    ensures s.FixedBalance() == INITIAL_BALANCE + FixedDelta(old(s.pending).value, Normalize(v))
  {
    s.Reset();
    var _ := s.AddMultiplier(Some(v));
  }

  /**
   * Entering the values `vs` one at a time by hand appends their
   * normalizations to the history, in order.
   */
  method AddAll(s: Session, vs: seq<real>)
    requires s.Valid()
    modifies s
    ensures s.Valid()
    ensures s.history == old(s.history) + NormalizeEach(vs)
  {
    var i := 0;
    while i < |vs|
      invariant 0 <= i <= |vs|
      invariant s.Valid()
      invariant s.history == old(s.history) + NormalizeEach(vs[..i])
    {
      assert vs[..i + 1][..i] == vs[..i];
      var _ := s.AddMultiplier(Some(vs[i]));
      i := i + 1;
    }
    assert vs[..|vs|] == vs;
  }
}
