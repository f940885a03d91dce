# Crash predictor — under-count strategy, modelled in Dafny

The app predicts whether the next round's multiplier is "Above" or "Under" 2.0.
It counts how many of the last 20 multipliers were strictly below 2.0. It calls
"Above" when that count reaches a configurable trigger (10 to 20, default 14), and
"Under" otherwise. Every rerun with at least 20 entries stores a fresh call, and the latest
call stays pending until the next manually entered multiplier settles it. Settlement appends a `(prediction, actual, correct)` row to
the result ledger and moves two hypothetical balances, "flat" and "fixed". Both move
only on an "Above" call: the flat one by ±0.01 and the fixed one by ±0.02. Both start
at 0.1 when no balance file exists.

The project has four modules:

- `Wrappers` (`wrappers.dfy`): `Option`.
- `Logic` (`logic.dfy`): the pure functions, meaning the normalizer (`Normalize`) and the
  predictor (`CountUnder`, `Recent`, `Predict`), with lemmas about them.
- `Ledger` (`ledger.dfy`): the settlement rule (`IsCorrect`, `Settle`), the per-account
  balance changes (`FlatDelta`, `FixedDelta`) and their sums over a ledger, and the
  accuracy aggregate (`Accuracy`).
- `App` (`app.dfy`): the class `Session`. It holds the state that `main` and the file
  helpers change in place:
  - the history;
  - the pending call (`last_prediction`);
  - the result ledger;
  - the two balance files, each an `Option<real>` in which `None` means the file is absent.

  Its methods are the source's state-changing operations. `Round` is one rerun of the
  page: first the upload block, then the reset block, then the add block, then the
  prediction refresh, then the accuracy figures.

`Session.Valid()` is the session invariant. The constructor establishes it, and every
operation of a rerun keeps it:

- `SaveResult`, `AddMultiplier` and `Round` require and ensure it.
- `ResetBalance` and `Reset` establish it from any state.
- `Upload` and `RefreshPrediction` leave the ledger and the balance files untouched.

`AddAll`, a series of manual entries over several reruns, also requires and ensures it.
The two balance helpers `UpdateFlatBalance` and `UpdateFixedBalance` break it when called
alone, since they move a balance without adding a row. `SaveResult` restores it by
appending the row before it calls them.

The invariant says two things:

- Every row's `correct` flag is the one settlement computes.
- Each balance equals `INITIAL_BALANCE` plus the changes of every settlement recorded
  since the last reset.

So the scalar balance files always agree with a replay of the result ledger.
`Ledger.TotalsFromAboveCalls` then proves that this replay depends on the "Above" rows
alone: the flat account gains one stake per correct "Above" call and loses one per
wrong one, and the fixed account moves exactly twice as far.

Behaviour kept as the code has it:

- A reset does not clear the pending call. The first entry after a reset therefore
  settles the call made before it (`App.ResetKeepsPendingCall`).
- When the history is too short for a prediction, the refresh leaves the pending slot
  as it was.
- An upload replaces the history without normalizing it. Manual entries are normalized.
  `App.AddAll` shows that entering values one at a time appends `NormalizeEach` of them,
  and `Logic.ManualEntriesAgreeWithUpload` shows that the two paths agree exactly when no
  entry exceeds 10.
- `predict_from_unders` slices `data[-window:]`. For `window == 0` that is the whole
  list in Python, and `Recent` models it that way. The app itself always passes 20.
- The add block settles the pending call first and appends the entry afterwards.
  The final state is the same either way.

## Model

| member | source | states |
|---|---|---|
| `Logic.Normalize` | app.py:83-84 | an entry above 10 becomes one hundredth of itself; the result equals the entry exactly when the entry is at most 10, so 10 itself is kept |
| `Logic.NormalizeSettlesPercentEntries` | app.py:83-84 | an entry up to 1000 normalizes to at most 10, so a second normalization leaves it alone |
| `Logic.NormalizeNotIdempotentAbove1000` | app.py:83-84 | above 1000 a second normalization would scale the entry again |
| `Logic.NormalizeExamples` | app.py:83-84 | 187 → 1.87, 1.87 → 1.87, 10 → 10, 10.01 → 0.1001 |
| `Logic.NormalizeEach` | app.py:129-134 | the history that manual entry builds from a list of entries: same length, entry i normalized at position i |
| `Logic.ManualEntriesAgreeWithUpload` | app.py:111-134 | manual entry one value at a time and bulk upload give the same history if and only if no value exceeds 10 |
| `Logic.CountUnder` | app.py:89-90 | the under count is between 0 and the length of the slice, and it is 0 exactly when no entry is below the threshold |
| `Logic.CountUnderIsCardinality` | app.py:89-90 | the under count equals the number of positions holding a value strictly below the threshold |
| `Logic.CountUnderAppend` | app.py:89-90 | the under count of a concatenation is the sum of the counts of its parts |
| `Logic.Recent` | app.py:89 | the slice is a suffix of the history, of length `window`, or the whole history when `window` is 0 |
| `Logic.Predict` | app.py:86-94 | no call exactly when the history is shorter than the window; otherwise the count is the under count of the window, the call is "Above" if and only if the count reaches the trigger (inclusive), and the count is at most the window when the window is positive |
| `Logic.PredictWaitsForData` | app.py:87-88 | a history shorter than 20 never gets a call, whatever its contents |
| `Logic.PredictIgnoresOlderEntries` | app.py:89-90 | entries before the window never change the call or the count |
| `Logic.PredictDependsOnlyOnWindow` | app.py:89-90 | two histories that end in the same window get the same prediction |
| `Logic.PredictMonotoneInTrigger` | app.py:91-94 | lowering the trigger keeps every "Above" call "Above" and leaves the count unchanged |
| `Logic.PredictExamples` | app.py:86-94 | 20 rounds with 14 unders and trigger 14 give ("Above", 14); with 13 unders they give ("Under", 13) |
| `Ledger.ExactlyOneCallCorrect` | app.py:43 | for every actual exactly one of the two calls is correct: "Above" when the actual is strictly above 2.0, "Under" when it is at or below 2.0 |
| `Ledger.IsCorrect` | app.py:43 | a call is correct exactly when "the actual is strictly above 2.0" matches "the call is Above" |
| `Ledger.FlatDelta` | app.py:66-67 | the flat change is 0 exactly on "Under"; on "Above" it is +0.01 when the actual exceeds 2.0 and −0.01 otherwise |
| `Ledger.FixedDelta` | app.py:48-49 | the fixed change is always twice the flat change, so it is 0 exactly on "Under" (update_fixed_balance runs only on "Above", app.py:48) |
| `Ledger.Settle` | app.py:43-45 | the appended row carries the call and the actual, and it is correct exactly when "actual above 2.0" matches "call is Above" |
| `Ledger.DeltasFollowCorrectness` | app.py:47-75 | "Under" moves neither account; "Above" moves the flat account by +0.01 when correct and −0.01 when not; the fixed change is always twice the flat change |
| `Ledger.SettlementExamples` | app.py:42-75 | the four worked settlements: Above/2.5 and Under/1.5 are correct, Above/1.5 and Under/2.5 are not, and only Above moves the balances (±0.01, ±0.02) |
| `Ledger.AppendRecord` | app.py:45-49 | appending one row adds its changes to both balance totals and its flag to the correct count |
| `Ledger.TotalsFromAboveCalls` | app.py:64-75 | for a consistent ledger the flat total is 0.01 × (correct "Above" rows − wrong "Above" rows), and the fixed total is twice the flat total |
| `Ledger.CountCorrect` | app.py:159 | the correct count never exceeds the number of rows |
| `Ledger.Accuracy` | app.py:157-160 | total is the number of rows and correct is the number of correct rows, with correct ≤ total; rate × total = correct when total > 0, the rate is 0 when total is 0, and the rate lies in [0, 1] |
| `Ledger.AccuracyOfEmpty` | app.py:157-160 | an empty ledger gives total 0, correct 0, rate 0 |
| `Ledger.AccuracyAfterSettle` | app.py:156-160 | one more settlement adds 1 to the total, and adds 1 to the correct count exactly when that row is correct |
| `App.Session.FlatBalance` | app.py:52-56 | the stored flat balance, or 0.1 when the file is absent |
| `App.Session.FixedBalance` | app.py:58-62 | the stored fixed balance, or 0.1 when the file is absent |
| `App.Session.constructor` | app.py:105-106 | a first visit: empty history and ledger, no pending call, no balance files, invariant established |
| `App.Session.UpdateFlatBalance` | app.py:64-69 | on "Above" the file is written with the read balance ±0.01 (+ when the actual exceeds 2.0); on "Under" nothing is written; nothing else changes |
| `App.Session.UpdateFixedBalance` | app.py:71-75 | the fixed file is written with the read balance ±0.02; nothing else changes |
| `App.Session.SaveResult` | app.py:42-49 | exactly one settled row is appended after the earlier rows, which are unchanged; both balances move by their deltas; "Under" writes no balance file; the invariant is kept |
| `App.Session.ResetBalance` | app.py:77-80 | the ledger and both balance files are gone; history and the pending call are untouched |
| `App.Session.Reset` | app.py:117-122 | history and ledger are empty, both balances read 0.1, and the pending call is kept |
| `App.Session.Upload` | app.py:111-113 | the history becomes the uploaded values, not normalized; nothing else changes |
| `App.Session.AddMultiplier` | app.py:127-138 | an unparsable entry changes nothing; otherwise the normalized value is appended (history grows by one) and the pending slot is cleared; a pending call is settled against the normalized value, and without one the ledger and balances are unchanged |
| `App.Session.RefreshPrediction` | app.py:140-150 | the shown prediction is `Predict` on the history with window 20, threshold 2.0 and the trigger; when there is one it becomes the pending call, otherwise the slot keeps its old value |
| `App.Session.Round` | app.py:97-166 | one rerun: the final history and ledger in terms of the old ones and the interaction (upload, then reset, then add), the shown prediction, the pending call it leaves (the new call; none after an added entry without a call; the old one otherwise), and the accuracy of the final ledger; the invariant is kept |
| `App.ResetKeepsPendingCall` | app.py:117-135 | a reset followed by an entry settles the pending call made before the reset, whichever call it is: the ledger is that one row, both balances are 0.1 plus its changes, the history is the one normalized entry and no call is pending |
| `App.AddAll` | app.py:127-135 | entering values by hand one at a time appends exactly their normalizations to the history, in order, keeping the invariant |

## Left out

- Streamlit presentation (titles, slider, columns, metrics, table display, messages) is
  left out because it is rendering only. The slider's range becomes the `10 <= minUnders <= 20`
  precondition.
- `@st.cache_data` on `load_csv` is left out because it is a caching concern.
- File I/O through pandas, `open`, `os.path.exists` and `os.remove` is not modelled
  directly. Each file is a field of `Session`: an absent results or history file is the
  empty sequence, and an absent balance file is `None`. Writing then reading a file is
  treated as exact.
- Loading a history persisted by an earlier visit (`load_history`, app.py:28-32) is not
  modelled. The session starts from the first-visit state, with no files.
- Floating point is not modelled. Multipliers and balances are `real`, so the
  `str(balance)`/`float(...)` round trip and binary rounding of 0.01, 0.02 and 0.1 are
  gone, as are NaN and infinity inputs.
- Text parsing with `float(new_val)` and its blanket `except` are not modelled. The entry
  arrives as `Option<real>`, where `None` is a parse failure.
- The column guessing of `load_csv` (the `multiplier` column, else the first column) is
  not modelled. An upload arrives as the parsed sequence of values.
- A malformed CSV aborting the load is not modelled.
- numpy array mechanics are replaced by the recursive count `CountUnder` over the slice.
- Concurrent sessions writing the same files are not modelled, since the app is single-user.
