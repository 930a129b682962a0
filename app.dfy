/**
 * The transaction state of src/App.tsx. In browser mode (no Electron bridge)
 * the handlers keep `transactions` and `stats` in step by hand: adding puts the
 * new record in front and moves the totals by its amount, deleting filters the
 * id out and moves the totals back by the first record that carried it.
 */
module App {
  import opened Wrappers
  import opened Ledger
  import LedgerDb
  import AddTransactionModal

  /** How many transactions the dashboard shows: `transactions.slice(0, 5)`. */
  const DASHBOARD_SIZE: nat := 5

  /** `transactions.find(t => t.id === id)`: the first record carrying `id`. */
  function Find(ts: seq<Transaction>, id: int): (r: Option<Transaction>)
    ensures r.None? <==> !HasId(ts, id)
    ensures r.Some? ==> exists i :: 0 <= i < |ts| && ts[i] == r.value && r.value.id == id && !HasId(ts[..i], id)
  {
    if ts == [] then None
    else if ts[0].id == id then
      assert ts[..0] == [];
      Some(ts[0])
    else
      var tail := ts[1..];
      var r := Find(tail, id);
      assert forall k :: 0 <= k < |tail| ==> tail[k] == ts[k + 1];
      assert ts == [ts[0]] + tail;
      if r.Some? then
        var i :| 0 <= i < |tail| && tail[i] == r.value && r.value.id == id && !HasId(tail[..i], id);
        assert ts[..i + 1] == [ts[0]] + tail[..i];
        r
      else
        r
  }

  /** The stats update of the add handler: the new amount goes to its own total and to the balance. */
  function AddToStats(stats: Stats, t: NewTransaction): Stats {
    if t.kind == INCOME then
      Stats(stats.totalIncome + t.amount, stats.totalExpenses, stats.balance + t.amount)
    else
      Stats(stats.totalIncome, stats.totalExpenses + t.amount, stats.balance - t.amount)
  }

  /** The stats update of the delete handler: the found record's amount is taken back. */
  function RemoveFromStats(stats: Stats, t: Transaction): Stats {
    if t.kind == INCOME then
      Stats(stats.totalIncome - t.amount, stats.totalExpenses, stats.balance - t.amount)
    else
      Stats(stats.totalIncome, stats.totalExpenses - t.amount, stats.balance + t.amount)
  }

  /** `transactions.slice(0, 5)`: the first five records, or all of them when there are fewer. */
  function Recent(ts: seq<Transaction>): (r: seq<Transaction>)
    ensures |r| == if |ts| < DASHBOARD_SIZE then |ts| else DASHBOARD_SIZE
    ensures r == ts[..|r|]
  {
    if |ts| <= DASHBOARD_SIZE then ts else ts[..DASHBOARD_SIZE]
  }

  /**
   * Adding a record of either type and moving the totals by hand gives the
   * totals recomputed over the longer list: for an income, income and balance
   * rise by its amount; for an expense, expenses rise and the balance falls.
   */
  lemma AddKeepsTotals(ts: seq<Transaction>, t: NewTransaction, id: int)
    requires IsKind(t.kind)
    ensures Totals([WithId(t, id)] + ts) == AddToStats(Totals(ts), t)
  {
    assert ([WithId(t, id)] + ts)[1..] == ts;
  }

  /**
   * Deleting by id and taking the first match's amount back gives the totals
   * recomputed over the filtered list, provided no two records share an id.
   */
  lemma DeleteKeepsTotals(ts: seq<Transaction>, id: int)
    requires DistinctIds(ts) && WellTyped(ts) && Find(ts, id).Some?
    ensures Totals(RemoveId(ts, id)) == RemoveFromStats(Totals(ts), Find(ts, id).value)
  {
    var found := Find(ts, id).value;
    var i :| 0 <= i < |ts| && ts[i] == found && found.id == id && !HasId(ts[..i], id);
    SumOfKindRemoveId(ts, i, INCOME);
    SumOfKindRemoveId(ts, i, EXPENSE);
  }

  /**
   * Without distinct ids the delete handler drifts: two records with id 1
   * are both filtered out, but only one amount is taken off the totals.
   */
  lemma DeleteWithSharedIdDrifts()
    ensures var t := Transaction(1, 10.0, INCOME, "Pensja", "2024-01-01", "");
            var ts := [t, t];
            Find(ts, 1) == Some(t) && RemoveId(ts, 1) == []
            && RemoveFromStats(Totals(ts), t) != Totals(RemoveId(ts, 1))
  {
    var t := Transaction(1, 10.0, INCOME, "Pensja", "2024-01-01", "");
    assert [t, t][1..] == [t] && [t][1..] == [];
    assert EXPENSE != INCOME by { assert EXPENSE[0] != INCOME[0]; }
    SumOfKindAppend([t], t, INCOME);
    SumOfKindAppend([], t, INCOME);
    assert [t] + [t] == [t, t] && [] + [t] == [t];
    assert SumOfKind([t, t], INCOME) == 20.0;
  }

  /**
   * In Electron mode the state is loaded from `getTransactions` and `getStats`:
   * the totals over the listing equal the stats of the table, so the loaded
   * state keeps `stats` equal to the totals of `transactions`.
   */
  lemma LoadedStateConsistent(rows: seq<Transaction>)
    ensures Totals(LedgerDb.SortRows(rows)) == Totals(rows)
  {
    SumOfKindPermutation(LedgerDb.SortRows(rows), rows, INCOME);
    SumOfKindPermutation(LedgerDb.SortRows(rows), rows, EXPENSE);
  }

  /** Over a listing, the dashboard's records precede every record it leaves out. */
  lemma DashboardShowsNewest(ts: seq<Transaction>)
    requires LedgerDb.Listed(ts)
    ensures forall i, j :: 0 <= i < |Recent(ts)| <= j < |ts| ==> LedgerDb.Precedes(Recent(ts)[i], ts[j])
  {
  }

  /** The React state `transactions` and `stats` of the App component. */
  class AppState {
    var transactions: seq<Transaction>
    var stats: Stats

    /** `stats` is what recomputing over `transactions` would give. */
    ghost predicate Consistent()
      reads this
    {
      stats == Totals(transactions)
    }

    /** What browser mode relies on: consistent totals over well-typed records with distinct ids. */
    ghost predicate Valid()
      reads this
    {
      Consistent() && WellTyped(transactions) && DistinctIds(transactions)
    }

    /** The initial state: `mockTransactions` and `mockStats`. */
    constructor ()
      ensures transactions == [] && stats == Stats(0.0, 0.0, 0.0)
      ensures Valid()
    {
      transactions := [];
      stats := Stats(0.0, 0.0, 0.0);
    }

    /**
     * Browser-mode `handleAddTransaction`; `now` stands for `Date.now()`.
     * The new record goes in front and the totals move by its amount.
     */
    method HandleAddTransaction(t: NewTransaction, now: int)
      modifies this
      ensures transactions == [WithId(t, now)] + old(transactions)
      ensures stats == AddToStats(old(stats), t)
      ensures old(Consistent()) && IsKind(t.kind) ==> Consistent()
      ensures old(Valid()) && IsKind(t.kind) && !old(HasId(transactions, now)) ==> Valid()
    {
      if IsKind(t.kind) {
        AddKeepsTotals(transactions, t, now);
      }
      transactions := [WithId(t, now)] + transactions;
      stats := AddToStats(stats, t);
    }

    /**
     * Browser-mode `handleDeleteTransaction`. An id nobody carries changes
     * nothing; otherwise every record with the id is filtered out and the
     * first one's amount is taken back from the totals.
     */
    method HandleDeleteTransaction(id: int)
      modifies this
      ensures Find(old(transactions), id).None? ==> transactions == old(transactions) && stats == old(stats)
      ensures Find(old(transactions), id).Some? ==>
        transactions == RemoveId(old(transactions), id)
        && stats == RemoveFromStats(old(stats), Find(old(transactions), id).value)
      ensures !HasId(transactions, id)
      ensures old(Valid()) ==> Valid()
    {
      var found := Find(transactions, id);
      if found.Some? {
        if Valid() {
          DeleteKeepsTotals(transactions, id);
          RemoveIdKeeps(transactions, id);
        }
        RemoveIdRemovesAll(transactions, id);
        transactions := RemoveId(transactions, id);
        stats := RemoveFromStats(stats, found.value);
      }
    }

    /** The transactions the dashboard passes to its list. */
    function DashboardTransactions(): (r: seq<Transaction>)
      reads this
      ensures |r| == if |transactions| < DASHBOARD_SIZE then |transactions| else DASHBOARD_SIZE
      ensures r == transactions[..|r|]
    {
      Recent(transactions)
    }

    /**
     * The dialog's `onSubmit` wired to `handleAddTransaction`: a refused submit
     * changes nothing, an accepted one adds the form's record under `now`.
     * Either way the totals stay consistent, since the form only submits valid types.
     */
    method SubmitAddDialog(form: AddTransactionModal.Form, parseFloat: string -> real, now: int)
      requires form.Valid()
      modifies this
      ensures old(Consistent()) ==> Consistent()
      ensures old(form.amount) == "" || old(form.category) == "" ==>
        transactions == old(transactions) && stats == old(stats)
      ensures old(form.amount) != "" && old(form.category) != "" ==>
        var t := NewTransaction(parseFloat(form.amount), form.kind, form.category, form.date, form.description);
        transactions == [WithId(t, now)] + old(transactions) && stats == AddToStats(old(stats), t)
    {
      var submitted := form.HandleSubmit(parseFloat);
      if submitted.Some? {
        HandleAddTransaction(submitted.value, now);
      }
    }
  }
}
