/**
 * The SQLite-backed ledger of electron/db.ts: one `transactions` table with an
 * AUTOINCREMENT primary key, a CHECK constraint on `type`, and the four
 * statements the application runs against it.
 */
module LedgerDb {
  import opened Wrappers
  import opened Ledger

  /** The largest rowid SQLite can assign (a signed 64-bit integer). */
  const MAX_ROWID: int := 0x7FFF_FFFF_FFFF_FFFF

  /** Why an INSERT is refused. */
  datatype DbError =
    | CheckConstraintFailed  // CHECK(type IN ('income', 'expense'))
    | DatabaseFull           // AUTOINCREMENT cannot go past MAX_ROWID

  /*
   * Ordering of the listing. `date` is TEXT under the default BINARY collation,
   * so dates compare character by character, a proper prefix first.
   */

  /** `a < b` under SQLite's BINARY collation. */
  predicate TextLess(a: string, b: string) {
    if a == [] then b != []
    else if b == [] then false
    else if a[0] != b[0] then a[0] < b[0]
    else TextLess(a[1..], b[1..])
  }

  lemma {:induction false} TextLessIrreflexive(a: string)
    ensures !TextLess(a, a)
  {
    if a != [] {
      TextLessIrreflexive(a[1..]);
    }
  }

  lemma {:induction false} TextLessTransitive(a: string, b: string, c: string)
    ensures TextLess(a, b) && TextLess(b, c) ==> TextLess(a, c)
  {
    if a != [] && b != [] && c != [] && a[0] == b[0] && b[0] == c[0] {
      TextLessTransitive(a[1..], b[1..], c[1..]);
    }
  }

  /** Two texts are equal or exactly one is smaller. */
  lemma {:induction false} TextLessTrichotomy(a: string, b: string)
    ensures a == b || TextLess(a, b) || TextLess(b, a)
    ensures !(TextLess(a, b) && TextLess(b, a))
  {
    if a != [] && b != [] && a[0] == b[0] {
      TextLessTrichotomy(a[1..], b[1..]);
      assert a == [a[0]] + a[1..] && b == [b[0]] + b[1..];
    }
  }

  /** Texts that agree up to index `k` and differ there are ordered by that character. */
  lemma {:induction false} TextLessAt(a: string, b: string, k: nat)
    requires k < |a| && k < |b| && a[..k] == b[..k] && a[k] < b[k]
    ensures TextLess(a, b)
  {
    if k > 0 {
      assert a[0] == a[..k][0] == b[..k][0] == b[0];
      assert a[1..][..k - 1] == a[1..k] == b[1..k] == b[1..][..k - 1];
      TextLessAt(a[1..], b[1..], k - 1);
    }
  }

  /** `x` is listed before `y` under `ORDER BY date DESC, id DESC`. */
  predicate Precedes(x: Transaction, y: Transaction) {
    TextLess(y.date, x.date) || (x.date == y.date && y.id < x.id)
  }

  /** The listing order is a strict order, and total on rows with different ids. */
  lemma PrecedesStrictTotal(x: Transaction, y: Transaction, z: Transaction)
    ensures !Precedes(x, x)
    ensures Precedes(x, y) ==> !Precedes(y, x)
    ensures Precedes(x, y) && Precedes(y, z) ==> Precedes(x, z)
    ensures x.id != y.id ==> Precedes(x, y) || Precedes(y, x)
  {
    TextLessIrreflexive(x.date);
    TextLessTrichotomy(x.date, y.date);
    TextLessTransitive(z.date, y.date, x.date);
  }

  /** Every row is listed before every later one. */
  predicate Listed(s: seq<Transaction>) {
    forall i, j :: 0 <= i < j < |s| ==> Precedes(s[i], s[j])
  }

  /** Places `x` in front of the first row it precedes. */
  function InsertListed(x: Transaction, s: seq<Transaction>): (r: seq<Transaction>)
    ensures multiset(r) == multiset(s) + multiset{x}
  {
    if s == [] || Precedes(x, s[0]) then [x] + s
    else
      assert s == [s[0]] + s[1..];
      [s[0]] + InsertListed(x, s[1..])
  }

  /** The rows of `s` in listing order (an insertion sort). */
  function SortRows(s: seq<Transaction>): (r: seq<Transaction>)
    ensures multiset(r) == multiset(s)
  {
    if s == [] then []
    else
      assert s == [s[0]] + s[1..];
      InsertListed(s[0], SortRows(s[1..]))
  }

  /** A row that precedes every row of a listing can be put in front of it. */
  lemma ListedCons(x: Transaction, s: seq<Transaction>)
    requires Listed(s)
    requires forall k :: 0 <= k < |s| ==> Precedes(x, s[k])
    ensures Listed([x] + s)
  {
    var r := [x] + s;
    forall i, j | 0 <= i < j < |r| ensures Precedes(r[i], r[j]) {
      if i == 0 {
        assert r[j] == s[j - 1];
      } else {
        assert r[i] == s[i - 1] && r[j] == s[j - 1];
      }
    }
  }

  lemma {:induction false} InsertListedSorted(x: Transaction, s: seq<Transaction>)
    requires Listed(s)
    requires forall k :: 0 <= k < |s| ==> s[k].id != x.id
    ensures Listed(InsertListed(x, s))
  {
    if s == [] {
    } else if Precedes(x, s[0]) {
      forall k | 0 <= k < |s| ensures Precedes(x, s[k]) {
        PrecedesStrictTotal(x, s[0], s[k]);
      }
      ListedCons(x, s);
    } else {
      var tail := s[1..];
      assert Listed(tail) by {
        forall i, j | 0 <= i < j < |tail| ensures Precedes(tail[i], tail[j]) {
          assert tail[i] == s[i + 1] && tail[j] == s[j + 1];
        }
      }
      forall k | 0 <= k < |tail| ensures tail[k].id != x.id {
        assert tail[k] == s[k + 1];
      }
      InsertListedSorted(x, tail);
      var rest := InsertListed(x, tail);
      PrecedesStrictTotal(s[0], x, x);
      forall k | 0 <= k < |rest| ensures Precedes(s[0], rest[k]) {
        assert rest[k] in multiset(tail) + multiset{x} by {
          assert rest[k] in multiset(rest);
        }
        if rest[k] != x {
          var m :| 0 <= m < |tail| && tail[m] == rest[k];
          assert s[m + 1] == rest[k];
        }
      }
      ListedCons(s[0], rest);
    }
  }

  /** With distinct ids, sorting yields the listing order. */
  lemma {:induction false} SortRowsListed(s: seq<Transaction>)
    requires DistinctIds(s)
    ensures Listed(SortRows(s))
  {
    if s != [] {
      var tail := s[1..];
      assert DistinctIds(tail) by {
        forall i, j | 0 <= i < j < |tail| ensures tail[i].id != tail[j].id {
          assert tail[i] == s[i + 1] && tail[j] == s[j + 1];
        }
      }
      SortRowsListed(tail);
      var sorted := SortRows(tail);
      forall k | 0 <= k < |sorted| ensures sorted[k].id != s[0].id {
        assert sorted[k] in multiset(tail) by {
          assert sorted[k] in multiset(sorted);
        }
        var m :| 0 <= m < |tail| && tail[m] == sorted[k];
        assert s[m + 1] == sorted[k];
      }
      InsertListedSorted(s[0], sorted);
    }
  }

  lemma ListedTail(s: seq<Transaction>)
    requires Listed(s) && s != []
    ensures Listed(s[1..])
  {
    var tail := s[1..];
    forall i, j | 0 <= i < j < |tail| ensures Precedes(tail[i], tail[j]) {
      assert tail[i] == s[i + 1] && tail[j] == s[j + 1];
    }
  }

  /** The head of a listing precedes every other row in it. */
  lemma ListedHeadFirst(s: seq<Transaction>, y: Transaction)
    requires Listed(s) && y in s
    ensures y == s[0] || Precedes(s[0], y)
  {
    var k :| 0 <= k < |s| && s[k] == y;
  }

  /** Two listings of the same rows start with the same row. */
  lemma ListedSameHead(a: seq<Transaction>, b: seq<Transaction>)
    requires Listed(a) && Listed(b) && multiset(a) == multiset(b) && a != []
    ensures b != [] && a[0] == b[0]
  {
    assert a[0] in multiset(b) && |b| == |multiset(b)| == |a|;
    assert b[0] in multiset(a);
    ListedHeadFirst(a, b[0]);
    ListedHeadFirst(b, a[0]);
    PrecedesStrictTotal(a[0], b[0], b[0]);
  }

  /**
   * The listing order leaves no choice: two listings of the same rows are
   * equal, so `ORDER BY date DESC, id DESC` determines the result.
   */
  lemma {:induction false} ListingUnique(a: seq<Transaction>, b: seq<Transaction>)
    requires Listed(a) && Listed(b) && multiset(a) == multiset(b)
    ensures a == b
  {
    if a == [] {
      assert |b| == |multiset(b)| == 0;
    } else {
      ListedSameHead(a, b);
      assert a == [a[0]] + a[1..] && b == [b[0]] + b[1..];
      assert multiset(a[1..]) == multiset(b[1..]) by {
        assert multiset(a[1..]) == multiset(a) - multiset{a[0]};
        assert multiset(b[1..]) == multiset(b) - multiset{b[0]};
      }
      ListedTail(a);
      ListedTail(b);
      ListingUnique(a[1..], b[1..]);
    }
  }

  /**
   * A row added with an id above every stored id and a date no earlier than
   * any stored date is the first row of the next listing.
   */
  lemma LatestAddedListedFirst(rows: seq<Transaction>, x: Transaction)
    requires DistinctIds(rows)
    requires forall i :: 0 <= i < |rows| ==> rows[i].id < x.id && !TextLess(x.date, rows[i].date)
    ensures SortRows(rows + [x]) != [] && SortRows(rows + [x])[0] == x
  {
    var all := rows + [x];
    assert all[|rows|] == x;
    forall i, j | 0 <= i < j < |all| ensures all[i].id != all[j].id {
      if j < |rows| {
        assert all[i] == rows[i] && all[j] == rows[j];
      } else {
        assert all[i] == rows[i];
      }
    }
    SortRowsListed(all);
    var listing := SortRows(all);
    assert x in multiset(listing);
    assert listing[0] in multiset(all) by {
      assert listing[0] in multiset(listing);
    }
    forall y | y in all ensures !Precedes(y, x) {
      PrecedesStrictTotal(x, x, x);
      if y != x {
        var i :| 0 <= i < |all| && all[i] == y;
        assert i < |rows| && rows[i] == y;
      }
    }
    ListedHeadFirst(listing, x);
  }

  /** The ids 1 through `n`: every id AUTOINCREMENT may have handed out once its counter is `n`. */
  ghost function IdsUpTo(n: int): (r: set<int>)
    ensures forall id :: id in r <==> 1 <= id <= n
    decreases n
  {
    if n <= 0 then {} else IdsUpTo(n - 1) + {n}
  }

  /**
   * The database file and the module-level connection handle `db`.
   * `rows` is the `transactions` table and `lastRowId` the
   * table's entry in `sqlite_sequence`: the largest id ever assigned.
   * `issued` records, for the proofs, every id the table has handed out.
   */
  class Database {
    var initialized: bool
    var rows: seq<Transaction>
    var lastRowId: int
    ghost var issued: set<int>

    ghost predicate Valid()
      reads this
    {
      && 0 <= lastRowId <= MAX_ROWID
      && (forall id :: id in issued ==> 1 <= id <= lastRowId)
      && (forall i :: 0 <= i < |rows| ==> rows[i].id in issued)
      && DistinctIds(rows)
      && WellTyped(rows)
    }

    /**
     * The process starts with `db` unset and `budget.db` as an earlier session
     * left it: `storedRows` and `storedLastRowId` are its table and its
     * `sqlite_sequence` entry (an empty list and 0 when there is no file or no
     * table yet). Every id up to the counter may have been handed out before.
     */
    constructor (storedRows: seq<Transaction>, storedLastRowId: int)
      requires 0 <= storedLastRowId <= MAX_ROWID
      requires forall i :: 0 <= i < |storedRows| ==> 1 <= storedRows[i].id <= storedLastRowId
      requires DistinctIds(storedRows) && WellTyped(storedRows)
      ensures Valid() && !initialized
      ensures rows == storedRows && lastRowId == storedLastRowId
      ensures issued == IdsUpTo(storedLastRowId)
    {
      initialized := false;
      rows := storedRows;
      lastRowId := storedLastRowId;
      issued := IdsUpTo(storedLastRowId);
    }

    /**
     * `initDatabase`: opens the connection. `CREATE TABLE IF NOT EXISTS` leaves
     * a table from an earlier session, its rows and its counter as they are.
     */
    method InitDatabase()
      requires Valid()
      modifies this
      ensures Valid() && initialized
      ensures rows == old(rows) && lastRowId == old(lastRowId) && issued == old(issued)
    {
      initialized := true;
    }

    /**
     * `addTransaction`: one INSERT. The CHECK constraint refuses any other type,
     * AUTOINCREMENT assigns one more than the largest id ever assigned, and a
     * refused statement leaves the table as it was.
     */
    method AddTransaction(t: NewTransaction) returns (r: Result<Transaction, DbError>)
      requires Valid() && initialized
      modifies this
      ensures Valid() && initialized
      ensures r.Failure? <==> !IsKind(t.kind) || old(lastRowId) == MAX_ROWID
      ensures r.Failure? ==> rows == old(rows) && lastRowId == old(lastRowId) && issued == old(issued)
      ensures !IsKind(t.kind) && old(lastRowId) < MAX_ROWID ==> r == Failure(CheckConstraintFailed)
      ensures IsKind(t.kind) && old(lastRowId) == MAX_ROWID ==> r == Failure(DatabaseFull)
      ensures r.Success? ==> r.value == WithId(t, old(lastRowId) + 1)
      ensures r.Success? ==> rows == old(rows) + [r.value] && lastRowId == r.value.id
      ensures r.Success? ==> r.value.id !in old(issued) && issued == old(issued) + {r.value.id}
      ensures r.Success? ==> forall i :: 0 <= i < |old(rows)| ==> old(rows)[i].id < r.value.id
    {
      if lastRowId == MAX_ROWID {
        return Failure(DatabaseFull);
      }
      if !IsKind(t.kind) {
        return Failure(CheckConstraintFailed);
      }
      var row := WithId(t, lastRowId + 1);
      rows := rows + [row];
      lastRowId := row.id;
      issued := issued + {row.id};
      r := Success(row);
    }

    /** `getTransactions`: every row, `ORDER BY date DESC, id DESC`. */
    function GetTransactions(): (r: seq<Transaction>)
      reads this
      requires Valid() && initialized
      ensures multiset(r) == multiset(rows)
      ensures Listed(r)
    {
      SortRowsListed(rows);
      SortRows(rows)
    }

    /** `deleteTransaction`: `DELETE … WHERE id = ?`, reporting whether a row changed. */
    method DeleteTransaction(id: int) returns (deleted: bool)
      requires Valid() && initialized
      modifies this
      ensures Valid() && initialized
      ensures deleted == old(HasId(rows, id))
      ensures !HasId(rows, id)
      ensures rows == RemoveId(old(rows), id)
      ensures deleted ==> exists i :: 0 <= i < |old(rows)| && old(rows)[i].id == id && rows == old(rows)[..i] + old(rows)[i + 1..]
      ensures lastRowId == old(lastRowId) && issued == old(issued)
    {
      deleted := HasId(rows, id);
      if deleted {
        var i :| 0 <= i < |rows| && rows[i].id == id;
        RemoveIdExactlyOne(rows, i);
      }
      RemoveIdRemovesAll(rows, id);
      RemoveIdKeeps(rows, id);
      RemoveIdMembers(rows, id);
      rows := RemoveId(rows, id);
    }

    /** `getStats`: the two `COALESCE(SUM(amount), 0)` aggregates and their difference. */
    function GetStats(): (r: Stats)
      reads this
      requires Valid() && initialized
      ensures r.totalIncome == SumOfKind(rows, INCOME)
      ensures r.totalExpenses == SumOfKind(rows, EXPENSE)
      ensures r.balance == r.totalIncome - r.totalExpenses
      ensures NoneOfKind(rows, INCOME) ==> r.totalIncome == 0.0
      ensures NoneOfKind(rows, EXPENSE) ==> r.totalExpenses == 0.0
    {
      assert NoneOfKind(rows, INCOME) ==> SumOfKind(rows, INCOME) == 0.0 by {
        if NoneOfKind(rows, INCOME) { SumOfKindNoMatch(rows, INCOME); }
      }
      assert NoneOfKind(rows, EXPENSE) ==> SumOfKind(rows, EXPENSE) == 0.0 by {
        if NoneOfKind(rows, EXPENSE) { SumOfKindNoMatch(rows, EXPENSE); }
      }
      Totals(rows)
    }
  }

  lemma ExampleTotals(s: Transaction, f: Transaction)
    requires s.kind == INCOME && f.kind == EXPENSE
    ensures SumOfKind([s, f], INCOME) == s.amount && SumOfKind([s, f], EXPENSE) == f.amount
  {
    assert EXPENSE != INCOME by { assert EXPENSE[0] != INCOME[0]; }
    assert Contribution(s, INCOME) == s.amount && Contribution(f, INCOME) == 0.0;
    assert Contribution(s, EXPENSE) == 0.0 && Contribution(f, EXPENSE) == f.amount;
    SumOfKindAppend([s], f, INCOME);
    SumOfKindAppend([s], f, EXPENSE);
    SumOfKindAppend([], s, INCOME);
    SumOfKindAppend([], s, EXPENSE);
    assert [s] + [f] == [s, f] && [] + [s] == [s];
  }

  lemma ExampleListing(s: Transaction, f: Transaction)
    requires s.date == "2024-01-01" && f.date == "2024-01-02"
    ensures SortRows([s, f]) == [f, s]
  {
    assert "2024-01-01"[..9] == "2024-01-02"[..9];
    TextLessAt(s.date, f.date, 9);
    TextLessTrichotomy(s.date, f.date);
    assert [s, f][1..] == [f] && [f][1..] == [];
    assert SortRows([f]) == [f];
    assert [f][1..] == [];
  }

  /**
   * A session on a new database: an income on 2024-01-01, then an expense on
   * 2024-01-02. The later date is listed first, and the balance is 60.
   */
  method ExampleSession() returns (listing: seq<Transaction>, stats: Stats)
    ensures listing == [
      Transaction(2, 40.0, EXPENSE, "Jedzenie", "2024-01-02", ""),
      Transaction(1, 100.0, INCOME, "Pensja", "2024-01-01", "")]
    ensures stats == Stats(100.0, 40.0, 60.0)
  {
    var db := new Database([], 0);
    db.InitDatabase();
    var salary := db.AddTransaction(NewTransaction(100.0, INCOME, "Pensja", "2024-01-01", ""));
    var food := db.AddTransaction(NewTransaction(40.0, EXPENSE, "Jedzenie", "2024-01-02", ""));
    var s := Transaction(1, 100.0, INCOME, "Pensja", "2024-01-01", "");
    var f := Transaction(2, 40.0, EXPENSE, "Jedzenie", "2024-01-02", "");
    assert salary == Success(s) && food == Success(f);
    assert db.rows == [s, f];
    ExampleListing(s, f);
    listing := db.GetTransactions();
    assert [s, f][1..] == [f] && [f][1..] == [];
    ExampleTotals(s, f);
    stats := db.GetStats();
  }
}
