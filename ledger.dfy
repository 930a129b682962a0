/**
 * The values every layer of the budget tracker exchanges (src/types/electron.d.ts):
 * a Transaction, the same record before an id is assigned, and the derived Stats,
 * together with the totals recomputed from a list of transactions and the
 * "remove every record with this id" filter that both the database and the
 * browser-mode state apply.
 */
module Ledger {

  /** The two values the `type` column and the TypeScript union admit. */
  const INCOME: string := "income"
  const EXPENSE: string := "expense"

  /** `type` is one of 'income' | 'expense'. */
  predicate IsKind(kind: string) {
    kind == INCOME || kind == EXPENSE
  }

  /** `Omit<Transaction, 'id'>`: what the form submits and what the database is asked to insert. */
  datatype NewTransaction = NewTransaction(
    amount: real, kind: string, category: string, date: string, description: string)

  /** A stored or displayed record; `id` is assigned by the database or by the browser-mode handler. */
  datatype Transaction = Transaction(
    id: int, amount: real, kind: string, category: string, date: string, description: string)

  datatype Stats = Stats(totalIncome: real, totalExpenses: real, balance: real)

  /** `{ id, ...transaction }`: the record `t` under the id `id`. */
  function WithId(t: NewTransaction, id: int): (r: Transaction)
    ensures r.id == id && Fields(r) == t
  {
    Transaction(id, t.amount, t.kind, t.category, t.date, t.description)
  }

  /** The record without its id. */
  function Fields(r: Transaction): NewTransaction {
    NewTransaction(r.amount, r.kind, r.category, r.date, r.description)
  }

  lemma WithIdFieldsRoundTrip(r: Transaction)
    ensures WithId(Fields(r), r.id) == r
  {
  }

  /** Every record of `ts` has a type the schema and the TypeScript union admit. */
  predicate WellTyped(ts: seq<Transaction>) {
    forall i :: 0 <= i < |ts| ==> IsKind(ts[i].kind)
  }

  predicate HasId(ts: seq<Transaction>, id: int) {
    exists i :: 0 <= i < |ts| && ts[i].id == id
  }

  predicate DistinctIds(ts: seq<Transaction>) {
    forall i, j :: 0 <= i < j < |ts| ==> ts[i].id != ts[j].id
  }

  /** What one record adds to the total of records of type `kind`. */
  function Contribution(t: Transaction, kind: string): real {
    if t.kind == kind then t.amount else 0.0
  }

  /** `SUM(amount) WHERE type = kind`, with the empty sum 0 (`COALESCE(…, 0)`). */
  function SumOfKind(ts: seq<Transaction>, kind: string): real {
    if ts == [] then 0.0 else Contribution(ts[0], kind) + SumOfKind(ts[1..], kind)
  }

  /** The statistics recomputed from scratch over `ts`. */
  function Totals(ts: seq<Transaction>): (r: Stats)
    ensures r.balance == r.totalIncome - r.totalExpenses
  {
    var income := SumOfKind(ts, INCOME);
    var expenses := SumOfKind(ts, EXPENSE);
    Stats(income, expenses, income - expenses)
  }

  /** No record of `ts` has type `kind`. */
  predicate NoneOfKind(ts: seq<Transaction>, kind: string) {
    forall i :: 0 <= i < |ts| ==> ts[i].kind != kind
  }

  /** Records of type `kind` are the only ones that move its total: with none, the total is 0. */
  lemma {:induction false} SumOfKindNoMatch(ts: seq<Transaction>, kind: string)
    requires NoneOfKind(ts, kind)
    ensures SumOfKind(ts, kind) == 0.0
  {
    if ts != [] {
      SumOfKindNoMatch(ts[1..], kind);
    }
  }

  /** The total over a concatenation is the sum of the totals. */
  lemma {:induction false} SumOfKindConcat(a: seq<Transaction>, b: seq<Transaction>, kind: string)
    ensures SumOfKind(a + b, kind) == SumOfKind(a, kind) + SumOfKind(b, kind)
  {
    if a == [] {
      assert a + b == b;
    } else {
      assert (a + b)[1..] == a[1..] + b;
      SumOfKindConcat(a[1..], b, kind);
    }
  }

  /** Appending one record moves only the total of its own type, by its amount. */
  lemma SumOfKindAppend(ts: seq<Transaction>, t: Transaction, kind: string)
    ensures SumOfKind(ts + [t], kind) == SumOfKind(ts, kind) + Contribution(t, kind)
  {
    SumOfKindConcat(ts, [t], kind);
  }

  /** The total does not depend on the order of the records: SQL sums an unordered set of rows. */
  lemma {:induction false} SumOfKindPermutation(a: seq<Transaction>, b: seq<Transaction>, kind: string)
    requires multiset(a) == multiset(b)
    ensures SumOfKind(a, kind) == SumOfKind(b, kind)
  {
    if a == [] {
      assert |b| == |multiset(b)| == 0;
    } else {
      assert a[0] in multiset(b);
      var j :| 0 <= j < |b| && b[j] == a[0];
      MultisetRemoveAt(a, 0);
      MultisetRemoveAt(b, j);
      assert a[..0] + a[1..] == a[1..];
      SumOfKindPermutation(a[1..], b[..j] + b[j + 1..], kind);
      SumOfKindRemoveAt(b, j, kind);
    }
  }

  lemma MultisetRemoveAt<T>(s: seq<T>, j: int)
    requires 0 <= j < |s|
    ensures multiset(s[..j] + s[j + 1..]) == multiset(s) - multiset{s[j]}
  {
    assert s == s[..j] + [s[j]] + s[j + 1..];
  }

  /** Taking out the record at index `j` lowers the total by what it contributed. */
  lemma SumOfKindRemoveAt(s: seq<Transaction>, j: int, kind: string)
    requires 0 <= j < |s|
    ensures SumOfKind(s, kind) == Contribution(s[j], kind) + SumOfKind(s[..j] + s[j + 1..], kind)
  {
    assert s == s[..j] + ([s[j]] + s[j + 1..]);
    SumOfKindConcat(s[..j], [s[j]] + s[j + 1..], kind);
    assert ([s[j]] + s[j + 1..])[1..] == s[j + 1..];
    SumOfKindConcat(s[..j], s[j + 1..], kind);
  }

  /** `ts.filter(t => t.id !== id)`, and equally `DELETE FROM transactions WHERE id = ?`. */
  function RemoveId(ts: seq<Transaction>, id: int): (r: seq<Transaction>)
    ensures |r| <= |ts|
    ensures !HasId(ts, id) ==> r == ts
  {
    if ts == [] then []
    else if ts[0].id == id then RemoveId(ts[1..], id)
    else
      assert forall i :: 0 <= i < |ts[1..]| ==> ts[1..][i] == ts[i + 1];
      [ts[0]] + RemoveId(ts[1..], id)
  }

  /** The filter keeps exactly the records whose id differs from `id`. */
  lemma {:induction false} RemoveIdMembers(ts: seq<Transaction>, id: int)
    ensures forall x :: x in RemoveId(ts, id) <==> x in ts && x.id != id
  {
    if ts != [] {
      RemoveIdMembers(ts[1..], id);
      assert ts == [ts[0]] + ts[1..];
    }
  }

  /** No record with `id` survives the filter. */
  lemma RemoveIdRemovesAll(ts: seq<Transaction>, id: int)
    ensures !HasId(RemoveId(ts, id), id)
  {
    var r := RemoveId(ts, id);
    RemoveIdMembers(ts, id);
    forall i | 0 <= i < |r| ensures r[i].id != id {
      assert r[i] in r;
    }
  }

  /**
   * The filter works element by element: it distributes over concatenation,
   * so the surviving records keep their relative order.
   */
  lemma {:induction false} RemoveIdConcat(a: seq<Transaction>, b: seq<Transaction>, id: int)
    ensures RemoveId(a + b, id) == RemoveId(a, id) + RemoveId(b, id)
  {
    if a == [] {
      assert a + b == b;
    } else {
      assert (a + b)[1..] == a[1..] + b;
      RemoveIdConcat(a[1..], b, id);
    }
  }

  /** On one record the filter keeps it exactly when its id differs. */
  lemma RemoveIdSingle(t: Transaction, id: int)
    ensures RemoveId([t], id) == if t.id == id then [] else [t]
  {
    assert [t][1..] == [];
  }

  /** Filtering keeps ids distinct and types well formed. */
  lemma {:induction false} RemoveIdKeeps(ts: seq<Transaction>, id: int)
    requires DistinctIds(ts) && WellTyped(ts)
    ensures DistinctIds(RemoveId(ts, id)) && WellTyped(RemoveId(ts, id))
  {
    if ts != [] {
      RemoveIdKeeps(ts[1..], id);
      var tail := RemoveId(ts[1..], id);
      RemoveIdMembers(ts[1..], id);
      forall x | x in tail ensures x.id != ts[0].id {
        var k :| 0 <= k < |ts[1..]| && ts[1..][k] == x;
        assert ts[k + 1] == x;
      }
    }
  }

  /**
   * Removing the id of the record at index `i` of a list with distinct ids
   * lowers each total by exactly what that record contributed.
   */
  lemma {:induction false} SumOfKindRemoveId(ts: seq<Transaction>, i: int, kind: string)
    requires DistinctIds(ts) && 0 <= i < |ts|
    ensures SumOfKind(RemoveId(ts, ts[i].id), kind) == SumOfKind(ts, kind) - Contribution(ts[i], kind)
  {
    var id := ts[i].id;
    if i == 0 {
      forall k | 0 <= k < |ts[1..]| ensures ts[1..][k].id != id {
        assert ts[1..][k] == ts[k + 1];
      }
    } else {
      assert ts[0].id != id;
      assert ts[1..][i - 1] == ts[i];
      SumOfKindRemoveId(ts[1..], i - 1, kind);
    }
  }

  /** With distinct ids, the id of the record at index `i` occurs nowhere else. */
  lemma IdOccursOnce(ts: seq<Transaction>, i: int)
    requires DistinctIds(ts) && 0 <= i < |ts|
    ensures !HasId(ts[..i], ts[i].id) && !HasId(ts[i + 1..], ts[i].id)
  {
    var before, after := ts[..i], ts[i + 1..];
    forall k | 0 <= k < |before| ensures before[k].id != ts[i].id {
      assert before[k] == ts[k];
    }
    forall k | 0 <= k < |after| ensures after[k].id != ts[i].id {
      assert after[k] == ts[i + 1 + k];
    }
  }

  /** Removing `id` from a list in which only `t` carries it removes exactly `t`. */
  lemma RemoveIdAround(before: seq<Transaction>, t: Transaction, after: seq<Transaction>, id: int)
    requires !HasId(before, id) && !HasId(after, id) && t.id == id
    ensures RemoveId(before + [t] + after, id) == before + after
  {
    assert RemoveId([t] + after, id) == after by {
      RemoveIdSingle(t, id);
      RemoveIdConcat([t], after, id);
    }
    assert before + [t] + after == before + ([t] + after);
    RemoveIdConcat(before, [t] + after, id);
  }

  /**
   * With distinct ids, removing the id of the record at index `i` removes that
   * record and nothing else, and the others keep their order.
   */
  lemma RemoveIdExactlyOne(ts: seq<Transaction>, i: int)
    requires DistinctIds(ts) && 0 <= i < |ts|
    ensures RemoveId(ts, ts[i].id) == ts[..i] + ts[i + 1..]
  {
    IdOccursOnce(ts, i);
    assert ts == ts[..i] + [ts[i]] + ts[i + 1..];
    RemoveIdAround(ts[..i], ts[i], ts[i + 1..], ts[i].id);
  }
}
