/**
 * Ordering by date, newest first: the comparator
 * `(a, b) => new Date(b.date).getTime() - new Date(a.date).getTime()` handed to
 * the stable `Array.prototype.sort`. For `YYYY-MM-DD` strings the time order is
 * the lexicographic order of the strings, which `DateLe` defines.
 */
module Ordering {
  import opened Types
  import opened Ledger

  /** `a` is the same day as `b` or earlier. */
  predicate DateLe(a: Date, b: Date)
    decreases |a|
  {
    |a| == 0 || (|b| != 0 && (a[0] < b[0] || (a[0] == b[0] && DateLe(a[1..], b[1..]))))
  }

  lemma {:induction false} DateLeReflexive(a: Date)
    ensures DateLe(a, a)
  {
    if |a| != 0 {
      DateLeReflexive(a[1..]);
    }
  }

  lemma {:induction false} DateLeTotal(a: Date, b: Date)
    ensures DateLe(a, b) || DateLe(b, a)
  {
    if |a| != 0 && |b| != 0 && a[0] == b[0] {
      DateLeTotal(a[1..], b[1..]);
    }
  }

  lemma {:induction false} DateLeTransitive(a: Date, b: Date, c: Date)
    requires DateLe(a, b) && DateLe(b, c)
    ensures DateLe(a, c)
  {
    if |a| != 0 && a[0] == b[0] && b[0] == c[0] {
      DateLeTransitive(a[1..], b[1..], c[1..]);
    }
  }

  lemma {:induction false} DateLeAntisymmetric(a: Date, b: Date)
    requires DateLe(a, b) && DateLe(b, a)
    ensures a == b
  {
    if |a| != 0 {
      DateLeAntisymmetric(a[1..], b[1..]);
      assert a == [a[0]] + a[1..] && b == [b[0]] + b[1..];
    }
  }

  /** Every record is dated no later than each one before it. */
  predicate NewestFirst(s: seq<Transaction>)
  {
    forall i, j :: 0 <= i < j < |s| ==> DateLe(s[j].date, s[i].date)
  }

  /** The records dated `d`, in their order in `s`. */
  function OnDate(s: seq<Transaction>, d: Date): seq<Transaction>
  {
    Keep(s, (t: Transaction) => t.date == d)
  }

  lemma OnDateMembers(s: seq<Transaction>, d: Date)
    ensures forall t :: t in OnDate(s, d) <==> t in s && t.date == d
  {
    KeepMembers(s, (t: Transaction) => t.date == d);
  }

  /**
   * Places `x` in front of the first record dated no later than it; a record
   * of the same date already in `r` therefore stays behind `x`.
   */
  function InsertByDate(x: Transaction, r: seq<Transaction>): (q: seq<Transaction>)
    ensures multiset(q) == multiset(r) + multiset{x}
  {
    if r == [] || DateLe(r[0].date, x.date) then [x] + r
    else
      assert r == [r[0]] + r[1..];
      [r[0]] + InsertByDate(x, r[1..])
  }

  /** The stable sort by date, newest first, as an insertion sort. */
  function SortNewestFirst(s: seq<Transaction>): (r: seq<Transaction>)
    ensures multiset(r) == multiset(s)
    ensures NewestFirst(r)
  {
    if s == [] then []
    else
      assert s == [s[0]] + s[1..];
      var rest := SortNewestFirst(s[1..]);
      InsertKeepsNewestFirst(s[0], rest);
      InsertByDate(s[0], rest)
  }

  /** Every record of `s` is dated no later than `d`. */
  predicate NoneAfter(s: seq<Transaction>, d: Date)
  {
    forall i :: 0 <= i < |s| ==> DateLe(s[i].date, d)
  }

  lemma {:induction false} InsertNoneAfter(x: Transaction, r: seq<Transaction>, d: Date)
    requires NoneAfter(r, d) && DateLe(x.date, d)
    ensures NoneAfter(InsertByDate(x, r), d)
  {
    if r != [] && !DateLe(r[0].date, x.date) {
      InsertNoneAfter(x, r[1..], d);
    }
  }

  lemma ConsNewestFirst(a: Transaction, q: seq<Transaction>)
    requires NewestFirst(q) && NoneAfter(q, a.date)
    ensures NewestFirst([a] + q)
  {
    var res := [a] + q;
    forall i, j | 0 <= i < j < |res| ensures DateLe(res[j].date, res[i].date) {
      assert res[j] == q[j - 1];
      if i > 0 {
        assert res[i] == q[i - 1];
      }
    }
  }

  lemma {:induction false} InsertKeepsNewestFirst(x: Transaction, r: seq<Transaction>)
    requires NewestFirst(r)
    ensures NewestFirst(InsertByDate(x, r))
  {
    if r == [] || DateLe(r[0].date, x.date) {
      forall j | 0 <= j < |r| ensures DateLe(r[j].date, x.date) {
        if j > 0 {
          DateLeTransitive(r[j].date, r[0].date, x.date);
        }
      }
      ConsNewestFirst(x, r);
    } else {
      var tail := r[1..];
      assert NewestFirst(tail) by {
        forall i, j | 0 <= i < j < |tail| ensures DateLe(tail[j].date, tail[i].date) {
          assert tail[i] == r[i + 1] && tail[j] == r[j + 1];
        }
      }
      InsertKeepsNewestFirst(x, tail);
      DateLeTotal(r[0].date, x.date);
      assert NoneAfter(tail, r[0].date) by {
        forall i | 0 <= i < |tail| ensures DateLe(tail[i].date, r[0].date) {
          assert tail[i] == r[i + 1];
        }
      }
      InsertNoneAfter(x, tail, r[0].date);
      ConsNewestFirst(r[0], InsertByDate(x, tail));
    }
  }

  /** Inserting `x` adds it in front of every record of its own date and changes no other date's records. */
  lemma OnDateCons(x: Transaction, s: seq<Transaction>, d: Date)
    ensures OnDate([x] + s, d) == (if x.date == d then [x] else []) + OnDate(s, d)
  {
    KeepCons(x, s, (t: Transaction) => t.date == d);
  }

  /** Filtering by date a list whose head is not dated like `x`. */
  lemma OnDatePastHead(x: Transaction, r: seq<Transaction>, d: Date, ins: seq<Transaction>, whole: seq<Transaction>)
    requires r != [] && r[0].date != x.date
    requires whole == [r[0]] + ins
    requires OnDate(ins, d) == if x.date == d then [x] + OnDate(r[1..], d) else OnDate(r[1..], d)
    ensures OnDate(whole, d) == if x.date == d then [x] + OnDate(r, d) else OnDate(r, d)
  {
    OnDateCons(r[0], ins, d);
    assert r == [r[0]] + r[1..];
    OnDateCons(r[0], r[1..], d);
    if x.date == d {
      assert r[0].date != d;
      assert OnDate(whole, d) == OnDate(ins, d);
      assert OnDate(r, d) == OnDate(r[1..], d);
    } else if r[0].date == d {
      assert OnDate(whole, d) == [r[0]] + OnDate(ins, d);
    } else {
      assert OnDate(whole, d) == OnDate(ins, d);
    }
  }

  lemma {:induction false} InsertOnDate(x: Transaction, r: seq<Transaction>, d: Date)
    ensures OnDate(InsertByDate(x, r), d) == if x.date == d then [x] + OnDate(r, d) else OnDate(r, d)
  {
    if r == [] || DateLe(r[0].date, x.date) {
      OnDateCons(x, r, d);
    } else {
      DateLeReflexive(x.date);
      InsertOnDate(x, r[1..], d);
      OnDatePastHead(x, r, d, InsertByDate(x, r[1..]), InsertByDate(x, r));
    }
  }

  /**
   * The sort is stable: for every date, the records of that date appear in the
   * same relative order as in the input.
   */
  lemma {:induction false} SortIsStable(s: seq<Transaction>, d: Date)
    ensures OnDate(SortNewestFirst(s), d) == OnDate(s, d)
  {
    if s != [] {
      var rest := SortNewestFirst(s[1..]);
      SortIsStable(s[1..], d);
      InsertOnDate(s[0], rest, d);
      StableStep(s, d, rest, SortNewestFirst(s));
    }
  }

  lemma StableStep(s: seq<Transaction>, d: Date, rest: seq<Transaction>, sorted: seq<Transaction>)
    requires s != []
    requires OnDate(rest, d) == OnDate(s[1..], d)
    requires OnDate(sorted, d) == if s[0].date == d then [s[0]] + OnDate(rest, d) else OnDate(rest, d)
    ensures OnDate(sorted, d) == OnDate(s, d)
  {
    assert s == [s[0]] + s[1..];
    OnDateCons(s[0], s[1..], d);
  }

  /** A newest-first list begins with the first record of its newest date. */
  lemma NewestFirstHead(r: seq<Transaction>, d: Date)
    requires NewestFirst(r) && r != [] && r[0].date == d
    ensures OnDate(r, d) == [r[0]] + OnDate(r[1..], d)
  {
    assert r == [r[0]] + r[1..];
    KeepAppend([r[0]], r[1..], (t: Transaction) => t.date == d);
  }

  /** The first dates of two newest-first lists that agree on every date coincide. */
  lemma FirstDatesAgree(r: seq<Transaction>, r': seq<Transaction>)
    requires NewestFirst(r) && NewestFirst(r') && r != [] && r' != []
    requires forall d :: OnDate(r, d) == OnDate(r', d)
    ensures r[0].date == r'[0].date
  {
    var d, d' := r[0].date, r'[0].date;
    OnDateMembers(r, d);
    OnDateMembers(r, d');
    OnDateMembers(r', d);
    OnDateMembers(r', d');
    assert r'[0] in OnDate(r', d');
    assert r'[0] in OnDate(r, d');
    var k :| 0 <= k < |r| && r[k] == r'[0];
    assert DateLe(d', d) by {
      if k == 0 { DateLeReflexive(d); }
    }
    assert r[0] in OnDate(r, d);
    assert r[0] in OnDate(r', d);
    var k' :| 0 <= k' < |r'| && r'[k'] == r[0];
    assert DateLe(d, d') by {
      if k' == 0 { DateLeReflexive(d'); }
    }
    DateLeAntisymmetric(d, d');
  }

  /** Two newest-first lists that agree on every date begin with the same record. */
  lemma HeadsAgree(r: seq<Transaction>, r': seq<Transaction>)
    requires NewestFirst(r) && NewestFirst(r') && r != [] && r' != []
    requires forall d :: OnDate(r, d) == OnDate(r', d)
    ensures r[0] == r'[0]
  {
    FirstDatesAgree(r, r');
    var d := r[0].date;
    NewestFirstHead(r, d);
    NewestFirstHead(r', d);
    assert OnDate(r, d)[0] == r[0];
    assert OnDate(r', d)[0] == r'[0];
    assert OnDate(r, d) == OnDate(r', d);
  }

  /** Two lists with the same head that agree on a date also agree on it after the head. */
  lemma TailsAgree(r: seq<Transaction>, r': seq<Transaction>, e: Date)
    requires r != [] && r' != [] && r[0] == r'[0]
    requires OnDate(r, e) == OnDate(r', e)
    ensures OnDate(r[1..], e) == OnDate(r'[1..], e)
  {
    var t, t' := r[1..], r'[1..];
    assert r == [r[0]] + t;
    assert r' == [r[0]] + t';
    OnDateCons(r[0], t, e);
    OnDateCons(r[0], t', e);
    var pre: seq<Transaction> := if r[0].date == e then [r[0]] else [];
    assert OnDate(t, e) == (pre + OnDate(t, e))[|pre|..];
    assert OnDate(t', e) == (pre + OnDate(t', e))[|pre|..];
  }

  lemma AllTailsAgree(r: seq<Transaction>, r': seq<Transaction>)
    requires r != [] && r' != [] && r[0] == r'[0]
    requires forall d :: OnDate(r, d) == OnDate(r', d)
    ensures forall e :: OnDate(r[1..], e) == OnDate(r'[1..], e)
  {
    forall e ensures OnDate(r[1..], e) == OnDate(r'[1..], e) {
      TailsAgree(r, r', e);
    }
  }

  lemma TailNewestFirst(r: seq<Transaction>)
    requires NewestFirst(r) && r != []
    ensures NewestFirst(r[1..])
  {
    var tail := r[1..];
    forall i, j | 0 <= i < j < |tail| ensures DateLe(tail[j].date, tail[i].date) {
      assert tail[i] == r[i + 1] && tail[j] == r[j + 1];
    }
  }

  /** Only the empty list agrees on every date with the empty list. */
  lemma NothingToAgreeWith(r: seq<Transaction>, r': seq<Transaction>)
    requires forall d :: OnDate(r, d) == OnDate(r', d)
    requires r == []
    ensures r' == []
  {
    if r' != [] {
      HeadOnOwnDate(r');
      assert false;
    }
  }

  lemma HeadOnOwnDate(s: seq<Transaction>)
    requires s != []
    ensures OnDate(s, s[0].date) != []
  {
    OnDateMembers(s, s[0].date);
    assert s[0] in OnDate(s, s[0].date);
  }

  /**
   * A newest-first arrangement is determined by its per-date subsequences:
   * two newest-first lists that agree on every date are equal.
   */
  lemma {:induction false} NewestFirstDeterminedByDates(r: seq<Transaction>, r': seq<Transaction>)
    requires NewestFirst(r) && NewestFirst(r')
    requires forall d :: OnDate(r, d) == OnDate(r', d)
    ensures r == r'
  {
    if r == [] {
      NothingToAgreeWith(r, r');
    } else if r' == [] {
      NothingToAgreeWith(r', r);
    } else {
      HeadsAgree(r, r');
      AllTailsAgree(r, r');
      TailNewestFirst(r);
      TailNewestFirst(r');
      NewestFirstDeterminedByDates(r[1..], r'[1..]);
      assert r == [r[0]] + r[1..] && r' == [r'[0]] + r'[1..];
    }
  }

  /**
   * Any stable newest-first arrangement of `s` is exactly `SortNewestFirst(s)`,
   * so the library's stable sort yields the same list as this model.
   */
  lemma StableSortIsUnique(s: seq<Transaction>, r: seq<Transaction>)
    requires NewestFirst(r)
    requires forall d :: OnDate(r, d) == OnDate(s, d)
    ensures r == SortNewestFirst(s)
  {
    forall d ensures OnDate(r, d) == OnDate(SortNewestFirst(s), d) {
      SortIsStable(s, d);
    }
    NewestFirstDeterminedByDates(r, SortNewestFirst(s));
  }
}
