/**
 * The list operations every view of the ledger is built from: `Array.filter`
 * as `Keep`, the context and type filters, and the amount sum that
 * `reduce((s, t) => s + t.amount, 0)` computes.
 */
module Ledger {
  import opened Types

  /** `s.filter(p)`: the elements satisfying `p`, in their original order. */
  function Keep<T(!new)>(s: seq<T>, p: T -> bool): (r: seq<T>)
    ensures |r| <= |s|
  {
    if s == [] then []
    else
      assert s == [s[0]] + s[1..];
      (if p(s[0]) then [s[0]] else []) + Keep(s[1..], p)
  }

  /** The filter keeps exactly the elements that satisfy `p`. */
  lemma {:induction false} KeepMembers<T(!new)>(s: seq<T>, p: T -> bool)
    ensures forall x :: x in Keep(s, p) <==> x in s && p(x)
  {
    if s != [] {
      KeepMembers(s[1..], p);
      assert s == [s[0]] + s[1..];
    }
  }

  /** Filtering a list with a given first element. */
  lemma KeepCons<T(!new)>(x: T, s: seq<T>, p: T -> bool)
    ensures Keep([x] + s, p) == (if p(x) then [x] else []) + Keep(s, p)
  {
    assert ([x] + s)[1..] == s;
  }

  /** Filtering distributes over concatenation: the relative order of survivors is kept. */
  lemma {:induction false} KeepAppend<T(!new)>(a: seq<T>, b: seq<T>, p: T -> bool)
    ensures Keep(a + b, p) == Keep(a, p) + Keep(b, p)
  {
    if a == [] {
      assert a + b == b;
    } else {
      var x, rest := a[0], a[1..];
      var h := if p(x) then [x] else [];
      assert a == [x] + rest;
      assert a + b == [x] + (rest + b);
      KeepCons(x, rest + b, p);
      KeepCons(x, rest, p);
      KeepAppend(rest, b, p);
      calc {
        Keep(a + b, p);
        h + Keep(rest + b, p);
        h + (Keep(rest, p) + Keep(b, p));
        (h + Keep(rest, p)) + Keep(b, p);
        Keep(a, p) + Keep(b, p);
      }
    }
  }

  /** A filter that every element passes returns the list itself. */
  lemma {:induction false} KeepAll<T(!new)>(s: seq<T>, p: T -> bool)
    requires forall i :: 0 <= i < |s| ==> p(s[i])
    ensures Keep(s, p) == s
  {
    if s != [] {
      KeepAll(s[1..], p);
    }
  }

  /** A filter that no element passes returns the empty list. */
  lemma {:induction false} KeepNone<T(!new)>(s: seq<T>, p: T -> bool)
    requires forall i :: 0 <= i < |s| ==> !p(s[i])
    ensures Keep(s, p) == []
  {
    if s != [] {
      KeepNone(s[1..], p);
    }
  }

  /** Two complementary filters split the list: together they hold every element exactly once. */
  lemma {:induction false} KeepSplits<T(!new)>(s: seq<T>, p: T -> bool, q: T -> bool)
    requires forall i :: 0 <= i < |s| ==> q(s[i]) == !p(s[i])
    ensures multiset(Keep(s, p)) + multiset(Keep(s, q)) == multiset(s)
  {
    if s != [] {
      KeepSplits(s[1..], p, q);
      assert s == [s[0]] + s[1..];
      KeepCons(s[0], s[1..], p);
      KeepCons(s[0], s[1..], q);
    }
  }

  /** `transactions.filter(t => t.context === ctx)`. */
  function InContext(s: seq<Transaction>, ctx: Context): seq<Transaction>
  {
    Keep(s, (t: Transaction) => t.context == ctx)
  }

  /** `filteredTx` holds exactly the records of the selected context. */
  lemma InContextMembers(s: seq<Transaction>, ctx: Context)
    ensures forall t :: t in InContext(s, ctx) <==> t in s && t.context == ctx
  {
    KeepMembers(s, (t: Transaction) => t.context == ctx);
  }

  /** No record of the context leaves an empty view. */
  lemma EmptyView(txs: seq<Transaction>, ctx: Context)
    ensures InContext(txs, ctx) == [] <==> forall t | t in txs :: t.context != ctx
  {
    var r := InContext(txs, ctx);
    InContextMembers(txs, ctx);
    if r != [] {
      assert r[0] in r;
    }
  }

  /** `s.filter(t => t.type === kind)`. */
  function OfKind(s: seq<Transaction>, kind: TxType): seq<Transaction>
  {
    Keep(s, (t: Transaction) => t.kind == kind)
  }

  lemma OfKindMembers(s: seq<Transaction>, kind: TxType)
    ensures forall t :: t in OfKind(s, kind) <==> t in s && t.kind == kind
  {
    KeepMembers(s, (t: Transaction) => t.kind == kind);
  }

  lemma InContextAppend(a: seq<Transaction>, b: seq<Transaction>, ctx: Context)
    ensures InContext(a + b, ctx) == InContext(a, ctx) + InContext(b, ctx)
  {
    KeepAppend(a, b, (t: Transaction) => t.context == ctx);
  }

  lemma OfKindAppend(a: seq<Transaction>, b: seq<Transaction>, kind: TxType)
    ensures OfKind(a + b, kind) == OfKind(a, kind) + OfKind(b, kind)
  {
    KeepAppend(a, b, (t: Transaction) => t.kind == kind);
  }

  /**
   * The two contexts partition the ledger: every record is in exactly one of
   * the Home and School views, so neither view ever shows a record of the other.
   */
  lemma ContextsPartition(s: seq<Transaction>)
    ensures multiset(InContext(s, Home)) + multiset(InContext(s, School)) == multiset(s)
    ensures forall t :: t in InContext(s, Home) ==> t !in InContext(s, School)
  {
    InContextMembers(s, Home);
    InContextMembers(s, School);
    KeepSplits(s, (t: Transaction) => t.context == Home, (t: Transaction) => t.context == School);
  }

  /** The context filter keeps every matching record in its original order. */
  lemma InContextKeepsOrder(s: seq<Transaction>, ctx: Context)
    ensures (forall i :: 0 <= i < |s| ==> s[i].context == ctx) ==> InContext(s, ctx) == s
    ensures (forall i :: 0 <= i < |s| ==> s[i].context != ctx) ==> InContext(s, ctx) == []
  {
    var p := (t: Transaction) => t.context == ctx;
    if forall i :: 0 <= i < |s| ==> s[i].context == ctx {
      KeepAll(s, p);
    }
    if forall i :: 0 <= i < |s| ==> s[i].context != ctx {
      KeepNone(s, p);
    }
  }

  /** `reduce((sum, t) => sum + t.amount, 0)`. */
  function SumAmounts(s: seq<Transaction>): real
  {
    if s == [] then 0.0 else s[0].amount + SumAmounts(s[1..])
  }

  lemma {:induction false} SumAppend(a: seq<Transaction>, b: seq<Transaction>)
    ensures SumAmounts(a + b) == SumAmounts(a) + SumAmounts(b)
  {
    if a == [] {
      assert a + b == b;
    } else {
      assert (a + b)[1..] == a[1..] + b;
      SumAppend(a[1..], b);
    }
  }

  /** `description || '-'`: an absent or empty description shows as a dash. */
  function DescriptionLabel(d: Option<string>): (r: string)
    ensures r != ""
    ensures d.Some? && d.value != "" ==> r == d.value
    ensures d.None? || d.value == "" ==> r == "-"
  {
    if d.Some? && d.value != "" then d.value else "-"
  }

  /** `paymentMethod || '-'`. */
  function PaymentLabel(p: Option<PaymentMethod>): (r: string)
    ensures r == "-" <==> p.None?
  {
    match p
    case None => "-"
    case Some(Cash) => "Cash"
    case Some(Bank) => "Bank"
    case Some(Other) => "Other"
  }
}
