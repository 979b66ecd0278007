/**
 * The transaction table of the selected context
 * (components/TransactionList.tsx): the records of the context, newest date
 * first, or an empty-state message when there are none; each row shows the
 * date, the item name, the category with the payment method when there is
 * one, and the amount signed by type.
 */
module TransactionList {
  import opened Types
  import opened Ledger
  import opened Ordering

  /** `transactions.filter(t => t.context === context).sort(newest date first)`. */
  function Shown(txs: seq<Transaction>, ctx: Context): seq<Transaction>
  {
    SortNewestFirst(InContext(txs, ctx))
  }

  /**
   * The table lists every record of the context once, no other record, newest
   * date first, and records of the same date in the order they are stored.
   */
  lemma ShownIsSortedView(txs: seq<Transaction>, ctx: Context)
    ensures multiset(Shown(txs, ctx)) == multiset(InContext(txs, ctx))
    ensures forall t :: t in Shown(txs, ctx) <==> t in txs && t.context == ctx
    ensures NewestFirst(Shown(txs, ctx))
    ensures forall d :: OnDate(Shown(txs, ctx), d) == OnDate(InContext(txs, ctx), d)
  {
    var view := InContext(txs, ctx);
    InContextMembers(txs, ctx);
    assert forall t :: t in Shown(txs, ctx) <==> t in multiset(Shown(txs, ctx));
    forall d
      ensures OnDate(Shown(txs, ctx), d) == OnDate(view, d)
    {
      SortIsStable(view, d);
    }
  }

  /** Any other arrangement of the context's records that is newest first and keeps same-day records in stored order is the table. */
  lemma ShownIsTheStableSort(txs: seq<Transaction>, ctx: Context, r: seq<Transaction>)
    requires NewestFirst(r)
    requires forall d :: OnDate(r, d) == OnDate(InContext(txs, ctx), d)
    ensures r == Shown(txs, ctx)
  {
    StableSortIsUnique(InContext(txs, ctx), r);
  }

  /** `t.type === 'income' ? '+' : '-'`. */
  function Sign(kind: TxType): (s: string)
    ensures s == "+" <==> kind == Income
    ensures s == "-" <==> kind == Expense
  {
    match kind
    case Income => "+"
    case Expense => "-"
  }

  /** The payment method under the category, rendered only when the record has one. */
  function PaymentNote(p: Option<PaymentMethod>): (r: Option<string>)
    ensures r.None? <==> p.None?
    ensures r.Some? ==> r.value == PaymentLabel(p)
  {
    if p.None? then None else Some(PaymentLabel(p))
  }

  /** One table row, keyed by the record's id. */
  datatype ListRow = ListRow(
    key: Id,
    date: Date,
    item: string,
    category: string,
    payment: Option<string>,
    sign: string,
    amount: real)

  function RowOf(t: Transaction): ListRow
  {
    ListRow(t.id, t.date, DescriptionLabel(t.description), t.category, PaymentNote(t.paymentMethod), Sign(t.kind), t.amount)
  }

  /** What the component renders. */
  datatype ListView =
    | EmptyState(context: Context)
    | Table(count: nat, rows: seq<ListRow>)

  function View(txs: seq<Transaction>, ctx: Context): (v: ListView)
    ensures v.EmptyState? <==> forall t | t in txs :: t.context != ctx
    ensures v.EmptyState? ==> v.context == ctx
    ensures v.Table? ==> v.count == |v.rows| == |InContext(txs, ctx)| > 0
  {
    EmptyView(txs, ctx);
    var shown := Shown(txs, ctx);
    ShownIsSortedView(txs, ctx);
    assert |shown| == |multiset(shown)| == |multiset(InContext(txs, ctx))| == |InContext(txs, ctx)|;
    if |shown| == 0 then EmptyState(ctx)
    else Table(|shown|, seq(|shown|, i requires 0 <= i < |shown| => RowOf(shown[i])))
  }

  /**
   * The table has one row per record of the context, keyed by its id, its
   * dates run from the newest down, and every row carries a visible item name
   * and the sign of its type.
   */
  lemma TableRows(txs: seq<Transaction>, ctx: Context)
    requires View(txs, ctx).Table?
    ensures forall t :: t in txs && t.context == ctx ==> RowOf(t) in View(txs, ctx).rows
    ensures forall row :: row in View(txs, ctx).rows ==>
      exists t :: t in txs && t.context == ctx && row == RowOf(t)
    ensures forall i, j :: 0 <= i < j < |View(txs, ctx).rows| ==>
      DateLe(View(txs, ctx).rows[j].date, View(txs, ctx).rows[i].date)
    ensures forall row :: row in View(txs, ctx).rows ==> row.item != "" && (row.sign == "+" || row.sign == "-")
  {
    var shown := Shown(txs, ctx);
    var rows := View(txs, ctx).rows;
    ShownIsSortedView(txs, ctx);
    assert forall i :: 0 <= i < |rows| ==> rows[i] == RowOf(shown[i]);
    forall t | t in txs && t.context == ctx
      ensures RowOf(t) in rows
    {
      var i :| 0 <= i < |shown| && shown[i] == t;
      assert rows[i] == RowOf(t);
    }
    forall row | row in rows
      ensures exists t :: t in txs && t.context == ctx && row == RowOf(t)
    {
      var i :| 0 <= i < |rows| && rows[i] == row;
      assert shown[i] in shown;
    }
  }
}
