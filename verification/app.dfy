/**
 * The application shell (App.tsx): the list of records and the selected
 * context, kept in step with a browser storage slot; adding, deleting and
 * wiping records; and the PDF report of the selected context.
 */
module App {
  import opened Types
  import opened Ledger
  import opened Ordering
  import opened Dashboard
  import TransactionList

  // ---------------------------------------------------------------------------
  // Persistence

  /** The key under which the list is kept in the browser's storage. */
  const StorageKey: string := "rupeewise_data_v1"

  /**
   * The value held under `StorageKey`: nothing, text that is empty or that
   * `JSON.parse` rejects, or the serialised form of a list of records.
   */
  datatype Slot = Absent | Malformed | Stored(list: seq<Transaction>)

  /** What the mount effect loads: the stored list, or nothing when the slot is absent or unreadable. */
  function Loaded(slot: Slot): Option<seq<Transaction>>
  {
    match slot
    case Stored(list) => Some(list)
    case _ => None
  }

  // ---------------------------------------------------------------------------
  // Deleting by id

  /** `prev.filter(t => t.id !== id)`. */
  function RemoveId(s: seq<Transaction>, id: Id): seq<Transaction>
  {
    Keep(s, (t: Transaction) => t.id != id)
  }

  function Ids(s: seq<Transaction>): set<Id>
  {
    set t | t in s :: t.id
  }

  /** No two records share an id. */
  predicate UniqueIds(s: seq<Transaction>)
  {
    forall i, j :: 0 <= i < j < |s| ==> s[i].id != s[j].id
  }

  /** Deleting removes exactly the records with that id, and keeps the others in their order. */
  lemma RemoveIdMembers(s: seq<Transaction>, id: Id)
    ensures forall t :: t in RemoveId(s, id) <==> t in s && t.id != id
    ensures id !in Ids(RemoveId(s, id))
  {
    KeepMembers(s, (t: Transaction) => t.id != id);
  }

  /** Deleting an id no record has changes nothing. */
  lemma RemoveAbsentId(s: seq<Transaction>, id: Id)
    requires id !in Ids(s)
    ensures RemoveId(s, id) == s
  {
    assert forall i :: 0 <= i < |s| ==> s[i] in s;
    RemoveIdAll(s, id);
  }

  /** With unique ids, deleting the id of the record at `k` removes that record alone. */
  lemma RemoveUniqueId(s: seq<Transaction>, k: nat)
    requires UniqueIds(s)
    requires k < |s|
    ensures RemoveId(s, s[k].id) == s[..k] + s[k + 1..]
  {
    var before, after := s[..k], s[k + 1..];
    assert s == before + ([s[k]] + after);
    assert forall i :: 0 <= i < |before| ==> before[i].id != s[k].id;
    assert forall i :: 0 <= i < |after| ==> after[i] == s[k + 1 + i];
    RemoveAroundId(before, s[k], after);
  }

  lemma RemoveAroundId(before: seq<Transaction>, t: Transaction, after: seq<Transaction>)
    requires forall i :: 0 <= i < |before| ==> before[i].id != t.id
    requires forall i :: 0 <= i < |after| ==> after[i].id != t.id
    ensures RemoveId(before + ([t] + after), t.id) == before + after
  {
    var id := t.id;
    RemoveIdAll(before, id);
    RemoveIdAll(after, id);
    RemoveIdCons(t, after, id);
    RemoveIdAppend(before, [t] + after, id);
  }

  lemma RemoveIdAll(s: seq<Transaction>, id: Id)
    requires forall i :: 0 <= i < |s| ==> s[i].id != id
    ensures RemoveId(s, id) == s
  {
    KeepAll(s, (t: Transaction) => t.id != id);
  }

  lemma RemoveIdCons(t: Transaction, s: seq<Transaction>, id: Id)
    ensures RemoveId([t] + s, id) == if t.id == id then RemoveId(s, id) else [t] + RemoveId(s, id)
  {
    KeepCons(t, s, (t: Transaction) => t.id != id);
  }

  lemma RemoveIdAppend(a: seq<Transaction>, b: seq<Transaction>, id: Id)
    ensures RemoveId(a + b, id) == RemoveId(a, id) + RemoveId(b, id)
  {
    KeepAppend(a, b, (t: Transaction) => t.id != id);
  }

  /** A record added under a fresh id keeps the ids unique. */
  lemma AddKeepsUnique(s: seq<Transaction>, t: Transaction)
    requires UniqueIds(s)
    requires t.id !in Ids(s)
    ensures UniqueIds([t] + s)
  {
    var s' := [t] + s;
    forall i, j | 0 <= i < j < |s'|
      ensures s'[i].id != s'[j].id
    {
      assert s'[j] == s[j - 1];
      if i > 0 {
        assert s'[i] == s[i - 1];
      } else {
        assert s[j - 1] in s;
      }
    }
  }

  /** Deleting the record just added under a fresh id restores the list. */
  lemma AddThenDelete(s: seq<Transaction>, t: Transaction)
    requires t.id !in Ids(s)
    ensures RemoveId([t] + s, t.id) == s
  {
    RemoveIdCons(t, s, t.id);
    RemoveAbsentId(s, t.id);
  }

  /** A new record goes to the head of its own context's view and leaves the other context's view alone. */
  lemma AddShowsFirst(s: seq<Transaction>, t: Transaction, ctx: Context)
    ensures InContext([t] + s, ctx) == if t.context == ctx then [t] + InContext(s, ctx) else InContext(s, ctx)
  {
    KeepCons(t, s, (x: Transaction) => x.context == ctx);
  }

  // ---------------------------------------------------------------------------
  // The PDF report

  function ContextName(ctx: Context): string
  {
    match ctx
    case Home => "Home"
    case School => "School"
  }

  /** The title line and the file name of the report of `ctx`. */
  function Title(ctx: Context): string
  {
    "RupeeWise - " + ContextName(ctx) + " Expenses"
  }

  function FileName(ctx: Context): string
  {
    ContextName(ctx) + "_Expenses_Report.pdf"
  }

  /**
   * Upper-casing of one character: a to z become A to Z and every other
   * character is kept. This agrees with `String.prototype.toUpperCase` on the
   * ASCII type names it is applied to, not on letters outside ASCII.
   */
  function UpperChar(c: char): (u: char)
    ensures 'a' <= c <= 'z' ==> 'A' <= u <= 'Z' && u as int - 'A' as int == c as int - 'a' as int
    ensures !('a' <= c <= 'z') ==> u == c
  {
    if 'a' <= c <= 'z' then (c as int - 'a' as int + 'A' as int) as char else c
  }

  function Upper(s: string): (r: string)
    ensures |r| == |s|
    ensures forall i :: 0 <= i < |s| ==> r[i] == UpperChar(s[i])
  {
    if s == [] then [] else [UpperChar(s[0])] + Upper(s[1..])
  }

  /** The spelling of the type in a stored record. */
  function TypeName(kind: TxType): string
  {
    match kind
    case Income => "income"
    case Expense => "expense"
  }

  /** `ticket.type.toUpperCase()`. */
  function TypeLabel(kind: TxType): string
  {
    Upper(TypeName(kind))
  }

  /** The report spells the types in capitals. */
  lemma TypeLabelSpelling()
    ensures TypeLabel(Income) == "INCOME"
    ensures TypeLabel(Expense) == "EXPENSE"
  {
    UpperLowerWord("income", "INCOME");
    UpperLowerWord("expense", "EXPENSE");
  }

  /** Capitalising a word of lower-case letters gives the same word in capitals. */
  lemma UpperLowerWord(w: string, W: string)
    requires |w| == |W|
    requires forall i :: 0 <= i < |w| ==> 'a' <= w[i] <= 'z' && W[i] as int - 'A' as int == w[i] as int - 'a' as int
    ensures Upper(w) == W
  {
  }

  /** One row of the report table: date, item name, type, category, payment, amount. */
  datatype ReportRow = ReportRow(
    date: Date,
    item: string,
    typeLabel: string,
    category: string,
    payment: string,
    amount: real)

  function ReportRowOf(t: Transaction): ReportRow
  {
    ReportRow(t.date, DescriptionLabel(t.description), TypeLabel(t.kind), t.category, PaymentLabel(t.paymentMethod), t.amount)
  }

  /** The summary box: income and expense of the context summed separately, and their difference. */
  function ReportSummary(txs: seq<Transaction>, ctx: Context): (s: Summary)
    ensures s == Summarize(txs, ctx)
  {
    var filtered := InContext(txs, ctx);
    var income := SumAmounts(OfKind(filtered, Income));
    var expense := SumAmounts(OfKind(filtered, Expense));
    Summary(income, expense, income - expense)
  }

  /**
   * The document `downloadPDF` saves. `table` is absent when the table plugin
   * is missing and the report carries a fallback line in its place.
   */
  datatype Report = Report(title: string, fileName: string, summary: Summary, table: Option<seq<ReportRow>>)

  // ---------------------------------------------------------------------------
  // The application state

  class Shell {
    var transactions: seq<Transaction>
    var activeTab: Context
    var slot: Slot

    /** The save effect has written the current list to storage. */
    predicate Valid()
      reads this
    {
      slot == Stored(transactions)
    }

    /** Mounting with `saved` in storage, on the Home tab. */
    constructor Mount(saved: Slot)
      ensures saved.Stored? ==> transactions == saved.list
      ensures !saved.Stored? ==> transactions == []
      ensures activeTab == Home
      ensures Valid()
    {
      transactions := [];
      activeTab := Home;
      slot := saved;
      new;
      Start();
    }

    /**
     * The two effects of the first commit. The load effect reads the slot and
     * schedules the list it holds; the save effect of the same commit writes
     * the initial empty list, so an absent or unreadable slot ends up holding
     * `[]`. A scheduled list causes a re-render whose save effect writes it
     * back.
     */
    method Start()
      requires transactions == []
      modifies this
      ensures old(slot).Stored? ==> transactions == old(slot).list
      ensures !old(slot).Stored? ==> transactions == []
      ensures activeTab == old(activeTab)
      ensures Valid()
    {
      var loaded := Loaded(slot);
      Persist();
      if loaded.Some? {
        transactions := loaded.value;
        Persist();
      }
    }

    /** Reloading the page: the list comes back from storage as it was. */
    method Reload()
      requires Valid()
      modifies this
      ensures transactions == old(transactions) && activeTab == Home
      ensures Valid()
    {
      transactions := [];
      activeTab := Home;
      Start();
    }

    /** The save effect, run after each change of the list. */
    method Persist()
      modifies this
      ensures slot == Stored(transactions)
      ensures transactions == old(transactions) && activeTab == old(activeTab)
    {
      slot := Stored(transactions);
    }

    /** Switching the sidebar tab. */
    method SelectTab(ctx: Context)
      modifies this
      ensures activeTab == ctx
      ensures transactions == old(transactions) && slot == old(slot)
    {
      activeTab := ctx;
    }

    /** `addTransaction`: the candidate, given the id `newId` from the uuid generator, goes first. */
    method Add(c: Candidate, newId: Id)
      requires Valid()
      modifies this
      ensures transactions == [WithId(c, newId)] + old(transactions)
      ensures activeTab == old(activeTab)
      ensures Valid()
    {
      transactions := [WithId(c, newId)] + transactions;
      Persist();
    }

    /** `deleteTransaction`: only when the user confirms are the records with that id removed. */
    method Delete(id: Id, confirmed: bool)
      requires Valid()
      modifies this
      ensures transactions == if confirmed then RemoveId(old(transactions), id) else old(transactions)
      ensures activeTab == old(activeTab)
      ensures Valid()
    {
      if confirmed {
        transactions := RemoveId(transactions, id);
        Persist();
      }
    }

    /**
     * `clearAllData`: on confirmation the list is emptied and the slot removed;
     * the save effect that follows writes the empty list back.
     */
    method Clear(confirmed: bool)
      requires Valid()
      modifies this
      ensures transactions == if confirmed then [] else old(transactions)
      ensures activeTab == old(activeTab)
      ensures Valid()
    {
      if confirmed {
        transactions := [];
        slot := Absent;
        Persist();
      }
    }

    /**
     * `downloadPDF`. Nothing is produced while the PDF library is missing.
     * Otherwise the report of the active tab holds its summary and, when the
     * table plugin is present, one row per record of the tab, newest date
     * first.
     */
    method DownloadReport(pdfReady: bool, tableReady: bool) returns (report: Option<Report>)
      ensures report.None? <==> !pdfReady
      ensures report.Some? ==> report.value.title == Title(activeTab) && report.value.fileName == FileName(activeTab)
      ensures report.Some? ==> report.value.summary == Summarize(transactions, activeTab)
      ensures report.Some? ==> (report.value.table.Some? <==> tableReady)
      ensures report.Some? && report.value.table.Some? ==>
        ReportRows(report.value.table.value, transactions, activeTab)
    {
      if !pdfReady {
        return None;
      }
      var summary := ReportSummary(transactions, activeTab);
      var rows := BuildRows(transactions, activeTab);
      report := Some(Report(Title(activeTab), FileName(activeTab), summary, if tableReady then Some(rows) else None));
    }
  }

  /** The table of the report of `ctx`: the context's records, sorted newest first, one row each. */
  predicate ReportRows(rows: seq<ReportRow>, txs: seq<Transaction>, ctx: Context)
  {
    var sorted := SortNewestFirst(InContext(txs, ctx));
    && |rows| == |sorted|
    && forall i :: 0 <= i < |rows| ==> rows[i] == ReportRowOf(sorted[i])
  }

  /** `filtered.sort(newest first).forEach(ticket => tableRows.push(...))`. */
  method BuildRows(txs: seq<Transaction>, ctx: Context) returns (rows: seq<ReportRow>)
    ensures ReportRows(rows, txs, ctx)
    ensures |rows| == |InContext(txs, ctx)|
    ensures forall i, j :: 0 <= i < j < |rows| ==> DateLe(rows[j].date, rows[i].date)
  {
    var sorted := SortNewestFirst(InContext(txs, ctx));
    rows := PushRows(sorted);
    ReportRowsShape(rows, txs, ctx);
  }

  /** The `forEach` loop: one row pushed per record, in the order given. */
  method PushRows(sorted: seq<Transaction>) returns (rows: seq<ReportRow>)
    ensures |rows| == |sorted|
    ensures forall i :: 0 <= i < |rows| ==> rows[i] == ReportRowOf(sorted[i])
  {
    rows := [];
    for i := 0 to |sorted|
      invariant |rows| == i
      invariant forall k :: 0 <= k < i ==> rows[k] == ReportRowOf(sorted[k])
    {
      var row := ReportRowOf(sorted[i]);
      assert forall k :: 0 <= k < i ==> (rows + [row])[k] == rows[k];
      rows := rows + [row];
    }
  }

  /** The report has one row per record of the context, and its dates run from the newest down. */
  lemma ReportRowsShape(rows: seq<ReportRow>, txs: seq<Transaction>, ctx: Context)
    requires ReportRows(rows, txs, ctx)
    ensures |rows| == |InContext(txs, ctx)|
    ensures forall i, j :: 0 <= i < j < |rows| ==> DateLe(rows[j].date, rows[i].date)
  {
    var filtered := InContext(txs, ctx);
    var sorted := SortNewestFirst(filtered);
    assert |multiset(sorted)| == |multiset(filtered)|;
    RowsFollowSort(rows, sorted);
  }

  /** Rows built one per record of a newest-first list run from the newest date down. */
  lemma RowsFollowSort(rows: seq<ReportRow>, sorted: seq<Transaction>)
    requires NewestFirst(sorted)
    requires |rows| == |sorted|
    requires forall i :: 0 <= i < |rows| ==> rows[i].date == sorted[i].date
    ensures forall i, j :: 0 <= i < j < |rows| ==> DateLe(rows[j].date, rows[i].date)
  {
  }

  /**
   * The report's table lists the same records in the same order as the
   * on-screen table of the same context: row for row the same date, item name,
   * category and amount.
   */
  lemma ReportMatchesList(rows: seq<ReportRow>, txs: seq<Transaction>, ctx: Context)
    requires ReportRows(rows, txs, ctx)
    requires TransactionList.View(txs, ctx).Table?
    ensures |rows| == |TransactionList.View(txs, ctx).rows|
    ensures forall i :: 0 <= i < |rows| ==>
      var row := TransactionList.View(txs, ctx).rows[i];
      rows[i].date == row.date && rows[i].item == row.item && rows[i].category == row.category && rows[i].amount == row.amount
  {
  }

  /** The report's table is empty exactly when the context has no records. */
  lemma ReportEmpty(rows: seq<ReportRow>, txs: seq<Transaction>, ctx: Context)
    requires ReportRows(rows, txs, ctx)
    ensures rows == [] <==> forall t | t in txs :: t.context != ctx
  {
    EmptyView(txs, ctx);
    var filtered := InContext(txs, ctx);
    assert |multiset(SortNewestFirst(filtered))| == |multiset(filtered)|;
  }
}
