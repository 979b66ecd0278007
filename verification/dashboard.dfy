/**
 * The dashboard's figures for the selected context (components/Dashboard.tsx):
 * the context filter `filteredTx`, the `stats` reduction with the derived
 * `balance`, the per-category expense breakdown `chartData`, and the rule that
 * disables the insights button.
 */
module Dashboard {
  import opened Types
  import opened Constants
  import opened Ledger

  // ---------------------------------------------------------------------------
  // stats and balance

  /** The accumulator object of the `stats` reduction. */
  datatype Totals = Totals(totalIncome: real, totalExpense: real)

  /** One step of the reduction: an income adds to `totalIncome`, any other record to `totalExpense`. */
  function Accumulate(acc: Totals, t: Transaction): Totals
  {
    if t.kind == Income then acc.(totalIncome := acc.totalIncome + t.amount)
    else acc.(totalExpense := acc.totalExpense + t.amount)
  }

  /** `s.reduce(Accumulate, { totalIncome: 0, totalExpense: 0 })`, folding from the left. */
  function Tally(s: seq<Transaction>): Totals
  {
    if s == [] then Totals(0.0, 0.0) else Accumulate(Tally(s[..|s| - 1]), s[|s| - 1])
  }

  /** The single-pass reduction computes the same two sums as filtering by type and summing. */
  lemma {:induction false} TallyIsSums(s: seq<Transaction>)
    ensures Tally(s).totalIncome == SumAmounts(OfKind(s, Income))
    ensures Tally(s).totalExpense == SumAmounts(OfKind(s, Expense))
  {
    if s == [] {
      assert OfKind(s, Income) == [] && OfKind(s, Expense) == [];
    } else {
      TallyIsSums(s[..|s| - 1]);
      SumOfKindLast(s, Income);
      SumOfKindLast(s, Expense);
    }
  }

  /** Summing the records of one type, split off the last record. */
  lemma SumOfKindLast(s: seq<Transaction>, kind: TxType)
    requires s != []
    ensures SumAmounts(OfKind(s, kind))
         == SumAmounts(OfKind(s[..|s| - 1], kind)) + if s[|s| - 1].kind == kind then s[|s| - 1].amount else 0.0
  {
    var init, t := s[..|s| - 1], s[|s| - 1];
    assert s == init + [t];
    OfKindAppend(init, [t], kind);
    KeepCons(t, [], (x: Transaction) => x.kind == kind);
    assert [t] + [] == [t];
    SumAppend(OfKind(init, kind), OfKind([t], kind));
  }

  /** `stats` over `filteredTx` and `balance = totalIncome - totalExpense`. */
  function Summarize(txs: seq<Transaction>, ctx: Context): (s: Summary)
    ensures s.totalIncome == SumAmounts(OfKind(InContext(txs, ctx), Income))
    ensures s.totalExpense == SumAmounts(OfKind(InContext(txs, ctx), Expense))
    ensures s.balance == s.totalIncome - s.totalExpense
    ensures (forall t | t in txs :: t.context != ctx) ==> s == Summary(0.0, 0.0, 0.0)
  {
    var filtered := InContext(txs, ctx);
    TallyIsSums(filtered);
    EmptyView(txs, ctx);
    var totals := Tally(filtered);
    Summary(totals.totalIncome, totals.totalExpense, totals.totalIncome - totals.totalExpense)
  }

  // ---------------------------------------------------------------------------
  // The category breakdown, specified

  predicate Distinct(s: seq<string>)
  {
    forall i, j :: 0 <= i < j < |s| ==> s[i] != s[j]
  }

  /** The distinct categories of `s`, each at the place where it first occurs. */
  function FirstSeen(s: seq<Transaction>): (r: seq<string>)
    ensures Distinct(r)
  {
    if s == [] then []
    else
      var seen := FirstSeen(s[..|s| - 1]);
      var last := s[|s| - 1];
      if last.category in seen then seen else seen + [last.category]
  }

  /** The breakdown names exactly the categories that occur in `s`. */
  lemma {:induction false} FirstSeenMembers(s: seq<Transaction>)
    ensures forall c :: c in FirstSeen(s) <==> exists i :: 0 <= i < |s| && s[i].category == c
  {
    if s != [] {
      var init := s[..|s| - 1];
      FirstSeenMembers(init);
      assert forall i :: 0 <= i < |init| ==> init[i] == s[i];
    }
  }

  /** The position of the first record of `s` whose category is `c`, or `|s|` if there is none. */
  function FirstIndex(s: seq<Transaction>, c: string): (k: nat)
    ensures k <= |s|
    ensures k < |s| ==> s[k].category == c
    ensures forall i :: 0 <= i < k ==> s[i].category != c
  {
    if s == [] then 0
    else if s[0].category == c then 0
    else FirstIndex(s[1..], c) + 1
  }

  /** The sum of the amounts of the records of `s` in category `c`. */
  function CategoryTotal(s: seq<Transaction>, c: string): real
  {
    if s == [] then 0.0
    else
      var last := s[|s| - 1];
      CategoryTotal(s[..|s| - 1], c) + if last.category == c then last.amount else 0.0
  }

  lemma CategoryTotalStep(s: seq<Transaction>, t: Transaction, c: string)
    ensures CategoryTotal(s + [t], c) == CategoryTotal(s, c) + (if t.category == c then t.amount else 0.0)
  {
    assert (s + [t])[..|s|] == s;
  }

  /** A category that does not occur totals zero. */
  lemma {:induction false} CategoryTotalAbsent(s: seq<Transaction>, c: string)
    requires c !in FirstSeen(s)
    ensures CategoryTotal(s, c) == 0.0
  {
    if s != [] {
      CategoryTotalAbsent(s[..|s| - 1], c);
    }
  }

  /** The category total is the sum of the amounts of the records filtered by that category. */
  lemma {:induction false} CategoryTotalIsFilteredSum(s: seq<Transaction>, c: string)
    ensures CategoryTotal(s, c) == SumAmounts(Keep(s, (t: Transaction) => t.category == c))
  {
    if s != [] {
      var init, last := s[..|s| - 1], s[|s| - 1];
      var p := (t: Transaction) => t.category == c;
      assert s == init + [last];
      CategoryTotalIsFilteredSum(init, c);
      KeepAppend(init, [last], p);
      KeepCons(last, [], p);
      assert [last] + [] == [last];
      SumAppend(Keep(init, p), Keep([last], p));
    }
  }

  /** The sum of the category totals of `names`. */
  function SumTotals(names: seq<string>, s: seq<Transaction>): real
  {
    if names == [] then 0.0
    else SumTotals(names[..|names| - 1], s) + CategoryTotal(s, names[|names| - 1])
  }

  /** A new record adds its amount to the sum of the totals of distinct names exactly when its category is one of them. */
  lemma {:induction false} SumTotalsStep(names: seq<string>, s: seq<Transaction>, t: Transaction)
    requires Distinct(names)
    ensures SumTotals(names, s + [t]) == SumTotals(names, s) + (if t.category in names then t.amount else 0.0)
  {
    if names != [] {
      var init, c := names[..|names| - 1], names[|names| - 1];
      assert names == init + [c];
      assert Distinct(init);
      SumTotalsStep(init, s, t);
      CategoryTotalStep(s, t, c);
      assert t.category in names <==> t.category in init || t.category == c;
      assert c !in init;
    }
  }

  /**
   * The breakdown's values add up to the total expense: every amount is
   * counted under exactly one category.
   */
  lemma {:induction false} BreakdownAddsUp(s: seq<Transaction>)
    ensures SumTotals(FirstSeen(s), s) == SumAmounts(s)
  {
    if s != [] {
      var init, t := s[..|s| - 1], s[|s| - 1];
      assert s == init + [t];
      BreakdownAddsUp(init);
      SumAppend(init, [t]);
      var seen := FirstSeen(init);
      SumTotalsStep(seen, init, t);
      if t.category !in seen {
        assert FirstSeen(s) == seen + [t.category];
        CategoryTotalStep(init, t, t.category);
        CategoryTotalAbsent(init, t.category);
      }
    }
  }

  /** Appending a record does not move the first occurrence of a category already present. */
  lemma FirstIndexExtend(s: seq<Transaction>, t: Transaction, c: string)
    requires FirstIndex(s, c) < |s|
    ensures FirstIndex(s + [t], c) == FirstIndex(s, c)
  {
    var k := FirstIndex(s, c);
    assert (s + [t])[k] == s[k];
  }

  /** A category absent from `s` first occurs at the record appended after it. */
  lemma FirstIndexNew(s: seq<Transaction>, t: Transaction)
    requires t.category !in FirstSeen(s)
    ensures FirstIndex(s + [t], t.category) == |s|
  {
    FirstSeenMembers(s);
  }

  /** The breakdown of one more record: its category is added at the end unless already listed. */
  lemma FirstSeenAppend(s: seq<Transaction>, t: Transaction)
    ensures FirstSeen(s + [t]) == if t.category in FirstSeen(s) then FirstSeen(s) else FirstSeen(s) + [t.category]
  {
    assert (s + [t])[..|s|] == s;
  }

  /** Every category of the breakdown occurs in `s`, and they are listed in the order of their first occurrence. */
  lemma {:induction false} FirstSeenInOrder(s: seq<Transaction>)
    ensures forall i :: 0 <= i < |FirstSeen(s)| ==> FirstIndex(s, FirstSeen(s)[i]) < |s|
    ensures forall i, j :: 0 <= i < j < |FirstSeen(s)| ==>
      FirstIndex(s, FirstSeen(s)[i]) < FirstIndex(s, FirstSeen(s)[j])
  {
    if s != [] {
      var init, t := s[..|s| - 1], s[|s| - 1];
      assert s == init + [t];
      FirstSeenInOrder(init);
      var seen := FirstSeen(init);
      forall i | 0 <= i < |seen| ensures FirstIndex(s, seen[i]) == FirstIndex(init, seen[i]) {
        FirstIndexExtend(init, t, seen[i]);
      }
      if t.category !in seen {
        FirstIndexNew(init, t);
      }
      FirstSeenAppend(init, t);
      OrderSurvivesAppend(seen, FirstSeen(s), t.category, |init|,
        (x: string) => FirstIndex(init, x), (x: string) => FirstIndex(s, x));
    }
  }

  /**
   * Names listed in increasing order of position keep that order when a new
   * name, whose position is later than all of theirs, is appended.
   */
  lemma OrderSurvivesAppend(seen: seq<string>, r: seq<string>, c: string, n: int,
                            before: string -> int, after: string -> int)
    requires forall i :: 0 <= i < |seen| ==> before(seen[i]) < n
    requires forall i, j :: 0 <= i < j < |seen| ==> before(seen[i]) < before(seen[j])
    requires forall i :: 0 <= i < |seen| ==> after(seen[i]) == before(seen[i])
    requires r == if c in seen then seen else seen + [c]
    requires c !in seen ==> after(c) == n
    ensures forall i :: 0 <= i < |r| ==> after(r[i]) < n + 1
    ensures forall i, j :: 0 <= i < j < |r| ==> after(r[i]) < after(r[j])
  {
  }

  // ---------------------------------------------------------------------------
  // The category breakdown, computed as chartData does

  /** One key/value pair of the `Map<string, number>` that collects the breakdown. */
  datatype Entry = Entry(name: string, value: real)

  /** The keys of the map, in insertion order. */
  function Names(m: seq<Entry>): (r: seq<string>)
    ensures |r| == |m|
    ensures forall j :: 0 <= j < |m| ==> r[j] == m[j].name
  {
    if m == [] then [] else [m[0].name] + Names(m[1..])
  }

  /** `map.get(name)`. */
  function Lookup(m: seq<Entry>, name: string): (r: Option<real>)
    ensures r.None? <==> name !in Names(m)
  {
    if m == [] then None
    else if m[0].name == name then Some(m[0].value)
    else
      assert Names(m) == [m[0].name] + Names(m[1..]);
      Lookup(m[1..], name)
  }

  /** With distinct keys, `map.get` of the key at position `k` yields the value stored there. */
  lemma {:induction false} LookupAt(m: seq<Entry>, k: nat)
    requires Distinct(Names(m))
    requires k < |m|
    ensures Lookup(m, m[k].name) == Some(m[k].value)
  {
    if k > 0 {
      assert Names(m)[0] != Names(m)[k];
      assert Names(m[1..]) == Names(m)[1..];
      LookupAt(m[1..], k - 1);
    }
  }

  /** A key of the map has a position. */
  lemma NameIndex(m: seq<Entry>, name: string) returns (k: nat)
    requires name in Names(m)
    ensures k < |m| && m[k].name == name
  {
    var names := Names(m);
    k :| 0 <= k < |names| && names[k] == name;
  }

  /**
   * `map.set(name, value)` on a map whose keys are distinct: an existing key
   * keeps its place and takes the new value, a new key goes last.
   */
  function SetEntry(m: seq<Entry>, name: string, value: real): seq<Entry>
  {
    if name in Names(m) then
      seq(|m|, j requires 0 <= j < |m| => if m[j].name == name then Entry(name, value) else m[j])
    else m + [Entry(name, value)]
  }

  /** Setting a key adds it to the keys only when it is new, and then at the end. */
  lemma SetEntryNames(m: seq<Entry>, name: string, value: real)
    ensures Names(SetEntry(m, name, value)) == if name in Names(m) then Names(m) else Names(m) + [name]
  {
  }

  /** Adding up slice values from the first to the last. */
  function SliceTotal(data: seq<PieSlice>): real
  {
    if data == [] then 0.0 else SliceTotal(data[..|data| - 1]) + data[|data| - 1].value
  }

  lemma {:induction false} SliceTotalIsSumTotals(data: seq<PieSlice>, names: seq<string>, s: seq<Transaction>)
    requires |data| == |names|
    requires forall j :: 0 <= j < |data| ==> data[j].value == CategoryTotal(s, names[j])
    ensures SliceTotal(data) == SumTotals(names, s)
  {
    if data != [] {
      SliceTotalIsSumTotals(data[..|data| - 1], names[..|names| - 1], s);
    }
  }

  /** The map holds, for each category of `prefix` in order of first occurrence, its running total. */
  predicate Collects(m: seq<Entry>, prefix: seq<Transaction>)
  {
    && Names(m) == FirstSeen(prefix)
    && forall j :: 0 <= j < |m| ==> m[j].value == CategoryTotal(prefix, m[j].name)
  }

  /** `map.set(t.category, (map.get(t.category) || 0) + t.amount)` keeps the map in step with one more record. */
  lemma CollectsStep(m: seq<Entry>, prefix: seq<Transaction>, t: Transaction)
    requires Collects(m, prefix)
    ensures Collects(Step(m, t), prefix + [t])
  {
    if t.category in Names(m) {
      CollectsKnown(m, prefix, t);
    } else {
      CollectsNew(m, prefix, t);
    }
  }

  /** A record of a category already in the map adds its amount to that entry and leaves the others alone. */
  lemma CollectsKnown(m: seq<Entry>, prefix: seq<Transaction>, t: Transaction)
    requires Collects(m, prefix)
    requires t.category in Names(m)
    ensures Collects(Step(m, t), prefix + [t])
  {
    KnownTotal(m, prefix, t);
    OtherTotalsUnchanged(prefix, t);
    FirstSeenAppend(prefix, t);
    ValuesAfterSet(m, prefix, t);
  }

  /** The value read from the map plus the new amount is the category's new total. */
  lemma KnownTotal(m: seq<Entry>, prefix: seq<Transaction>, t: Transaction)
    requires Collects(m, prefix)
    requires t.category in Names(m)
    ensures GetOr(Lookup(m, t.category), 0.0) + t.amount == CategoryTotal(prefix + [t], t.category)
  {
    var k := NameIndex(m, t.category);
    LookupAt(m, k);
    CategoryTotalStep(prefix, t, t.category);
  }

  /** A record leaves the totals of the other categories alone. */
  lemma OtherTotalsUnchanged(prefix: seq<Transaction>, t: Transaction)
    ensures forall c :: c != t.category ==> CategoryTotal(prefix + [t], c) == CategoryTotal(prefix, c)
  {
    forall c | c != t.category
      ensures CategoryTotal(prefix + [t], c) == CategoryTotal(prefix, c)
    {
      CategoryTotalStep(prefix, t, c);
    }
  }

  /** Replacing the value of a known key by the new total of its category keeps every entry equal to its category total. */
  lemma ValuesAfterSet(m: seq<Entry>, prefix: seq<Transaction>, t: Transaction)
    requires t.category in Names(m)
    requires Names(m) == FirstSeen(prefix + [t])
    requires forall j :: 0 <= j < |m| ==> m[j].value == CategoryTotal(prefix, m[j].name)
    requires GetOr(Lookup(m, t.category), 0.0) + t.amount == CategoryTotal(prefix + [t], t.category)
    requires forall c :: c != t.category ==> CategoryTotal(prefix + [t], c) == CategoryTotal(prefix, c)
    ensures Collects(Step(m, t), prefix + [t])
  {
    StepKnownNames(m, t);
    StepKnownValues(m, prefix, t);
  }

  lemma StepKnownNames(m: seq<Entry>, t: Transaction)
    requires t.category in Names(m)
    ensures Names(Step(m, t)) == Names(m)
  {
    SetEntryNames(m, t.category, GetOr(Lookup(m, t.category), 0.0) + t.amount);
  }

  lemma StepKnownValues(m: seq<Entry>, prefix: seq<Transaction>, t: Transaction)
    requires t.category in Names(m)
    requires forall j :: 0 <= j < |m| ==> m[j].value == CategoryTotal(prefix, m[j].name)
    requires GetOr(Lookup(m, t.category), 0.0) + t.amount == CategoryTotal(prefix + [t], t.category)
    requires forall c :: c != t.category ==> CategoryTotal(prefix + [t], c) == CategoryTotal(prefix, c)
    ensures forall j :: 0 <= j < |Step(m, t)| ==> Step(m, t)[j].value == CategoryTotal(prefix + [t], Step(m, t)[j].name)
  {
    var c, v := t.category, GetOr(Lookup(m, t.category), 0.0) + t.amount;
    SetEntryKnown(m, c, v);
    OverwriteKeepsTotals(m, SetEntry(m, c, v), c, (x: string) => CategoryTotal(prefix, x), (x: string) => CategoryTotal(prefix + [t], x));
  }

  /** Setting a known key keeps the length and changes only that key's entry. */
  lemma SetEntryKnown(m: seq<Entry>, name: string, value: real)
    requires name in Names(m)
    ensures |SetEntry(m, name, value)| == |m|
    ensures forall j :: 0 <= j < |m| ==>
      SetEntry(m, name, value)[j] == if m[j].name == name then Entry(name, value) else m[j]
  {
  }

  /**
   * When one key's total changes from `before` to `after` and the others stay,
   * writing the new total into that key's entry brings every entry up to date.
   */
  lemma OverwriteKeepsTotals(m: seq<Entry>, m': seq<Entry>, c: string, before: string -> real, after: string -> real)
    requires |m'| == |m|
    requires forall j :: 0 <= j < |m| ==> m'[j] == if m[j].name == c then Entry(c, after(c)) else m[j]
    requires forall j :: 0 <= j < |m| ==> m[j].value == before(m[j].name)
    requires forall x :: x != c ==> after(x) == before(x)
    ensures forall j :: 0 <= j < |m'| ==> m'[j].value == after(m'[j].name)
  {
  }

  /** A record of a new category opens an entry at the end holding its amount. */
  lemma CollectsNew(m: seq<Entry>, prefix: seq<Transaction>, t: Transaction)
    requires Collects(m, prefix)
    requires t.category !in Names(m)
    ensures Collects(Step(m, t), prefix + [t])
  {
    FirstSeenAppend(prefix, t);
    CategoryTotalAbsent(prefix, t.category);
    CategoryTotalStep(prefix, t, t.category);
    OtherTotalsUnchanged(prefix, t);
    StepNewNames(m, t);
    StepNewValues(m, prefix, t);
  }

  lemma StepNewNames(m: seq<Entry>, t: Transaction)
    requires t.category !in Names(m)
    ensures Names(Step(m, t)) == Names(m) + [t.category]
  {
    SetEntryNames(m, t.category, GetOr(Lookup(m, t.category), 0.0) + t.amount);
  }

  lemma StepNewValues(m: seq<Entry>, prefix: seq<Transaction>, t: Transaction)
    requires t.category !in Names(m)
    requires forall j :: 0 <= j < |m| ==> m[j].value == CategoryTotal(prefix, m[j].name)
    requires CategoryTotal(prefix + [t], t.category) == t.amount
    requires forall c :: c != t.category ==> CategoryTotal(prefix + [t], c) == CategoryTotal(prefix, c)
    ensures forall j :: 0 <= j < |Step(m, t)| ==> Step(m, t)[j].value == CategoryTotal(prefix + [t], Step(m, t)[j].name)
  {
    var c := t.category;
    assert Step(m, t) == m + [Entry(c, t.amount)];
    forall j | 0 <= j < |m| ensures m[j].name != c {
      assert Names(m)[j] == m[j].name;
    }
  }

  /** One iteration of the `forEach`: `map.set(t.category, (map.get(t.category) || 0) + t.amount)`. */
  function Step(m: seq<Entry>, t: Transaction): seq<Entry>
  {
    SetEntry(m, t.category, GetOr(Lookup(m, t.category), 0.0) + t.amount)
  }

  lemma CollectsNext(m: seq<Entry>, s: seq<Transaction>, i: nat)
    requires i < |s|
    requires Collects(m, s[..i])
    ensures Collects(Step(m, s[i]), s[..i + 1])
  {
    var prefix, next := s[..i], s[..i + 1];
    assert next == prefix + [s[i]];
    CollectsStep(m, prefix, s[i]);
  }

  /** After the loop, the map's entries become the chart. */
  lemma ChartFromMap(m: seq<Entry>, s: seq<Transaction>)
    requires Collects(m, s[..|s|])
    ensures Breakdown(Slices(m), s)
    ensures SliceTotal(Slices(m)) == SumAmounts(s)
  {
    assert s[..|s|] == s;
    SlicesAddUp(m, s);
    SlicesBreakdown(m, s);
  }

  /** `value || 0` on the result of `map.get`. */
  function GetOr(r: Option<real>, default: real): real
  {
    if r.Some? then r.value else default
  }

  /** `Array.from(map.entries()).map(([name, value], index) => ...)`. */
  function Slices(m: seq<Entry>): (data: seq<PieSlice>)
    ensures |data| == |m|
    ensures forall j :: 0 <= j < |m| ==>
      data[j] == PieSlice(m[j].name, m[j].value, ChartColors[j % |ChartColors|])
  {
    seq(|m|, j requires 0 <= j < |m| => PieSlice(m[j].name, m[j].value, ChartColors[j % |ChartColors|]))
  }

  /** The slices built from a map that collects all of `s` add up to the sum of `s`. */
  lemma SlicesAddUp(m: seq<Entry>, s: seq<Transaction>)
    requires Collects(m, s)
    ensures SliceTotal(Slices(m)) == SumAmounts(s)
  {
    SliceTotalIsSumTotals(Slices(m), Names(m), s);
    BreakdownAddsUp(s);
  }

  /**
   * The chart for the expense records `s`: one slice per category in order of
   * first occurrence, each holding that category's total and the palette colour
   * of its position.
   */
  predicate Breakdown(data: seq<PieSlice>, s: seq<Transaction>)
  {
    && |data| == |FirstSeen(s)|
    && (forall j :: 0 <= j < |data| ==> data[j].name == FirstSeen(s)[j])
    && (forall j :: 0 <= j < |data| ==> data[j].value == CategoryTotal(s, data[j].name))
    && (forall j :: 0 <= j < |data| ==> data[j].color == ChartColors[j % |ChartColors|])
  }

  lemma SlicesBreakdown(m: seq<Entry>, s: seq<Transaction>)
    requires Collects(m, s)
    ensures Breakdown(Slices(m), s)
  {
  }

  /** The slices of a breakdown have distinct names and together cover every category of `s`. */
  lemma BreakdownCovers(data: seq<PieSlice>, s: seq<Transaction>)
    requires Breakdown(data, s)
    ensures forall i, j :: 0 <= i < j < |data| ==> data[i].name != data[j].name
    ensures forall t :: t in s ==> exists j :: 0 <= j < |data| && data[j].name == t.category
  {
    forall t | t in s
      ensures exists j :: 0 <= j < |data| && data[j].name == t.category
    {
      var i :| 0 <= i < |s| && s[i] == t;
      FirstSeenMembers(s);
      var names := FirstSeen(s);
      assert t.category in names;
      var j :| 0 <= j < |names| && names[j] == t.category;
      assert data[j].name == t.category;
    }
  }

  /**
   * `chartData`: the expense records of `filtered` are folded into a map from
   * category to running total, whose entries become the chart's slices with
   * palette colours assigned by position.
   */
  method ChartData(filtered: seq<Transaction>) returns (data: seq<PieSlice>)
    ensures Breakdown(data, OfKind(filtered, Expense))
    ensures SliceTotal(data) == SumAmounts(OfKind(filtered, Expense))
  {
    var expenses := OfKind(filtered, Expense);
    var m: seq<Entry> := [];
    for i := 0 to |expenses|
      invariant Collects(m, expenses[..i])
    {
      CollectsNext(m, expenses, i);
      m := Step(m, expenses[i]);
    }
    ChartFromMap(m, expenses);
    data := Slices(m);
  }

  /** An income record anywhere in the list, including the head where a new record goes, changes neither the categories nor the values of the breakdown. */
  lemma IncomeIgnoredByBreakdown(a: seq<Transaction>, t: Transaction, b: seq<Transaction>)
    requires t.kind == Income
    ensures OfKind(a + [t] + b, Expense) == OfKind(a + b, Expense)
    ensures FirstSeen(OfKind(a + [t] + b, Expense)) == FirstSeen(OfKind(a + b, Expense))
  {
    OfKindAppend(a + [t], b, Expense);
    OfKindAppend(a, [t], Expense);
    OfKindAppend(a, b, Expense);
    KeepCons(t, [], (x: Transaction) => x.kind == Expense);
    assert [t] + [] == [t];
  }

  // ---------------------------------------------------------------------------
  // The insights trigger

  /** The insights button is disabled while a request is outstanding or when the context has no records. */
  function InsightsDisabled(loading: bool, txs: seq<Transaction>, ctx: Context): (r: bool)
    ensures r <==> loading || forall t | t in txs :: t.context != ctx
  {
    EmptyView(txs, ctx);
    loading || |InContext(txs, ctx)| == 0
  }
}
