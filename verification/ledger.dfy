/** The dashboard of `src/pages/Home.jsx`: one user's ledger of expenses and
    budget, the totals derived from them, the category summary, the bucketed
    chart series and the CSV report. */
module Ledger {
  import opened Common
  import opened Records
  import opened Storage

  // ---------------------------------------------------------------------------
  // Budget and totals
  // ---------------------------------------------------------------------------

  /** The budget state: `""` (unset) or a number. */
  datatype BudgetValue = Unset | Amount(n: Number)

  /** `budget !== "" ? parseFloat(budget) : 0`. */
  function CurrentBudget(b: BudgetValue): Number
  {
    match b
    case Unset => Num(0.0)
    case Amount(n) => n
  }

  /** `parseFloat(e.amount)` of every record, in ledger order. */
  function Amounts(es: seq<Expense>): (xs: seq<Number>)
    ensures |xs| == |es|
    ensures forall i :: 0 <= i < |es| ==> xs[i] == AmountOf(es[i])
  {
    seq(|es|, i requires 0 <= i < |es| => AmountOf(es[i]))
  }

  /** `expenses.reduce((sum, e) => sum + parseFloat(e.amount), 0)`: a
      number exactly when every amount parses, NaN otherwise. */
  function Total(es: seq<Expense>): (r: Number)
    ensures r.Num? <==> AllParse(es)
  {
    SumSeqNum(Amounts(es));
    SumSeq(Amounts(es))
  }

  /** `parseFloat(value) || 0`: NaN (and 0) read as 0. */
  function Coerced(value: string): real
  {
    var n := ParseFloat(value);
    if n.Num? then n.value else 0.0
  }

  /** The warning of `addExpense`: a positive budget that the old total plus
      the new amount exceeds. */
  predicate OverBudget(es: seq<Expense>, b: BudgetValue, amount: string)
  {
    Greater(CurrentBudget(b), Num(0.0)) && Greater(Add(Total(es), ParseFloat(amount)), CurrentBudget(b))
  }

  /** The warning fires only for a positive budget, a ledger whose amounts
      all parse and a new amount that parses, whose sum exceeds the budget:
      an unset budget or a single NaN amount silences it. */
  lemma OverBudgetIff(es: seq<Expense>, b: BudgetValue, amount: string)
    ensures OverBudget(es, b, amount) <==>
      && CurrentBudget(b).Num? && CurrentBudget(b).value > 0.0
      && AllParse(es) && ParseFloat(amount).Num?
      && Total(es).value + ParseFloat(amount).value > CurrentBudget(b).value
  {
  }

  /** `{ ...expense, id }`. */
  function Record(d: Draft, id: int): (e: Expense)
    requires d.date.Some?
  {
    Expense(id, d.amount, d.category, d.date.value, d.description)
  }

  // ---------------------------------------------------------------------------
  // Grouping: the dictionaries filled by getCategorySummary and getChartData
  // ---------------------------------------------------------------------------

  datatype ViewType = Monthly | Weekly

  function ViewName(v: ViewType): string
  {
    match v
    case Monthly => "monthly"
    case Weekly => "weekly"
  }

  /** What a dictionary is keyed by. */
  datatype Key = ByCategory | ByMonth | ByWeek

  function ViewKey(v: ViewType): Key
  {
    match v
    case Monthly => ByMonth
    case Weekly => ByWeek
  }

  /** `toLocaleString("default", { month: "long" })`, in English. */
  function MonthName(month: nat): string
  {
    if month == 1 then "January" else if month == 2 then "February"
    else if month == 3 then "March" else if month == 4 then "April"
    else if month == 5 then "May" else if month == 6 then "June"
    else if month == 7 then "July" else if month == 8 then "August"
    else if month == 9 then "September" else if month == 10 then "October"
    else if month == 11 then "November" else "December"
  }

  /** `Week ${Math.ceil(day / 7)}`: weeks count from the first of the month. */
  function WeekLabel(day: nat): string
  {
    "Week " + NatToString((day + 6) / 7)
  }

  function KeyOf(kind: Key, e: Expense): string
  {
    match kind
    case ByCategory => e.category
    case ByMonth => MonthName(e.date.month)
    case ByWeek => WeekLabel(e.date.day)
  }

  /** The key of every record, in ledger order (duplicates included). */
  function KeysOf(es: seq<Expense>, kind: Key): (ks: seq<string>)
    ensures |ks| == |es|
    ensures forall i :: 0 <= i < |es| ==> ks[i] == KeyOf(kind, es[i])
  {
    seq(|es|, i requires 0 <= i < |es| => KeyOf(kind, es[i]))
  }

  /** A JavaScript object filled by `data[key] = ...`: its keys in insertion
      order and its entries. */
  datatype Grouping = Grouping(keys: seq<string>, totals: map<string, Number>)

  ghost predicate WellFormed(g: Grouping)
  {
    Distinct(g.keys) && forall k :: k in g.totals <==> k in g.keys
  }

  /** One step of the `forEach`: `data[k] = (data[k] || 0) + x`. */
  function Bump(g: Grouping, k: string, x: Number): Grouping
  {
    Grouping(if k in g.totals then g.keys else g.keys + [k],
             g.totals[k := Add(OrZero(if k in g.totals then Some(g.totals[k]) else None), x)])
  }

  /** The dictionary after `data[ks[i]] = (data[ks[i]] || 0) + xs[i]` for each
      i in turn. Its keys, in first-occurrence order, are exactly the distinct
      elements of `ks`. */
  function Accumulate(ks: seq<string>, xs: seq<Number>): (g: Grouping)
    requires |ks| == |xs|
    ensures WellFormed(g)
    ensures forall k :: k in g.keys <==> k in ks
  {
    if ks == [] then Grouping([], map[])
    else
      var n := |ks| - 1;
      assert ks == ks[..n] + [ks[n]];
      Bump(Accumulate(ks[..n], xs[..n]), ks[n], xs[n])
  }

  lemma AccumulateStep(ks: seq<string>, xs: seq<Number>, i: nat)
    requires |ks| == |xs| && i < |ks|
    ensures Accumulate(ks[..i + 1], xs[..i + 1]) == Bump(Accumulate(ks[..i], xs[..i]), ks[i], xs[i])
  {
    TakeSnoc(ks, i);
    TakeSnoc(xs, i);
  }

  /** `Object.keys` of the dictionary lists each key at its first
      occurrence: the keys come in the order the `forEach` first meets them. */
  lemma {:induction false} AccumulateOrder(ks: seq<string>, xs: seq<Number>)
    requires |ks| == |xs|
    ensures FirstOccurrenceOrder(Accumulate(ks, xs).keys, ks)
  {
    if ks != [] {
      var n := |ks| - 1;
      var g0 := Accumulate(ks[..n], xs[..n]);
      AccumulateOrder(ks[..n], xs[..n]);
      assert ks == ks[..n] + [ks[n]];
      if ks[n] in g0.totals {
        OrderSnocOld(g0.keys, ks[..n], ks[n]);
      } else {
        OrderSnocNew(g0.keys, ks[..n], ks[n]);
      }
    }
  }

  /** The dictionary filled by the `forEach` over `es`, keyed by `kind`. */
  function GroupBy(es: seq<Expense>, kind: Key): (g: Grouping)
    ensures WellFormed(g)
    ensures forall k :: k in g.keys <==> k in KeysOf(es, kind)
  {
    Accumulate(KeysOf(es, kind), Amounts(es))
  }

  /** The summary's and the chart's keys come in the order of the records
      that first carry them. */
  lemma GroupOrder(es: seq<Expense>, kind: Key)
    ensures FirstOccurrenceOrder(GroupBy(es, kind).keys, KeysOf(es, kind))
  {
    AccumulateOrder(KeysOf(es, kind), Amounts(es));
  }

  /** `Object.values(data)`. */
  function Values(keys: seq<string>, m: map<string, Number>): (vs: seq<Number>)
    requires forall k :: k in keys ==> k in m
    ensures |vs| == |keys|
    ensures forall i :: 0 <= i < |keys| ==> vs[i] == m[keys[i]]
  {
    seq(|keys|, i requires 0 <= i < |keys| => m[keys[i]])
  }

  predicate AllNum(xs: seq<Number>)
  {
    forall i :: 0 <= i < |xs| ==> xs[i].Num?
  }

  lemma {:induction false} AccumulateNumbers(ks: seq<string>, xs: seq<Number>)
    requires |ks| == |xs| && AllNum(xs)
    ensures forall k :: k in Accumulate(ks, xs).totals ==> Accumulate(ks, xs).totals[k].Num?
  {
    if ks != [] {
      var n := |ks| - 1;
      AccumulateNumbers(ks[..n], xs[..n]);
    }
  }

  lemma {:induction false} ValuesOutside(keys: seq<string>, m: map<string, Number>, k: string, v: Number)
    requires forall x :: x in keys ==> x in m
    requires k !in keys
    ensures Values(keys, m[k := v]) == Values(keys, m)
  {
  }

  lemma {:induction false} ValuesSnoc(keys: seq<string>, m: map<string, Number>)
    requires keys != [] && forall x :: x in keys ==> x in m
    ensures Values(keys, m) == Values(keys[..|keys| - 1], m) + [m[keys[|keys| - 1]]]
  {
  }

  /** Adding `a` to one element of a list of numbers adds `a` to its sum. */
  lemma {:induction false} SumSeqBumpAt(xs: seq<Number>, ys: seq<Number>, p: nat, a: real)
    requires |xs| == |ys| && p < |xs|
    requires forall i :: 0 <= i < |xs| ==> xs[i].Num?
    requires ys[p] == Add(xs[p], Num(a))
    requires forall i :: 0 <= i < |xs| && i != p ==> ys[i] == xs[i]
    ensures SumSeq(ys) == Add(SumSeq(xs), Num(a))
    decreases |xs|
  {
    var n := |xs| - 1;
    SumSeqNum(xs[..n]);
    if p == n {
      assert xs[..n] == ys[..n];
    } else {
      SumSeqBumpAt(xs[..n], ys[..n], p, a);
    }
  }

  /** Adding `a` to an entry the key list holds once adds `a` to the sum. */
  lemma SumBump(keys: seq<string>, m: map<string, Number>, k: string, a: real)
    requires Distinct(keys) && k in keys
    requires forall x :: x in keys ==> x in m && m[x].Num?
    ensures SumSeq(Values(keys, m[k := Add(m[k], Num(a))])) == Add(SumSeq(Values(keys, m)), Num(a))
  {
    var m' := m[k := Add(m[k], Num(a))];
    var p := FirstIndex(keys, k);
    var xs, ys := Values(keys, m), Values(keys, m');
    forall i | 0 <= i < |keys| && i != p
      ensures ys[i] == xs[i]
    {
      assert keys[i] != k;
    }
    SumSeqBumpAt(xs, ys, p, a);
  }

  /** One step of the `forEach` adds its amount to the sum of the entries. */
  lemma BumpSum(g: Grouping, k: string, x: Number)
    requires WellFormed(g) && x.Num?
    requires forall y :: y in g.totals ==> g.totals[y].Num?
    ensures SumSeq(Values(Bump(g, k, x).keys, Bump(g, k, x).totals)) == Add(SumSeq(Values(g.keys, g.totals)), x)
  {
    var b := Bump(g, k, x);
    if k in g.totals {
      assert b.totals == g.totals[k := Add(g.totals[k], Num(x.value))];
      SumBump(g.keys, g.totals, k, x.value);
    } else {
      ValuesSnoc(b.keys, b.totals);
      assert b.keys[..|b.keys| - 1] == g.keys;
      ValuesOutside(g.keys, g.totals, k, b.totals[k]);
      SumSeqSnoc(Values(g.keys, b.totals), b.totals[k]);
    }
  }

  /** The entries of the dictionary add up to the sum of everything added. */
  lemma {:induction false} AccumulateSum(ks: seq<string>, xs: seq<Number>)
    requires |ks| == |xs| && AllNum(xs)
    ensures SumSeq(Values(Accumulate(ks, xs).keys, Accumulate(ks, xs).totals)) == SumSeq(xs)
  {
    if ks != [] {
      var n := |ks| - 1;
      var g0 := Accumulate(ks[..n], xs[..n]);
      assert AllNum(xs[..n]);
      AccumulateSum(ks[..n], xs[..n]);
      AccumulateNumbers(ks[..n], xs[..n]);
      BumpSum(g0, ks[n], xs[n]);
    }
  }

  /** The sum of the `xs[i]` whose key `ks[i]` is `k`. */
  function SumWhere(ks: seq<string>, xs: seq<Number>, k: string): Number
    requires |ks| == |xs|
  {
    if ks == [] then Num(0.0)
    else
      var n := |ks| - 1;
      Add(SumWhere(ks[..n], xs[..n], k), if ks[n] == k then xs[n] else Num(0.0))
  }

  /** Each entry of the dictionary is the sum of the values added under its key. */
  lemma {:induction false} AccumulateEntry(ks: seq<string>, xs: seq<Number>, k: string)
    requires |ks| == |xs| && AllNum(xs)
    ensures k in Accumulate(ks, xs).totals ==> Accumulate(ks, xs).totals[k] == SumWhere(ks, xs, k)
  {
    if ks != [] {
      var n := |ks| - 1;
      var g0 := Accumulate(ks[..n], xs[..n]);
      assert AllNum(xs[..n]);
      AccumulateEntry(ks[..n], xs[..n], k);
      AccumulateNumbers(ks[..n], xs[..n]);
      if k !in g0.totals {
        SumWhereAbsent(ks[..n], xs[..n], k);
      }
    }
  }

  lemma {:induction false} SumWhereAbsent(ks: seq<string>, xs: seq<Number>, k: string)
    requires |ks| == |xs| && k !in ks
    ensures SumWhere(ks, xs, k) == Num(0.0)
  {
    if ks != [] {
      var n := |ks| - 1;
      assert k !in ks[..n];
      SumWhereAbsent(ks[..n], xs[..n], k);
    }
  }

  lemma PrefixViews(es: seq<Expense>, kind: Key, n: nat)
    requires n <= |es|
    ensures KeysOf(es, kind)[..n] == KeysOf(es[..n], kind)
    ensures Amounts(es)[..n] == Amounts(es[..n])
  {
  }

  /** Sum invariant: when every amount parses, the dictionary's values add up
      to `totalSpent`. */
  lemma GroupSum(es: seq<Expense>, kind: Key)
    requires AllParse(es)
    ensures SumSeq(Values(GroupBy(es, kind).keys, GroupBy(es, kind).totals)) == Total(es)
  {
    AccumulateSum(KeysOf(es, kind), Amounts(es));
  }

  /** The records of `es` whose key is `k`, in ledger order. */
  function WithKey(es: seq<Expense>, kind: Key, k: string): seq<Expense>
  {
    Filter(es, (e: Expense) => KeyOf(kind, e) == k)
  }

  lemma KeysSnoc(es: seq<Expense>, kind: Key, e: Expense)
    ensures KeysOf(es + [e], kind) == KeysOf(es, kind) + [KeyOf(kind, e)]
  {
  }

  lemma TotalSnoc(es: seq<Expense>, e: Expense)
    ensures Total(es + [e]) == Add(Total(es), AmountOf(e))
  {
    assert Amounts(es + [e]) == Amounts(es) + [AmountOf(e)];
    SumSeqSnoc(Amounts(es), AmountOf(e));
  }

  lemma SumWhereSnoc(es: seq<Expense>, kind: Key, e: Expense, k: string)
    ensures SumWhere(KeysOf(es + [e], kind), Amounts(es + [e]), k)
         == Add(SumWhere(KeysOf(es, kind), Amounts(es), k), if KeyOf(kind, e) == k then AmountOf(e) else Num(0.0))
  {
    PrefixViews(es + [e], kind, |es|);
    assert (es + [e])[..|es|] == es;
  }

  lemma WithKeySnoc(es: seq<Expense>, kind: Key, k: string, e: Expense)
    ensures WithKey(es + [e], kind, k) == if KeyOf(kind, e) == k then WithKey(es, kind, k) + [e] else WithKey(es, kind, k)
  {
    FilterSnoc(es, e, (x: Expense) => KeyOf(kind, x) == k);
  }

  lemma WithKeySumsStep(init: seq<Expense>, e: Expense, kind: Key, k: string)
    requires Total(WithKey(init, kind, k)) == SumWhere(KeysOf(init, kind), Amounts(init), k)
    ensures Total(WithKey(init + [e], kind, k)) == SumWhere(KeysOf(init + [e], kind), Amounts(init + [e]), k)
  {
    SumWhereSnoc(init, kind, e, k);
    WithKeySnoc(init, kind, k, e);
    if KeyOf(kind, e) == k {
      TotalSnoc(WithKey(init, kind, k), e);
    }
  }

  lemma {:induction false} WithKeySums(es: seq<Expense>, kind: Key, k: string)
    ensures Total(WithKey(es, kind, k)) == SumWhere(KeysOf(es, kind), Amounts(es), k)
  {
    if es != [] {
      var n := |es| - 1;
      var init, e := es[..n], es[n];
      assert es == init + [e];
      WithKeySums(init, kind, k);
      WithKeySumsStep(init, e, kind, k);
    }
  }

  lemma {:induction false} WithKeyNonEmpty(es: seq<Expense>, kind: Key, k: string)
    ensures WithKey(es, kind, k) != [] <==> k in KeysOf(es, kind)
  {
    if es != [] {
      var n := |es| - 1;
      var init, e := es[..n], es[n];
      assert es == init + [e];
      WithKeyNonEmpty(init, kind, k);
      KeysSnoc(init, kind, e);
    }
  }

  /** Each entry of the dictionary is the sum of the amounts of the records
      with that key, and a key no record has is absent. */
  lemma GroupEntry(es: seq<Expense>, kind: Key, k: string)
    requires AllParse(es)
    ensures k in GroupBy(es, kind).totals <==> WithKey(es, kind, k) != []
    ensures k in GroupBy(es, kind).totals ==> GroupBy(es, kind).totals[k] == Total(WithKey(es, kind, k))
  {
    AccumulateEntry(KeysOf(es, kind), Amounts(es), k);
    WithKeySums(es, kind, k);
    WithKeyNonEmpty(es, kind, k);
  }

  // ---------------------------------------------------------------------------
  // Chart series
  // ---------------------------------------------------------------------------

  /** The three parallel series handed to the chart. */
  datatype Chart = Chart(labels: seq<string>, spent: seq<Number>, budget: seq<Number>, remaining: seq<Number>)

  /** `getChartData()` for a ledger, a view and the current budget: one
      label per spent value, and a budget and a remaining series of the same
      length, the remaining one never negative. */
  function ChartOf(es: seq<Expense>, view: ViewType, budget: Number): (c: Chart)
    ensures |c.labels| == |c.spent| >= 1
    ensures |c.budget| == |c.remaining|
    ensures forall i :: 0 <= i < |c.remaining| ==> c.remaining[i].Num? && c.remaining[i].value >= 0.0
  {
    var g := GroupBy(es, ViewKey(view));
    var n := |g.keys|;
    var left := Clamp(Sub(budget, Total(es)));
    Chart(if n > 0 then g.keys else ["No Data"],
          if n > 0 then Values(g.keys, g.totals) else [Num(0.0)],
          seq(n, _ => budget),
          seq(n, _ => left))
  }

  /** The chart's series: one bucket per distinct key, in the order the
      records first carry them, each with the value collected under its key;
      a constant budget line, a constant clamped remaining line, and the
      "No Data" placeholder for an empty ledger. */
  lemma ChartSeries(es: seq<Expense>, view: ViewType, budget: Number)
    ensures var c := ChartOf(es, view, budget);
      var g := GroupBy(es, ViewKey(view));
      && (es == [] <==> c.labels == ["No Data"] && c.spent == [Num(0.0)] && c.budget == [] && c.remaining == [])
      && (es != [] ==>
            && c.labels == g.keys && Distinct(c.labels)
            && FirstOccurrenceOrder(c.labels, KeysOf(es, ViewKey(view)))
            && (forall i :: 0 <= i < |c.labels| ==> c.labels[i] in g.totals && c.spent[i] == g.totals[c.labels[i]])
            && |c.budget| == |c.labels|)
      && (forall i :: 0 <= i < |c.budget| ==> c.budget[i] == budget)
      && (forall i :: 0 <= i < |c.remaining| ==> c.remaining[i] == Clamp(Sub(budget, Total(es))))
  {
    var kind := ViewKey(view);
    var g := GroupBy(es, kind);
    var c := ChartOf(es, view, budget);
    GroupOrder(es, kind);
    if es != [] {
      ChartKeys(es, view);
      assert c.labels == g.keys && c.spent == Values(g.keys, g.totals);
    } else {
      assert g.keys == [];
    }
  }

  /** A non-empty ledger has at least one bucket, and none is called "No Data". */
  lemma ChartKeys(es: seq<Expense>, view: ViewType)
    requires es != []
    ensures GroupBy(es, ViewKey(view)).keys != []
    ensures GroupBy(es, ViewKey(view)).keys != ["No Data"]
  {
    var ks := KeysOf(es, ViewKey(view));
    assert ks[0] in ks;
    NoDataIsNoKey(view, es[0]);
    assert ks[0] != "No Data" && ks[0] in GroupBy(es, ViewKey(view)).keys;
  }

  /** When every amount parses, each bucket's value is the total of the
      records that fall in it. */
  lemma ChartBuckets(es: seq<Expense>, view: ViewType, budget: Number)
    requires es != [] && AllParse(es)
    ensures var c := ChartOf(es, view, budget);
      forall i :: 0 <= i < |c.labels| ==> c.spent[i] == Total(WithKey(es, ViewKey(view), c.labels[i]))
  {
    var c := ChartOf(es, view, budget);
    ChartSeries(es, view, budget);
    forall i | 0 <= i < |c.labels|
      ensures c.spent[i] == Total(WithKey(es, ViewKey(view), c.labels[i]))
    {
      GroupEntry(es, ViewKey(view), c.labels[i]);
    }
  }

  /** No month name and no week label is "No Data". */
  lemma NoDataIsNoKey(view: ViewType, e: Expense)
    ensures KeyOf(ViewKey(view), e) != "No Data"
  {
    var k := KeyOf(ViewKey(view), e);
    if view == Weekly {
      assert k[0] == 'W';
    } else {
      assert k[2] != ' ';
    }
  }

  /** The bucket values add up to `totalSpent` (when every amount parses). */
  lemma ChartSum(es: seq<Expense>, view: ViewType, budget: Number)
    requires AllParse(es)
    ensures SumSeq(ChartOf(es, view, budget).spent) == Total(es)
  {
    var kind := ViewKey(view);
    var g := GroupBy(es, kind);
    var c := ChartOf(es, view, budget);
    if es == [] {
      assert g.keys == [];
      assert c.spent == [Num(0.0)];
      assert SumSeq(c.spent) == Add(SumSeq([]), Num(0.0));
    } else {
      var ks := KeysOf(es, kind);
      assert ks[0] in ks;
      assert g.keys != [];
      assert c.spent == Values(g.keys, g.totals);
      GroupSum(es, kind);
    }
  }

  /** Two records of valid dates share a monthly bucket exactly when they
      fall in the same month (of whatever year). */
  lemma MonthBuckets(e1: Expense, e2: Expense)
    requires ValidDate(e1.date) && ValidDate(e2.date)
    ensures KeyOf(ByMonth, e1) == KeyOf(ByMonth, e2) <==> e1.date.month == e2.date.month
  {
  }

  /** Weeks restart every month: days 1-7 are Week 1, ..., days 29-31 are Week 5. */
  lemma WeekBuckets(day: nat)
    requires 1 <= day <= 31
    ensures 1 <= day <= 7 ==> WeekLabel(day) == "Week 1"
    ensures 8 <= day <= 14 ==> WeekLabel(day) == "Week 2"
    ensures 15 <= day <= 21 ==> WeekLabel(day) == "Week 3"
    ensures 22 <= day <= 28 ==> WeekLabel(day) == "Week 4"
    ensures 29 <= day <= 31 ==> WeekLabel(day) == "Week 5"
  {
    var w := (day + 6) / 7;
    assert 1 <= w <= 5;
    assert NatToString(w) == ['0' + w as char];
  }

  // ---------------------------------------------------------------------------
  // CSV report
  // ---------------------------------------------------------------------------

  /** The column titles of the report, amounts in rupees. */
  const Header: string :=
    "Date,Description,Category," + "Amount (\U{20B9}),Budget Set (\U{20B9})," + "Total Spent (\U{20B9})," + "Remaining Budget (\U{20B9})"

  lemma HeaderFree()
    ensures Free(Header, '\n')
  {
    var a, b, c, d := "Date,Description,Category,", "Amount (\U{20B9}),Budget Set (\U{20B9}),", "Total Spent (\U{20B9}),", "Remaining Budget (\U{20B9})";
    assert Free(a, '\n') && Free(b, '\n') && Free(c, '\n') && Free(d, '\n');
    FreeConcat(a, b, '\n');
    FreeConcat(a + b, c, '\n');
    FreeConcat(a + b + c, d, '\n');
  }

  /** `toLocaleDateString()`, in the en-US form M/D/YYYY. */
  function LocaleDate(d: Date): string
  {
    NatToString(d.month) + "/" + NatToString(d.day) + "/" + NatToString(d.year)
  }

  function DataRow(e: Expense, budget: Number, spent: Number, show: Number -> string): string
  {
    LocaleDate(e.date) + "," + e.description + "," + e.category + "," + e.amount + ","
      + show(budget) + "," + show(spent) + "," + show(Clamp(Sub(budget, spent)))
  }

  function SummaryRow(category: string, amount: Number, show: Number -> string): string
  {
    ",," + category + "," + show(amount) + ",,,"
  }

  function TrailerRows(budget: Number, spent: Number, show: Number -> string): seq<string>
  {
    [",,Total Budget," + show(budget) + ",,,",
     ",,Total Spent," + show(spent) + ",,,",
     ",,Remaining Budget," + show(Clamp(Sub(budget, spent))) + ",,,"]
  }

  /** The rows of the report, before they are joined. */
  function CsvRows(es: seq<Expense>, summary: Grouping, budget: Number, spent: Number,
                   show: Number -> string): seq<string>
    requires WellFormed(summary)
  {
    [Header]
      + seq(|es|, i requires 0 <= i < |es| => DataRow(es[i], budget, spent, show))
      + seq(|summary.keys|, j requires 0 <= j < |summary.keys| =>
              SummaryRow(summary.keys[j], summary.totals[summary.keys[j]], show))
      + TrailerRows(budget, spent, show)
  }

  /** The report text: the rows joined by "\n", without any escaping. It
      starts with the header row. */
  function CsvText(es: seq<Expense>, budget: Number, show: Number -> string): (text: string)
    ensures Header <= text
  {
    var rows := CsvRows(es, GroupBy(es, ByCategory), budget, Total(es), show);
    assert rows[0] == Header;
    JoinStartsWith(rows, '\n');
    Join(rows, '\n')
  }

  /** `Expense_Report_<view>_<user>_<date>.csv`. */
  function FileName(view: ViewType, username: string, today: string): string
  {
    "Expense_Report_" + ViewName(view) + "_" + username + "_" + today + ".csv"
  }

  /** The fixed row layout: a header, one row per expense in ledger order, one
      `,,<category>,<amount>,,,` row per category, then the Total Budget, Total
      Spent and Remaining Budget rows, the remaining figure clamped at 0. */
  lemma CsvLayout(es: seq<Expense>, g: Grouping, budget: Number, spent: Number, show: Number -> string)
    requires WellFormed(g)
    ensures var rows := CsvRows(es, g, budget, spent, show);
      var n := |es|;
      var m := |g.keys|;
      && |rows| == 1 + n + m + 3
      && rows[0] == Header
      && (forall i :: 0 <= i < n ==> rows[1 + i] == DataRow(es[i], budget, spent, show))
      && (forall j :: 0 <= j < m ==> rows[1 + n + j] == SummaryRow(g.keys[j], g.totals[g.keys[j]], show))
      && rows[1 + n + m] == ",,Total Budget," + show(budget) + ",,,"
      && rows[2 + n + m] == ",,Total Spent," + show(spent) + ",,,"
      && rows[3 + n + m] == ",,Remaining Budget," + show(Clamp(Sub(budget, spent))) + ",,,"
      && Clamp(Sub(budget, spent)).value >= 0.0
  {
  }

  lemma FreeConcat(a: string, b: string, c: char)
    requires Free(a, c) && Free(b, c)
    ensures Free(a + b, c)
  {
  }

  lemma FreeDigits(s: string)
    requires AllDigits(s)
    ensures Free(s, '\n')
  {
  }

  lemma DataRowFree(e: Expense, budget: Number, spent: Number, show: Number -> string)
    requires Free(e.description, '\n') && Free(e.category, '\n') && Free(e.amount, '\n')
    requires forall x :: Free(show(x), '\n')
    ensures Free(DataRow(e, budget, spent, show), '\n')
  {
    FreeDigits(NatToString(e.date.month));
    FreeDigits(NatToString(e.date.day));
    FreeDigits(NatToString(e.date.year));
    assert Free(LocaleDate(e.date), '\n');
    assert Free(show(budget), '\n') && Free(show(spent), '\n') && Free(show(Clamp(Sub(budget, spent))), '\n');
  }

  lemma OtherRowsFree(g: Grouping, budget: Number, spent: Number, show: Number -> string)
    requires forall j :: 0 <= j < |g.keys| ==> Free(g.keys[j], '\n')
    requires forall x :: Free(show(x), '\n')
    ensures forall j, x :: 0 <= j < |g.keys| ==> Free(SummaryRow(g.keys[j], x, show), '\n')
    ensures forall r :: r in TrailerRows(budget, spent, show) ==> Free(r, '\n')
  {
  }

  /** Rows free of line breaks survive the join: splitting the text gives
      back exactly the rows. */
  lemma RowsSplit(es: seq<Expense>, g: Grouping, budget: Number, spent: Number, show: Number -> string)
    requires WellFormed(g)
    requires forall i :: 0 <= i < |es| ==>
      Free(es[i].description, '\n') && Free(es[i].category, '\n') && Free(es[i].amount, '\n')
    requires forall j :: 0 <= j < |g.keys| ==> Free(g.keys[j], '\n')
    requires forall x :: Free(show(x), '\n')
    ensures Split(Join(CsvRows(es, g, budget, spent, show), '\n'), '\n') == CsvRows(es, g, budget, spent, show)
  {
    var rows := CsvRows(es, g, budget, spent, show);
    var n := |es|;
    CsvLayout(es, g, budget, spent, show);
    forall k | 0 <= k < |rows|
      ensures Free(rows[k], '\n')
    {
      if k == 0 {
        HeaderFree();
      } else if k <= n {
        DataRowFree(es[k - 1], budget, spent, show);
      } else {
        OtherRowsFree(g, budget, spent, show);
      }
    }
    SplitJoin(rows, '\n');
  }

  /** When no field and no formatted number contains a line break, the report
      text splits back into exactly its rows: one line per row. */
  lemma CsvLines(es: seq<Expense>, budget: Number, show: Number -> string)
    requires forall i :: 0 <= i < |es| ==>
      Free(es[i].description, '\n') && Free(es[i].category, '\n') && Free(es[i].amount, '\n')
    requires forall x :: Free(show(x), '\n')
    ensures Split(CsvText(es, budget, show), '\n') == CsvRows(es, GroupBy(es, ByCategory), budget, Total(es), show)
    ensures |Split(CsvText(es, budget, show), '\n')| == |es| + |GroupBy(es, ByCategory).keys| + 4
  {
    var g := GroupBy(es, ByCategory);
    forall j | 0 <= j < |g.keys|
      ensures Free(g.keys[j], '\n')
    {
      var c := g.keys[j];
      assert c in KeysOf(es, ByCategory);
      var i :| 0 <= i < |es| && KeysOf(es, ByCategory)[i] == c;
    }
    RowsSplit(es, g, budget, Total(es), show);
    CsvLayout(es, g, budget, Total(es), show);
  }

  /** The join does not escape line breaks: an expense whose description
      holds one (the description is a multi-line text area) gives the report
      more lines than it has rows. */
  lemma MultilineDescriptionAddsLines(es: seq<Expense>, budget: Number, show: Number -> string, i: nat)
    requires i < |es| && '\n' in es[i].description
    ensures |Split(CsvText(es, budget, show), '\n')| > |CsvRows(es, GroupBy(es, ByCategory), budget, Total(es), show)|
  {
    var g := GroupBy(es, ByCategory);
    var rows := CsvRows(es, g, budget, Total(es), show);
    DataRowBreak(es[i], budget, Total(es), show);
    CsvRowAt(es, g, budget, Total(es), show, i);
    SplitJoinMore(rows, '\n', 1 + i);
  }

  lemma CsvRowAt(es: seq<Expense>, g: Grouping, budget: Number, spent: Number, show: Number -> string, i: nat)
    requires WellFormed(g) && i < |es|
    ensures 1 + i < |CsvRows(es, g, budget, spent, show)|
    ensures CsvRows(es, g, budget, spent, show)[1 + i] == DataRow(es[i], budget, spent, show)
  {
    var data := seq(|es|, j requires 0 <= j < |es| => DataRow(es[j], budget, spent, show));
    assert ([Header] + data)[1 + i] == data[i];
  }

  lemma DataRowBreak(e: Expense, budget: Number, spent: Number, show: Number -> string)
    requires '\n' in e.description
    ensures '\n' in DataRow(e, budget, spent, show)
  {
    var pre := LocaleDate(e.date) + ",";
    var j :| 0 <= j < |e.description| && e.description[j] == '\n';
    assert DataRow(e, budget, spent, show)[|pre| + j] == '\n';
  }

  // ---------------------------------------------------------------------------
  // The dashboard
  // ---------------------------------------------------------------------------

  datatype AddOutcome = AddNeedsLogin | AddIncomplete | Added(overBudget: bool)
  datatype ResetOutcome = ResetNeedsLogin | ResetDeclined | ResetDone
  datatype BudgetOutcome = BudgetNeedsLogin | BudgetCleared | BudgetNegative | BudgetSet
  datatype ReportOutcome = ReportNeedsLogin | Report(fileName: string, csv: string)

  /** `expenses_<user>` as `useState` reads it: the saved list, or []. */
  function SavedExpenses(items: map<string, Stored>, username: string): seq<Expense>
  {
    var k := ExpensesKey(username);
    if k in items && items[k].ExpenseList? then items[k].expenses else []
  }

  /** `budget_<user>` as `useState` reads it: `parseFloat` of the saved text,
      or "" when nothing (or the empty text) is saved. A saved value of another
      shape is JSON text that `parseFloat` reads as NaN. */
  function SavedBudget(items: map<string, Stored>, username: string): (b: BudgetValue)
    ensures b == Unset <==> BudgetKey(username) !in items || items[BudgetKey(username)] == Text("")
  {
    var k := BudgetKey(username);
    if k !in items then Unset
    else match items[k]
      case Text(t) => if t != "" then Amount(ParseFloat(t)) else Unset
      case _ => Amount(NaN)
  }

  class Dashboard {
    const store: Store
    /** The logged-in user's name; None when nobody is logged in. */
    const currentUser: Option<string>
    var expenses: seq<Expense>
    var budget: BudgetValue
    var viewType: ViewType

    /** `currentUser?.username || "default_user"`. */
    function Owner(): string
    {
      if currentUser.Some? && currentUser.value != "" then currentUser.value else "default_user"
    }

    constructor (store: Store, currentUser: Option<string>)
      ensures this.store == store && this.currentUser == currentUser
      ensures expenses == SavedExpenses(store.items, Owner())
      ensures budget == SavedBudget(store.items, Owner())
      ensures viewType == Monthly
    {
      this.store := store;
      this.currentUser := currentUser;
      var owner := if currentUser.Some? && currentUser.value != "" then currentUser.value else "default_user";
      expenses := SavedExpenses(store.items, owner);
      budget := SavedBudget(store.items, owner);
      viewType := Monthly;
    }

    /** `totalSpent`. */
    function TotalSpent(): Number
      reads this
    {
      Total(expenses)
    }

    /** `currentBudget`. */
    function Budget(): Number
      reads this
    {
      CurrentBudget(budget)
    }

    /** `remainingBudget`, before the display clamp. */
    function Remaining(): Number
      reads this
    {
      Sub(Budget(), TotalSpent())
    }

    /** `addExpense`: refused without a login or with a missing field;
        otherwise appends exactly one record, warning when the budget would be
        exceeded. The budget is advisory: the record is appended either way. */
    method AddExpense(d: Draft, id: int) returns (outcome: AddOutcome)
      modifies this`expenses
      ensures currentUser.None? ==> outcome == AddNeedsLogin && expenses == old(expenses)
      ensures currentUser.Some? && !Complete(d) ==> outcome == AddIncomplete && expenses == old(expenses)
      ensures currentUser.Some? && Complete(d) ==>
        && outcome == Added(OverBudget(old(expenses), budget, d.amount))
        && expenses == old(expenses) + [Record(d, id)]
    {
      if currentUser.None? {
        return AddNeedsLogin;
      }
      if !Complete(d) {
        return AddIncomplete;
      }
      var warn := OverBudget(expenses, budget, d.amount);
      expenses := expenses + [Record(d, id)];
      outcome := Added(warn);
    }

    /** `resetExpenses` followed by the answer to its confirmation prompt. */
    method ResetExpenses(confirmed: bool) returns (outcome: ResetOutcome)
      modifies this`expenses, store
      ensures currentUser.None? ==>
        outcome == ResetNeedsLogin && expenses == old(expenses) && store.items == old(store.items)
      ensures currentUser.Some? && !confirmed ==>
        outcome == ResetDeclined && expenses == old(expenses) && store.items == old(store.items)
      ensures currentUser.Some? && confirmed ==>
        && outcome == ResetDone && expenses == []
        && store.items == old(store.items) - {ExpensesKey(Owner())}
    {
      if currentUser.None? {
        return ResetNeedsLogin;
      }
      if !confirmed {
        return ResetDeclined;
      }
      expenses := [];
      store.items := store.items - {ExpensesKey(Owner())};
      outcome := ResetDone;
    }

    /** `handleBudgetChange`: "" unsets the budget, a negative figure is
        stored as 0, anything else as `parseFloat(value) || 0`; so a budget
        set here is never negative. */
    method HandleBudgetChange(value: string) returns (outcome: BudgetOutcome)
      modifies this`budget
      ensures currentUser.None? ==> outcome == BudgetNeedsLogin && budget == old(budget)
      ensures currentUser.Some? && value == "" ==> outcome == BudgetCleared && budget == Unset
      ensures currentUser.Some? && value != "" && Coerced(value) < 0.0 ==>
        outcome == BudgetNegative && budget == Amount(Num(0.0))
      ensures currentUser.Some? && value != "" && Coerced(value) >= 0.0 ==>
        outcome == BudgetSet && budget == Amount(Num(Coerced(value)))
      ensures currentUser.Some? ==> Budget().Num? && Budget().value >= 0.0
    {
      if currentUser.None? {
        return BudgetNeedsLogin;
      }
      if value == "" {
        budget := Unset;
        return BudgetCleared;
      }
      var numValue := Coerced(value);
      if numValue < 0.0 {
        budget := Amount(Num(0.0));
        outcome := BudgetNegative;
      } else {
        budget := Amount(Num(numValue));
        outcome := BudgetSet;
      }
    }

    /** The view selector of the report section. */
    method SetViewType(v: ViewType)
      modifies this`viewType
      ensures viewType == v
    {
      viewType := v;
    }

    /** The `forEach` that fills a dictionary keyed by `kind`: each record's
        key and parsed amount, taken in ledger order. */
    method Group(kind: Key) returns (g: Grouping)
      ensures g == GroupBy(expenses, kind)
    {
      var ks := KeysOf(expenses, kind);
      var xs := Amounts(expenses);
      var keys: seq<string> := [];
      var totals: map<string, Number> := map[];
      var i := 0;
      while i < |ks|
        invariant 0 <= i <= |ks|
        invariant Grouping(keys, totals) == Accumulate(ks[..i], xs[..i])
      {
        var k, amount := ks[i], xs[i];
        AccumulateStep(ks, xs, i);
        var prior := if k in totals then Some(totals[k]) else None;
        if k !in totals {
          keys := keys + [k];
        }
        totals := totals[k := Add(OrZero(prior), amount)];
        i := i + 1;
      }
      assert ks[..i] == ks && xs[..i] == xs;
      g := Grouping(keys, totals);
    }

    /** `getCategorySummary()`. */
    method CategorySummary() returns (summary: Grouping)
      ensures summary == GroupBy(expenses, ByCategory)
      ensures forall c :: c in summary.totals <==> c in KeysOf(expenses, ByCategory)
      ensures expenses == [] ==> summary.totals == map[]
    {
      summary := Group(ByCategory);
    }

    /** `getChartData()`. */
    method ChartData() returns (chart: Chart)
      ensures chart == ChartOf(expenses, viewType, Budget())
    {
      var g := Group(ViewKey(viewType));
      var n := |g.keys|;
      var budgetNow := Budget();
      var left := Clamp(Remaining());
      chart := Chart(if n > 0 then g.keys else ["No Data"],
                     if n > 0 then Values(g.keys, g.totals) else [Num(0.0)],
                     seq(n, _ => budgetNow),
                     seq(n, _ => left));
    }

    /** `downloadReport`: the file name and the CSV text handed to the
        download; `today` is the current date as the locale prints it and
        `show` is how numbers are printed. */
    method DownloadReport(today: string, show: Number -> string) returns (outcome: ReportOutcome)
      ensures currentUser.None? ==> outcome == ReportNeedsLogin
      ensures currentUser.Some? ==>
        outcome == Report(FileName(viewType, Owner(), today), CsvText(expenses, Budget(), show))
    {
      if currentUser.None? {
        return ReportNeedsLogin;
      }
      var summary := CategorySummary();
      var spent := TotalSpent();
      var rows := CsvRows(expenses, summary, Budget(), spent, show);
      outcome := Report(FileName(viewType, Owner(), today), Join(rows, '\n'));
    }
  }
}
