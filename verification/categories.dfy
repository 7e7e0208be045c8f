/**
 * The per-category breakdown of a month's expenses that
 * `MemStorage.getExpensesByCategory` builds with a JavaScript `Map` from
 * category to running total: the functions its loop is proved against, and what the
 * breakdown means.
 */
module Categories {
  import opened Options
  import opened Seqs
  import opened OrderedMaps
  import opened Schema

  /** One element of the result: `{ category, total }`. */
  datatype CategoryTotal = CategoryTotal(category: string, total: Cents)

  function CategoryTotalOf(t: CategoryTotal): Cents { t.total }

  /** The sum of the totals of a breakdown. */
  function GrandTotal(ts: seq<CategoryTotal>): Cents {
    Sum(ts, CategoryTotalOf)
  }

  /** The categories of `es`, one per expense, in order. */
  function CategoriesOf(es: seq<Expense>): (cs: seq<string>)
    ensures |cs| == |es|
    ensures forall i :: 0 <= i < |es| ==> cs[i] == es[i].category
  {
    if es == [] then [] else CategoriesOf(es[..|es| - 1]) + [es[|es| - 1].category]
  }

  function InCategory(c: string): Expense -> bool {
    (e: Expense) => e.category == c
  }

  /** The amount spent on `c` in `es`. */
  function SpentOn(es: seq<Expense>, c: string): Cents {
    Sum(Filter(es, InCategory(c)), ExpenseAmount)
  }

  /** The position where `c` first occurs in `cs`. */
  function FirstIndex(cs: seq<string>, c: string): (k: nat)
    requires c in cs
    ensures k < |cs| && cs[k] == c
    ensures forall j :: 0 <= j < k ==> cs[j] != c
  {
    if cs[0] == c then 0 else 1 + FirstIndex(cs[1..], c)
  }

  /** Appending does not move the first occurrence of a category already present. */
  lemma FirstIndexAppend(cs: seq<string>, x: string, c: string)
    requires c in cs
    ensures FirstIndex(cs + [x], c) == FirstIndex(cs, c)
  {
    var k0, k1 := FirstIndex(cs, c), FirstIndex(cs + [x], c);
    assert (cs + [x])[k0] == cs[k0];
  }

  /** One turn of the loop: add `e.amount` to the running total of its category. */
  function AddExpense(m: OrderedMap<string, Cents>, e: Expense): (r: OrderedMap<string, Cents>)
    requires m.Valid()
    ensures r.Valid()
    ensures r.Get(e.category) == Some(m.Get(e.category).GetOr(0) + e.amount)
    ensures forall c :: c != e.category ==> r.Get(c) == m.Get(c)
    ensures r.keys == if e.category in m.entries then m.keys else m.keys + [e.category]
  {
    m.Set(e.category, m.Get(e.category).GetOr(0) + e.amount)
  }

  /** `AddExpense` as the loop body writes it: read the running total, then set the new one. */
  lemma AddExpenseSteps(m: OrderedMap<string, Cents>, e: Expense, currentTotal: Cents)
    requires m.Valid() && currentTotal == m.Get(e.category).GetOr(0)
    ensures AddExpense(m, e) == m.Set(e.category, currentTotal + e.amount)
  {
  }

  /** The category map after the loop has run over `es`. */
  function Tally(es: seq<Expense>): (m: OrderedMap<string, Cents>)
    ensures m.Valid()
  {
    if es == [] then Empty() else AddExpense(Tally(es[..|es| - 1]), es[|es| - 1])
  }

  /** The map holds exactly the categories met in `es`. */
  lemma {:induction false} TallyKeys(es: seq<Expense>)
    ensures forall c :: c in Tally(es).entries <==> c in CategoriesOf(es)
  {
    if es != [] {
      var init := es[..|es| - 1];
      TallyKeys(init);
      assert CategoriesOf(es) == CategoriesOf(init) + [es[|es| - 1].category];
    }
  }

  /** The loop's step: running over one more expense adds it to the map. */
  lemma TallySnoc(es: seq<Expense>, e: Expense)
    ensures Tally(es + [e]) == AddExpense(Tally(es), e)
  {
    assert (es + [e])[..|es|] == es;
  }

  /** `Array.from(m.entries()).map(([category, total]) => ({ category, total }))`. */
  function Totals(m: OrderedMap<string, Cents>): (ts: seq<CategoryTotal>)
    requires m.Valid()
    ensures |ts| == |m.keys|
    ensures forall i :: 0 <= i < |ts| ==> ts[i].category == m.keys[i] && ts[i].total == m.entries[m.keys[i]]
  {
    seq(|m.keys|, i requires 0 <= i < |m.keys| => CategoryTotal(m.keys[i], m.entries[m.keys[i]]))
  }

  /** The breakdown of `es` into per-category totals. */
  function Breakdown(es: seq<Expense>): seq<CategoryTotal> {
    Totals(Tally(es))
  }

  /** Each running total is the amount spent on its category so far. */
  lemma {:induction false} TallyTotals(es: seq<Expense>)
    ensures forall c :: c in Tally(es).entries ==> Tally(es).entries[c] == SpentOn(es, c)
  {
    if es != [] {
      var init, e := es[..|es| - 1], es[|es| - 1];
      TallyTotals(init);
      forall c | c in Tally(es).entries ensures Tally(es).entries[c] == SpentOn(es, c) {
        AddExpenseSpentOn(init, e, c);
      }
    }
  }

  /** A category not among those of `es` has nothing spent on it. */
  lemma NoneInCategory(es: seq<Expense>, c: string)
    requires c !in CategoriesOf(es)
    ensures Filter(es, InCategory(c)) == []
  {
  }

  /** The induction step of `TallyTotals`, for one category. */
  lemma AddExpenseSpentOn(init: seq<Expense>, e: Expense, c: string)
    requires forall c :: c in Tally(init).entries ==> Tally(init).entries[c] == SpentOn(init, c)
    requires c in Tally(init + [e]).entries
    ensures Tally(init + [e]).entries[c] == SpentOn(init + [e], c)
  {
    var es := init + [e];
    assert es[..|es| - 1] == init;
    var m := Tally(init);
    TallyKeys(init);
    var p := InCategory(c);
    var f := Filter(init, p);
    assert Filter(es, p) == f + (if p(e) then [e] else []);
    if c == e.category {
      assert Tally(es).entries[c] == m.Get(c).GetOr(0) + e.amount;
      SumSnoc(f, e, ExpenseAmount);
      assert SpentOn(es, c) == Sum(f, ExpenseAmount) + e.amount;
      if c !in m.entries {
        NoneInCategory(init, c);
        assert Sum(f, ExpenseAmount) == 0;
      }
      assert Tally(es).entries[c] == Sum(f, ExpenseAmount) + e.amount;
    } else {
      assert Filter(es, p) == f;
      assert c in m.entries;
      assert Tally(es).entries[c] == m.entries[c] == SpentOn(init, c);
    }
  }

  /** Adding an expense of a known category changes that category's total in place. */
  lemma AddKnownTotals(m: OrderedMap<string, Cents>, e: Expense, i: nat)
    requires m.Valid() && i < |m.keys| && m.keys[i] == e.category
    ensures Totals(AddExpense(m, e)) == Totals(m)[i := CategoryTotal(e.category, m.entries[e.category] + e.amount)]
    ensures GrandTotal(Totals(AddExpense(m, e))) == GrandTotal(Totals(m)) + e.amount
  {
    SumUpdate(Totals(m), i, CategoryTotal(e.category, m.entries[e.category] + e.amount), CategoryTotalOf);
  }

  /** Adding an expense of a new category appends its total. */
  lemma AddNewTotals(m: OrderedMap<string, Cents>, e: Expense)
    requires m.Valid() && e.category !in m.entries
    ensures Totals(AddExpense(m, e)) == Totals(m) + [CategoryTotal(e.category, e.amount)]
    ensures GrandTotal(Totals(AddExpense(m, e))) == GrandTotal(Totals(m)) + e.amount
  {
    SumSnoc(Totals(m), CategoryTotal(e.category, e.amount), CategoryTotalOf);
  }

  /** Adding an expense adds its amount to the grand total of the breakdown. */
  lemma AddExpenseGrandTotal(m: OrderedMap<string, Cents>, e: Expense)
    requires m.Valid()
    ensures GrandTotal(Totals(AddExpense(m, e))) == GrandTotal(Totals(m)) + e.amount
  {
    if e.category in m.entries {
      var i :| 0 <= i < |m.keys| && m.keys[i] == e.category;
      AddKnownTotals(m, e, i);
    } else {
      AddNewTotals(m, e);
    }
  }

  /** The totals of a breakdown add up to the total of its expenses. */
  lemma {:induction false} BreakdownGrandTotal(es: seq<Expense>)
    ensures GrandTotal(Breakdown(es)) == Sum(es, ExpenseAmount)
  {
    if es != [] {
      var init, e := es[..|es| - 1], es[|es| - 1];
      BreakdownGrandTotal(init);
      AddExpenseGrandTotal(Tally(init), e);
    }
  }

  /** The keys `ks` are among `cs`, in the order of their first occurrence there. */
  ghost predicate FirstSeenOrder(ks: seq<string>, cs: seq<string>) {
    (forall i :: 0 <= i < |ks| ==> ks[i] in cs) &&
    (forall i, j :: 0 <= i < j < |ks| ==> FirstIndex(cs, ks[i]) < FirstIndex(cs, ks[j]))
  }

  /** Meeting a category again changes nothing. */
  lemma FirstSeenAgain(ks: seq<string>, cs: seq<string>, x: string)
    requires FirstSeenOrder(ks, cs)
    ensures FirstSeenOrder(ks, cs + [x])
  {
    forall i | 0 <= i < |ks| ensures FirstIndex(cs + [x], ks[i]) == FirstIndex(cs, ks[i]) {
      FirstIndexAppend(cs, x, ks[i]);
    }
  }

  /** Meeting a new category puts it last. */
  lemma FirstSeenNew(ks: seq<string>, cs: seq<string>, x: string)
    requires FirstSeenOrder(ks, cs) && x !in cs
    ensures FirstSeenOrder(ks + [x], cs + [x])
  {
    FirstSeenAgain(ks, cs, x);
    assert FirstIndex(cs + [x], x) == |cs|;
    var ks' := ks + [x];
    forall i, j | 0 <= i < j < |ks'| ensures FirstIndex(cs + [x], ks'[i]) < FirstIndex(cs + [x], ks'[j]) {
      if j < |ks| {
        assert ks'[i] == ks[i] && ks'[j] == ks[j];
      } else {
        assert ks'[i] == ks[i];
      }
    }
  }

  /** The categories of the running map appear in the order they are first met in `es`. */
  lemma {:induction false} TallyFirstSeen(es: seq<Expense>)
    ensures FirstSeenOrder(Tally(es).keys, CategoriesOf(es))
  {
    if es != [] {
      var init, e := es[..|es| - 1], es[|es| - 1];
      TallyFirstSeen(init);
      var m := Tally(init);
      assert CategoriesOf(es) == CategoriesOf(init) + [e.category];
      if e.category in m.entries {
        assert Tally(es).keys == m.keys;
        FirstSeenAgain(m.keys, CategoriesOf(init), e.category);
      } else {
        TallyKeys(init);
        assert Tally(es).keys == m.keys + [e.category];
        FirstSeenNew(m.keys, CategoriesOf(init), e.category);
      }
    }
  }

  /** No category appears twice in a breakdown. */
  lemma BreakdownDistinct(es: seq<Expense>)
    ensures forall i, j :: 0 <= i < j < |Breakdown(es)| ==> Breakdown(es)[i].category != Breakdown(es)[j].category
  {
  }

  /** A category appears in the breakdown exactly when some expense of `es` is filed under it. */
  lemma BreakdownCovers(es: seq<Expense>, c: string)
    ensures c in CategoriesOf(es) <==> exists i :: 0 <= i < |Breakdown(es)| && Breakdown(es)[i].category == c
  {
    var m := Tally(es);
    TallyKeys(es);
    if c in CategoriesOf(es) {
      assert c in m.keys;
      var i :| 0 <= i < |m.keys| && m.keys[i] == c;
      assert Breakdown(es)[i].category == c;
    }
  }

  /** Each total of the breakdown is the amount spent on its category. */
  lemma BreakdownTotals(es: seq<Expense>)
    ensures forall i :: 0 <= i < |Breakdown(es)| ==> Breakdown(es)[i].total == SpentOn(es, Breakdown(es)[i].category)
  {
    var m := Tally(es);
    TallyTotals(es);
    assert forall i :: 0 <= i < |m.keys| ==> m.keys[i] in m.entries;
  }

  /** The breakdown lists the categories in the order they are first met in `es`. */
  lemma BreakdownFirstSeen(es: seq<Expense>)
    ensures forall i :: 0 <= i < |Breakdown(es)| ==> Breakdown(es)[i].category in CategoriesOf(es)
    ensures forall i, j :: 0 <= i < j < |Breakdown(es)| ==>
      FirstIndex(CategoriesOf(es), Breakdown(es)[i].category) < FirstIndex(CategoriesOf(es), Breakdown(es)[j].category)
  {
    TallyFirstSeen(es);
  }
}
