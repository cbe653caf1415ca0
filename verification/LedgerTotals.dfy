/** Order totals against the stored lines. `create` and the public catalog store totals net of
    the line discounts; addItem sums the net lines and subtracts the discounts once more. */
module LedgerTotals {
  import opened Seqs
  import opened Tables
  import opened LedgerSpec
  import opened LedgerBatch

  function NetOf(s: State, o: nat): int { Sum(s.items, TotalOf(o)) }

  function DiscountsOf(s: State, o: nat): int { Sum(s.items, DiscountOf(o)) }

  // ---- Pricing ----

  /** With clamped discounts the order total is the sum of the net lines. */
  lemma {:induction false} PricedTotal(drafts: seq<Draft>)
    ensures var lines := PriceAll(drafts); ValueOf(drafts) - DiscountAll(lines) == Sum(lines, NetTotal())
  {
    var lines := PriceAll(drafts);
    var clamped := (d: Draft) => Price(d).discount;
    SumSplit(lines, drafts, NetTotal(), clamped, Value());
    SumEqual(lines, drafts, Discount(), clamped);
  }

  predicate FairDraft(d: Draft) { d.unitPrice >= 0 && d.quantity > 0 && d.discount >= 0 }

  predicate FairLine(l: Line) { l.total >= 0 && l.discount >= 0 }

  lemma PricedFairly(d: Draft)
    requires FairDraft(d)
    ensures FairLine(Price(d))
  {
    assert d.unitPrice * d.quantity >= 0;
  }

  /** What the request schemas let through. */
  predicate Fair(step: Step) {
    match step.op
    case PlaceOrder(drafts) => forall d <- drafts :: FairDraft(d)
    case AddLine(_, d) => FairDraft(d)
    case PublicOrder(_, lines) => forall l <- lines :: FairLine(l)
    case _ => true
  }

  // ---- How requests move an order's sums ----

  lemma {:induction false} NewItemsSums(id: nat, x: nat, lines: seq<Line>, o: nat)
    ensures var added := NewItems(id, x, lines);
      && Sum(added, TotalOf(o)) == (if x == o then Sum(lines, NetTotal()) else 0)
      && Sum(added, DiscountOf(o)) == (if x == o then DiscountAll(lines) else 0)
  {
    var added := NewItems(id, x, lines);
    if x == o {
      SumEqual(added, lines, TotalOf(o), NetTotal());
      SumEqual(added, lines, DiscountOf(o), Discount());
    } else {
      SumZero(added, TotalOf(o));
      SumZero(added, DiscountOf(o));
    }
  }

  lemma {:induction false} InsertedSums(s: State, t: State, x: nat, lines: seq<Line>, o: nat)
    requires t.items == s.items + NewItems(s.nextItem, x, lines)
    ensures NetOf(t, o) == NetOf(s, o) + (if x == o then Sum(lines, NetTotal()) else 0)
    ensures DiscountsOf(t, o) == DiscountsOf(s, o) + (if x == o then DiscountAll(lines) else 0)
  {
    var added := NewItems(s.nextItem, x, lines);
    SumConcat(s.items, added, TotalOf(o));
    SumConcat(s.items, added, DiscountOf(o));
    NewItemsSums(s.nextItem, x, lines, o);
  }

  lemma {:induction false} DroppedSums(s: State, x: nat, o: nat)
    requires x != o
    ensures NetOf(Drop(s, x), o) == NetOf(s, o) && DiscountsOf(Drop(s, x), o) == DiscountsOf(s, o)
  {
    SumFilter(s.items, KeepItem(x), TotalOf(o));
    SumFilter(s.items, KeepItem(x), DiscountOf(o));
  }

  /** addItem's total is the sum of the net lines exactly when the order carries no
      discount, and not negative exactly when the discounts do not exceed that sum. */
  lemma {:induction false} AddedTotalIsNetIff(s: State, actor: Actor, o: nat, l: Line)
    ensures var r := AddItem(s, actor, o, l);
      r.Success? ==>
        var net, discounts := NetOf(s, o) + l.total, DiscountsOf(s, o) + l.discount;
        && NetOf(r.value, o) == net && DiscountsOf(r.value, o) == discounts
        && r.value.orders[o].total == net - discounts
        && (r.value.orders[o].total == net <==> discounts == 0)
        && (r.value.orders[o].total >= 0 <==> discounts <= net)
  {
    SumAppend(s.items, NewItem(s.nextItem, o, l), TotalOf(o));
    SumAppend(s.items, NewItem(s.nextItem, o, l), DiscountOf(o));
  }

  lemma {:induction false} AddedElsewhere(s: State, actor: Actor, x: nat, l: Line, o: nat)
    requires x != o
    ensures var r := AddItem(s, actor, x, l);
      r.Success? ==> NetOf(r.value, o) == NetOf(s, o) && DiscountsOf(r.value, o) == DiscountsOf(s, o)
  {
    SumAppend(s.items, NewItem(s.nextItem, x, l), TotalOf(o));
    SumAppend(s.items, NewItem(s.nextItem, x, l), DiscountOf(o));
  }

  // ---- Totals over runs ----

  predicate Adds(s: State, step: Step, o: nat) {
    match step.op
    case AddLine(x, d) => x == o && AddItem(s, step.actor, o, Price(d)).Success?
    case _ => false
  }

  /** Some request of the run added a line to order `o`. */
  predicate AddedTo(s: State, steps: seq<Step>, o: nat) {
    steps != [] &&
    var n := |steps| - 1;
    AddedTo(s, steps[..n], o) || Adds(Run(s, steps[..n]), steps[n], o)
  }

  predicate TotalHolds(s: State, o: nat, added: bool) {
    && (added ==> o < s.nextOrder)
    && (o in s.orders ==>
          o < s.nextOrder && s.orders[o].total == NetOf(s, o) - (if added then DiscountsOf(s, o) else 0))
    && (o >= s.nextOrder ==> NetOf(s, o) == 0)
  }

  lemma {:induction false} PlaceTotals(s: State, seller: string, drafts: seq<Draft>, o: nat, added: bool)
    requires TotalHolds(s, o, added)
    ensures var r := Place(s, seller, drafts); r.Success? ==> TotalHolds(r.value.state, o, added)
  {
    var r, lines := Place(s, seller, drafts), PriceAll(drafts);
    PricedTotal(drafts);
    if r.Success? {
      InsertedSums(s, r.value.state, s.nextOrder, lines, o);
    }
  }

  lemma {:induction false} CatalogOrderTotals(s: State, store: string, lines: seq<Line>, o: nat, added: bool)
    requires TotalHolds(s, o, added)
    ensures var r := CatalogOrder(s, store, lines); r.Success? ==> TotalHolds(r.value, o, added)
  {
    var r := CatalogOrder(s, store, lines);
    if r.Success? {
      InsertedSums(s, r.value, s.nextOrder, lines, o);
    }
  }

  lemma {:induction false} DeleteTotals(s: State, actor: Actor, x: nat, o: nat, added: bool)
    requires TotalHolds(s, o, added)
    ensures var r := Delete(s, actor, x); r.Success? ==> TotalHolds(r.value, o, added)
  {
    if x != o {
      DroppedSums(s, x, o);
      DroppedSums(Restore(s, x), x, o);
    }
  }

  lemma {:induction false} NextTotals(s: State, step: Step, o: nat, added: bool)
    requires TotalHolds(s, o, added)
    ensures TotalHolds(Next(s, step), o, added || Adds(s, step, o))
  {
    match step.op
    case PlaceOrder(drafts) => PlaceTotals(s, step.actor.seller, drafts, o, added);
    case AddLine(x, d) =>
      if x == o {
        AddedTotalIsNetIff(s, step.actor, o, Price(d));
      } else {
        AddedElsewhere(s, step.actor, x, Price(d), o);
      }
    case DeleteOrder(x) => DeleteTotals(s, step.actor, x, o, added);
    case PublicOrder(store, lines) => CatalogOrderTotals(s, store, lines, o, added);
    case _ =>
  }

  /** In every run, the total of an order that no request added a line to is the sum of its
      stored net lines; that of an order with added lines is lower by all its discounts. */
  lemma {:induction false} RunTotals(s: State, steps: seq<Step>, o: nat)
    requires TotalHolds(s, o, false)
    ensures TotalHolds(Run(s, steps), o, AddedTo(s, steps, o))
  {
    if steps != [] {
      var n := |steps| - 1;
      RunTotals(s, steps[..n], o);
      NextTotals(Run(s, steps[..n]), steps[n], o, AddedTo(s, steps[..n], o));
    }
  }

  predicate FairItems(items: seq<Item>) { forall it <- items :: it.total >= 0 && it.discount >= 0 }

  lemma {:induction false} NextFairItems(s: State, step: Step)
    requires FairItems(s.items) && Fair(step)
    ensures FairItems(Next(s, step).items)
  {
    match step.op
    case PlaceOrder(drafts) =>
      forall i | 0 <= i < |drafts| ensures FairLine(PriceAll(drafts)[i]) {
        assert drafts[i] in drafts;
        PricedFairly(drafts[i]);
      }
      FairInserts(s.nextItem, s.nextOrder, PriceAll(drafts));
    case AddLine(_, d) => PricedFairly(d);
    case DeleteOrder(o) =>
      forall it <- Filter(s.items, KeepItem(o)) ensures it in s.items {
        FilterMember(s.items, KeepItem(o), it);
      }
    case PublicOrder(_, lines) => FairInserts(s.nextItem, s.nextOrder, lines);
    case _ =>
  }

  lemma {:induction false} FairInserts(id: nat, o: nat, lines: seq<Line>)
    requires forall l <- lines :: FairLine(l)
    ensures FairItems(NewItems(id, o, lines))
  {
    var added := NewItems(id, o, lines);
    forall i | 0 <= i < |lines| ensures added[i].total >= 0 && added[i].discount >= 0 {
      assert lines[i] in lines;
    }
  }

  lemma {:induction false} RunFairItems(s: State, steps: seq<Step>)
    requires FairItems(s.items) && forall step <- steps :: Fair(step)
    ensures FairItems(Run(s, steps).items)
  {
    if steps != [] {
      RunFairItems(s, steps[..|steps| - 1]);
      NextFairItems(Run(s, steps[..|steps| - 1]), steps[|steps| - 1]);
    }
  }

  /** The stored totals of a run, exactly: an order's total is the sum of its net lines iff no
      line was added to it or it carries no discount, and it is negative iff lines were added
      and the discounts exceed that sum. */
  lemma {:induction false} RunTotalIff(s: State, steps: seq<Step>, o: nat)
    requires TotalHolds(s, o, false) && FairItems(s.items) && forall step <- steps :: Fair(step)
    ensures var t, added := Run(s, steps), AddedTo(s, steps, o);
      o in t.orders ==>
        && (t.orders[o].total == NetOf(t, o) <==> !added || DiscountsOf(t, o) == 0)
        && (t.orders[o].total < 0 <==> added && DiscountsOf(t, o) > NetOf(t, o))
  {
    var t := Run(s, steps);
    RunTotals(s, steps, o);
    RunFairItems(s, steps);
    SumNonNegative(t.items, TotalOf(o));
  }

  /** The failing run: a line of 100 is given away in full to an order that had none. */
  lemma {:induction false} GivenAwayLineGoesNegative()
    ensures var s := State(map[7 := Product("ana", false)], map[], map[0 := Order("ana", OrderPending, 0, 0, 0)],
                           [], [], [], 1, 0);
      var step := Step(Actor("ana", false), AddLine(0, Draft(7, 1, 100, 100)));
      && TotalHolds(s, 0, false) && Fair(step) && Adds(s, step, 0)
      && Next(s, step).orders == map[0 := Order("ana", OrderPending, 0, 100, -100)]
  {
    var s := State(map[7 := Product("ana", false)], map[], map[0 := Order("ana", OrderPending, 0, 0, 0)],
                   [], [], [], 1, 0);
    var l := Price(Draft(7, 1, 100, 100));
    assert l == Line(7, 1, 100, 0);
    AddedTotalIsNetIff(s, Actor("ana", false), 0, l);
  }
}
