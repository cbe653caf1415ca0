/** What each billing request does, column by column, and what it leaves alone. */
module BillingEffects {
  import opened Tables
  import opened Billing

  /** An amended charge is `c` in the columns no edit writes. */
  predicate SameCharge(c: Charge, d: Charge) { c.order == d.order && c.number == d.number }

  lemma {:induction false} CreateEffects(s: Books, who: Caller, o: nat, d: Billing.Draft)
    ensures var r := Create(s, who, o, d);
      var may := o in s.orders && (who.admin || s.orders[o].seller == who.seller);
      var free := forall id <- s.charges :: s.charges[id].number != d.number;
      && (r == Failure(NotFound) <==> !may)
      && (r.Success? <==> may && d.paid <= d.total && free)
      && (r.Success? ==>
            && r.value.orders == s.orders && r.value.nextCharge == s.nextCharge + 1
            && r.value.charges.Keys == s.charges.Keys + {s.nextCharge}
            && (forall id <- s.charges | id != s.nextCharge :: r.value.charges[id] == s.charges[id])
            && var c := r.value.charges[s.nextCharge];
            && c.order == o && c.number == d.number && c.total == d.total && c.paid == d.paid
            && c.due == d.due && c.paidOn == d.paidOn && StatusFits(c) && c.status != Void)
  {
  }

  /** Who is refused an edit: whoever cannot see the charge, and amounts paid above total. */
  lemma {:induction false} UpdateAnswers(s: Books, who: Caller, id: nat, e: Edit)
    ensures var r := Update(s, who, id, e);
      var seen := id in s.charges && s.charges[id].order in s.orders &&
        (who.admin || s.orders[s.charges[id].order].seller == who.seller);
      && (r == Failure(NotFound) <==> !seen)
      && (r.Success? <==>
            && seen
            && (if e.paid.Some? then e.paid.value else s.charges[id].paid) <=
               (if e.total.Some? then e.total.value else s.charges[id].total))
  {
  }

  /** Named columns change, the others stay; the first payment is dated today unless a date
      is given or there; and a void charge stays void, whatever the amounts. */
  lemma {:induction false} UpdateEffects(s: Books, who: Caller, id: nat, e: Edit, t: Books)
    requires Update(s, who, id, e) == Success(t)
    ensures t.orders == s.orders && t.nextCharge == s.nextCharge && t.charges.Keys == s.charges.Keys
    ensures forall x <- s.charges | x != id :: t.charges[x] == s.charges[x]
    ensures id in s.charges && SameCharge(t.charges[id], s.charges[id])
    ensures var c, d := s.charges[id], t.charges[id];
      && d.total == (if e.total.Some? then e.total.value else c.total)
      && d.paid == (if e.paid.Some? then e.paid.value else c.paid)
      && d.due == (if e.due.Some? then e.due.value else c.due)
      && d.paidOn == (if e.paidOn.Some? then e.paidOn.value
                      else if c.paidOn.None? && e.paid.Some? && e.paid.value > 0 then Some(who.today)
                      else c.paidOn)
      && (c.status == Void ==> d.status == Void && d.payment == c.payment)
      && (c.status != Void ==> d.status != Void && StatusFits(d))
  {
  }

  /** Cancelling a charge writes its two status columns; deleting it takes the row away. */
  lemma {:induction false} CancelEffects(s: Books, who: Caller, id: nat)
    ensures var r, d := Cancel(s, who, id), Delete(s, who, id);
      var seen := id in s.charges && s.charges[id].order in s.orders &&
        (who.admin || s.orders[s.charges[id].order].seller == who.seller);
      && (r.Success? <==> seen) && (d.Success? <==> seen)
      && (seen ==>
            var c := s.charges[id];
            var void := Charge(c.order, c.number, c.total, c.paid, Void, VoidPayment, c.due, c.paidOn);
            && r.value == Books(s.orders, s.charges[id := void], s.nextCharge)
            && d.value == Books(s.orders, s.charges - {id}, s.nextCharge))
  {
  }

  /** An order row, with the charge of a per-sale order: `COB` for the number's `ORD`. */
  lemma {:induction false} PlaceEffects(s: Books, o: nat, row: BilledOrder)
    ensures var r, placed := PlaceOrder(s, o, row), PlaceRow(s, o, row);
      var free := o !in s.orders && forall x <- s.orders ::
        s.orders[x].seller != row.seller || s.orders[x].number != row.number;
      var kept := BilledOrder(row.seller, row.number, row.total, false, row.perSale, row.createdOn);
      && (placed.Success? <==> free)
      && (free ==> placed.value == Books(s.orders[o := kept], s.charges, s.nextCharge))
      && (r.Success? <==> free && (row.perSale ==> forall id <- s.charges ::
                                     s.charges[id].number != Recoded(row.number)))
      && (r.Success? ==>
            var sale :=
              Charge(o, Recoded(row.number), row.total, 0, Unpaid, AwaitingPayment, Some(row.createdOn), None);
            r.value == if row.perSale
                       then Books(s.orders[o := kept], s.charges[s.nextCharge := sale], s.nextCharge + 1)
                       else placed.value)
  {
  }

  /** Moving an order into canceled voids its charges; every other move leaves them alone. */
  lemma {:induction false} SetOrderStatusEffects(s: Books, who: Caller, o: nat, canceled: bool)
    ensures var r := SetOrderStatus(s, who, o, canceled);
      && (r.Success? <==> o in s.orders && (who.admin || s.orders[o].seller == who.seller))
      && (r.Success? ==>
            var t, row := r.value, s.orders[o];
            && t.nextCharge == s.nextCharge && t.charges.Keys == s.charges.Keys
            && t.orders ==
               s.orders[o := BilledOrder(row.seller, row.number, row.total, canceled, row.perSale, row.createdOn)]
            && forall id <- s.charges ::
                 var c := s.charges[id];
                 t.charges[id] == if canceled && c.order == o
                                  then Charge(c.order, c.number, c.total, c.paid, Void, VoidPayment, c.due, c.paidOn)
                                  else c)
  {
  }

  lemma {:induction false} DeleteOrderEffects(s: Books, who: Caller, o: nat)
    ensures var r := DeleteOrder(s, who, o);
      && (r.Success? <==> o in s.orders && (who.admin || s.orders[o].seller == who.seller))
      && (r.Success? ==>
            && r.value.orders == s.orders - {o} && r.value.nextCharge == s.nextCharge
            && (forall id :: id in r.value.charges <==> id in s.charges && s.charges[id].order != o)
            && (forall id <- r.value.charges :: r.value.charges[id] == s.charges[id]))
  {
  }

  /** The orders a sync looks for. */
  lemma {:induction false} UnbilledIff(s: Books, who: Caller, o: nat)
    ensures o in Unbilled(s, who) <==>
      && o in s.orders && (who.admin || s.orders[o].seller == who.seller)
      && s.orders[o].perSale && !s.orders[o].canceled && forall id <- s.charges :: s.charges[id].order != o
  {
  }

  /** The charge a sync writes, column by column. */
  lemma {:induction false} SyncChargeColumns(o: nat, row: BilledOrder)
    ensures SyncCharge(o, row) ==
      Charge(o, SyncNumber(o, row.number), row.total, 0, Unpaid, AwaitingPayment, Some(row.createdOn), None)
  {
  }

  /** What a read shows: an open charge past its due day is overdue, all else is as stored. */
  lemma {:induction false} OverdueShown(c: Charge, today: int)
    ensures var late := (c.status == Unpaid || c.status == Partial) && c.due.Some? && c.due.value < today;
      ApplyOverdue(c, today) ==
        if late then Charge(c.order, c.number, c.total, c.paid, Overdue, c.payment, c.due, c.paidOn) else c
  {
  }

  // ---- Charge numbers ----

  /** `ORD` at the front becomes `COB`; any other number stays. */
  lemma {:induction false} RecodedNumber(rest: string, other: string)
    requires |other| < 3 || other[0] != 'O' || other[1] != 'R' || other[2] != 'D'
    ensures Recoded(['O', 'R', 'D'] + rest) == ['C', 'O', 'B'] + rest
    ensures Recoded(other) == other
  {
    assert "ORD"[0] == 'O' && "ORD"[1] == 'R' && "ORD"[2] == 'D';
    assert "ORD" <= ['O', 'R', 'D'] + rest && (['O', 'R', 'D'] + rest)[3..] == rest;
  }

  /** The value of a string of decimal digits. */
  function ReadDigits(s: string): int {
    if s == [] then 0 else 10 * ReadDigits(s[..|s| - 1]) + (s[|s| - 1] as int - '0' as int)
  }

  /** An order without a number is billed under its id, in decimal and without leading zeros. */
  lemma {:induction false} DigitsRead(n: nat)
    ensures var s := Digits(n);
      && ReadDigits(s) == n && s != [] && (n > 0 ==> s[0] != '0')
      && forall c <- s :: '0' <= c <= '9'
    decreases n
  {
    var s := Digits(n);
    assert s[..|s| - 1] == if n < 10 then [] else Digits(n / 10);
    if n >= 10 {
      DigitsRead(n / 10);
    }
  }

  lemma {:induction false} SyncNumbers(o: nat, number: string)
    ensures number == "" ==> SyncNumber(o, number) == "COB-" + Digits(o)
    ensures number != "" ==> SyncNumber(o, number) == Recoded(number)
  {
  }
}
