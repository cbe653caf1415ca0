/** Charges: their amounts, their derived status, and the sync that bills per-sale orders. */
module Billing {
  import opened Tables

  datatype ChargeStatus = Unpaid | Partial | Paid | Overdue | Void

  datatype PaymentStatus = AwaitingPayment | Confirmed | VoidPayment

  /** Dates are day numbers; amounts are integer cents. */
  datatype Charge = Charge(
    order: nat, number: string, total: int, paid: int,
    status: ChargeStatus, payment: PaymentStatus, due: Option<int>, paidOn: Option<int>)

  datatype BilledOrder = BilledOrder(
    seller: string, number: string, total: int, canceled: bool, perSale: bool, createdOn: int)

  datatype Books = Books(orders: map<nat, BilledOrder>, charges: map<nat, Charge>, nextCharge: nat)

  datatype Caller = Caller(seller: string, admin: bool, today: int) {
    predicate May(owner: string) { admin || owner == seller }
  }

  // ---- deriveBillingStatus and the overdue overlay ----

  function Derive(paid: int, total: int): (ChargeStatus, PaymentStatus) {
    if paid <= 0 then (Unpaid, AwaitingPayment)
    else if paid >= total then (Paid, Confirmed)
    else (Partial, AwaitingPayment)
  }

  /** What a read shows; never what is stored. */
  function ApplyOverdue(c: Charge, today: int): Charge {
    if (c.status == Unpaid || c.status == Partial) && c.due.Some? && c.due.value < today then c.(status := Overdue)
    else c
  }

  // ---- Charge requests ----

  predicate NumberTaken(s: Books, number: string) { exists id <- s.charges :: s.charges[id].number == number }

  function Insert(s: Books, c: Charge): Books {
    s.(charges := s.charges[s.nextCharge := c], nextCharge := s.nextCharge + 1)
  }

  function NewCharge(order: nat, number: string, total: int, paid: int, due: Option<int>, paidOn: Option<int>): Charge {
    var (status, payment) := Derive(paid, total);
    Charge(order, number, total, paid, status, payment, due, paidOn)
  }

  datatype Draft = Draft(number: string, total: int, paid: int, due: Option<int>, paidOn: Option<int>)

  function Create(s: Books, who: Caller, o: nat, d: Draft): Result<Books> {
    if o !in s.orders || !who.May(s.orders[o].seller) then Failure(NotFound)
    else if d.paid > d.total then Failure(BadRequest)
    else if NumberTaken(s, d.number) then Failure(BadRequest)
    else Success(Insert(s, NewCharge(o, d.number, d.total, d.paid, d.due, d.paidOn)))
  }

  /** Absent fields stay; a date may also be cleared. */
  datatype Edit = Edit(total: Option<int>, paid: Option<int>, due: Option<Option<int>>, paidOn: Option<Option<int>>)

  predicate Visible(s: Books, who: Caller, id: nat) {
    id in s.charges && s.charges[id].order in s.orders && who.May(s.orders[s.charges[id].order].seller)
  }

  function EditedDate(c: Charge, e: Edit, today: int): Option<int> {
    if e.paidOn.Some? then e.paidOn.value
    else if e.paid.Some? && e.paid.value > 0 && c.paidOn.None? then Some(today)
    else c.paidOn
  }

  function Edited(c: Charge, e: Edit, today: int): Charge {
    var seen := ApplyOverdue(c, today);
    var total, paid := e.total.GetOr(seen.total), e.paid.GetOr(seen.paid);
    var (status, payment) := if seen.status == Void then (c.status, c.payment) else Derive(paid, total);
    c.(total := total, paid := paid, status := status, payment := payment,
       due := e.due.GetOr(c.due), paidOn := EditedDate(c, e, today))
  }

  function Update(s: Books, who: Caller, id: nat, e: Edit): Result<Books> {
    if !Visible(s, who, id) then Failure(NotFound)
    else
      var c := s.charges[id];
      if e.paid.GetOr(c.paid) > e.total.GetOr(c.total) then Failure(BadRequest)
      else Success(s.(charges := s.charges[id := Edited(c, e, who.today)]))
  }

  function Voided(c: Charge): Charge { c.(status := Void, payment := VoidPayment) }

  function Cancel(s: Books, who: Caller, id: nat): Result<Books> {
    if !Visible(s, who, id) then Failure(NotFound) else Success(s.(charges := s.charges[id := Voided(s.charges[id])]))
  }

  function Delete(s: Books, who: Caller, id: nat): Result<Books> {
    if !Visible(s, who, id) then Failure(NotFound) else Success(s.(charges := s.charges - {id}))
  }

  // ---- Order requests, as far as charges see them ----

  /** The ORD prefix becomes COB; an empty number falls back on the id. */
  function Recoded(number: string): string { if "ORD" <= number then "COB" + number[3..] else number }

  function Digits(n: nat): string
    decreases n
  {
    var last := ['0' + (n % 10) as char];
    if n < 10 then last else Digits(n / 10) + last
  }

  function SyncNumber(o: nat, number: string): string {
    if Recoded(number) == "" then "COB-" + Digits(o) else Recoded(number)
  }

  /** Order numbers are unique per seller; charge numbers are unique outright. */
  predicate OrderNumberTaken(s: Books, seller: string, number: string) {
    exists o <- s.orders :: s.orders[o].seller == seller && s.orders[o].number == number
  }

  /** The order row alone, as the public catalog inserts it. */
  function PlaceRow(s: Books, o: nat, draft: BilledOrder): Result<Books> {
    if o in s.orders || OrderNumberTaken(s, draft.seller, draft.number) then Failure(BadRequest)
    else Success(s.(orders := s.orders[o := draft.(canceled := false)]))
  }

  /** The charge written with a per-sale order: the order's total, nothing paid, due on the
      day of the sale. */
  function SaleCharge(o: nat, row: BilledOrder): Charge {
    NewCharge(o, Recoded(row.number), row.total, 0, Some(row.createdOn), None)
  }

  /** A per-sale order and its charge are inserted together or not at all. */
  function PlaceOrder(s: Books, o: nat, draft: BilledOrder): Result<Books> {
    match PlaceRow(s, o, draft)
    case Failure(e) => Failure(e)
    case Success(placed) =>
      if !draft.perSale then Success(placed)
      else if NumberTaken(s, Recoded(draft.number)) then Failure(BadRequest)
      else Success(Insert(placed, SaleCharge(o, draft)))
  }

  function SetOrderStatus(s: Books, who: Caller, o: nat, canceled: bool): Result<Books> {
    if o !in s.orders || !who.May(s.orders[o].seller) then Failure(NotFound)
    else Success(Books(
      s.orders[o := s.orders[o].(canceled := canceled)],
      if canceled then map id <- s.charges :: if s.charges[id].order == o then Voided(s.charges[id]) else s.charges[id]
      else s.charges,
      s.nextCharge))
  }

  function DeleteOrder(s: Books, who: Caller, o: nat): Result<Books> {
    if o !in s.orders || !who.May(s.orders[o].seller) then Failure(NotFound)
    else Success(Books(s.orders - {o}, map id <- s.charges | s.charges[id].order != o :: s.charges[id], s.nextCharge))
  }

  /** addItem rewrites the order total. */
  function Retotal(s: Books, o: nat, total: int): Result<Books> {
    if o !in s.orders then Failure(NotFound) else Success(s.(orders := s.orders[o := s.orders[o].(total := total)]))
  }

  // ---- syncBillings ----

  predicate Billed(s: Books, o: nat) { exists id <- s.charges :: s.charges[id].order == o }

  function Unbilled(s: Books, who: Caller): set<nat> {
    set o <- s.orders | who.May(s.orders[o].seller) && s.orders[o].perSale && !s.orders[o].canceled && !Billed(s, o)
  }

  datatype Synced = Synced(books: Books, created: seq<string>)

  /** The charge that the sync writes for an order. */
  function SyncCharge(o: nat, row: BilledOrder): Charge {
    NewCharge(o, SyncNumber(o, row.number), row.total, 0, Some(row.createdOn), None)
  }

  /** One turn of the loop; `down` holds the orders whose write fails for outside reasons. */
  function SyncOne(t: Synced, o: nat, down: set<nat>): Synced {
    if o !in t.books.orders || o in down || NumberTaken(t.books, SyncNumber(o, t.books.orders[o].number)) then t
    else
      var c := SyncCharge(o, t.books.orders[o]);
      Synced(Insert(t.books, c), t.created + [c.number])
  }

  function SyncAll(s: Books, ids: seq<nat>, down: set<nat>): Synced {
    if ids == [] then Synced(s, []) else SyncOne(SyncAll(s, ids[..|ids| - 1], down), ids[|ids| - 1], down)
  }

  /** The query returns its rows in no stated order. */
  predicate Enumerates(ids: seq<nat>, s: set<nat>) {
    (forall o <- ids :: o in s) && (forall o <- s :: o in ids)
  }

  // ---- What every request keeps ----

  /** What a stored status says about the amounts. */
  predicate StatusFits(c: Charge) {
    && (c.status == Void <==> c.payment == VoidPayment)
    && (c.status != Void ==>
          && (c.status == Unpaid <==> c.paid <= 0)
          && (c.status == Partial <==> 0 < c.paid < c.total)
          && (c.status == Paid <==> 0 < c.paid && c.paid >= c.total)
          && (c.payment == Confirmed <==> c.status == Paid))
  }

  predicate ChargeOk(c: Charge) { 0 <= c.paid <= c.total && StatusFits(c) }

  predicate ChargesOk(s: Books) { forall id <- s.charges :: ChargeOk(s.charges[id]) }

  predicate Shaped(s: Books) {
    forall id <- s.charges :: id < s.nextCharge && s.charges[id].order in s.orders
  }

  datatype Request =
    | CreateCharge(order: nat, draft: Draft)
    | UpdateCharge(id: nat, edit: Edit)
    | CancelCharge(id: nat)
    | DeleteCharge(id: nat)
    | Place(order: nat, row: BilledOrder)
    | PlacePublic(order: nat, row: BilledOrder)
    | Status(order: nat, canceled: bool)
    | Remove(order: nat)
    | AddLine(order: nat, total: int)
    | SyncBillings(ids: seq<nat>, down: set<nat>)

  datatype Step = Step(who: Caller, request: Request)

  function OrElse(r: Result<Books>, s: Books): Books { if r.Success? then r.value else s }

  function Next(s: Books, step: Step): Books {
    match step.request
    case CreateCharge(o, d) => OrElse(Create(s, step.who, o, d), s)
    case UpdateCharge(id, e) => OrElse(Update(s, step.who, id, e), s)
    case CancelCharge(id) => OrElse(Cancel(s, step.who, id), s)
    case DeleteCharge(id) => OrElse(Delete(s, step.who, id), s)
    case Place(o, row) => OrElse(PlaceOrder(s, o, row), s)
    case PlacePublic(o, row) => OrElse(PlaceRow(s, o, row), s)
    case Status(o, canceled) => OrElse(SetOrderStatus(s, step.who, o, canceled), s)
    case Remove(o) => OrElse(DeleteOrder(s, step.who, o), s)
    case AddLine(o, total) => OrElse(Retotal(s, o, total), s)
    case SyncBillings(ids, down) => SyncAll(s, ids, down).books
  }

  /** Amounts pass the schemas, and pricing makes no negative total; addItem may. */
  predicate Priced(step: Step) {
    match step.request
    case CreateCharge(_, d) => d.total >= 0 && d.paid >= 0
    case UpdateCharge(_, e) => e.total.GetOr(0) >= 0 && e.paid.GetOr(0) >= 0
    case Place(_, row) => row.total >= 0
    case _ => true
  }

  /** No charge leaves Void but by deletion, and no deleted number is used again. */
  predicate VoidStays(s: Books, t: Books) {
    s.nextCharge <= t.nextCharge &&
    forall id <- t.charges | id < s.nextCharge ::
      && id in s.charges && s.charges[id].order == t.charges[id].order
      && (s.charges[id].status == Void ==> t.charges[id].status == Void)
  }

  lemma {:induction false} SyncAllShaped(s: Books, ids: seq<nat>, down: set<nat>)
    requires Shaped(s)
    ensures var t := SyncAll(s, ids, down).books; Shaped(t) && VoidStays(s, t) && t.orders == s.orders
  {
    if ids != [] {
      SyncAllShaped(s, ids[..|ids| - 1], down);
    }
  }

  lemma {:induction false} NextShaped(s: Books, step: Step)
    requires Shaped(s)
    ensures Shaped(Next(s, step)) && VoidStays(s, Next(s, step))
  {
    match step.request
    case UpdateCharge(id, e) => UpdateShaped(s, step.who, id, e);
    case SyncBillings(ids, down) => SyncAllShaped(s, ids, down);
    case Status(o, canceled) => StatusShaped(s, step.who, o, canceled);
    case Remove(o) => RemoveShaped(s, step.who, o);
    case Place(o, row) => PlaceShaped(s, o, row);
    case _ =>
  }

  lemma {:induction false} UpdateShaped(s: Books, who: Caller, id: nat, e: Edit)
    requires Shaped(s)
    ensures var r := Update(s, who, id, e); r.Success? ==> Shaped(r.value) && VoidStays(s, r.value)
  {
  }

  lemma {:induction false} StatusShaped(s: Books, who: Caller, o: nat, canceled: bool)
    requires Shaped(s)
    ensures var r := SetOrderStatus(s, who, o, canceled); r.Success? ==> Shaped(r.value) && VoidStays(s, r.value)
  {
  }

  lemma {:induction false} PlaceShaped(s: Books, o: nat, row: BilledOrder)
    requires Shaped(s)
    ensures var r := PlaceOrder(s, o, row); r.Success? ==> Shaped(r.value) && VoidStays(s, r.value)
  {
  }

  lemma {:induction false} RemoveShaped(s: Books, who: Caller, o: nat)
    requires Shaped(s)
    ensures var r := DeleteOrder(s, who, o); r.Success? ==> Shaped(r.value) && VoidStays(s, r.value)
  {
  }

  function Run(s: Books, steps: seq<Step>): Books {
    if steps == [] then s else Next(Run(s, steps[..|steps| - 1]), steps[|steps| - 1])
  }

  /** Void is terminal: a voided charge is void in every later state that still holds it. */
  lemma {:induction false} VoidForever(s: Books, steps: seq<Step>, id: nat)
    requires Shaped(s) && id in s.charges && s.charges[id].status == Void
    ensures var t := Run(s, steps);
      Shaped(t) && s.nextCharge <= t.nextCharge && (id in t.charges ==> t.charges[id].status == Void)
  {
    if steps != [] {
      var n := |steps| - 1;
      VoidForever(s, steps[..n], id);
      NextShaped(Run(s, steps[..n]), steps[n]);
    }
  }

  // ---- The status follows the amounts ----

  predicate AllFit(s: Books) { forall id <- s.charges :: StatusFits(s.charges[id]) && s.charges[id].status != Overdue }

  lemma {:induction false} InsertFits(s: Books, o: nat, number: string, total: int, paid: int, due: Option<int>,
                                      paidOn: Option<int>)
    requires AllFit(s)
    ensures AllFit(Insert(s, NewCharge(o, number, total, paid, due, paidOn)))
  {
  }

  lemma {:induction false} SyncAllFits(s: Books, ids: seq<nat>, down: set<nat>)
    requires AllFit(s)
    ensures AllFit(SyncAll(s, ids, down).books)
  {
    if ids != [] {
      var n := |ids| - 1;
      var t := SyncAll(s, ids[..n], down).books;
      SyncAllFits(s, ids[..n], down);
      if ids[n] in t.orders {
        var row := t.orders[ids[n]];
        InsertFits(t, ids[n], SyncNumber(ids[n], row.number), row.total, 0, Some(row.createdOn), None);
      }
    }
  }

  lemma {:induction false} UpdateFits(s: Books, who: Caller, id: nat, e: Edit)
    requires AllFit(s)
    ensures AllFit(OrElse(Update(s, who, id, e), s))
  {
    if id in s.charges {
      assert StatusFits(s.charges[id]);
    }
  }

  lemma {:induction false} PlaceFits(s: Books, o: nat, row: BilledOrder)
    requires AllFit(s)
    ensures AllFit(OrElse(PlaceOrder(s, o, row), s))
  {
    InsertFits(s.(orders := s.orders[o := row.(canceled := false)]),
               o, Recoded(row.number), row.total, 0, Some(row.createdOn), None);
  }

  lemma {:induction false} UndoFits(s: Books, who: Caller, o: nat, canceled: bool)
    requires AllFit(s)
    ensures AllFit(OrElse(SetOrderStatus(s, who, o, canceled), s)) && AllFit(OrElse(DeleteOrder(s, who, o), s))
  {
  }

  lemma {:induction false} NextFits(s: Books, step: Step)
    requires AllFit(s)
    ensures AllFit(Next(s, step))
  {
    match step.request
    case CreateCharge(o, d) => InsertFits(s, o, d.number, d.total, d.paid, d.due, d.paidOn);
    case UpdateCharge(id, e) => UpdateFits(s, step.who, id, e);
    case Place(o, row) => PlaceFits(s, o, row);
    case Status(o, canceled) => UndoFits(s, step.who, o, canceled);
    case Remove(o) => UndoFits(s, step.who, o, false);
    case SyncBillings(ids, down) => SyncAllFits(s, ids, down);
    case _ =>
  }

  /** In every run, whatever amounts come in: a charge that is not void is Unpaid exactly when
      nothing is paid, Paid exactly when all of it is, Partial exactly in between; its payment
      is confirmed exactly when it is Paid; and Overdue is never stored. */
  lemma {:induction false} RunStatusFits(s: Books, steps: seq<Step>)
    requires AllFit(s)
    ensures var t := Run(s, steps); forall id <- t.charges | t.charges[id].status != Void ::
      var c := t.charges[id];
      && (c.status == Unpaid <==> c.paid <= 0)
      && (c.status == Partial <==> 0 < c.paid < c.total)
      && (c.status == Paid <==> 0 < c.paid && c.paid >= c.total)
      && (c.payment == Confirmed <==> c.status == Paid)
      && c.status != Overdue
    ensures AllFit(Run(s, steps))
  {
    if steps != [] {
      RunStatusFits(s, steps[..|steps| - 1]);
      NextFits(Run(s, steps[..|steps| - 1]), steps[|steps| - 1]);
    }
    var t := Run(s, steps);
    forall id <- t.charges ensures StatusFits(t.charges[id]) && t.charges[id].status != Overdue {
    }
  }

  // ---- What a sync writes ----

  /** The orders a sync bills: of those it finds and can write, the first to need a number
      that is free. */
  function ToBill(s: Books, ids: seq<nat>, down: set<nat>): (bills: seq<nat>)
    ensures forall o <- bills :: o in s.orders && o in ids
  {
    if ids == [] then []
    else
      var n := |ids| - 1;
      var o, front := ids[n], ToBill(s, ids[..n], down);
      if o in s.orders && o !in down && !NeedsNumber(s, front, SyncNumber(o, s.orders[o].number)) &&
         !NumberTaken(s, SyncNumber(o, s.orders[o].number))
      then front + [o]
      else front
  }

  predicate NeedsNumber(s: Books, bills: seq<nat>, number: string) {
    exists x <- bills :: x in s.orders && SyncNumber(x, s.orders[x].number) == number
  }

  /** A sync adds one charge for each order in `bills`, in that order, each the mirror of
      its order; the charges there were stay as they were. */
  ghost predicate AddsMirrors(s: Books, bills: seq<nat>, t: Synced)
    requires forall o <- bills :: o in s.orders
  {
    && t.books.orders == s.orders && t.books.nextCharge == s.nextCharge + |bills|
    && (forall id :: id in t.books.charges <==> id in s.charges || s.nextCharge <= id < t.books.nextCharge)
    && (forall id <- s.charges :: t.books.charges[id] == s.charges[id])
    && (forall i | 0 <= i < |bills| ::
          t.books.charges[s.nextCharge + i] == SyncCharge(bills[i], s.orders[bills[i]]))
    && t.created == seq(|bills|, i requires 0 <= i < |bills| => SyncNumber(bills[i], s.orders[bills[i]].number))
  }

  lemma {:induction false} MirrorNumbers(s: Books, bills: seq<nat>, t: Synced, number: string)
    requires Shaped(s) && (forall o <- bills :: o in s.orders) && AddsMirrors(s, bills, t)
    ensures NumberTaken(t.books, number) <==> NumberTaken(s, number) || NeedsNumber(s, bills, number)
  {
    if NumberTaken(t.books, number) {
      var id :| id in t.books.charges && t.books.charges[id].number == number;
      if id !in s.charges {
        var i := id - s.nextCharge;
        assert t.books.charges[s.nextCharge + i].number == number;
        assert bills[i] in bills;
      }
    }
    if NumberTaken(s, number) {
      var id :| id in s.charges && s.charges[id].number == number;
      assert t.books.charges[id].number == number;
    }
    if NeedsNumber(s, bills, number) {
      var i :| 0 <= i < |bills| && SyncNumber(bills[i], s.orders[bills[i]].number) == number;
      assert t.books.charges[s.nextCharge + i].number == number;
    }
  }

  lemma {:induction false} SyncMirrors(s: Books, ids: seq<nat>, down: set<nat>)
    requires Shaped(s)
    ensures AddsMirrors(s, ToBill(s, ids, down), SyncAll(s, ids, down))
  {
    if ids != [] {
      var n := |ids| - 1;
      SyncMirrors(s, ids[..n], down);
      if ids[n] in s.orders {
        var number := SyncNumber(ids[n], s.orders[ids[n]].number);
        MirrorNumbers(s, ToBill(s, ids[..n], down), SyncAll(s, ids[..n], down), number);
      }
    }
  }

  /** A charge of the sync shows as overdue only after the day of the sale. */
  lemma {:induction false} SyncedOverdueIff(s: Books, ids: seq<nat>, down: set<nat>, id: nat, today: int)
    requires Shaped(s) && id !in s.charges && id in SyncAll(s, ids, down).books.charges
    ensures var c := SyncAll(s, ids, down).books.charges[id];
      && c.order in s.orders && c.order in ids && c.total == s.orders[c.order].total && c.paid == 0
      && (ApplyOverdue(c, today).status == Overdue <==> s.orders[c.order].createdOn < today)
  {
    SyncMirrors(s, ids, down);
    var o := MirrorAt(s, ToBill(s, ids, down), SyncAll(s, ids, down), id);
  }

  lemma {:induction false} MirrorAt(s: Books, bills: seq<nat>, t: Synced, id: nat) returns (o: nat)
    requires (forall o <- bills :: o in s.orders) && AddsMirrors(s, bills, t)
    requires id in t.books.charges && id !in s.charges
    ensures o in bills && t.books.charges[id] == SyncCharge(o, s.orders[o])
  {
    var i := id - s.nextCharge;
    o := bills[i];
    assert t.books.charges[s.nextCharge + i] == SyncCharge(o, s.orders[o]);
  }

  // ---- Sound charges ----

  /** The sync bills no order whose total is negative. */
  predicate Harmless(s: Books, step: Step) {
    step.request.SyncBillings? ==>
      forall o <- ToBill(s, step.request.ids, step.request.down) :: s.orders[o].total >= 0
  }

  lemma {:induction false} MirrorsOkIff(s: Books, bills: seq<nat>, t: Synced)
    requires ChargesOk(s) && (forall o <- bills :: o in s.orders) && AddsMirrors(s, bills, t)
    ensures ChargesOk(t.books) <==> forall o <- bills :: s.orders[o].total >= 0
  {
    if forall o <- bills :: s.orders[o].total >= 0 {
      forall id <- t.books.charges ensures ChargeOk(t.books.charges[id]) {
        if id !in s.charges {
          var o := MirrorAt(s, bills, t, id);
        }
      }
    } else {
      var i :| 0 <= i < |bills| && s.orders[bills[i]].total < 0;
      assert t.books.charges[s.nextCharge + i] == SyncCharge(bills[i], s.orders[bills[i]]);
      assert !ChargeOk(t.books.charges[s.nextCharge + i]);
    }
  }

  lemma {:induction false} SyncKeepsIff(s: Books, ids: seq<nat>, down: set<nat>)
    requires Shaped(s) && ChargesOk(s)
    ensures ChargesOk(SyncAll(s, ids, down).books) <==> forall o <- ToBill(s, ids, down) :: s.orders[o].total >= 0
  {
    SyncMirrors(s, ids, down);
    MirrorsOkIff(s, ToBill(s, ids, down), SyncAll(s, ids, down));
  }

  lemma {:induction false} UpdateKeeps(s: Books, who: Caller, id: nat, e: Edit)
    requires ChargesOk(s) && e.total.GetOr(0) >= 0 && e.paid.GetOr(0) >= 0
    ensures ChargesOk(OrElse(Update(s, who, id, e), s))
  {
    if id in s.charges {
      assert ChargeOk(s.charges[id]);
    }
  }

  lemma {:induction false} InsertKeeps(s: Books, c: Charge)
    requires ChargesOk(s) && ChargeOk(c)
    ensures ChargesOk(Insert(s, c))
  {
  }

  lemma {:induction false} PlaceKeeps(s: Books, o: nat, row: BilledOrder)
    requires ChargesOk(s) && row.total >= 0
    ensures ChargesOk(OrElse(PlaceOrder(s, o, row), s))
  {
    if PlaceOrder(s, o, row).Success? && row.perSale {
      InsertKeeps(s.(orders := s.orders[o := row.(canceled := false)]), SaleCharge(o, row));
    }
  }

  lemma {:induction false} CreateKeeps(s: Books, who: Caller, o: nat, d: Draft)
    requires ChargesOk(s) && d.total >= 0 && d.paid >= 0
    ensures ChargesOk(OrElse(Create(s, who, o, d), s))
  {
    if Create(s, who, o, d).Success? {
      InsertKeeps(s, NewCharge(o, d.number, d.total, d.paid, d.due, d.paidOn));
    }
  }

  lemma {:induction false} NextKeeps(s: Books, step: Step)
    requires ChargesOk(s) && Priced(step) && !step.request.SyncBillings?
    ensures ChargesOk(Next(s, step))
  {
    match step.request
    case CreateCharge(o, d) => CreateKeeps(s, step.who, o, d);
    case UpdateCharge(id, e) => UpdateKeeps(s, step.who, id, e);
    case Place(o, row) => PlaceKeeps(s, o, row);
    case _ =>
  }

  lemma {:induction false} NextKeepsIff(s: Books, step: Step, after: Books)
    requires Shaped(s) && ChargesOk(s) && Priced(step) && after == Next(s, step)
    ensures ChargesOk(after) <==> Harmless(s, step)
  {
    match step.request
    case SyncBillings(ids, down) => SyncHarmlessIff(s, step, ids, down);
    case _ => NextKeeps(s, step);
  }

  lemma {:induction false} SyncHarmlessIff(s: Books, step: Step, ids: seq<nat>, down: set<nat>)
    requires Shaped(s) && ChargesOk(s) && step.request == Request.SyncBillings(ids, down)
    ensures Harmless(s, step) <==> ChargesOk(SyncAll(s, ids, down).books)
  {
    SyncKeepsIff(s, ids, down);
  }

  /** Every state of the run holds sound charges only. */
  predicate SoundThroughout(s: Books, steps: seq<Step>) {
    (steps == [] || SoundThroughout(s, steps[..|steps| - 1])) && ChargesOk(Run(s, steps))
  }

  predicate HarmlessThroughout(s: Books, steps: seq<Step>) {
    steps == [] ||
    (HarmlessThroughout(s, steps[..|steps| - 1]) && Harmless(Run(s, steps[..|steps| - 1]), steps[|steps| - 1]))
  }

  /** Over every run, added lines of any total included: in all states paid stays within 0
      and the total, a charge that is not void has the status its amounts derive, and
      Overdue is never stored, if and only if no sync bills an order whose total is negative. */
  lemma {:induction false} RunKeepsBooksIff(s: Books, steps: seq<Step>)
    requires Shaped(s) && ChargesOk(s) && forall step <- steps :: Priced(step)
    ensures Shaped(Run(s, steps))
    ensures SoundThroughout(s, steps) <==> HarmlessThroughout(s, steps)
  {
    if steps != [] {
      var n := |steps| - 1;
      RunKeepsBooksIff(s, steps[..n]);
      NextShaped(Run(s, steps[..n]), steps[n]);
      if ChargesOk(Run(s, steps[..n])) {
        NextKeepsIff(Run(s, steps[..n]), steps[n], Run(s, steps));
      }
    }
  }

  /** The failing run: an unbilled order whose added line made its total -100 is synced. The
      charge cannot even be edited before its total is raised. */
  lemma {:induction false} NegativeTotalSynced(e: Edit)
    requires e.total.None? && e.paid.GetOr(0) >= 0
    ensures var who := Caller("ana", false, 9);
      var s := Books(map[0 := BilledOrder("ana", "PED-1", 0, false, true, 8)], map[], 0);
      var t := Run(s, [Step(who, AddLine(0, -100)), Step(who, SyncBillings([0], {}))]);
      && Shaped(s) && ChargesOk(s)
      && t.charges == map[0 := Charge(0, "PED-1", -100, 0, Unpaid, AwaitingPayment, Some(8), None)]
      && !ChargesOk(t) && Update(t, who, 0, e) == Failure(BadRequest)
  {
    var who := Caller("ana", false, 9);
    var s := Books(map[0 := BilledOrder("ana", "PED-1", 0, false, true, 8)], map[], 0);
    var steps := [Step(who, AddLine(0, -100)), Step(who, SyncBillings([0], {}))];
    var s1, t1 := Next(s, steps[0]), Synced(Next(s, steps[0]), []);
    assert steps[..1][..0] == [] && Run(s, steps[..1][..0]) == s;
    assert Run(s, steps[..1]) == s1;
    assert "ORD"[0] != "PED-1"[0];
    assert [0][..0] == [] && SyncAll(s1, [0][..0], {}) == t1;
    assert SyncAll(s1, [0], {}) == SyncOne(t1, 0, {});
    assert Run(s, steps) == Next(s1, steps[1]);
  }

  // ---- A sync leaves nothing for the next ----

  /** What stays unbilled after a sync, and why. */
  lemma {:induction false} SyncAllBills(s: Books, ids: seq<nat>, down: set<nat>)
    requires (forall o <- ids :: o in s.orders) && (forall id <- s.charges :: id < s.nextCharge)
    ensures var t := SyncAll(s, ids, down).books;
      && t.orders == s.orders
      && (forall id <- t.charges :: id < t.nextCharge)
      && (forall id <- s.charges :: id in t.charges && t.charges[id] == s.charges[id])
      && (forall o :: Billed(s, o) ==> Billed(t, o))
      && (forall o :: Billed(t, o) ==> Billed(s, o) || o in ids)
      && (forall o <- ids :: Billed(t, o) || o in down || NumberTaken(t, SyncNumber(o, s.orders[o].number)))
  {
    if ids != [] {
      var n := |ids| - 1;
      assert ids == ids[..n] + [ids[n]];
      SyncAllBills(s, ids[..n], down);
      var before, o := SyncAll(s, ids[..n], down), ids[n];
      assert o in ids;
      SyncOneGrows(before, o, down);
    }
  }

  lemma SyncOneGrows(t: Synced, o: nat, down: set<nat>)
    requires o in t.books.orders && forall id <- t.books.charges :: id < t.books.nextCharge
    ensures var u, number := SyncOne(t, o, down).books, SyncNumber(o, t.books.orders[o].number);
      && u.orders == t.books.orders
      && (forall id <- u.charges :: id < u.nextCharge)
      && (forall id <- t.books.charges :: id in u.charges && u.charges[id] == t.books.charges[id])
      && (forall x :: Billed(t.books, x) ==> Billed(u, x))
      && (forall x :: Billed(u, x) ==> Billed(t.books, x) || x == o)
      && (forall n :: NumberTaken(t.books, n) ==> NumberTaken(u, n))
      && (Billed(u, o) || o in down || NumberTaken(u, number))
  {
    var u := SyncOne(t, o, down).books;
    if u != t.books {
      assert u.charges[t.books.nextCharge].order == o;
    }
  }

  lemma {:induction false} SyncAllSkips(s: Books, ids: seq<nat>, down: set<nat>)
    requires forall o <- ids :: o in s.orders && NumberTaken(s, SyncNumber(o, s.orders[o].number))
    ensures SyncAll(s, ids, down) == Synced(s, [])
  {
    if ids != [] {
      SyncAllSkips(s, ids[..|ids| - 1], down);
      assert ids[|ids| - 1] in ids;
    }
  }

  /** A sync right after one without outside failures creates nothing, even where charge
      numbers collide and even in the orders it could not bill. */
  lemma SyncTwice(s: Books, who: Caller, ids: seq<nat>, again: seq<nat>, down: set<nat>)
    requires forall id <- s.charges :: id < s.nextCharge
    requires Enumerates(ids, Unbilled(s, who))
    requires var t := SyncAll(s, ids, {}).books; Enumerates(again, Unbilled(t, who))
    ensures var t := SyncAll(s, ids, {}).books; SyncAll(t, again, down) == Synced(t, [])
  {
    var t := SyncAll(s, ids, {}).books;
    SyncAllBills(s, ids, {});
    forall o <- again ensures o in t.orders && NumberTaken(t, SyncNumber(o, t.orders[o].number)) {
      assert o in Unbilled(t, who);
      assert o in Unbilled(s, who);
    }
    SyncAllSkips(t, again, down);
  }

  lemma {:induction false} SyncAllCounts(s: Books, ids: seq<nat>, down: set<nat>)
    requires (forall o <- ids :: o in s.orders) && (forall id <- s.charges :: id < s.nextCharge)
    ensures var t := SyncAll(s, ids, down);
      |t.created| <= |ids| && (|t.created| == |ids| ==> forall o <- ids :: Billed(t.books, o))
  {
    if ids != [] {
      var n := |ids| - 1;
      assert ids == ids[..n] + [ids[n]];
      SyncAllCounts(s, ids[..n], down);
      SyncAllBills(s, ids[..n], down);
      assert ids[n] in ids;
      SyncOneGrows(SyncAll(s, ids[..n], down), ids[n], down);
      var t, u := SyncAll(s, ids[..n], down).books, SyncAll(s, ids, down).books;
      if u != t {
        assert u.charges[t.nextCharge].order == ids[n];
      }
    }
  }

  /** A sync that reports a charge for every order it found leaves none unbilled. */
  lemma CompleteSyncBillsAll(s: Books, who: Caller, ids: seq<nat>, down: set<nat>)
    requires forall id <- s.charges :: id < s.nextCharge
    requires Enumerates(ids, Unbilled(s, who))
    requires |SyncAll(s, ids, down).created| == |ids|
    ensures Unbilled(SyncAll(s, ids, down).books, who) == {}
  {
    var t := SyncAll(s, ids, down).books;
    SyncAllBills(s, ids, down);
    SyncAllCounts(s, ids, down);
    forall o ensures o !in Unbilled(t, who) {
    }
  }

  // ---- The services over mutable tables ----

  class BillingService {
    var orders: map<nat, BilledOrder>
    var charges: map<nat, Charge>
    var nextCharge: nat

    ghost function Contents(): Books
      reads this
    {
      Books(orders, charges, nextCharge)
    }

    method CreateCharge(who: Caller, o: nat, d: Draft) returns (ok: bool)
      modifies this`charges, this`nextCharge
      ensures var r := Create(old(Contents()), who, o, d); ok == r.Success? && Contents() == OrElse(r, old(Contents()))
    {
      ok := o in orders && (who.admin || orders[o].seller == who.seller) && d.paid <= d.total;
      if ok {
        var (status, payment) := Derive(d.paid, d.total);
        ok := Write(Charge(o, d.number, d.total, d.paid, status, payment, d.due, d.paidOn));
      }
    }

    /** Inserts a charge row; the number is unique. */
    method Write(c: Charge) returns (ok: bool)
      modifies this`charges, this`nextCharge
      ensures ok == !NumberTaken(old(Contents()), c.number)
      ensures Contents() == if ok then Insert(old(Contents()), c) else old(Contents())
    {
      ok := !exists id <- charges :: charges[id].number == c.number;
      if ok {
        charges := charges[nextCharge := c];
        nextCharge := nextCharge + 1;
      }
    }

    method UpdateCharge(who: Caller, id: nat, e: Edit) returns (ok: bool)
      modifies this`charges
      ensures var r := Update(old(Contents()), who, id, e); ok == r.Success? && Contents() == OrElse(r, old(Contents()))
    {
      if id !in charges || charges[id].order !in orders || !who.May(orders[charges[id].order].seller) {
        return false;
      }
      var billing := ApplyOverdue(charges[id], who.today);
      var newTotal, newPaid := e.total.GetOr(billing.total), e.paid.GetOr(billing.paid);
      if newPaid > newTotal {
        return false;
      }
      var row := charges[id].(total := newTotal, paid := newPaid, due := e.due.GetOr(charges[id].due));
      if e.paidOn.Some? {
        row := row.(paidOn := e.paidOn.value);
      } else if e.paid.Some? && e.paid.value > 0 && billing.paidOn.None? {
        row := row.(paidOn := Some(who.today));
      }
      if billing.status != Void {
        var derived := Derive(newPaid, newTotal);
        row := row.(status := derived.0, payment := derived.1);
      }
      charges := charges[id := row];
      ok := true;
    }

    method CancelCharge(who: Caller, id: nat) returns (ok: bool)
      modifies this`charges
      ensures var r := Cancel(old(Contents()), who, id); ok == r.Success? && Contents() == OrElse(r, old(Contents()))
    {
      ok := id in charges && charges[id].order in orders && who.May(orders[charges[id].order].seller);
      if ok {
        charges := charges[id := charges[id].(status := Void, payment := VoidPayment)];
      }
    }

    /** Bills every per-sale order without a charge, in whatever order the query finds them. */
    method SyncBillings(who: Caller, down: set<nat>) returns (created: seq<string>, ghost ids: seq<nat>)
      modifies this`charges, this`nextCharge
      ensures Enumerates(ids, Unbilled(old(Contents()), who))
      ensures Synced(Contents(), created) == SyncAll(old(Contents()), ids, down)
    {
      var rest := set o <- orders |
        who.May(orders[o].seller) && orders[o].perSale && !orders[o].canceled &&
        !exists id <- charges :: charges[id].order == o;
      ghost var unbilled := rest;
      assert unbilled == Unbilled(Contents(), who);
      created, ids := [], [];
      while rest != {}
        invariant rest <= unbilled && forall o <- unbilled :: o in rest || o in ids
        invariant forall o <- ids :: o in unbilled
        invariant Synced(Contents(), created) == SyncAll(old(Contents()), ids, down) && orders == old(orders)
        decreases rest
      {
        var o :| o in rest;
        rest := rest - {o};
        assert (ids + [o])[..|ids|] == ids;
        ids := ids + [o];
        if o !in down {
          var order := orders[o];
          var number := SyncNumber(o, order.number);
          var status := Derive(0, order.total);
          var ok := Write(Charge(o, number, order.total, 0, status.0, status.1, Some(order.createdOn), None));
          if ok {
            created := created + [number];
          }
        }
      }
    }
  }
}
