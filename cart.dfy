/** The two-stage proposal cart and the lead log of App.tsx: the pending
    selection made on the catalog screen, the confirmed cart it is committed
    into, and the customer records written when a proposal is downloaded. */
module ProposalCart {
  import opened Wrappers
  import opened Types
  import opened Seqs
  import opened Pricing
  import ProposalPdf

  function Max(a: int, b: int): int { if a >= b then a else b }

  // ---------------------------------------------------------------------
  // Line collections keyed by item id
  // ---------------------------------------------------------------------

  predicate HasId(lines: seq<Line>, id: string) {
    exists i :: 0 <= i < |lines| && lines[i].Id() == id
  }

  predicate DistinctIds(lines: seq<Line>) {
    forall i, j :: 0 <= i < j < |lines| ==> lines[i].Id() != lines[j].Id()
  }

  /** `lines.findIndex(item => item.id === id)`: the first line with the id,
      or -1 when there is none. */
  function IndexOfId(lines: seq<Line>, id: string): (k: int)
    ensures -1 <= k < |lines|
    ensures k >= 0 ==> lines[k].Id() == id && forall j :: 0 <= j < k ==> lines[j].Id() != id
    ensures k == -1 <==> !HasId(lines, id)
  {
    if lines == [] then -1
    else if lines[0].Id() == id then 0
    else
      var k := IndexOfId(lines[1..], id);
      assert forall j :: 1 <= j < |lines| ==> lines[j] == lines[1..][j - 1];
      if k < 0 then -1 else k + 1
  }

  /** The search sees only ids: lists with the same ids at the same places
      give the same answer. */
  lemma SameIdsSameIndex(a: seq<Line>, b: seq<Line>, id: string)
    requires |a| == |b| && forall j :: 0 <= j < |a| ==> a[j].Id() == b[j].Id()
    ensures IndexOfId(a, id) == IndexOfId(b, id)
  {
    var k, m := IndexOfId(a, id), IndexOfId(b, id);
    if k >= 0 {
      assert b[k].Id() == id;
    }
    if m >= 0 {
      assert a[m].Id() == id;
    }
  }

  /** The loop `findIndex` runs, as used by moveToCart. */
  method FindLineIndex(lines: seq<Line>, id: string) returns (k: int)
    ensures k == IndexOfId(lines, id)
  {
    k := 0;
    while k < |lines| && lines[k].Id() != id
      invariant 0 <= k <= |lines|
      invariant forall j :: 0 <= j < k ==> lines[j].Id() != id
    {
      k := k + 1;
    }
    if k == |lines| {
      k := -1;
    }
  }

  function NotId(id: string): Line -> bool { (l: Line) => l.Id() != id }

  /** `lines.filter(item => item.id !== id)`. */
  function RemoveId(lines: seq<Line>, id: string): seq<Line> {
    Filter(lines, NotId(id))
  }

  /** Filtering never introduces a repeated id. */
  lemma {:induction false} FilterKeepsDistinct(lines: seq<Line>, keep: Line -> bool)
    requires DistinctIds(lines)
    ensures DistinctIds(Filter(lines, keep))
    decreases |lines|
  {
    if lines != [] {
      var tail := lines[1..];
      FilterKeepsDistinct(tail, keep);
      var rest := Filter(tail, keep);
      forall j | 0 <= j < |rest| ensures rest[j].Id() != lines[0].Id() {
        var m :| 0 <= m < |tail| && tail[m] == rest[j];
        assert tail[m] == lines[m + 1];
      }
    }
  }

  /** removeFromCart and the removing branch of togglePendingItem drop exactly
      the lines with the id and keep the others, in order. */
  lemma RemoveIdExactly(lines: seq<Line>, id: string)
    ensures !HasId(RemoveId(lines, id), id)
    ensures forall i :: 0 <= i < |lines| && lines[i].Id() != id ==> lines[i] in RemoveId(lines, id)
    ensures forall l :: l in RemoveId(lines, id) ==> l in lines
    ensures !HasId(lines, id) ==> RemoveId(lines, id) == lines
    ensures DistinctIds(lines) ==> DistinctIds(RemoveId(lines, id))
  {
    var r := RemoveId(lines, id);
    forall i | 0 <= i < |lines| && lines[i].Id() != id ensures lines[i] in r {
      assert NotId(id)(lines[i]);
    }
    if !HasId(lines, id) {
      FilterKeepsAll(lines, NotId(id));
    }
    if DistinctIds(lines) {
      FilterKeepsDistinct(lines, NotId(id));
    }
  }

  /** With distinct ids, removing the id of line k leaves the lines before and
      after it. */
  lemma RemoveIdAt(lines: seq<Line>, k: nat)
    requires DistinctIds(lines) && k < |lines|
    ensures RemoveId(lines, lines[k].Id()) == lines[..k] + lines[k + 1..]
  {
    FilterDropsOne(lines, k, NotId(lines[k].Id()));
  }

  // ---------------------------------------------------------------------
  // togglePendingItem (App.tsx:50-59)
  // ---------------------------------------------------------------------

  /** Remove the service's lines when it is selected, else append it with
      quantity 1. */
  function Toggled(pending: seq<Line>, service: ServiceItem): seq<Line> {
    if HasId(pending, service.id) then RemoveId(pending, service.id)
    else pending + [Line(service, 1)]
  }

  /** Toggling flips whether the service is selected and leaves every other
      line as it was. */
  lemma ToggleFlips(pending: seq<Line>, service: ServiceItem)
    ensures HasId(Toggled(pending, service), service.id) <==> !HasId(pending, service.id)
    ensures RemoveId(Toggled(pending, service), service.id) == RemoveId(pending, service.id)
    ensures !HasId(pending, service.id) ==> Toggled(pending, service) == pending + [Line(service, 1)]
  {
    var id := service.id;
    if HasId(pending, id) {
      RemoveIdExactly(pending, id);
      RemoveIdExactly(RemoveId(pending, id), id);
    } else {
      var added := Line(service, 1);
      assert (pending + [added])[|pending|] == added;
      FilterAppend(pending, [added], NotId(id));
      FilterDropsAll([added], NotId(id));
    }
  }

  /** Toggling a service that is not selected twice restores the selection. */
  lemma ToggleTwiceRestores(pending: seq<Line>, service: ServiceItem)
    requires !HasId(pending, service.id)
    ensures Toggled(Toggled(pending, service), service) == pending
  {
    ToggleFlips(pending, service);
    RemoveIdExactly(pending, service.id);
  }

  /** Toggling keeps pending ids distinct and pending quantities at least 1. */
  lemma ToggleKeepsInvariant(pending: seq<Line>, service: ServiceItem)
    requires DistinctIds(pending) && AllAtLeast(pending, 1)
    ensures DistinctIds(Toggled(pending, service)) && AllAtLeast(Toggled(pending, service), 1)
  {
    RemoveIdExactly(pending, service.id);
    var r := Toggled(pending, service);
    if HasId(pending, service.id) {
      forall i | 0 <= i < |r| ensures r[i].quantity >= 1 {
        assert r[i] in pending;
      }
    }
  }

  // ---------------------------------------------------------------------
  // updatePendingQuantity (App.tsx:61-71), updateCartQuantity (App.tsx:97-107)
  // ---------------------------------------------------------------------

  /** The `prev.map` step shared by both quantity updaters: every line with
      the id gets max(floor, quantity + delta). */
  function ChangeQuantity(lines: seq<Line>, id: string, delta: int, floor: int): (r: seq<Line>)
    ensures |r| == |lines|
    ensures forall i :: 0 <= i < |r| ==> r[i].item == lines[i].item
    ensures forall i :: 0 <= i < |r| ==>
      r[i].quantity == if lines[i].Id() == id then Max(floor, lines[i].quantity + delta) else lines[i].quantity
  {
    seq(|lines|, i requires 0 <= i < |lines| =>
      if lines[i].Id() == id then lines[i].(quantity := Max(floor, lines[i].quantity + delta)) else lines[i])
  }

  /** updatePendingQuantity: the floor is 1. */
  function PendingWithDelta(pending: seq<Line>, id: string, delta: int): seq<Line> {
    ChangeQuantity(pending, id, delta, 1)
  }

  /** A pending line never drops below quantity 1; length, order, items and
      the other lines are unchanged; an unknown id changes nothing. */
  lemma PendingDeltaRule(pending: seq<Line>, id: string, delta: int)
    ensures AllAtLeast(pending, 1) ==> AllAtLeast(PendingWithDelta(pending, id, delta), 1)
    ensures forall i :: 0 <= i < |pending| && pending[i].Id() == id ==>
      PendingWithDelta(pending, id, delta)[i].quantity >= 1
    ensures DistinctIds(pending) ==> DistinctIds(PendingWithDelta(pending, id, delta))
    ensures !HasId(pending, id) ==> PendingWithDelta(pending, id, delta) == pending
  {
    var r := PendingWithDelta(pending, id, delta);
    if !HasId(pending, id) {
      assert forall i :: 0 <= i < |r| ==> r[i] == pending[i];
    }
  }

  function Positive(l: Line): bool { l.quantity > 0 }

  /** updateCartQuantity: the floor is 0, and lines left at 0 are dropped. */
  function CartWithDelta(cart: seq<Line>, id: string, delta: int): seq<Line> {
    Filter(ChangeQuantity(cart, id, delta, 0), Positive)
  }

  /** Every remaining cart line has quantity at least 1, and cart ids stay
      distinct. */
  lemma CartDeltaKeepsInvariant(cart: seq<Line>, id: string, delta: int)
    ensures AllAtLeast(CartWithDelta(cart, id, delta), 1)
    ensures DistinctIds(cart) ==> DistinctIds(CartWithDelta(cart, id, delta))
  {
    var r := CartWithDelta(cart, id, delta);
    assert forall i :: 0 <= i < |r| ==> Positive(r[i]);
    if DistinctIds(cart) {
      FilterKeepsDistinct(ChangeQuantity(cart, id, delta, 0), Positive);
    }
  }

  /** With every quantity at least 1 and distinct ids, only the target line
      can change: it takes quantity + delta when that is at least 1 and is
      removed otherwise. */
  lemma CartDeltaAt(cart: seq<Line>, k: nat, delta: int)
    requires DistinctIds(cart) && AllAtLeast(cart, 1) && k < |cart|
    ensures CartWithDelta(cart, cart[k].Id(), delta) ==
      if cart[k].quantity + delta >= 1 then cart[k := cart[k].(quantity := cart[k].quantity + delta)]
      else cart[..k] + cart[k + 1..]
  {
    var x := cart[k].(quantity := Max(0, cart[k].quantity + delta));
    ChangeQuantityAt(cart, k, delta, 0);
    var m := cart[k := x];
    if cart[k].quantity + delta >= 1 {
      FilterKeepsAll(m, Positive);
    } else {
      FilterDropsOne(m, k, Positive);
      assert m[..k] == cart[..k] && m[k + 1..] == cart[k + 1..];
    }
  }

  /** With distinct ids the quantity change touches line k alone. */
  lemma ChangeQuantityAt(lines: seq<Line>, k: nat, delta: int, floor: int)
    requires DistinctIds(lines) && k < |lines|
    ensures ChangeQuantity(lines, lines[k].Id(), delta, floor) ==
      lines[k := lines[k].(quantity := Max(floor, lines[k].quantity + delta))]
  {
  }

  /** An id that is not in a cart of positive quantities changes nothing. */
  lemma CartDeltaAbsent(cart: seq<Line>, id: string, delta: int)
    requires AllAtLeast(cart, 1) && !HasId(cart, id)
    ensures CartWithDelta(cart, id, delta) == cart
  {
    var m := ChangeQuantity(cart, id, delta, 0);
    assert m == cart;
    FilterKeepsAll(cart, Positive);
  }

  // ---------------------------------------------------------------------
  // updateCartPrice (App.tsx:109-111)
  // ---------------------------------------------------------------------

  /** Lines with the id take the new one-time price. */
  function CartWithPrice(cart: seq<Line>, id: string, price: real): (r: seq<Line>)
    ensures |r| == |cart|
    ensures forall i :: 0 <= i < |r| ==> r[i].quantity == cart[i].quantity && r[i].Id() == cart[i].Id()
    ensures forall i :: 0 <= i < |r| ==> r[i].item.(price := cart[i].item.price) == cart[i].item
    ensures forall i :: 0 <= i < |r| ==> if cart[i].Id() == id then r[i].item.price == price else r[i] == cart[i]
  {
    seq(|cart|, i requires 0 <= i < |cart| =>
      if cart[i].Id() == id then cart[i].(item := cart[i].item.(price := price)) else cart[i])
  }

  /** Overriding the price of line k moves the one-time subtotal by the price
      difference times its quantity; the monthly subtotal and the item count
      do not move. */
  lemma PriceChangeEffect(cart: seq<Line>, k: nat, price: real)
    requires DistinctIds(cart) && k < |cart|
    ensures OneTimeSubtotal(CartWithPrice(cart, cart[k].Id(), price)) ==
      OneTimeSubtotal(cart) + (price - cart[k].item.price) * cart[k].quantity as real
    ensures MonthlySubtotal(CartWithPrice(cart, cart[k].Id(), price)) == MonthlySubtotal(cart)
    ensures ItemCount(CartWithPrice(cart, cart[k].Id(), price)) == ItemCount(cart)
    ensures DistinctIds(CartWithPrice(cart, cart[k].Id(), price))
  {
    var x := cart[k].(item := cart[k].item.(price := price));
    PriceChangeOneTime(cart, k, price);
    PriceChangeAt(cart, k, price);
    SumRealUpdate(cart, k, x, LineMonthly);
    assert LineMonthly(x) == LineMonthly(cart[k]);
    SumIntUpdate(cart, k, x, LineQuantity);
  }

  lemma PriceChangeOneTime(cart: seq<Line>, k: nat, price: real)
    requires DistinctIds(cart) && k < |cart|
    ensures OneTimeSubtotal(CartWithPrice(cart, cart[k].Id(), price)) ==
      OneTimeSubtotal(cart) + (price - cart[k].item.price) * cart[k].quantity as real
  {
    var x := cart[k].(item := cart[k].item.(price := price));
    PriceChangeAt(cart, k, price);
    SumRealUpdate(cart, k, x, LineOneTime);
    LineOneTimeDelta(cart[k], x);
  }

  /** The line total changes by the price difference times the quantity. */
  lemma LineOneTimeDelta(l: Line, x: Line)
    requires x.quantity == l.quantity
    ensures LineOneTime(x) - LineOneTime(l) == (x.item.price - l.item.price) * l.quantity as real
  {
    var q := l.quantity as real;
    assert x.item.price * q - l.item.price * q == (x.item.price - l.item.price) * q;
  }

  /** With distinct ids, the price change touches exactly the one line. */
  lemma PriceChangeAt(cart: seq<Line>, k: nat, price: real)
    requires DistinctIds(cart) && k < |cart|
    ensures CartWithPrice(cart, cart[k].Id(), price) == cart[k := cart[k].(item := cart[k].item.(price := price))]
  {
    var x := cart[k].(item := cart[k].item.(price := price));
    var r := CartWithPrice(cart, cart[k].Id(), price);
    forall i | 0 <= i < |r| ensures r[i] == cart[k := x][i] {
      if i != k {
        assert cart[i].Id() != cart[k].Id();
      }
    }
  }

  // ---------------------------------------------------------------------
  // moveToCart (App.tsx:73-91)
  // ---------------------------------------------------------------------

  /** One step of the commit: an existing line with the same id gains the
      pending quantity, otherwise the pending line is appended. */
  function MergeLine(cart: seq<Line>, line: Line): seq<Line> {
    var k := IndexOfId(cart, line.Id());
    if k > -1 then cart[k := cart[k].(quantity := cart[k].quantity + line.quantity)]
    else cart + [line]
  }

  /** The body of the commit loop: finds the line by scanning, then merges. */
  method MergeInto(lines: seq<Line>, line: Line) returns (r: seq<Line>)
    ensures r == MergeLine(lines, line)
  {
    var k := FindLineIndex(lines, line.Id());
    if k > -1 {
      r := lines[k := lines[k].(quantity := lines[k].quantity + line.quantity)];
    } else {
      r := lines + [line];
    }
  }

  /** The whole commit: the pending lines merged in order. */
  function MergeAll(cart: seq<Line>, pending: seq<Line>): seq<Line>
    decreases |pending|
  {
    if pending == [] then cart
    else MergeLine(MergeAll(cart, pending[..|pending| - 1]), pending[|pending| - 1])
  }

  /** The loop of `moveToCart`: a copy of the cart, each pending line merged
      into it in turn. */
  method Commit(cart: seq<Line>, pending: seq<Line>) returns (newCart: seq<Line>)
    ensures newCart == MergeAll(cart, pending)
  {
    newCart := cart;
    var i := 0;
    while i < |pending|
      invariant 0 <= i <= |pending|
      invariant newCart == MergeAll(cart, pending[..i])
    {
      newCart := MergeInto(newCart, pending[i]);
      assert pending[..i + 1][..i] == pending[..i];
      i := i + 1;
    }
    assert pending[..|pending|] == pending;
  }

  function QuantityWithId(id: string): Line -> int {
    (l: Line) => if l.Id() == id then l.quantity else 0
  }

  /** Σ quantity over the lines with the id. */
  function QuantityOf(lines: seq<Line>, id: string): int {
    SumInt(lines, QuantityWithId(id))
  }

  lemma MergeLineQuantities(cart: seq<Line>, line: Line, id: string)
    ensures QuantityOf(MergeLine(cart, line), id) == QuantityOf(cart, id) + QuantityWithId(id)(line)
    ensures ItemCount(MergeLine(cart, line)) == ItemCount(cart) + line.quantity
  {
    var k := IndexOfId(cart, line.Id());
    if k > -1 {
      var x := cart[k].(quantity := cart[k].quantity + line.quantity);
      SumIntUpdate(cart, k, x, QuantityWithId(id));
      SumIntUpdate(cart, k, x, LineQuantity);
    } else {
      SumIntAppend(cart, [line], QuantityWithId(id));
      SumIntAppend(cart, [line], LineQuantity);
      assert [line][..0] == [];
    }
  }

  /** The commit conserves quantity, per id and in total. */
  lemma {:induction false} MergeConservesQuantity(cart: seq<Line>, pending: seq<Line>, id: string)
    ensures QuantityOf(MergeAll(cart, pending), id) == QuantityOf(cart, id) + QuantityOf(pending, id)
    ensures ItemCount(MergeAll(cart, pending)) == ItemCount(cart) + ItemCount(pending)
    decreases |pending|
  {
    if pending != [] {
      var n := |pending|;
      MergeConservesQuantity(cart, pending[..n - 1], id);
      MergeLineQuantities(MergeAll(cart, pending[..n - 1]), pending[n - 1], id);
    }
  }

  lemma HasIdSnoc(lines: seq<Line>, line: Line, id: string)
    ensures HasId(lines + [line], id) <==> HasId(lines, id) || line.Id() == id
  {
    var all := lines + [line];
    if HasId(lines, id) {
      var j :| 0 <= j < |lines| && lines[j].Id() == id;
      assert all[j] == lines[j];
    }
    assert all[|lines|] == line;
    if HasId(all, id) && line.Id() != id {
      var j :| 0 <= j < |all| && all[j].Id() == id;
      assert lines[j] == all[j];
    }
  }

  /** One merge step keeps the existing lines in place with their items,
      raises at most the matched line, and adds the pending id. */
  lemma MergeLineKeepsPositions(cart: seq<Line>, line: Line)
    ensures |MergeLine(cart, line)| >= |cart|
    ensures forall i :: 0 <= i < |cart| ==> MergeLine(cart, line)[i].item == cart[i].item
    ensures line.quantity >= 0 ==>
      forall i :: 0 <= i < |cart| ==> MergeLine(cart, line)[i].quantity >= cart[i].quantity
    ensures forall id :: HasId(MergeLine(cart, line), id) <==> HasId(cart, id) || line.Id() == id
  {
    var r := MergeLine(cart, line);
    var k := IndexOfId(cart, line.Id());
    forall id ensures HasId(r, id) <==> HasId(cart, id) || line.Id() == id {
      if k > -1 {
        if HasId(cart, id) {
          var j :| 0 <= j < |cart| && cart[j].Id() == id;
          assert r[j].Id() == id;
        }
        if HasId(r, id) {
          var j :| 0 <= j < |r| && r[j].Id() == id;
          assert cart[j].Id() == id;
        }
        assert r[k].Id() == line.Id();
      } else {
        HasIdSnoc(cart, line, id);
      }
    }
  }

  /** The commit keeps every existing line in its position with its item,
      never lowers a quantity when pending quantities are positive, and
      contains exactly the ids of both collections. */
  lemma {:induction false} MergeKeepsPositions(cart: seq<Line>, pending: seq<Line>)
    ensures |MergeAll(cart, pending)| >= |cart|
    ensures forall i :: 0 <= i < |cart| ==> MergeAll(cart, pending)[i].item == cart[i].item
    ensures AllAtLeast(pending, 1) ==>
      forall i :: 0 <= i < |cart| ==> MergeAll(cart, pending)[i].quantity >= cart[i].quantity
    ensures forall id :: HasId(MergeAll(cart, pending), id) <==> HasId(cart, id) || HasId(pending, id)
    decreases |pending|
  {
    if pending != [] {
      var n := |pending|;
      var prefix, line := pending[..n - 1], pending[n - 1];
      assert pending == prefix + [line];
      MergeKeepsPositions(cart, prefix);
      MergeLineKeepsPositions(MergeAll(cart, prefix), line);
      forall id ensures HasId(pending, id) <==> HasId(prefix, id) || line.Id() == id {
        HasIdSnoc(prefix, line, id);
      }
    }
  }

  /** The commit keeps cart ids distinct, whatever the pending lines are, and
      keeps cart quantities at least 1 when pending quantities are. */
  lemma {:induction false} MergeKeepsInvariant(cart: seq<Line>, pending: seq<Line>)
    requires DistinctIds(cart)
    ensures DistinctIds(MergeAll(cart, pending))
    ensures AllAtLeast(cart, 1) && AllAtLeast(pending, 1) ==> AllAtLeast(MergeAll(cart, pending), 1)
    decreases |pending|
  {
    if pending != [] {
      var n := |pending|;
      var prefix := pending[..n - 1];
      var line := pending[n - 1];
      MergeKeepsInvariant(cart, prefix);
      var m := MergeAll(cart, prefix);
      var r := MergeLine(m, line);
      var k := IndexOfId(m, line.Id());
      if k == -1 {
        forall i, j | 0 <= i < j < |r| ensures r[i].Id() != r[j].Id() {
          if j == |m| {
            assert r[j] == line && r[i] == m[i];
          }
        }
      }
    }
  }

  /** Committing {A: 2} onto {A: 3} gives {A: 5}; onto an empty cart, {A: 2}. */
  lemma MergeExamples(a: ServiceItem, b: ServiceItem)
    requires a.id == b.id
    ensures MergeAll([Line(a, 3)], [Line(b, 2)]) == [Line(a, 5)]
    ensures MergeAll([], [Line(b, 2)]) == [Line(b, 2)]
  {
    assert [Line(b, 2)][..0] == [];
    assert IndexOfId([Line(a, 3)], b.id) == 0;
    assert IndexOfId([], b.id) == -1;
  }

  // ---------------------------------------------------------------------
  // The customer upsert of handleFinalizeAndDownload (App.tsx:130-155)
  // ---------------------------------------------------------------------

  predicate HasEmail(customers: seq<Customer>, email: string) {
    exists i :: 0 <= i < |customers| && customers[i].email == email
  }

  predicate DistinctEmails(customers: seq<Customer>) {
    forall i, j :: 0 <= i < j < |customers| ==> customers[i].email != customers[j].email
  }

  /** `customers.findIndex(c => c.email === email)`. */
  function IndexOfEmail(customers: seq<Customer>, email: string): (k: int)
    ensures -1 <= k < |customers|
    ensures k >= 0 ==> customers[k].email == email && forall j :: 0 <= j < k ==> customers[j].email != email
    ensures k == -1 <==> !HasEmail(customers, email)
  {
    if customers == [] then -1
    else if customers[0].email == email then 0
    else
      var k := IndexOfEmail(customers[1..], email);
      assert forall j :: 1 <= j < |customers| ==> customers[j] == customers[1..][j - 1];
      if k < 0 then -1 else k + 1
  }

  /** The loop `findIndex` runs over the customer log. */
  method FindCustomerIndex(customers: seq<Customer>, email: string) returns (k: int)
    ensures k == IndexOfEmail(customers, email)
  {
    k := 0;
    while k < |customers| && customers[k].email != email
      invariant 0 <= k <= |customers|
      invariant forall j :: 0 <= j < k ==> customers[j].email != email
    {
      k := k + 1;
    }
    if k == |customers| {
      k := -1;
    }
  }

  /** The record a first download creates; its id and joined date come from
      the clock. */
  function NewCustomer(info: ClientInfo, newId: string, joinedDate: string): Customer {
    Customer(newId, info.companyName, info.contactPerson, info.phone, info.email, "N/A", 1, joinedDate)
  }

  /** The log after a download for `info`. */
  function Upserted(customers: seq<Customer>, info: ClientInfo, newId: string, joinedDate: string): seq<Customer> {
    var k := IndexOfEmail(customers, info.email);
    if k >= 0 then
      customers[k := customers[k].(companyName := info.companyName, contactPerson := info.contactPerson,
                                   mobile := info.phone, proposalCount := customers[k].proposalCount + 1)]
    else customers + [NewCustomer(info, newId, joinedDate)]
  }

  /** A matching email refreshes company, contact and mobile of the first
      matching record and counts one more proposal, keeping its id, email,
      category and joined date; no match appends exactly one record with
      count 1. No other record changes. */
  lemma UpsertEffect(customers: seq<Customer>, info: ClientInfo, newId: string, joinedDate: string)
    ensures var r := Upserted(customers, info, newId, joinedDate);
      var k := IndexOfEmail(customers, info.email);
      (k >= 0 ==>
        |r| == |customers| &&
        r[k].companyName == info.companyName && r[k].contactPerson == info.contactPerson &&
        r[k].mobile == info.phone && r[k].proposalCount == customers[k].proposalCount + 1 &&
        r[k].id == customers[k].id && r[k].email == customers[k].email &&
        r[k].businessCategory == customers[k].businessCategory &&
        r[k].joinedDate == customers[k].joinedDate &&
        forall j :: 0 <= j < |r| && j != k ==> r[j] == customers[j]) &&
      (k < 0 ==>
        r[..|customers|] == customers && |r| == |customers| + 1 &&
        r[|customers|].email == info.email && r[|customers|].proposalCount == 1 &&
        r[|customers|].companyName == info.companyName &&
        r[|customers|].contactPerson == info.contactPerson && r[|customers|].mobile == info.phone)
  {
  }

  /** The upsert keeps emails distinct. */
  lemma UpsertKeepsDistinct(customers: seq<Customer>, info: ClientInfo, newId: string, joinedDate: string)
    requires DistinctEmails(customers)
    ensures DistinctEmails(Upserted(customers, info, newId, joinedDate))
    ensures HasEmail(Upserted(customers, info, newId, joinedDate), info.email)
  {
    var r := Upserted(customers, info, newId, joinedDate);
    var k := IndexOfEmail(customers, info.email);
    if k < 0 {
      assert r[|customers|].email == info.email;
      forall i, j | 0 <= i < j < |r| ensures r[i].email != r[j].email {
        if j == |customers| {
          assert r[i] == customers[i];
        }
      }
    } else {
      assert r[k].email == info.email;
    }
  }

  /** Two downloads with a new email leave one record for it, counting 2. */
  lemma TwoDownloadsOneRecord(customers: seq<Customer>, info: ClientInfo, info2: ClientInfo,
                              id1: string, d1: string, id2: string, d2: string)
    requires !HasEmail(customers, info.email) && info2.email == info.email
    ensures var r := Upserted(Upserted(customers, info, id1, d1), info2, id2, d2);
      |r| == |customers| + 1 && r[|customers|].proposalCount == 2 && r[|customers|].email == info.email &&
      r[..|customers|] == customers
  {
    var once := Upserted(customers, info, id1, d1);
    assert once[|customers|].email == info.email;
    assert IndexOfEmail(once, info.email) == |customers| by {
      forall j | 0 <= j < |customers| ensures once[j].email != info.email {
        assert once[j] == customers[j];
      }
    }
  }

  // ---------------------------------------------------------------------
  // The application state
  // ---------------------------------------------------------------------

  /** The state App owns: the pending selection, the confirmed cart, the
      lead log, the client details and the visible screen. */
  class ProposalBuilder {
    var pending: seq<Line>
    var cart: seq<Line>
    var customers: seq<Customer>
    var clientInfo: ClientInfo
    var view: View
    var isCartOpen: bool
    var showSuccess: bool

    /** The invariant every operation keeps: ids are distinct in both
        collections, pending quantities are at least 1 and cart quantities
        at least 1, and the lead log has one record per email. */
    ghost predicate Valid()
      reads this
    {
      DistinctIds(pending) && AllAtLeast(pending, 1) &&
      DistinctIds(cart) && AllAtLeast(cart, 1) &&
      DistinctEmails(customers)
    }

    /** The start state: empty collections on the catalog screen. */
    constructor (info: ClientInfo)
      ensures Valid()
      ensures pending == [] && cart == [] && customers == []
      ensures clientInfo == info && view == Catalog && !isCartOpen && !showSuccess
    {
      pending, cart, customers := [], [], [];
      clientInfo, view := info, Catalog;
      isCartOpen, showSuccess := false, false;
    }

    method TogglePendingItem(service: ServiceItem)
      requires Valid()
      modifies this
      ensures Valid()
      ensures pending == Toggled(old(pending), service)
      ensures cart == old(cart) && customers == old(customers) && clientInfo == old(clientInfo)
      ensures view == old(view) && isCartOpen == old(isCartOpen) && showSuccess == old(showSuccess)
    {
      ToggleKeepsInvariant(pending, service);
      pending := Toggled(pending, service);
    }

    method UpdatePendingQuantity(id: string, delta: int)
      requires Valid()
      modifies this
      ensures Valid()
      ensures pending == PendingWithDelta(old(pending), id, delta)
      ensures cart == old(cart) && customers == old(customers) && clientInfo == old(clientInfo)
      ensures view == old(view) && isCartOpen == old(isCartOpen) && showSuccess == old(showSuccess)
    {
      PendingDeltaRule(pending, id, delta);
      pending := PendingWithDelta(pending, id, delta);
    }

    /** Commit the selection: merge each pending line into a copy of the
        cart, in order, then clear the selection and open the sidebar. */
    method MoveToCart()
      requires Valid()
      modifies this
      ensures Valid()
      ensures cart == MergeAll(old(cart), old(pending)) && pending == []
      ensures isCartOpen
      ensures customers == old(customers) && clientInfo == old(clientInfo)
      ensures view == old(view) && showSuccess == old(showSuccess)
    {
      var newCart := Commit(cart, pending);
      MergeKeepsInvariant(cart, pending);
      cart := newCart;
      pending := [];
      isCartOpen := true;
    }

    /** The close button of the floating bar discards the selection. */
    method ClearPending()
      requires Valid()
      modifies this
      ensures Valid()
      ensures pending == []
      ensures cart == old(cart) && customers == old(customers) && clientInfo == old(clientInfo)
      ensures view == old(view) && isCartOpen == old(isCartOpen) && showSuccess == old(showSuccess)
    {
      pending := [];
    }

    method RemoveFromCart(id: string)
      requires Valid()
      modifies this
      ensures Valid()
      ensures cart == RemoveId(old(cart), id)
      ensures pending == old(pending) && customers == old(customers) && clientInfo == old(clientInfo)
      ensures view == old(view) && isCartOpen == old(isCartOpen) && showSuccess == old(showSuccess)
    {
      RemoveIdExactly(cart, id);
      var r := RemoveId(cart, id);
      assert forall i :: 0 <= i < |r| ==> r[i] in cart;
      cart := r;
    }

    method UpdateCartQuantity(id: string, delta: int)
      requires Valid()
      modifies this
      ensures Valid()
      ensures cart == CartWithDelta(old(cart), id, delta)
      ensures pending == old(pending) && customers == old(customers) && clientInfo == old(clientInfo)
      ensures view == old(view) && isCartOpen == old(isCartOpen) && showSuccess == old(showSuccess)
    {
      CartDeltaKeepsInvariant(cart, id, delta);
      cart := CartWithDelta(cart, id, delta);
    }

    method UpdateCartPrice(id: string, price: real)
      requires Valid()
      modifies this
      ensures Valid()
      ensures cart == CartWithPrice(old(cart), id, price)
      ensures pending == old(pending) && customers == old(customers) && clientInfo == old(clientInfo)
      ensures view == old(view) && isCartOpen == old(isCartOpen) && showSuccess == old(showSuccess)
    {
      cart := CartWithPrice(cart, id, price);
    }

    /** handleClientInfoChange (App.tsx:117-119): the form replaces the
        client details. */
    method ChangeClientInfo(info: ClientInfo)
      requires Valid()
      modifies this
      ensures Valid()
      ensures clientInfo == info
      ensures pending == old(pending) && cart == old(cart) && customers == old(customers)
      ensures view == old(view) && isCartOpen == old(isCartOpen) && showSuccess == old(showSuccess)
    {
      clientInfo := info;
    }

    /** handleProceed (App.tsx:166-169): go to the preview screen unless the
        cart is empty. */
    method HandleProceed()
      requires Valid()
      modifies this
      ensures Valid()
      ensures view == if old(cart) == [] then old(view) else Preview
      ensures pending == old(pending) && cart == old(cart) && customers == old(customers)
      ensures clientInfo == old(clientInfo) && isCartOpen == old(isCartOpen) && showSuccess == old(showSuccess)
    {
      if |cart| == 0 {
        return;
      }
      view := Preview;
    }

    /** The sidebar's close button (App.tsx:464). */
    method CloseCart()
      requires Valid()
      modifies this
      ensures Valid()
      ensures !isCartOpen
      ensures pending == old(pending) && cart == old(cart) && customers == old(customers)
      ensures clientInfo == old(clientInfo) && view == old(view) && showSuccess == old(showSuccess)
    {
      isCartOpen := false;
    }

    /** handleFinalizeAndDownload (App.tsx:130-156): record the lead, keyed
        on the client's email, and show the success banner. The new record's
        id and joined date are the clock's values, passed in. */
    method FinalizeAndDownload(newId: string, joinedDate: string)
      requires Valid()
      modifies this
      ensures Valid()
      ensures customers == Upserted(old(customers), old(clientInfo), newId, joinedDate)
      ensures showSuccess
      ensures pending == old(pending) && cart == old(cart) && clientInfo == old(clientInfo)
      ensures view == old(view) && isCartOpen == old(isCartOpen)
    {
      UpsertKeepsDistinct(customers, clientInfo, newId, joinedDate);
      var k := FindCustomerIndex(customers, clientInfo.email);
      var updated := customers;
      if k >= 0 {
        var existing := updated[k];
        updated := updated[k := existing.(companyName := clientInfo.companyName,
                                          contactPerson := clientInfo.contactPerson,
                                          mobile := clientInfo.phone,
                                          proposalCount := existing.proposalCount + 1)];
      } else {
        updated := updated + [NewCustomer(clientInfo, newId, joinedDate)];
      }
      customers := updated;
      showSuccess := true;
    }

    /** The PDF button: disabled unless the cart has a line and the company,
        contact and email are filled in; otherwise the document is built from
        the cart and client details and the lead is recorded. The summary
        text, template, wrapped line counts, table end and clock values are
        inputs. */
    method DownloadProposal(summary: string, config: ProposalConfig, summaryLines: nat, tableEndY: real,
                            termLines: seq<nat>, newId: string, joinedDate: string)
      returns (doc: Option<ProposalPdf.Document>)
      requires Valid()
      requires |termLines| == |config.termsAndConditions|
      modifies this
      ensures Valid()
      ensures doc.None? <==> !ProposalPdf.IsValid(old(cart), old(clientInfo))
      ensures doc.None? ==> customers == old(customers) && showSuccess == old(showSuccess)
      ensures doc.Some? ==> customers == Upserted(old(customers), old(clientInfo), newId, joinedDate) && showSuccess
      ensures doc.Some? ==> doc.value.rows == ProposalPdf.TableRows(old(cart))
      ensures doc.Some? ==> doc.value.totals == ProposalPdf.TotalRows(old(cart), tableEndY)
      ensures doc.Some? ==> doc.value.fileName == ProposalPdf.FileName(old(clientInfo).companyName)
      ensures pending == old(pending) && cart == old(cart) && clientInfo == old(clientInfo)
      ensures view == old(view) && isCartOpen == old(isCartOpen)
    {
      if !ProposalPdf.IsValid(cart, clientInfo) {
        return None;
      }
      var d := ProposalPdf.GeneratePdf(cart, clientInfo, summary, Some(config), summaryLines, tableEndY, termLines);
      FinalizeAndDownload(newId, joinedDate);
      doc := Some(d);
    }

    /** The sidebar's "Review Proposal" button: close the panel, then
        proceed. */
    method ReviewProposal()
      requires Valid()
      modifies this
      ensures Valid()
      ensures !isCartOpen
      ensures view == if old(cart) == [] then old(view) else Preview
      ensures pending == old(pending) && cart == old(cart) && customers == old(customers)
      ensures clientInfo == old(clientInfo) && showSuccess == old(showSuccess)
    {
      CloseCart();
      HandleProceed();
    }

    /** The delayed reset after a download (App.tsx:157-163): empty both
        collections, hide the banner and go home. */
    method ResetAfterDownload()
      requires Valid()
      modifies this
      ensures Valid()
      ensures cart == [] && pending == [] && !showSuccess && view == Catalog
      ensures customers == old(customers) && clientInfo == old(clientInfo) && isCartOpen == old(isCartOpen)
    {
      cart, pending := [], [];
      showSuccess := false;
      view := Catalog;
    }

    /** The preview's total with tax (App.tsx:268); the two subtotals above it
        are OneTimeSubtotal and MonthlySubtotal of the cart. */
    function TotalWithTax(): (t: real)
      reads this
      ensures t == Pricing.TotalOneTime(OneTimeSubtotal(cart))
    {
      TotalWithTaxAgrees(OneTimeSubtotal(cart));
      OneTimeSubtotal(cart) * 1.18
    }
  }
}
