/** components/CartSidebar.tsx: the confirmed cart in the slide-out panel,
    with its totals and the callbacks its buttons make. */
module CartSidebar {
  import opened Wrappers
  import opened Types
  import opened Pricing

  /** One cart entry as shown: which prices appear, the combined line total
      and the calls its three buttons make. */
  datatype SidebarLine = SidebarLine(
    name: string,
    showOneTime: bool,
    showMonthly: bool,
    quantity: int,
    lineTotal: real,
    onMinus: Callback,
    onPlus: Callback,
    onTrash: Callback)

  /** The footer: the one-time total including GST and the monthly total. */
  datatype Footer = Footer(totalOneTime: real, monthly: real)

  datatype Sidebar = Sidebar(
    headerCount: int,
    showEmptyState: bool,
    lines: seq<SidebarLine>,
    footer: Option<Footer>)

  /** The entry of one cart line. */
  function EntryOf(l: Line): (v: SidebarLine)
    ensures v.onMinus == OnUpdateQty(l.Id(), -1) && v.onPlus == OnUpdateQty(l.Id(), 1)
    ensures v.onTrash == OnRemove(l.Id())
    ensures v.showOneTime <==> l.item.price > 0.0
    ensures v.showMonthly <==> TruthyNumber(l.item.monthlyPrice)
    ensures v.lineTotal == LineOneTime(l) + LineMonthly(l)
    ensures v.quantity == l.quantity
  {
    SidebarLine(l.item.name, l.item.price > 0.0, TruthyNumber(l.item.monthlyPrice), l.quantity,
                (l.item.price + MonthlyOrZero(l.item)) * l.quantity as real,
                OnUpdateQty(l.Id(), -1), OnUpdateQty(l.Id(), 1), OnRemove(l.Id()))
  }

  /** The whole panel for a cart. */
  function SidebarOf(cart: seq<Line>): (s: Sidebar)
    ensures s.headerCount == ItemCount(cart)
    ensures s.showEmptyState <==> cart == []
    ensures s.footer.Some? <==> cart != []
    ensures s.footer.Some? ==>
      s.footer.value.totalOneTime == OneTimeSubtotal(cart) + OneTimeSubtotal(cart) * 18.0 / 100.0 &&
      s.footer.value.monthly == MonthlySubtotal(cart)
    ensures |s.lines| == |cart| && forall i :: 0 <= i < |cart| ==> s.lines[i] == EntryOf(cart[i])
  {
    var oneTimeSubtotal := OneTimeSubtotal(cart);
    var monthlySubtotal := MonthlySubtotal(cart);
    var tax := Tax(oneTimeSubtotal);
    var totalOneTime := oneTimeSubtotal + tax;
    Sidebar(ItemCount(cart), |cart| == 0,
            seq(|cart|, i requires 0 <= i < |cart| => EntryOf(cart[i])),
            if |cart| > 0 then Some(Footer(totalOneTime, monthlySubtotal)) else None)
  }

  /** The "Review Proposal" button closes the panel, then proceeds. */
  const ProceedClicks: seq<Callback> := [OnClose, OnProceed]

  function SumEntryTotals(lines: seq<SidebarLine>): real {
    if lines == [] then 0.0 else SumEntryTotals(lines[..|lines| - 1]) + lines[|lines| - 1].lineTotal
  }

  /** The line totals add up to the one-time plus the monthly subtotal: the
      combined figure mixes the two amounts the footer keeps apart. */
  lemma {:induction false} EntryTotalsSum(cart: seq<Line>)
    ensures SumEntryTotals(SidebarOf(cart).lines) == OneTimeSubtotal(cart) + MonthlySubtotal(cart)
    decreases |cart|
  {
    if cart != [] {
      var n := |cart|;
      EntryTotalsSum(cart[..n - 1]);
      assert SidebarOf(cart).lines[..n - 1] == SidebarOf(cart[..n - 1]).lines;
    }
  }
}
