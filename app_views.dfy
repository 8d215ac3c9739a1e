/** How App.tsx feeds its state to the components: the quantities each
    catalog card is given, and the totals the sidebar, the side summary and
    the PDF each show for the same cart. */
module AppViews {
  import opened Wrappers
  import opened Types
  import opened Pricing
  import opened ProposalCart
  import CartSidebar
  import ServiceCard
  import StickySummary
  import ProposalPdf

  /** `lines.find(c => c.id === id)?.quantity || 0`. */
  function FoundQuantity(lines: seq<Line>, id: string): (q: int)
    ensures !HasId(lines, id) ==> q == 0
    ensures HasId(lines, id) ==> q == lines[IndexOfId(lines, id)].quantity
  {
    var k := IndexOfId(lines, id);
    if k >= 0 then lines[k].quantity else 0
  }

  /** The card App renders for a service. */
  function CardFor(pending: seq<Line>, cart: seq<Line>, service: ServiceItem): ServiceCard.Card {
    ServiceCard.CardOf(service, FoundQuantity(pending, service.id), FoundQuantity(cart, service.id))
  }

  /** A card is selected exactly when its service is in the pending selection,
      and carries the "in proposal" badge exactly when it is in the cart, with
      the cart quantity. */
  lemma CardShowsState(pending: seq<Line>, cart: seq<Line>, service: ServiceItem)
    requires AllAtLeast(pending, 1) && AllAtLeast(cart, 1)
    ensures CardFor(pending, cart, service).selected <==> HasId(pending, service.id)
    ensures CardFor(pending, cart, service).badge.Some? <==> HasId(cart, service.id)
    ensures HasId(cart, service.id) ==>
      CardFor(pending, cart, service).badge == Some(cart[IndexOfId(cart, service.id)].quantity)
  {
  }

  /** Clicking a card flips its selection. */
  lemma ToggleFlipsCard(pending: seq<Line>, cart: seq<Line>, service: ServiceItem)
    requires DistinctIds(pending) && AllAtLeast(pending, 1) && AllAtLeast(cart, 1)
    ensures CardFor(Toggled(pending, service), cart, service).selected <==> !CardFor(pending, cart, service).selected
  {
    ToggleFlips(pending, service);
    ToggleKeepsInvariant(pending, service);
    CardShowsState(pending, cart, service);
    CardShowsState(Toggled(pending, service), cart, service);
  }

  /** Typing a quantity of at least 1 into a selected card sends the
      difference from the current quantity, which the updater turns into
      exactly the typed quantity. */
  lemma ManualEntrySetsQuantity(pending: seq<Line>, service: ServiceItem, typed: int)
    requires AllAtLeast(pending, 1) && HasId(pending, service.id) && typed >= 1
    ensures var call := ServiceCard.ManualQuantity(service, FoundQuantity(pending, service.id), Some(typed));
      call.Some? && call.value.OnUpdatePendingQty? && call.value.id == service.id &&
      FoundQuantity(PendingWithDelta(pending, service.id, call.value.delta), service.id) == typed
  {
    var id := service.id;
    var k := IndexOfId(pending, id);
    var delta := typed - pending[k].quantity;
    assert FoundQuantity(pending, id) == pending[k].quantity;
    assert ServiceCard.ManualQuantity(service, pending[k].quantity, Some(typed)) ==
      Some(OnUpdatePendingQty(id, delta));
    DeltaSetsQuantity(pending, k, delta);
  }

  /** After the update, the line the card looks up holds the new quantity. */
  lemma DeltaSetsQuantity(pending: seq<Line>, k: nat, delta: int)
    requires k < |pending| && k == IndexOfId(pending, pending[k].Id())
    requires pending[k].quantity + delta >= 1
    ensures FoundQuantity(PendingWithDelta(pending, pending[k].Id(), delta), pending[k].Id()) == pending[k].quantity + delta
  {
    var id := pending[k].Id();
    var after := PendingWithDelta(pending, id, delta);
    SameIdsSameIndex(pending, after, id);
    assert after[k].quantity == pending[k].quantity + delta;
  }

  /** The sidebar footer, the preview's total and the PDF's "Total One-time
      Investment" row are the same figure, and the sidebar's recurring figure
      is the PDF's fourth row whenever that row is drawn. */
  lemma TotalsAgree(cart: seq<Line>, tableEndY: real)
    requires cart != []
    ensures var footer := CartSidebar.SidebarOf(cart).footer;
      footer.Some? &&
      footer.value.totalOneTime == OneTimeSubtotal(cart) * 1.18 &&
      footer.value.totalOneTime == ProposalPdf.TotalRows(cart, tableEndY)[2].value &&
      (MonthlySubtotal(cart) > 0.0 ==> footer.value.monthly == ProposalPdf.TotalRows(cart, tableEndY)[3].value)
  {
    TotalWithTaxAgrees(OneTimeSubtotal(cart));
  }

  /** The side summary's "total estimate" is the cart subtotal before GST:
      the sidebar's total is that estimate plus 18%, and both panels count
      the same number of units. */
  lemma SummaryEstimateExcludesTax(cart: seq<Line>)
    requires cart != []
    ensures var panel := StickySummary.PanelOf([], cart);
      panel.CartPanel? &&
      panel.totalEstimate * 1.18 == CartSidebar.SidebarOf(cart).footer.value.totalOneTime &&
      panel.itemCount == CartSidebar.SidebarOf(cart).headerCount
  {
    TotalWithTaxAgrees(OneTimeSubtotal(cart));
  }

  /** While a selection is pending, the side summary's "already in proposal"
      note shows the sidebar's header count. */
  lemma PendingNoteMatchesSidebar(pending: seq<Line>, cart: seq<Line>)
    requires pending != [] && cart != []
    ensures StickySummary.PanelOf(pending, cart).alreadyInProposal == Some(CartSidebar.SidebarOf(cart).headerCount)
  {
  }

  /** After a non-empty selection is committed, the side summary leaves its
      selection mode and shows the cart, whose unit count has grown by the
      selection's. */
  lemma CommitShowsCart(cart: seq<Line>, pending: seq<Line>)
    requires AllAtLeast(pending, 1) && AllAtLeast(cart, 1) && pending != []
    ensures var panel := StickySummary.PanelOf([], MergeAll(cart, pending));
      panel.CartPanel? && panel.itemCount == ItemCount(cart) + ItemCount(pending)
  {
    MergeConservesQuantity(cart, pending, "");
    ItemCountBounds(cart);
    ItemCountBounds(pending);
  }
}
