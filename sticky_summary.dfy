/** components/StickySummary.tsx: the side panel that shows the pending
    selection while there is one, and the confirmed cart otherwise. */
module StickySummary {
  import opened Wrappers
  import opened Types
  import opened Pricing

  datatype Panel =
    | EmptyPanel
    | PendingPanel(selectionCount: nat, selectionTotal: real, alreadyInProposal: Option<int>)
    | CartPanel(itemCount: int, totalEstimate: real, onRemove: seq<Callback>)

  function PanelOf(pending: seq<Line>, cart: seq<Line>): (p: Panel)
    ensures p.EmptyPanel? <==> pending == [] && cart == []
    ensures p.PendingPanel? <==> pending != []
    ensures p.CartPanel? <==> pending == [] && cart != []
    ensures p.PendingPanel? ==> p.selectionCount == |pending| && p.selectionTotal == OneTimeSubtotal(pending)
    ensures p.PendingPanel? ==> (p.alreadyInProposal.Some? <==> cart != [])
    ensures p.PendingPanel? && p.alreadyInProposal.Some? ==> p.alreadyInProposal.value == ItemCount(cart)
    ensures p.CartPanel? ==> p.itemCount == ItemCount(cart) && p.totalEstimate == OneTimeSubtotal(cart)
    ensures p.CartPanel? ==> |p.onRemove| == |cart| && forall i :: 0 <= i < |cart| ==> p.onRemove[i] == OnRemove(cart[i].Id())
  {
    var hasPending := |pending| > 0;
    var pendingTotal := OneTimeSubtotal(pending);
    var cartTotal := OneTimeSubtotal(cart);
    var cartItemCount := ItemCount(cart);
    if !hasPending && |cart| == 0 then EmptyPanel
    else if hasPending then PendingPanel(|pending|, pendingTotal, if |cart| > 0 then Some(cartItemCount) else None)
    else CartPanel(cartItemCount, cartTotal, seq(|cart|, i requires 0 <= i < |cart| => OnRemove(cart[i].Id())))
  }
}
