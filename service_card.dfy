/** components/ServiceCard.tsx: one catalog entry, its selection state, its
    price labels and the calls its controls make. */
module ServiceCard {
  import opened Wrappers
  import opened Types

  datatype Card = Card(
    selected: bool,
    badge: Option<int>,
    showOneTime: bool,
    showMonthly: bool,
    onToggle: Callback,
    controls: seq<Callback>)

  /** The card for a service with the given pending and saved quantities. */
  function CardOf(service: ServiceItem, pendingQuantity: int, savedQuantity: int): (c: Card)
    ensures c.selected <==> pendingQuantity > 0
    ensures c.badge.Some? <==> savedQuantity > 0
    ensures c.badge.Some? ==> c.badge.value == savedQuantity
    ensures c.showOneTime <==> service.price > 0.0
    ensures c.showMonthly <==> service.monthlyPrice.Some? && service.monthlyPrice.value > 0.0
    ensures c.onToggle == OnToggle(service)
    ensures c.selected ==> c.controls == [OnUpdatePendingQty(service.id, -1), OnUpdatePendingQty(service.id, 1)]
    ensures !c.selected ==> c.controls == []
  {
    var isSelected := pendingQuantity > 0;
    Card(isSelected,
         if savedQuantity > 0 then Some(savedQuantity) else None,
         service.price > 0.0,
         service.monthlyPrice.Some? && service.monthlyPrice.value > 0.0,
         OnToggle(service),
         if isSelected then [OnUpdatePendingQty(service.id, -1), OnUpdatePendingQty(service.id, 1)] else [])
  }

  /** handleManualQuantity: `parsed` is the result of `parseInt` on the typed
      text (None for NaN). A value of at least 1 is sent as the delta from the
      current pending quantity; anything else makes no call. */
  function ManualQuantity(service: ServiceItem, pendingQuantity: int, parsed: Option<int>): (call: Option<Callback>)
    ensures call.None? <==> parsed.None? || parsed.value < 1
    ensures call.Some? ==> call.value == OnUpdatePendingQty(service.id, parsed.value - pendingQuantity)
  {
    if parsed.Some? && parsed.value >= 1 then Some(OnUpdatePendingQty(service.id, parsed.value - pendingQuantity))
    else None
  }
}
