/** The records of types.ts: catalog items, proposal lines, client details,
    captured leads and the PDF template configuration. */
module Types {
  import opened Wrappers

  /** A catalog entry (`ServiceItem`). Prices are exact amounts in rupees. */
  datatype ServiceItem = ServiceItem(
    id: string,
    category: string,
    subcategory: string,
    name: string,
    unit: string,
    price: real,
    monthlyPrice: Option<real>,
    priceRange: Option<string>,
    deliverables: string,
    description: Option<string>,
    active: bool)

  /** A proposal line (`CartItem`, a `ServiceItem` extended with a quantity).
      The same shape is used for the pending selection and the confirmed cart. */
  datatype Line = Line(item: ServiceItem, quantity: int) {
    function Id(): string { item.id }
  }

  /** The client details typed on the preview screen (`ClientInfo`). */
  datatype ClientInfo = ClientInfo(
    companyName: string,
    contactPerson: string,
    email: string,
    phone: string,
    address: string,
    date: string)

  /** A captured lead (`Customer`), keyed by email. */
  datatype Customer = Customer(
    id: string,
    companyName: string,
    contactPerson: string,
    mobile: string,
    email: string,
    businessCategory: string,
    proposalCount: int,
    joinedDate: string)

  /** The admin-editable PDF template text (`ProposalConfig`). */
  datatype ProposalConfig = ProposalConfig(
    termsAndConditions: seq<string>,
    contactEmail: string,
    headerTitle: string)

  /** The screen the application shows (`AppState['view']`). */
  datatype View = Catalog | Admin | Preview | Signup

  /** A call a component makes through one of its callback props. */
  datatype Callback =
    | OnToggle(service: ServiceItem)
    | OnUpdatePendingQty(id: string, delta: int)
    | OnUpdateQty(id: string, delta: int)
    | OnRemove(id: string)
    | OnClose
    | OnProceed
    | OnAddToProposal
    | OnProceedToDownload

  /** JavaScript truthiness of an optional number: absent and 0 are falsy. */
  predicate TruthyNumber(x: Option<real>) {
    x.Some? && x.value != 0.0
  }

  /** JavaScript truthiness of an optional string: absent and "" are falsy. */
  predicate TruthyString(x: Option<string>) {
    x.Some? && x.value != ""
  }

  /** `item.monthlyPrice || 0`. */
  function MonthlyOrZero(item: ServiceItem): (m: real)
    ensures TruthyNumber(item.monthlyPrice) ==> m == item.monthlyPrice.value
    ensures !TruthyNumber(item.monthlyPrice) ==> m == 0.0
  {
    match item.monthlyPrice
    case None => 0.0
    case Some(v) => v
  }
}
