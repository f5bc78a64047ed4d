/** The record and union shapes shared by the site's components and its AI adapter.
    A TypeScript optional property becomes an `Option`; a string union becomes a
    datatype with one constructor per member, so it is closed by construction. */
module Types {
  import opened Wrappers

  /** A latitude/longitude pair; both coordinates are always present together. */
  datatype LatLng = LatLng(lat: real, lng: real)

  /** A roofing company offered to the user. Only `name` is required. */
  datatype Roofer = Roofer(
    name: string,
    phone: Option<string>,
    email: Option<string>,
    rating: Option<real>,
    reviews: Option<real>,
    uri: Option<string>,
    address: Option<string>,
    eta: Option<string>,
    reviewSnippet: Option<string>,
    location: Option<LatLng>)

  datatype Role = User | Assistant | System

  datatype ChatMessage = ChatMessage(
    id: string,
    role: Role,
    content: string,
    timestamp: int,
    roofers: Option<seq<Roofer>>,
    isSafetyAlert: Option<bool>)

  /** The id and creation time a component gives a new message; both come from
      `Date.now()`, which the model takes as an input. */
  datatype Stamp = Stamp(id: string, timestamp: int)

  /** The user's turn a chat appends on send: the text and stamp, no cards, no alert. */
  function UserTurn(text: string, stamp: Stamp): (m: ChatMessage)
    ensures m.role == User && m.content == text
    ensures m.id == stamp.id && m.timestamp == stamp.timestamp
    ensures m.roofers == None && m.isSafetyAlert == None
  {
    ChatMessage(stamp.id, User, text, stamp.timestamp, None, None)
  }

  /** What the browser knows about the user's position; every part may be missing. */
  datatype LocationState = LocationState(
    lat: Option<real>,
    lng: Option<real>,
    postalCode: Option<string>,
    city: Option<string>)

  const NoLocation := LocationState(None, None, None, None)

  datatype TaskStatus = Idle | Working | Completed | Error

  /** One agent row of the admin console's progress display. */
  datatype OutreachAgentTask = OutreachAgentTask(
    id: string,
    agentName: string,
    status: TaskStatus,
    message: string)

  /* The three records below are declared with every field required, but they only
     ever arrive from `JSON.parse` of provider text or of a stored string, and nothing
     checks their fields. The model therefore gives each field an `Option`: `None` is
     a property the parsed object does not have. */

  datatype GeneratedEmail = GeneratedEmail(subject: Option<string>, body: Option<string>)

  /** What `JSON.parse("{}")` yields for an e-mail. */
  const EmptyEmail := GeneratedEmail(None, None)

  datatype PricingOption = PricingOption(tier: Option<string>, price: Option<string>, features: Option<seq<string>>)

  datatype ListingStrategy = ListingStrategy(
    marketingCopy: Option<string>,
    marketingStrategy: Option<string>,
    pricingOptions: Option<seq<PricingOption>>)

  /** What `JSON.parse("{}")` yields for a strategy. */
  const EmptyStrategy := ListingStrategy(None, None, None)

  datatype EstimationResult = EstimationResult(
    estimatedCostRange: string,
    breakdown: string,
    marketInsights: string,
    recommendedCompanies: seq<Roofer>)
}
