/** The AI gateway adapter: builds one provider request per intent and normalises the
    provider's loosely shaped answer into the site's records. The provider call itself
    is an input of each operation (`ProviderOutcome`), and so is `JSON.parse` (a
    function-typed parameter); the adapter reports the request it would send, so that a
    missing credential is seen to stop it before any call. */
module Gemini {
  import opened Wrappers
  import opened Strings
  import opened Types

  const FlashPreviewModel := "gemini-3-flash-preview"
  const FlashModel := "gemini-2.5-flash"

  const MissingKeyMessage := "API Key is missing."
  const MissingKeyShortMessage := "API Key missing."
  const SalesFallbackText := "Our growth team is currently scaling operations. Join the waitlist."
  const DispatchFallbackText := "Dispatch processing..."
  const EmptyJsonText := "{}"
  const NoJsonMessage := "No JSON found in response"
  const DefaultCrewName := "Emergency Crew"
  const DefaultInstallerName := "Elite Installer"
  const DefaultCostRange := "Contact for pricing"
  const DefaultBreakdown := "Detailed estimation currently unavailable."
  const DefaultInsights := "Local market data restricted."
  const WebsiteFallback := "Not provided (Search Google for this company in this city)"
  const InstructionsFallback := "Ensure a warm but highly professional tone."

  // ---------------------------------------------------------------- credentials

  /** Where the API key can come from: `process.env` when a `process` object exists,
      otherwise `window.process.env`. */
  datatype Environment = Environment(
    processDefined: bool,
    processApiKey: Option<string>,
    windowApiKey: Option<string>)

  function ResolveApiKey(env: Environment): (key: Option<string>)
    ensures env.processDefined ==> key == env.processApiKey
    ensures !env.processDefined ==> key == env.windowApiKey
  {
    if env.processDefined then env.processApiKey else env.windowApiKey
  }

  /** The adapters' `if (!apiKey) throw`: a missing or empty key stops them. */
  predicate HasApiKey(env: Environment): (ok: bool)
    ensures ok <==> ResolveApiKey(env) != None && ResolveApiKey(env) != Some("")
  {
    var key := ResolveApiKey(env);
    key.Some? && key.value != ""
  }

  // ---------------------------------------------------------------- requests

  datatype ProviderRole = UserRole | ModelRole

  /** One provider conversation turn, `{ role, parts: [{ text }] }`. */
  datatype Turn = Turn(role: ProviderRole, text: string)

  /** Which fixed system instruction a request carries. */
  datatype Instruction = SalesAgent | CrisisCoordinator | OutreachCrew | StrategyLab | Estimator

  datatype Tool = NoTool | GoogleMaps | GoogleSearch

  /** The caller-supplied values a single-prompt request embeds in its prompt text. */
  datatype PromptFields =
    | OutreachPrompt(companyName: string, city: string, website: string, instructions: string)
    | StrategyPrompt(marketContext: string)
    | EstimatePrompt(city: string, size: real, material: string, complexity: string)

  /** The properties the outreach call's `responseSchema` marks `required`. The provider
      is asked for them; the reply is still not checked for them. */
  const EmailSchemaFields := ["subject", "body"]

  /** A request as the adapter builds it; `requiredFields` is empty when no response
      schema is given. */
  datatype Request =
    | ConversationRequest(model: string, instruction: Instruction, contents: seq<Turn>,
                          tool: Tool, latLng: Option<LatLng>)
    | PromptRequest(model: string, instruction: Instruction, prompt: PromptFields,
                    tool: Tool, jsonMode: bool, requiredFields: seq<string>)

  // ---------------------------------------------------------------- responses

  datatype ProviderLatLng = ProviderLatLng(latitude: real, longitude: real)
  datatype ReviewSnippet = ReviewSnippet(text: Option<string>)
  datatype ReviewSource = ReviewSource(reviewSnippets: Option<seq<ReviewSnippet>>)

  /** The `maps` record of a grounding chunk; every field may be missing. */
  datatype MapsPlace = MapsPlace(
    title: Option<string>,
    uri: Option<string>,
    address: Option<string>,
    phoneNumber: Option<string>,
    rating: Option<real>,
    latLng: Option<ProviderLatLng>,
    placeAnswerSources: Option<ReviewSource>,
    source: Option<ReviewSource>)

  datatype GroundingChunk = GroundingChunk(maps: Option<MapsPlace>)

  /** `response.text` and the first candidate's `groundingMetadata.groundingChunks`. */
  datatype ProviderResponse = ProviderResponse(
    text: Option<string>,
    groundingChunks: Option<seq<GroundingChunk>>)

  datatype ProviderOutcome = Responded(response: ProviderResponse) | CallFailed(message: string)

  /** What an adapter throws; every kind carries the `Error.message` callers display. */
  datatype AdapterError =
    | MissingApiKey(message: string)
    | ProviderError(message: string)
    | MalformedResponse(message: string)

  /** The request an adapter sent (none when it stopped first) and what it returned. */
  datatype Exchange<T> = Exchange(sent: Option<Request>, result: Result<T, AdapterError>)

  /** A `JSON.parse` outcome as an adapter result: a parse failure is thrown on. */
  function Parsed<T>(r: Result<T, string>): (x: Result<T, AdapterError>)
    ensures r.Success? ==> x == Success(r.value)
    ensures r.Failure? ==> x == Failure(MalformedResponse(r.error))
  {
    match r
    case Success(v) => Success(v)
    case Failure(m) => Failure(MalformedResponse(m))
  }

  // ---------------------------------------------------------------- history replay

  predicate IsConversational(m: ChatMessage) {
    m.role == User || m.role == Assistant
  }

  function ToTurn(m: ChatMessage): Turn {
    Turn(if m.role == Assistant then ModelRole else UserRole, m.content)
  }

  /** `history.filter(user or assistant).map(toTurn)`. */
  function ReplayHistory(history: seq<ChatMessage>): (turns: seq<Turn>)
    ensures |turns| <= |history|
    ensures (forall i :: 0 <= i < |history| ==> history[i].role == System) ==> turns == []
  {
    if history == [] then []
    else
      assert forall i :: 1 <= i < |history| ==> history[i] == history[1..][i - 1];
      TurnOf(history[0]) + ReplayHistory(history[1..])
  }

  /** The turn a single message replays to, if any. */
  function TurnOf(m: ChatMessage): (turns: seq<Turn>)
    ensures |turns| == if m.role == System then 0 else 1
  {
    if IsConversational(m) then [ToTurn(m)] else []
  }

  /** The replayed history followed by the new message as a user turn
      (`contents.push({ role: 'user', ... })`). */
  function BuildContents(history: seq<ChatMessage>, message: string): (contents: seq<Turn>)
    ensures |contents| == |ReplayHistory(history)| + 1
    ensures contents[|contents| - 1] == Turn(UserRole, message)
    ensures contents[..|contents| - 1] == ReplayHistory(history)
  {
    ReplayHistory(history) + [Turn(UserRole, message)]
  }

  function CountRole(history: seq<ChatMessage>, role: Role): nat {
    if history == [] then 0
    else (if history[0].role == role then 1 else 0) + CountRole(history[1..], role)
  }

  /** Replay is compositional: the turns of a concatenated history are the turns of
      each part, in order. With `ReplayOne` this fixes the replay completely. */
  lemma {:induction false} ReplayAppend(h1: seq<ChatMessage>, h2: seq<ChatMessage>)
    ensures ReplayHistory(h1 + h2) == ReplayHistory(h1) + ReplayHistory(h2)
  {
    if h1 == [] {
      assert h1 + h2 == h2;
    } else {
      var h := h1 + h2;
      assert h[0] == h1[0];
      assert h[1..] == h1[1..] + h2;
      ReplayAppend(h1[1..], h2);
      var head := TurnOf(h1[0]);
      calc {
        ReplayHistory(h);
        head + ReplayHistory(h1[1..] + h2);
        head + (ReplayHistory(h1[1..]) + ReplayHistory(h2));
        (head + ReplayHistory(h1[1..])) + ReplayHistory(h2);
      }
    }
  }

  /** A single message replays to nothing when it is a system turn, and otherwise to
      one turn with its text, `assistant` becoming `model` and `user` staying `user`. */
  lemma ReplayOne(m: ChatMessage)
    ensures m.role == System ==> ReplayHistory([m]) == []
    ensures m.role == User ==> ReplayHistory([m]) == [Turn(UserRole, m.content)]
    ensures m.role == Assistant ==> ReplayHistory([m]) == [Turn(ModelRole, m.content)]
  {
    assert [m][1..] == [];
  }

  /** A replayed history has one turn per non-system message. */
  lemma {:induction false} ReplayLength(history: seq<ChatMessage>)
    ensures |ReplayHistory(history)| == |history| - CountRole(history, System)
  {
    if history != [] {
      ReplayLength(history[1..]);
    }
  }

  /** The contents sent with a new message: one turn per non-system history entry plus
      one, the last being the new message as a user turn. */
  lemma ContentsShape(history: seq<ChatMessage>, message: string)
    ensures |BuildContents(history, message)| == |history| - CountRole(history, System) + 1
    ensures BuildContents(history, message)[|BuildContents(history, message)| - 1]
            == Turn(UserRole, message)
  {
    ReplayLength(history);
  }

  // ---------------------------------------------------------------- location hint

  /** JavaScript truthiness of an optional number: missing and 0 are falsy. */
  predicate Truthy(x: Option<real>) {
    x.Some? && x.value != 0.0
  }

  /** `location?.lat && location?.lng ? { latitude, longitude } : undefined`. */
  function LocationHint(location: Option<LocationState>): (hint: Option<LatLng>)
    ensures hint.Some? <==> location.Some? && Truthy(location.value.lat) && Truthy(location.value.lng)
    ensures hint.Some? ==> hint.value == LatLng(location.value.lat.value, location.value.lng.value)
  {
    if location.Some? && Truthy(location.value.lat) && Truthy(location.value.lng)
    then Some(LatLng(location.value.lat.value, location.value.lng.value))
    else None
  }

  // ---------------------------------------------------------------- grounding chunks

  /** The `maps` records of the chunks that have one, in chunk order. */
  function GroundedPlaces(chunks: seq<GroundingChunk>): (places: seq<MapsPlace>)
    ensures |places| <= |chunks|
  {
    if chunks == [] then [] else PlaceOf(chunks[0]) + GroundedPlaces(chunks[1..])
  }

  /** Every chunk's `maps` record is grounded, and every grounded place is some chunk's
      `maps` record. */
  lemma {:induction false} GroundedPlacesMembers(chunks: seq<GroundingChunk>)
    ensures forall c :: c in chunks && c.maps.Some? ==> c.maps.value in GroundedPlaces(chunks)
    ensures forall p :: p in GroundedPlaces(chunks) ==> GroundingChunk(Some(p)) in chunks
  {
    if chunks != [] {
      GroundedPlacesMembers(chunks[1..]);
      assert chunks == [chunks[0]] + chunks[1..];
    }
  }

  /** The place a single chunk contributes, if any. */
  function PlaceOf(c: GroundingChunk): (places: seq<MapsPlace>)
    ensures |places| <= 1
    ensures places == [] <==> c.maps.None?
    ensures forall p :: p in places <==> c.maps == Some(p)
  {
    if c.maps.Some? then [c.maps.value] else []
  }

  /** An absent chunk list grounds nothing. */
  function ChunkPlaces(chunks: Option<seq<GroundingChunk>>): (places: seq<MapsPlace>)
    ensures chunks.None? ==> places == []
    ensures chunks.Some? ==> |places| <= |chunks.value|
    ensures chunks.Some? ==> forall p :: p in places ==> GroundingChunk(Some(p)) in chunks.value
  {
    match chunks
    case None => []
    case Some(cs) => GroundedPlacesMembers(cs); GroundedPlaces(cs)
  }

  lemma {:induction false} GroundedPlacesAppend(c1: seq<GroundingChunk>, c2: seq<GroundingChunk>)
    ensures GroundedPlaces(c1 + c2) == GroundedPlaces(c1) + GroundedPlaces(c2)
  {
    if c1 == [] {
      assert c1 + c2 == c2;
    } else {
      var c := c1 + c2;
      assert c[0] == c1[0];
      assert c[1..] == c1[1..] + c2;
      GroundedPlacesAppend(c1[1..], c2);
      var head := PlaceOf(c1[0]);
      calc {
        GroundedPlaces(c);
        head + GroundedPlaces(c1[1..] + c2);
        head + (GroundedPlaces(c1[1..]) + GroundedPlaces(c2));
        (head + GroundedPlaces(c1[1..])) + GroundedPlaces(c2);
      }
    }
  }

  /** Exactly the chunks with a `maps` entry contribute, one place each, in order. */
  lemma GroundedPlacesOne(c: GroundingChunk)
    ensures c.maps.Some? ==> GroundedPlaces([c]) == [c.maps.value]
    ensures c.maps.None? ==> GroundedPlaces([c]) == []
  {
    assert [c][1..] == [];
  }

  /** One roofer per grounded place, in order. */
  function RoofersFrom(chunks: Option<seq<GroundingChunk>>, toRoofer: MapsPlace -> Roofer): (roofers: seq<Roofer>)
    ensures |roofers| == |ChunkPlaces(chunks)|
    ensures forall k :: 0 <= k < |roofers| ==> roofers[k] == toRoofer(ChunkPlaces(chunks)[k])
  {
    var places := ChunkPlaces(chunks);
    seq(|places|, k requires 0 <= k < |places| => toRoofer(places[k]))
  }

  /** The `chunks.forEach(chunk => { if (chunk.maps) roofers.push(...) })` loop. */
  method CollectRoofers(chunks: Option<seq<GroundingChunk>>, toRoofer: MapsPlace -> Roofer)
    returns (roofers: seq<Roofer>)
    ensures roofers == RoofersFrom(chunks, toRoofer)
  {
    roofers := [];
    if chunks.Some? {
      var cs := chunks.value;
      var i := 0;
      while i < |cs|
        invariant 0 <= i <= |cs|
        invariant |roofers| == |GroundedPlaces(cs[..i])|
        invariant forall k :: 0 <= k < |roofers| ==> roofers[k] == toRoofer(GroundedPlaces(cs[..i])[k])
      {
        if cs[i].maps.Some? {
          roofers := roofers + [toRoofer(cs[i].maps.value)];
        }
        assert cs[..i + 1] == cs[..i] + [cs[i]];
        GroundedPlacesAppend(cs[..i], [cs[i]]);
        GroundedPlacesOne(cs[i]);
        i := i + 1;
      }
      assert cs[..i] == cs;
    }
  }

  /** `placeAnswerSources || source`: an object is truthy, so a present
      `placeAnswerSources` is chosen even when it holds no snippet. */
  function ReviewSourceOf(p: MapsPlace): (r: Option<ReviewSource>)
    ensures p.placeAnswerSources.Some? ==> r == p.placeAnswerSources
    ensures p.placeAnswerSources.None? ==> r == p.source
  {
    if p.placeAnswerSources.Some? then p.placeAnswerSources else p.source
  }

  /** `source?.reviewSnippets?.[0]?.text`, or `""` when that is missing or empty. */
  function FirstSnippetText(source: Option<ReviewSource>): (text: string)
    ensures text != "" ==> source.Some? && source.value.reviewSnippets.Some?
                           && |source.value.reviewSnippets.value| > 0
                           && source.value.reviewSnippets.value[0].text == Some(text)
  {
    if source.Some? && source.value.reviewSnippets.Some? && |source.value.reviewSnippets.value| > 0
    then source.value.reviewSnippets.value[0].text.GetOr("")
    else ""
  }

  /** The emergency path's mapping of a place to a roofer. */
  function EmergencyRoofer(p: MapsPlace): (r: Roofer)
    ensures r.name != ""
    ensures p.title.Some? && p.title.value != "" ==> r.name == p.title.value
    ensures p.title.None? || p.title.value == "" ==> r.name == DefaultCrewName
    ensures r.uri == p.uri && r.address == p.address && r.phone == p.phoneNumber && r.rating == p.rating
    ensures r.reviewSnippet == Some(FirstSnippetText(ReviewSourceOf(p)))
    ensures p.placeAnswerSources.Some? ==> r.reviewSnippet == Some(FirstSnippetText(p.placeAnswerSources))
    ensures r.location.Some? <==> p.latLng.Some?
    ensures p.latLng.Some? ==> r.location == Some(LatLng(p.latLng.value.latitude, p.latLng.value.longitude))
    ensures r.email.None? && r.reviews.None? && r.eta.None?
  {
    Roofer(
      name := OptOr(p.title, DefaultCrewName),
      phone := p.phoneNumber,
      email := None,
      rating := p.rating,
      reviews := None,
      uri := p.uri,
      address := p.address,
      eta := None,
      reviewSnippet := Some(FirstSnippetText(ReviewSourceOf(p))),
      location := if p.latLng.Some? then Some(LatLng(p.latLng.value.latitude, p.latLng.value.longitude)) else None)
  }

  /** The estimate path's mapping: a different default name, no snippet, no location. */
  function EstimateRoofer(p: MapsPlace): (r: Roofer)
    ensures r.name != ""
    ensures p.title.Some? && p.title.value != "" ==> r.name == p.title.value
    ensures p.title.None? || p.title.value == "" ==> r.name == DefaultInstallerName
    ensures r.uri == p.uri && r.address == p.address && r.phone == p.phoneNumber && r.rating == p.rating
    ensures r.reviewSnippet.None? && r.location.None?
    ensures r.email.None? && r.reviews.None? && r.eta.None?
  {
    Roofer(
      name := OptOr(p.title, DefaultInstallerName),
      phone := p.phoneNumber,
      email := None,
      rating := p.rating,
      reviews := None,
      uri := p.uri,
      address := p.address,
      eta := None,
      reviewSnippet := None,
      location := None)
  }

  // ---------------------------------------------------------------- JSON span

  function LastIndexOf(s: string, c: char): (i: nat)
    requires c in s
    ensures i < |s| && s[i] == c && c !in s[i + 1..]
  {
    if s[|s| - 1] == c then |s| - 1
    else
      assert c in s[..|s| - 1] by {
        var k :| 0 <= k < |s| && s[k] == c;
        assert s[..|s| - 1][k] == c;
      }
      var i := LastIndexOf(s[..|s| - 1], c);
      assert s[i + 1..] == s[..|s| - 1][i + 1..] + [s[|s| - 1]];
      i
  }

  /** `text.match(/\{[\s\S]*\}/)`: the leftmost match starts at the first `{` and, being
      greedy, ends at the last `}`; there is a match exactly when some `}` follows
      some `{`. */
  function ExtractJsonSpan(text: string): (span: Option<string>)
    ensures span.Some? <==> exists i, j :: 0 <= i < j < |text| && text[i] == '{' && text[j] == '}'
    ensures span.Some? ==> |span.value| >= 2 && span.value[0] == '{' && span.value[|span.value| - 1] == '}'
    ensures span.Some? ==> exists i :: 0 <= i <= |text| - |span.value| && text[i..i + |span.value|] == span.value
                                       && '{' !in text[..i] && '}' !in text[i + |span.value|..]
  {
    if '{' in text && '}' in text && IndexOf(text, '{') < LastIndexOf(text, '}') then
      var i := IndexOf(text, '{');
      var j := LastIndexOf(text, '}');
      var span := text[i..j + 1];
      assert text[i..i + |span|] == span;
      Some(span)
    else
      None
  }

  /** An object between prose that opens no brace before it and closes none after it is
      extracted exactly, whatever braces it holds inside. */
  lemma ExtractEmbeddedObject(prefix: string, obj: string, suffix: string)
    requires |obj| >= 2 && obj[0] == '{' && obj[|obj| - 1] == '}'
    requires '{' !in prefix && '}' !in suffix
    ensures ExtractJsonSpan(prefix + obj + suffix) == Some(obj)
  {
    var text := prefix + obj + suffix;
    var i := |prefix|;
    var j := |prefix| + |obj| - 1;
    assert text[..i] == prefix;
    assert text[j + 1..] == suffix;
    FirstOccurrence(text, '{', i);
    LastOccurrence(text, '}', j);
    assert text[i..j + 1] == obj;
  }

  /** The first occurrence is the one with none before it. */
  lemma FirstOccurrence(s: string, c: char, k: nat)
    requires k < |s| && s[k] == c && c !in s[..k]
    ensures IndexOf(s, c) == k
  {
    var first := IndexOf(s, c);
    assert forall m :: 0 <= m < first ==> s[..first][m] == s[m];
    assert forall m :: 0 <= m < k ==> s[..k][m] == s[m];
  }

  /** The last occurrence is the one with none after it. */
  lemma LastOccurrence(s: string, c: char, k: nat)
    requires k < |s| && s[k] == c && c !in s[k + 1..]
    ensures LastIndexOf(s, c) == k
  {
    var last := LastIndexOf(s, c);
    assert forall m :: last < m < |s| ==> s[last + 1..][m - last - 1] == s[m];
    assert forall m :: k < m < |s| ==> s[k + 1..][m - k - 1] == s[m];
  }

  // ---------------------------------------------------------------- estimate fields

  /** The optional fields of the object parsed from the estimate's JSON span. */
  datatype EstimateFields = EstimateFields(
    estimatedCostRange: Option<string>,
    breakdown: Option<string>,
    marketInsights: Option<string>)

  /** Each text field falls back to its fixed placeholder when missing or empty; the
      companies are exactly the grounded roofers. */
  function EstimateFromFields(parsed: EstimateFields, roofers: seq<Roofer>): (e: EstimationResult)
    ensures e.estimatedCostRange != "" && e.breakdown != "" && e.marketInsights != ""
    ensures parsed.estimatedCostRange.Some? && parsed.estimatedCostRange.value != "" ==> e.estimatedCostRange == parsed.estimatedCostRange.value
    ensures parsed.estimatedCostRange.None? || parsed.estimatedCostRange.value == "" ==> e.estimatedCostRange == DefaultCostRange
    ensures parsed.breakdown.Some? && parsed.breakdown.value != "" ==> e.breakdown == parsed.breakdown.value
    ensures parsed.breakdown.None? || parsed.breakdown.value == "" ==> e.breakdown == DefaultBreakdown
    ensures parsed.marketInsights.Some? && parsed.marketInsights.value != "" ==> e.marketInsights == parsed.marketInsights.value
    ensures parsed.marketInsights.None? || parsed.marketInsights.value == "" ==> e.marketInsights == DefaultInsights
    ensures e.recommendedCompanies == roofers
  {
    EstimationResult(
      OptOr(parsed.estimatedCostRange, DefaultCostRange),
      OptOr(parsed.breakdown, DefaultBreakdown),
      OptOr(parsed.marketInsights, DefaultInsights),
      roofers)
  }

  // ---------------------------------------------------------------- the five adapters

  /** `engagePartnerSales(message, history)`. */
  function EngagePartnerSales(env: Environment, message: string, history: seq<ChatMessage>,
                              outcome: ProviderOutcome): (x: Exchange<string>)
    ensures x.sent.Some? <==> HasApiKey(env)
    ensures !HasApiKey(env) ==> x.result == Failure(MissingApiKey(MissingKeyMessage))
    ensures x.sent.Some? ==> x.sent.value == ConversationRequest(FlashPreviewModel, SalesAgent,
                                                                  BuildContents(history, message), NoTool, None)
    ensures HasApiKey(env) ==> (x.result.Success? <==> outcome.Responded?)
    ensures HasApiKey(env) && outcome.CallFailed? ==> x.result == Failure(ProviderError(outcome.message))
    ensures x.result.Success? ==> x.result.value != ""
    ensures x.result.Success? && (outcome.response.text.None? || outcome.response.text.value == "")
            ==> x.result.value == SalesFallbackText
    ensures x.result.Success? && outcome.response.text.Some? && outcome.response.text.value != ""
            ==> x.result.value == outcome.response.text.value
  {
    if !HasApiKey(env) then Exchange(None, Failure(MissingApiKey(MissingKeyMessage)))
    else
      var request := ConversationRequest(FlashPreviewModel, SalesAgent, BuildContents(history, message), NoTool, None);
      match outcome
      case CallFailed(m) => Exchange(Some(request), Failure(ProviderError(m)))
      case Responded(response) => Exchange(Some(request), Success(OptOr(response.text, SalesFallbackText)))
  }

  /** What `sendEmergencyMessage` resolves to: the reply text and the grounded roofers. */
  datatype EmergencyReply = EmergencyReply(text: string, roofers: seq<Roofer>)

  /** The specification of `sendEmergencyMessage(message, history, location)`. */
  function EmergencyExchange(env: Environment, message: string, history: seq<ChatMessage>,
                             location: Option<LocationState>, outcome: ProviderOutcome): (x: Exchange<EmergencyReply>)
    ensures x.sent.Some? <==> HasApiKey(env)
    ensures !HasApiKey(env) ==> x.result == Failure(MissingApiKey(MissingKeyMessage))
    ensures x.sent.Some? ==> x.sent.value == ConversationRequest(FlashModel, CrisisCoordinator,
                                                                  BuildContents(history, message), GoogleMaps,
                                                                  LocationHint(location))
    ensures HasApiKey(env) ==> (x.result.Success? <==> outcome.Responded?)
    ensures HasApiKey(env) && outcome.CallFailed? ==> x.result == Failure(ProviderError(outcome.message))
    ensures x.result.Success? ==> x.result.value.text != ""
    ensures x.result.Success? && (outcome.response.text.None? || outcome.response.text.value == "")
            ==> x.result.value.text == DispatchFallbackText
    ensures x.result.Success? && outcome.response.text.Some? && outcome.response.text.value != ""
            ==> x.result.value.text == outcome.response.text.value
    ensures x.result.Success? ==> x.result.value.roofers == RoofersFrom(outcome.response.groundingChunks, EmergencyRoofer)
  {
    if !HasApiKey(env) then Exchange(None, Failure(MissingApiKey(MissingKeyMessage)))
    else
      var request := ConversationRequest(FlashModel, CrisisCoordinator, BuildContents(history, message),
                                         GoogleMaps, LocationHint(location));
      match outcome
      case CallFailed(m) => Exchange(Some(request), Failure(ProviderError(m)))
      case Responded(response) =>
        Exchange(Some(request), Success(EmergencyReply(OptOr(response.text, DispatchFallbackText),
                                                      RoofersFrom(response.groundingChunks, EmergencyRoofer))))
  }

  /** `sendEmergencyMessage`, step by step as the source runs it. */
  method SendEmergencyMessage(env: Environment, message: string, history: seq<ChatMessage>,
                              location: Option<LocationState>, outcome: ProviderOutcome)
    returns (sent: Option<Request>, result: Result<EmergencyReply, AdapterError>)
    ensures Exchange(sent, result) == EmergencyExchange(env, message, history, location, outcome)
  {
    if !HasApiKey(env) {
      return None, Failure(MissingApiKey(MissingKeyMessage));
    }
    var contents := ReplayHistory(history);
    contents := contents + [Turn(UserRole, message)];
    sent := Some(ConversationRequest(FlashModel, CrisisCoordinator, contents, GoogleMaps, LocationHint(location)));
    if outcome.CallFailed? {
      return sent, Failure(ProviderError(outcome.message));
    }
    var text := OptOr(outcome.response.text, DispatchFallbackText);
    var roofers := CollectRoofers(outcome.response.groundingChunks, EmergencyRoofer);
    result := Success(EmergencyReply(text, roofers));
  }

  /** `generateOutreachEmail(companyName, city, website?, instructions?)`. The parsed
      object is returned as it is. */
  function GenerateOutreachEmail(env: Environment, companyName: string, city: string,
                                 website: Option<string>, instructions: Option<string>,
                                 outcome: ProviderOutcome,
                                 parse: string -> Result<GeneratedEmail, string>): (x: Exchange<GeneratedEmail>)
    ensures x.sent.Some? <==> HasApiKey(env)
    ensures !HasApiKey(env) ==> x.result == Failure(MissingApiKey(MissingKeyShortMessage))
    ensures x.sent.Some? ==> x.sent.value == PromptRequest(FlashPreviewModel, OutreachCrew,
                               OutreachPrompt(companyName, city, OptOr(website, WebsiteFallback),
                                              OptOr(instructions, InstructionsFallback)),
                               GoogleSearch, true, EmailSchemaFields)
    ensures HasApiKey(env) && outcome.CallFailed? ==> x.result == Failure(ProviderError(outcome.message))
    ensures HasApiKey(env) && outcome.Responded? && (outcome.response.text.None? || outcome.response.text.value == "")
            ==> x.result == Parsed(parse(EmptyJsonText))
    ensures HasApiKey(env) && outcome.Responded? && outcome.response.text.Some? && outcome.response.text.value != ""
            ==> x.result == Parsed(parse(outcome.response.text.value))
  {
    if !HasApiKey(env) then Exchange(None, Failure(MissingApiKey(MissingKeyShortMessage)))
    else
      var request := PromptRequest(FlashPreviewModel, OutreachCrew,
                                   OutreachPrompt(companyName, city, OptOr(website, WebsiteFallback),
                                                  OptOr(instructions, InstructionsFallback)),
                                   GoogleSearch, true, EmailSchemaFields);
      match outcome
      case CallFailed(m) => Exchange(Some(request), Failure(ProviderError(m)))
      case Responded(response) => Exchange(Some(request), Parsed(parse(OptOr(response.text, EmptyJsonText))))
  }

  /** `generateNetworkStrategy(marketContext)`. The parsed object is returned as it is. */
  function GenerateNetworkStrategy(env: Environment, marketContext: string, outcome: ProviderOutcome,
                                   parse: string -> Result<ListingStrategy, string>): (x: Exchange<ListingStrategy>)
    ensures x.sent.Some? <==> HasApiKey(env)
    ensures !HasApiKey(env) ==> x.result == Failure(MissingApiKey(MissingKeyShortMessage))
    ensures x.sent.Some? ==> x.sent.value == PromptRequest(FlashPreviewModel, StrategyLab,
                                                            StrategyPrompt(marketContext), NoTool, true, [])
    ensures HasApiKey(env) && outcome.CallFailed? ==> x.result == Failure(ProviderError(outcome.message))
    ensures HasApiKey(env) && outcome.Responded? && (outcome.response.text.None? || outcome.response.text.value == "")
            ==> x.result == Parsed(parse(EmptyJsonText))
    ensures HasApiKey(env) && outcome.Responded? && outcome.response.text.Some? && outcome.response.text.value != ""
            ==> x.result == Parsed(parse(outcome.response.text.value))
  {
    if !HasApiKey(env) then Exchange(None, Failure(MissingApiKey(MissingKeyShortMessage)))
    else
      var request := PromptRequest(FlashPreviewModel, StrategyLab, StrategyPrompt(marketContext), NoTool, true, []);
      match outcome
      case CallFailed(m) => Exchange(Some(request), Failure(ProviderError(m)))
      case Responded(response) => Exchange(Some(request), Parsed(parse(OptOr(response.text, EmptyJsonText))))
  }

  /** `getRoofingEstimate({ size, material, complexity, city })`. */
  method GetRoofingEstimate(env: Environment, size: real, material: string, complexity: string, city: string,
                            outcome: ProviderOutcome, parse: string -> Result<EstimateFields, string>)
    returns (sent: Option<Request>, result: Result<EstimationResult, AdapterError>)
    ensures sent.Some? <==> HasApiKey(env)
    ensures !HasApiKey(env) ==> result == Failure(MissingApiKey(MissingKeyShortMessage))
    ensures sent.Some? ==> sent.value == PromptRequest(FlashModel, Estimator,
                                                        EstimatePrompt(city, size, material, complexity),
                                                        GoogleMaps, false, [])
    ensures HasApiKey(env) && outcome.CallFailed? ==> result == Failure(ProviderError(outcome.message))
    ensures HasApiKey(env) && outcome.Responded? && ExtractJsonSpan(outcome.response.text.GetOr("")).None?
            ==> result == Failure(MalformedResponse(NoJsonMessage))
    ensures HasApiKey(env) && outcome.Responded? && ExtractJsonSpan(outcome.response.text.GetOr("")).Some?
            ==> (var parsed := parse(ExtractJsonSpan(outcome.response.text.GetOr("")).value);
                 result == if parsed.Failure? then Failure(MalformedResponse(parsed.error))
                           else Success(EstimateFromFields(parsed.value,
                                          RoofersFrom(outcome.response.groundingChunks, EstimateRoofer))))
  {
    if !HasApiKey(env) {
      return None, Failure(MissingApiKey(MissingKeyShortMessage));
    }
    sent := Some(PromptRequest(FlashModel, Estimator, EstimatePrompt(city, size, material, complexity), GoogleMaps, false, []));
    if outcome.CallFailed? {
      return sent, Failure(ProviderError(outcome.message));
    }
    var text := OptOr(outcome.response.text, "");
    var jsonMatch := ExtractJsonSpan(text);
    if jsonMatch.None? {
      return sent, Failure(MalformedResponse(NoJsonMessage));
    }
    var parsed := parse(jsonMatch.value);
    if parsed.Failure? {
      return sent, Failure(MalformedResponse(parsed.error));
    }
    var roofers := CollectRoofers(outcome.response.groundingChunks, EstimateRoofer);
    result := Success(EstimateFromFields(parsed.value, roofers));
  }
}
