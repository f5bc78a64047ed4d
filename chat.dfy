/** The emergency dispatch chat: its transcript, the in-flight guard around the
    adapter call, and the cap on roofers shown under a message. */
module Chat {
  import opened Wrappers
  import opened Strings
  import opened Types
  import opened Gemini

  const WelcomeText := "GTA Roof Guard unit active. Active leak? Tree on the roof? I'm here to dispatch vetted 24/7 roofing crews instantly. What is your location (Postal Code) and the severity of the damage?"
  const ConnectionPrefix := "Connection Issue: "
  const UnreachableText := "Unable to reach dispatch center."
  const ConnectionAdvice := " Please check your connection or call emergency services if you are in immediate danger."
  const MaxShownRoofers := 3

  /** The turn appended when the dispatch adapter settles: an assistant turn carrying the
      reply text and roofers, or a system turn naming the error. */
  function DispatchReply(result: Result<EmergencyReply, AdapterError>, stamp: Stamp): (m: ChatMessage)
    ensures m.role != User
    ensures result.Success? <==> m.role == Assistant
    ensures result.Success? ==> m.content == result.value.text && m.roofers == Some(result.value.roofers)
    ensures result.Failure? ==> m.content == ConnectionPrefix + Or(result.error.message, UnreachableText) + ConnectionAdvice
    ensures result.Failure? ==> m.roofers.None?
    ensures m.id == stamp.id && m.timestamp == stamp.timestamp
  {
    match result
    case Success(reply) => ChatMessage(stamp.id, Assistant, reply.text, stamp.timestamp, Some(reply.roofers), None)
    case Failure(e) =>
      ChatMessage(stamp.id, System, ConnectionPrefix + Or(e.message, UnreachableText) + ConnectionAdvice,
                  stamp.timestamp, None, None)
  }

  /** `msg.roofers.slice(0, 3)`: at most the first three roofers, in order. */
  function DisplayedRoofers(m: ChatMessage): (shown: seq<Roofer>)
    ensures |shown| <= MaxShownRoofers
    ensures m.roofers.None? ==> shown == []
    ensures m.roofers.Some? ==> |shown| == (if |m.roofers.value| < MaxShownRoofers then |m.roofers.value| else MaxShownRoofers)
    ensures m.roofers.Some? ==> shown == m.roofers.value[..|shown|]
  {
    if m.roofers.None? then []
    else if |m.roofers.value| <= MaxShownRoofers then m.roofers.value
    else m.roofers.value[..MaxShownRoofers]
  }

  /** The cards under a dispatch reply are the first (at most three) grounded places,
      each mapped as an emergency roofer. */
  lemma ShownDispatchOptions(env: Environment, message: string, history: seq<ChatMessage>,
                             location: Option<LocationState>, response: ProviderResponse, stamp: Stamp)
    requires HasApiKey(env)
    ensures var places := ChunkPlaces(response.groundingChunks);
            var shown := DisplayedRoofers(DispatchReply(EmergencyExchange(env, message, history, location,
                                                                          Responded(response)).result, stamp));
            |shown| == (if |places| < MaxShownRoofers then |places| else MaxShownRoofers) &&
            forall i :: 0 <= i < |shown| ==> shown[i] == EmergencyRoofer(places[i])
  {
  }

  /** A failed dispatch leaves a system turn, which the next request's history replay
      skips: the provider sees the user's words and nothing of the error. */
  lemma FailedDispatchNotReplayed(history: seq<ChatMessage>, text: string, e: AdapterError,
                                  userStamp: Stamp, replyStamp: Stamp)
    ensures ReplayHistory(history + [UserTurn(text, userStamp), DispatchReply(Failure(e), replyStamp)])
            == ReplayHistory(history) + [Turn(UserRole, text)]
  {
    var u := UserTurn(text, userStamp);
    var f := DispatchReply(Failure(e), replyStamp);
    assert history + [u, f] == (history + [u]) + [f];
    ReplayAppend(history + [u], [f]);
    ReplayAppend(history, [u]);
    ReplayOne(u);
    ReplayOne(f);
  }

  /** A send accepted by the guard: the text, the history before the user turn was added,
      and the location known at the time. */
  datatype PendingSend = PendingSend(text: string, history: seq<ChatMessage>, location: LocationState)

  class DispatchChat {
    var messages: seq<ChatMessage>
    var input: string
    var isLoading: bool
    var location: LocationState

    /** A request is in flight exactly when the transcript ends with a user turn. */
    ghost predicate Valid()
      reads this
    {
      |messages| > 0 && (isLoading <==> messages[|messages| - 1].role == User)
    }

    constructor (now: int)
      ensures Valid()
      ensures messages == [ChatMessage("1", Assistant, WelcomeText, now, None, None)]
      ensures input == "" && !isLoading && location == NoLocation
    {
      messages := [ChatMessage("1", Assistant, WelcomeText, now, None, None)];
      input := "";
      isLoading := false;
      location := NoLocation;
    }

    /** Typing; the input field is disabled while a request is in flight. */
    method EditInput(text: string)
      requires Valid() && !isLoading
      modifies this
      ensures Valid()
      ensures input == text && messages == old(messages) && isLoading == old(isLoading) && location == old(location)
    {
      input := text;
    }

    /** The geolocation callback: `setLocation({ lat, lng })`. */
    method LocationFound(lat: real, lng: real)
      requires Valid()
      modifies this
      ensures Valid()
      ensures location == LocationState(Some(lat), Some(lng), None, None)
      ensures messages == old(messages) && input == old(input) && isLoading == old(isLoading)
    {
      location := LocationState(Some(lat), Some(lng), None, None);
    }

    /** The synchronous half of `handleSend`: trim, guard, append the user turn, clear
      the input, raise `isLoading`. */
    method Submit(stamp: Stamp) returns (pending: Option<PendingSend>)
      requires Valid()
      modifies this
      ensures Valid()
      ensures location == old(location)
      ensures pending.None? <==> Trim(old(input)) == "" || old(isLoading)
      ensures pending.None? ==> messages == old(messages) && input == old(input) && isLoading == old(isLoading)
      ensures pending.Some? ==> pending.value == PendingSend(Trim(old(input)), old(messages), location)
      ensures pending.Some? ==> messages == old(messages) + [UserTurn(Trim(old(input)), stamp)]
      ensures pending.Some? ==> input == "" && isLoading
    {
      var trimmedInput := Trim(input);
      if trimmedInput == "" || isLoading {
        return None;
      }
      pending := Some(PendingSend(trimmedInput, messages, location));
      messages := messages + [UserTurn(trimmedInput, stamp)];
      input := "";
      isLoading := true;
    }

    /** The asynchronous half: the adapter call for the accepted send, exactly one reply
        or system turn, then `isLoading` off. */
    method Settle(env: Environment, pending: PendingSend, outcome: ProviderOutcome, stamp: Stamp)
      requires Valid() && isLoading
      modifies this
      ensures Valid() && !isLoading
      ensures messages == old(messages)
                          + [DispatchReply(EmergencyExchange(env, pending.text, pending.history,
                                                             Some(pending.location), outcome).result, stamp)]
      ensures input == old(input) && location == old(location)
    {
      var _, result := SendEmergencyMessage(env, pending.text, pending.history, Some(pending.location), outcome);
      messages := messages + [DispatchReply(result, stamp)];
      isLoading := false;
    }

    /** `handleSend` from start to finish, with the provider answering `outcome`. */
    method HandleSend(env: Environment, outcome: ProviderOutcome, userStamp: Stamp, replyStamp: Stamp)
      returns (accepted: bool)
      requires Valid()
      modifies this
      ensures Valid()
      ensures location == old(location)
      ensures accepted <==> Trim(old(input)) != "" && !old(isLoading)
      ensures !accepted ==> messages == old(messages) && input == old(input) && isLoading == old(isLoading)
      ensures accepted ==> messages == old(messages)
                                       + [UserTurn(Trim(old(input)), userStamp)]
                                       + [DispatchReply(EmergencyExchange(env, Trim(old(input)), old(messages),
                                                                          Some(old(location)), outcome).result,
                                                        replyStamp)]
      ensures accepted ==> input == "" && !isLoading
    {
      var pending := Submit(userStamp);
      if pending.None? {
        return false;
      }
      Settle(env, pending.value, outcome, replyStamp);
      accepted := true;
    }
  }
}
