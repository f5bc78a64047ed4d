/** The partner sales chat: a light Markdown renderer for the sales agent's replies
    (`MarkdownLite`, `parseBold`) and the transcript state of the chat widget. */
module PartnerSalesAI {
  import opened Wrappers
  import opened Strings
  import opened Types
  import opened Gemini

  // ---------------------------------------------------------------- parseBold

  /** A `**` delimiter starts at index `i`. */
  predicate DelimAt(s: string, i: nat) {
    i + 2 <= |s| && s[i] == '*' && s[i + 1] == '*'
  }

  /** The lazy tail `.*?\*\*` of the bold pattern, tried from index `j`: the first `**`
      at or after `j` that no line terminator precedes. */
  function CloseFrom(s: string, j: nat): (k: Option<nat>)
    ensures k.Some? ==> j <= k.value && DelimAt(s, k.value)
    ensures k.Some? ==> forall m :: j <= m < k.value ==> !IsLineTerminator(s[m]) && !DelimAt(s, m)
    decreases |s| - j
  {
    if j + 2 > |s| then None
    else if DelimAt(s, j) then Some(j)
    else if IsLineTerminator(s[j]) then None
    else CloseFrom(s, j + 1)
  }

  /** End (exclusive) of a match of `\*\*.*?\*\*` starting exactly at index `q`. */
  function MatchEnd(s: string, q: nat): (e: Option<nat>)
    ensures e.Some? ==> q + 4 <= e.value <= |s| && DelimAt(s, q) && DelimAt(s, e.value - 2)
    ensures e.Some? ==> forall m :: q + 2 <= m < e.value - 2 ==> !IsLineTerminator(s[m])
  {
    if !DelimAt(s, q) then None
    else
      match CloseFrom(s, q + 2)
      case Some(k) => Some(k + 2)
      case None => None
  }

  /** `String.prototype.split` with the capturing regular expression, from piece start
      `p`, trying a match at `q`: each match is kept as a part between the text before
      it and the rest. */
  function SplitFrom(s: string, p: nat, q: nat): seq<string>
    requires p <= q <= |s|
    decreases |s| - q
  {
    if q == |s| then [s[p..]]
    else
      match MatchEnd(s, q)
      case Some(e) => [s[p..q], s[q..e]] + SplitFrom(s, e, e)
      case None => SplitFrom(s, p, q + 1)
  }

  /** `text.split(/(\*\*.*?\*\*)/g)`. */
  function BoldSplit(text: string): (parts: seq<string>)
    ensures |parts| >= 1
    ensures text == "" ==> parts == [""]
  {
    SplitFromShape(text, 0, 0);
    SplitFrom(text, 0, 0)
  }

  /** A captured delimiter match: `**`, text without a line terminator, `**`. */
  predicate IsBoldToken(part: string) {
    |part| >= 4 && StartsWith(part, "**") && EndsWith(part, "**")
    && forall m :: 2 <= m < |part| - 2 ==> !IsLineTerminator(part[m])
  }

  lemma ConcatPair(a: string, b: string, rest: seq<string>)
    ensures Concat([a, b] + rest) == a + b + Concat(rest)
  {
    assert ([a, b] + rest)[1..] == [b] + rest;
    assert ([b] + rest)[1..] == rest;
  }

  lemma SliceThree(s: string, p: nat, q: nat, e: nat)
    requires p <= q <= e <= |s|
    ensures s[p..] == s[p..q] + s[q..e] + s[e..]
  {
  }

  lemma {:induction false} SplitFromConcat(s: string, p: nat, q: nat)
    requires p <= q <= |s|
    ensures Concat(SplitFrom(s, p, q)) == s[p..]
    decreases |s| - q
  {
    if q < |s| {
      match MatchEnd(s, q)
      case Some(e) =>
        SplitFromConcat(s, e, e);
        ConcatPair(s[p..q], s[q..e], SplitFrom(s, e, e));
        SliceThree(s, p, q, e);
      case None =>
        SplitFromConcat(s, p, q + 1);
    }
  }

  /** The split keeps its delimiters: concatenating the parts gives the text back. */
  lemma BoldSplitConcat(text: string)
    ensures Concat(BoldSplit(text)) == text
  {
    SplitFromConcat(text, 0, 0);
  }

  /** A match found by `MatchEnd` is a bold token. */
  lemma MatchIsToken(s: string, q: nat, e: nat)
    requires MatchEnd(s, q) == Some(e)
    ensures IsBoldToken(s[q..e])
  {
    var token := s[q..e];
    assert token[..2] == s[q..q + 2];
    assert token[|token| - 2..] == s[e - 2..e];
    assert forall m :: 2 <= m < |token| - 2 ==> token[m] == s[q + m];
  }

  /** Odd length with tokens at odd indices survives putting a text and a token in front. */
  lemma ShapeCons(text: string, token: string, rest: seq<string>)
    requires IsBoldToken(token)
    requires |rest| % 2 == 1
    requires forall i :: 0 <= i < |rest| && i % 2 == 1 ==> IsBoldToken(rest[i])
    ensures |[text, token] + rest| % 2 == 1
    ensures forall i :: 0 <= i < |[text, token] + rest| && i % 2 == 1 ==> IsBoldToken(([text, token] + rest)[i])
  {
    var parts := [text, token] + rest;
    forall i | 0 <= i < |parts| && i % 2 == 1 ensures IsBoldToken(parts[i]) {
      if i > 1 { assert parts[i] == rest[i - 2]; }
    }
  }

  lemma {:induction false} SplitFromShape(s: string, p: nat, q: nat)
    requires p <= q <= |s|
    ensures |SplitFrom(s, p, q)| % 2 == 1
    ensures forall i :: 0 <= i < |SplitFrom(s, p, q)| && i % 2 == 1 ==> IsBoldToken(SplitFrom(s, p, q)[i])
    decreases |s| - q
  {
    if q < |s| {
      match MatchEnd(s, q)
      case Some(e) =>
        SplitFromShape(s, e, e);
        MatchIsToken(s, q, e);
        ShapeCons(s[p..q], s[q..e], SplitFrom(s, e, e));
      case None =>
        SplitFromShape(s, p, q + 1);
    }
  }

  /** The split alternates text and captured matches: the parts at odd positions are
      exactly the `**…**` tokens, and there is one more text part than tokens. */
  lemma BoldSplitShape(text: string)
    ensures |BoldSplit(text)| % 2 == 1
    ensures forall i :: 0 <= i < |BoldSplit(text)| && i % 2 == 1 ==> IsBoldToken(BoldSplit(text)[i])
  {
    SplitFromShape(text, 0, 0);
  }

  datatype Inline = Plain(text: string) | Bold(text: string)

  /** `part.slice(2, -2)`, which is empty when the part is shorter than four. */
  function Inner(part: string): (r: string)
    ensures |part| >= 4 ==> part == part[..2] + r + part[|part| - 2..]
    ensures |part| < 4 ==> r == ""
  {
    if |part| >= 4 then part[2..|part| - 2] else ""
  }

  /** The map step of `parseBold`: a part that starts and ends with `**` becomes bold
      with two characters cut from each end; any other part passes through. */
  function RenderPart(part: string): (r: Inline)
    ensures r.Bold? <==> StartsWith(part, "**") && EndsWith(part, "**")
    ensures r.Plain? ==> r.text == part
    ensures r.Bold? && |part| >= 4 ==> part == "**" + r.text + "**"
    ensures r.Bold? && |part| < 4 ==> r.text == ""
  {
    if StartsWith(part, "**") && EndsWith(part, "**") then Bold(Inner(part)) else Plain(part)
  }

  function RenderParts(parts: seq<string>): (r: seq<Inline>)
    ensures |r| == |parts|
    ensures forall i :: 0 <= i < |parts| ==> r[i] == RenderPart(parts[i])
  {
    if parts == [] then [] else [RenderPart(parts[0])] + RenderParts(parts[1..])
  }

  /** `parseBold(text)`. */
  function ParseBold(text: string): (r: seq<Inline>)
    ensures |r| % 2 == 1
    ensures forall i :: 0 <= i < |r| && i % 2 == 1 ==> r[i].Bold?
  {
    BoldSplitShape(text);
    RenderParts(BoldSplit(text))
  }

  /** Each captured token renders as bold text whose delimiters add back to the token. */
  lemma CapturedPartsAreBold(text: string, i: nat)
    requires i < |BoldSplit(text)| && i % 2 == 1
    ensures |ParseBold(text)| == |BoldSplit(text)|
    ensures ParseBold(text)[i].Bold?
    ensures BoldSplit(text)[i] == "**" + ParseBold(text)[i].text + "**"
  {
    BoldSplitShape(text);
  }

  /** Source text of a rendered part, delimiters restored. */
  function Show(x: Inline): string {
    match x
    case Plain(t) => t
    case Bold(t) => "**" + t + "**"
  }

  function ShowAll(xs: seq<Inline>): string {
    if xs == [] then "" else Show(xs[0]) + ShowAll(xs[1..])
  }

  /** A part `RenderPart` cannot give back: `**` or `***`, which render as empty bold. */
  predicate Collapses(part: string) {
    StartsWith(part, "**") && EndsWith(part, "**") && |part| < 4
  }

  lemma {:induction false} ShowRenderParts(parts: seq<string>)
    requires forall i :: 0 <= i < |parts| ==> !Collapses(parts[i])
    ensures ShowAll(RenderParts(parts)) == Concat(parts)
  {
    if parts != [] {
      ShowRenderParts(parts[1..]);
      assert RenderParts(parts)[1..] == RenderParts(parts[1..]);
    }
  }

  /** Rendering loses nothing: restoring the delimiters of the bold parts gives the
      input back, unless a part is a bare `**` or `***`. */
  lemma ParseBoldRoundTrip(text: string)
    requires forall i :: 0 <= i < |BoldSplit(text)| ==> !Collapses(BoldSplit(text)[i])
    ensures ShowAll(ParseBold(text)) == text
  {
    ShowRenderParts(BoldSplit(text));
    BoldSplitConcat(text);
  }

  /** Such a bare delimiter does occur: the text `**` renders as one empty bold part. */
  lemma LoneDelimiterCollapses()
    ensures ParseBold("**") == [Bold("")]
  {
    assert !DelimAt("**", 1);
    assert MatchEnd("**", 0).None? by { assert CloseFrom("**", 2).None?; }
    assert SplitFrom("**", 0, 2) == ["**"];
    assert BoldSplit("**") == ["**"];
  }

  // ---------------------------------------------------------------- MarkdownLite

  datatype Block =
    | Spacer
    | Header(title: string)
    | Bullet(content: seq<Inline>)
    | Paragraph(content: seq<Inline>)

  /** `trimmed.replace(/^###\s?/, '')`: the marker and at most one whitespace after it
      removed. */
  function HeaderText(trimmed: string): (h: string)
    requires StartsWith(trimmed, "###")
    ensures trimmed == "###" + h
            || (|trimmed| > 3 && IsWhitespace(trimmed[3]) && trimmed == "###" + [trimmed[3]] + h)
    ensures |trimmed| > 3 && IsWhitespace(trimmed[3]) ==> |h| == |trimmed| - 4
    ensures !(|trimmed| > 3 && IsWhitespace(trimmed[3])) ==> |h| == |trimmed| - 3
  {
    if |trimmed| > 3 && IsWhitespace(trimmed[3]) then
      assert trimmed == trimmed[..3] + [trimmed[3]] + trimmed[4..];
      trimmed[4..]
    else
      assert trimmed == trimmed[..3] + trimmed[3..];
      trimmed[3..]
  }

  predicate HasBulletMarker(trimmed: string) {
    StartsWith(trimmed, "* ") || StartsWith(trimmed, "- ")
  }

  /** One line of `MarkdownLite`, tested in order: blank after trimming, `###` header,
      `* `/`- ` bullet, paragraph. */
  function ClassifyLine(line: string): (b: Block)
    ensures b.Spacer? <==> AllWhitespace(line)
    ensures b.Header? <==> Trim(line) != "" && StartsWith(Trim(line), "###")
    ensures b.Bullet? <==> Trim(line) != "" && !StartsWith(Trim(line), "###") && HasBulletMarker(Trim(line))
    ensures b.Header? ==> b.title == HeaderText(Trim(line))
    ensures b.Bullet? ==> |Trim(line)| >= 2 && b.content == ParseBold(Trim(line)[2..])
    ensures b.Paragraph? ==> b.content == ParseBold(Trim(line))
  {
    TrimEmptyIffBlank(line);
    var trimmed := Trim(line);
    if trimmed == "" then Spacer
    else if StartsWith(trimmed, "###") then Header(HeaderText(trimmed))
    else if HasBulletMarker(trimmed) then Bullet(ParseBold(trimmed[2..]))
    else Paragraph(ParseBold(trimmed))
  }

  /** A line and its trimmed form render the same block. */
  lemma ClassifyTrimmed(line: string)
    ensures ClassifyLine(Trim(line)) == ClassifyLine(line)
  {
    TrimIdempotent(line);
    TrimEmptyIffBlank(line);
    TrimEmptyIffBlank(Trim(line));
  }

  /** `MarkdownLite`: one block per `\n`-separated line, in line order. */
  function MarkdownLite(text: string): (blocks: seq<Block>)
    ensures |blocks| == |Split(text, '\n')| == Count(text, '\n') + 1
    ensures forall i :: 0 <= i < |blocks| ==> blocks[i] == ClassifyLine(Split(text, '\n')[i])
  {
    var lines := Split(text, '\n');
    SplitCount(text, '\n');
    seq(|lines|, i requires 0 <= i < |lines| => ClassifyLine(lines[i]))
  }

  // ---------------------------------------------------------------- the chat widget

  const WelcomeText := "### Welcome to the Inner Circle\n\nI'm Marcus, your **Senior Growth Consultant**. You're here because you run one of the best crews in the GTA and you're ready for high-margin, **pre-triaged emergency volume**.\n\nAsk me about our dispatch protocol, your specific territory ROI, or how we verify jobs before they hit your desk."
  const MaintenanceText := "Our neural sales network is currently under maintenance. Please proceed to the vetting form below."

  /** The turn appended when the sales adapter settles: its text on success, the fixed
      maintenance notice as a system turn on any failure. */
  function SalesReply(result: Result<string, AdapterError>, stamp: Stamp): (m: ChatMessage)
    ensures m.role != User
    ensures result.Success? <==> m.role == Assistant
    ensures result.Success? ==> m.content == result.value
    ensures result.Failure? ==> m.content == MaintenanceText
    ensures m.id == stamp.id && m.timestamp == stamp.timestamp && m.roofers.None?
  {
    match result
    case Success(text) => ChatMessage(stamp.id, Assistant, text, stamp.timestamp, None, None)
    case Failure(_) => ChatMessage(stamp.id, System, MaintenanceText, stamp.timestamp, None, None)
  }

  /** A send accepted by the guard, awaiting the adapter: the text sent and the history
      as it was before the user turn was added. */
  datatype PendingSend = PendingSend(text: string, history: seq<ChatMessage>)

  class SalesChat {
    var messages: seq<ChatMessage>
    var input: string
    var isLoading: bool

    /** A request is in flight exactly when the transcript ends with a user turn. */
    ghost predicate Valid()
      reads this
    {
      |messages| > 0 && (isLoading <==> messages[|messages| - 1].role == User)
    }

    constructor (now: int)
      ensures Valid()
      ensures messages == [ChatMessage("1", Assistant, WelcomeText, now, None, None)]
      ensures input == "" && !isLoading
    {
      messages := [ChatMessage("1", Assistant, WelcomeText, now, None, None)];
      input := "";
      isLoading := false;
    }

    /** Typing; the input field is disabled while a request is in flight. */
    method EditInput(text: string)
      requires Valid() && !isLoading
      modifies this
      ensures Valid()
      ensures input == text && messages == old(messages) && isLoading == old(isLoading)
    {
      input := text;
    }

    /** The synchronous half of `handleSend`: the guard, then the user turn. */
    method Submit(stamp: Stamp) returns (pending: Option<PendingSend>)
      requires Valid()
      modifies this
      ensures Valid()
      ensures pending.None? <==> Trim(old(input)) == "" || old(isLoading)
      ensures pending.None? ==> messages == old(messages) && input == old(input) && isLoading == old(isLoading)
      ensures pending.Some? ==> pending.value == PendingSend(Trim(old(input)), old(messages))
      ensures pending.Some? ==> messages == old(messages) + [UserTurn(Trim(old(input)), stamp)]
      ensures pending.Some? ==> input == "" && isLoading
    {
      var text := Trim(input);
      if text == "" || isLoading {
        return None;
      }
      pending := Some(PendingSend(text, messages));
      messages := messages + [UserTurn(text, stamp)];
      input := "";
      isLoading := true;
    }

    /** The asynchronous half: the adapter call for the accepted send, exactly one reply
        or system turn, then `isLoading` off. */
    method Settle(env: Environment, pending: PendingSend, outcome: ProviderOutcome, stamp: Stamp)
      requires Valid() && isLoading
      modifies this
      ensures Valid() && !isLoading
      ensures messages == old(messages)
                          + [SalesReply(EngagePartnerSales(env, pending.text, pending.history, outcome).result, stamp)]
      ensures input == old(input)
    {
      var exchange := EngagePartnerSales(env, pending.text, pending.history, outcome);
      messages := messages + [SalesReply(exchange.result, stamp)];
      isLoading := false;
    }

    /** `handleSend` from start to finish, with the adapter answering `outcome`. */
    method HandleSend(env: Environment, outcome: ProviderOutcome, userStamp: Stamp, replyStamp: Stamp)
      returns (accepted: bool)
      requires Valid()
      modifies this
      ensures Valid()
      ensures accepted <==> Trim(old(input)) != "" && !old(isLoading)
      ensures !accepted ==> messages == old(messages) && input == old(input) && isLoading == old(isLoading)
      ensures accepted ==> messages == old(messages)
                                       + [UserTurn(Trim(old(input)), userStamp)]
                                       + [SalesReply(EngagePartnerSales(env, Trim(old(input)), old(messages), outcome).result,
                                                     replyStamp)]
      ensures accepted ==> input == "" && !isLoading
    {
      var pending := Submit(userStamp);
      if pending.None? {
        return false;
      }
      Settle(env, pending.value, outcome, replyStamp);
      accepted := true;
    }
  }
}
