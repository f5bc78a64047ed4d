/** The partner control center: the e-mail body formatting of the outreach preview, the
    company-name fallbacks, the two agent pipelines that drive the task boards, and the
    integration endpoints kept in local storage. */
module AdminSection {
  import opened Wrappers
  import opened Strings
  import opened Types
  import opened Gemini
  import opened LocalStorage

  // ---------------------------------------------------------------- e-mail body

  const BodyBreak := "<br><br>"

  /** Neither begins nor ends with whitespace: what `trim` leaves. */
  predicate Trimmed(s: string) {
    s == [] || (!IsWhitespace(s[0]) && !IsWhitespace(s[|s| - 1]))
  }

  /** One line of the body: its trim, unless that is empty. */
  function CleanLine(line: string): (segs: seq<string>)
    ensures |segs| <= 1
    ensures forall i :: 0 <= i < |segs| ==> segs[i] != "" && Trimmed(segs[i])
  {
    var t := Trim(line);
    if t == "" then [] else [t]
  }

  /** `.map(line => line.trim()).filter(Boolean)`: the trimmed lines, blank ones dropped. */
  function CleanLines(lines: seq<string>): (segs: seq<string>)
    ensures |segs| <= |lines|
    ensures forall i :: 0 <= i < |segs| ==> segs[i] != "" && Trimmed(segs[i])
  {
    if lines == [] then [] else CleanLine(lines[0]) + CleanLines(lines[1..])
  }

  lemma TrimKeepsOut(s: string, c: char)
    ensures c !in s ==> c !in Trim(s)
  {
    if c in Trim(s) { TrimChars(s, c); }
  }

  /** Trimming brings in no character: lines without `c` give segments without `c`. */
  lemma {:induction false} CleanLinesKeepOut(lines: seq<string>, c: char)
    requires forall j :: 0 <= j < |lines| ==> c !in lines[j]
    ensures forall i :: 0 <= i < |CleanLines(lines)| ==> c !in CleanLines(lines)[i]
  {
    if lines != [] {
      CleanLineKeepOut(lines[0], c);
      assert forall j :: 0 <= j < |lines[1..]| ==> lines[1..][j] == lines[j + 1];
      CleanLinesKeepOut(lines[1..], c);
      SegmentsKeepOut(CleanLine(lines[0]), CleanLines(lines[1..]), c);
    }
  }

  lemma CleanLineKeepOut(line: string, c: char)
    requires c !in line
    ensures forall i :: 0 <= i < |CleanLine(line)| ==> c !in CleanLine(line)[i]
  {
    TrimKeepsOut(line, c);
  }

  lemma SegmentsKeepOut(head: seq<string>, tail: seq<string>, c: char)
    requires forall i :: 0 <= i < |head| ==> c !in head[i]
    requires forall i :: 0 <= i < |tail| ==> c !in tail[i]
    ensures forall i :: 0 <= i < |head + tail| ==> c !in (head + tail)[i]
  {
  }

  lemma CleanLineEmpty(line: string)
    ensures CleanLine(line) == [] <==> AllWhitespace(line)
  {
    TrimEmptyIffBlank(line);
  }

  /** All lines are blank when the first one and all the others are. */
  lemma AllBlankCons(lines: seq<string>)
    requires lines != []
    ensures (forall j :: 0 <= j < |lines| ==> AllWhitespace(lines[j]))
            <==> AllWhitespace(lines[0]) && forall j :: 0 <= j < |lines[1..]| ==> AllWhitespace(lines[1..][j])
  {
    assert forall j :: 0 <= j < |lines[1..]| ==> lines[1..][j] == lines[j + 1];
  }

  /** Every line is dropped exactly when every line is blank. */
  lemma {:induction false} CleanLinesEmpty(lines: seq<string>)
    ensures CleanLines(lines) == [] <==> forall j :: 0 <= j < |lines| ==> AllWhitespace(lines[j])
  {
    if lines != [] {
      CleanLineEmpty(lines[0]);
      CleanLinesEmpty(lines[1..]);
      assert CleanLines(lines) == CleanLine(lines[0]) + CleanLines(lines[1..]);
      AllBlankCons(lines);
    }
  }

  /** The paragraphs of an e-mail body: its lines, trimmed, blank ones dropped. */
  function BodySegments(body: string): (segs: seq<string>)
    ensures forall i :: 0 <= i < |segs| ==> segs[i] != "" && '\n' !in segs[i] && Trimmed(segs[i])
  {
    CleanLinesKeepOut(Split(body, '\n'), '\n');
    CleanLines(Split(body, '\n'))
  }

  /** `formattedBody` in `generateEmailHtml`: the paragraphs joined by `<br><br>`, which
      leaves no newline in the result. */
  function FormattedBody(body: string): (html: string)
    ensures '\n' !in html
  {
    JoinExcludes(BodySegments(body), BodyBreak, '\n');
    Join(BodySegments(body), BodyBreak)
  }

  /** The formatted body is empty exactly when the e-mail body is blank. */
  lemma FormattedBodyEmptyIffBlank(body: string)
    ensures FormattedBody(body) == "" <==> AllWhitespace(body)
  {
    var lines := Split(body, '\n');
    JoinEmptyIffNone(BodySegments(body), BodyBreak);
    assert FormattedBody(body) == "" <==> CleanLines(lines) == [];
    CleanLinesEmpty(lines);
    LinesBlankIffBodyBlank(body, lines);
  }

  /** A body is blank exactly when each of its lines is. */
  lemma LinesBlankIffBodyBlank(body: string, lines: seq<string>)
    requires lines == Split(body, '\n')
    ensures AllWhitespace(body) <==> forall j :: 0 <= j < |lines| ==> AllWhitespace(lines[j])
  {
    JoinSplit(body, '\n');
    assert IsWhitespace('\n');
    JoinAllWhitespace(lines, "\n");
  }

  /** A join of non-empty parts is empty only when there are no parts. */
  lemma JoinEmptyIffNone(parts: seq<string>, sep: string)
    requires forall i :: 0 <= i < |parts| ==> parts[i] != ""
    ensures Join(parts, sep) == "" <==> parts == []
  {
    if |parts| > 1 {
      assert Join(parts, sep) == parts[0] + sep + Join(parts[1..], sep);
    }
  }

  /** With a whitespace separator, a join is blank exactly when each part is. */
  lemma {:induction false} JoinAllWhitespace(parts: seq<string>, sep: string)
    requires AllWhitespace(sep)
    ensures AllWhitespace(Join(parts, sep)) <==> forall j :: 0 <= j < |parts| ==> AllWhitespace(parts[j])
  {
    if |parts| > 1 {
      var rest := Join(parts[1..], sep);
      JoinAllWhitespace(parts[1..], sep);
      BlankConcat(parts[0] + sep, rest);
      BlankConcat(parts[0], sep);
      assert forall j :: 1 <= j < |parts| ==> parts[j] == parts[1..][j - 1];
    }
  }

  lemma BlankConcat(a: string, b: string)
    ensures AllWhitespace(a + b) <==> AllWhitespace(a) && AllWhitespace(b)
  {
    if AllWhitespace(a + b) {
      forall k | 0 <= k < |b| ensures IsWhitespace(b[k]) {
        assert (a + b)[|a| + k] == b[k];
      }
      forall k | 0 <= k < |a| ensures IsWhitespace(a[k]) {
        assert (a + b)[k] == a[k];
      }
    }
  }

  /** The first and last characters of a join of non-empty parts come from the first
      and the last part. */
  lemma {:induction false} JoinEnds(parts: seq<string>, sep: string)
    requires |parts| > 0
    requires forall i :: 0 <= i < |parts| ==> parts[i] != ""
    ensures var j := Join(parts, sep);
            |j| > 0 && j[0] == parts[0][0] && j[|j| - 1] == parts[|parts| - 1][|parts[|parts| - 1]| - 1]
  {
    if |parts| > 1 {
      JoinEnds(parts[1..], sep);
      assert parts[1..][|parts| - 2] == parts[|parts| - 1];
    }
  }

  /** A string that neither begins nor ends with whitespace is its own trim. */
  lemma TrimmedFixpoint(s: string)
    requires Trimmed(s)
    ensures Trim(s) == s
  {
    assert TrimStart(s) == s;
    assert TrimEnd(s) == s;
  }

  /** Formatting an already formatted body changes nothing. */
  lemma FormattedBodyIdempotent(body: string)
    ensures FormattedBody(FormattedBody(body)) == FormattedBody(body)
  {
    var h := FormattedBody(body);
    var segs := BodySegments(body);
    if segs != [] {
      JoinEnds(segs, BodyBreak);
      assert Trimmed(segs[0]) && Trimmed(segs[|segs| - 1]);
    } else {
      assert h == "";
    }
    TrimmedFixpoint(h);
    assert Split(h, '\n') == [h];
    assert CleanLines([h]) == (if h == "" then [] else [h]);
  }

  // ---------------------------------------------------------------- company labels

  const BannerFallback := "Premier Contractor"
  const FooterFallback := "your firm"
  const ActionBarFallback := "Target"
  const ResearchFallback := "target"

  /** `company || 'Premier Contractor'`, the invitation banner (preview and HTML). */
  function BannerCompany(company: string): (name: string)
    ensures name != ""
    ensures company != "" ==> name == company
    ensures company == "" ==> name == BannerFallback
  {
    Or(company, BannerFallback)
  }

  /** `company || 'your firm'`, the footer of the HTML invitation. */
  function FooterCompany(company: string): (name: string)
    ensures name != ""
    ensures company != "" ==> name == company
    ensures company == "" ==> name == FooterFallback
  {
    Or(company, FooterFallback)
  }

  /** `company || 'Target'`, the action bar above the preview. */
  function ActionBarCompany(company: string): (name: string)
    ensures name != ""
    ensures company != "" ==> name == company
    ensures company == "" ==> name == ActionBarFallback
  {
    Or(company, ActionBarFallback)
  }

  /** The parts of the HTML invitation that depend on the e-mail and the company. */
  datatype Invitation = Invitation(banner: string, subject: string, body: string, footer: string)

  /** `generateEmailHtml()`, which the preview also calls while rendering. The subject is
      interpolated as it is, so a missing one reads `undefined`; a missing body makes
      `email.body.split` throw, here `None`. */
  function InvitationOf(email: GeneratedEmail, company: string): (inv: Option<Invitation>)
    ensures inv.None? <==> email.body.None?
    ensures inv.Some? ==> inv.value.body == FormattedBody(email.body.value) && '\n' !in inv.value.body
    ensures inv.Some? ==> (inv.value.body == "" <==> AllWhitespace(email.body.value))
    ensures inv.Some? ==> inv.value.subject == Interpolate(email.subject)
    ensures inv.Some? ==> inv.value.banner == BannerCompany(company) && inv.value.footer == FooterCompany(company)
  {
    match email.body
    case None => None
    case Some(body) =>
      FormattedBodyEmptyIffBlank(body);
      Some(Invitation(BannerCompany(company), Interpolate(email.subject), FormattedBody(body), FooterCompany(company)))
  }

  // ---------------------------------------------------------------- task boards

  /** `prev.map(t => t.id === id ? { ...t, status, message } : t)`. */
  function UpdateTask(tasks: seq<OutreachAgentTask>, id: string, status: TaskStatus, message: string)
    : (r: seq<OutreachAgentTask>)
    ensures |r| == |tasks|
    ensures forall i :: 0 <= i < |tasks| && tasks[i].id != id ==> r[i] == tasks[i]
    ensures forall i :: 0 <= i < |tasks| && tasks[i].id == id ==>
              r[i] == OutreachAgentTask(id, tasks[i].agentName, status, message)
  {
    if tasks == [] then []
    else
      var t := tasks[0];
      var rest := UpdateTask(tasks[1..], id, status, message);
      assert forall i :: 1 <= i < |tasks| ==> tasks[i] == tasks[1..][i - 1];
      [if t.id == id then t.(status := status, message := message) else t] + rest
  }

  /** `prev.map(t => ({ ...t, status, message }))`. */
  function SetAllTasks(tasks: seq<OutreachAgentTask>, status: TaskStatus, message: string)
    : (r: seq<OutreachAgentTask>)
    ensures |r| == |tasks|
    ensures forall i :: 0 <= i < |tasks| ==> r[i] == OutreachAgentTask(tasks[i].id, tasks[i].agentName, status, message)
  {
    if tasks == [] then []
    else
      var rest := SetAllTasks(tasks[1..], status, message);
      assert forall i :: 1 <= i < |tasks| ==> tasks[i] == tasks[1..][i - 1];
      [tasks[0].(status := status, message := message)] + rest
  }

  /** The board's rows: id and agent name of each task, in order. */
  function Roster(tasks: seq<OutreachAgentTask>): seq<(string, string)> {
    seq(|tasks|, i requires 0 <= i < |tasks| => (tasks[i].id, tasks[i].agentName))
  }

  /** Updates never add, drop, reorder or rename agents. */
  lemma UpdatesKeepRoster(tasks: seq<OutreachAgentTask>, id: string, status: TaskStatus, message: string)
    ensures Roster(UpdateTask(tasks, id, status, message)) == Roster(tasks)
    ensures Roster(SetAllTasks(tasks, status, message)) == Roster(tasks)
  {
  }

  /** Repeating the same per-id update changes nothing more. */
  lemma UpdateTaskIdempotent(tasks: seq<OutreachAgentTask>, id: string, status: TaskStatus, message: string)
    ensures UpdateTask(UpdateTask(tasks, id, status, message), id, status, message)
            == UpdateTask(tasks, id, status, message)
  {
  }

  /** Updates of two different agents can be applied in either order. */
  lemma UpdatesCommute(tasks: seq<OutreachAgentTask>, a: string, sa: TaskStatus, ma: string,
                       b: string, sb: TaskStatus, mb: string)
    requires a != b
    ensures UpdateTask(UpdateTask(tasks, a, sa, ma), b, sb, mb)
            == UpdateTask(UpdateTask(tasks, b, sb, mb), a, sa, ma)
  {
  }

  /** A wholesale update erases whatever per-id progress came before it. */
  lemma SetAllOverrides(tasks: seq<OutreachAgentTask>, id: string, status: TaskStatus, message: string,
                        finalStatus: TaskStatus, finalMessage: string)
    ensures SetAllTasks(UpdateTask(tasks, id, status, message), finalStatus, finalMessage)
            == SetAllTasks(tasks, finalStatus, finalMessage)
    ensures SetAllTasks(SetAllTasks(tasks, status, message), finalStatus, finalMessage)
            == SetAllTasks(tasks, finalStatus, finalMessage)
  {
  }

  const Researcher := "Web Researcher"
  const Copywriter := "Senior Copywriter"
  const Compliance := "Compliance Agent"
  const HaltedMessage := "Crew pipeline halted. Check API status."

  /** The outreach board when the page opens. */
  const InitialOutreachTasks := [
    OutreachAgentTask("o1", Researcher, Idle, "Awaiting target data."),
    OutreachAgentTask("o2", Copywriter, Idle, "Ready to draft."),
    OutreachAgentTask("o3", Compliance, Idle, "Standing by for review.")]

  /** The outreach board a run starts from, whatever was shown before. */
  function KickoffTasks(company: string): (tasks: seq<OutreachAgentTask>)
    ensures Roster(tasks) == Roster(InitialOutreachTasks)
    ensures tasks[0].status == Working && tasks[1].status == Idle && tasks[2].status == Idle
    ensures tasks[0].message == "Executing Google Search for " + Or(company, ResearchFallback) + "..."
  {
    [OutreachAgentTask("o1", Researcher, Working, "Executing Google Search for " + Or(company, ResearchFallback) + "..."),
     OutreachAgentTask("o2", Copywriter, Idle, "Awaiting deep-dive research."),
     OutreachAgentTask("o3", Compliance, Idle, "Awaiting draft.")]
  }

  const ResearchDone := "Web analysis and local reputation indexed."
  const Drafting := "Synthesizing personalized B2B outreach..."
  const DraftDone := "Invitational copy finalized."
  const Auditing := "Performing final compliance audit..."
  const AuditDone := "Invitation approved for secure dispatch."

  /** The outreach board after a successful run. */
  const CompletedOutreachTasks := [
    OutreachAgentTask("o1", Researcher, Completed, ResearchDone),
    OutreachAgentTask("o2", Copywriter, Completed, DraftDone),
    OutreachAgentTask("o3", Compliance, Completed, AuditDone)]

  /** The board while the outreach call is awaited: research done, drafting under way. */
  function DraftingTasks(): (tasks: seq<OutreachAgentTask>)
    ensures Roster(tasks) == Roster(InitialOutreachTasks)
    ensures tasks[0].status == Completed && tasks[1].status == Working && tasks[2].status == Idle
  {
    [OutreachAgentTask("o1", Researcher, Completed, ResearchDone),
     OutreachAgentTask("o2", Copywriter, Working, Drafting),
     OutreachAgentTask("o3", Compliance, Idle, "Awaiting draft.")]
  }

  /** The two steps taken after the first pause of a run. */
  lemma OutreachDrafts(company: string)
    ensures UpdateTask(UpdateTask(KickoffTasks(company), "o1", Completed, ResearchDone), "o2", Working, Drafting)
            == DraftingTasks()
  {
    var k := KickoffTasks(company);
    var b1 := UpdateTask(k, "o1", Completed, ResearchDone);
    assert b1 == [k[0].(status := Completed, message := ResearchDone), k[1], k[2]];
    var b2 := UpdateTask(b1, "o2", Working, Drafting);
    assert b2 == [b1[0], b1[1].(status := Working, message := Drafting), b1[2]];
  }

  /** Both ends of an outreach run show the same three agents. */
  lemma OutreachRosters()
    ensures Roster(CompletedOutreachTasks) == Roster(InitialOutreachTasks)
    ensures Roster(SetAllTasks(InitialOutreachTasks, Error, HaltedMessage)) == Roster(InitialOutreachTasks)
  {
    UpdatesKeepRoster(InitialOutreachTasks, "", Error, HaltedMessage);
  }

  /** From the drafting board, the three remaining steps of a successful run. */
  lemma OutreachSucceeds()
    ensures UpdateTask(UpdateTask(UpdateTask(DraftingTasks(), "o2", Completed, DraftDone),
                                  "o3", Working, Auditing), "o3", Completed, AuditDone)
            == CompletedOutreachTasks
  {
    var b2 := DraftingTasks();
    var b3 := UpdateTask(b2, "o2", Completed, DraftDone);
    assert b3 == [b2[0], b2[1].(status := Completed, message := DraftDone), b2[2]];
    var b4 := UpdateTask(b3, "o3", Working, Auditing);
    assert b4 == [b3[0], b3[1], b3[2].(status := Working, message := Auditing)];
    var b5 := UpdateTask(b4, "o3", Completed, AuditDone);
    assert b5 == [b4[0], b4[1], b4[2].(status := Completed, message := AuditDone)];
  }

  /** From the drafting board, a failure halts the same three agents. */
  lemma OutreachHalts()
    ensures SetAllTasks(DraftingTasks(), Error, HaltedMessage)
            == SetAllTasks(InitialOutreachTasks, Error, HaltedMessage)
  {
  }

  const InitialMarketContext := "Current Focus: Rapid response for the upcoming spring storm season. Target: High-reputation family-owned businesses in Brampton and Mississauga."
  const StrategyWorkingMessage := "Processing market context..."
  const StrategyDoneMessage := "Task complete. Blueprint deployed."
  const StrategyFailedMessage := "Failed to synthesize strategy."

  /** The strategy board when the page opens. */
  const InitialStrategyTasks := [
    OutreachAgentTask("s1", "Market Analyst", Idle, "Awaiting directive."),
    OutreachAgentTask("s2", "Growth Architect", Idle, "Ready to map growth."),
    OutreachAgentTask("s3", "Pricing Strategist", Idle, "Standing by for ROI calc.")]

  predicate AllStatus(tasks: seq<OutreachAgentTask>, status: TaskStatus) {
    forall i :: 0 <= i < |tasks| ==> tasks[i].status == status
  }

  /** The board a strategy run publishes first: every task working on the context. */
  function StrategyWorkingBoard(tasks: seq<OutreachAgentTask>): (board: seq<OutreachAgentTask>)
    ensures Roster(board) == Roster(tasks)
    ensures AllStatus(board, Working)
    ensures forall i :: 0 <= i < |board| ==> board[i].message == StrategyWorkingMessage
  {
    UpdatesKeepRoster(tasks, "", Working, StrategyWorkingMessage);
    SetAllTasks(tasks, Working, StrategyWorkingMessage)
  }

  /** Both ends of a strategy run are the wholesale update of the working board, and
      they do not depend on what the board showed before the run. */
  lemma StrategyRunFromWorking(tasks: seq<OutreachAgentTask>)
    ensures SetAllTasks(StrategyWorkingBoard(tasks), Completed, StrategyDoneMessage)
            == SetAllTasks(tasks, Completed, StrategyDoneMessage)
    ensures SetAllTasks(StrategyWorkingBoard(tasks), Error, StrategyFailedMessage)
            == SetAllTasks(tasks, Error, StrategyFailedMessage)
  {
    SetAllOverrides(tasks, "", Working, StrategyWorkingMessage, Completed, StrategyDoneMessage);
    SetAllOverrides(tasks, "", Working, StrategyWorkingMessage, Error, StrategyFailedMessage);
  }

  /** The boards an outreach run shows after its first pause, while the audit runs, and
      at the end, computed by the run's per-agent and wholesale updates in order. A failed
      run never reaches the audit; its `auditing` board is the drafting one. */
  method OutreachBoards(company: string, failed: bool)
    returns (drafting: seq<OutreachAgentTask>, auditing: seq<OutreachAgentTask>, final: seq<OutreachAgentTask>)
    ensures drafting == DraftingTasks()
    ensures failed ==> auditing == drafting && final == SetAllTasks(InitialOutreachTasks, Error, HaltedMessage)
    ensures !failed ==> |auditing| == 3 && auditing[2].status == Working && final == CompletedOutreachTasks
  {
    var board := KickoffTasks(company);
    board := UpdateTask(board, "o1", Completed, ResearchDone);
    board := UpdateTask(board, "o2", Working, Drafting);
    OutreachDrafts(company);
    drafting := board;
    auditing := board;
    if failed {
      OutreachHalts();
      board := SetAllTasks(board, Error, HaltedMessage);
    } else {
      OutreachSucceeds();
      board := UpdateTask(board, "o2", Completed, DraftDone);
      board := UpdateTask(board, "o3", Working, Auditing);
      auditing := board;
      board := UpdateTask(board, "o3", Completed, AuditDone);
    }
    final := board;
  }

  // ---------------------------------------------------------------- console

  class AdminConsole {
    var company: string
    var city: string
    var website: string
    var instructions: string
    var isGeneratingEmail: bool
    var email: Option<GeneratedEmail>
    var outreachTasks: seq<OutreachAgentTask>
    var marketContext: string
    var isGeneratingStrategy: bool
    var strategyTasks: seq<OutreachAgentTask>
    var sheetLink: string
    var webhookUrl: string
    const store: LocalStore

    /** Between runs no pipeline is in flight and each board shows its three agents. */
    ghost predicate Valid()
      reads this
    {
      !isGeneratingEmail && !isGeneratingStrategy &&
      Roster(outreachTasks) == Roster(InitialOutreachTasks) &&
      Roster(strategyTasks) == Roster(InitialStrategyTasks)
    }

    /** The component's initial state, followed by the mount effect that loads the saved
        endpoints: a stored value replaces the empty default only when it is non-empty. */
    constructor (store: LocalStore)
      ensures Valid()
      ensures this.store == store
      ensures company == "" && city == "" && website == "" && instructions == ""
      ensures email == None
      ensures outreachTasks == InitialOutreachTasks && strategyTasks == InitialStrategyTasks
      ensures marketContext == InitialMarketContext
      ensures sheetLink == OptOr(store.GetItem(SheetKey), "")
      ensures webhookUrl == OptOr(store.GetItem(WebhookKey), "")
      ensures store.GetItem(SheetKey).Some? && store.GetItem(SheetKey).value != "" ==> sheetLink == store.items[SheetKey]
      ensures store.GetItem(SheetKey).None? || store.GetItem(SheetKey).value == "" ==> sheetLink == ""
    {
      this.store := store;
      company, city, website, instructions := "", "", "", "";
      isGeneratingEmail, email := false, None;
      outreachTasks := InitialOutreachTasks;
      marketContext := InitialMarketContext;
      isGeneratingStrategy := false;
      strategyTasks := InitialStrategyTasks;
      new;
      var savedLink := store.GetItem(SheetKey);
      var savedWebhook := store.GetItem(WebhookKey);
      sheetLink := if savedLink.Some? && savedLink.value != "" then savedLink.value else "";
      webhookUrl := if savedWebhook.Some? && savedWebhook.value != "" then savedWebhook.value else "";
    }

    /** The form fields and endpoint inputs (`onChange`). */
    method EditOutreachForm(company': string, city': string, website': string, instructions': string)
      requires Valid()
      modifies this
      ensures Valid()
      ensures company == company' && city == city' && website == website' && instructions == instructions'
      ensures email == old(email) && outreachTasks == old(outreachTasks) && strategyTasks == old(strategyTasks)
      ensures marketContext == old(marketContext) && sheetLink == old(sheetLink) && webhookUrl == old(webhookUrl)
    {
      company, city, website, instructions := company', city', website', instructions';
    }

    method EditEndpoints(sheetLink': string, webhookUrl': string)
      requires Valid()
      modifies this
      ensures Valid()
      ensures sheetLink == sheetLink' && webhookUrl == webhookUrl'
      ensures company == old(company) && city == old(city) && website == old(website) && instructions == old(instructions)
      ensures email == old(email) && outreachTasks == old(outreachTasks) && strategyTasks == old(strategyTasks)
      ensures marketContext == old(marketContext)
    {
      sheetLink, webhookUrl := sheetLink', webhookUrl';
    }

    /** `saveIntegrations`: both endpoints are written, nothing else in the store changes. */
    method SaveIntegrations()
      requires Valid()
      modifies store
      ensures store.items == old(store.items)[SheetKey := sheetLink][WebhookKey := webhookUrl]
      ensures store.GetItem(SheetKey) == Some(sheetLink) && store.GetItem(WebhookKey) == Some(webhookUrl)
    {
      store.SetItem(SheetKey, sheetLink);
      store.SetItem(WebhookKey, webhookUrl);
    }

    /** `runEmailAgent`, submitted from the form (both `required` fields filled in), with
        the provider answering `outcome`. The board walks through the three agents; a
        failure of the outreach call halts every agent and leaves no e-mail. */
    method RunEmailAgent(env: Environment, outcome: ProviderOutcome,
                         parse: string -> Result<GeneratedEmail, string>)
      requires Valid()
      requires company != "" && city != ""
      modifies this
      ensures Valid()
      ensures var x := GenerateOutreachEmail(env, old(company), old(city), Some(old(website)),
                                             Some(old(instructions)), outcome, parse);
              (x.result.Success? ==> email == Some(x.result.value) && outreachTasks == CompletedOutreachTasks) &&
              (x.result.Failure? ==> email == None && outreachTasks == SetAllTasks(InitialOutreachTasks, Error, HaltedMessage))
      ensures company == old(company) && city == old(city) && website == old(website) && instructions == old(instructions)
      ensures strategyTasks == old(strategyTasks) && marketContext == old(marketContext)
      ensures sheetLink == old(sheetLink) && webhookUrl == old(webhookUrl)
    {
      isGeneratingEmail := true;
      email := None;
      outreachTasks := KickoffTasks(company);
      var x := GenerateOutreachEmail(env, company, city, Some(website), Some(instructions), outcome, parse);
      var drafting, auditing, final := OutreachBoards(company, x.result.Failure?);
      OutreachRosters();
      outreachTasks := drafting;
      if x.result.Failure? {
        outreachTasks := final;
      } else {
        outreachTasks := auditing;
        outreachTasks := final;
        email := Some(x.result.value);
      }
      isGeneratingEmail := false;
    }

    /** `runStrategyLab` with the provider answering `outcome`; `serialize` is
        `JSON.stringify`. `working` is the board published before the call; only a
        successful run touches the store. */
    method RunStrategyLab(env: Environment, outcome: ProviderOutcome,
                          parse: string -> Result<ListingStrategy, string>,
                          serialize: ListingStrategy -> string)
      returns (working: seq<OutreachAgentTask>)
      requires Valid()
      modifies this, store
      ensures Valid()
      ensures working == StrategyWorkingBoard(old(strategyTasks))
      ensures var x := GenerateNetworkStrategy(env, old(marketContext), outcome, parse);
              (x.result.Success? ==>
                 store.items == old(store.items)[StrategyKey := serialize(x.result.value)] &&
                 strategyTasks == SetAllTasks(working, Completed, StrategyDoneMessage)) &&
              (x.result.Failure? ==>
                 store.items == old(store.items) &&
                 strategyTasks == SetAllTasks(working, Error, StrategyFailedMessage))
      ensures company == old(company) && city == old(city) && website == old(website) && instructions == old(instructions)
      ensures email == old(email) && outreachTasks == old(outreachTasks) && marketContext == old(marketContext)
      ensures sheetLink == old(sheetLink) && webhookUrl == old(webhookUrl)
    {
      isGeneratingStrategy := true;
      working := StrategyWorkingBoard(strategyTasks);
      strategyTasks := working;
      var x := GenerateNetworkStrategy(env, marketContext, outcome, parse);
      var board;
      if x.result.Success? {
        store.SetItem(StrategyKey, serialize(x.result.value));
        board := SetAllTasks(working, Completed, StrategyDoneMessage);
        UpdatesKeepRoster(working, "", Completed, StrategyDoneMessage);
      } else {
        board := SetAllTasks(working, Error, StrategyFailedMessage);
        UpdatesKeepRoster(working, "", Error, StrategyFailedMessage);
      }
      strategyTasks := board;
      isGeneratingStrategy := false;
    }
  }

  /** A finished outreach run leaves every agent completed, or every agent in error. */
  lemma OutreachRunEndsUniform()
    ensures AllStatus(CompletedOutreachTasks, Completed)
    ensures AllStatus(SetAllTasks(InitialOutreachTasks, Error, HaltedMessage), Error)
  {
  }

  /** A finished strategy run leaves the whole board completed, or the whole board in error. */
  lemma StrategyRunEndsUniform(tasks: seq<OutreachAgentTask>)
    ensures AllStatus(SetAllTasks(tasks, Completed, StrategyDoneMessage), Completed)
    ensures AllStatus(SetAllTasks(tasks, Error, StrategyFailedMessage), Error)
  {
  }

  /** An empty reply to the outreach crew parses as `{}`: the run counts as a success,
      but the e-mail it shows has no body and the preview's render throws. */
  lemma EmptyOutreachReplyBreaksPreview(env: Environment, company: string, city: string,
                                        website: Option<string>, instructions: Option<string>,
                                        response: ProviderResponse,
                                        parse: string -> Result<GeneratedEmail, string>)
    requires HasApiKey(env)
    requires response.text.None? || response.text.value == ""
    requires parse(EmptyJsonText) == Success(EmptyEmail)
    ensures var x := GenerateOutreachEmail(env, company, city, website, instructions, Responded(response), parse);
            x.result == Success(EmptyEmail) && InvitationOf(x.result.value, company).None?
  {
  }
}
