/**
 The permission decision function: src/agent/hooks.ts. Regular expressions, path resolution and the
 CLI block list are uninterpreted predicates of the text they look at.
 */
module Permissions {
  import opened Text
  import opened Wrappers

  // ---- Calls and their surroundings ----

  datatype Source = OwnerDm | OwnerChannel | MemberChannel | Autonomous

  /** The fields of a tool's input that the checks read; absent ones are None. */
  datatype Input = Input(command: string, filePath: Option<string>, path: Option<string>, url: string,
                         to: Option<string>, subject: Option<string>, channelId: Option<string>,
                         content: Option<string>, newString: Option<string>)

  datatype Patterns = Patterns(
    blockedCli: string -> bool,
    credentialFile: string -> bool,
    credentialExposure: string -> bool,
    emailCommand: string -> bool,
    destructive: string -> bool,
    privateUrl: string -> bool,
    within: (string, string) -> bool,
    agentConfigFile: string -> bool,
    configContent: string -> bool,
    credentialContent: string -> bool
  )

  datatype ApprovalMode = NoApproval | FirstInSequence | AllSends

  datatype SendPolicy = SendPolicy(maxDailyEmails: int, businessHoursOnly: bool, requiresApproval: ApprovalMode)

  datatype SendHistory = SendHistory(suppressed: bool, dailyCount: int)

  /**
   What a decision depends on besides the profile: mode flags, effective source, the approval callback
   (None when unset) with its answer to each question, send policy, its checker's answers by recipient,
   and the hour in the configured zone.
   */
  datatype Context = Context(
    heartbeat: bool,
    tier2Allowed: bool,
    source: Source,
    approve: Option<string -> bool>,
    sendPolicy: Option<SendPolicy>,
    agentSlug: string,
    agentDir: string,
    history: Option<string -> SendHistory>,
    hour: int,
    patterns: Patterns
  )

  datatype Call = Call(tool: string, input: Input, ctx: Context)

  /** Restrictions of the active agent profile. */
  datatype Profile = Profile(tier: Option<int>, tools: Option<seq<string>>)

  const UNRESTRICTED := Profile(None, None)

  datatype Denial =
    | Heartbeat | BrowserAutonomous | BrowserRefused | BrowserUnattended
    | ProfileTier | ProfileTools
    | BlockedCli | CredentialFile | CredentialExposure
    | EmailAutonomous | EmailRefused | Destructive
    | Suppressed | DailyCap | OutsideHours | NeedsApproval
    | SendAutonomous | SendRefused
    | PrivateUrl | OutsideAgentDir | AgentConfig | CredentialContent

  // ---- Tool lists ----

  const HEARTBEAT_DISALLOWED_TIER2 := ["Write", "Edit", "Bash"]

  const BROWSER_HARNESS_T3_TOOLS := [
    "mcp__browser-harness__browser_click_xy",
    "mcp__browser-harness__browser_type_text",
    "mcp__browser-harness__browser_press_key",
    "mcp__browser-harness__browser_scroll",
    "mcp__browser-harness__browser_run_python"
  ]

  const HEARTBEAT_DISALLOWED_ALWAYS := ["Bash", "Task", "Skill", "TodoWrite"] + BROWSER_HARNESS_T3_TOOLS

  function Disallowed(tier2Allowed: bool): seq<string> {
    HEARTBEAT_DISALLOWED_ALWAYS + if tier2Allowed then [] else HEARTBEAT_DISALLOWED_TIER2
  }

  method GetHeartbeatDisallowedTools(tier2Allowed: bool) returns (result: seq<string>)
    ensures result == Distinct(Disallowed(tier2Allowed))
    ensures forall x :: x in result <==> x in Disallowed(tier2Allowed)
    ensures forall i, j :: 0 <= i < j < |result| ==> result[i] != result[j]
  {
    var disallowed := HEARTBEAT_DISALLOWED_ALWAYS;
    if !tier2Allowed { disallowed := disallowed + HEARTBEAT_DISALLOWED_TIER2; }
    assert disallowed == Disallowed(tier2Allowed);
    result := DedupeInOrder(disallowed);
    DistinctKeepsElements(disallowed);
  }

  method DedupeInOrder(names: seq<string>) returns (result: seq<string>)
    ensures result == Distinct(names)
  {
    var seen: set<string> := {};
    result := [];
    for i := 0 to |names|
      invariant result == Distinct(names[..i])
      invariant forall x :: x in seen <==> x in result
    {
      assert names[..i + 1][..i] == names[..i];
      if names[i] !in seen {
        seen := seen + {names[i]};
        result := result + [names[i]];
      }
    }
    assert names[..|names|] == names;
  }

  // ---- One decision ----

  predicate BrowserTool(tool: string) { tool in BROWSER_HARNESS_T3_TOOLS }

  const BROWSER_QUESTION := "Allow Clementine to control your browser this session?"

  predicate Approves(c: Context, question: string) { c.approve.None? || c.approve.value(question) }

  /** evaluateSendPolicy */
  function SendDenial(policy: SendPolicy, history: Option<SendHistory>, hour: int): Option<Denial> {
    if history.Some? && history.value.suppressed then Some(Suppressed)
    else if history.Some? && history.value.dailyCount >= policy.maxDailyEmails then Some(DailyCap)
    else if policy.businessHoursOnly && (hour < 8 || hour >= 18) then Some(OutsideHours)
    else if policy.requiresApproval.AllSends? then Some(NeedsApproval)
    else None
  }

  predicate OutboundEmail(tool: string) { Contains(tool, "outlook_send") }

  predicate OutboundSend(tool: string) { OutboundEmail(tool) || Contains(tool, "discord_channel_send") }

  function BashQuestion(cmd: string): string { "Send email via Bash: " + Take(cmd, 120) }

  function SendQuestion(call: Call): string {
    if OutboundEmail(call.tool)
    then "Send email to " + call.input.to.GetOr("?") + ": \"" + call.input.subject.GetOr("?") + "\""
    else "Send Discord message to channel " + call.input.channelId.GetOr("?")
  }

  function WritePath(i: Input): string { i.filePath.GetOr(i.path.GetOr("")) }

  function WriteContent(i: Input): string { i.content.GetOr(i.newString.GetOr("")) }

  /** The heartbeat list and the browser gate, which come before the profile. */
  function EarlyDenial(call: Call, latch: bool): Option<Denial> {
    var c := call.ctx;
    if c.heartbeat && call.tool in Disallowed(c.tier2Allowed) then Some(Heartbeat)
    else if !BrowserTool(call.tool) then None
    else if c.heartbeat || c.source.Autonomous? then Some(BrowserAutonomous)
    else if latch then None
    else if c.approve.None? then Some(BrowserUnattended)
    else if !c.approve.value(BROWSER_QUESTION) then Some(BrowserRefused)
    else None
  }

  function ProfileDenial(p: Profile, tool: string): Option<Denial> {
    if p.tier.Some? && p.tier.value < 2 && tool in ["Bash", "Write", "Edit"] then Some(ProfileTier)
    else if p.tools.Some? && |p.tools.value| > 0 && tool !in p.tools.value then Some(ProfileTools)
    else None
  }

  function BashDenial(call: Call): Option<Denial> {
    var c, cmd := call.ctx, call.input.command;
    if c.patterns.credentialExposure(cmd) then Some(CredentialExposure)
    else if c.patterns.emailCommand(cmd) && c.heartbeat then Some(EmailAutonomous)
    else if c.patterns.emailCommand(cmd) && !Approves(c, BashQuestion(cmd)) then Some(EmailRefused)
    else if c.patterns.destructive(cmd) && !c.source.OwnerDm? then Some(Destructive)
    else None
  }

  /** An agent with a send policy may send email on its own; the decision is then the policy's alone. */
  predicate PolicySend(call: Call) {
    var c := call.ctx;
    OutboundEmail(call.tool) && c.sendPolicy.Some? && c.agentSlug != "" && (c.heartbeat || c.source.Autonomous?)
  }

  function HistoryFor(call: Call): Option<SendHistory> {
    if call.ctx.history.None? then None else Some(call.ctx.history.value(call.input.to.GetOr("")))
  }

  function SendGate(call: Call): Option<Denial> {
    var c := call.ctx;
    if !OutboundSend(call.tool) then None
    else if PolicySend(call) then SendDenial(c.sendPolicy.value, HistoryFor(call), c.hour)
    else if c.heartbeat || c.source.Autonomous? then Some(SendAutonomous)
    else if !Approves(c, SendQuestion(call)) then Some(SendRefused)
    else None
  }

  function WriteDenial(call: Call): Option<Denial> {
    var c, file, text := call.ctx, WritePath(call.input), WriteContent(call.input);
    if c.agentDir != "" && file != "" && !c.patterns.within(file, c.agentDir) then Some(OutsideAgentDir)
    else if c.patterns.agentConfigFile(file) && c.patterns.configContent(text) then Some(AgentConfig)
    else if c.patterns.credentialContent(text) then Some(CredentialContent)
    else None
  }

  /** The checks after the profile, in order. */
  function LateDenial(call: Call): Option<Denial> {
    var c := call.ctx;
    if call.tool == "Bash" && c.patterns.blockedCli(call.input.command) then Some(BlockedCli)
    else if !c.source.OwnerDm? && call.tool == "Read"
      && c.patterns.credentialFile(call.input.filePath.GetOr("")) then Some(CredentialFile)
    else if call.tool == "Bash" && BashDenial(call).Some? then BashDenial(call)
    else if SendGate(call).Some? then SendGate(call)
    else if PolicySend(call) then None
    else if call.tool == "WebFetch" && c.patterns.privateUrl(call.input.url) then Some(PrivateUrl)
    else if call.tool in ["Write", "Edit"] then WriteDenial(call)
    else None
  }

  function Decide(p: Profile, call: Call, latch: bool): Option<Denial> {
    if EarlyDenial(call, latch).Some? then EarlyDenial(call, latch)
    else if ProfileDenial(p, call.tool).Some? then ProfileDenial(p, call.tool)
    else LateDenial(call)
  }

  /** The approval latch: set by a browser call that passed its gate, whatever is decided afterwards. */
  function NextLatch(call: Call, latch: bool): bool {
    latch || (BrowserTool(call.tool) && EarlyDenial(call, latch).None?)
  }

  // ---- The same decision without an order ----

  predicate HeartbeatAllows(call: Call) { call.ctx.heartbeat ==> call.tool !in Disallowed(call.ctx.tier2Allowed) }

  predicate Unattended(c: Context) { c.heartbeat || c.source.Autonomous? }

  predicate BrowserAllows(call: Call, latch: bool) {
    BrowserTool(call.tool) ==>
      !Unattended(call.ctx) && (latch || (call.ctx.approve.Some? && call.ctx.approve.value(BROWSER_QUESTION)))
  }

  predicate ProfileAllows(p: Profile, tool: string) {
    && (p.tier.Some? && p.tier.value < 2 ==> tool !in ["Bash", "Write", "Edit"])
    && (p.tools.Some? && |p.tools.value| > 0 ==> tool in p.tools.value)
  }

  /** What no source, profile, approval or policy lets through. */
  predicate Harmless(call: Call) {
    var c, i := call.ctx, call.input;
    && (call.tool == "Bash" ==> !c.patterns.blockedCli(i.command) && !c.patterns.credentialExposure(i.command))
    && (call.tool == "WebFetch" ==> !c.patterns.privateUrl(i.url))
    && (call.tool in ["Write", "Edit"] ==>
          && (c.agentDir != "" && WritePath(i) != "" ==> c.patterns.within(WritePath(i), c.agentDir))
          && !(c.patterns.agentConfigFile(WritePath(i)) && c.patterns.configContent(WriteContent(i)))
          && !c.patterns.credentialContent(WriteContent(i)))
  }

  /** What only the owner's direct messages may do. */
  predicate ForTheOwner(call: Call) {
    || (call.tool == "Read" && call.ctx.patterns.credentialFile(call.input.filePath.GetOr("")))
    || (call.tool == "Bash" && call.ctx.patterns.destructive(call.input.command))
  }

  /** Mail from a shell command. */
  predicate ShellMail(call: Call) { call.tool == "Bash" && call.ctx.patterns.emailCommand(call.input.command) }

  predicate ShellMailAllows(call: Call) {
    ShellMail(call) ==> !call.ctx.heartbeat && Approves(call.ctx, BashQuestion(call.input.command))
  }

  predicate SendAllows(call: Call) {
    OutboundSend(call.tool) ==>
      if PolicySend(call) then SendDenial(call.ctx.sendPolicy.value, HistoryFor(call), call.ctx.hour).None?
      else !Unattended(call.ctx) && Approves(call.ctx, SendQuestion(call))
  }

  predicate Permitted(p: Profile, call: Call, latch: bool) {
    && HeartbeatAllows(call) && BrowserAllows(call, latch) && ProfileAllows(p, call.tool)
    && Harmless(call) && (ForTheOwner(call) ==> call.ctx.source.OwnerDm?)
    && ShellMailAllows(call) && SendAllows(call)
  }

  lemma {:induction false} ContainedIsShorter(s: string, sub: string)
    requires Contains(s, sub)
    ensures |sub| <= |s|
  {
    if !(sub <= s) { ContainedIsShorter(s[1..], sub); }
  }

  /** The tools that are checked one by one are no sending tools, so a policy's early answer skips no check. */
  lemma CheckedToolsDoNotSend(tool: string)
    requires tool in ["Bash", "Read", "WebFetch", "Write", "Edit"]
    ensures !OutboundSend(tool)
  {
    assert |tool| < |"outlook_send"| && |tool| < |"discord_channel_send"|;
    if Contains(tool, "outlook_send") { ContainedIsShorter(tool, "outlook_send"); }
    if Contains(tool, "discord_channel_send") { ContainedIsShorter(tool, "discord_channel_send"); }
  }

  lemma LateChecksExactly(call: Call)
    ensures LateDenial(call).None? <==>
      && Harmless(call) && (ForTheOwner(call) ==> call.ctx.source.OwnerDm?)
      && ShellMailAllows(call) && SendAllows(call)
  {
    if call.tool in ["Bash", "Read", "WebFetch", "Write", "Edit"] { CheckedToolsDoNotSend(call.tool); }
  }

  /** The chain of early returns is a conjunction: every concern has its say, in whatever order they are asked. */
  lemma DecisionIsPermission(p: Profile, call: Call, latch: bool)
    ensures Decide(p, call, latch).None? <==> Permitted(p, call, latch)
  {
    LateChecksExactly(call);
  }

  // ---- Sources ----

  function From(call: Call, source: Source): Call { call.(ctx := call.ctx.(source := source)) }

  /**
   What the owner's direct messages add to a channel: reading credential files and destructive commands.
   Every other call is decided alike, whichever channel it comes from.
   */
  lemma ChannelsLoseExactly(p: Profile, call: Call, latch: bool, source: Source)
    requires source.OwnerChannel? || source.MemberChannel?
    ensures Decide(p, From(call, source), latch).None? <==>
            Decide(p, From(call, OwnerDm), latch).None? && !ForTheOwner(call)
  {
    DecisionIsPermission(p, From(call, source), latch);
    DecisionIsPermission(p, From(call, OwnerDm), latch);
    GatesIgnoreChannels(call, latch, source);
  }

  lemma GatesIgnoreChannels(call: Call, latch: bool, source: Source)
    requires !source.Autonomous?
    ensures var a, b := From(call, source), From(call, OwnerDm);
            && BrowserAllows(a, latch) == BrowserAllows(b, latch) && HeartbeatAllows(a) == HeartbeatAllows(b)
            && Harmless(a) == Harmless(b) && ForTheOwner(a) == ForTheOwner(b) == ForTheOwner(call)
            && SendAllows(a) == SendAllows(b) && ShellMailAllows(a) == ShellMailAllows(b)
  {
    var a, b := From(call, source), From(call, OwnerDm);
    assert a.tool == b.tool && a.input == b.input && Unattended(a.ctx) == Unattended(b.ctx);
    HarmIgnoresSources(call, source);
    HarmIgnoresSources(call, OwnerDm);
    SendsIgnoreChannels(call, source);
  }

  lemma HarmIgnoresSources(call: Call, source: Source)
    ensures Harmless(From(call, source)) == Harmless(call) && ForTheOwner(From(call, source)) == ForTheOwner(call)
  {
  }

  lemma SendsIgnoreChannels(call: Call, source: Source)
    requires !source.Autonomous?
    ensures var a, b := From(call, source), From(call, OwnerDm);
            SendAllows(a) == SendAllows(b) && ShellMailAllows(a) == ShellMailAllows(b)
  {
  }

  /**
   Running autonomously loses the same, the browser, and the sending tools but for a policy's sends. Those are
   the one thing it gains: there the approval that an owner's message would need is not asked for. Mail from
   a shell command is not lost.
   */
  lemma AutonomyExactly(p: Profile, call: Call, latch: bool)
    ensures Decide(p, From(call, Autonomous), latch).None? <==>
            if OutboundEmail(call.tool) && call.ctx.sendPolicy.Some? && call.ctx.agentSlug != ""
            then HeartbeatAllows(call) && !BrowserTool(call.tool) && ProfileAllows(p, call.tool)
                 && SendDenial(call.ctx.sendPolicy.value, HistoryFor(call), call.ctx.hour).None?
            else Decide(p, From(call, OwnerDm), latch).None?
                 && !ForTheOwner(call) && !BrowserTool(call.tool) && !OutboundSend(call.tool)
  {
    DecisionIsPermission(p, From(call, Autonomous), latch);
    DecisionIsPermission(p, From(call, OwnerDm), latch);
    if call.tool in ["Bash", "Read", "WebFetch", "Write", "Edit"] { CheckedToolsDoNotSend(call.tool); }
  }

  /**
   So a call allowed from anywhere is allowed from the owner's direct messages with the same answers, but
   for exactly one kind: a policy's send whose question the owner would not approve.
   */
  lemma OwnerIsMostTrusted(p: Profile, call: Call, latch: bool, source: Source)
    requires Decide(p, From(call, source), latch).None?
    ensures Decide(p, From(call, OwnerDm), latch).None? <==>
            !(PolicySend(From(call, source)) && !call.ctx.heartbeat && !Approves(call.ctx, SendQuestion(call)))
  {
    DecisionIsPermission(p, From(call, source), latch);
    DecisionIsPermission(p, From(call, OwnerDm), latch);
    if call.tool in ["Bash", "Read", "WebFetch", "Write", "Edit"] { CheckedToolsDoNotSend(call.tool); }
  }

  /** Exposed credentials, private addresses and foreign directories are out of reach for everyone. */
  lemma AllowedIsHarmless(p: Profile, call: Call, latch: bool)
    requires Decide(p, call, latch).None?
    ensures Harmless(call)
  {
    DecisionIsPermission(p, call, latch);
  }

  // ---- Sends ----

  /** Whatever the gates take for a send: a sending tool, or mail from a shell command. */
  predicate Sends(call: Call) { OutboundSend(call.tool) || ShellMail(call) }

  function Question(call: Call): string {
    if ShellMail(call) then BashQuestion(call.input.command) else SendQuestion(call)
  }

  /** Somebody was asked about this call and agreed. */
  predicate ApprovedBySomebody(call: Call) { call.ctx.approve.Some? && call.ctx.approve.value(Question(call)) }

  /** Mail from a shell command is stopped by a heartbeat or a refusal, and by no policy and no source. */
  lemma ShellMailExactly(p: Profile, call: Call, latch: bool)
    requires ShellMail(call)
    ensures Decide(p, call, latch).None? <==>
            && !call.ctx.heartbeat && Approves(call.ctx, BashQuestion(call.input.command))
            && ProfileAllows(p, "Bash") && Harmless(call) && (ForTheOwner(call) ==> call.ctx.source.OwnerDm?)
  {
    DecisionIsPermission(p, call, latch);
    CheckedToolsDoNotSend("Bash");
  }

  /**
   The two gates for mail, for a shell command and an outlook_send that get the same answer. They agree exactly
   when the call is attended, or when the policy says of the one what the approval says of the other.
   */
  lemma MailGatesAgreeExactly(shell: Call, mail: Call)
    requires ShellMail(shell) && OutboundEmail(mail.tool) && shell.ctx == mail.ctx
    requires Approves(shell.ctx, Question(shell)) == Approves(mail.ctx, SendQuestion(mail))
    ensures var c := shell.ctx;
            ShellMailAllows(shell) == SendAllows(mail) <==>
              Unattended(c) ==>
                ((!c.heartbeat && Approves(c, Question(shell)))
                 == (PolicySend(mail) && SendDenial(c.sendPolicy.value, HistoryFor(mail), c.hour).None?))
  {
  }

  /** An autonomous or heartbeat call never drives the browser, and its sends are exactly these. */
  lemma AutonomousIsContained(p: Profile, call: Call, latch: bool)
    requires Unattended(call.ctx)
    ensures Decide(p, call, latch).None? ==> !BrowserTool(call.tool)
    ensures ShellMail(call) ==>
              (Decide(p, call, latch).None? <==>
               && !call.ctx.heartbeat && Approves(call.ctx, BashQuestion(call.input.command))
               && ProfileAllows(p, "Bash") && Harmless(call) && !ForTheOwner(call))
    ensures OutboundSend(call.tool) ==>
              (Decide(p, call, latch).None? <==>
               && PolicySend(call) && SendDenial(call.ctx.sendPolicy.value, HistoryFor(call), call.ctx.hour).None?
               && HeartbeatAllows(call) && !BrowserTool(call.tool) && ProfileAllows(p, call.tool))
  {
    DecisionIsPermission(p, call, latch);
    if call.tool in ["Bash", "Read", "WebFetch", "Write", "Edit"] { CheckedToolsDoNotSend(call.tool); }
  }

  function With(call: Call, approve: Option<string -> bool>): Call { call.(ctx := call.ctx.(approve := approve)) }

  function Agrees(question: string): bool { true }

  /** No approval callback is as good as one that always agrees, except for a browser that was never approved. */
  lemma NobodyToAsk(p: Profile, call: Call, latch: bool)
    ensures Decide(p, With(call, None), latch).None? <==>
            Decide(p, With(call, Some(Agrees)), latch).None? && (BrowserTool(call.tool) ==> latch)
  {
    DecisionIsPermission(p, With(call, None), latch);
    DecisionIsPermission(p, With(call, Some(Agrees)), latch);
    SameGates(call);
  }

  lemma SameGates(call: Call)
    ensures var a, b := With(call, None), With(call, Some(Agrees));
            && Harmless(a) == Harmless(b) && ForTheOwner(a) == ForTheOwner(b)
            && SendAllows(a) == SendAllows(b) && ShellMailAllows(a) == ShellMailAllows(b)
  {
  }

  /** An allowed send outside a policy was agreed to by somebody exactly when there was somebody to ask. */
  lemma SendsAreApprovedExactly(p: Profile, call: Call, latch: bool)
    requires Sends(call) && !PolicySend(call) && Decide(p, call, latch).None?
    ensures ApprovedBySomebody(call) <==> call.ctx.approve.Some?
  {
    DecisionIsPermission(p, call, latch);
    if call.tool == "Bash" { CheckedToolsDoNotSend("Bash"); }
  }

  const NO_INPUT := Input("", None, None, "", None, None, None, None, None)

  /** Nothing is suspicious but mail from the shell. */
  const MAIL_ONLY := Patterns(_ => false, _ => false, _ => false, cmd => cmd == "sendmail", _ => false, _ => false,
                              (_, _) => true, _ => false, _ => false, _ => false)

  function Plainly(source: Source, approve: Option<string -> bool>): Context {
    Context(false, false, source, approve, None, "", "", None, 12, MAIL_ONLY)
  }

  function Sendmail(approve: Option<string -> bool>): Call {
    Call("Bash", NO_INPUT.(command := "sendmail"), Plainly(Autonomous, approve))
  }

  /** An autonomous run without a policy mails from the shell, whether somebody agrees or nobody is there to ask. */
  lemma AutonomousShellMailIsAllowed(approve: Option<string -> bool>, latch: bool)
    requires approve.None? || approve.value(BashQuestion("sendmail"))
    ensures var call := Sendmail(approve);
            && Unattended(call.ctx) && ShellMail(call) && !PolicySend(call)
            && Decide(UNRESTRICTED, call, latch).None?
            && Decide(UNRESTRICTED, call.(tool := "outlook_send"), latch).Some?
  {
    var call := Sendmail(approve);
    ShellMailExactly(UNRESTRICTED, call, latch);
    assert OutboundEmail("outlook_send");
  }

  /** Sends that nobody agreed to: a message by the sending tool in an attended run, and mail from a shell in any. */
  lemma NobodyWasAsked(source: Source, latch: bool)
    ensures var mail := Call("outlook_send", NO_INPUT, Plainly(source, None));
            !source.Autonomous? ==> Decide(UNRESTRICTED, mail, latch).None? && !ApprovedBySomebody(mail)
    ensures var shell := Call("Bash", NO_INPUT.(command := "sendmail"), Plainly(source, None));
            Decide(UNRESTRICTED, shell, latch).None? && !ApprovedBySomebody(shell)
  {
    if !source.Autonomous? { NobodyWasAskedToMail(source, latch); }
    ShellMailExactly(UNRESTRICTED, Call("Bash", NO_INPUT.(command := "sendmail"), Plainly(source, None)), latch);
  }

  lemma NobodyWasAskedToMail(source: Source, latch: bool)
    requires !source.Autonomous?
    ensures Decide(UNRESTRICTED, Call("outlook_send", NO_INPUT, Plainly(source, None)), latch).None?
  {
  }

  // ---- Runs ----

  datatype State = State(latch: bool, audit: seq<string>)

  /** A tool call, or resetBrowserHarnessApproval. */
  datatype Event = Use(call: Call) | Revoke

  predicate Passes(p: Profile, e: Event, latch: bool) { e.Use? && Decide(p, e.call, latch).None? }

  function LatchAfter(e: Event, latch: bool): bool { e.Use? && NextLatch(e.call, latch) }

  function Step(s: State, p: Profile, e: Event): State {
    State(LatchAfter(e, s.latch), if Passes(p, e, s.latch) then s.audit + [e.call.tool] else s.audit)
  }

  function Run(s: State, ps: seq<Profile>, es: seq<Event>): State
    requires |ps| == |es|
    decreases |es|
  {
    if es == [] then s else Run(Step(s, ps[0], es[0]), ps[1..], es[1..])
  }

  /** Whether event i of the run is an allowed call. */
  predicate AllowedAt(latch: bool, ps: seq<Profile>, es: seq<Event>, i: nat)
    requires |ps| == |es| && i < |es|
    decreases i
  {
    if i == 0 then Passes(ps[0], es[0], latch) else AllowedAt(LatchAfter(es[0], latch), ps[1..], es[1..], i - 1)
  }

  /** Which events of the run are allowed calls. */
  function Allowed(latch: bool, ps: seq<Profile>, es: seq<Event>): seq<bool>
    requires |ps| == |es|
  {
    seq(|es|, i requires 0 <= i < |es| => AllowedAt(latch, ps, es, i))
  }

  /** `p` restricts everything `q` restricts. */
  predicate AtLeastAsStrict(p: Profile, q: Profile) {
    && (q.tier.Some? && q.tier.value < 2 ==> p.tier.Some? && p.tier.value < 2)
    && (q.tools.Some? && |q.tools.value| > 0 ==>
          && p.tools.Some? && |p.tools.value| > 0
          && forall t :: t in p.tools.value ==> t in q.tools.value)
  }

  lemma StricterPasses(p: Profile, q: Profile, e: Event, latch: bool)
    requires AtLeastAsStrict(p, q) && Passes(p, e, latch)
    ensures Passes(q, e, latch)
  {
    assert ProfileDenial(p, e.call.tool).None? ==> ProfileDenial(q, e.call.tool).None?;
  }

  /** Profiles have no say in the latch. */
  lemma {:induction false} LatchesAgree(s: State, t: State, ps: seq<Profile>, qs: seq<Profile>, es: seq<Event>)
    requires |ps| == |qs| == |es| && s.latch == t.latch
    ensures Run(s, ps, es).latch == Run(t, qs, es).latch
    decreases |es|
  {
    if es != [] { LatchesAgree(Step(s, ps[0], es[0]), Step(t, qs[0], es[0]), ps[1..], qs[1..], es[1..]); }
  }

  lemma {:induction false} StricterAllowsLess(latch: bool, ps: seq<Profile>, qs: seq<Profile>, es: seq<Event>, i: nat)
    requires |ps| == |qs| == |es| && i < |es| && AllowedAt(latch, ps, es, i)
    requires forall k :: 0 <= k < |ps| ==> AtLeastAsStrict(ps[k], qs[k])
    ensures AllowedAt(latch, qs, es, i)
    decreases i
  {
    if i == 0 {
      StricterPasses(ps[0], qs[0], es[0], latch);
    } else {
      StricterAllowsLess(LatchAfter(es[0], latch), ps[1..], qs[1..], es[1..], i - 1);
    }
  }

  /**
   A profile only restricts. In two runs over the same calls, revocations and approvals, one under stricter
   profiles, every call allowed in the strict run is allowed in the other, and the latches agree throughout.
   */
  lemma ProfilesOnlyRestrict(s: State, t: State, ps: seq<Profile>, qs: seq<Profile>, es: seq<Event>, i: nat)
    requires |ps| == |qs| == |es| && s.latch == t.latch && i < |es|
    requires forall k :: 0 <= k < |ps| ==> AtLeastAsStrict(ps[k], qs[k])
    ensures Run(s, ps, es).latch == Run(t, qs, es).latch
    ensures AllowedAt(s.latch, ps, es, i) ==> AllowedAt(t.latch, qs, es, i)
  {
    LatchesAgree(s, t, ps, qs, es);
    if AllowedAt(s.latch, ps, es, i) { StricterAllowsLess(s.latch, ps, qs, es, i); }
  }

  /** In particular no profile ever allows what is denied without one. */
  lemma ProfilesNeverElevate(s: State, ps: seq<Profile>, es: seq<Event>, i: nat)
    requires |ps| == |es| && i < |es|
    ensures var free := seq(|es|, k => UNRESTRICTED);
            && Run(s, ps, es).latch == Run(s, free, es).latch
            && (AllowedAt(s.latch, ps, es, i) ==> AllowedAt(s.latch, free, es, i))
  {
    ProfilesOnlyRestrict(s, s, ps, seq(|es|, k => UNRESTRICTED), es, i);
  }

  function AllowedTools(es: seq<Event>, allowed: seq<bool>): seq<string>
    requires |es| == |allowed|
  {
    if es == [] then []
    else (if allowed[0] && es[0].Use? then [es[0].call.tool] else []) + AllowedTools(es[1..], allowed[1..])
  }

  /** What a run adds to the audit log. */
  function Added(latch: bool, ps: seq<Profile>, es: seq<Event>): seq<string>
    requires |ps| == |es|
    decreases |es|
  {
    if es == [] then []
    else (if Passes(ps[0], es[0], latch) then [es[0].call.tool] else [])
         + Added(LatchAfter(es[0], latch), ps[1..], es[1..])
  }

  lemma {:induction false} AuditGrows(s: State, ps: seq<Profile>, es: seq<Event>)
    requires |ps| == |es|
    ensures Run(s, ps, es).audit == s.audit + Added(s.latch, ps, es)
    decreases |es|
  {
    if es != [] {
      var s' := Step(s, ps[0], es[0]);
      var entry := if Passes(ps[0], es[0], s.latch) then [es[0].call.tool] else [];
      AuditGrows(s', ps[1..], es[1..]);
      Appended(s.audit, entry, Added(s'.latch, ps[1..], es[1..]));
      assert s'.audit == s.audit + entry;
    }
  }

  lemma Appended(log: seq<string>, entry: seq<string>, rest: seq<string>)
    ensures log + entry + rest == log + (entry + rest) && log + [] == log
  {
  }

  lemma {:induction false} AddedIsAllowed(latch: bool, ps: seq<Profile>, es: seq<Event>)
    requires |ps| == |es|
    ensures Added(latch, ps, es) == AllowedTools(es, Allowed(latch, ps, es))
    decreases |es|
  {
    if es != [] {
      var after := LatchAfter(es[0], latch);
      AddedIsAllowed(after, ps[1..], es[1..]);
      AllowedTail(latch, ps, es);
      var entry := if Passes(ps[0], es[0], latch) then [es[0].call.tool] else [];
      assert Added(latch, ps, es) == entry + Added(after, ps[1..], es[1..]);
      assert AllowedTools(es, Allowed(latch, ps, es)) == entry + AllowedTools(es[1..], Allowed(latch, ps, es)[1..]);
    }
  }

  lemma AllowedTail(latch: bool, ps: seq<Profile>, es: seq<Event>)
    requires |ps| == |es| > 0
    ensures Allowed(latch, ps, es)[0] == Passes(ps[0], es[0], latch)
    ensures Allowed(latch, ps, es)[1..] == Allowed(LatchAfter(es[0], latch), ps[1..], es[1..])
  {
  }

  /** The audit log grows by one entry for each allowed call, naming its tool, and by none for a denied one. */
  lemma AuditRecordsExactlyTheAllowed(s: State, ps: seq<Profile>, es: seq<Event>)
    requires |ps| == |es|
    ensures Run(s, ps, es).audit == s.audit + AllowedTools(es, Allowed(s.latch, ps, es))
  {
    AuditGrows(s, ps, es);
    AddedIsAllowed(s.latch, ps, es);
  }

  /** A browser-control call that is neither autonomous nor in a heartbeat. */
  predicate Browses(e: Event) { e.Use? && BrowserTool(e.call.tool) && !Unattended(e.call.ctx) }

  predicate AsksAndApproves(e: Event) {
    Browses(e) && e.call.ctx.approve.Some? && e.call.ctx.approve.value(BROWSER_QUESTION)
  }

  /** An interactive browser call that the user approved, at k, with no revocation from there to i. */
  predicate StillApproved(es: seq<Event>, k: nat, i: nat) {
    k <= i < |es| && AsksAndApproves(es[k]) && forall j :: k < j <= i ==> !es[j].Revoke?
  }

  /** A browser-control call is only ever allowed at or after an approved one that has not been revoked. */
  lemma {:induction false} BrowserNeedsApproval(latch: bool, ps: seq<Profile>, es: seq<Event>, i: nat)
    returns (k: nat)
    requires |ps| == |es| && i < |es| && !latch
    requires es[i].Use? && BrowserTool(es[i].call.tool) && AllowedAt(latch, ps, es, i)
    ensures StillApproved(es, k, i)
    decreases |es|, 1
  {
    if r: nat :| r <= i && es[r].Revoke? {
      k := AfterRevocation(latch, ps, es, i, r);
    } else if AsksAndApproves(es[0]) {
      k := 0;
    } else {
      k := BrowserNeedsApproval(LatchAfter(es[0], latch), ps[1..], es[1..], i - 1);
      StillApprovedShift(es, k, i - 1);
      k := k + 1;
    }
  }

  lemma StillApprovedShift(es: seq<Event>, k: nat, i: nat)
    requires es != [] && StillApproved(es[1..], k, i)
    ensures StillApproved(es, k + 1, i + 1)
  {
    forall j | k + 1 < j <= i + 1
      ensures !es[j].Revoke?
    {
      assert !es[1..][j - 1].Revoke?;
    }
  }

  /** The same whatever the latch was, when it is revoked at r. */
  lemma {:induction false} AfterRevocation(latch: bool, ps: seq<Profile>, es: seq<Event>, i: nat, r: nat)
    returns (k: nat)
    requires |ps| == |es| && r <= i < |es| && es[r].Revoke?
    requires es[i].Use? && BrowserTool(es[i].call.tool) && AllowedAt(latch, ps, es, i)
    ensures StillApproved(es, k, i)
    decreases |es|, 0
  {
    if r == 0 {
      k := BrowserNeedsApproval(false, ps[1..], es[1..], i - 1);
    } else {
      k := AfterRevocation(LatchAfter(es[0], latch), ps[1..], es[1..], i - 1, r - 1);
    }
    StillApprovedShift(es, k, i - 1);
    k := k + 1;
  }

  lemma {:induction false} LatchLasts(ps: seq<Profile>, es: seq<Event>, i: nat)
    requires |ps| == |es| && i < |es| && Browses(es[i]) && ProfileAllows(ps[i], es[i].call.tool)
    requires forall j :: 0 <= j <= i ==> !es[j].Revoke?
    ensures AllowedAt(true, ps, es, i)
    decreases i
  {
    if i == 0 { BrowserPermission(ps[0], es[0].call, true); } else { LatchLasts(ps[1..], es[1..], i - 1); }
  }

  lemma {:induction false} ApprovalLasts(latch: bool, ps: seq<Profile>, es: seq<Event>, i: nat, k: nat)
    requires |ps| == |es| && i < |es| && Browses(es[i]) && ProfileAllows(ps[i], es[i].call.tool)
    requires StillApproved(es, k, i)
    ensures AllowedAt(latch, ps, es, i)
    decreases i
  {
    if k > 0 {
      StillApprovedBack(es, k, i);
      ApprovalLasts(LatchAfter(es[0], latch), ps[1..], es[1..], i - 1, k - 1);
    } else if i == 0 {
      BrowserPermission(ps[0], es[0].call, latch);
    } else {
      assert LatchAfter(es[0], latch);
      forall j | 0 <= j <= i - 1
        ensures !es[1..][j].Revoke?
      {
        assert es[1..][j] == es[j + 1];
      }
      LatchLasts(ps[1..], es[1..], i - 1);
    }
  }

  lemma StillApprovedBack(es: seq<Event>, k: nat, i: nat)
    requires 0 < k && StillApproved(es, k, i)
    ensures StillApproved(es[1..], k - 1, i - 1)
  {
    forall j | k - 1 < j <= i - 1
      ensures !es[1..][j].Revoke?
    {
      assert es[1..][j] == es[j + 1];
    }
  }

  lemma BrowserPermission(p: Profile, call: Call, latch: bool)
    requires BrowserTool(call.tool)
    ensures Decide(p, call, latch).None? <==> BrowserAllows(call, latch) && ProfileAllows(p, call.tool)
  {
    DecisionIsPermission(p, call, latch);
    BrowserToolsAreUnchecked(call);
  }

  lemma BrowserToolsAreUnchecked(call: Call)
    requires BrowserTool(call.tool)
    ensures Harmless(call) && !ForTheOwner(call) && ShellMailAllows(call) && SendAllows(call)
  {
    BrowserToolsDoNotSend(call.tool);
    assert |call.tool| > |"WebFetch"|;
  }

  lemma {:induction false} ContainedHasItsChars(s: string, sub: string, c: char)
    requires Contains(s, sub) && c in sub
    ensures c in s
  {
    if !(sub <= s) { ContainedHasItsChars(s[1..], sub, c); }
  }

  lemma BrowserToolsDoNotSend(tool: string)
    requires BrowserTool(tool)
    ensures !OutboundSend(tool)
  {
    assert 'd' !in tool;
    if Contains(tool, "outlook_send") { ContainedHasItsChars(tool, "outlook_send", 'd'); }
    if Contains(tool, "discord_channel_send") { ContainedHasItsChars(tool, "discord_channel_send", 'd'); }
  }

  /**
   The exact rule, from a fresh start: a browser-control call is allowed when it is interactive, within its
   profile, and at or after an approved one that has not been revoked. Which channel it comes from plays no part.
   */
  lemma BrowserAllowedExactly(ps: seq<Profile>, es: seq<Event>, i: nat)
    requires |ps| == |es| && i < |es| && es[i].Use? && BrowserTool(es[i].call.tool)
    ensures AllowedAt(false, ps, es, i) <==>
            && Browses(es[i]) && ProfileAllows(ps[i], es[i].call.tool)
            && exists k: nat :: StillApproved(es, k, i)
  {
    if AllowedAt(false, ps, es, i) {
      AllowedIsPermitted(false, ps, es, i);
      var k := BrowserNeedsApproval(false, ps, es, i);
    } else if k: nat :| Browses(es[i]) && ProfileAllows(ps[i], es[i].call.tool) && StillApproved(es, k, i) {
      ApprovalLasts(false, ps, es, i, k);
    }
  }

  lemma {:induction false} AllowedIsPermitted(latch: bool, ps: seq<Profile>, es: seq<Event>, i: nat)
    requires |ps| == |es| && i < |es| && es[i].Use? && BrowserTool(es[i].call.tool) && AllowedAt(latch, ps, es, i)
    ensures Browses(es[i]) && ProfileAllows(ps[i], es[i].call.tool)
    decreases i
  {
    if i == 0 {
      BrowserPermission(ps[0], es[0].call, latch);
    } else {
      AllowedIsPermitted(LatchAfter(es[0], latch), ps[1..], es[1..], i - 1);
    }
  }

  /** So once the owner has approved the browser, a member of a channel drives it without being asked. */
  lemma MembersBrowseAfterTheOwner(owner: Call, member: Call)
    requires AsksAndApproves(Use(owner)) && owner.ctx.source.OwnerDm?
    requires BrowserTool(member.tool) && member.ctx.source.MemberChannel? && !member.ctx.heartbeat
    ensures AllowedAt(false, [UNRESTRICTED, UNRESTRICTED], [Use(owner), Use(member)], 1)
  {
    var es := [Use(owner), Use(member)];
    assert StillApproved(es, 0, 1);
    ApprovalLasts(false, [UNRESTRICTED, UNRESTRICTED], es, 1, 0);
  }

  // ---- The module's state and its decision procedure ----

  class Hooks {
    var activeProfile: Profile
    var browserHarnessSessionApproved: bool
    var auditLog: seq<string>

    function Now(): State
      reads this
    {
      State(browserHarnessSessionApproved, auditLog)
    }

    constructor ()
      ensures Now() == State(false, []) && activeProfile == UNRESTRICTED
    {
      activeProfile := UNRESTRICTED;
      browserHarnessSessionApproved := false;
      auditLog := [];
    }

    method SetProfile(tier: Option<int>, tools: Option<seq<string>>)
      modifies `activeProfile
      ensures activeProfile == Profile(tier, tools)
    {
      activeProfile := Profile(tier, tools);
    }

    method ResetBrowserHarnessApproval()
      modifies `browserHarnessSessionApproved
      ensures Now() == Step(old(Now()), activeProfile, Revoke)
    {
      browserHarnessSessionApproved := false;
    }

    method LogToolUse(tool: string)
      modifies `auditLog
      ensures auditLog == old(auditLog) + [tool]
    {
      auditLog := auditLog + [tool];
    }

    /** The gate in front of the browser-control tools. */
    method BrowserGate(call: Call) returns (denial: Option<Denial>)
      requires !(call.ctx.heartbeat && call.tool in Disallowed(call.ctx.tier2Allowed))
      modifies `browserHarnessSessionApproved
      ensures denial == EarlyDenial(call, old(browserHarnessSessionApproved))
      ensures browserHarnessSessionApproved == NextLatch(call, old(browserHarnessSessionApproved))
    {
      var c := call.ctx;
      if call.tool !in BROWSER_HARNESS_T3_TOOLS { return None; }
      if c.heartbeat || c.source.Autonomous? { return Some(BrowserAutonomous); }
      if !browserHarnessSessionApproved {
        if c.approve.Some? {
          var approved := c.approve.value(BROWSER_QUESTION);
          if !approved { return Some(BrowserRefused); }
          browserHarnessSessionApproved := true;
        } else {
          return Some(BrowserUnattended);
        }
      }
      return None;
    }

    method EnforceToolPermissions(call: Call) returns (denial: Option<Denial>)
      modifies `browserHarnessSessionApproved, `auditLog
      ensures denial == Decide(activeProfile, call, old(browserHarnessSessionApproved))
      ensures Now() == Step(old(Now()), activeProfile, Use(call))
    {
      var c, tool, input := call.ctx, call.tool, call.input;
      if c.heartbeat {
        var disallowed := GetHeartbeatDisallowedTools(c.tier2Allowed);
        if tool in disallowed { return Some(Heartbeat); }
      }
      denial := BrowserGate(call);
      if denial.Some? { return; }
      if activeProfile.tier.Some? {
        if activeProfile.tier.value < 2 && tool in ["Bash", "Write", "Edit"] { return Some(ProfileTier); }
      }
      if activeProfile.tools.Some? && |activeProfile.tools.value| > 0 {
        if tool !in activeProfile.tools.value { return Some(ProfileTools); }
      }
      denial := LateChecks(call);
      if denial.Some? { return; }
      LogToolUse(tool);
    }

    /** The checks after the profile. */
    method LateChecks(call: Call) returns (denial: Option<Denial>)
      ensures denial == LateDenial(call)
    {
      var c, tool, input := call.ctx, call.tool, call.input;
      if tool == "Bash" {
        if c.patterns.blockedCli(input.command) { return Some(BlockedCli); }
      }
      if !c.source.OwnerDm? && tool == "Read" {
        if c.patterns.credentialFile(input.filePath.GetOr("")) { return Some(CredentialFile); }
      }
      if tool == "Bash" {
        denial := BashChecks(call);
        if denial.Some? { return; }
      }
      if OutboundSend(tool) {
        var decided;
        decided, denial := SendChecks(call);
        if decided { return; }
      }
      if tool == "WebFetch" {
        if c.patterns.privateUrl(input.url) { return Some(PrivateUrl); }
      }
      if tool == "Write" || tool == "Edit" {
        denial := WriteChecks(call);
        return;
      }
      return None;
    }

    method BashChecks(call: Call) returns (denial: Option<Denial>)
      ensures denial == BashDenial(call)
    {
      var c, cmd := call.ctx, call.input.command;
      if c.patterns.credentialExposure(cmd) { return Some(CredentialExposure); }
      if c.patterns.emailCommand(cmd) {
        if c.heartbeat { return Some(EmailAutonomous); }
        if c.approve.Some? {
          var approved := c.approve.value(BashQuestion(cmd));
          if !approved { return Some(EmailRefused); }
        }
      }
      if c.patterns.destructive(cmd) {
        if !c.source.OwnerDm? { return Some(Destructive); }
      }
      return None;
    }

    /** A send under a policy is decided here, allowed or not. */
    method SendChecks(call: Call) returns (decided: bool, denial: Option<Denial>)
      requires OutboundSend(call.tool)
      ensures denial == SendGate(call) && decided == (denial.Some? || PolicySend(call))
    {
      var c := call.ctx;
      if OutboundEmail(call.tool) && c.sendPolicy.Some? && c.agentSlug != "" && (c.heartbeat || c.source.Autonomous?) {
        return true, SendDenial(c.sendPolicy.value, HistoryFor(call), c.hour);
      }
      if c.heartbeat || c.source.Autonomous? { return true, Some(SendAutonomous); }
      if c.approve.Some? {
        var approved := c.approve.value(SendQuestion(call));
        if !approved { return true, Some(SendRefused); }
      }
      return false, None;
    }

    method WriteChecks(call: Call) returns (denial: Option<Denial>)
      ensures denial == WriteDenial(call)
    {
      var c, input := call.ctx, call.input;
      var file := input.filePath.GetOr(input.path.GetOr(""));
      if c.agentDir != "" && file != "" {
        if !c.patterns.within(file, c.agentDir) { return Some(OutsideAgentDir); }
      }
      var content := input.content.GetOr(input.newString.GetOr(""));
      if c.patterns.agentConfigFile(file) {
        if c.patterns.configContent(content) { return Some(AgentConfig); }
      }
      if c.patterns.credentialContent(content) { return Some(CredentialContent); }
      return None;
    }
  }
}
