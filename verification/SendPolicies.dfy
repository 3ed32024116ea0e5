/** Sends under a policy, and what every decision says: the laws of src/agent/hooks.ts spelled out. */
module SendPolicies {
  import opened Permissions
  import opened Text
  import opened Wrappers

  // ---- One send under a policy ----

  /** Nobody suppressed the recipient, and the agent's count for the day is under its limit; no checker, no count. */
  predicate UnderTheLimit(call: Call, limit: int) {
    call.ctx.history.Some? ==>
      var seen := call.ctx.history.value(if call.input.to.Some? then call.input.to.value else "");
      !seen.suppressed && seen.dailyCount < limit
  }

  /** An unattended agent with a policy sends mail exactly within its profile, limit, hours and approval mode. */
  lemma PolicySendExactly(p: Profile, call: Call, latch: bool)
    requires Contains(call.tool, "outlook_send") && Unattended(call.ctx)
    requires call.ctx.sendPolicy.Some? && call.ctx.agentSlug != ""
    ensures var c, policy := call.ctx, call.ctx.sendPolicy.value;
            Decide(p, call, latch).None? <==>
            && HeartbeatAllows(call) && !BrowserTool(call.tool) && ProfileAllows(p, call.tool)
            && UnderTheLimit(call, policy.maxDailyEmails)
            && (policy.businessHoursOnly ==> 8 <= c.hour <= 17)
            && !policy.requiresApproval.AllSends?
  {
    AutonomousIsContained(p, call, latch);
  }

  // ---- The daily limit over a run ----

  /** Event i is a send of agent `a` under its policy. */
  predicate PolicySendBy(e: Event, a: string) { e.Use? && PolicySend(e.call) && e.call.ctx.agentSlug == a }

  /** How many of the first n events are allowed sends of agent `a` under its policy, on day d. */
  function SendsOn(latch: bool, ps: seq<Profile>, es: seq<Event>, days: seq<int>, a: string, d: int, n: nat): nat
    requires |ps| == |es| == |days| && n <= |es|
  {
    if n == 0 then 0
    else
      SendsOn(latch, ps, es, days, a, d, n - 1)
      + if PolicySendBy(es[n - 1], a) && days[n - 1] == d && AllowedAt(latch, ps, es, n - 1) then 1 else 0
  }

  /** The checker is there, and its count for the day misses at most `lag` of the agent's sends. */
  predicate Counted(latch: bool, ps: seq<Profile>, es: seq<Event>, days: seq<int>, a: string, lag: nat, i: nat)
    requires |ps| == |es| == |days| && i < |es| && es[i].Use?
  {
    var c, input := es[i].call.ctx, es[i].call.input;
    && c.history.Some?
    && SendsOn(latch, ps, es, days, a, days[i], i) <= c.history.value(input.to.GetOr("")).dailyCount + lag
  }

  /** Every send of agent `a` under its policy is judged by a count that misses at most `lag`, and by this limit. */
  predicate CountedSends(latch: bool, ps: seq<Profile>, es: seq<Event>, days: seq<int>, a: string, limit: int, lag: nat)
    requires |ps| == |es| == |days|
  {
    forall i :: 0 <= i < |es| && PolicySendBy(es[i], a) ==>
      Counted(latch, ps, es, days, a, lag, i) && es[i].call.ctx.sendPolicy.value.maxDailyEmails <= limit
  }

  lemma {:induction false} AllowedIsDecided(latch: bool, ps: seq<Profile>, es: seq<Event>, i: nat) returns (seen: bool)
    requires |ps| == |es| && i < |es| && AllowedAt(latch, ps, es, i)
    ensures Passes(ps[i], es[i], seen)
    decreases i
  {
    if i == 0 {
      seen := latch;
    } else {
      seen := AllowedIsDecided(LatchAfter(es[0], latch), ps[1..], es[1..], i - 1);
    }
  }

  /**
   An agent's limit holds on every day of every run, as far as the count it is judged by is right: counts that
   miss up to `lag` sends let through at most `lag` more, and exact counts none.
   */
  lemma {:induction false} DailyLimitHolds(latch: bool, ps: seq<Profile>, es: seq<Event>, days: seq<int>, a: string,
                                           d: int, limit: nat, lag: nat, n: nat)
    requires |ps| == |es| == |days| && n <= |es| && CountedSends(latch, ps, es, days, a, limit, lag)
    ensures SendsOn(latch, ps, es, days, a, d, n) <= limit + lag
  {
    if n > 0 {
      DailyLimitHolds(latch, ps, es, days, a, d, limit, lag, n - 1);
      if PolicySendBy(es[n - 1], a) && days[n - 1] == d && AllowedAt(latch, ps, es, n - 1) {
        LimitedSend(latch, ps, es, n - 1);
      }
    }
  }

  lemma LimitedSend(latch: bool, ps: seq<Profile>, es: seq<Event>, i: nat)
    requires |ps| == |es| && i < |es| && AllowedAt(latch, ps, es, i) && es[i].Use? && PolicySend(es[i].call)
    ensures UnderTheLimit(es[i].call, es[i].call.ctx.sendPolicy.value.maxDailyEmails)
  {
    var seen := AllowedIsDecided(latch, ps, es, i);
    PolicySendExactly(ps[i], es[i].call, seen);
  }

  // ---- What the approver is shown ----

  /** An attended send is allowed exactly when its approver agrees to recipient and subject, or to the channel. */
  lemma SendIsShownToTheApprover(p: Profile, call: Call, latch: bool)
    requires OutboundSend(call.tool) && !Unattended(call.ctx) && call.ctx.approve.Some? && !BrowserTool(call.tool)
    ensures var i := call.input;
            var shown :=
              if Contains(call.tool, "outlook_send")
              then "Send email to " + (if i.to.Some? then i.to.value else "?") + ": \""
                   + (if i.subject.Some? then i.subject.value else "?") + "\""
              else "Send Discord message to channel " + if i.channelId.Some? then i.channelId.value else "?";
            Decide(p, call, latch).None? <==> ProfileAllows(p, call.tool) && call.ctx.approve.value(shown)
  {
    DecisionIsPermission(p, call, latch);
    if call.tool in ["Bash", "Read", "WebFetch", "Write", "Edit"] { CheckedToolsDoNotSend(call.tool); }
  }

  /** The approver of a shell mail is shown the first 120 characters of the command. */
  lemma CommandIsShownToTheApprover(p: Profile, call: Call, latch: bool, shown: string)
    requires ShellMail(call) && call.ctx.approve.Some? && FirstOf(shown, call.input.command, 120)
    ensures Decide(p, call, latch).None? ==> call.ctx.approve.value("Send email via Bash: " + shown)
  {
    ShellMailExactly(p, call, latch);
    assert shown == Take(call.input.command, 120);
  }

  // ---- Heartbeats ----

  /** During a heartbeat exactly these tools are refused for it. */
  lemma HeartbeatRefusesExactly(p: Profile, call: Call, latch: bool)
    ensures Decide(p, call, latch) == Some(Heartbeat) <==>
            && call.ctx.heartbeat
            && (|| call.tool in {"Bash", "Task", "Skill", "TodoWrite"}
                || (call.tool in {"Write", "Edit"} && !call.ctx.tier2Allowed)
                || call.tool in {"mcp__browser-harness__browser_click_xy", "mcp__browser-harness__browser_type_text",
                                 "mcp__browser-harness__browser_press_key", "mcp__browser-harness__browser_scroll",
                                 "mcp__browser-harness__browser_run_python"})
  {
  }

  // ---- Every refusal gives a true reason ----

  /** The file and the text a write is about. */
  predicate WritesTo(i: Input, file: string) {
    if i.filePath.Some? then file == i.filePath.value
    else if i.path.Some? then file == i.path.value
    else file == ""
  }

  predicate WritesText(i: Input, text: string) {
    if i.content.Some? then text == i.content.value
    else if i.newString.Some? then text == i.newString.value
    else text == ""
  }

  ghost predicate SeenAs(call: Call, suppressed: bool, limit: int) {
    && call.ctx.history.Some?
    && var seen := call.ctx.history.value(call.input.to.GetOr(""));
       if suppressed then seen.suppressed else seen.dailyCount >= limit
  }

  ghost predicate IsTrue(d: Denial, p: Profile, call: Call) {
    var c, i, tool := call.ctx, call.input, call.tool;
    match d
    case Heartbeat => c.heartbeat
    case BrowserAutonomous => BrowserTool(tool) && Unattended(c)
    case BrowserRefused => BrowserTool(tool) && c.approve.Some? && !c.approve.value(BROWSER_QUESTION)
    case BrowserUnattended => BrowserTool(tool) && c.approve.None?
    case ProfileTier => p.tier.Some? && p.tier.value < 2 && tool in {"Bash", "Write", "Edit"}
    case ProfileTools => p.tools.Some? && p.tools.value != [] && tool !in p.tools.value
    case BlockedCli => tool == "Bash" && c.patterns.blockedCli(i.command)
    case CredentialFile =>
      && tool == "Read" && !c.source.OwnerDm?
      && c.patterns.credentialFile(if i.filePath.Some? then i.filePath.value else "")
    case CredentialExposure => tool == "Bash" && c.patterns.credentialExposure(i.command)
    case EmailAutonomous => ShellMail(call) && c.heartbeat
    case EmailRefused => ShellMail(call) && c.approve.Some? && !c.approve.value(BashQuestion(i.command))
    case Destructive => tool == "Bash" && c.patterns.destructive(i.command) && !c.source.OwnerDm?
    case Suppressed => PolicySend(call) && SeenAs(call, true, 0)
    case DailyCap => PolicySend(call) && SeenAs(call, false, c.sendPolicy.value.maxDailyEmails)
    case OutsideHours => PolicySend(call) && c.sendPolicy.value.businessHoursOnly && !(8 <= c.hour <= 17)
    case NeedsApproval => PolicySend(call) && c.sendPolicy.value.requiresApproval.AllSends?
    case SendAutonomous => OutboundSend(tool) && Unattended(c) && !PolicySend(call)
    case SendRefused => OutboundSend(tool) && c.approve.Some? && !c.approve.value(SendQuestion(call))
    case PrivateUrl => tool == "WebFetch" && c.patterns.privateUrl(i.url)
    case OutsideAgentDir => Writes(tool) && c.agentDir != "" && exists f :: WritesTo(i, f) && Strays(c, f)
    case AgentConfig => Writes(tool) && exists f, s :: WritesTo(i, f) && WritesText(i, s) && Configures(c, f, s)
    case CredentialContent => Writes(tool) && exists s :: WritesText(i, s) && c.patterns.credentialContent(s)
  }

  predicate Writes(tool: string) { tool in {"Write", "Edit"} }

  predicate Strays(c: Context, file: string) { file != "" && !c.patterns.within(file, c.agentDir) }

  predicate Configures(c: Context, file: string, text: string) {
    c.patterns.agentConfigFile(file) && c.patterns.configContent(text)
  }

  /** Whatever is refused is refused for a reason that holds. */
  lemma RefusalsAreTrue(p: Profile, call: Call, latch: bool)
    requires Decide(p, call, latch).Some?
    ensures IsTrue(Decide(p, call, latch).value, p, call)
  {
    if EarlyDenial(call, latch).None? && ProfileDenial(p, call.tool).None? {
      assert Decide(p, call, latch) == LateDenial(call);
      LateRefusalsAreTrue(p, call);
    }
  }

  lemma LateRefusalsAreTrue(p: Profile, call: Call)
    requires LateDenial(call).Some?
    ensures IsTrue(LateDenial(call).value, p, call)
  {
    if call.tool == "Bash" && BashDenial(call).Some? { BashRefusalsAreTrue(p, call); }
    if SendGate(call).Some? { SendRefusalsAreTrue(p, call); }
    if Writes(call.tool) && WriteDenial(call).Some? { WriteRefusalsAreTrue(p, call); }
  }

  lemma BashRefusalsAreTrue(p: Profile, call: Call)
    requires call.tool == "Bash" && BashDenial(call).Some?
    ensures IsTrue(BashDenial(call).value, p, call)
  {
  }

  lemma SendRefusalsAreTrue(p: Profile, call: Call)
    requires SendGate(call).Some?
    ensures IsTrue(SendGate(call).value, p, call)
  {
  }

  lemma WriteRefusalsAreTrue(p: Profile, call: Call)
    requires Writes(call.tool) && WriteDenial(call).Some?
    ensures IsTrue(WriteDenial(call).value, p, call)
  {
    assert WritesTo(call.input, WritePath(call.input)) && WritesText(call.input, WriteContent(call.input));
  }
}
