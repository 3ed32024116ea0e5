/** The task records of a chain: whose they are, where they come from, and what a step shows of them. */
module ChainTasks {
  import opened Text
  import opened Wrappers
  import opened Disk
  import opened Orchestrator
  import opened ChainMoves
  import opened ChainRuns
  import Runs = ChainRuns
  import BackgroundTasks
  import Records = Disk

  // ---- Every record of a chain is of its session and of its lineage ----

  /** Made for nobody's sake, or on the end of a task of the same plan for an earlier step. */
  predicate Descends(tasks: map<string, Task>, t: Task) {
    && t.stepIndex.Some?
    && (t.parentTaskId != "" ==>
          && t.parentTaskId in tasks && tasks[t.parentTaskId].planId == t.planId
          && tasks[t.parentTaskId].stepIndex.Some? && tasks[t.parentTaskId].stepIndex.value < t.stepIndex.value)
  }

  predicate Belongs(tasks: map<string, Task>, p: Plan, t: Task) {
    t.sessionKey == p.sessionKey && t.chainId == p.chainId && t.maxMinutes == 30 && Descends(tasks, t)
  }

  predicate Family(w: World, key: PlanKey) {
    key in w.plans &&
    forall a :: a in w.tasks && w.tasks[a].planId == key.id ==> Belongs(w.tasks, w.plans[key], w.tasks[a])
  }

  /** What no operation changes in a record. */
  predicate SameRecord(t: Task, r: Task) {
    && r.sessionKey == t.sessionKey && r.chainId == t.chainId && r.planId == t.planId && r.stepIndex == t.stepIndex
    && r.parentTaskId == t.parentTaskId && r.maxMinutes == t.maxMinutes
  }

  predicate SameOrigin(p: Plan, q: Plan) { p.sessionKey == q.sessionKey && p.chainId == q.chainId }

  /** A write that leaves the family one. */
  predicate Fits(w: World, key: PlanKey, wr: Write)
    requires key in w.plans
  {
    match wr
    case PutTask(t) =>
      if t.id in w.tasks then SameRecord(w.tasks[t.id], t)
      else t.planId == key.id ==> Belongs(w.tasks, w.plans[key], t)
    case PutResult(_, _) => true
    case PutPlan(p) => KeyOf(p) == key ==> SameOrigin(w.plans[key], p)
  }

  lemma FittingWrite(w: World, key: PlanKey, wr: Write)
    requires Family(w, key) && Fits(w, key, wr)
    ensures var w' := Apply1(w, wr); Family(w', key) && SameOrigin(w.plans[key], w'.plans[key])
  {
  }

  lemma FittingWrites(w: World, key: PlanKey, ws: seq<Write>, cut: nat)
    requires Family(w, key) && |ws| <= 2
    requires |ws| > 0 ==> Fits(w, key, ws[0])
    requires |ws| > 1 ==> key in Apply1(w, ws[0]).plans && Fits(Apply1(w, ws[0]), key, ws[1])
    ensures var w' := Apply(w, Take(ws, cut)); Family(w', key) && SameOrigin(w.plans[key], w'.plans[key])
  {
    ApplyTake(w, ws, cut);
    if |ws| > 0 {
      FittingWrite(w, key, ws[0]);
      if |ws| > 1 { FittingWrite(Apply1(w, ws[0]), key, ws[1]); }
    }
  }

  lemma AdvanceFits(w: World, key: PlanKey, t: Task, id: string, now: int, cut: nat)
    requires WellKept(w, key) && Indexed(w, key) && Family(w, key) && Enabled(w, key, Advance(t, id, now))
    ensures var w' := Apply(w, Take(AdvanceWrites(w, t, id, now), cut));
            Family(w', key) && SameOrigin(w.plans[key], w'.plans[key])
  {
    var ws := AdvanceWrites(w, t, id, now);
    LoadHits(w, key, t.planId, "");
    if |ws| == 2 { HandedTask(w, key, t, id, now); }
    FittingWrites(w, key, ws, cut);
  }

  /** The task of the next step belongs to the chain of the completed one. */
  lemma HandedTask(w: World, key: PlanKey, t: Task, id: string, now: int)
    requires WellKept(w, key) && Indexed(w, key) && Family(w, key) && Enabled(w, key, Advance(t, id, now))
    requires |AdvanceWrites(w, t, id, now)| == 2
    ensures Fits(w, key, AdvanceWrites(w, t, id, now)[0])
  {
    LoadHits(w, key, t.planId, "");
    var (p, i) := Target(w, t).value;
    if p.id == key.id {
      var q := Reflect(p, i, t, now);
      var k := NextWaiting(q.steps, q.steps[i].index + 1).value;
      assert q.steps[i].index == i && q.steps[k].index == k;
    }
  }

  lemma ResumeFits(w: World, key: PlanKey, planId: string, project: string, id: string, now: int, cut: nat)
    requires WellKept(w, key) && Indexed(w, key) && Family(w, key) && id !in w.tasks
    ensures var w' := Apply(w, Take(ResumeWrites(w, planId, project, id, now), cut));
            Family(w', key) && SameOrigin(w.plans[key], w'.plans[key])
  {
    LoadHits(w, key, planId, project);
    FittingWrites(w, key, ResumeWrites(w, planId, project, id, now), cut);
  }

  lemma OtherFits(w: World, key: PlanKey, e: Event)
    requires WellKept(w, key) && Family(w, key) && Enabled(w, key, e.op) && !e.op.Advance? && !e.op.Resume?
    ensures Family(Runs.Step(w, e), key) && SameOrigin(w.plans[key], Runs.Step(w, e).plans[key])
  {
    match e.op
    case Pause(planId, project, reason) =>
      LoadHits(w, key, planId, project);
      FittingWrites(w, key, PauseWrites(w, planId, project, reason), e.cut);
    case Dispatch(p, id, now) => FittingWrites(w, key, DispatchWrites(p, id, now), e.cut);
    case Lifecycle(id, te) => FittingWrites(w, key, BackgroundTasks.TaskWrites(w, id, te), e.cut);
  }

  lemma FamilyStays(w: World, key: PlanKey, e: Event)
    requires WellKept(w, key) && Indexed(w, key) && Family(w, key) && Enabled(w, key, e.op)
    ensures Family(Runs.Step(w, e), key) && SameOrigin(w.plans[key], Runs.Step(w, e).plans[key])
  {
    match e.op
    case Advance(t, id, now) => AdvanceFits(w, key, t, id, now, e.cut);
    case Resume(planId, project, id, now) => ResumeFits(w, key, planId, project, id, now, e.cut);
    case _ => OtherFits(w, key, e);
  }

  lemma {:induction false} FamilyRun(w: World, key: PlanKey, es: seq<Event>)
    requires WellKept(w, key) && Indexed(w, key) && Family(w, key) && Legal(w, key, es)
    ensures Family(Run(w, es), key) && SameOrigin(w.plans[key], Run(w, es).plans[key])
    decreases |es|
  {
    if es != [] {
      FamilyStays(w, key, es[0]);
      var w' := OneMove(w, key, es[0]);
      FamilyRun(w', key, es[1..]);
    }
  }

  lemma LaunchFits(w: World, key: PlanKey, id: string, now: int, cut: nat)
    requires Ready(w, key) && id !in w.tasks
    ensures var w1 := Launched(w, key, id, now, cut);
            Family(w1, key) && SameOrigin(w.plans[key], w1.plans[key]) && WellKept(w1, key) && Indexed(w1, key)
  {
    forall a | a in w.tasks
      ensures w.tasks[a].planId != key.id
    {
      assert a !in Own(w, key.id);
    }
    FittingWrites(w, key, DispatchWrites(w.plans[key], id, now), cut);
    LaunchDraws(w, key, id, now, cut);
  }

  /**
   In every run from its launch, whatever crashes, every record of a chain carries the session and the chain id
   the plan was launched with, and was made either for nobody's sake or on the end of a task for an earlier step.
   */
  lemma TasksBelongToTheirChain(w: World, key: PlanKey, id: string, now: int, cut: nat, es: seq<Event>, a: string)
    requires Ready(w, key) && id !in w.tasks && Legal(Launched(w, key, id, now, cut), key, es)
    ensures var w' := Run(Launched(w, key, id, now, cut), es);
            a in w'.tasks && w'.tasks[a].planId == key.id ==>
              && w'.tasks[a].sessionKey == w.plans[key].sessionKey && w'.tasks[a].chainId == w.plans[key].chainId
              && w'.tasks[a].maxMinutes == 30 && Descends(w'.tasks, w'.tasks[a])
  {
    LaunchFits(w, key, id, now, cut);
    FamilyRun(Launched(w, key, id, now, cut), key, es);
  }

  // ---- New records ----

  /** A record as it is made: for this session, chain and step, waiting, at this time and after this task. */
  predicate MadeFor(t: Task, p: Plan, parent: string, now: int) {
    && t.status.Pending? && t.createdAt == now && t.parentTaskId == parent && t.planId == p.id
    && t.sessionKey == p.sessionKey && t.chainId == p.chainId
    && t.startedAt.None? && t.completedAt.None? && t.result.None? && t.mirroredAt.None? && t.resumeCount == 0
  }

  /** Only a callback and a resume make records of a launched chain: after the reported task, and after nobody. */
  lemma NewTaskHasItsParent(w: World, key: PlanKey, e: Event, a: string)
    requires WellKept(w, key) && Enabled(w, key, e.op)
    requires a !in w.tasks && a in Runs.Step(w, e).tasks && Runs.Step(w, e).tasks[a].planId == key.id
    ensures match e.op
            case Advance(t, _, now) => MadeFor(Runs.Step(w, e).tasks[a], w.plans[key], t.id, now)
            case Resume(_, _, _, now) => MadeFor(Runs.Step(w, e).tasks[a], w.plans[key], "", now)
            case _ => false
  {
    match e.op
    case Advance(t, id, now) => AdvanceMakes(w, key, t, id, now, e.cut, a);
    case Resume(planId, project, id, now) => ResumeMakes(w, key, planId, project, id, now, e.cut, a);
    case _ => NobodyElseMakes(w, key, e, a);
  }

  lemma AdvanceMakes(w: World, key: PlanKey, t: Task, id: string, now: int, cut: nat, a: string)
    requires WellKept(w, key) && id !in w.tasks && a !in w.tasks
    requires var w' := Apply(w, Take(AdvanceWrites(w, t, id, now), cut)); a in w'.tasks && w'.tasks[a].planId == key.id
    ensures MadeFor(Apply(w, Take(AdvanceWrites(w, t, id, now), cut)).tasks[a], w.plans[key], t.id, now)
  {
    LoadHits(w, key, t.planId, "");
    ApplyTake(w, AdvanceWrites(w, t, id, now), cut);
  }

  lemma ResumeMakes(w: World, key: PlanKey, planId: string, project: string, id: string, now: int, cut: nat, a: string)
    requires WellKept(w, key) && id !in w.tasks && a !in w.tasks
    requires var w' := Apply(w, Take(ResumeWrites(w, planId, project, id, now), cut));
             a in w'.tasks && w'.tasks[a].planId == key.id
    ensures MadeFor(Apply(w, Take(ResumeWrites(w, planId, project, id, now), cut)).tasks[a], w.plans[key], "", now)
  {
    LoadHits(w, key, planId, project);
    ApplyTake(w, ResumeWrites(w, planId, project, id, now), cut);
  }

  lemma NobodyElseMakes(w: World, key: PlanKey, e: Event, a: string)
    requires WellKept(w, key) && Enabled(w, key, e.op) && !e.op.Advance? && !e.op.Resume? && a !in w.tasks
    ensures a in Runs.Step(w, e).tasks ==> Runs.Step(w, e).tasks[a].planId != key.id
  {
    ApplyTake(w, Writes(w, e.op), e.cut);
  }

  /** So does the launch, for the first step and after nobody. */
  lemma LaunchedTask(w: World, key: PlanKey, id: string, now: int, cut: nat)
    requires Ready(w, key) && id !in w.tasks && cut > 0
    ensures var w1 := Launched(w, key, id, now, cut);
            id in w1.tasks && MadeFor(w1.tasks[id], w.plans[key], "", now) && w1.tasks[id].stepIndex == Some(0)
  {
    ApplyTake(w, DispatchWrites(w.plans[key], id, now), cut);
  }

  // ---- What a step shows ----

  /** The text of a report: the result of a success, else the error, else the result. */
  function ReportText(t: Task): string {
    if t.status.Done? then t.result.GetOr("") else t.error.GetOr(t.result.GetOr(""))
  }

  predicate Shows(s: Records.Step, t: Task, now: int) {
    && (s.status.Succeeded? <==> t.status.Done?) && (s.status.Broken? <==> !t.status.Done?)
    && s.completedAt == Some(if t.completedAt.Some? then t.completedAt.value else now)
    && s.resultPreview.Some? && FirstOf(s.resultPreview.value, ReportText(t), 400)
  }

  /** A step shows the report that ended it, for good: its outcome, its time and the head of its text. */
  lemma StepShowsItsReport(w: World, key: PlanKey, t: Task, i: nat, id: string, now: int, es: seq<Event>)
    requires WellKept(w, key) && Indexed(w, key) && key.project == "" && t.planId == key.id && t.stepIndex == Some(i)
    requires i < |w.plans[key].steps| && !w.plans[key].steps[i].Terminal() && Enabled(w, key, Advance(t, id, now))
    requires Legal(Runs.Step(w, Event(Advance(t, id, now), 2)), key, es)
    ensures var w' := Run(Runs.Step(w, Event(Advance(t, id, now), 2)), es);
            key in w'.plans && i < |w'.plans[key].steps| && Shows(w'.plans[key].steps[i], t, now)
  {
    var w' := OneMove(w, key, Event(Advance(t, id, now), 2));
    CallbackShows(View(w, key), t, i, id, now);
    EndedStepsStay(w', key, es, i);
  }

  lemma CallbackShows(c: Chain, t: Task, i: nat, id: string, now: int)
    requires Positions(c) && i < |c.plan.steps| && !c.plan.steps[i].Terminal()
    ensures var s := After(c, Callback(t, i, id, now, 2)).plan.steps; i < |s| && Shows(s[i], t, now) && s[i].Terminal()
  {
  }

  // ---- What a plan keeps ----

  /** The same plan: its names, its steps in order under their titles. */
  predicate SamePlan(p: Plan, q: Plan) {
    && q.id == p.id && q.chainId == p.chainId && q.projectPath == p.projectPath && q.sessionKey == p.sessionKey
    && |q.steps| == |p.steps|
    && forall i :: 0 <= i < |p.steps| ==> q.steps[i].index == p.steps[i].index && q.steps[i].title == p.steps[i].title
  }

  lemma MoveKeepsPlan(c: Chain, m: Move)
    requires Positions(c) && !m.Launch?
    ensures SamePlan(c.plan, After(c, m).plan)
  {
    PositionsStay(c, m);
  }

  /** The line that a pause with a reason leaves in the notes. */
  function NotedBy(m: Move): seq<string> {
    if m.Halt? && m.cut > 0 && m.reason != "" then ["[paused] " + m.reason] else []
  }

  function Noted(w: World, key: PlanKey, es: seq<Event>): seq<string>
    decreases |es|
  {
    if es == [] then []
    else (if key in w.plans then NotedBy(MoveOf(w, key, es[0])) else []) + Noted(Runs.Step(w, es[0]), key, es[1..])
  }

  function Lines(notes: string): seq<string> { if notes == "" then [] else [notes] }

  lemma {:induction false} JoinFlattens(parts: seq<string>, rest: seq<string>, separator: string)
    requires parts != []
    ensures Join([Join(parts, separator)] + rest, separator) == Join(parts + rest, separator)
    decreases |parts|
  {
    if |parts| == 1 {
      assert parts == [parts[0]];
    } else {
      var first, more := parts[0], parts[1..];
      JoinFlattens(more, rest, separator);
      assert (parts + rest)[1..] == more + rest;
      if rest == [] {
        assert more + rest == more && parts + rest == parts;
      } else {
        var whole, tail := Join(parts, separator), Join(more, separator);
        assert ([whole] + rest)[1..] == rest == ([tail] + rest)[1..];
        var last := separator + Join(rest, separator);
        assert whole + last == first + separator + (tail + last);
      }
    }
  }

  lemma MoveNotes(c: Chain, m: Move)
    requires !m.Launch?
    ensures After(c, m).plan.notes == Join(Lines(c.plan.notes) + NotedBy(m), "\n")
  {
    var lines, notes := Lines(c.plan.notes), NotedBy(m);
    if notes == [] {
      assert lines + notes == lines;
    } else if lines == [] {
      assert lines + notes == notes;
    } else {
      assert (lines + notes)[1..] == notes;
    }
  }

  lemma NotesGoOn(notes: string, now: string, more: seq<string>, rest: seq<string>)
    requires now == Join(Lines(notes) + more, "\n") && (more != [] ==> more[0] != "")
    ensures Join(Lines(now) + rest, "\n") == Join(Lines(notes) + (more + rest), "\n")
  {
    var parts := Lines(notes) + more;
    assert parts + rest == Lines(notes) + (more + rest);
    if parts == [] {
      assert Lines(now) == [] && [] + rest == rest;
    } else {
      assert parts[0] != "";
      JoinedGoesOn(parts, rest);
    }
  }

  lemma JoinedGoesOn(parts: seq<string>, rest: seq<string>)
    requires parts != [] && parts[0] != ""
    ensures Join(Lines(Join(parts, "\n")) + rest, "\n") == Join(parts + rest, "\n")
  {
    JoinStarts(parts, "\n");
    JoinFlattens(parts, rest, "\n");
  }

  lemma JoinStarts(parts: seq<string>, separator: string)
    requires parts != []
    ensures parts[0] <= Join(parts, separator)
  {
    if |parts| > 1 {
      var first, more := parts[0], separator + Join(parts[1..], separator);
      assert Join(parts, separator) == first + more && (first + more)[..|first|] == first;
    }
  }

  /**
   In every run a plan stays the same plan, and its notes are those it began with and a line for each reason given
   for a pause.
   */
  lemma {:induction false} PlanIsKept(w: World, key: PlanKey, es: seq<Event>)
    requires WellKept(w, key) && Indexed(w, key) && Legal(w, key, es)
    ensures var w' := Run(w, es);
            && key in w'.plans && SamePlan(w.plans[key], w'.plans[key])
            && w'.plans[key].notes == Join(Lines(w.plans[key].notes) + Noted(w, key, es), "\n")
    decreases |es|
  {
    if es == [] {
      assert Lines(w.plans[key].notes) + [] == Lines(w.plans[key].notes);
    } else {
      var m := MoveOf(w, key, es[0]);
      var w' := OneMove(w, key, es[0]);
      MoveKeepsPlan(View(w, key), m);
      MoveNotes(View(w, key), m);
      PlanIsKept(w', key, es[1..]);
      NotesGoOn(w.plans[key].notes, w'.plans[key].notes, NotedBy(m), Noted(w', key, es[1..]));
    }
  }
}
