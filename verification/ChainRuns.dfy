/**
 Runs of the whole daemon over the task and plan directories, any operation of which may be cut
 short by a crash between two file writes. The chain of one plan is followed through such a run.
 */
module ChainRuns {
  import opened Wrappers
  import opened Disk
  import opened Orchestrator
  import opened ChainMoves
  import BackgroundTasks

  datatype Op =
    | Dispatch(plan: Plan, id: string, now: int)
    | Advance(task: Task, id: string, now: int)
    | Pause(planId: string, project: string, reason: string)
    | Resume(planId: string, project: string, id: string, now: int)
    | Lifecycle(id: string, e: BackgroundTasks.TaskEvent)

  /** An operation of which only the first `cut` writes reach the disk. */
  datatype Event = Event(op: Op, cut: nat)

  function Writes(w: World, op: Op): seq<Write> {
    match op
    case Dispatch(p, id, now) => DispatchWrites(p, id, now)
    case Advance(t, id, now) => AdvanceWrites(w, t, id, now)
    case Pause(planId, project, reason) => PauseWrites(w, planId, project, reason)
    case Resume(planId, project, id, now) => ResumeWrites(w, planId, project, id, now)
    case Lifecycle(id, e) => BackgroundTasks.TaskWrites(w, id, e)
  }

  function Step(w: World, e: Event): World { Apply(w, Take(Writes(w, e.op), e.cut)) }

  function Run(w: World, es: seq<Event>): World
    decreases |es|
  {
    if es == [] then w else Run(Step(w, es[0]), es[1..])
  }

  /**
   What the chain `key` may assume of its surroundings: drawn identifiers are new, other chains are
   dispatched under other plan ids, and a completion callback reports a task that is on record. The
   reported status may be stale: callbacks can be late, duplicated or out of order.
   */
  predicate Enabled(w: World, key: PlanKey, op: Op) {
    match op
    case Dispatch(p, id, _) => id !in w.tasks && p.id != key.id
    case Advance(t, id, _) =>
      && id !in w.tasks
      && t.id in w.tasks && t.planId == w.tasks[t.id].planId && t.stepIndex == w.tasks[t.id].stepIndex
    case Resume(_, _, id, _) => id !in w.tasks
    case _ => true
  }

  predicate Legal(w: World, key: PlanKey, es: seq<Event>)
    decreases |es|
  {
    es == [] || (Enabled(w, key, es[0].op) && Legal(Step(w, es[0]), key, es[1..]))
  }

  // ---- The chain inside the world ----

  predicate WellKept(w: World, key: PlanKey) {
    && key.id != "" && key in w.plans
    && (forall k :: k in w.plans ==> KeyOf(w.plans[k]) == k)
    && (forall k :: k in w.plans && k.id == key.id ==> k == key)
    && (forall id :: id in w.tasks ==> w.tasks[id].id == id)
  }

  /** The tasks created for this plan, with the step each was created for. */
  function Own(w: World, planId: string): map<string, Option<int>> {
    map id | id in w.tasks && w.tasks[id].planId == planId :: w.tasks[id].stepIndex
  }

  function View(w: World, key: PlanKey): Chain
    requires key in w.plans
  {
    Chain(w.plans[key], Own(w, key.id))
  }

  predicate Hits(key: PlanKey, planId: string, project: string) {
    planId == key.id && (project == key.project || key.project == "")
  }

  /** The chain's move behind a daemon operation. */
  function MoveOf(w: World, key: PlanKey, e: Event): Move
    requires key in w.plans
  {
    match e.op
    case Advance(t, id, now) =>
      if key.project == "" && t.planId == key.id && t.stepIndex.Some? && 0 <= t.stepIndex.value < |w.plans[key].steps|
      then Callback(t, t.stepIndex.value, id, now, e.cut) else Idle
    case Pause(planId, project, reason) => if Hits(key, planId, project) then Halt(reason, e.cut) else Idle
    case Resume(planId, project, id, _) => if Hits(key, planId, project) then Restart(id, e.cut) else Idle
    case _ => Idle
  }

  lemma LoadHits(w: World, key: PlanKey, planId: string, project: string)
    requires WellKept(w, key)
    ensures Hits(key, planId, project) ==> LoadPlan(w, planId, project) == Some(w.plans[key])
    ensures !Hits(key, planId, project) && LoadPlan(w, planId, project).Some? ==>
              LoadPlan(w, planId, project).value.id != key.id
              && KeyOf(LoadPlan(w, planId, project).value) in w.plans
  {
  }

  /** A write that leaves the chain alone. */
  predicate Foreign(w: World, key: PlanKey, wr: Write) {
    match wr
    case PutTask(t) =>
      if t.id in w.tasks then t.planId == w.tasks[t.id].planId && t.stepIndex == w.tasks[t.id].stepIndex
      else t.planId != key.id
    case PutResult(_, _) => true
    case PutPlan(p) => p.id != key.id
  }

  lemma ForeignWrite(w: World, key: PlanKey, wr: Write)
    requires WellKept(w, key) && Foreign(w, key, wr)
    ensures WellKept(Apply1(w, wr), key) && View(Apply1(w, wr), key) == View(w, key)
  {
    assert Own(Apply1(w, wr), key.id) == Own(w, key.id);
  }

  /** At most two writes, all foreign: nothing happens to the chain, wherever the cut falls. */
  lemma ForeignWrites(w: World, key: PlanKey, ws: seq<Write>, cut: nat)
    requires WellKept(w, key) && |ws| <= 2
    requires |ws| > 0 ==> Foreign(w, key, ws[0])
    requires |ws| > 1 ==> Foreign(Apply1(w, ws[0]), key, ws[1])
    ensures WellKept(Apply(w, Take(ws, cut)), key) && View(Apply(w, Take(ws, cut)), key) == View(w, key)
  {
    ApplyTake(w, ws, cut);
    if |ws| > 0 {
      ForeignWrite(w, key, ws[0]);
      if |ws| > 1 { ForeignWrite(Apply1(w, ws[0]), key, ws[1]); }
    }
  }

  lemma ApplyTake(w: World, ws: seq<Write>, cut: nat)
    requires |ws| <= 2
    ensures Apply(w, Take(ws, cut)) ==
            if cut == 0 || ws == [] then w
            else if cut == 1 || |ws| == 1 then Apply1(w, ws[0])
            else Apply1(Apply1(w, ws[0]), ws[1])
  {
    if cut == 0 || ws == [] {
      assert Take(ws, cut) == [];
    } else if cut == 1 || |ws| == 1 {
      assert Take(ws, cut) == [ws[0]];
      ApplyOne(w, ws[0]);
    } else {
      assert Take(ws, cut) == [ws[0], ws[1]];
      ApplyTwo(w, ws[0], ws[1]);
    }
  }

  /** A plan write for the chain itself. */
  lemma SaveWrite(w: World, key: PlanKey, p: Plan, cut: nat)
    requires WellKept(w, key) && KeyOf(p) == key
    ensures var w' := Apply(w, Take([PutPlan(p)], cut));
            WellKept(w', key) && View(w', key) == Save(View(w, key), cut, p)
  {
    ApplyTake(w, [PutPlan(p)], cut);
    assert Own(Apply1(w, PutPlan(p)), key.id) == Own(w, key.id);
  }

  lemma TaskWrite(w: World, key: PlanKey, t: Task, k: nat)
    requires WellKept(w, key) && t.id !in w.tasks && t.planId == key.id && t.stepIndex == Some(k) && t.result.None?
    ensures var w1 := Apply1(w, PutTask(t));
            WellKept(w1, key) && w1.plans == w.plans && Own(w1, key.id) == Own(w, key.id)[t.id := Some(k)]
  {
  }

  lemma PlanWrite(w: World, key: PlanKey, p: Plan)
    requires WellKept(w, key) && KeyOf(p) == key
    ensures var w1 := Apply1(w, PutPlan(p)); WellKept(w1, key) && View(w1, key) == Chain(p, Own(w, key.id))
  {
    assert Own(Apply1(w, PutPlan(p)), key.id) == Own(w, key.id);
  }

  /** A new step task and then the plan that names it. */
  lemma HandWrites(w: World, key: PlanKey, t: Task, k: nat, p: Plan, cut: nat)
    requires WellKept(w, key) && KeyOf(p) == key
    requires t.id !in w.tasks && t.planId == key.id && t.stepIndex == Some(k) && t.result.None?
    ensures var w' := Apply(w, Take([PutTask(t), PutPlan(p)], cut));
            WellKept(w', key) && View(w', key) == Hand(View(w, key), k, t.id, cut, p)
  {
    ApplyTake(w, [PutTask(t), PutPlan(p)], cut);
    TaskWrite(w, key, t, k);
    PlanWrite(Apply1(w, PutTask(t)), key, p);
  }

  predicate Indexed(w: World, key: PlanKey) { key in w.plans && Positions(View(w, key)) }

  /** A callback for one of the chain's own steps. */
  lemma AdvanceHits(w: World, key: PlanKey, t: Task, i: nat, id: string, now: int, cut: nat)
    requires WellKept(w, key) && Indexed(w, key) && id !in w.tasks
    requires Target(w, t) == Some((w.plans[key], i)) && t.stepIndex == Some(i)
    ensures var ws := AdvanceWrites(w, t, id, now); var w' := Apply(w, Take(ws, cut));
            && WellKept(w', key)
            && View(w', key) == After(View(w, key), Callback(t, i, id, now, cut))
            && Cost(View(w, key), Callback(t, i, id, now, cut)) == |ws|
  {
    var q := Reflect(w.plans[key], i, t, now);
    var next := NextWaiting(q.steps, q.steps[i].index + 1);
    if !t.status.Done? {
      SaveWrite(w, key, q.(status := Paused), cut);
    } else if next.None? {
      SaveWrite(w, key, q.(status := Completed), cut);
    } else {
      HandList(w, key, t, i, next.value, id, now);
      HandMove(View(w, key), t, i, next.value, id, now, cut);
      HandWrites(w, key, StepTask(q, q.steps[next.value].index, t.id, id, now), next.value,
                 Assign(q, next.value, id), cut);
    }
  }

  lemma HandList(w: World, key: PlanKey, t: Task, i: nat, k: nat, id: string, now: int)
    requires key in w.plans && Target(w, t) == Some((w.plans[key], i)) && t.status.Done? && i < |w.plans[key].steps|
    requires var q := Reflect(w.plans[key], i, t, now); NextWaiting(q.steps, q.steps[i].index + 1) == Some(k)
    ensures var q := Reflect(w.plans[key], i, t, now);
            AdvanceWrites(w, t, id, now)
              == [PutTask(StepTask(q, q.steps[k].index, t.id, id, now)), PutPlan(Assign(q, k, id))]
  {
  }

  lemma HandMove(c: Chain, t: Task, i: nat, k: nat, id: string, now: int, cut: nat)
    requires Positions(c) && t.status.Done? && i < |c.plan.steps| && !c.plan.steps[i].Terminal()
    requires var q := Reflect(c.plan, i, t, now); NextWaiting(q.steps, q.steps[i].index + 1) == Some(k)
    ensures var q := Reflect(c.plan, i, t, now);
            && After(c, Callback(t, i, id, now, cut)) == Hand(c, k, id, cut, Assign(q, k, id))
            && Cost(c, Callback(t, i, id, now, cut)) == 2
  {
  }

  lemma AdvanceRefines(w: World, key: PlanKey, e: Event)
    requires WellKept(w, key) && Indexed(w, key) && Enabled(w, key, e.op) && e.op.Advance?
    ensures Refined(w, key, e)
  {
    var Advance(t, id, now) := e.op;
    LoadHits(w, key, t.planId, "");
    var ws := AdvanceWrites(w, t, id, now);
    match Target(w, t)
    case None => ApplyTake(w, ws, e.cut);
    case Some((p, i)) =>
      if Hits(key, t.planId, "") {
        AdvanceHits(w, key, t, i, id, now, e.cut);
      } else {
        ForeignWrites(w, key, ws, e.cut);
      }
  }

  lemma ResumeRefines(w: World, key: PlanKey, e: Event)
    requires WellKept(w, key) && Indexed(w, key) && Enabled(w, key, e.op) && e.op.Resume?
    ensures Refined(w, key, e)
  {
    var Resume(planId, project, id, now) := e.op;
    LoadHits(w, key, planId, project);
    var ws := ResumeWrites(w, planId, project, id, now);
    match LoadPlan(w, planId, project)
    case None => ApplyTake(w, ws, e.cut);
    case Some(p) =>
      if Hits(key, planId, project) {
        var next := NextWaiting(p.steps, 0);
        if p.status.Completed? {
          ApplyTake(w, ws, e.cut);
        } else if next.None? {
          SaveWrite(w, key, p.(status := Completed), e.cut);
        } else {
          HandWrites(w, key, StepTask(p, p.steps[next.value].index, "", id, now), next.value,
                     Assign(p, next.value, id).(status := InProgress), e.cut);
        }
      } else {
        ForeignWrites(w, key, ws, e.cut);
      }
  }

  lemma OtherRefines(w: World, key: PlanKey, e: Event)
    requires WellKept(w, key) && Enabled(w, key, e.op) && !e.op.Advance? && !e.op.Resume?
    ensures Refined(w, key, e)
  {
    match e.op
    case Pause(planId, project, reason) =>
      LoadHits(w, key, planId, project);
      var ws := PauseWrites(w, planId, project, reason);
      if Hits(key, planId, project) { SaveWrite(w, key, ws[0].plan, e.cut); } else { ForeignWrites(w, key, ws, e.cut); }
    case Dispatch(p, id, now) => ForeignWrites(w, key, DispatchWrites(p, id, now), e.cut);
    case Lifecycle(id, te) =>
      var ws := BackgroundTasks.TaskWrites(w, id, te);
      if |ws| == 2 { ForeignWrite(w, key, ws[0]); }
      ForeignWrites(w, key, ws, e.cut);
  }

  /** One daemon operation, cut anywhere, is one allowed move of the chain. */
  predicate Refined(w: World, key: PlanKey, e: Event)
    requires key in w.plans
  {
    var m := MoveOf(w, key, e);
    && WellKept(Step(w, e), key)
    && View(Step(w, e), key) == After(View(w, key), m)
    && (Enabled(w, key, e.op) ==> Allowed(View(w, key), m))
  }

  lemma StepRefines(w: World, key: PlanKey, e: Event)
    requires WellKept(w, key) && Indexed(w, key) && Enabled(w, key, e.op)
    ensures Refined(w, key, e)
  {
    match e.op
    case Advance(_, _, _) => AdvanceRefines(w, key, e);
    case Resume(_, _, _, _) => ResumeRefines(w, key, e);
    case _ => OtherRefines(w, key, e);
  }

  // ---- Every run of a chain ----

  /** The operation is a hand-over of this chain that a crash tears between its two writes. */
  predicate Tears(w: World, key: PlanKey, e: Event) { key in w.plans && Torn(View(w, key), MoveOf(w, key, e)) }

  /** How many hand-overs of the chain are torn. A crash at any other point leaves no half of anything. */
  function Tearings(w: World, key: PlanKey, es: seq<Event>): nat
    decreases |es|
  {
    if es == [] then 0 else (if Tears(w, key, es[0]) then 1 else 0) + Tearings(Step(w, es[0]), key, es[1..])
  }

  /** A freshly persisted plan, before dispatchChain. */
  predicate Ready(w: World, key: PlanKey) { WellKept(w, key) && Fresh(View(w, key)) }

  /** The world after dispatchChain on that plan, itself possibly cut short. */
  function Launched(w: World, key: PlanKey, id: string, now: int, cut: nat): World
    requires key in w.plans
  {
    Step(w, Event(Dispatch(w.plans[key], id, now), cut))
  }

  function LaunchTear(cut: nat): nat { if cut == 1 then 1 else 0 }

  lemma LaunchRefines(w: World, key: PlanKey, id: string, now: int, cut: nat)
    requires Ready(w, key) && id !in w.tasks
    ensures WellKept(Launched(w, key, id, now, cut), key)
    ensures View(Launched(w, key, id, now, cut), key) == After(View(w, key), Launch(id, cut))
  {
    var p := w.plans[key];
    HandWrites(w, key, StepTask(p, 0, "", id, now), 0, Assign(p, 0, id).(status := InProgress), cut);
  }

  lemma {:induction false} DurableRun(w: World, key: PlanKey, es: seq<Event>, crashes: nat)
    requires WellKept(w, key) && Legal(w, key, es) && Durable(View(w, key), crashes)
    ensures WellKept(Run(w, es), key) && Durable(View(Run(w, es), key), crashes + Tearings(w, key, es))
    decreases |es|
  {
    if es != [] {
      var m := MoveOf(w, key, es[0]);
      StepRefines(w, key, es[0]);
      StaysDurable(View(w, key), m, crashes);
      var now := crashes + (if Tears(w, key, es[0]) then 1 else 0);
      assert Durable(View(Step(w, es[0]), key), now);
      DurableRun(Step(w, es[0]), key, es[1..], now);
    }
  }

  /**
   Whatever crashes happen, the persisted plan never dangles: a running step names a task record that
   exists and was created for that step. And a chain creates at most one task per step and torn hand-over.
   */
  lemma PlansNeverDangle(w: World, key: PlanKey, id: string, now: int, cut: nat, es: seq<Event>)
    requires Ready(w, key) && id !in w.tasks && Legal(Launched(w, key, id, now, cut), key, es)
    ensures var w' := Run(Launched(w, key, id, now, cut), es);
            && key in w'.plans
            && (forall i :: 0 <= i < |w'.plans[key].steps| && w'.plans[key].steps[i].status.Active? ==>
                  var taskId := w'.plans[key].steps[i].taskId;
                  && taskId.Some? && taskId.value in w'.tasks
                  && w'.tasks[taskId.value].planId == key.id
                  && w'.tasks[taskId.value].stepIndex == Some(i))
            && |Own(w', key.id)| <= |w'.plans[key].steps| + LaunchTear(cut)
              + Tearings(Launched(w, key, id, now, cut), key, es)
  {
    LaunchRefines(w, key, id, now, cut);
    LaunchDurable(View(w, key), id, cut);
    DurableRun(Launched(w, key, id, now, cut), key, es, LaunchTear(cut));
  }

  lemma {:induction false} OrderedRun(w: World, key: PlanKey, es: seq<Event>, crashes: nat)
    requires WellKept(w, key) && Legal(w, key, es) && crashes + Tearings(w, key, es) <= 1
    requires Ordered(View(w, key)) && (crashes == 0 ==> OnePerStep(View(w, key)))
    ensures WellKept(Run(w, es), key) && Ordered(View(Run(w, es), key))
    ensures crashes + Tearings(w, key, es) == 0 ==> OnePerStep(View(Run(w, es), key))
    decreases |es|
  {
    if es != [] {
      var m := MoveOf(w, key, es[0]);
      StepRefines(w, key, es[0]);
      StaysOrdered(View(w, key), m);
      OrderedRun(Step(w, es[0]), key, es[1..], crashes + (if Tears(w, key, es[0]) then 1 else 0));
    }
  }

  /** With at most one torn hand-over in the whole run, the pending steps are always a suffix of the plan. */
  lemma PendingStaysSuffix(w: World, key: PlanKey, id: string, now: int, cut: nat, es: seq<Event>)
    requires Ready(w, key) && id !in w.tasks && Legal(Launched(w, key, id, now, cut), key, es)
    requires LaunchTear(cut) + Tearings(Launched(w, key, id, now, cut), key, es) <= 1
    ensures var w' := Run(Launched(w, key, id, now, cut), es);
            && key in w'.plans
            && forall i, j :: 0 <= i < j < |w'.plans[key].steps| && w'.plans[key].steps[i].status.Waiting?
                 ==> w'.plans[key].steps[j].status.Waiting?
  {
    LaunchRefines(w, key, id, now, cut);
    LaunchOrdered(View(w, key), id, cut);
    OrderedRun(Launched(w, key, id, now, cut), key, es, LaunchTear(cut));
  }

  /**
   With no hand-over torn no step gets a second task, the tasks are exactly those of the dispatched steps,
   and the next task ever created is for the next step in order.
   */
  lemma OneTaskPerStepInOrder(w: World, key: PlanKey, id: string, now: int, cut: nat, es: seq<Event>, e: Event)
    requires Ready(w, key) && id !in w.tasks && Legal(Launched(w, key, id, now, cut), key, es)
    requires LaunchTear(cut) + Tearings(Launched(w, key, id, now, cut), key, es) == 0
    requires Enabled(Run(Launched(w, key, id, now, cut), es), key, e.op)
    ensures var w' := Run(Launched(w, key, id, now, cut), es); var own := Own(w', key.id);
            && key in w'.plans
            && (forall a, b :: a in own && b in own && own[a] == own[b] ==> a == b)
            && (forall a :: a in own ==> own[a].Some? && 0 <= own[a].value < |own|)
            && (forall i :: 0 <= i < |w'.plans[key].steps| ==> (w'.plans[key].steps[i].status.Waiting? <==> i >= |own|))
            && (forall a :: a in Own(Step(w', e), key.id) && a !in own ==> Own(Step(w', e), key.id)[a] == Some(|own|))
  {
    var w1 := Launched(w, key, id, now, cut);
    LaunchRefines(w, key, id, now, cut);
    LaunchOrdered(View(w, key), id, cut);
    OrderedRun(w1, key, es, 0);
    var w' := Run(w1, es);
    var c := View(w', key);
    forall a, b | a in c.own && b in c.own && c.own[a] == c.own[b]
      ensures a == b
    {
      NoSecondTask(c, a, b);
    }
    forall a | a in c.own
      ensures c.own[a].Some? && 0 <= c.own[a].value < |c.own|
    {
      OwnIsBehind(c, a);
    }
    StepRefines(w', key, e);
    StaysOrdered(c, MoveOf(w', key, e));
  }

  // ---- Runs without pauseChain, resumed only when paused ----

  predicate Gentle(w: World, key: PlanKey, es: seq<Event>, resumes: bool)
    requires key in w.plans
    decreases |es|
  {
    es == [] ||
    (&& Enabled(w, key, es[0].op) && !Tears(w, key, es[0])
     && !(es[0].op.Pause? && es[0].op.planId == key.id)
     && (es[0].op.Resume? && es[0].op.planId == key.id ==> resumes && w.plans[key].status.Paused?)
     && key in Step(w, es[0]).plans && Gentle(Step(w, es[0]), key, es[1..], resumes))
  }

  lemma {:induction false} ShapedRun(w: World, key: PlanKey, es: seq<Event>, resumes: bool)
    requires WellKept(w, key) && Gentle(w, key, es, resumes) && Shaped(View(w, key))
    ensures WellKept(Run(w, es), key) && Shaped(View(Run(w, es), key))
    ensures Unbroken(w.plans[key]) && !resumes ==> Unbroken(Run(w, es).plans[key])
    decreases |es|
  {
    if es != [] {
      StepRefines(w, key, es[0]);
      StaysShaped(View(w, key), MoveOf(w, key, es[0]));
      ShapedRun(Step(w, es[0]), key, es[1..], resumes);
    }
  }

  lemma GentleShape(w: World, key: PlanKey, id: string, now: int, es: seq<Event>, resumes: bool)
    requires Ready(w, key) && id !in w.tasks && key in Launched(w, key, id, now, 2).plans
    requires Gentle(Launched(w, key, id, now, 2), key, es, resumes)
    ensures var w' := Run(Launched(w, key, id, now, 2), es);
            key in w'.plans && Shape(w'.plans[key]) && (!resumes ==> Unbroken(w'.plans[key]))
  {
    LaunchRefines(w, key, id, now, 2);
    LaunchShaped(View(w, key), id, 2);
    ShapedRun(Launched(w, key, id, now, 2), key, es, resumes);
  }

  /**
   Such a run keeps the plan in the form (done|failed)* running? pending*: it is in_progress exactly
   while a step runs, and completed only when every step has ended.
   */
  lemma GentleRunsKeepShape(w: World, key: PlanKey, id: string, now: int, es: seq<Event>, i: nat, j: nat)
    requires Ready(w, key) && id !in w.tasks && key in Launched(w, key, id, now, 2).plans
    requires Gentle(Launched(w, key, id, now, 2), key, es, true)
    ensures var w' := Run(Launched(w, key, id, now, 2), es);
            key in w'.plans && WellFormedChain(w'.plans[key], i, j)
  {
    GentleShape(w, key, id, now, es, true);
    ShapeMeans(Run(Launched(w, key, id, now, 2), es).plans[key], i, j);
  }

  /** Never resumed either: a dispatched step has all earlier steps done, and completed means all done. */
  lemma NoStepBeforeItsPredecessors(w: World, key: PlanKey, id: string, now: int, es: seq<Event>, i: nat, j: nat)
    requires Ready(w, key) && id !in w.tasks && key in Launched(w, key, id, now, 2).plans
    requires Gentle(Launched(w, key, id, now, 2), key, es, false)
    ensures var w' := Run(Launched(w, key, id, now, 2), es);
            && key in w'.plans
            && var p := w'.plans[key];
            && (i < j < |p.steps| && !p.steps[j].status.Waiting? ==> p.steps[i].status.Succeeded?)
            && (p.status.Completed? && i < |p.steps| ==> p.steps[i].status.Succeeded?)
  {
    GentleShape(w, key, id, now, es, false);
    UnbrokenMeans(Run(Launched(w, key, id, now, 2), es).plans[key], i, j);
  }

  // ---- What happened to each step ----

  /** One operation as one move, with the new world under a name of its own. */
  lemma OneMove(w: World, key: PlanKey, e: Event) returns (w': World)
    requires WellKept(w, key) && Indexed(w, key) && Enabled(w, key, e.op)
    ensures w' == Step(w, e) && WellKept(w', key) && Indexed(w', key)
    ensures View(w', key) == After(View(w, key), MoveOf(w, key, e)) && Allowed(View(w, key), MoveOf(w, key, e))
    ensures !MoveOf(w, key, e).Launch?
  {
    w' := Step(w, e);
    StepRefines(w, key, e);
    PositionsStay(View(w, key), MoveOf(w, key, e));
  }

  /** A step that has ended stays exactly as it is, in every run. */
  lemma {:induction false} EndedStepsStay(w: World, key: PlanKey, es: seq<Event>, i: nat)
    requires WellKept(w, key) && Indexed(w, key) && Legal(w, key, es)
    requires i < |w.plans[key].steps| && w.plans[key].steps[i].Terminal()
    ensures WellKept(Run(w, es), key) && i < |Run(w, es).plans[key].steps|
    ensures Run(w, es).plans[key].steps[i] == w.plans[key].steps[i]
    decreases |es|
  {
    if es != [] {
      var w' := OneMove(w, key, es[0]);
      TerminalStays(View(w, key), MoveOf(w, key, es[0]), i);
      EndedStepsStay(w', key, es[1..], i);
    }
  }

  /** A callback for a step that has ended writes nothing. */
  lemma EndedStepsIgnoreCallbacks(w: World, key: PlanKey, i: nat, t: Task, id: string, now: int)
    requires WellKept(w, key) && i < |w.plans[key].steps| && w.plans[key].steps[i].Terminal()
    requires t.planId == key.id && t.stepIndex == Some(i)
    ensures AdvanceWrites(w, t, id, now) == []
  {
    LoadHits(w, key, t.planId, "");
  }

  /**
   Once a callback for a step has taken effect, any other for that step writes nothing: at once or late,
   after any run of other operations, and whatever it reports.
   */
  lemma DuplicateCallbackIsIgnored(w: World, key: PlanKey, t: Task, i: nat, id: string, now: int, es: seq<Event>,
                                   t2: Task, id2: string, later: int)
    requires WellKept(w, key) && Indexed(w, key) && key.project == "" && t.planId == key.id && t.stepIndex == Some(i)
    requires i < |w.plans[key].steps|
    requires Enabled(w, key, Advance(t, id, now)) && Legal(Step(w, Event(Advance(t, id, now), 2)), key, es)
    requires t2.planId == t.planId && t2.stepIndex == t.stepIndex
    ensures AdvanceWrites(Run(Step(w, Event(Advance(t, id, now), 2)), es), t2, id2, later) == []
  {
    var w' := OneMove(w, key, Event(Advance(t, id, now), 2));
    CallbackEnds(View(w, key), t, i, id, now);
    EndedStepsStay(w', key, es, i);
    EndedStepsIgnoreCallbacks(Run(w', es), key, i, t2, id2, later);
  }

  lemma CallbackEnds(c: Chain, t: Task, i: nat, id: string, now: int)
    requires Positions(c) && i < |c.plan.steps|
    ensures After(c, Callback(t, i, id, now, 2)).plan.steps[i].Terminal()
  {
  }

  predicate FailsAt(w: World, key: PlanKey, e: Event) { key in w.plans && Fails(View(w, key), MoveOf(w, key, e)) }

  /** How many callbacks that took effect reported a failure. */
  function Failures(w: World, key: PlanKey, es: seq<Event>): nat
    decreases |es|
  {
    if es == [] then 0 else (if FailsAt(w, key, es[0]) then 1 else 0) + Failures(Step(w, es[0]), key, es[1..])
  }

  predicate AnyBroken(p: Plan) { exists i :: 0 <= i < |p.steps| && p.steps[i].status.Broken? }

  predicate NoneSkipped(p: Plan) { forall i :: 0 <= i < |p.steps| ==> !p.steps[i].status.Skipped? }

  predicate AllSucceeded(p: Plan) { forall i :: 0 <= i < |p.steps| ==> p.steps[i].status.Succeeded? }

  lemma BrokenMove(c: Chain, m: Move)
    requires !m.Launch? && Positions(c)
    ensures AnyBroken(After(c, m).plan) <==> AnyBroken(c.plan) || Fails(c, m)
    ensures NoneSkipped(c.plan) ==> NoneSkipped(After(c, m).plan)
  {
    var c' := After(c, m);
    PositionsStay(c, m);
    forall i | 0 <= i < |c.plan.steps|
      ensures c'.plan.steps[i].status.Broken? <==> c.plan.steps[i].status.Broken? || (Fails(c, m) && m.i == i)
      ensures c'.plan.steps[i].status.Skipped? <==> c.plan.steps[i].status.Skipped?
    {
      FailureIsReported(c, m, i);
    }
    if Fails(c, m) { assert c'.plan.steps[m.i].status.Broken?; }
    if AnyBroken(c.plan) {
      var i :| 0 <= i < |c.plan.steps| && c.plan.steps[i].status.Broken?;
      assert c'.plan.steps[i].status.Broken?;
    }
  }

  lemma {:induction false} BrokenRun(w: World, key: PlanKey, es: seq<Event>)
    requires WellKept(w, key) && Indexed(w, key) && Legal(w, key, es) && NoneSkipped(w.plans[key])
    ensures WellKept(Run(w, es), key) && NoneSkipped(Run(w, es).plans[key])
    ensures AnyBroken(Run(w, es).plans[key]) <==> AnyBroken(w.plans[key]) || Failures(w, key, es) > 0
    decreases |es|
  {
    if es != [] {
      var w' := OneMove(w, key, es[0]);
      BrokenMove(View(w, key), MoveOf(w, key, es[0]));
      BrokenRun(w', key, es[1..]);
    }
  }

  /**
   In every run from its launch, whatever crashes: all steps have succeeded exactly when all have ended and no
   callback that took effect reported a failure.
   */
  lemma SuccessExactly(w: World, key: PlanKey, id: string, now: int, cut: nat, es: seq<Event>)
    requires Ready(w, key) && id !in w.tasks && Legal(Launched(w, key, id, now, cut), key, es)
    ensures var w1 := Launched(w, key, id, now, cut);
            && key in Run(w1, es).plans
            && var p := Run(w1, es).plans[key];
               AllSucceeded(p) <==> AllEnded(p) && Failures(w1, key, es) == 0
  {
    var w1 := Launched(w, key, id, now, cut);
    LaunchRefines(w, key, id, now, cut);
    assert NoneSkipped(w1.plans[key]) && !AnyBroken(w1.plans[key]) && Indexed(w1, key);
    BrokenRun(w1, key, es);
    EndedWell(Run(w1, es).plans[key]);
  }

  lemma EndedWell(p: Plan)
    requires NoneSkipped(p)
    ensures AllSucceeded(p) <==> AllEnded(p) && !AnyBroken(p)
  {
    if AllEnded(p) && !AnyBroken(p) {
      forall i | 0 <= i < |p.steps|
        ensures p.steps[i].status.Succeeded?
      {
        assert p.steps[i].Terminal();
      }
    }
  }

  // ---- Resumes of a chain that still runs ----

  /** At some point two steps run at once, or the plan counts as completed although a step has not ended. */
  predicate EverMuddled(w: World, key: PlanKey, es: seq<Event>)
    decreases |es|
  {
    (key in w.plans && Muddled(w.plans[key])) || (es != [] && EverMuddled(Step(w, es[0]), key, es[1..]))
  }

  /** At some point the chain is resumed, with effect, while one of its steps runs. */
  predicate EverResumedRunning(w: World, key: PlanKey, es: seq<Event>)
    decreases |es|
  {
    es != [] &&
    ((key in w.plans && ResumesRunning(View(w, key), MoveOf(w, key, es[0])))
     || EverResumedRunning(Step(w, es[0]), key, es[1..]))
  }

  lemma {:induction false} MuddledRun(w: World, key: PlanKey, es: seq<Event>)
    requires WellKept(w, key) && Legal(w, key, es) && Tearings(w, key, es) == 0
    requires OnePerStep(View(w, key)) && !Muddled(w.plans[key])
    ensures EverMuddled(w, key, es) <==> EverResumedRunning(w, key, es)
    ensures !EverResumedRunning(w, key, es) ==> key in Run(w, es).plans && !Muddled(Run(w, es).plans[key])
    decreases |es|
  {
    if es != [] {
      var m := MoveOf(w, key, es[0]);
      var w' := OneMove(w, key, es[0]);
      StaysOrdered(View(w, key), m);
      MuddledExactly(View(w, key), m);
      if ResumesRunning(View(w, key), m) {
        assert EverMuddled(w', key, es[1..]);
      } else {
        MuddledRun(w', key, es[1..]);
      }
    }
  }

  /**
   In a run without a torn hand-over, paused or not, two steps run at once or the plan is completed over an
   unfinished step exactly when resumeChain is called, with effect, while a step runs.
   */
  lemma MuddledExactlyWhenResumedRunning(w: World, key: PlanKey, id: string, now: int, cut: nat, es: seq<Event>)
    requires Ready(w, key) && id !in w.tasks && Legal(Launched(w, key, id, now, cut), key, es)
    requires LaunchTear(cut) + Tearings(Launched(w, key, id, now, cut), key, es) == 0
    ensures var w1 := Launched(w, key, id, now, cut);
            && (EverMuddled(w1, key, es) <==> EverResumedRunning(w1, key, es))
            && (!EverResumedRunning(w1, key, es) ==> key in Run(w1, es).plans && !Muddled(Run(w1, es).plans[key]))
  {
    LaunchRefines(w, key, id, now, cut);
    LaunchOrdered(View(w, key), id, cut);
    MuddledRun(Launched(w, key, id, now, cut), key, es);
  }

  /**
   A chain never resumed while it runs: once completed, all its steps have succeeded exactly when no callback
   that took effect reported a failure.
   */
  lemma CompletedMeansSuccessExactly(w: World, key: PlanKey, id: string, now: int, cut: nat, es: seq<Event>)
    requires Ready(w, key) && id !in w.tasks && Legal(Launched(w, key, id, now, cut), key, es)
    requires LaunchTear(cut) + Tearings(Launched(w, key, id, now, cut), key, es) == 0
    requires !EverResumedRunning(Launched(w, key, id, now, cut), key, es)
    ensures var w1 := Launched(w, key, id, now, cut);
            && key in Run(w1, es).plans
            && var p := Run(w1, es).plans[key];
               p.status.Completed? ==> (AllSucceeded(p) <==> Failures(w1, key, es) == 0)
  {
    MuddledExactlyWhenResumedRunning(w, key, id, now, cut, es);
    SuccessExactly(w, key, id, now, cut, es);
  }

  /** A chain never paused by hand and resumed only when paused is never resumed while it runs. */
  lemma {:induction false} GentleRunsAreNotMuddled(w: World, key: PlanKey, es: seq<Event>, resumes: bool)
    requires WellKept(w, key) && Gentle(w, key, es, resumes) && Shaped(View(w, key))
    ensures Legal(w, key, es) && Tearings(w, key, es) == 0 && !EverResumedRunning(w, key, es)
    decreases |es|
  {
    if es != [] {
      var w' := GentleStep(w, key, es[0], resumes);
      GentleRunsAreNotMuddled(w', key, es[1..], resumes);
    }
  }

  lemma GentleStep(w: World, key: PlanKey, e: Event, resumes: bool) returns (w': World)
    requires WellKept(w, key) && Gentle(w, key, [e], resumes) && Shaped(View(w, key))
    ensures w' == Step(w, e) && WellKept(w', key) && Shaped(View(w', key))
    ensures Enabled(w, key, e.op) && !ResumesRunning(View(w, key), MoveOf(w, key, e)) && !Tears(w, key, e)
  {
    w' := Step(w, e);
    StepRefines(w, key, e);
    StaysShaped(View(w, key), MoveOf(w, key, e));
    PausedRunsNothing(View(w, key), MoveOf(w, key, e));
  }

  // ---- Which steps get a second task ----

  predicate HandsAt(w: World, key: PlanKey, e: Event, i: nat) {
    key in w.plans && HandsTo(View(w, key), MoveOf(w, key, e)) == Some(i)
  }

  /** How often step i is handed to a task, and how often such a hand-over is torn. */
  function Hands(w: World, key: PlanKey, es: seq<Event>, i: nat): nat
    decreases |es|
  {
    if es == [] then 0 else (if HandsAt(w, key, es[0], i) then 1 else 0) + Hands(Step(w, es[0]), key, es[1..], i)
  }

  function TornHands(w: World, key: PlanKey, es: seq<Event>, i: nat): nat
    decreases |es|
  {
    if es == [] then 0
    else
      (if HandsAt(w, key, es[0], i) && Tears(w, key, es[0]) then 1 else 0)
      + TornHands(Step(w, es[0]), key, es[1..], i)
  }

  function TasksFor(own: map<string, Option<int>>, i: nat): set<string> { set id | id in own && own[id] == Some(i) }

  lemma OneMoreTask(own: map<string, Option<int>>, id: string, k: nat, i: nat)
    requires id !in own
    ensures |TasksFor(own[id := Some(k)], i)| == |TasksFor(own, i)| + if k == i then 1 else 0
  {
    assert TasksFor(own[id := Some(k)], i) == TasksFor(own, i) + if k == i then {id} else {};
  }

  lemma HandsMove(c: Chain, m: Move, i: nat)
    requires Positions(c) && Allowed(c, m) && !m.Launch? && i < |c.plan.steps|
    ensures |TasksFor(After(c, m).own, i)| == |TasksFor(c.own, i)| + if HandsTo(c, m) == Some(i) then 1 else 0
    ensures HandsTo(c, m) == Some(i) ==> c.plan.steps[i].status.Waiting?
    ensures HandsTo(c, m) == Some(i) && !Torn(c, m) ==> !After(c, m).plan.steps[i].status.Waiting?
    ensures i < |After(c, m).plan.steps|
      && (After(c, m).plan.steps[i].status.Waiting? ==> c.plan.steps[i].status.Waiting?)
  {
    PositionsStay(c, m);
    HandsExactly(c, m);
    if HandsTo(c, m).Some? { OneMoreTask(c.own, m.id, HandsTo(c, m).value, i); }
    if !c.plan.steps[i].status.Waiting? { WaitingNeverReturns(c, m, i); }
  }

  /** Tasks are counted by hand-overs, and all but the last of them were torn. */
  lemma {:induction false} HandsRun(w: World, key: PlanKey, es: seq<Event>, i: nat)
    requires WellKept(w, key) && Indexed(w, key) && Legal(w, key, es) && i < |w.plans[key].steps|
    ensures |TasksFor(Own(Run(w, es), key.id), i)| == |TasksFor(Own(w, key.id), i)| + Hands(w, key, es, i)
    ensures Hands(w, key, es, i) <= TornHands(w, key, es, i) + if w.plans[key].steps[i].status.Waiting? then 1 else 0
    decreases |es|
  {
    if es != [] {
      var w' := OneMove(w, key, es[0]);
      HandsMove(View(w, key), MoveOf(w, key, es[0]), i);
      HandsRun(w', key, es[1..], i);
    }
  }

  function LaunchHands(cut: nat, i: nat): nat { if cut > 0 && i == 0 then 1 else 0 }

  function LaunchTorn(cut: nat, i: nat): nat { if cut == 1 && i == 0 then 1 else 0 }

  /**
   In every run a step has two tasks exactly when a hand-over of that step was torn and the step was handed
   on once more.
   */
  lemma SecondTaskExactly(w: World, key: PlanKey, id: string, now: int, cut: nat, es: seq<Event>, i: nat)
    requires Ready(w, key) && id !in w.tasks && Legal(Launched(w, key, id, now, cut), key, es)
    requires i < |w.plans[key].steps|
    ensures var w1 := Launched(w, key, id, now, cut); var tasks := TasksFor(Own(Run(w1, es), key.id), i);
            (exists a, b :: a in tasks && b in tasks && a != b)
            <==> && LaunchTorn(cut, i) + TornHands(w1, key, es, i) >= 1
                 && LaunchHands(cut, i) + Hands(w1, key, es, i) >= 2
  {
    var w1 := Launched(w, key, id, now, cut);
    LaunchRefines(w, key, id, now, cut);
    var c := View(w, key);
    PositionsStay(c, Launch(id, cut));
    assert TasksFor(c.own, i) == {};
    OneMoreTask(c.own, id, 0, i);
    HandsRun(w1, key, es, i);
    TwoElements(TasksFor(Own(Run(w1, es), key.id), i));
  }

  // ---- What the code does not promise ----

  /** A pause changes no callback's task. */
  lemma SameTaskAfterPause(w: World, t: Task, reason: string, id: string, now: int)
    requires t.planId != "" && PlanKey("", t.planId) in w.plans
      && KeyOf(w.plans[PlanKey("", t.planId)]) == PlanKey("", t.planId)
    ensures var paused := Apply(w, PauseWrites(w, t.planId, "", reason));
            && PlanKey("", t.planId) in paused.plans && paused.plans[PlanKey("", t.planId)].status.Paused?
            && CreatedTask(AdvanceWrites(paused, t, id, now)) == CreatedTask(AdvanceWrites(w, t, id, now))
  {
    ApplyOne(w, PauseWrites(w, t.planId, "", reason)[0]);
  }

  /** The running step reports success on a chain in progress. */
  predicate Succeeds(p: Plan, t: Task) {
    && Shape(p) && p.status.InProgress? && (forall i :: 0 <= i < |p.steps| ==> p.steps[i].index == i)
    && t.planId == p.id && t.stepIndex == Some(Front(p.steps) - 1) && t.status.Done?
  }

  /**
   pauseChain does not gate the chain: after a pause the running step's success creates a task exactly when a
   step is left, and it is the task of that step that would have been created without the pause.
   */
  lemma PauseDoesNotGate(w: World, key: PlanKey, t: Task, reason: string, id: string, now: int)
    requires WellKept(w, key) && key.project == "" && Succeeds(w.plans[key], t)
    ensures var f, n := Front(w.plans[key].steps), |w.plans[key].steps|;
            var paused := Apply(w, PauseWrites(w, key.id, "", reason));
            var task := CreatedTask(AdvanceWrites(paused, t, id, now));
            && key in paused.plans && paused.plans[key].status.Paused?
            && (task.Some? <==> f < n)
            && task == CreatedTask(AdvanceWrites(w, t, id, now))
            && (task.Some? ==> task.value.planId == key.id && task.value.stepIndex == Some(f))
  {
    SameTaskAfterPause(w, t, reason, id, now);
    SuccessCreates(w, key, t, id, now);
  }

  lemma SuccessCreates(w: World, key: PlanKey, t: Task, id: string, now: int)
    requires WellKept(w, key) && key.project == "" && Succeeds(w.plans[key], t)
    ensures var f, task := Front(w.plans[key].steps), CreatedTask(AdvanceWrites(w, t, id, now));
            && (task.Some? <==> f < |w.plans[key].steps|)
            && (task.Some? ==> task.value.planId == key.id && task.value.stepIndex == Some(f))
  {
    LoadHits(w, key, key.id, "");
    var p, f := w.plans[key], Front(w.plans[key].steps);
    assert Target(w, t) == Some((p, f - 1));
    var q := Reflect(p, f - 1, t, now);
    FrontIs(q.steps, f);
    assert q.steps[f - 1].index == f - 1;
  }

  /**
   advanceChain looks only in the global plan directory. A callback for a step that is still open
   therefore reaches the chain exactly when its plan has no project directory.
   */
  lemma CallbackReachesOnlyGlobalPlans(w: World, key: PlanKey, t: Task, i: nat, id: string, now: int)
    requires WellKept(w, key) && t.planId == key.id && t.stepIndex == Some(i)
    requires i < |w.plans[key].steps| && !w.plans[key].steps[i].Terminal()
    ensures AdvanceWrites(w, t, id, now) != [] <==> key.project == ""
  {
    LoadHits(w, key, t.planId, "");
  }

  predicate Untouched(key: PlanKey, es: seq<Event>) {
    forall k :: 0 <= k < |es| ==>
      !(es[k].op.Pause? && es[k].op.planId == key.id) && !(es[k].op.Resume? && es[k].op.planId == key.id)
  }

  lemma {:induction false} ProjectPlanIdles(w: World, key: PlanKey, es: seq<Event>)
    requires WellKept(w, key) && Indexed(w, key) && key.project != "" && Legal(w, key, es) && Untouched(key, es)
    ensures key in Run(w, es).plans && Run(w, es).plans[key] == w.plans[key]
    decreases |es|
  {
    if es != [] {
      StepRefines(w, key, es[0]);
      assert MoveOf(w, key, es[0]) == Idle;
      assert View(Step(w, es[0]), key) == View(w, key);
      forall k | 0 <= k < |es[1..]|
        ensures !(es[1..][k].op.Pause? && es[1..][k].op.planId == key.id)
          && !(es[1..][k].op.Resume? && es[1..][k].op.planId == key.id)
      {
        assert es[1..][k] == es[k + 1];
      }
      ProjectPlanIdles(Step(w, es[0]), key, es[1..]);
    }
  }

  /** So a chain kept with its project stays at step 0, running, until someone resumes it. */
  lemma ProjectChainsDoNotAdvance(w: World, key: PlanKey, id: string, now: int, es: seq<Event>)
    requires Ready(w, key) && key.project != "" && id !in w.tasks
    requires Legal(Launched(w, key, id, now, 2), key, es) && Untouched(key, es)
    ensures var w' := Run(Launched(w, key, id, now, 2), es);
            && key in w'.plans
            && w'.plans[key] == Assign(w.plans[key], 0, id).(status := InProgress)
  {
    LaunchRefines(w, key, id, now, 2);
    LaunchOrdered(View(w, key), id, 2);
    ProjectPlanIdles(Launched(w, key, id, now, 2), key, es);
  }

  lemma RunOne(w: World, key: PlanKey, e: Event)
    ensures Run(w, [e]) == Step(w, e)
    ensures Legal(w, key, [e]) <==> Enabled(w, key, e.op)
    ensures Tearings(w, key, [e]) == if Tears(w, key, e) then 1 else 0
  {
    assert [e][1..] == [];
  }

  lemma RunMore(w: World, key: PlanKey, e: Event, rest: seq<Event>)
    ensures Run(w, [e] + rest) == Run(Step(w, e), rest)
    ensures Legal(w, key, [e] + rest) <==> Enabled(w, key, e.op) && Legal(Step(w, e), key, rest)
    ensures Tearings(w, key, [e] + rest) == (if Tears(w, key, e) then 1 else 0) + Tearings(Step(w, e), key, rest)
  {
    assert ([e] + rest)[1..] == rest;
  }

  /** The task `t` of step `i` as it reports its end. */
  function Report(p: Plan, i: nat, parent: string, t: string, now: int, ok: bool): Task {
    var status := if ok then TaskStatus.Done else TaskStatus.Failed;
    StepTask(p, i, parent, t, now).(status := status, completedAt := Some(now))
  }

  function ReportEvent(p: Plan, i: nat, parent: string, t: string, now: int, ok: bool, id: string, cut: nat): Event {
    Event(Advance(Report(p, i, parent, t, now, ok), id, now), cut)
  }

  /** The report of an own task is a callback move, and draws no other identifier than its own. */
  lemma ReportMoves(w: World, key: PlanKey, p: Plan, i: nat, parent: string, t: string, now: int, ok: bool,
                    id: string, cut: nat) returns (w': World)
    requires WellKept(w, key) && Indexed(w, key) && key.project == "" && p.id == key.id && i < |w.plans[key].steps|
    requires t in Own(w, key.id) && Own(w, key.id)[t] == Some(i) && id !in w.tasks
    ensures var e := ReportEvent(p, i, parent, t, now, ok, id, cut);
            var m := Callback(Report(p, i, parent, t, now, ok), i, id, now, cut);
            && w' == Step(w, e) && Enabled(w, key, e.op) && WellKept(w', key) && Indexed(w', key)
            && View(w', key) == After(View(w, key), m) && (Tears(w, key, e) <==> Torn(View(w, key), m))
            && w'.tasks.Keys <= w.tasks.Keys + {id}
  {
    var e := ReportEvent(p, i, parent, t, now, ok, id, cut);
    w' := OneMove(w, key, e);
    AdvanceDraws(w, e.op.task, id, now, cut);
  }

  lemma AdvanceDraws(w: World, t: Task, id: string, now: int, cut: nat)
    ensures Apply(w, Take(AdvanceWrites(w, t, id, now), cut)).tasks.Keys <= w.tasks.Keys + {id}
  {
    ApplyTake(w, AdvanceWrites(w, t, id, now), cut);
  }

  lemma PauseMoves(w: World, key: PlanKey, reason: string) returns (w': World)
    requires WellKept(w, key) && Indexed(w, key)
    ensures var e := Event(Pause(key.id, key.project, reason), 2);
            && w' == Step(w, e) && Enabled(w, key, e.op) && WellKept(w', key) && Indexed(w', key)
            && View(w', key) == After(View(w, key), Halt(reason, 2)) && !Tears(w, key, e)
            && w'.tasks.Keys <= w.tasks.Keys
  {
    w' := OneMove(w, key, Event(Pause(key.id, key.project, reason), 2));
    ApplyTake(w, PauseWrites(w, key.id, key.project, reason), 2);
  }

  lemma ResumeMoves(w: World, key: PlanKey, id: string, now: int) returns (w': World)
    requires WellKept(w, key) && Indexed(w, key) && id !in w.tasks
    ensures var e := Event(Resume(key.id, key.project, id, now), 2);
            && w' == Step(w, e) && Enabled(w, key, e.op) && WellKept(w', key) && Indexed(w', key)
            && View(w', key) == After(View(w, key), Restart(id, 2)) && !Tears(w, key, e)
            && w'.tasks.Keys <= w.tasks.Keys + {id}
  {
    w' := OneMove(w, key, Event(Resume(key.id, key.project, id, now), 2));
    ApplyTake(w, ResumeWrites(w, key.id, key.project, id, now), 2);
  }

  /** The second step of two is pending, the first is not: a resume hands it on, whatever became of the first. */
  lemma ResumedPastTheFirst(c: Chain, b: string)
    requires Positions(c) && |c.plan.steps| == 2 && !c.plan.status.Completed?
    requires !c.plan.steps[0].status.Waiting? && c.plan.steps[1].status.Waiting?
    ensures After(c, Restart(b, 2)) == Chain(Assign(c.plan, 1, b).(status := InProgress), c.own[b := Some(1)])
  {
    assert NextWaiting(c.plan.steps, 0) == Some(1);
  }

  /** It succeeds, and the plan is completed. */
  lemma CompletedPastTheFirst(c: Chain, t: Task, f: string, now: int)
    requires Positions(c) && |c.plan.steps| == 2 && t.status.Done? && c.plan.steps[1].status.Active?
    ensures var c', m := After(c, Callback(t, 1, f, now, 2)), Callback(t, 1, f, now, 2);
            && !Torn(c, m) && c'.plan.status.Completed? && |c'.plan.steps| == 2
            && c'.plan.steps[0] == c.plan.steps[0] && c'.plan.steps[1].status.Succeeded?
  {
    var q := Reflect(c.plan, 1, t, now);
    assert q.steps[1].index == 1 && NextWaiting(q.steps, 2) == None;
  }

  /** The first step fails. */
  lemma FirstStepFails(c: Chain, t: Task, d: string, now: int)
    requires Positions(c) && |c.plan.steps| == 2 && t.status.Failed?
    requires c.plan.steps[0].status.Active? && c.plan.steps[1].status.Waiting?
    ensures var c', m := After(c, Callback(t, 0, d, now, 2)), Callback(t, 0, d, now, 2);
            && !Torn(c, m) && c'.plan.status.Paused? && |c'.plan.steps| == 2 && c'.own == c.own
            && c'.plan.steps[0].status.Broken? && c'.plan.steps[1].status.Waiting?
  {
  }

  /** The plan of `w` is completed, its second step done and its first one `status`. */
  predicate CompletedOver(w: World, key: PlanKey, status: StepStatus) {
    key in w.plans
    && var p := w.plans[key];
       p.status.Completed? && |p.steps| == 2 && p.steps[0].status == status && p.steps[1].status.Succeeded?
  }

  lemma ResumeAndFinish(w: World, key: PlanKey, p: Plan, b: string, f: string, now: int) returns (w2: World)
    requires WellKept(w, key) && Indexed(w, key) && key.project == "" && p.id == key.id
    requires b !in w.tasks && f !in w.tasks && b != f
    requires |w.plans[key].steps| == 2 && !w.plans[key].status.Completed?
    requires !w.plans[key].steps[0].status.Waiting? && w.plans[key].steps[1].status.Waiting?
    ensures var resume := Event(Resume(key.id, key.project, b, now), 2);
            var report := ReportEvent(p, 1, "", b, now, true, f, 2);
            && w2 == Step(w, resume) && key in w2.plans
            && (w.plans[key].steps[0].status.Active? ==> TwoActive(w2.plans[key]))
            && var es := [resume] + [report];
               Legal(w, key, es) && Tearings(w, key, es) == 0
               && CompletedOver(Run(w, es), key, w.plans[key].steps[0].status)
  {
    ResumedPastTheFirst(View(w, key), b);
    w2 := ResumeMoves(w, key, b, now);
    if w.plans[key].steps[0].status.Active? { assert w2.plans[key].steps[0].status.Active?; }
    CompletedPastTheFirst(View(w2, key), Report(p, 1, "", b, now, true), f, now);
    var w3 := ReportMoves(w2, key, p, 1, "", b, now, true, f, 2);
    RunOne(w2, key, ReportEvent(p, 1, "", b, now, true, f, 2));
    RunMore(w, key, Event(Resume(key.id, key.project, b, now), 2), [ReportEvent(p, 1, "", b, now, true, f, 2)]);
  }

  /**
   resumeChain never retries. In this run, without a crash and resumed only when paused, a plan of two steps
   is completed although its first step failed.
   */
  lemma ResumeCompletesPastAFailure(w: World, key: PlanKey, a: string, b: string, d: string, f: string, now: int)
    requires Ready(w, key) && key.project == "" && |w.plans[key].steps| == 2
    requires {a, b, d, f} !! w.tasks.Keys && a !in {b, d, f} && b !in {d, f} && d != f
    ensures var p, w1 := w.plans[key], Launched(w, key, a, now, 2);
            var es := [ReportEvent(p, 0, "", a, now, false, d, 2)]
                      + ([Event(Resume(key.id, key.project, b, now), 2)] + [ReportEvent(p, 1, "", b, now, true, f, 2)]);
            Legal(w1, key, es) && Tearings(w1, key, es) == 0 && CompletedOver(Run(w1, es), key, Broken)
  {
    var p := w.plans[key];
    var w1, w2 := FailedAtOnce(w, key, a, d, now);
    var w3 := ResumeAndFinish(w2, key, p, b, f, now);
    RunMore(w1, key, ReportEvent(p, 0, "", a, now, false, d, 2),
            [Event(Resume(key.id, key.project, b, now), 2)] + [ReportEvent(p, 1, "", b, now, true, f, 2)]);
  }

  lemma FailedAtOnce(w: World, key: PlanKey, a: string, d: string, now: int) returns (w1: World, w2: World)
    requires Ready(w, key) && key.project == "" && |w.plans[key].steps| == 2 && {a, d} !! w.tasks.Keys && a != d
    ensures var e := ReportEvent(w.plans[key], 0, "", a, now, false, d, 2);
            && w1 == Launched(w, key, a, now, 2) && w2 == Step(w1, e) && Enabled(w1, key, e.op) && !Tears(w1, key, e)
    ensures WellKept(w2, key) && Indexed(w2, key) && w2.tasks.Keys <= w.tasks.Keys + {a, d}
    ensures var p := w2.plans[key];
            |p.steps| == 2 && p.status.Paused? && p.steps[0].status.Broken? && p.steps[1].status.Waiting?
  {
    var p := w.plans[key];
    w1 := Launched(w, key, a, now, 2);
    LaunchDraws(w, key, a, now, 2);
    assert View(w1, key) == Chain(Assign(p, 0, a).(status := InProgress), map[a := Some(0)]);
    FirstStepFails(View(w1, key), Report(p, 0, "", a, now, false), d, now);
    w2 := ReportMoves(w1, key, p, 0, "", a, now, false, d, 2);
  }

  /** The launched chain: its view, and that only the one identifier was drawn. */
  lemma LaunchDraws(w: World, key: PlanKey, a: string, now: int, cut: nat)
    requires Ready(w, key) && a !in w.tasks
    ensures var w1 := Launched(w, key, a, now, cut);
            && WellKept(w1, key) && Indexed(w1, key)
            && View(w1, key) == After(Chain(w.plans[key], map[]), Launch(a, cut))
            && w1.tasks.Keys <= w.tasks.Keys + {a}
  {
    LaunchRefines(w, key, a, now, cut);
    PositionsStay(View(w, key), Launch(a, cut));
    ApplyTake(w, DispatchWrites(w.plans[key], a, now), cut);
    assert View(w, key) == Chain(w.plans[key], map[]);
  }

  /** A chain of at least two steps is launched and paused at once: the first runs, the second is pending. */
  lemma PausedAtOnce(w: World, key: PlanKey, a: string, reason: string, now: int) returns (w1: World, w2: World)
    requires Ready(w, key) && a !in w.tasks && |w.plans[key].steps| >= 2
    ensures var e := Event(Pause(key.id, key.project, reason), 2);
            && w1 == Launched(w, key, a, now, 2) && w2 == Step(w1, e) && Enabled(w1, key, e.op) && !Tears(w1, key, e)
    ensures WellKept(w2, key) && Indexed(w2, key) && w2.tasks.Keys <= w.tasks.Keys + {a}
    ensures var c := View(w2, key);
            && |c.plan.steps| == |w.plans[key].steps| && c.own == map[a := Some(0)] && c.plan.status.Paused?
            && c.plan.steps[0].status.Active? && c.plan.steps[1].status.Waiting?
  {
    w1 := Launched(w, key, a, now, 2);
    LaunchDraws(w, key, a, now, 2);
    PausedLaunch(w.plans[key], a, reason);
    w2 := PauseMoves(w1, key, reason);
  }

  lemma PausedLaunch(p: Plan, a: string, reason: string)
    requires Fresh(Chain(p, map[])) && |p.steps| >= 2
    ensures var c := After(After(Chain(p, map[]), Launch(a, 2)), Halt(reason, 2));
            && |c.plan.steps| == |p.steps| && c.own == map[a := Some(0)] && c.plan.status.Paused?
            && c.plan.steps[0].status.Active? && c.plan.steps[1].status.Waiting?
  {
    assert After(Chain(p, map[]), Launch(a, 2)) == Chain(Assign(p, 0, a).(status := InProgress), map[a := Some(0)]);
  }

  /** The first step succeeds: the second is handed on, and the plan keeps its status. */
  lemma FirstStepSucceeds(c: Chain, t: Task, b: string, now: int)
    requires Positions(c) && |c.plan.steps| >= 2 && t.status.Done?
    requires c.plan.steps[0].status.Active? && c.plan.steps[1].status.Waiting?
    ensures var c', m := After(c, Callback(t, 0, b, now, 2)), Callback(t, 0, b, now, 2);
            && !Torn(c, m) && |c'.plan.steps| == |c.plan.steps| && c'.plan.status == c.plan.status
            && c'.plan.steps[1].status.Active? && c'.own == c.own[b := Some(1)]
  {
    var q := Reflect(c.plan, 0, t, now);
    assert q.steps[0].index == 0 && NextWaiting(q.steps, 1) == Some(1);
  }

  predicate PausedWithSecondRunning(w: World, key: PlanKey) {
    && key in w.plans && |w.plans[key].steps| >= 2
    && w.plans[key].status.Paused? && w.plans[key].steps[1].status.Active?
  }

  /** In this run, without a crash, a chain is paused, its first step succeeds, and a second task is created. */
  lemma PausedChainAdvances(w: World, key: PlanKey, a: string, b: string, reason: string, now: int)
    requires Ready(w, key) && key.project == "" && |w.plans[key].steps| >= 2
    requires a !in w.tasks && b !in w.tasks && a != b
    ensures var p, w1 := w.plans[key], Launched(w, key, a, now, 2);
            var es := [Event(Pause(key.id, key.project, reason), 2)] + [ReportEvent(p, 0, "", a, now, true, b, 2)];
            && Legal(w1, key, es) && Tearings(w1, key, es) == 0 && PausedWithSecondRunning(Run(w1, es), key)
            && Own(Run(w1, es), key.id) == map[a := Some(0), b := Some(1)]
  {
    var w1, w2 := PausedAtOnce(w, key, a, reason, now);
    var p := w.plans[key];
    FirstStepSucceeds(View(w2, key), Report(p, 0, "", a, now, true), b, now);
    var w3 := ReportMoves(w2, key, p, 0, "", a, now, true, b, 2);
    RunOne(w2, key, ReportEvent(p, 0, "", a, now, true, b, 2));
    RunMore(w1, key, Event(Pause(key.id, key.project, reason), 2), [ReportEvent(p, 0, "", a, now, true, b, 2)]);
  }

  /**
   In this run, without a crash, a chain of two steps is paused and resumed while its first step runs. Both
   steps then run at once, and the second one's success completes the plan while the first still runs.
   */
  lemma PauseAndResumeMuddle(w: World, key: PlanKey, a: string, b: string, d: string, reason: string, now: int)
    requires Ready(w, key) && key.project == "" && |w.plans[key].steps| == 2
    requires {a, b, d} !! w.tasks.Keys && a != b && b != d && a != d
    ensures var p, w1 := w.plans[key], Launched(w, key, a, now, 2);
            var pause := Event(Pause(key.id, key.project, reason), 2);
            var resume := Event(Resume(key.id, key.project, b, now), 2);
            var es := [pause] + ([resume] + [ReportEvent(p, 1, "", b, now, true, d, 2)]);
            && Legal(w1, key, es) && Tearings(w1, key, es) == 0
            && key in Step(Step(w1, pause), resume).plans && TwoActive(Step(Step(w1, pause), resume).plans[key])
            && CompletedOver(Run(w1, es), key, Active)
  {
    var w1, w2 := PausedAtOnce(w, key, a, reason, now);
    var p := w.plans[key];
    var w3 := ResumeAndFinish(w2, key, p, b, d, now);
    RunMore(w1, key, Event(Pause(key.id, key.project, reason), 2),
            [Event(Resume(key.id, key.project, b, now), 2)] + [ReportEvent(p, 1, "", b, now, true, d, 2)]);
  }

  /** One torn hand-over already lets a step get two tasks: the orphan of the torn dispatch and that of the resume. */
  lemma OneCrashDuplicatesATask(w: World, key: PlanKey, a: string, b: string, now: int)
    requires Ready(w, key) && a !in w.tasks && b !in w.tasks && a != b
    ensures var w1 := Launched(w, key, a, now, 1); var e := Event(Resume(key.id, key.project, b, now), 2);
            && Legal(w1, key, [e]) && Tearings(w1, key, [e]) == 0
            && Own(Run(w1, [e]), key.id) == map[a := Some(0), b := Some(0)]
  {
    var w1 := Launched(w, key, a, now, 1);
    LaunchDraws(w, key, a, now, 1);
    TornLaunch(w.plans[key], a, b);
    var w2 := ResumeMoves(w1, key, b, now);
    RunOne(w1, key, Event(Resume(key.id, key.project, b, now), 2));
  }

  lemma TornLaunch(p: Plan, a: string, b: string)
    requires Fresh(Chain(p, map[]))
    ensures var c1 := After(Chain(p, map[]), Launch(a, 1));
            c1 == Chain(p, map[a := Some(0)]) && After(c1, Restart(b, 2)).own == map[a := Some(0), b := Some(0)]
  {
    assert NextWaiting(p.steps, 0) == Some(0);
  }

  /** The torn callback of an orphan creates a task for the next step, and the plan on disk still knows nothing. */
  lemma TornCallback(c: Chain, i: nat, t: Task, id: string, now: int)
    requires Positions(c) && i + 1 < |c.plan.steps| && t.status.Done?
    requires forall k :: 0 <= k < |c.plan.steps| ==> c.plan.steps[k].status.Waiting?
    ensures Torn(c, Callback(t, i, id, now, 1))
    ensures After(c, Callback(t, i, id, now, 1)) == Chain(c.plan, c.own[id := Some(i + 1)])
  {
    var q := Reflect(c.plan, i, t, now);
    assert q.steps[i].index == i && NextWaiting(q.steps, i + 1) == Some(i + 1);
  }

  /** Its whole callback finishes step i, whatever the steps before it are. */
  lemma WholeCallback(c: Chain, i: nat, t: Task, id: string, now: int)
    requires Positions(c) && i < |c.plan.steps| && t.status.Done? && !c.plan.steps[i].Terminal()
    ensures var c', m := After(c, Callback(t, i, id, now, 2)), Callback(t, i, id, now, 2);
            && !Torn(c, m) && |c'.plan.steps| == |c.plan.steps| && c'.plan.steps[i].status.Succeeded?
            && forall k :: 0 <= k < i ==> c'.plan.steps[k] == c.plan.steps[k]
  {
    var q := Reflect(c.plan, i, t, now);
    assert q.steps[i].index == i;
  }

  /** Step 1 has succeeded while step 0 is pending. */
  predicate OutOfOrder(w: World, key: PlanKey) {
    && key in w.plans && |w.plans[key].steps| >= 2
    && w.plans[key].steps[0].status.Waiting? && w.plans[key].steps[1].status.Succeeded?
  }

  lemma OrphanFinishes(w: World, key: PlanKey, p: Plan, a: string, b: string, d: string, now: int)
    requires WellKept(w, key) && Indexed(w, key) && key.project == "" && p.id == key.id && d !in w.tasks
    requires |w.plans[key].steps| >= 2 && w.plans[key].steps[0].status.Waiting? && w.plans[key].steps[1].status.Waiting?
    requires b in Own(w, key.id) && Own(w, key.id)[b] == Some(1)
    ensures var e := ReportEvent(p, 1, a, b, now, true, d, 2);
            Legal(w, key, [e]) && Tearings(w, key, [e]) == 0 && OutOfOrder(Run(w, [e]), key)
  {
    WholeCallback(View(w, key), 1, Report(p, 1, a, b, now, true), d, now);
    var w' := ReportMoves(w, key, p, 1, a, b, now, true, d, 2);
    RunOne(w, key, ReportEvent(p, 1, a, b, now, true, d, 2));
  }

  lemma OrphanTears(w: World, key: PlanKey, a: string, b: string, d: string, now: int)
    requires WellKept(w, key) && Indexed(w, key) && key.project == "" && b !in w.tasks && d !in w.tasks && b != d
    requires var p := w.plans[key]; |p.steps| >= 2 && forall k :: 0 <= k < |p.steps| ==> p.steps[k].status.Waiting?
    requires a in Own(w, key.id) && Own(w, key.id)[a] == Some(0)
    ensures var p := w.plans[key];
            var es := [ReportEvent(p, 0, "", a, now, true, b, 1)] + [ReportEvent(p, 1, a, b, now, true, d, 2)];
            Legal(w, key, es) && Tearings(w, key, es) == 1 && OutOfOrder(Run(w, es), key)
  {
    var p := w.plans[key];
    TornCallback(View(w, key), 0, Report(p, 0, "", a, now, true), b, now);
    var w2 := ReportMoves(w, key, p, 0, "", a, now, true, b, 1);
    OrphanFinishes(w2, key, p, a, b, d, now);
    RunMore(w, key, ReportEvent(p, 0, "", a, now, true, b, 1), [ReportEvent(p, 1, a, b, now, true, d, 2)]);
  }

  /**
   Two torn hand-overs can break the order: the orphan of a torn dispatch completes step 0, that callback is
   torn as well, and its orphan completes step 1 while step 0 is pending on disk.
   */
  lemma TwoCrashesBreakTheOrder(w: World, key: PlanKey, a: string, b: string, d: string, now: int)
    requires Ready(w, key) && key.project == "" && |w.plans[key].steps| >= 2
    requires {a, b, d} !! w.tasks.Keys && a != b && b != d && a != d
    ensures var p := w.plans[key]; var w1 := Launched(w, key, a, now, 1);
            var es := [ReportEvent(p, 0, "", a, now, true, b, 1)] + [ReportEvent(p, 1, a, b, now, true, d, 2)];
            Legal(w1, key, es) && LaunchTear(1) + Tearings(w1, key, es) == 2 && OutOfOrder(Run(w1, es), key)
  {
    var p, w1 := w.plans[key], Launched(w, key, a, now, 1);
    LaunchDraws(w, key, a, now, 1);
    TornLaunch(p, a, b);
    assert View(w1, key) == Chain(p, map[a := Some(0)]);
    OrphanTears(w1, key, a, b, d, now);
  }
}
