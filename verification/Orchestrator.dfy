/** The chained-plan orchestrator: src/agent/bg-orchestrator.ts over the plan store of src/agent/bg-planner.ts. */
module Orchestrator {
  import opened Wrappers
  import opened Disk
  import BackgroundTasks

  // ---- Plan store and planner ----

  /** loadPlan: the project's file, else the global one. */
  function LoadPlan(w: World, planId: string, project: string): Option<Plan> {
    if PlanKey(project, planId) in w.plans then Some(w.plans[PlanKey(project, planId)])
    else if project != "" && PlanKey("", planId) in w.plans then Some(w.plans[PlanKey("", planId)])
    else None
  }

  /** A project's own plan comes before the global one of the same id. */
  lemma ProjectPlanComesFirst(w: World, planId: string, project: string, p: Plan)
    ensures LoadPlan(w, planId, project) == Some(p) <==>
              || (PlanKey(project, planId) in w.plans && w.plans[PlanKey(project, planId)] == p)
              || (PlanKey(project, planId) !in w.plans && PlanKey("", planId) in w.plans
                  && w.plans[PlanKey("", planId)] == p)
  {
  }

  /** planRequest's normalisation of the planner's steps, given their titles. */
  function NormalizeSteps(titles: seq<string>): (steps: seq<Step>)
    ensures |steps| == if |titles| < 12 then |titles| else 12
    ensures forall i :: 0 <= i < |steps| ==>
              && steps[i].index == i && steps[i].status.Waiting? && steps[i].taskId.None?
              && FirstOf(steps[i].title, titles[i], 160)
  {
    var raw := Take(titles, 12);
    seq(|raw|, i requires 0 <= i < |raw| => Step(i, Take(raw[i], 160), Waiting, None, None, None))
  }

  /** planRequest, given what the planner answered. */
  function PlanRequest(id: string, chainId: string, projectPath: string, sessionKey: string, titles: seq<string>,
                       notes: string): (r: Result<Plan>)
    ensures r.Ok? <==> titles != []
    ensures r.Ok? ==>
              && KeyOf(r.value) == PlanKey(projectPath, id) && r.value.sessionKey == sessionKey
              && r.value.chainId == chainId && r.value.status.NotStarted? && FirstOf(r.value.notes, notes, 600)
              && r.value.steps == NormalizeSteps(titles)
  {
    if titles == [] then Err("Planner returned no steps")
    else Ok(Plan(id, chainId, projectPath, sessionKey, NormalizeSteps(titles), NotStarted, Take(notes, 600)))
  }

  // ---- Steps of a plan ----

  /** The first waiting step at position `from` or later. */
  function NextWaiting(steps: seq<Step>, from: int): (r: Option<nat>)
    ensures r.Some? ==> from <= r.value < |steps| && steps[r.value].status.Waiting?
                        && forall j :: 0 <= j < r.value && from <= j ==> !steps[j].status.Waiting?
    ensures r.None? ==> forall j :: 0 <= j < |steps| && from <= j ==> !steps[j].status.Waiting?
    decreases |steps| - from
  {
    if from >= |steps| then None
    else if from < 0 then NextWaiting(steps, 0)
    else if steps[from].status.Waiting? then Some(from)
    else NextWaiting(steps, from + 1)
  }

  /** The task's terminal status reflected onto step `i`. */
  function Reflect(p: Plan, i: nat, t: Task, now: int): Plan
    requires i < |p.steps|
  {
    var ok := t.status.Done?;
    var preview := if ok then t.result.GetOr("") else t.error.GetOr(t.result.GetOr(""));
    p.(steps := p.steps[i := p.steps[i].(status := if ok then Succeeded else Broken,
                                         completedAt := Some(t.completedAt.GetOr(now)),
                                         resultPreview := Some(Take(preview, 400)))])
  }

  /** Step `k` handed to task `id`. */
  function Assign(p: Plan, k: nat, id: string): Plan
    requires k < |p.steps|
  {
    p.(steps := p.steps[k := p.steps[k].(taskId := Some(id), status := Active)])
  }

  function StepTask(p: Plan, stepIndex: int, parent: string, id: string, now: int): Task {
    BackgroundTasks.NewTask(id, 30, p.sessionKey, p.chainId, p.id, Some(stepIndex), parent, now)
  }

  // ---- What each operation writes, in order ----

  function DispatchWrites(p: Plan, id: string, now: int): seq<Write> {
    if p.steps == [] then []
    else [PutTask(StepTask(p, 0, "", id, now)), PutPlan(Assign(p, 0, id).(status := InProgress))]
  }

  /** The plan and position a completion callback acts on; None when it is ignored. */
  function Target(w: World, t: Task): Option<(Plan, nat)> {
    if t.planId == "" || t.stepIndex.None? then None else
    match LoadPlan(w, t.planId, "")
    case None => None
    case Some(p) =>
      var i := t.stepIndex.value;
      if i < 0 || i >= |p.steps| || p.steps[i].Terminal() then None else Some((p, i))
  }

  function AdvanceWrites(w: World, t: Task, id: string, now: int): seq<Write> {
    match Target(w, t)
    case None => []
    case Some((p, i)) =>
      var q := Reflect(p, i, t, now);
      if !t.status.Done? then [PutPlan(q.(status := Paused))] else
      match NextWaiting(q.steps, q.steps[i].index + 1)
      case None => [PutPlan(q.(status := Completed))]
      case Some(k) => [PutTask(StepTask(q, q.steps[k].index, t.id, id, now)), PutPlan(Assign(q, k, id))]
  }

  function PauseNote(notes: string, reason: string): string {
    if reason == "" then notes
    else (if notes == "" then "" else notes + "\n") + "[paused] " + reason
  }

  function PauseWrites(w: World, planId: string, project: string, reason: string): seq<Write> {
    match LoadPlan(w, planId, project)
    case None => []
    case Some(p) => [PutPlan(p.(status := Paused, notes := PauseNote(p.notes, reason)))]
  }

  function ResumeWrites(w: World, planId: string, project: string, id: string, now: int): seq<Write> {
    match LoadPlan(w, planId, project)
    case None => []
    case Some(p) =>
      if p.status.Completed? then [] else
      match NextWaiting(p.steps, 0)
      case None => [PutPlan(p.(status := Completed))]
      case Some(k) =>
        [PutTask(StepTask(p, p.steps[k].index, "", id, now)), PutPlan(Assign(p, k, id).(status := InProgress))]
  }

  // ---- The operations ----

  function CreatedTask(ws: seq<Write>): Option<Task> {
    if |ws| > 0 && ws[0].PutTask? then Some(ws[0].task) else None
  }

  /** `id` stands for the identifier makeId draws. The plan passed in is the caller's copy. */
  method DispatchChain(disk: Store, plan: Plan, id: string, now: int) returns (r: Result<Task>)
    modifies disk
    ensures disk.State() == Apply(old(disk.State()), DispatchWrites(plan, id, now))
    ensures disk.journal == old(disk.journal) + DispatchWrites(plan, id, now)
    ensures r.Ok? <==> plan.steps != []
    ensures r.Ok? ==> Some(r.value) == CreatedTask(DispatchWrites(plan, id, now))
  {
    if |plan.steps| == 0 { return Err("Cannot dispatch chain: plan has zero steps"); }
    var task := BackgroundTasks.CreateBackgroundTask(disk, id, 30, plan.sessionKey, plan.chainId, plan.id,
                                                     Some(0), "", now);
    var first := plan.steps[0];
    first := first.(taskId := Some(task.id));
    first := first.(status := Active);
    var updated := plan.(steps := plan.steps[0 := first], status := InProgress);
    disk.WritePlan(updated);
    ApplyTwo(old(disk.State()), PutTask(task), PutPlan(updated));
    return Ok(task);
  }

  method AdvanceChain(disk: Store, completed: Task, id: string, now: int) returns (r: Option<Task>)
    modifies disk
    ensures disk.State() == Apply(old(disk.State()), AdvanceWrites(old(disk.State()), completed, id, now))
    ensures disk.journal == old(disk.journal) + AdvanceWrites(old(disk.State()), completed, id, now)
    ensures r == CreatedTask(AdvanceWrites(old(disk.State()), completed, id, now))
  {
    if completed.planId == "" || completed.stepIndex.None? { return None; }
    var loaded := LoadPlan(disk.State(), completed.planId, "");
    if loaded.None? { return None; }
    var plan, i := loaded.value, completed.stepIndex.value;
    if i < 0 || i >= |plan.steps| { return None; }
    var step := plan.steps[i];
    if step.status.Succeeded? || step.status.Broken? || step.status.Skipped? { return None; }
    if completed.status.Done? {
      step := step.(status := Succeeded, completedAt := Some(completed.completedAt.GetOr(now)));
      step := step.(resultPreview := Some(Take(completed.result.GetOr(""), 400)));
      plan := plan.(steps := plan.steps[i := step]);
    } else {
      step := step.(status := Broken, completedAt := Some(completed.completedAt.GetOr(now)));
      step := step.(resultPreview := Some(Take(completed.error.GetOr(completed.result.GetOr("")), 400)));
      plan := plan.(steps := plan.steps[i := step], status := Paused);
      disk.WritePlan(plan);
      ApplyOne(old(disk.State()), PutPlan(plan));
      return None;
    }
    var next := NextWaiting(plan.steps, step.index + 1);
    if next.None? {
      plan := plan.(status := Completed);
      disk.WritePlan(plan);
      ApplyOne(old(disk.State()), PutPlan(plan));
      return None;
    }
    var nextStep := plan.steps[next.value];
    var task := BackgroundTasks.CreateBackgroundTask(disk, id, 30, plan.sessionKey, plan.chainId, plan.id,
                                                     Some(nextStep.index), completed.id, now);
    nextStep := nextStep.(taskId := Some(task.id), status := Active);
    plan := plan.(steps := plan.steps[next.value := nextStep]);
    disk.WritePlan(plan);
    ApplyTwo(old(disk.State()), PutTask(task), PutPlan(plan));
    return Some(task);
  }

  method PauseChain(disk: Store, planId: string, project: string, reason: string)
    modifies disk
    ensures disk.State() == Apply(old(disk.State()), PauseWrites(old(disk.State()), planId, project, reason))
    ensures disk.journal == old(disk.journal) + PauseWrites(old(disk.State()), planId, project, reason)
  {
    var loaded := LoadPlan(disk.State(), planId, project);
    if loaded.None? { return; }
    var plan := loaded.value.(status := Paused);
    if reason != "" {
      plan := plan.(notes := (if plan.notes == "" then "" else plan.notes + "\n") + "[paused] " + reason);
    }
    disk.WritePlan(plan);
    ApplyOne(old(disk.State()), PutPlan(plan));
  }

  method ResumeChain(disk: Store, planId: string, project: string, id: string, now: int) returns (r: Option<Task>)
    modifies disk
    ensures disk.State() == Apply(old(disk.State()), ResumeWrites(old(disk.State()), planId, project, id, now))
    ensures disk.journal == old(disk.journal) + ResumeWrites(old(disk.State()), planId, project, id, now)
    ensures r == CreatedTask(ResumeWrites(old(disk.State()), planId, project, id, now))
  {
    var loaded := LoadPlan(disk.State(), planId, project);
    if loaded.None? || loaded.value.status.Completed? { return None; }
    var plan := loaded.value;
    var next := NextWaiting(plan.steps, 0);
    if next.None? {
      plan := plan.(status := Completed);
      disk.WritePlan(plan);
      ApplyOne(old(disk.State()), PutPlan(plan));
      return None;
    }
    var step := plan.steps[next.value];
    var task := BackgroundTasks.CreateBackgroundTask(disk, id, 30, plan.sessionKey, plan.chainId, plan.id,
                                                     Some(step.index), "", now);
    step := step.(taskId := Some(task.id));
    step := step.(status := Active);
    plan := plan.(steps := plan.steps[next.value := step], status := InProgress);
    disk.WritePlan(plan);
    ApplyTwo(old(disk.State()), PutTask(task), PutPlan(plan));
    return Some(task);
  }
}
