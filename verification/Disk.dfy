/**
 Records kept by the daemon on disk, and the disk itself.

 A JSON record is a value: it is parsed into a fresh object, changed, and written back whole, so
 records are datatypes and the directories are maps. An absent string field that the source only
 tests for truthiness (`sessionKey`, `planId`, `projectPath`, ...) is the empty string.
 */
module Disk {
  import opened Wrappers

  // ---- Background tasks (BackgroundTask) ----

  datatype TaskStatus = Pending | Running | Done | Failed | Aborted | Interrupted

  /** The reasons markFailed accepts. */
  type FailureStatus = s: TaskStatus | s.Failed? || s.Aborted? || s.Interrupted? witness TaskStatus.Failed

  datatype Task = Task(
    id: string,
    status: TaskStatus,
    maxMinutes: int,
    createdAt: int,
    startedAt: Option<int>,
    completedAt: Option<int>,
    interruptedAt: Option<int>,
    resumedAt: Option<int>,
    resumeCount: nat,
    result: Option<string>,
    resultPath: Option<string>,
    error: Option<string>,
    deliverableNote: Option<string>,
    unverified: Option<string>,
    mirroredAt: Option<int>,
    sessionKey: string,
    chainId: string,
    planId: string,
    stepIndex: Option<int>,
    parentTaskId: string
  )

  // ---- Plans (Plan, PlanStep) ----

  datatype StepStatus = Waiting | Active | Succeeded | Broken | Skipped

  datatype Step = Step(
    index: int,
    title: string,
    status: StepStatus,
    taskId: Option<string>,
    resultPreview: Option<string>,
    completedAt: Option<int>
  ) {
    predicate Terminal() { status.Succeeded? || status.Broken? || status.Skipped? }
  }

  datatype PlanStatus = NotStarted | InProgress | Completed | Paused

  datatype Plan = Plan(
    id: string,
    chainId: string,
    projectPath: string,
    sessionKey: string,
    steps: seq<Step>,
    status: PlanStatus,
    notes: string
  )

  /** Plans live in a project's directory, or in the global one when `project` is empty. */
  datatype PlanKey = PlanKey(project: string, id: string)

  function KeyOf(p: Plan): PlanKey { PlanKey(p.projectPath, p.id) }

  // ---- The disk ----

  const RESULT_TRUNCATE := 3000
  const TRUNCATION_MARK := "\n...[truncated]"

  /** What safeWrite stores: a result over the limit is cut and marked. */
  function Slim(t: Task): Task {
    if t.result.Some? && |t.result.value| > RESULT_TRUNCATE
    then t.(result := Some(t.result.value[..RESULT_TRUNCATE] + TRUNCATION_MARK))
    else t
  }

  /** Rewriting an already stored record never cuts it again. */
  lemma SlimIsIdempotent(t: Task)
    ensures Slim(Slim(t)) == Slim(t)
  {
    var s := Slim(t);
    if t.result.Some? && |t.result.value| > RESULT_TRUNCATE {
      assert s.result.value[..RESULT_TRUNCATE] == t.result.value[..RESULT_TRUNCATE];
    }
  }

  datatype World = World(tasks: map<string, Task>, results: map<string, string>, plans: map<PlanKey, Plan>)

  /** One file write: the unit that a crash cannot split. */
  datatype Write = PutTask(task: Task) | PutResult(id: string, text: string) | PutPlan(plan: Plan)

  function Apply1(w: World, wr: Write): World {
    match wr
    case PutTask(t) => w.(tasks := w.tasks[t.id := Slim(t)])
    case PutResult(id, text) => w.(results := w.results[id := text])
    case PutPlan(p) => w.(plans := w.plans[KeyOf(p) := p])
  }

  function Apply(w: World, ws: seq<Write>): World
    decreases |ws|
  {
    if ws == [] then w else Apply(Apply1(w, ws[0]), ws[1..])
  }

  lemma ApplyOne(w: World, a: Write)
    ensures Apply(w, [a]) == Apply1(w, a)
  {
    assert [a][1..] == [];
  }

  lemma ApplyTwo(w: World, a: Write, b: Write)
    ensures Apply(w, [a, b]) == Apply1(Apply1(w, a), b)
  {
    assert [a, b][1..] == [b];
    ApplyOne(Apply1(w, a), b);
  }

  /**
   The task, result and plan directories. `journal` is the order in which files were written; the
   contracts of every operation state it, so they also say what a crash can leave behind.
   */
  class Store {
    var tasks: map<string, Task>
    var results: map<string, string>
    var plans: map<PlanKey, Plan>
    ghost var journal: seq<Write>

    function State(): World
      reads this
    {
      World(tasks, results, plans)
    }

    method WriteTask(t: Task)
      modifies this
      ensures State() == Apply1(old(State()), PutTask(t))
      ensures journal == old(journal) + [PutTask(t)]
    {
      tasks := tasks[t.id := Slim(t)];
      journal := journal + [PutTask(t)];
    }

    method WriteResult(id: string, text: string)
      modifies this
      ensures State() == Apply1(old(State()), PutResult(id, text))
      ensures journal == old(journal) + [PutResult(id, text)]
    {
      results := results[id := text];
      journal := journal + [PutResult(id, text)];
    }

    method WritePlan(p: Plan)
      modifies this
      ensures State() == Apply1(old(State()), PutPlan(p))
      ensures journal == old(journal) + [PutPlan(p)]
    {
      plans := plans[KeyOf(p) := p];
      journal := journal + [PutPlan(p)];
    }
  }
}
