/** Background-task lifecycle: src/agent/background-tasks.ts. */
module BackgroundTasks {
  import opened Wrappers
  import opened Disk

  // ---- The lifecycle of one record ----

  datatype TaskEvent =
    | Start(now: int) // markRunning
    | Finish(text: string, note: string, doubts: Option<string>, now: int) // markDone
    | Stop(message: string, reason: FailureStatus, now: int) // markFailed
    | Requeue(now: int) // resumeBackgroundTask
    | Mirror(now: int) // markBackgroundTaskMirrored
    | Backfill(now: int, sinceMs: int) // startup backfill reaches this record

  predicate Ended(s: TaskStatus) { s.Done? || s.Failed? || s.Aborted? || s.Interrupted? }

  predicate Final(s: TaskStatus) { s.Done? || s.Failed? || s.Aborted? }

  /** The task ended for someone to hear of it, and recently enough. */
  predicate Deliverable(t: Task, now: int, sinceMs: int) {
    && Ended(t.status)
    && t.sessionKey != ""
    && t.completedAt.GetOr(t.interruptedAt.GetOr(t.createdAt)) >= now - sinceMs
  }

  /** The filter of findUnmirroredDeliveries. */
  predicate Unmirrored(t: Task, now: int, sinceMs: int) { Deliverable(t, now, sinceMs) && t.mirroredAt.None? }

  function ResultPath(id: string): string { id + ".result.md" }

  /** What the verification of claims leaves in a record: the claims without evidence, if there are any. */
  function Details(doubts: Option<string>): Option<string> {
    if doubts.Some? then Some(Take(doubts.value, 1000)) else None
  }

  /** The record the operation writes, or None when its guard refuses and nothing is written. */
  function Transition(t: Task, e: TaskEvent): Option<Task> {
    match e
    case Start(now) =>
      if t.status.Pending?
      then Some(t.(status := TaskStatus.Running, startedAt := Some(now), completedAt := None, error := None))
      else None
    case Finish(text, note, doubts, now) =>
      var path := if |text| > RESULT_TRUNCATE then Some(ResultPath(t.id)) else None;
      if t.status.Running?
      then Some(t.(status := TaskStatus.Done, completedAt := Some(now), result := Some(text),
                   resultPath := path.Or(t.resultPath),
                   deliverableNote := if note != "" then Some(note) else path.Or(t.deliverableNote),
                   unverified := Details(doubts).Or(t.unverified)))
      else None
    case Stop(message, reason, now) =>
      if Ended(t.status) then None
      else Some(t.(status := reason, completedAt := Some(now), error := Some(Take(message, 1000)),
                   interruptedAt := if reason.Interrupted? then Some(now) else t.interruptedAt))
    case Requeue(now) =>
      if t.status.Interrupted?
      then Some(t.(status := TaskStatus.Pending, resumedAt := Some(now), resumeCount := t.resumeCount + 1,
                   startedAt := None, completedAt := None, error := None))
      else None
    case Mirror(now) => Some(t.(mirroredAt := Some(now)))
    case Backfill(now, sinceMs) =>
      if Unmirrored(t, now, sinceMs) then Some(t.(mirroredAt := Some(now))) else None
  }

  /** The stored record after the event. */
  function Next(t: Task, e: TaskEvent): Task {
    match Transition(t, e)
    case None => t
    case Some(t') => Slim(t')
  }

  function Run(t: Task, es: seq<TaskEvent>): Task
    decreases |es|
  {
    if es == [] then t else Run(Next(t, es[0]), es[1..])
  }

  /** How often the record enters `running`. */
  function Entries(t: Task, es: seq<TaskEvent>): nat
    decreases |es|
  {
    if es == [] then 0
    else (if !t.status.Running? && Next(t, es[0]).status.Running? then 1 else 0) + Entries(Next(t, es[0]), es[1..])
  }

  /** How often the backfill delivers this record. */
  function Deliveries(t: Task, es: seq<TaskEvent>): nat
    decreases |es|
  {
    if es == [] then 0
    else (if es[0].Backfill? && Transition(t, es[0]).Some? then 1 else 0) + Deliveries(Next(t, es[0]), es[1..])
  }

  predicate WellShaped(t: Task) {
    && (t.completedAt.Some? <==> Ended(t.status))
    && (t.error.Some? <==> t.status.Failed? || t.status.Aborted? || t.status.Interrupted?)
    && (t.status.Running? ==> t.startedAt.Some?)
    && (t.status.Done? ==> t.result.Some?)
    && (t.resultPath.Some? || t.deliverableNote.Some? || t.unverified.Some? ==> t.status.Done?)
  }

  /** In every run completedAt is present exactly when the task has ended, and error exactly when it ended badly. */
  lemma {:induction false} RunsKeepShape(t: Task, es: seq<TaskEvent>)
    requires WellShaped(t)
    ensures WellShaped(Run(t, es))
    decreases |es|
  {
    if es != [] {
      RunsKeepShape(Next(t, es[0]), es[1..]);
    }
  }

  // ---- What the stamps of a record tell ----

  /** The status of a record changes in exactly these ways. */
  lemma StatusExactly(t: Task, e: TaskEvent)
    ensures Next(t, e).status ==
            if t.status.Pending? && e.Start? then TaskStatus.Running
            else if t.status.Running? && e.Finish? then TaskStatus.Done
            else if (t.status.Pending? || t.status.Running?) && e.Stop? then e.reason
            else if t.status.Interrupted? && e.Requeue? then TaskStatus.Pending
            else t.status
  {
  }

  /** When a task last started, ended, was interrupted and was resumed, and how often the latter. */
  datatype Story = Story(started: Option<int>, ended: Option<int>, interrupted: Option<int>, resumed: Option<int>,
    resumes: nat)

  const UNTOLD := Story(None, None, None, None, 0)

  /** The story goes on whenever the status changes. */
  function Told(s: Story, before: TaskStatus, after: TaskStatus, now: int): Story {
    if before == after then s
    else
      match after
      case Running => s.(started := Some(now), ended := None)
      case Pending => s.(started := None, ended := None, resumed := Some(now), resumes := s.resumes + 1)
      case Interrupted => s.(ended := Some(now), interrupted := Some(now))
      case _ => s.(ended := Some(now))
  }

  function StoryOf(s: Story, t: Task, es: seq<TaskEvent>): Story
    decreases |es|
  {
    if es == [] then s
    else StoryOf(Told(s, t.status, Next(t, es[0]).status, es[0].now), Next(t, es[0]), es[1..])
  }

  predicate Tells(t: Task, s: Story) {
    && t.startedAt == s.started && t.completedAt == s.ended && t.interruptedAt == s.interrupted
    && t.resumedAt == s.resumed && t.resumeCount == s.resumes
  }

  lemma {:induction false} StampsKeepTelling(t: Task, s: Story, es: seq<TaskEvent>)
    requires WellShaped(t) && Tells(t, s)
    ensures Tells(Run(t, es), StoryOf(s, t, es))
    decreases |es|
  {
    if es != [] { StampsKeepTelling(Next(t, es[0]), Told(s, t.status, Next(t, es[0]).status, es[0].now), es[1..]); }
  }

  /** Whatever a record of a waiting task held of an earlier ending is gone once it starts. */
  lemma StartsAfresh(t: Task, now: int)
    requires t.status.Pending?
    ensures var r := Next(t, Start(now)); r.startedAt == Some(now) && r.completedAt.None? && r.error.None?
  {
  }

  /** Somebody hears of the record: it is mirrored at once, or unheard so far and taken up by the backfill. */
  predicate Hears(t: Task, e: TaskEvent) { e.Mirror? || (e.Backfill? && Unmirrored(t, e.now, e.sinceMs)) }

  /** When that was last. */
  function LastHeard(heard: Option<int>, t: Task, es: seq<TaskEvent>): Option<int>
    decreases |es|
  {
    if es == [] then heard
    else
      var e := es[0];
      LastHeard(if Hears(t, e) then Some(e.now) else heard, Next(t, e), es[1..])
  }

  /** The mirror stamp is that time, in every run. */
  lemma {:induction false} StampIsTheLast(t: Task, es: seq<TaskEvent>)
    ensures Run(t, es).mirroredAt == LastHeard(t.mirroredAt, t, es)
    decreases |es|
  {
    if es != [] {
      StampIsTheLast(Next(t, es[0]), es[1..]);
    }
  }

  /** Whatever happens to a record, it stays the record of what was asked for. */
  lemma {:induction false} IdentityStays(t: Task, es: seq<TaskEvent>)
    ensures var r := Run(t, es);
            && r.id == t.id && r.maxMinutes == t.maxMinutes && r.createdAt == t.createdAt
            && r.sessionKey == t.sessionKey && r.chainId == t.chainId && r.planId == t.planId
            && r.stepIndex == t.stepIndex && r.parentTaskId == t.parentTaskId
    decreases |es|
  {
    if es != [] { IdentityStays(Next(t, es[0]), es[1..]); }
  }

  /** Done, failed and aborted are absorbing: afterwards only the mirror stamp can change. */
  lemma {:induction false} FinalIsAbsorbing(t: Task, es: seq<TaskEvent>)
    requires Final(t.status) && Slim(t) == t
    ensures Run(t, es) == t.(mirroredAt := Run(t, es).mirroredAt)
    decreases |es|
  {
    if es != [] {
      FinalIsAbsorbing(Next(t, es[0]), es[1..]);
    }
  }

  function PendingCredit(t: Task): nat { if t.status.Pending? then 1 else 0 }

  /** Every entry into `running` is paid for by the creation or by one explicit resume. */
  lemma {:induction false} EntriesAreBounded(t: Task, es: seq<TaskEvent>)
    ensures t.resumeCount <= Run(t, es).resumeCount
    ensures Entries(t, es) + PendingCredit(Run(t, es)) <= PendingCredit(t) + Run(t, es).resumeCount - t.resumeCount
    decreases |es|
  {
    if es != [] {
      EntriesAreBounded(Next(t, es[0]), es[1..]);
    }
  }

  /** A mirror stamp is never removed, so the backfill delivers a record at most once. */
  lemma {:induction false} BackfillDeliversOnce(t: Task, es: seq<TaskEvent>)
    ensures t.mirroredAt.Some? ==> Run(t, es).mirroredAt.Some?
    ensures Deliveries(t, es) <= (if t.mirroredAt.None? then 1 else 0)
    decreases |es|
  {
    if es != [] {
      BackfillDeliversOnce(Next(t, es[0]), es[1..]);
    }
  }

  predicate NoMirror(es: seq<TaskEvent>) { forall i :: 0 <= i < |es| ==> !es[i].Mirror? }

  /** A record is unstamped exactly when it was so at first and has neither been mirrored nor backfilled since. */
  lemma {:induction false} StampIsExact(t: Task, es: seq<TaskEvent>)
    ensures Run(t, es).mirroredAt.None? <==> t.mirroredAt.None? && NoMirror(es) && Deliveries(t, es) == 0
    decreases |es|
  {
    if es != [] {
      StampIsExact(Next(t, es[0]), es[1..]);
      assert es == [es[0]] + es[1..];
    }
  }

  /**
   Resume keeps the stamp. So when a resumed task ends again, the backfill delivers that second ending
   exactly when the first one had not been mirrored at the resume and nothing was mirrored since.
   */
  lemma ResumedDeliveryIsBackfilledExactly(t: Task, resumedAt: int, es: seq<TaskEvent>, now: int, sinceMs: int)
    requires t.status.Interrupted?
    requires Deliverable(Run(Next(t, Requeue(resumedAt)), es), now, sinceMs)
    ensures var resumed := Next(t, Requeue(resumedAt));
            Transition(Run(resumed, es), Backfill(now, sinceMs)).Some?
            <==> t.mirroredAt.None? && NoMirror(es) && Deliveries(resumed, es) == 0
  {
    StampIsExact(Next(t, Requeue(resumedAt)), es);
  }

  // ---- Operations on the disk ----

  /** The writes of one operation on task `id`, in order. */
  function TaskWrites(w: World, id: string, e: TaskEvent): seq<Write> {
    if id !in w.tasks then [] else
    match Transition(w.tasks[id], e)
    case None => []
    case Some(t) =>
      if e.Finish? && |e.text| > RESULT_TRUNCATE then [PutResult(id, e.text), PutTask(t)] else [PutTask(t)]
  }

  lemma TaskEffect(w: World, id: string, e: TaskEvent)
    requires id in w.tasks && w.tasks[id].id == id
    ensures var w' := Apply(w, TaskWrites(w, id, e));
            && w'.tasks == w.tasks[id := Next(w.tasks[id], e)]
            && w'.plans == w.plans
            && w'.results == if e.Finish? && Transition(w.tasks[id], e).Some? && |e.text| > RESULT_TRUNCATE
                             then w.results[id := e.text] else w.results
  {
    match Transition(w.tasks[id], e)
    case None =>
    case Some(t) =>
      if e.Finish? && |e.text| > RESULT_TRUNCATE {
        ApplyTwo(w, PutResult(id, e.text), PutTask(t));
      } else {
        ApplyOne(w, PutTask(t));
      }
  }

  lemma NextStaysStored(t: Task, e: TaskEvent)
    requires Slim(t) == t
    ensures Slim(Next(t, e)) == Next(t, e) && Next(t, e).id == t.id
  {
    match Transition(t, e)
    case None =>
    case Some(t') => SlimIsIdempotent(t');
  }

  /**
   A finished task's stored result is whole, or its resultPath names a file that holds it whole, and so does its
   note when it was given none. The record is flagged exactly when its claims lack evidence.
   */
  lemma NoResultIsLost(w: World, id: string, text: string, note: string, doubts: Option<string>, now: int)
    requires id in w.tasks && w.tasks[id].id == id && w.tasks[id].status.Running? && WellShaped(w.tasks[id])
    ensures var w' := Apply(w, TaskWrites(w, id, Finish(text, note, doubts, now)));
            && id in w'.tasks && w'.tasks[id].status.Done?
            && (|text| <= RESULT_TRUNCATE ==> w'.tasks[id].result == Some(text))
            && (|text| > RESULT_TRUNCATE ==>
                  && id in w'.results && w'.results[id] == text
                  && w'.tasks[id].resultPath == Some(ResultPath(id))
                  && w'.tasks[id].result == Some(text[..3000] + "\n...[truncated]"))
            && (w'.tasks[id].resultPath.Some? <==> |text| > RESULT_TRUNCATE)
            && w'.tasks[id].deliverableNote == (if note != "" then Some(note) else w'.tasks[id].resultPath)
            && (w'.tasks[id].unverified.Some? <==> doubts.Some?)
            && (doubts.Some? ==> FirstOf(w'.tasks[id].unverified.value, doubts.value, 1000))
  {
    TaskEffect(w, id, Finish(text, note, doubts, now));
  }

  /** Two tasks never share a result file. */
  lemma ResultFilesAreApart(a: string, b: string)
    requires ResultPath(a) == ResultPath(b)
    ensures a == b
  {
    assert a == ResultPath(a)[..|a|] && b == ResultPath(b)[..|b|];
  }

  /** The record of `id` on disk after the operation. */
  function RecordAfter(w: World, id: string, e: TaskEvent): Option<Task> {
    var w' := Apply(w, TaskWrites(w, id, e));
    if id in w'.tasks then Some(w'.tasks[id]) else None
  }

  /** The backfill takes a record up exactly when it ended for a session, unheard, within the window. */
  lemma BackfillDeliversExactly(w: World, id: string, now: int, sinceMs: int)
    requires id in w.tasks && w.tasks[id].id == id && WellShaped(w.tasks[id]) && w.tasks[id].mirroredAt.None?
    ensures var t, r := w.tasks[id], RecordAfter(w, id, Backfill(now, sinceMs));
            r.Some? && r.value.mirroredAt ==
              if !t.status.Pending? && !t.status.Running? && t.sessionKey != "" && now - t.completedAt.value <= sinceMs
              then Some(now) else None
  {
    TaskEffect(w, id, Backfill(now, sinceMs));
  }

  /** A finish or stop that its guard lets through. */
  predicate Ends(t: Task, e: TaskEvent) {
    if e.Finish? then t.status.Running? else e.Stop? && (t.status.Pending? || t.status.Running?)
  }

  /**
   A task that ends at `now` is stamped with that time, and the backfill delivers it as long as the window is
   open: exactly until `now + sinceMs`.
   */
  lemma EndingIsDeliveredInTime(w: World, id: string, e: TaskEvent, later: int, sinceMs: int)
    requires id in w.tasks && w.tasks[id].id == id && WellShaped(w.tasks[id]) && w.tasks[id].mirroredAt.None?
    requires Ends(w.tasks[id], e)
    ensures var t, r := w.tasks[id], RecordAfter(w, id, e);
            && r.Some? && r.value.completedAt == Some(e.now)
            && (e.Stop? ==> EndedBadly(t, r.value, e.message, e.reason, e.now))
            && var delivered := RecordAfter(Apply(w, TaskWrites(w, id, e)), id, Backfill(later, sinceMs));
               && delivered.Some?
               && (delivered.value.mirroredAt.Some? <==> t.sessionKey != "" && later - e.now <= sinceMs)
  {
    TaskEffect(w, id, e);
    var w' := Apply(w, TaskWrites(w, id, e));
    assert w'.tasks[id].id == id && WellShaped(w'.tasks[id]) && w'.tasks[id].mirroredAt.None?;
    BackfillDeliversExactly(w', id, later, sinceMs);
  }

  predicate EndedBadly(t: Task, r: Task, message: string, reason: TaskStatus, now: int) {
    && r.status == reason && r.error.Some? && FirstOf(r.error.value, message, 1000)
    && r.interruptedAt == (if reason.Interrupted? then Some(now) else t.interruptedAt)
  }

  function Clamp(minutes: int): int {
    if minutes < 1 then 1 else if minutes > 240 then 240 else minutes
  }

  function NewTask(id: string, maxMinutes: int, sessionKey: string, chainId: string, planId: string,
                   stepIndex: Option<int>, parentTaskId: string, now: int): Task {
    Task(id, TaskStatus.Pending, Clamp(maxMinutes), now, None, None, None, None, 0, None, None, None,
         None, None, None, sessionKey, chainId, planId, stepIndex, parentTaskId)
  }

  /**
   Every task from its creation on: well-shaped, what was asked for within the limits, stamped with exactly the
   times at which its status changed, and running no oftener than once more than it was resumed.
   */
  lemma CreatedTasksKeepShape(id: string, maxMinutes: int, sessionKey: string, chainId: string, planId: string,
                              stepIndex: Option<int>, parentTaskId: string, now: int, es: seq<TaskEvent>)
    ensures var t := NewTask(id, maxMinutes, sessionKey, chainId, planId, stepIndex, parentTaskId, now);
            var r := Run(t, es);
            && t.status.Pending? && t.mirroredAt.None? && t.result.None?
            && WellShaped(r) && Entries(t, es) <= 1 + r.resumeCount && Tells(r, StoryOf(UNTOLD, t, es))
            && r.id == id && r.createdAt == now && r.sessionKey == sessionKey && r.chainId == chainId
            && r.planId == planId && r.stepIndex == stepIndex && r.parentTaskId == parentTaskId
            && 1 <= r.maxMinutes <= 240 && (1 <= maxMinutes <= 240 ==> r.maxMinutes == maxMinutes)
            && (maxMinutes < 1 ==> r.maxMinutes == 1) && (maxMinutes > 240 ==> r.maxMinutes == 240)
  {
    var t := NewTask(id, maxMinutes, sessionKey, chainId, planId, stepIndex, parentTaskId, now);
    RunsKeepShape(t, es);
    EntriesAreBounded(t, es);
    IdentityStays(t, es);
    StampsKeepTelling(t, UNTOLD, es);
  }

  /** `id` stands for makeId's time-and-random identifier, `maxMinutes` for its floor. */
  method CreateBackgroundTask(disk: Store, id: string, maxMinutes: int, sessionKey: string, chainId: string,
                              planId: string, stepIndex: Option<int>, parentTaskId: string, now: int) returns (t: Task)
    modifies disk
    ensures t == NewTask(id, maxMinutes, sessionKey, chainId, planId, stepIndex, parentTaskId, now)
    ensures disk.State() == Apply1(old(disk.State()), PutTask(t))
    ensures disk.journal == old(disk.journal) + [PutTask(t)]
  {
    var capped := if maxMinutes < 240 then maxMinutes else 240;
    t := Task(id, TaskStatus.Pending, if capped > 1 then capped else 1, now, None, None, None, None, 0,
              None, None, None, None, None, None, sessionKey, chainId, planId, stepIndex, parentTaskId);
    disk.WriteTask(t);
  }

  method MarkRunning(disk: Store, id: string, now: int) returns (r: Option<Task>)
    modifies disk
    ensures disk.State() == Apply(old(disk.State()), TaskWrites(old(disk.State()), id, Start(now)))
    ensures disk.journal == old(disk.journal) + TaskWrites(old(disk.State()), id, Start(now))
    ensures r == if id in old(disk.tasks) then Transition(old(disk.tasks)[id], Start(now)) else None
  {
    if id !in disk.tasks { return None; }
    var task := disk.tasks[id];
    if !task.status.Pending? { return None; }
    task := task.(status := TaskStatus.Running, startedAt := Some(now));
    task := task.(completedAt := None, error := None);
    ApplyOne(disk.State(), PutTask(task));
    disk.WriteTask(task);
    return Some(task);
  }

  /** `doubts` stands for what verifyTaskClaims found missing; None when it found nothing or failed. */
  method MarkDone(disk: Store, id: string, text: string, note: string, doubts: Option<string>, now: int)
    returns (r: Option<Task>)
    requires id in disk.tasks ==> disk.tasks[id].id == id
    modifies disk
    ensures var e := Finish(text, note, doubts, now);
            && disk.State() == Apply(old(disk.State()), TaskWrites(old(disk.State()), id, e))
            && disk.journal == old(disk.journal) + TaskWrites(old(disk.State()), id, e)
    ensures r.None? <==> id !in old(disk.tasks)
    ensures r.Some? ==>
              r.value == Transition(old(disk.tasks)[id], Finish(text, note, doubts, now)).GetOr(old(disk.tasks)[id])
  {
    if id !in disk.tasks { return None; }
    var task := disk.tasks[id];
    if !task.status.Running? { return Some(task); }
    task := task.(status := TaskStatus.Done, completedAt := Some(now));
    var resultPath: Option<string> := None;
    if |text| > RESULT_TRUNCATE {
      disk.WriteResult(id, text);
      resultPath := Some(ResultPath(id));
    }
    if resultPath.Some? { task := task.(resultPath := resultPath); }
    task := task.(result := Some(text));
    if note != "" {
      task := task.(deliverableNote := Some(note));
    } else if resultPath.Some? {
      task := task.(deliverableNote := resultPath);
    }
    if doubts.Some? { task := task.(unverified := Some(Take(doubts.value, 1000))); }
    disk.WriteTask(task);
    assert Transition(old(disk.tasks)[id], Finish(text, note, doubts, now)) == Some(task);
    ApplyTwo(old(disk.State()), PutResult(id, text), PutTask(task));
    ApplyOne(old(disk.State()), PutTask(task));
    return Some(task);
  }

  method MarkFailed(disk: Store, id: string, message: string, reason: FailureStatus, now: int) returns (r: Option<Task>)
    modifies disk
    ensures disk.State() == Apply(old(disk.State()), TaskWrites(old(disk.State()), id, Stop(message, reason, now)))
    ensures disk.journal == old(disk.journal) + TaskWrites(old(disk.State()), id, Stop(message, reason, now))
    ensures r.None? <==> id !in old(disk.tasks)
    ensures r.Some? ==>
              r.value == Transition(old(disk.tasks)[id], Stop(message, reason, now)).GetOr(old(disk.tasks)[id])
  {
    if id !in disk.tasks { return None; }
    var task := disk.tasks[id];
    if task.status.Done? || task.status.Failed? || task.status.Aborted? || task.status.Interrupted? {
      return Some(task);
    }
    task := task.(status := reason, completedAt := Some(now));
    if reason.Interrupted? { task := task.(interruptedAt := task.completedAt); }
    task := task.(error := Some(Take(message, 1000)));
    ApplyOne(disk.State(), PutTask(task));
    disk.WriteTask(task);
    return Some(task);
  }

  method ResumeBackgroundTask(disk: Store, id: string, now: int) returns (r: Option<Task>)
    modifies disk
    ensures disk.State() == Apply(old(disk.State()), TaskWrites(old(disk.State()), id, Requeue(now)))
    ensures disk.journal == old(disk.journal) + TaskWrites(old(disk.State()), id, Requeue(now))
    ensures r == if id in old(disk.tasks) then Transition(old(disk.tasks)[id], Requeue(now)) else None
  {
    if id !in disk.tasks || !disk.tasks[id].status.Interrupted? { return None; }
    var task := disk.tasks[id];
    task := task.(status := TaskStatus.Pending, resumedAt := Some(now), resumeCount := task.resumeCount + 1);
    task := task.(startedAt := None, completedAt := None, error := None);
    ApplyOne(disk.State(), PutTask(task));
    disk.WriteTask(task);
    return Some(task);
  }

  method MarkMirrored(disk: Store, id: string, now: int)
    modifies disk
    ensures disk.State() == Apply(old(disk.State()), TaskWrites(old(disk.State()), id, Mirror(now)))
    ensures disk.journal == old(disk.journal) + TaskWrites(old(disk.State()), id, Mirror(now))
  {
    if id !in disk.tasks { return; }
    ApplyOne(disk.State(), PutTask(disk.tasks[id].(mirroredAt := Some(now))));
    disk.WriteTask(disk.tasks[id].(mirroredAt := Some(now)));
  }

  const RESTART_MESSAGE := "daemon restarted while task was in flight"

  /** listBackgroundTasks({status: 'running'}), as the set of their ids. */
  function RunningIds(tasks: map<string, Task>): set<string> {
    set id | id in tasks && tasks[id].status.Running?
  }

  function UnmirroredIds(tasks: map<string, Task>, now: int, sinceMs: int): set<string> {
    set id | id in tasks && Unmirrored(tasks[id], now, sinceMs)
  }

  /** The task directory after `e` happened to the records of `ids`. */
  function NextAll(tasks: map<string, Task>, ids: set<string>, e: TaskEvent): map<string, Task> {
    map id | id in tasks :: if id in ids then Next(tasks[id], e) else tasks[id]
  }

  lemma NextAllStep(tasks: map<string, Task>, ids: set<string>, id: string, e: TaskEvent)
    requires id in tasks && id !in ids
    ensures NextAll(tasks, {}, e) == tasks
    ensures NextAll(tasks, ids, e)[id] == tasks[id]
    ensures NextAll(tasks, ids, e)[id := Next(tasks[id], e)] == NextAll(tasks, ids + {id}, e)
  {
  }

  function Hygiene(now: int): TaskEvent { Stop(RESTART_MESSAGE, TaskStatus.Interrupted, now) }

  /** What restart hygiene leaves behind: nothing running, nothing but the running tasks touched. */
  lemma HygieneTouchesOnlyRunning(tasks: map<string, Task>, now: int)
    ensures var after := NextAll(tasks, RunningIds(tasks), Hygiene(now));
            && RunningIds(after) == {}
            && forall id :: id in tasks ==>
                 if tasks[id].status.Running?
                 then after[id].status.Interrupted? && after[id].resumeCount == tasks[id].resumeCount
                      && after[id].completedAt == after[id].interruptedAt == Some(now)
                      && after[id].error == Some("daemon restarted while task was in flight")
                 else after[id] == tasks[id]
  {
  }

  /** Backfilling twice delivers nothing the second time, at any later moment. */
  lemma SecondBackfillIsEmpty(tasks: map<string, Task>, now: int, later: int, sinceMs: int)
    requires 0 <= sinceMs && now <= later
    ensures var after := NextAll(tasks, UnmirroredIds(tasks, now, sinceMs), Backfill(now, sinceMs));
            UnmirroredIds(after, later, sinceMs) == {}
  {
  }

  /** markFailed on a running task, as restart hygiene calls it. */
  method InterruptOne(disk: Store, id: string, now: int)
    requires id in disk.tasks && disk.tasks[id].id == id
    modifies disk
    ensures disk.tasks == old(disk.tasks)[id := Next(old(disk.tasks)[id], Hygiene(now))]
    ensures disk.plans == old(disk.plans) && disk.results == old(disk.results)
  {
    TaskEffect(disk.State(), id, Hygiene(now));
    var _ := MarkFailed(disk, id, RESTART_MESSAGE, TaskStatus.Interrupted, now);
  }

  /** Restart hygiene; the count is that of the tasks found running. */
  method InterruptStaleRunningTasks(disk: Store, now: int) returns (interrupted: nat)
    requires forall id :: id in disk.tasks ==> disk.tasks[id].id == id
    modifies disk
    ensures interrupted == |RunningIds(old(disk.tasks))|
    ensures disk.tasks == NextAll(old(disk.tasks), RunningIds(old(disk.tasks)), Hygiene(now))
    ensures disk.plans == old(disk.plans) && disk.results == old(disk.results)
  {
    var stuck := RunningIds(disk.tasks);
    ghost var done: set<string>, was, all := {}, disk.tasks, stuck;
    interrupted := 0;
    while stuck != {}
      invariant done !! stuck && done + stuck == all && interrupted == |done|
      invariant disk.tasks == NextAll(was, done, Hygiene(now))
      invariant disk.plans == old(disk.plans) && disk.results == old(disk.results)
      decreases |stuck|
    {
      var id :| id in stuck;
      NextAllStep(was, done, id, Hygiene(now));
      InterruptOne(disk, id, now);
      stuck, done, interrupted := stuck - {id}, done + {id}, interrupted + 1;
    }
  }

  /** markBackgroundTaskMirrored on a delivery, as the backfill calls it. */
  method MirrorOne(disk: Store, id: string, now: int, sinceMs: int)
    requires id in disk.tasks && disk.tasks[id].id == id && Unmirrored(disk.tasks[id], now, sinceMs)
    modifies disk
    ensures disk.tasks == old(disk.tasks)[id := Next(old(disk.tasks)[id], Backfill(now, sinceMs))]
    ensures disk.plans == old(disk.plans) && disk.results == old(disk.results)
  {
    TaskEffect(disk.State(), id, Mirror(now));
    MarkMirrored(disk, id, now);
  }

  /** Startup backfill: stamps every unmirrored delivery and counts them. */
  method MirrorOrphanedDeliveries(disk: Store, now: int, sinceMs: int) returns (mirrored: nat)
    requires forall id :: id in disk.tasks ==> disk.tasks[id].id == id
    modifies disk
    ensures mirrored == |UnmirroredIds(old(disk.tasks), now, sinceMs)|
    ensures disk.tasks == NextAll(old(disk.tasks), UnmirroredIds(old(disk.tasks), now, sinceMs), Backfill(now, sinceMs))
    ensures disk.plans == old(disk.plans) && disk.results == old(disk.results)
  {
    var found := UnmirroredIds(disk.tasks, now, sinceMs);
    ghost var done: set<string>, was, all := {}, disk.tasks, found;
    mirrored := 0;
    while found != {}
      invariant done !! found && done + found == all && mirrored == |done|
      invariant disk.tasks == NextAll(was, done, Backfill(now, sinceMs))
      invariant disk.plans == old(disk.plans) && disk.results == old(disk.results)
      decreases |found|
    {
      var id :| id in found;
      NextAllStep(was, done, id, Backfill(now, sinceMs));
      MirrorOne(disk, id, now, sinceMs);
      found, done, mirrored := found - {id}, done + {id}, mirrored + 1;
    }
  }
}
