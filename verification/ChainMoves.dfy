/**
 One chain seen on its own: its persisted plan and the step index of every task created for it.

 A move is what one operation can do to that view when the daemon dies after its first `cut` file
 writes. The invariants of a chain are proved here; ChainRuns shows that every operation on the
 whole disk is one of these moves.
 */
module ChainMoves {
  import opened Wrappers
  import opened Disk
  import opened Orchestrator

  datatype Chain = Chain(plan: Plan, own: map<string, Option<int>>)

  datatype Move =
    | Idle
    | Launch(id: string, cut: nat)
    | Callback(task: Task, i: nat, id: string, now: int, cut: nat)
    | Halt(reason: string, cut: nat)
    | Restart(id: string, cut: nat)

  function Front(steps: seq<Step>): (f: nat)
    ensures f <= |steps|
    ensures forall j :: 0 <= j < f ==> !steps[j].status.Waiting?
    ensures f < |steps| ==> steps[f].status.Waiting?
  {
    NextWaiting(steps, 0).GetOr(|steps|)
  }

  /** Task write, then plan write; a crash keeps the first of them or neither. */
  function Hand(c: Chain, k: int, id: string, cut: nat, plan: Plan): Chain {
    if cut == 0 then c
    else if cut == 1 then c.(own := c.own[id := Some(k)])
    else Chain(plan, c.own[id := Some(k)])
  }

  function Save(c: Chain, cut: nat, plan: Plan): Chain {
    if cut == 0 then c else c.(plan := plan)
  }

  /** The number of file writes of a move. */
  function Cost(c: Chain, m: Move): nat {
    match m
    case Idle => 0
    case Launch(_, _) => 2
    case Callback(t, i, _, now, _) =>
      if i >= |c.plan.steps| || c.plan.steps[i].Terminal() then 0
      else
        var q := Reflect(c.plan, i, t, now);
        if t.status.Done? && NextWaiting(q.steps, q.steps[i].index + 1).Some? then 2 else 1
    case Halt(_, _) => 1
    case Restart(_, _) =>
      if c.plan.status.Completed? then 0 else if NextWaiting(c.plan.steps, 0).Some? then 2 else 1
  }

  /** A torn hand-over: the task is on disk, the plan that names it is not. Any other cut changes nothing. */
  predicate Torn(c: Chain, m: Move) { !m.Idle? && m.cut == 1 && Cost(c, m) == 2 }

  function After(c: Chain, m: Move): Chain {
    match m
    case Idle => c
    case Launch(id, cut) =>
      if c.plan.steps == [] then c else Hand(c, 0, id, cut, Assign(c.plan, 0, id).(status := InProgress))
    case Callback(t, i, id, now, cut) =>
      if i >= |c.plan.steps| || c.plan.steps[i].Terminal() then c else
      var q := Reflect(c.plan, i, t, now);
      if !t.status.Done? then Save(c, cut, q.(status := Paused)) else
      (match NextWaiting(q.steps, q.steps[i].index + 1)
       case None => Save(c, cut, q.(status := Completed))
       case Some(k) => Hand(c, q.steps[k].index, id, cut, Assign(q, k, id)))
    case Halt(reason, cut) =>
      Save(c, cut, c.plan.(status := Paused, notes := PauseNote(c.plan.notes, reason)))
    case Restart(id, cut) =>
      if c.plan.status.Completed? then c else
      match NextWaiting(c.plan.steps, 0)
      case None => Save(c, cut, c.plan.(status := Completed))
      case Some(k) => Hand(c, c.plan.steps[k].index, id, cut, Assign(c.plan, k, id).(status := InProgress))
  }

  /** New identifiers are new, and callbacks report the chain's own tasks. */
  predicate Allowed(c: Chain, m: Move) {
    match m
    case Idle => true
    case Launch(_, _) => false
    case Callback(t, i, id, _, _) => id !in c.own && t.id in c.own && c.own[t.id] == Some(i)
    case Halt(_, _) => true
    case Restart(id, _) => id !in c.own
  }

  predicate Positions(c: Chain) {
    forall i :: 0 <= i < |c.plan.steps| ==> c.plan.steps[i].index == i
  }

  predicate Fresh(c: Chain) {
    && c.own == map[] && c.plan.steps != [] && c.plan.status.NotStarted? && Positions(c)
    && forall i :: 0 <= i < |c.plan.steps| ==> c.plan.steps[i].status.Waiting? && c.plan.steps[i].taskId.None?
  }

  // ---- What no move undoes, after the launch ----

  lemma PositionsStay(c: Chain, m: Move)
    requires Positions(c)
    ensures Positions(After(c, m)) && |After(c, m).plan.steps| == |c.plan.steps|
  {
  }

  /** A step that has ended stays exactly as it is. */
  lemma TerminalStays(c: Chain, m: Move, i: nat)
    requires i < |c.plan.steps| && c.plan.steps[i].Terminal() && !m.Launch?
    ensures i < |After(c, m).plan.steps| && After(c, m).plan.steps[i] == c.plan.steps[i]
  {
  }

  /** A callback that takes effect and reports anything but success. */
  predicate Fails(c: Chain, m: Move) {
    && m.Callback? && m.i < |c.plan.steps| && !c.plan.steps[m.i].Terminal() && !m.task.status.Done? && m.cut > 0
  }

  /** A step is marked failed by such a callback and by nothing else; no step is ever skipped. */
  lemma FailureIsReported(c: Chain, m: Move, i: nat)
    requires i < |c.plan.steps| && !m.Launch?
    ensures i < |After(c, m).plan.steps|
    ensures After(c, m).plan.steps[i].status.Broken? <==>
            c.plan.steps[i].status.Broken? || (Fails(c, m) && m.i == i)
    ensures After(c, m).plan.steps[i].status.Skipped? <==> c.plan.steps[i].status.Skipped?
  {
  }

  /** The step to which a task is handed, torn or whole. */
  function HandsTo(c: Chain, m: Move): Option<nat> {
    match m
    case Launch(_, cut) => if cut > 0 && c.plan.steps != [] then Some(0) else None
    case Callback(t, i, _, now, cut) =>
      if cut == 0 || i >= |c.plan.steps| || c.plan.steps[i].Terminal() || !t.status.Done? then None
      else
        var q := Reflect(c.plan, i, t, now);
        NextWaiting(q.steps, q.steps[i].index + 1)
    case Restart(_, cut) => if cut == 0 || c.plan.status.Completed? then None else NextWaiting(c.plan.steps, 0)
    case _ => None
  }

  /** Only a pending step is handed on. A whole hand-over ends its waiting; every one adds one task for it. */
  lemma HandsExactly(c: Chain, m: Move)
    requires Positions(c)
    ensures HandsTo(c, m).None? ==> After(c, m).own == c.own
    ensures HandsTo(c, m).Some? && !m.Launch? ==>
      var k := HandsTo(c, m).value;
      && k < |c.plan.steps| && c.plan.steps[k].status.Waiting? && (m.cut == 1 <==> Torn(c, m))
      && After(c, m).own == c.own[m.id := Some(k)]
      && (m.cut > 1 ==> !After(c, m).plan.steps[k].status.Waiting?)
  {
  }

  lemma WaitingNeverReturns(c: Chain, m: Move, i: nat)
    requires i < |c.plan.steps| && !c.plan.steps[i].status.Waiting?
    ensures !After(c, m).plan.steps[i].status.Waiting?
  {
  }

  // ---- Whatever crashes happen ----

  function Waitings(steps: seq<Step>): (n: nat)
    ensures n <= |steps|
  {
    if steps == [] then 0
    else (if steps[|steps| - 1].status.Waiting? then 1 else 0) + Waitings(steps[..|steps| - 1])
  }

  lemma {:induction false} WaitingsUpdate(steps: seq<Step>, i: nat, s: Step)
    requires i < |steps|
    ensures Waitings(steps[i := s]) ==
            Waitings(steps) - (if steps[i].status.Waiting? then 1 else 0) + (if s.status.Waiting? then 1 else 0)
  {
    var n := |steps| - 1;
    if i < n {
      WaitingsUpdate(steps[..n], i, s);
      assert steps[i := s][..n] == steps[..n][i := s];
    } else {
      assert steps[i := s][..n] == steps[..n];
    }
  }

  lemma {:induction false} WaitingsAll(steps: seq<Step>)
    requires forall i :: 0 <= i < |steps| ==> steps[i].status.Waiting?
    ensures Waitings(steps) == |steps|
  {
    if steps != [] { WaitingsAll(steps[..|steps| - 1]); }
  }

  /** Every running step names an existing task that was created for exactly that step. */
  predicate NoDangling(c: Chain) {
    forall i :: 0 <= i < |c.plan.steps| && c.plan.steps[i].status.Active? ==>
      && c.plan.steps[i].taskId.Some?
      && c.plan.steps[i].taskId.value in c.own
      && c.own[c.plan.steps[i].taskId.value] == Some(i)
  }

  predicate Durable(c: Chain, crashes: nat) {
    && Positions(c)
    && NoDangling(c)
    && |c.own| + Waitings(c.plan.steps) <= |c.plan.steps| + crashes
  }

  function TornCount(c: Chain, m: Move): nat { if Torn(c, m) then 1 else 0 }

  lemma HandDurable(c: Chain, q: Plan, k: nat, id: string, cut: nat, status: PlanStatus, crashes: nat)
    requires Durable(c, crashes) && id !in c.own
    requires |q.steps| == |c.plan.steps| && k < |q.steps| && q.steps[k].status.Waiting?
    requires Durable(c.(plan := q), crashes)
    ensures Durable(Hand(c, k, id, cut, Assign(q, k, id).(status := status)), crashes + if cut == 1 then 1 else 0)
  {
    WaitingsUpdate(q.steps, k, q.steps[k].(taskId := Some(id), status := Active));
    assert |c.own[id := Some(k as int)]| == |c.own| + 1;
  }

  lemma ReflectDurable(c: Chain, i: nat, t: Task, now: int, status: PlanStatus, crashes: nat)
    requires Durable(c, crashes) && i < |c.plan.steps|
    ensures Durable(c.(plan := Reflect(c.plan, i, t, now).(status := status)), crashes)
  {
    WaitingsUpdate(c.plan.steps, i, Reflect(c.plan, i, t, now).steps[i]);
  }

  lemma CallbackDurable(c: Chain, m: Move, crashes: nat)
    requires Durable(c, crashes) && Allowed(c, m) && m.Callback?
    ensures Durable(After(c, m), crashes + TornCount(c, m))
  {
    var Callback(t, i, id, now, cut) := m;
    if i < |c.plan.steps| && !c.plan.steps[i].Terminal() {
      var q := Reflect(c.plan, i, t, now);
      var next := NextWaiting(q.steps, q.steps[i].index + 1);
      if !t.status.Done? {
        ReflectDurable(c, i, t, now, Paused, crashes);
      } else if next.None? {
        ReflectDurable(c, i, t, now, Completed, crashes);
      } else {
        ReflectDurable(c, i, t, now, q.status, crashes);
        assert q.(status := q.status) == q;
        HandDurable(c, q, next.value, id, cut, q.status, crashes);
      }
    }
  }

  lemma StaysDurable(c: Chain, m: Move, crashes: nat)
    requires Durable(c, crashes) && Allowed(c, m)
    ensures Durable(After(c, m), crashes + TornCount(c, m))
  {
    match m
    case Callback(_, _, _, _, _) => CallbackDurable(c, m, crashes);
    case Restart(id, cut) =>
      var next := NextWaiting(c.plan.steps, 0);
      if !c.plan.status.Completed? && next.Some? {
        HandDurable(c, c.plan, next.value, id, cut, InProgress, crashes);
      }
    case _ =>
  }

  lemma LaunchDurable(c: Chain, id: string, cut: nat)
    requires Fresh(c)
    ensures Durable(After(c, Launch(id, cut)), TornCount(c, Launch(id, cut)))
  {
    WaitingsAll(c.plan.steps);
    HandDurable(c, c.plan, 0, id, cut, InProgress, 0);
  }

  // ---- Order: pending steps form a suffix ----

  /** Pending steps are a suffix, and no task runs ahead of the first pending step. */
  predicate Ordered(c: Chain) {
    && Positions(c)
    && (forall j :: Front(c.plan.steps) <= j < |c.plan.steps| ==> c.plan.steps[j].status.Waiting?)
    && (forall id :: id in c.own ==>
          c.own[id].Some? && 0 <= c.own[id].value < |c.plan.steps| && c.own[id].value <= Front(c.plan.steps))
  }

  /** No crash so far: one task per dispatched step, and none for a pending one. */
  predicate OnePerStep(c: Chain) {
    && Ordered(c)
    && (forall i :: 0 <= i < |c.plan.steps| && c.plan.steps[i].status.Waiting? ==> c.plan.steps[i].taskId.None?)
    && (forall id :: id in c.own ==> c.plan.steps[c.own[id].value].taskId == Some(id))
    && |c.own| == Front(c.plan.steps)
  }

  lemma FrontIs(steps: seq<Step>, f: nat)
    requires f <= |steps| && (forall j :: 0 <= j < f ==> !steps[j].status.Waiting?)
    requires f < |steps| ==> steps[f].status.Waiting?
    ensures Front(steps) == f
  {
  }

  /** Step `Front` is handed on, in a plan `q` that may differ from the stored one in a finished step. */
  lemma HandOrdered(c: Chain, q: Plan, id: string, cut: nat, status: PlanStatus)
    requires Ordered(c) && id !in c.own
    requires |q.steps| == |c.plan.steps| && Ordered(c.(plan := q)) && Front(q.steps) < |q.steps|
    requires cut == 1 ==> Front(q.steps) == Front(c.plan.steps)
    ensures var c' := Hand(c, Front(q.steps), id, cut, Assign(q, Front(q.steps), id).(status := status));
            && Ordered(c')
            && (cut >= 2 ==> Front(c'.plan.steps) == Front(q.steps) + 1)
            && (cut >= 2 && OnePerStep(c.(plan := q)) ==> OnePerStep(c'))
            && (OnePerStep(c.(plan := q)) ==> forall j :: j in c'.own && j !in c.own ==> c'.own[j] == Some(|c.own|))
  {
    FrontIs(Assign(q, Front(q.steps), id).steps, Front(q.steps) + 1);
    assert |c.own[id := Some(Front(q.steps) as int)]| == |c.own| + 1;
  }

  lemma ReflectOrdered(c: Chain, i: nat, t: Task, now: int, status: PlanStatus)
    requires Ordered(c) && i < |c.plan.steps| && i <= Front(c.plan.steps)
    ensures var q := Reflect(c.plan, i, t, now).(status := status);
            && Ordered(c.(plan := q))
            && Front(q.steps) == (if i == Front(c.plan.steps) then i + 1 else Front(c.plan.steps))
            && NextWaiting(q.steps, i + 1) == (if Front(q.steps) < |q.steps| then Some(Front(q.steps)) else None)
            && (OnePerStep(c) && i < Front(c.plan.steps) ==> OnePerStep(c.(plan := q)))
  {
    FrontIs(Reflect(c.plan, i, t, now).steps, if i == Front(c.plan.steps) then i + 1 else Front(c.plan.steps));
  }

  /** A callback on an ordered chain, case by case. */
  lemma CallbackCases(c: Chain, m: Move)
    requires m.Callback? && Ordered(c) && m.i < |c.plan.steps| && m.i <= Front(c.plan.steps)
    ensures var q := Reflect(c.plan, m.i, m.task, m.now);
            if c.plan.steps[m.i].Terminal() then After(c, m) == c && Cost(c, m) == 0
            else if !m.task.status.Done? then After(c, m) == Save(c, m.cut, q.(status := Paused)) && Cost(c, m) == 1
            else if Front(q.steps) == |q.steps| then After(c, m) == Save(c, m.cut, q.(status := Completed))
              && Cost(c, m) == 1
            else After(c, m) == Hand(c, Front(q.steps), m.id, m.cut, Assign(q, Front(q.steps), m.id)) && Cost(c, m) == 2
  {
    ReflectOrdered(c, m.i, m.task, m.now, c.plan.status);
    var q := Reflect(c.plan, m.i, m.task, m.now);
    assert q.(status := c.plan.status) == q;
    assert q.steps[m.i].index == m.i;
  }

  lemma OwnIsBehind(c: Chain, id: string)
    requires OnePerStep(c) && id in c.own
    ensures c.own[id].value < Front(c.plan.steps)
  {
  }

  lemma CallbackOrder(c: Chain, m: Move)
    requires m.Callback? && Allowed(c, m) && Ordered(c)
    requires !Torn(c, m) || OnePerStep(c)
    ensures Ordered(After(c, m))
    ensures OnePerStep(c) && !Torn(c, m) ==> OnePerStep(After(c, m))
    ensures OnePerStep(c) ==> forall id :: id in After(c, m).own && id !in c.own ==>
      After(c, m).own[id] == Some(|c.own|)
  {
    var Callback(t, i, id, now, cut) := m;
    CallbackCases(c, m);
    if OnePerStep(c) { OwnIsBehind(c, t.id); }
    var q := Reflect(c.plan, i, t, now);
    if c.plan.steps[i].Terminal() {
    } else if !t.status.Done? {
      ReflectOrdered(c, i, t, now, Paused);
    } else if Front(q.steps) == |q.steps| {
      ReflectOrdered(c, i, t, now, Completed);
    } else {
      ReflectOrdered(c, i, t, now, q.status);
      assert q.(status := q.status) == q;
      HandOrdered(c, q, id, cut, q.status);
    }
  }

  lemma RestartOrder(c: Chain, m: Move)
    requires m.Restart? && Allowed(c, m) && Ordered(c)
    requires !Torn(c, m) || OnePerStep(c)
    ensures Ordered(After(c, m))
    ensures OnePerStep(c) && !Torn(c, m) ==> OnePerStep(After(c, m))
    ensures OnePerStep(c) ==> forall id :: id in After(c, m).own && id !in c.own ==>
      After(c, m).own[id] == Some(|c.own|)
  {
    var f := Front(c.plan.steps);
    if !c.plan.status.Completed? && f < |c.plan.steps| {
      assert c.(plan := c.plan) == c;
      HandOrdered(c, c.plan, m.id, m.cut, InProgress);
    }
  }

  /**
   While nothing has crashed, tasks are created in step order: the next one is for the step whose
   number is the count of tasks so far. The first crash still leaves the chain ordered.
   */
  lemma StaysOrdered(c: Chain, m: Move)
    requires Allowed(c, m) && Ordered(c)
    requires !Torn(c, m) || OnePerStep(c)
    ensures Ordered(After(c, m))
    ensures OnePerStep(c) && !Torn(c, m) ==> OnePerStep(After(c, m))
    ensures OnePerStep(c) ==> forall id :: id in After(c, m).own && id !in c.own ==>
      After(c, m).own[id] == Some(|c.own|)
  {
    match m
    case Callback(_, _, _, _, _) => CallbackOrder(c, m);
    case Restart(_, _) => RestartOrder(c, m);
    case _ =>
  }

  lemma LaunchOrdered(c: Chain, id: string, cut: nat)
    requires Fresh(c)
    ensures Ordered(After(c, Launch(id, cut)))
    ensures cut != 1 ==> OnePerStep(After(c, Launch(id, cut)))
  {
    assert c.(plan := c.plan) == c && Front(c.plan.steps) == 0;
    HandOrdered(c, c.plan, id, cut, InProgress);
  }

  lemma NoSecondTask(c: Chain, a: string, b: string)
    requires OnePerStep(c) && a in c.own && b in c.own && c.own[a] == c.own[b]
    ensures a == b
  {
    assert Some(a) == Some(b);
  }

  // ---- Shape: runs without pauseChain, resumed only when paused ----

  predicate Settled(s: Step) { s.status.Succeeded? || s.status.Broken? }

  /** (done|failed)* running? pending*, with the plan status that fits it. */
  predicate Shape(p: Plan) {
    var s, f := p.steps, Front(p.steps);
    && 0 < f
    && (forall i :: 0 <= i < f - 1 ==> Settled(s[i]))
    && (Settled(s[f - 1]) || s[f - 1].status.Active?)
    && (forall i :: f <= i < |s| ==> s[i].status.Waiting?)
    && (p.status.InProgress? <==> s[f - 1].status.Active?)
    && !p.status.NotStarted?
    && (p.status.Completed? ==> f == |s|)
  }

  /** And, when the chain was never resumed: a step is dispatched only after every earlier one succeeded. */
  predicate Unbroken(p: Plan) {
    var s, f := p.steps, Front(p.steps);
    && Shape(p)
    && (forall i :: 0 <= i < f - 1 ==> s[i].status.Succeeded?)
    && (p.status.Completed? ==> s[f - 1].status.Succeeded?)
    && (p.status.Paused? ==> s[f - 1].status.Broken?)
  }

  predicate Shaped(c: Chain) { OnePerStep(c) && Shape(c.plan) }

  predicate Disciplined(c: Chain, m: Move) {
    && Allowed(c, m) && !Torn(c, m)
    && !m.Halt?
    && (m.Restart? ==> c.plan.status.Paused?)
  }

  /** The running step ends: the chain pauses, completes, or runs its next step. */
  lemma ShapeAfterReflect(p: Plan, t: Task, now: int, id: string)
    requires Shape(p) && p.status.InProgress?
    ensures var f := Front(p.steps); var q := Reflect(p, f - 1, t, now);
            && Front(q.steps) == f
            && (!t.status.Done? ==> Shape(q.(status := Paused)) && (Unbroken(p) ==> Unbroken(q.(status := Paused))))
            && (t.status.Done? && f == |q.steps| ==>
                  Shape(q.(status := Completed)) && (Unbroken(p) ==> Unbroken(q.(status := Completed))))
            && (t.status.Done? && f < |q.steps| ==>
                  Shape(Assign(q, f, id)) && (Unbroken(p) ==> Unbroken(Assign(q, f, id))))
  {
    var f := Front(p.steps);
    var q := Reflect(p, f - 1, t, now);
    FrontIs(q.steps, f);
    if f < |q.steps| { FrontIs(Assign(q, f, id).steps, f + 1); }
  }

  lemma CallbackShape(c: Chain, m: Move)
    requires Shaped(c) && Disciplined(c, m) && m.Callback?
    ensures Shape(After(c, m).plan)
    ensures Unbroken(c.plan) ==> Unbroken(After(c, m).plan)
  {
    CallbackCases(c, m);
    OwnIsBehind(c, m.task.id);
    if !c.plan.steps[m.i].Terminal() {
      assert m.i == Front(c.plan.steps) - 1;
      ShapeAfterReflect(c.plan, m.task, m.now, m.id);
    }
  }

  lemma RestartShape(c: Chain, m: Move)
    requires Shaped(c) && Disciplined(c, m) && m.Restart?
    ensures Shape(After(c, m).plan)
  {
    var f := Front(c.plan.steps);
    if f < |c.plan.steps| { FrontIs(Assign(c.plan, f, m.id).steps, f + 1); }
  }

  lemma StaysShaped(c: Chain, m: Move)
    requires Shaped(c) && Disciplined(c, m)
    ensures Shaped(After(c, m))
    ensures Unbroken(c.plan) && !m.Restart? ==> Unbroken(After(c, m).plan)
  {
    StaysOrdered(c, m);
    match m
    case Callback(_, _, _, _, _) => CallbackShape(c, m);
    case Restart(_, _) => RestartShape(c, m);
    case _ =>
  }

  lemma LaunchShaped(c: Chain, id: string, cut: nat)
    requires Fresh(c) && cut >= 2
    ensures Shaped(After(c, Launch(id, cut))) && Unbroken(After(c, Launch(id, cut)).plan)
  {
    LaunchOrdered(c, id, cut);
    FrontIs(Assign(c.plan, 0, id).steps, 1);
  }

  /** Shape, as a statement about any two positions. */
  predicate WellFormedChain(p: Plan, i: nat, j: nat) {
    var s := p.steps;
    && (i < j < |s| && s[i].status.Waiting? ==> s[j].status.Waiting?)
    && (i < j < |s| && !s[j].status.Waiting? ==> Settled(s[i]))
    && (i < |s| && s[i].status.Active? ==> p.status.InProgress?)
    && (p.status.InProgress? ==> exists k :: 0 <= k < |s| && s[k].status.Active?)
    && (p.status.Completed? && i < |s| ==> Settled(s[i]))
    && !p.status.NotStarted?
  }

  lemma ShapeMeans(p: Plan, i: nat, j: nat)
    requires Shape(p)
    ensures WellFormedChain(p, i, j)
  {
    assert p.status.InProgress? ==> p.steps[Front(p.steps) - 1].status.Active?;
  }

  lemma UnbrokenMeans(p: Plan, i: nat, j: nat)
    requires Unbroken(p)
    ensures i < j < |p.steps| && !p.steps[j].status.Waiting? ==> p.steps[i].status.Succeeded?
    ensures p.status.Completed? && i < |p.steps| ==> p.steps[i].status.Succeeded?
  {
  }

  // ---- Resumes of a chain that still runs ----

  predicate AnyActive(p: Plan) { exists i :: 0 <= i < |p.steps| && p.steps[i].status.Active? }

  predicate TwoActive(p: Plan) {
    exists i, j :: 0 <= i < j < |p.steps| && p.steps[i].status.Active? && p.steps[j].status.Active?
  }

  predicate AllEnded(p: Plan) { forall i :: 0 <= i < |p.steps| ==> p.steps[i].Terminal() }

  /** Two steps run at once, or the plan counts as completed although a step has not ended. */
  predicate Muddled(p: Plan) { TwoActive(p) || (p.status.Completed? && !AllEnded(p)) }

  /** A resume that takes effect while a step runs. */
  predicate ResumesRunning(c: Chain, m: Move) {
    m.Restart? && m.cut > 0 && !c.plan.status.Completed? && AnyActive(c.plan)
  }

  lemma CallbackKeepsOrder(c: Chain, m: Move)
    requires m.Callback? && Allowed(c, m) && OnePerStep(c) && !Muddled(c.plan)
    ensures !Muddled(After(c, m).plan)
  {
    CallbackCases(c, m);
    OwnIsBehind(c, m.task.id);
    var q := Reflect(c.plan, m.i, m.task, m.now);
    if !c.plan.steps[m.i].Terminal() {
      assert c.plan.steps[m.i].status.Active?;
      assert !AnyActive(q) && !c.plan.status.Completed?;
    }
  }

  lemma ResumeMuddles(c: Chain, m: Move)
    requires Allowed(c, m) && ResumesRunning(c, m) && !Torn(c, m) && Positions(c)
    ensures Muddled(After(c, m).plan)
  {
    var i :| 0 <= i < |c.plan.steps| && c.plan.steps[i].status.Active?;
    var c' := After(c, m);
    match NextWaiting(c.plan.steps, 0)
    case None => assert !c'.plan.steps[i].Terminal();
    case Some(k) =>
      assert c'.plan.steps[k].status.Active? && c'.plan.steps[i].status.Active?;
  }

  /** With one task per step, a resume of a running chain is the one move that muddles it. */
  lemma MuddledExactly(c: Chain, m: Move)
    requires OnePerStep(c) && Allowed(c, m) && !Torn(c, m) && !Muddled(c.plan)
    ensures Muddled(After(c, m).plan) <==> ResumesRunning(c, m)
  {
    if ResumesRunning(c, m) {
      ResumeMuddles(c, m);
    } else if m.Callback? {
      CallbackKeepsOrder(c, m);
    } else if m.Restart? && m.cut > 0 && !c.plan.status.Completed? {
      IdleResume(c, m);
    }
  }

  lemma IdleResume(c: Chain, m: Move)
    requires m.Restart? && m.cut > 0 && !c.plan.status.Completed? && !AnyActive(c.plan)
    ensures !Muddled(After(c, m).plan)
  {
  }

  /** A chain in shape has no running step while it is paused. */
  lemma PausedRunsNothing(c: Chain, m: Move)
    requires Shaped(c) && Disciplined(c, m)
    ensures !ResumesRunning(c, m)
  {
  }
}
