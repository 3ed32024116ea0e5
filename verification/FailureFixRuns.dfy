/**
 Interleavings of the fix loop: a tick stops between acting on a trigger and unlinking it, and meanwhile
 other ticks may be asked for, the scheduler may write triggers, and the daemon may die
 (src/agent/failure-fix-consumer.ts:497-543, src/gateway/cron-scheduler.ts:1732-1748).
 */
module FailureFixRuns {
  import opened FailureFix
  import opened Wrappers

  /** The trigger acted on but not yet unlinked: its file and the number of the write that made it. */
  datatype Current = Current(file: string, stamp: nat)

  datatype Loop = Idle | Ticking(queue: seq<string>, current: Option<Current>, counts: Counts)

  /**
   Writes of trigger files are numbered. `handled` counts how often each was acted on, `orphaned` how often
   the daemon died between acting on it and unlinking it.
   */
  datatype System = System(w: Work, stamps: map<string, nat>, writes: nat, handled: multiset<nat>,
                           orphaned: multiset<nat>, loop: Loop)

  datatype Event = Write(file: string, content: Content) | Tick(listing: seq<string>) | Read | Finish | End | Die

  predicate Enabled(y: System, e: Event) {
    match e
    case Write(_, _) => true
    case Tick(listing) => y.loop.Idle? ==> Distinct(listing) && forall f :: f in listing ==> f in y.w.triggers
    case Read => y.loop.Ticking? && y.loop.current.None? && y.loop.queue != []
    case Finish => y.loop.Ticking? && y.loop.current.Some?
    case End => y.loop.Ticking? && y.loop.current.None? && y.loop.queue == []
    case Die => true
  }

  predicate Handling(y: System, file: string) {
    y.loop.Ticking? && y.loop.current.Some? && y.loop.current.value.file == file
  }

  function Unlink(y: System, file: string): System {
    y.(w := y.w.(triggers := y.w.triggers - {file}), stamps := y.stamps - {file})
  }

  /** Passing over the head of the queue. */
  function Skip(y: System): System
    requires Enabled(y, Read)
  {
    y.(loop := y.loop.(queue := y.loop.queue[1..]))
  }

  /** Take the next trigger of the queue and act on it, without removing it yet. */
  function ReadNext(y: System, autoApply: bool): System
    requires Enabled(y, Read)
  {
    var file := y.loop.queue[0];
    var rest := Skip(y);
    if file !in y.w.triggers then rest
    else
      match y.w.triggers[file]
      case Garbage => Unlink(rest, file)
      case NullValue => y.(loop := Idle)
      case Incomplete => rest
      case Parsed(t) =>
        var e := ProcessOne(y.w.files, t, autoApply);
        if e.None? then rest else Act(y, t, e.value)
  }

  /** The head of the queue is acted on and becomes the trigger to unlink. */
  function Act(y: System, t: Trigger, e: Effect): System
    requires Enabled(y, Read)
  {
    var file := y.loop.queue[0];
    var stamp := if file in y.stamps then y.stamps[file] else y.writes;
    y.(w := Perform(y.w, t, e),
       handled := y.handled + multiset{stamp},
       loop := Ticking(y.loop.queue[1..], Some(Current(file, stamp)), Count(y.loop.counts, e)))
  }

  function Step(y: System, autoApply: bool, e: Event): System
    requires Enabled(y, e)
  {
    match e
    case Write(file, content) =>
      y.(w := y.w.(triggers := y.w.triggers[file := content]),
         stamps := y.stamps[file := y.writes], writes := y.writes + 1)
    case Tick(listing) => if y.loop.Ticking? then y else y.(loop := Ticking(listing, None, ZERO))
    case Read => ReadNext(y, autoApply)
    case Finish =>
      Unlink(y, y.loop.current.value.file).(loop :=
        y.loop.(current := None, counts := y.loop.counts.(processed := y.loop.counts.processed + 1)))
    case End => y.(loop := Idle)
    case Die =>
      if Enabled(y, Finish) then y.(orphaned := y.orphaned + multiset{y.loop.current.value.stamp}, loop := Idle)
      else y.(loop := Idle)
  }

  function Start(files: Files): System {
    System(Work(files, map[], [], map[]), map[], 0, multiset{}, multiset{}, Idle)
  }

  function Run(y: System, autoApply: bool, events: seq<Event>): Option<System>
    decreases |events|
  {
    if events == [] then Some(y)
    else if !Enabled(y, events[0]) then None
    else Run(Step(y, autoApply, events[0]), autoApply, events[1..])
  }

  // ---- A tick that nobody disturbs ----

  /** The tick goes on by itself, reading and unlinking, until it has nothing left or dies. */
  function Drive(y: System, autoApply: bool): (r: System)
    ensures !Enabled(r, Finish) && !Enabled(r, Read)
    decreases if y.loop.Ticking? then |y.loop.queue| else 0, if Enabled(y, Finish) then 1 else 0
  {
    if Enabled(y, Finish) then Drive(Step(y, autoApply, Finish), autoApply)
    else if Enabled(y, Read) then Drive(Step(y, autoApply, Read), autoApply)
    else y
  }

  lemma {:induction false} TickAllCons(w: Work, counts: Counts, autoApply: bool, file: string, rest: seq<string>)
    ensures var m := HandleFile(w, counts, autoApply, file);
            TickAll(w, counts, autoApply, [file] + rest) ==
              if m.died then m else TickAll(m.w, m.counts, autoApply, rest)
    decreases |rest|
  {
    var all := [file] + rest;
    if rest == [] {
      assert all[..0] == [] && TickAll(w, counts, autoApply, []) == Ticked(w, counts, false);
    } else {
      TickAllCons(w, counts, autoApply, file, rest[..|rest| - 1]);
      assert all[..|all| - 1] == [file] + rest[..|rest| - 1];
    }
  }

  /** One file of the queue: read, and unlinked if it was acted on. */
  function ReadAndUnlink(y: System, autoApply: bool): System
    requires Enabled(y, Read)
  {
    var read := ReadNext(y, autoApply);
    if Enabled(read, Finish) then Step(read, autoApply, Finish) else read
  }

  lemma ReadHandles(y: System, autoApply: bool)
    requires Enabled(y, Read)
    ensures var m, z := HandleFile(y.w, y.loop.counts, autoApply, y.loop.queue[0]), ReadAndUnlink(y, autoApply);
            z.w == m.w && z.loop == if m.died then Idle else Ticking(y.loop.queue[1..], None, m.counts)
  {
    var file := y.loop.queue[0];
    if file in y.w.triggers && y.w.triggers[file].Parsed? {
      var t := y.w.triggers[file].trigger;
      var e := ProcessOne(y.w.files, t, autoApply);
      if e.Some? { ActIsConclude(y, autoApply, t, e.value); }
    }
  }

  lemma ActIsConclude(y: System, autoApply: bool, t: Trigger, e: Effect)
    requires Enabled(y, Read)
    ensures var r := Conclude(y.w, y.loop.counts, y.loop.queue[0], t, Some(e));
            var z := Step(Act(y, t, e), autoApply, Finish);
            z.w == r.w && z.loop == Ticking(y.loop.queue[1..], None, r.counts)
  {
  }

  lemma DriveOne(y: System, autoApply: bool)
    requires Enabled(y, Read)
    ensures Drive(y, autoApply) == Drive(ReadAndUnlink(y, autoApply), autoApply)
  {
    assert !Enabled(y, Finish);
  }

  /** Undisturbed it does what Tick does: the same files, triggers, proposals and counts, and it dies alike. */
  lemma {:induction false} UndisturbedTickIsTheTick(y: System, autoApply: bool)
    requires y.loop.Ticking? && y.loop.current.None?
    ensures var z, r := Drive(y, autoApply), TickAll(y.w, y.loop.counts, autoApply, y.loop.queue);
            z.w == r.w && z.loop == if r.died then Idle else Ticking([], None, r.counts)
    decreases |y.loop.queue|
  {
    var queue := y.loop.queue;
    if queue != [] {
      DriveOne(y, autoApply);
      assert queue == [queue[0]] + queue[1..];
      TickAllCons(y.w, y.loop.counts, autoApply, queue[0], queue[1..]);
      ReadHandles(y, autoApply);
      if !HandleFile(y.w, y.loop.counts, autoApply, queue[0]).died {
        UndisturbedTickIsTheTick(ReadAndUnlink(y, autoApply), autoApply);
      }
    }
  }

  /** It can end exactly when it has nothing left to read or unlink. */
  lemma TicksEndWhenDone(y: System, autoApply: bool)
    ensures Enabled(y, End) <==> y.loop.Ticking? && Drive(y, autoApply) == y
  {
  }

  // ---- The invariant ----

  ghost predicate Numbered(y: System) {
    && y.stamps.Keys == y.w.triggers.Keys
    && (forall f :: f in y.stamps ==> y.stamps[f] < y.writes)
    && (forall f, g :: f in y.stamps && g in y.stamps && f != g ==> y.stamps[f] != y.stamps[g])
  }

  /** No write is acted on more than once, but for the times the daemon died over it. */
  ghost predicate Once(y: System) {
    && (forall n :: y.handled[n] <= 1 + y.orphaned[n])
    && (forall n: nat :: n >= y.writes ==> y.handled[n] == 0)
    && (forall f :: f in y.stamps && !Handling(y, f) ==> y.handled[y.stamps[f]] <= y.orphaned[y.stamps[f]])
    && (forall f :: f in y.stamps && Handling(y, f) && y.stamps[f] != y.loop.current.value.stamp ==>
          y.handled[y.stamps[f]] == 0)
  }

  predicate Queued(y: System) {
    y.loop.Ticking? ==>
      && Distinct(y.loop.queue)
      && (y.loop.current.Some? ==> y.loop.current.value.file !in y.loop.queue && y.loop.current.value.stamp < y.writes)
      && y.loop.counts.processed + (if y.loop.current.Some? then 1 else 0)
         == y.loop.counts.applied + y.loop.counts.pending + y.loop.counts.noop
  }

  ghost predicate Sound(y: System) { Numbered(y) && Once(y) && Queued(y) }

  lemma ActKeepsSound(y: System, t: Trigger, e: Effect)
    requires Sound(y) && Enabled(y, Read) && y.loop.queue[0] in y.w.triggers
    ensures Sound(Act(y, t, e))
  {
    var file, y' := y.loop.queue[0], Act(y, t, e);
    assert y'.w.triggers == y.w.triggers && y'.handled == y.handled + multiset{y.stamps[file]};
    assert y.handled[y.stamps[file]] <= y.orphaned[y.stamps[file]];
  }

  lemma SkipKeepsSound(y: System)
    requires Sound(y) && Enabled(y, Read)
    ensures Sound(Skip(y))
  {
  }

  lemma UnlinkKeepsSound(y: System, file: string)
    requires Sound(y) && y.loop.Ticking? && y.loop.current.None?
    ensures Sound(Unlink(y, file))
  {
  }

  /** The four things that reading can do. */
  lemma ReadCases(y: System, autoApply: bool)
    requires Enabled(y, Read)
    ensures var y', file := ReadNext(y, autoApply), y.loop.queue[0];
            || y' == Skip(y) || y' == Unlink(Skip(y), file) || y' == y.(loop := Idle)
            || (file in y.w.triggers && y.w.triggers[file].Parsed?
                && ProcessOne(y.w.files, y.w.triggers[file].trigger, autoApply).Some?
                && y' == Act(y, y.w.triggers[file].trigger,
                  ProcessOne(y.w.files, y.w.triggers[file].trigger, autoApply).value))
  {
  }

  lemma ReadKeepsSound(y: System, autoApply: bool)
    requires Sound(y) && Enabled(y, Read)
    ensures Sound(ReadNext(y, autoApply))
  {
    var y', file := ReadNext(y, autoApply), y.loop.queue[0];
    ReadCases(y, autoApply);
    if y' == Skip(y) {
      SkipKeepsSound(y);
    } else if y' == Unlink(Skip(y), file) {
      SkipKeepsSound(y);
      UnlinkKeepsSound(Skip(y), file);
    } else if y' == y.(loop := Idle) {
      StopKeepsSound(y);
    } else {
      var t := y.w.triggers[file].trigger;
      ActKeepsSound(y, t, ProcessOne(y.w.files, t, autoApply).value);
    }
  }

  lemma StopKeepsSound(y: System)
    requires Sound(y) && y.loop.Ticking? && y.loop.current.None?
    ensures Sound(y.(loop := Idle))
  {
  }

  lemma WriteKeepsSound(y: System, file: string, content: Content)
    requires Sound(y)
    ensures Sound(Step(y, true, Write(file, content))) && Sound(Step(y, false, Write(file, content)))
  {
  }

  lemma FinishKeepsSound(y: System, autoApply: bool)
    requires Sound(y) && Enabled(y, Finish)
    ensures Sound(Step(y, autoApply, Finish))
  {
  }

  lemma DieKeepsSound(y: System, autoApply: bool)
    requires Sound(y)
    ensures Sound(Step(y, autoApply, Die))
  {
    if Enabled(y, Finish) {
      var c := y.loop.current.value;
      assert Step(y, autoApply, Die).orphaned == y.orphaned + multiset{c.stamp};
    }
  }

  lemma StepKeepsSound(y: System, autoApply: bool, e: Event)
    requires Sound(y) && Enabled(y, e)
    ensures Sound(Step(y, autoApply, e))
  {
    match e
    case Write(file, content) => WriteKeepsSound(y, file, content);
    case Read => ReadKeepsSound(y, autoApply);
    case Finish => FinishKeepsSound(y, autoApply);
    case Die => DieKeepsSound(y, autoApply);
    case _ =>
  }

  lemma {:induction false} SoundRun(y: System, autoApply: bool, events: seq<Event>)
    requires Sound(y)
    ensures Run(y, autoApply, events).Some? ==> Sound(Run(y, autoApply, events).value)
    decreases |events|
  {
    if events != [] && Enabled(y, events[0]) {
      StepKeepsSound(y, autoApply, events[0]);
      SoundRun(Step(y, autoApply, events[0]), autoApply, events[1..]);
    }
  }

  /**
   However ticks, writes, unlinks and deaths of the daemon interleave, a write of a trigger is acted on at
   most once more than the daemon died over it, and every tick's books balance.
   */
  lemma NoTriggerTwice(files: Files, autoApply: bool, events: seq<Event>)
    ensures var y := Run(Start(files), autoApply, events);
            y.Some? ==> (forall n :: y.value.handled[n] <= 1 + y.value.orphaned[n]) && Queued(y.value)
  {
    SoundRun(Start(files), autoApply, events);
  }

  // ---- When a write is lost ----

  /** The write `n` of `file`, a readable trigger, is on disk and nobody has acted on it. */
  predicate Waiting(y: System, file: string, n: nat) {
    && file in y.stamps && y.stamps[file] == n && y.handled[n] == 0
    && file in y.w.triggers && y.w.triggers[file].Parsed?
  }

  /** The write `n` is gone from disk and nobody has acted on it. */
  ghost predicate Gone(y: System, n: nat) {
    n < y.writes && y.handled[n] == 0 && forall f :: f in y.stamps ==> y.stamps[f] != n
  }

  predicate Rewritten(e: Event, file: string) { e.Write? && e.file == file }

  lemma ActLosesNothing(y: System, t: Trigger, e: Effect, file: string, n: nat)
    requires Sound(y) && Enabled(y, Read) && Waiting(y, file, n) && y.loop.queue[0] in y.stamps
    ensures var y' := Act(y, t, e); y'.handled[n] > 0 || (Waiting(y', file, n) && !Handling(y', file))
  {
    var head, y' := y.loop.queue[0], Act(y, t, e);
    assert y'.w.triggers == y.w.triggers && y'.handled == y.handled + multiset{y.stamps[head]};
  }

  lemma SkipLosesNothing(y: System, file: string, n: nat)
    requires Sound(y) && Enabled(y, Read) && Waiting(y, file, n)
    ensures var rest := Skip(y);
            && Waiting(rest, file, n) && !Handling(rest, file)
            && (y.loop.queue[0] != file ==> Waiting(Unlink(rest, y.loop.queue[0]), file, n))
  {
  }

  /** What reading does to the write `n`: it is acted on, or nothing happens to it. */
  lemma ReadLosesNothing(y: System, autoApply: bool, file: string, n: nat)
    requires Sound(y) && Enabled(y, Read) && Waiting(y, file, n)
    ensures var y' := ReadNext(y, autoApply);
            y'.handled[n] > 0 || (Waiting(y', file, n) && !Handling(y', file))
  {
    var head := y.loop.queue[0];
    SkipLosesNothing(y, file, n);
    if head in y.w.triggers && y.w.triggers[head].Parsed? {
      var e := ProcessOne(y.w.files, y.w.triggers[head].trigger, autoApply);
      if e.Some? { ActLosesNothing(y, y.w.triggers[head].trigger, e.value, file, n); }
    }
  }

  lemma WaitingIsNotGone(y: System, file: string, n: nat)
    requires Waiting(y, file, n)
    ensures !Gone(y, n)
  {
    assert y.stamps[file] == n;
  }

  lemma FinishLosesExactly(y: System, autoApply: bool, file: string, n: nat)
    requires Sound(y) && Enabled(y, Finish) && Waiting(y, file, n)
    ensures var y' := Step(y, autoApply, Finish);
            if Handling(y, file) then Gone(y', n) else Waiting(y', file, n)
  {
  }

  /** One step loses a write that waits exactly when it unlinks its file. */
  lemma StepLosesExactly(y: System, autoApply: bool, e: Event, file: string, n: nat)
    requires Sound(y) && Enabled(y, e) && Waiting(y, file, n) && !Rewritten(e, file)
    ensures var y' := Step(y, autoApply, e);
            && (Gone(y', n) <==> e.Finish? && Handling(y, file))
            && (Gone(y', n) || y'.handled[n] > 0 || Waiting(y', file, n))
  {
    var y' := Step(y, autoApply, e);
    if e.Read? { ReadLosesNothing(y, autoApply, file, n); }
    if e.Finish? { FinishLosesExactly(y, autoApply, file, n); }
    if Waiting(y', file, n) { WaitingIsNotGone(y', file, n); }
  }

  lemma HandlingChanges(y: System, autoApply: bool, e: Event, file: string, n: nat)
    requires Sound(y) && Enabled(y, e) && Waiting(y, file, n) && !Rewritten(e, file)
    requires Waiting(Step(y, autoApply, e), file, n)
    ensures Handling(Step(y, autoApply, e), file) <==> Handling(y, file) && !e.Die?
  {
    if e.Read? { ReadLosesNothing(y, autoApply, file, n); }
  }

  lemma HandledGrows(y: System, autoApply: bool, e: Event, n: nat)
    requires Enabled(y, e)
    ensures Step(y, autoApply, e).handled[n] >= y.handled[n]
  {
  }

  /** What is gone never comes back: the stamps of a step are old ones, or the next number. */
  lemma GoneStep(y: System, autoApply: bool, e: Event, n: nat)
    requires Enabled(y, e) && Gone(y, n) && Sound(y)
    ensures Gone(Step(y, autoApply, e), n)
  {
    if e.Read? { ReadKeepsGone(y, autoApply, n); }
  }

  lemma ReadKeepsGone(y: System, autoApply: bool, n: nat)
    requires Sound(y) && Enabled(y, Read) && Gone(y, n)
    ensures Gone(ReadNext(y, autoApply), n)
  {
    ReadCases(y, autoApply);
    var y' := ReadNext(y, autoApply);
    assert y'.stamps == y.stamps || y'.stamps == y.stamps - {y.loop.queue[0]};
  }

  predicate Rewrites(events: seq<Event>, file: string) {
    exists i :: 0 <= i < |events| && Rewritten(events[i], file)
  }

  /** A tick in progress lives to unlink the trigger it has acted on. */
  predicate Unlinks(events: seq<Event>) {
    events != [] && !events[0].Die? && (events[0].Finish? || Unlinks(events[1..]))
  }

  lemma {:induction false} HandledStays(y: System, autoApply: bool, n: nat, events: seq<Event>)
    requires Run(y, autoApply, events).Some?
    ensures Run(y, autoApply, events).value.handled[n] >= y.handled[n]
    decreases |events|
  {
    if events != [] {
      HandledGrows(y, autoApply, events[0], n);
      HandledStays(Step(y, autoApply, events[0]), autoApply, n, events[1..]);
    }
  }

  lemma {:induction false} GoneStays(y: System, autoApply: bool, n: nat, events: seq<Event>)
    requires Sound(y) && Gone(y, n) && Run(y, autoApply, events).Some?
    ensures Gone(Run(y, autoApply, events).value, n)
    decreases |events|
  {
    if events != [] {
      StepKeepsSound(y, autoApply, events[0]);
      GoneStep(y, autoApply, events[0], n);
      GoneStays(Step(y, autoApply, events[0]), autoApply, n, events[1..]);
    }
  }

  lemma RewritesRest(events: seq<Event>, file: string)
    requires events != [] && !Rewrites(events, file)
    ensures !Rewritten(events[0], file) && !Rewrites(events[1..], file)
  {
    forall i | 0 <= i < |events[1..]|
      ensures !Rewritten(events[1..][i], file)
    {
      assert !Rewritten(events[i + 1], file);
    }
  }

  lemma {:induction false} WaitingIsLostExactly(y: System, autoApply: bool, file: string, n: nat, events: seq<Event>)
    requires Sound(y) && Waiting(y, file, n) && Run(y, autoApply, events).Some? && !Rewrites(events, file)
    ensures Gone(Run(y, autoApply, events).value, n) <==> Handling(y, file) && Unlinks(events)
    decreases |events|
  {
    if events != [] {
      var e, y' := events[0], Step(y, autoApply, events[0]);
      RewritesRest(events, file);
      StepKeepsSound(y, autoApply, e);
      StepLosesExactly(y, autoApply, e, file, n);
      if Gone(y', n) {
        GoneStays(y', autoApply, n, events[1..]);
      } else if y'.handled[n] > 0 {
        HandledStays(y', autoApply, n, events[1..]);
        assert !Handling(y, file);
      } else {
        HandlingChanges(y, autoApply, e, file, n);
        WaitingIsLostExactly(y', autoApply, file, n, events[1..]);
      }
    }
  }

  /**
   In every run, a trigger that is not written again is lost exactly when it was written while its own
   file was being handled, and that tick lived to unlink it.
   */
  lemma WriteIsLostExactly(y: System, autoApply: bool, file: string, content: Content, events: seq<Event>)
    requires Sound(y) && content.Parsed? && !Rewrites(events, file)
    requires Run(Step(y, autoApply, Write(file, content)), autoApply, events).Some?
    ensures Gone(Run(Step(y, autoApply, Write(file, content)), autoApply, events).value, y.writes)
            <==> Handling(y, file) && Unlinks(events)
  {
    WriteKeepsSound(y, file, content);
    WaitingIsLostExactly(Step(y, autoApply, Write(file, content)), autoApply, file, y.writes, events);
  }

  lemma RunCons(y: System, autoApply: bool, e: Event, rest: seq<Event>)
    requires Enabled(y, e)
    ensures Run(y, autoApply, [e] + rest) == Run(Step(y, autoApply, e), autoApply, rest)
  {
    assert ([e] + rest)[1..] == rest;
  }

  lemma RewriteAndUnlink(y: System, autoApply: bool, write: Event)
    requires write.Write? && y.loop.Ticking? && y.loop.current == Some(Current(write.file, 0))
    requires y.writes == 1 && y.stamps == map[write.file := 0] && y.handled == multiset{0}
    ensures var z := Run(y, autoApply, [write, Finish]);
            z.Some? && z.value.handled == multiset{0} && Gone(z.value, 1)
  {
    var y' := Step(y, autoApply, write);
    RunCons(y', autoApply, Finish, []);
    RunCons(y, autoApply, write, [Finish]);
    assert [write] + [Finish] == [write, Finish];
    assert Step(y', autoApply, Finish).stamps == map[];
  }

  /** Such a run: the second write lands between the handling and the unlinking of the first. */
  lemma RewriteBeforeUnlinkIsLost(files: Files, autoApply: bool, file: string, t: Trigger)
    requires ProcessOne(files, t, autoApply).Some?
    ensures var write := Write(file, Parsed(t));
            var z := Run(Start(files), autoApply, [write] + ([Tick([file])] + ([Read] + [write, Finish])));
            z.Some? && z.value.handled == multiset{0} && Gone(z.value, 1)
  {
    var write, e := Write(file, Parsed(t)), ProcessOne(files, t, autoApply).value;
    var y1 := Step(Start(files), autoApply, write);
    var y2 := System(y1.w, map[file := 0], 1, multiset{}, multiset{}, Ticking([file], None, ZERO));
    assert Step(y1, autoApply, Tick([file])) == y2;
    assert Step(y2, autoApply, Read) == Act(y2, t, e);
    RewriteAndUnlink(Act(y2, t, e), autoApply, write);
    RunCons(y2, autoApply, Read, [write, Finish]);
    RunCons(y1, autoApply, Tick([file]), [Read] + [write, Finish]);
    RunCons(Start(files), autoApply, write, [Tick([file])] + ([Read] + [write, Finish]));
  }
}
