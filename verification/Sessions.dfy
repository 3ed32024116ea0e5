/** The session store of PersonalAssistant: src/agent/assistant.ts. */
module Sessions {
  import opened Wrappers

  const SESSION_EXPIRY_MS := 86_400_000
  const HISTORY_SIZE := 10
  const PENDING_SIZE := 3
  const EXCHANGE_MAX_CHARS := 2000
  const INJECTED_CONTEXT_MAX_CHARS := 6000

  datatype Exchange = Exchange(user: string, assistant: string)

  /** The five Maps of the class. */
  datatype Memory = Memory(
    sessions: map<string, string>,
    counts: map<string, nat>,
    stamps: map<string, int>,
    history: map<string, seq<Exchange>>,
    pending: map<string, seq<Exchange>>
  )

  const EMPTY := Memory(map[], map[], map[], map[], map[])

  /** One entry of the sessions file; an absent pendingContext is the empty sequence. */
  datatype Entry = Entry(sessionId: string, exchanges: nat, timestamp: int, history: seq<Exchange>,
    pending: seq<Exchange>)

  type File = map<string, Entry>

  function Lookup<T>(m: map<string, T>, key: string, default: T): T {
    if key in m then m[key] else default
  }

  // ---- Saving and loading ----

  function Cut(ex: Exchange): Exchange {
    Exchange(Take(ex.user, EXCHANGE_MAX_CHARS), Take(ex.assistant, EXCHANGE_MAX_CHARS))
  }

  function CutAll(h: seq<Exchange>): (r: seq<Exchange>)
    ensures |r| == |h|
  {
    seq(|h|, i requires 0 <= i < |h| => Cut(h[i]))
  }

  function EntryOf(m: Memory, key: string, now: int): Entry {
    Entry(Lookup(m.sessions, key, ""), Lookup(m.counts, key, 0), Lookup(m.stamps, key, now),
          CutAll(Lookup(m.history, key, [])), Lookup(m.pending, key, []))
  }

  function SavedKeys(m: Memory): set<string> { m.sessions.Keys + m.pending.Keys }

  /** The file saveSessionsNow writes at time `now`. */
  function Save(m: Memory, now: int): File {
    map key | key in SavedKeys(m) :: EntryOf(m, key, now)
  }

  /** Slack keys from before workspaces were part of them. */
  predicate Legacy(key: string) { "slack:user:" <= key || "slack:dm:" <= key }

  predicate Expired(e: Entry, now: int) { now - e.timestamp > SESSION_EXPIRY_MS }

  predicate Live(f: File, key: string, now: int) { key in f && !Legacy(key) && !Expired(f[key], now) }

  function LiveKeys(f: File, now: int): set<string> { set key | key in f && Live(f, key, now) }

  /** What loadSessions restores into a new object, before crash recovery. */
  function Load(f: File, now: int): Memory {
    var live := LiveKeys(f, now);
    Memory(
      map key | key in live :: f[key].sessionId,
      map key | key in live :: f[key].exchanges,
      map key | key in live :: f[key].timestamp,
      map key | key in live :: f[key].history,
      map key | key in live && f[key].pending != [] :: f[key].pending)
  }

  const INTERRUPTED := "[system] Session interrupted"

  /** Crash recovery: each session with an orphaned query gets its recovery text queued. */
  function Recover(m: Memory, orphans: map<string, string>): Memory {
    m.(pending := RecoverPending(m.pending, orphans, orphans.Keys * m.sessions.Keys))
  }

  function RecoverPending(p: map<string, seq<Exchange>>, orphans: map<string, string>, keys: set<string>)
    : map<string, seq<Exchange>>
    requires keys <= orphans.Keys
  {
    map key | key in p.Keys + keys ::
      if key in keys then Lookup(p, key, []) + [Exchange(INTERRUPTED, orphans[key])] else p[key]
  }

  lemma RecoverStart(p: map<string, seq<Exchange>>, orphans: map<string, string>)
    ensures RecoverPending(p, orphans, {}) == p
  {
  }

  lemma RecoverStep(p: map<string, seq<Exchange>>, orphans: map<string, string>, done: set<string>, key: string)
    requires done <= orphans.Keys && key in orphans && key !in done
    ensures var q := RecoverPending(p, orphans, done);
            q[key := Lookup(q, key, []) + [Exchange(INTERRUPTED, orphans[key])]]
              == RecoverPending(p, orphans, done + {key})
  {
  }

  /** Saving twice cuts once. */
  lemma CutAllIsIdempotent(h: seq<Exchange>)
    ensures CutAll(CutAll(h)) == CutAll(h)
  {
  }

  /**
   Save, load, save: the second file is the first one without its legacy and expired keys, for every
   memory and at whatever times the three steps happen.
   */
  lemma SaveLoadSave(m: Memory, t1: int, t2: int, t3: int)
    ensures var f := Save(m, t1);
            Save(Load(f, t2), t3) == map key | key in f && Live(f, key, t2) :: f[key]
  {
    var f := Save(m, t1);
    var l := Load(f, t2);
    assert SavedKeys(l) == LiveKeys(f, t2);
    forall key | key in LiveKeys(f, t2)
      ensures EntryOf(l, key, t3) == f[key]
    {
      ReloadedEntry(m, t1, t2, t3, key);
    }
  }

  lemma ReloadedEntry(m: Memory, t1: int, t2: int, t3: int, key: string)
    requires key in LiveKeys(Save(m, t1), t2)
    ensures EntryOf(Load(Save(m, t1), t2), key, t3) == Save(m, t1)[key]
  {
    CutAllIsIdempotent(Lookup(m.history, key, []));
  }

  /** So nothing is lost or altered exactly when no key is legacy or expired. */
  lemma RoundTripIsExact(m: Memory, t1: int, t2: int, t3: int)
    ensures Save(Load(Save(m, t1), t2), t3) == Save(m, t1)
      <==> forall key :: key in Save(m, t1) ==> Live(Save(m, t1), key, t2)
  {
    SaveLoadSave(m, t1, t2, t3);
    var f := Save(m, t1);
    var g := map key | key in f && Live(f, key, t2) :: f[key];
    if g == f {
      assert g.Keys == f.Keys;
    }
  }

  /** Recovery adds one entry to each orphaned session's queue and changes nothing else in the file. */
  lemma RecoveryOnlyAppends(m: Memory, orphans: map<string, string>, now: int, key: string)
    requires key in SavedKeys(m)
    ensures key in Save(Recover(m, orphans), now)
    ensures Save(Recover(m, orphans), now)[key] ==
            var e := EntryOf(m, key, now);
            if key in orphans && key in m.sessions
              then e.(pending := e.pending + [Exchange(INTERRUPTED, orphans[key])]) else e
  {
  }

  // ---- Operations ----

  datatype Event =
    | Inject(key: string, ex: Exchange, queue: bool, count: bool, now: int) // injectContext, of capped texts
    | InjectPending(key: string, user: string, result: string)             // injectPendingContext
    | SetId(key: string, id: string, now: int)                              // setSdkSessionId
    | Clear(key: string)                                                    // clearSession
    | Compact(key: string)                                                  // the reset in compactContext
    | Fire(now: int)                                                        // the save timer runs
    | Flush(now: int)                                                       // flushSessions

  /** capOutput; `marker` is the note in place of so many dropped characters. */
  function Capped(text: string, marker: nat -> string): string {
    if |text| <= INJECTED_CONTEXT_MAX_CHARS then text
    else
      var head := text[..INJECTED_CONTEXT_MAX_CHARS - 200];
      head + marker(|text| - |head|)
  }

  /** With a note of at most 200 characters the cap holds, and all but the last 200 characters up to it are kept. */
  lemma CappedFits(text: string, marker: nat -> string)
    requires forall n :: |marker(n)| <= 200
    ensures |Capped(text, marker)| <= INJECTED_CONTEXT_MAX_CHARS
    ensures Take(text, INJECTED_CONTEXT_MAX_CHARS - 200) <= Capped(text, marker)
    ensures |text| <= INJECTED_CONTEXT_MAX_CHARS ==> Capped(text, marker) == text
    ensures |text| > 6000 ==> Capped(text, marker)[5800..] == marker(|text[5800..]|)
  {
  }

  function PushHistory(h: seq<Exchange>, ex: Exchange): seq<Exchange> { LastN(h + [ex], HISTORY_SIZE) }

  /** push, then at most one shift. */
  function PushPending(q: seq<Exchange>, ex: Exchange): seq<Exchange> {
    var r := q + [ex];
    if |r| > PENDING_SIZE then r[1..] else r
  }

  function Apply(m: Memory, e: Event): Memory {
    match e
    case Inject(key, ex, queue, count, now) =>
      m.(history := m.history[key := PushHistory(Lookup(m.history, key, []), ex)],
         pending := if queue then m.pending[key := PushPending(Lookup(m.pending, key, []), ex)] else m.pending,
         counts := if count then m.counts[key := Lookup(m.counts, key, 0) + 1] else m.counts,
         stamps := m.stamps[key := now])
    case InjectPending(key, user, result) =>
      var ex := Exchange(Take(user, 500), Take(result, 2000));
      m.(pending := m.pending[key := PushPending(Lookup(m.pending, key, []), ex)])
    case SetId(key, id, now) =>
      if id == "" then m else m.(sessions := m.sessions[key := id], stamps := m.stamps[key := now])
    case Clear(key) =>
      Memory(m.sessions - {key}, m.counts - {key}, m.stamps - {key}, m.history - {key}, m.pending)
    case Compact(key) =>
      Memory(m.sessions - {key}, m.counts[key := 0], m.stamps - {key}, m.history - {key}, m.pending)
    case Fire(_) => m
    case Flush(_) => m
  }

  predicate Mutates(e: Event) { !e.Fire? && !e.Flush? && (e.SetId? ==> e.id != "") }

  datatype State = State(mem: Memory, timer: bool, file: Option<File>)

  function Step(s: State, e: Event): State {
    if e.Fire? || e.Flush? then State(s.mem, false, Some(Save(s.mem, e.now)))
    else State(Apply(s.mem, e), s.timer || Mutates(e), s.file)
  }

  function Run(s: State, es: seq<Event>): State
    decreases |es|
  {
    if es == [] then s else Run(Step(s, es[0]), es[1..])
  }

  // ---- Nothing stays unsaved without a timer ----

  ghost predicate InSync(s: State) {
    s.timer || exists t :: s.file == Some(Save(s.mem, t))
  }

  lemma {:induction false} SyncedRunStaysSynced(s: State, es: seq<Event>)
    requires InSync(s)
    ensures InSync(Run(s, es))
    decreases |es|
  {
    if es != [] {
      assert InSync(Step(s, es[0])) by {
        if es[0].Fire? || es[0].Flush? { assert Step(s, es[0]).file == Some(Save(s.mem, es[0].now)); }
      }
      SyncedRunStaysSynced(Step(s, es[0]), es[1..]);
    }
  }

  /**
   From the first mutation or save on, in every run and from any start: either a save is scheduled,
   or the file is what saving the memory would write.
   */
  lemma {:induction false} ScheduledOrSaved(s: State, es: seq<Event>, k: nat)
    requires k < |es| && (Mutates(es[k]) || es[k].Fire? || es[k].Flush?)
    ensures InSync(Run(s, es))
    decreases |es|
  {
    if k == 0 {
      assert InSync(Step(s, es[0])) by {
        if !Mutates(es[0]) { assert Step(s, es[0]).file == Some(Save(s.mem, es[0].now)); }
      }
      SyncedRunStaysSynced(Step(s, es[0]), es[1..]);
    } else {
      ScheduledOrSaved(Step(s, es[0]), es[1..], k - 1);
    }
  }

  // ---- The two bounded windows ----

  function History(m: Memory, key: string): seq<Exchange> { Lookup(m.history, key, []) }

  function Pending(m: Memory, key: string): seq<Exchange> { Lookup(m.pending, key, []) }

  function LogInjected(log: seq<Exchange>, key: string, e: Event): seq<Exchange> {
    if e.Inject? && e.key == key then log + [e.ex]
    else if (e.Clear? || e.Compact?) && e.key == key then []
    else log
  }

  /** All exchanges injected for `key` since its last reset, after those of `log`. */
  function Injected(log: seq<Exchange>, key: string, es: seq<Event>): seq<Exchange>
    decreases |es|
  {
    if es == [] then log else Injected(LogInjected(log, key, es[0]), key, es[1..])
  }

  function LogQueued(log: seq<Exchange>, key: string, e: Event): seq<Exchange> {
    if e.Inject? && e.queue && e.key == key then log + [e.ex]
    else if e.InjectPending? && e.key == key then log + [Exchange(Take(e.user, 500), Take(e.result, 2000))]
    else log
  }

  /** All exchanges queued for `key`: no operation of the store resets this queue. */
  function Queued(log: seq<Exchange>, key: string, es: seq<Event>): (r: seq<Exchange>)
    ensures |r| >= |log|
    decreases |es|
  {
    if es == [] then log else Queued(LogQueued(log, key, es[0]), key, es[1..])
  }

  lemma LastNSnoc<T>(s: seq<T>, x: T, n: nat)
    requires n > 0
    ensures LastN(LastN(s, n) + [x], n) == LastN(s + [x], n)
  {
  }

  lemma {:induction false} HistoryRun(s: State, log: seq<Exchange>, key: string, es: seq<Event>)
    requires History(s.mem, key) == LastN(log, HISTORY_SIZE)
    ensures History(Run(s, es).mem, key) == LastN(Injected(log, key, es), HISTORY_SIZE)
    decreases |es|
  {
    if es != [] {
      var e := es[0];
      if e.Inject? && e.key == key { LastNSnoc(log, e.ex, HISTORY_SIZE); }
      HistoryRun(Step(s, e), LogInjected(log, key, e), key, es[1..]);
    }
  }

  /** Each history window is the last ten exchanges injected since its reset. */
  lemma HistoryIsTheLastTen(s: State, key: string, es: seq<Event>)
    requires |History(s.mem, key)| <= HISTORY_SIZE
    ensures History(Run(s, es).mem, key) == LastN(Injected(History(s.mem, key), key, es), HISTORY_SIZE)
  {
    HistoryRun(s, History(s.mem, key), key, es);
  }

  function Max(a: nat, b: nat): nat { if a < b then b else a }

  lemma PushPendingIsLastN(log: seq<Exchange>, x: Exchange, n: nat)
    requires n >= PENDING_SIZE && (n > PENDING_SIZE ==> |log| >= n)
    ensures PushPending(LastN(log, n), x) == LastN(log + [x], n)
  {
    LastNSnoc(log, x, n);
  }

  lemma {:induction false} PendingRun(s: State, log: seq<Exchange>, key: string, es: seq<Event>, n: nat)
    requires n >= PENDING_SIZE && Pending(s.mem, key) == LastN(log, n)
    requires n > PENDING_SIZE ==> |log| >= n
    ensures Pending(Run(s, es).mem, key) == LastN(Queued(log, key, es), n)
    decreases |es|
  {
    if es != [] {
      var e := es[0];
      if e.Inject? { PushPendingIsLastN(log, e.ex, n); }
      if e.InjectPending? { PushPendingIsLastN(log, Exchange(Take(e.user, 500), Take(e.result, 2000)), n); }
      PendingRun(Step(s, e), LogQueued(log, key, e), key, es[1..], n);
    }
  }

  /**
   Each pending queue is the last three queued exchanges; a queue that recovery had lengthened keeps
   its length instead, because a push drops a single entry.
   */
  lemma PendingIsTheLastThree(s: State, key: string, es: seq<Event>)
    ensures Pending(Run(s, es).mem, key) ==
            LastN(Queued(Pending(s.mem, key), key, es), Max(PENDING_SIZE, |Pending(s.mem, key)|))
  {
    PendingRun(s, Pending(s.mem, key), key, es, Max(PENDING_SIZE, |Pending(s.mem, key)|));
  }

  /** Recovery pushes without dropping: it overflows the queue of an orphaned session exactly when that is full. */
  lemma RecoveryOverflowsExactly(m: Memory, orphans: map<string, string>, key: string)
    requires key in orphans && key in m.sessions
    ensures |Pending(Recover(m, orphans), key)| == |Pending(m, key)| + 1
    ensures |Pending(Recover(m, orphans), key)| > PENDING_SIZE <==> |Pending(m, key)| >= PENDING_SIZE
  {
  }

  /** A queue of three or more keeps its length through every run of the process. */
  lemma FullQueuesKeepTheirLength(s: State, key: string, es: seq<Event>)
    requires |Pending(s.mem, key)| >= PENDING_SIZE
    ensures |Pending(Run(s, es).mem, key)| == |Pending(s.mem, key)|
  {
    PendingIsTheLastThree(s, key, es);
  }

  // ---- Restarts ----

  /** One life of the process, and the restart after it: what is on disk is loaded and the orphans recovered. */
  datatype Life = Life(es: seq<Event>, restartedAt: int, orphans: map<string, string>)

  function Restart(file: Option<File>, now: int, orphans: map<string, string>): State {
    if file.None? then State(EMPTY, false, None)
    else State(Recover(Load(file.value, now), orphans), false, file)
  }

  function AfterLife(s: State, l: Life): State { Restart(Run(s, l.es).file, l.restartedAt, l.orphans) }

  function Lives(s: State, ls: seq<Life>): State
    decreases |ls|
  {
    if ls == [] then s else Lives(AfterLife(s, ls[0]), ls[1..])
  }

  predicate Saves(es: seq<Event>) { exists i :: 0 <= i < |es| && (es[i].Fire? || es[i].Flush?) }

  /** The session is on disk at every restart, neither legacy nor expired. */
  predicate KeptAlive(s: State, key: string, ls: seq<Life>)
    decreases |ls|
  {
    ls == [] ||
    (&& Run(s, ls[0].es).file.Some? && Live(Run(s, ls[0].es).file.value, key, ls[0].restartedAt)
     && KeptAlive(AfterLife(s, ls[0]), key, ls[1..]))
  }

  function FileQueue(s: State, key: string): seq<Exchange> {
    if s.file.Some? && key in s.file.value then s.file.value[key].pending else []
  }

  /**
   The length of a full queue after some lives, when it is `mem` in memory and `disk` in the file: a
   recovery adds one to what was last saved.
   */
  function QueueLength(key: string, mem: nat, disk: nat, ls: seq<Life>): nat
    decreases |ls|
  {
    if ls == [] then mem
    else
      var saved := if Saves(ls[0].es) then mem else disk;
      QueueLength(key, if key in ls[0].orphans then saved + 1 else saved, saved, ls[1..])
  }

  /** A run without a save leaves the file; one with a save leaves some state of the memory in it. */
  lemma {:induction false} FileOfRun(s: State, key: string, es: seq<Event>)
    requires |Pending(s.mem, key)| >= PENDING_SIZE
    ensures !Saves(es) ==> Run(s, es).file == s.file
    ensures Saves(es) ==> |FileQueue(Run(s, es), key)| == |Pending(s.mem, key)|
    decreases |es|
  {
    if es != [] {
      var s' := Step(s, es[0]);
      FullQueuesKeepTheirLength(s, key, [es[0]]);
      assert [es[0]][1..] == [] && Run(s', []) == s';
      FileOfRun(s', key, es[1..]);
      assert es == [es[0]] + es[1..];
      if es[0].Fire? || es[0].Flush? {
        assert Saves(es);
        SavedQueue(s.mem, key, es[0].now);
      }
    }
  }

  lemma SavedQueue(m: Memory, key: string, now: int)
    requires Pending(m, key) != []
    ensures key in Save(m, now) && Save(m, now)[key].pending == Pending(m, key)
  {
  }

  lemma OneRestart(s: State, key: string, l: Life) returns (s': State, saved: nat, grown: nat)
    requires |Pending(s.mem, key)| >= PENDING_SIZE && |FileQueue(s, key)| >= PENDING_SIZE
    requires Run(s, l.es).file.Some? && Live(Run(s, l.es).file.value, key, l.restartedAt)
    ensures s' == AfterLife(s, l)
    ensures saved == (if Saves(l.es) then |Pending(s.mem, key)| else |FileQueue(s, key)|) == |FileQueue(s', key)|
    ensures grown == (if key in l.orphans then saved + 1 else saved) == |Pending(s'.mem, key)|
  {
    FileOfRun(s, key, l.es);
    var file := Run(s, l.es).file.value;
    s' := AfterLife(s, l);
    saved := |file[key].pending|;
    grown := |Pending(s'.mem, key)|;
    assert Pending(Load(file, l.restartedAt), key) == file[key].pending;
  }

  lemma QueueLengthStep(key: string, mem: nat, disk: nat, ls: seq<Life>, saved: nat, grown: nat)
    requires ls != [] && saved == (if Saves(ls[0].es) then mem else disk)
    requires grown == if key in ls[0].orphans then saved + 1 else saved
    ensures QueueLength(key, mem, disk, ls) == QueueLength(key, grown, saved, ls[1..])
  {
  }

  /** The exact length of a queue, once full, over any number of restarts. */
  lemma {:induction false} QueueOverRestarts(s: State, key: string, mem: nat, disk: nat, ls: seq<Life>)
    requires mem == |Pending(s.mem, key)| >= PENDING_SIZE && disk == |FileQueue(s, key)| >= PENDING_SIZE
    requires KeptAlive(s, key, ls)
    ensures |Pending(Lives(s, ls).mem, key)| == QueueLength(key, mem, disk, ls)
    decreases |ls|
  {
    if ls != [] {
      var s', saved, grown := OneRestart(s, key, ls[0]);
      QueueOverRestarts(s', key, grown, saved, ls[1..]);
      QueueLengthStep(key, mem, disk, ls, saved, grown);
    }
  }

  lemma {:induction false} LengthOfSavedLives(key: string, mem: nat, disk: nat, ls: seq<Life>)
    requires forall i :: 0 <= i < |ls| ==> Saves(ls[i].es) && key in ls[i].orphans
    ensures QueueLength(key, mem, disk, ls) == mem + |ls|
    decreases |ls|
  {
    if ls != [] {
      assert Saves(ls[0].es) && key in ls[0].orphans;
      assert forall i :: 0 <= i < |ls[1..]| ==> ls[1..][i] == ls[i + 1];
      LengthOfSavedLives(key, mem + 1, mem, ls[1..]);
    }
  }

  /** So the queue has no bound: n recoveries, each saved before the next, make a full queue n longer. */
  lemma RecoveriesGrowTheQueue(s: State, key: string, ls: seq<Life>)
    requires |Pending(s.mem, key)| >= PENDING_SIZE && |FileQueue(s, key)| >= PENDING_SIZE && KeptAlive(s, key, ls)
    requires forall i :: 0 <= i < |ls| ==> Saves(ls[i].es) && key in ls[i].orphans
    ensures |Pending(Lives(s, ls).mem, key)| == |Pending(s.mem, key)| + |ls|
  {
    QueueOverRestarts(s, key, |Pending(s.mem, key)|, |FileQueue(s, key)|, ls);
    LengthOfSavedLives(key, |Pending(s.mem, key)|, |FileQueue(s, key)|, ls);
  }

  // ---- The class ----

  function WithEntry(m: Memory, key: string, e: Entry): Memory {
    Memory(m.sessions[key := e.sessionId], m.counts[key := e.exchanges], m.stamps[key := e.timestamp],
           m.history[key := e.history], if e.pending != [] then m.pending[key := e.pending] else m.pending)
  }

  /** What the five Maps hold for `k`: its entry if it was restored, nothing otherwise. */
  ghost predicate KeyLoaded(m: Memory, f: File, k: string, restored: bool) {
    if restored && k in f then
      && k in m.sessions && m.sessions[k] == f[k].sessionId && k in m.counts && m.counts[k] == f[k].exchanges
      && k in m.stamps && m.stamps[k] == f[k].timestamp && k in m.history && m.history[k] == f[k].history
      && (if f[k].pending == [] then k !in m.pending else k in m.pending && m.pending[k] == f[k].pending)
    else k !in m.sessions && k !in m.counts && k !in m.stamps && k !in m.history && k !in m.pending
  }

  ghost predicate LoadedBut(m: Memory, f: File, keys: set<string>, now: int) {
    keys <= f.Keys && forall k :: KeyLoaded(m, f, k, k !in keys && Live(f, k, now))
  }

  lemma LoadedNext(m: Memory, f: File, keys: set<string>, key: string, now: int)
    requires LoadedBut(m, f, keys, now) && key in keys
    ensures LoadedBut(if Live(f, key, now) then WithEntry(m, key, f[key]) else m, f, keys - {key}, now)
  {
    var m' := if Live(f, key, now) then WithEntry(m, key, f[key]) else m;
    forall k
      ensures KeyLoaded(m', f, k, k !in keys - {key} && Live(f, k, now))
    {
      assert KeyLoaded(m, f, k, k !in keys && Live(f, k, now));
    }
  }

  lemma LoadedAt(m: Memory, f: File, now: int, k: string)
    requires LoadedBut(m, f, {}, now)
    ensures var l := Load(f, now);
            && (k in m.sessions <==> k in l.sessions) && (k in m.counts <==> k in l.counts)
            && (k in m.stamps <==> k in l.stamps) && (k in m.history <==> k in l.history)
            && (k in m.pending <==> k in l.pending)
            && (k in l.sessions ==> m.sessions[k] == l.sessions[k] && m.counts[k] == l.counts[k]
                                    && m.stamps[k] == l.stamps[k] && m.history[k] == l.history[k])
            && (k in l.pending ==> m.pending[k] == l.pending[k])
  {
    assert KeyLoaded(m, f, k, k !in {} && Live(f, k, now));
  }

  lemma SameMaps<T>(a: map<string, T>, b: map<string, T>)
    requires forall k :: (k in a <==> k in b) && (k in b ==> a[k] == b[k])
    ensures a == b
  {
  }

  lemma LoadedAll(m: Memory, f: File, now: int)
    requires LoadedBut(m, f, {}, now)
    ensures m == Load(f, now)
  {
    var l := Load(f, now);
    forall k
      ensures (k in m.sessions <==> k in l.sessions) && (k in l.sessions ==> m.sessions[k] == l.sessions[k])
      ensures (k in m.counts <==> k in l.counts) && (k in l.counts ==> m.counts[k] == l.counts[k])
      ensures (k in m.stamps <==> k in l.stamps) && (k in l.stamps ==> m.stamps[k] == l.stamps[k])
      ensures (k in m.history <==> k in l.history) && (k in l.history ==> m.history[k] == l.history[k])
      ensures (k in m.pending <==> k in l.pending) && (k in l.pending ==> m.pending[k] == l.pending[k])
    {
      LoadedAt(m, f, now, k);
    }
    SameMaps(m.sessions, l.sessions);
    SameMaps(m.counts, l.counts);
    SameMaps(m.stamps, l.stamps);
    SameMaps(m.history, l.history);
    SameMaps(m.pending, l.pending);
  }

  method CollectEntries(m: Memory, now: int) returns (data: File)
    ensures data == Save(m, now)
  {
    var keys := m.sessions.Keys + m.pending.Keys;
    data := map[];
    while keys != {}
      invariant keys <= SavedKeys(m)
      invariant forall k :: k in data <==> k in SavedKeys(m) && k !in keys
      invariant forall k :: k in data ==> data[k] == EntryOf(m, k, now)
      decreases keys
    {
      var key :| key in keys;
      data := data[key := Entry(Lookup(m.sessions, key, ""), Lookup(m.counts, key, 0), Lookup(m.stamps, key, now),
                                CutAll(Lookup(m.history, key, [])), Lookup(m.pending, key, []))];
      keys := keys - {key};
    }
    SameMaps(data, Save(m, now));
  }

  class PersonalAssistant {
    var sessions: map<string, string>
    var exchangeCounts: map<string, nat>
    var sessionTimestamps: map<string, int>
    var lastExchanges: map<string, seq<Exchange>>
    var pendingContext: map<string, seq<Exchange>>
    var saveSessionsTimer: bool
    var sessionsFile: Option<File>

    function Mem(): Memory
      reads this
    {
      Memory(sessions, exchangeCounts, sessionTimestamps, lastExchanges, pendingContext)
    }

    function Now(): State
      reads this
    {
      State(Mem(), saveSessionsTimer, sessionsFile)
    }

    /** A new object over the file found at start. */
    constructor (file: Option<File>, orphans: map<string, string>, now: int)
      ensures Now() == State(if file.None? then EMPTY else Recover(Load(file.value, now), orphans), false, file)
    {
      sessions, exchangeCounts, sessionTimestamps, lastExchanges, pendingContext := map[], map[], map[], map[], map[];
      saveSessionsTimer := false;
      sessionsFile := file;
      new;
      if file.Some? { LoadSessions(file.value, orphans, now); }
    }

    method LoadSessions(data: File, orphans: map<string, string>, now: int)
      requires Mem() == EMPTY
      modifies `sessions, `exchangeCounts, `sessionTimestamps, `lastExchanges, `pendingContext
      ensures Mem() == Recover(Load(data, now), orphans)
    {
      LoadEntries(data, now);
      RecoverOrphans(orphans);
    }

    method LoadEntries(data: File, now: int)
      requires Mem() == EMPTY
      modifies `sessions, `exchangeCounts, `sessionTimestamps, `lastExchanges, `pendingContext
      ensures Mem() == Load(data, now)
    {
      var keys := data.Keys;
      while keys != {}
        invariant LoadedBut(Mem(), data, keys, now)
        decreases keys
      {
        var key :| key in keys;
        LoadedNext(Mem(), data, keys, key, now);
        keys := keys - {key};
        if !Legacy(key) && !Expired(data[key], now) { LoadEntry(key, data[key]); }
      }
      LoadedAll(Mem(), data, now);
    }

    method LoadEntry(key: string, entry: Entry)
      modifies `sessions, `exchangeCounts, `sessionTimestamps, `lastExchanges, `pendingContext
      ensures Mem() == WithEntry(old(Mem()), key, entry)
    {
      sessions := sessions[key := entry.sessionId];
      exchangeCounts := exchangeCounts[key := entry.exchanges];
      sessionTimestamps := sessionTimestamps[key := entry.timestamp];
      lastExchanges := lastExchanges[key := entry.history];
      if |entry.pending| > 0 { pendingContext := pendingContext[key := entry.pending]; }
    }

    method RecoverOrphans(orphans: map<string, string>)
      modifies `pendingContext
      ensures Mem() == Recover(old(Mem()), orphans)
    {
      ghost var was, all, done: set<string> := pendingContext, orphans.Keys * sessions.Keys, {};
      var keys := orphans.Keys * sessions.Keys;
      RecoverStart(was, orphans);
      while keys != {}
        invariant done + keys == all && done !! keys
        invariant pendingContext == RecoverPending(was, orphans, done)
        decreases keys
      {
        var key :| key in keys;
        RecoverStep(was, orphans, done, key);
        QueueRecovery(key, orphans[key]);
        keys, done := keys - {key}, done + {key};
      }
      assert done == all;
    }

    method QueueRecovery(key: string, text: string)
      modifies `pendingContext
      ensures var was := old(pendingContext);
              pendingContext == was[key := Lookup(was, key, []) + [Exchange(INTERRUPTED, text)]]
    {
      var pending := if key in pendingContext then pendingContext[key] else [];
      pending := pending + [Exchange(INTERRUPTED, text)];
      pendingContext := pendingContext[key := pending];
    }

    method SaveSessions()
      modifies `saveSessionsTimer
      ensures saveSessionsTimer
    {
      if saveSessionsTimer { return; }
      saveSessionsTimer := true;
    }

    method SaveSessionsNow(now: int)
      modifies `sessionsFile
      ensures sessionsFile == Some(Save(Mem(), now))
    {
      var data := CollectEntries(Mem(), now);
      sessionsFile := Some(data);
    }

    /** The timer callback. */
    method TimerFires(now: int)
      requires saveSessionsTimer
      modifies this
      ensures Now() == Step(old(Now()), Fire(now))
    {
      saveSessionsTimer := false;
      SaveSessionsNow(now);
    }

    method FlushSessions(now: int)
      modifies this
      ensures Now() == Step(old(Now()), Flush(now))
    {
      if saveSessionsTimer { saveSessionsTimer := false; }
      SaveSessionsNow(now);
    }

    method QueuePending(key: string, ex: Exchange)
      modifies `pendingContext
      ensures pendingContext == old(pendingContext)[key := PushPending(Lookup(old(pendingContext), key, []), ex)]
    {
      var pending := Lookup(pendingContext, key, []) + [ex];
      if |pending| > 3 { pending := pending[1..]; }
      pendingContext := pendingContext[key := pending];
    }

    method PushExchange(key: string, ex: Exchange)
      modifies `lastExchanges
      ensures lastExchanges == old(lastExchanges)[key := PushHistory(Lookup(old(lastExchanges), key, []), ex)]
    {
      var history := Lookup(lastExchanges, key, []) + [ex];
      if |history| > HISTORY_SIZE {
        lastExchanges := lastExchanges[key := history[|history| - HISTORY_SIZE..]];
      } else {
        lastExchanges := lastExchanges[key := history];
      }
    }

    method InjectContext(key: string, user: string, answer: string, queue: bool, countExchange: bool, now: int,
                         marker: nat -> string)
      modifies this
      ensures var ex := Exchange(Capped(user, marker), Capped(answer, marker));
              Now() == Step(old(Now()), Inject(key, ex, queue, countExchange, now))
    {
      var ex := Exchange(Capped(user, marker), Capped(answer, marker));
      PushExchange(key, ex);
      if queue { QueuePending(key, ex); }
      if countExchange { exchangeCounts := exchangeCounts[key := Lookup(exchangeCounts, key, 0) + 1]; }
      sessionTimestamps := sessionTimestamps[key := now];
      SaveSessions();
    }

    method InjectPendingContext(key: string, user: string, result: string)
      modifies this
      ensures Now() == Step(old(Now()), InjectPending(key, user, result))
    {
      QueuePending(key, Exchange(Take(user, 500), Take(result, 2000)));
      SaveSessions();
    }

    method SetSdkSessionId(key: string, id: string, now: int)
      modifies this
      ensures Now() == Step(old(Now()), SetId(key, id, now))
    {
      if id == "" { return; }
      sessions := sessions[key := id];
      sessionTimestamps := sessionTimestamps[key := now];
      SaveSessions();
    }

    method ClearSession(key: string)
      modifies this
      ensures Now() == Step(old(Now()), Clear(key))
    {
      sessions := sessions - {key};
      exchangeCounts := exchangeCounts - {key};
      sessionTimestamps := sessionTimestamps - {key};
      lastExchanges := lastExchanges - {key};
      SaveSessions();
    }

    /** The session reset at the end of compactContext. */
    method RotateSession(key: string)
      modifies this
      ensures Now() == Step(old(Now()), Compact(key))
    {
      sessions := sessions - {key};
      exchangeCounts := exchangeCounts[key := 0];
      lastExchanges := lastExchanges - {key};
      sessionTimestamps := sessionTimestamps - {key};
      SaveSessions();
    }
  }
}
