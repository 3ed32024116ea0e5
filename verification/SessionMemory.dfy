/** What a session keeps: through its operations, through a save and a restart. */
module SessionMemory {
  import opened Wrappers
  import opened Sessions

  // ---- Through a save and a restart ----

  function StampOf(m: Memory, key: string, savedAt: int): int { if key in m.stamps then m.stamps[key] else savedAt }

  /** Known to the store, of the current key format, and no more than a day old. */
  predicate Survives(m: Memory, key: string, savedAt: int, loadedAt: int) {
    && (key in m.sessions || key in m.pending)
    && !("slack:user:" <= key) && !("slack:dm:" <= key)
    && loadedAt - StampOf(m, key, savedAt) <= 24 * 60 * 60 * 1000
  }

  /** An exchange of which the first 2000 characters of either text are kept. */
  predicate Kept(ex: Exchange, cut: Exchange) {
    FirstOf(cut.user, ex.user, 2000) && FirstOf(cut.assistant, ex.assistant, 2000)
  }

  lemma WhoSurvives(m: Memory, savedAt: int, loadedAt: int, key: string)
    ensures Live(Save(m, savedAt), key, loadedAt) <==> Survives(m, key, savedAt, loadedAt)
  {
  }

  lemma WhatIsSaved(m: Memory, savedAt: int, key: string)
    requires key in m.sessions || key in m.pending
    ensures var f := Save(m, savedAt);
            && key in f
            && f[key].sessionId == (if key in m.sessions then m.sessions[key] else "")
            && f[key].exchanges == (if key in m.counts then m.counts[key] else 0)
            && f[key].timestamp == StampOf(m, key, savedAt) && f[key].pending == Pending(m, key)
            && |f[key].history| == |History(m, key)|
            && forall i :: 0 <= i < |History(m, key)| ==> Kept(History(m, key)[i], f[key].history[i])
  {
  }

  /**
   A session is restored exactly when it survives, and then whole: its id, count and time, its queue as it was,
   and its history exchange by exchange up to the cut.
   */
  lemma MemoryRoundTrip(m: Memory, savedAt: int, loadedAt: int, key: string)
    ensures var l := Load(Save(m, savedAt), loadedAt);
            && (key in l.sessions <==> Survives(m, key, savedAt, loadedAt))
            && (key in l.counts <==> key in l.sessions) && (key in l.stamps <==> key in l.sessions)
            && (key in l.history <==> key in l.sessions)
            && (key in l.pending <==> key in l.sessions && key in m.pending && m.pending[key] != [])
    ensures Survives(m, key, savedAt, loadedAt) ==>
              var l := Load(Save(m, savedAt), loadedAt);
              && l.sessions[key] == (if key in m.sessions then m.sessions[key] else "")
              && l.counts[key] == (if key in m.counts then m.counts[key] else 0)
              && l.stamps[key] == StampOf(m, key, savedAt)
              && Pending(l, key) == Pending(m, key)
              && |History(l, key)| == |History(m, key)|
              && forall i :: 0 <= i < |History(m, key)| ==> Kept(History(m, key)[i], History(l, key)[i])
  {
    WhoSurvives(m, savedAt, loadedAt, key);
    if key in m.sessions || key in m.pending { WhatIsSaved(m, savedAt, key); }
  }

  /** A history is saved only beside a session id or a queue: without either it is gone after a restart. */
  lemma HistoryAloneIsLost(key: string, ex: Exchange, now: int, later: int)
    ensures var s := Run(State(EMPTY, false, None), [Inject(key, ex, false, true, now)] + [Flush(now)]);
            && History(s.mem, key) == [ex] && s.file == Some(map[])
            && Restart(s.file, later, map[]).mem == EMPTY
  {
    var s := State(EMPTY, false, None);
    var s1 := Step(s, Inject(key, ex, false, true, now));
    assert ([Inject(key, ex, false, true, now)] + [Flush(now)])[1..] == [Flush(now)];
    assert [Flush(now)][1..] == [] && Run(s1, [Flush(now)]) == Step(s1, Flush(now));
    assert SavedKeys(s1.mem) == {} && Save(s1.mem, now) == map[];
  }

  /** The recovery entry is the one the next message starts with. */
  lemma RecoveryIsQueuedLast(m: Memory, orphans: map<string, string>, key: string)
    requires key in orphans && key in m.sessions
    ensures Pending(Recover(m, orphans), key) ==
            Pending(m, key) + [Exchange("[system] Session interrupted", orphans[key])]
  {
  }

  // ---- Through the operations ----

  /** What the store knows of a key beside its texts. */
  datatype Facts = Facts(id: Option<string>, count: Option<nat>, stamp: Option<int>)

  function Of(m: Memory, key: string): Facts {
    Facts(if key in m.sessions then Some(m.sessions[key]) else None,
          if key in m.counts then Some(m.counts[key]) else None,
          if key in m.stamps then Some(m.stamps[key]) else None)
  }

  predicate Resets(e: Event, key: string) { (e.Clear? || e.Compact?) && e.key == key }

  predicate Identifies(e: Event, key: string) { e.SetId? && e.key == key && e.id != "" }

  predicate Counts(e: Event, key: string) { e.Inject? && e.key == key && e.count }

  predicate Touches(e: Event, key: string) { Identifies(e, key) || (e.Inject? && e.key == key) }

  /** The last id set since the last reset. */
  function LastId(start: Option<string>, key: string, es: seq<Event>): Option<string> {
    if es == [] then start
    else
      var e := es[|es| - 1];
      if Resets(e, key) then None
      else if Identifies(e, key) then Some(e.id)
      else LastId(start, key, es[..|es| - 1])
  }

  /** The time of the last exchange or id since the last reset. */
  function LastTouch(start: Option<int>, key: string, es: seq<Event>): Option<int> {
    if es == [] then start
    else
      var e := es[|es| - 1];
      if Resets(e, key) then None
      else if Touches(e, key) then Some(e.now)
      else LastTouch(start, key, es[..|es| - 1])
  }

  /** How many counted exchanges there were since the last reset: clearing forgets the count, rotating zeroes it. */
  function Exchanges(start: Option<nat>, key: string, es: seq<Event>): Option<nat> {
    if es == [] then start
    else
      var e, before := es[|es| - 1], Exchanges(start, key, es[..|es| - 1]);
      if Resets(e, key) then (if e.Clear? then None else Some(0))
      else if Counts(e, key) then Some(if before.Some? then before.value + 1 else 1)
      else before
  }

  lemma {:induction false} RunSnoc(s: State, es: seq<Event>, e: Event)
    ensures Run(s, es + [e]) == Step(Run(s, es), e)
    decreases |es|
  {
    if es == [] {
      assert [] + [e] == [e] && [e][1..] == [];
    } else {
      RunSnoc(Step(s, es[0]), es[1..], e);
      assert (es + [e])[1..] == es[1..] + [e];
    }
  }

  lemma FactsStep(m: Memory, e: Event, key: string)
    ensures var f, f' := Of(m, key), Of(Apply(m, e), key);
            && f'.id == (if Resets(e, key) then None else if Identifies(e, key) then Some(e.id) else f.id)
            && f'.stamp == (if Resets(e, key) then None else if Touches(e, key) then Some(e.now) else f.stamp)
            && f'.count == (if Resets(e, key) then (if e.Clear? then None else Some(0))
                            else if Counts(e, key) then Some(if f.count.Some? then f.count.value + 1 else 1)
                            else f.count)
  {
  }

  /** In every run the store knows of a key exactly its last id, its counted exchanges and its last activity. */
  lemma {:induction false} FactsAreTheLast(s: State, key: string, es: seq<Event>)
    ensures var f, r := Of(s.mem, key), Of(Run(s, es).mem, key);
            && r.id == LastId(f.id, key, es) && r.count == Exchanges(f.count, key, es)
            && r.stamp == LastTouch(f.stamp, key, es)
    decreases |es|
  {
    if es != [] {
      var front, e := es[..|es| - 1], es[|es| - 1];
      FactsAreTheLast(s, key, front);
      RunSnoc(s, front, e);
      assert front + [e] == es;
      FactsStep(Run(s, front).mem, e, key);
      assert Run(s, es).mem == Apply(Run(s, front).mem, e);
    }
  }

  predicate Stores(e: Event) { e.Fire? || e.Flush? }

  /** Whether something changed since the last save. */
  function Dirty(start: bool, es: seq<Event>): bool {
    if es == [] then start
    else
      var e := es[|es| - 1];
      !Stores(e) && ((e.SetId? ==> e.id != "") || Dirty(start, es[..|es| - 1]))
  }

  /** A save is scheduled exactly while something changed since the last one. */
  lemma {:induction false} TimerIsExact(s: State, es: seq<Event>)
    ensures Run(s, es).timer <==> Dirty(s.timer, es)
    decreases |es|
  {
    if es != [] {
      var front, e := es[..|es| - 1], es[|es| - 1];
      TimerIsExact(s, front);
      RunSnoc(s, front, e);
      assert front + [e] == es;
    }
  }
}
