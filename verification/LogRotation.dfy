/**
 Size-based log rotation: rotateOne in src/index.ts. Slot 0 is the live log, slot k the file `.log.k`;
 a log is its bytes.
 */
module LogRotation {
  import opened Wrappers

  const LOG_MAX_BYTES := 2 * 1024 * 1024
  const LOG_MAX_BACKUPS := 7

  type Log = seq<bv8>

  type Slots = map<nat, Log>

  function At(s: Slots, k: nat): Option<Log> { if k in s then Some(s[k]) else None }

  predicate Full(s: Slots) { 0 in s && |s[0]| >= LOG_MAX_BYTES }

  /** A shift register: every slot takes its predecessor, the live log starts over. */
  ghost predicate Shifted(s: Slots, t: Slots) {
    && 0 in t && t[0] == []
    && (forall k: nat :: 1 <= k <= LOG_MAX_BACKUPS ==> At(t, k) == At(s, k - 1))
    && (forall k: nat :: k > LOG_MAX_BACKUPS ==> At(t, k) == At(s, k))
  }

  function Rotate(s: Slots): Slots {
    if !Full(s) then s
    else
      map k: nat | k in Targets(s) :: if k == 0 then [] else if k <= LOG_MAX_BACKUPS then s[k - 1] else s[k]
  }

  function Targets(s: Slots): set<nat> {
    {0} + (set k: nat | k in s && k < LOG_MAX_BACKUPS :: k + 1) + (set k: nat | k in s && k > LOG_MAX_BACKUPS)
  }

  lemma RotateShifts(s: Slots)
    requires Full(s)
    ensures Shifted(s, Rotate(s))
  {
    forall k: nat | 1 <= k <= LOG_MAX_BACKUPS
      ensures At(Rotate(s), k) == At(s, k - 1)
    {
      if k - 1 in s { assert k in set j: nat | j in s && j < LOG_MAX_BACKUPS :: j + 1; }
    }
  }

  /** A log of two mebibytes or more is rotated into seven backups, and any other is left alone. */
  lemma RotatesExactly(s: Slots)
    ensures !(0 in s && |s[0]| >= 2_097_152) ==> Rotate(s) == s
    ensures 0 in s && |s[0]| >= 2_097_152 ==>
              && At(Rotate(s), 0) == Some([])
              && (forall k: nat :: 1 <= k <= 7 ==> At(Rotate(s), k) == At(s, k - 1))
              && (forall k: nat :: k > 7 ==> At(Rotate(s), k) == At(s, k))
  {
    if Full(s) { RotateShifts(s); }
  }

  lemma ShiftIsUnique(s: Slots, t: Slots, u: Slots)
    requires Shifted(s, t) && Shifted(s, u)
    ensures t == u
  {
    forall k: nat
      ensures At(t, k) == At(u, k)
    {
    }
    assert forall k: nat :: At(t, k) == At(u, k) ==> (k in t <==> k in u);
    assert forall k: nat :: k in t && k in u && At(t, k) == At(u, k) ==> t[k] == u[k];
  }

  class LogFiles {
    var slots: Slots

    method Unlink(k: nat)
      requires k in slots
      modifies this
      ensures slots == old(slots) - {k}
    {
      slots := slots - {k};
    }

    /** renameSync; every call here must find its destination free. */
    method Rename(from: nat, to: nat)
      requires from in slots && to !in slots
      modifies this
      ensures slots == old(slots)[to := old(slots)[from]] - {from}
    {
      slots := slots[to := slots[from]] - {from};
    }

    /** The descending loop: every backup moves up one slot, and slot 1 comes free. */
    method ShiftBackups()
      requires LOG_MAX_BACKUPS !in slots
      modifies this
      ensures 1 !in slots && At(slots, 0) == At(old(slots), 0)
      ensures forall k: nat :: 1 < k <= LOG_MAX_BACKUPS ==> At(slots, k) == At(old(slots), k - 1)
      ensures forall k: nat :: k > LOG_MAX_BACKUPS ==> At(slots, k) == At(old(slots), k)
    {
      for i := LOG_MAX_BACKUPS downto 1
        invariant i !in slots
        invariant forall k: nat :: i < k <= LOG_MAX_BACKUPS ==> At(slots, k) == At(old(slots), k - 1)
        invariant forall k: nat :: k < i || k > LOG_MAX_BACKUPS ==> At(slots, k) == At(old(slots), k)
      {
        ghost var before := slots;
        if i in slots { Rename(i, i + 1); }
        assert At(slots, i + 1) == At(before, i);
        assert forall k: nat :: k != i && k != i + 1 ==> At(slots, k) == At(before, k);
      }
    }

    method RotateOne()
      modifies this
      ensures slots == Rotate(old(slots))
    {
      if 0 !in slots { return; }
      if |slots[0]| < LOG_MAX_BYTES { return; }
      if LOG_MAX_BACKUPS in slots { Unlink(LOG_MAX_BACKUPS); }
      assert forall k: nat :: k != LOG_MAX_BACKUPS ==> At(slots, k) == At(old(slots), k);
      ShiftBackups();
      ghost var shifted := slots;
      assert At(shifted, 0) == At(old(slots), 0);
      Rename(0, 1);
      slots := slots[0 := []];
      assert At(slots, 1) == At(shifted, 0) && forall k: nat :: k > 1 ==> At(slots, k) == At(shifted, k);
      RotateShifts(old(slots));
      ShiftIsUnique(old(slots), slots, Rotate(old(slots)));
    }
  }

  // ---- Runs ----

  /** Writers append, creating the live log when there is none; a start of the daemon rotates. */
  datatype Event = Append(text: Log) | Start

  function Live(s: Slots): Log { if 0 in s then s[0] else [] }

  function Step(s: Slots, e: Event): Slots {
    match e
    case Append(text) => s[0 := Live(s) + text]
    case Start => Rotate(s)
  }

  function Init(events: seq<Event>): seq<Event>
    requires events != []
  {
    events[..|events| - 1]
  }

  function Run(s: Slots, events: seq<Event>): Slots {
    if events == [] then s else Step(Run(s, Init(events)), events[|events| - 1])
  }

  /** The logs rotated away so far, the latest first. */
  function Archived(s: Slots, events: seq<Event>): seq<Log> {
    if events == [] then []
    else
      var before := Run(s, Init(events));
      if events[|events| - 1].Start? && Full(before) then [before[0]] + Archived(s, Init(events))
      else Archived(s, Init(events))
  }

  /** After n rotations slot k holds the k-th latest rotated log, or else what slot k - n held at first. */
  lemma {:induction false} SlotsAreTheLatestLogs(s: Slots, events: seq<Event>, k: nat)
    requires 1 <= k <= LOG_MAX_BACKUPS
    ensures var n := |Archived(s, events)|;
            if k <= n then k in Run(s, events) && Run(s, events)[k] == Archived(s, events)[k - 1]
            else At(Run(s, events), k) == At(s, k - n)
  {
    if events != [] {
      var before := Run(s, Init(events));
      SlotsAreTheLatestLogs(s, Init(events), k);
      if events[|events| - 1].Start? && Full(before) {
        RotateShifts(before);
        assert At(Run(s, events), k) == At(before, k - 1);
        if k > 1 { SlotsAreTheLatestLogs(s, Init(events), k - 1); }
      }
    }
  }

  /** Logs joined oldest first. */
  function Joined(logs: seq<Log>): Log {
    if logs == [] then [] else Joined(logs[1..]) + logs[0]
  }

  function Appended(events: seq<Event>): Log {
    if events == [] then []
    else
      var e := events[|events| - 1];
      Appended(Init(events)) + if e.Append? then e.text else []
  }

  lemma Associate(a: Log, b: Log, c: Log)
    ensures a + b + c == a + (b + c)
  {
  }

  /** Rotated logs and live log together are everything ever appended, in order. */
  lemma {:induction false} NothingIsLost(s: Slots, events: seq<Event>)
    ensures Joined(Archived(s, events)) + Live(Run(s, events)) == Live(s) + Appended(events)
  {
    if events != [] {
      NothingIsLost(s, Init(events));
      var e, before := events[|events| - 1], Run(s, Init(events));
      var past := Archived(s, Init(events));
      match e
      case Append(text) =>
        Associate(Joined(past), Live(before), text);
        Associate(Live(s), Appended(Init(events)), text);
      case Start =>
        assert Appended(events) == Appended(Init(events));
        if Full(before) { RotationMoves(past, before); }
    }
  }

  lemma RotationMoves(past: seq<Log>, before: Slots)
    requires Full(before)
    ensures Joined([before[0]] + past) + Live(Rotate(before)) == Joined(past) + Live(before)
  {
    RotateShifts(before);
    assert ([before[0]] + past)[1..] == past;
  }

  /** Up to seven rotations of a directory without backups lose nothing: the slots hold every byte. */
  lemma SevenRotationsLoseNothing(s: Slots, events: seq<Event>)
    requires forall k: nat :: k in s ==> k == 0
    requires |Archived(s, events)| <= LOG_MAX_BACKUPS
    ensures var t, n := Run(s, events), |Archived(s, events)|;
            && (forall k: nat :: 1 <= k <= n ==> k in t)
            && Joined(seq(n, i requires 0 <= i < n => if i + 1 in t then t[i + 1] else [])) + Live(t)
              == Live(s) + Appended(events)
  {
    var t, n := Run(s, events), |Archived(s, events)|;
    forall k: nat | 1 <= k <= n
      ensures k in t && t[k] == Archived(s, events)[k - 1]
    {
      SlotsAreTheLatestLogs(s, events, k);
    }
    assert seq(n, i requires 0 <= i < n => if i + 1 in t then t[i + 1] else []) == Archived(s, events);
    NothingIsLost(s, events);
  }
}
