/**
 The throttle on proactive messages: src/agent/insight-engine.ts as src/gateway/heartbeat-scheduler.ts
 drives it. A tick checks the throttle, may raise the cooldown, and after an arbitrarily long model call
 may send. Times are milliseconds; `day` gives the local calendar day of an instant.
 */
module InsightThrottle {
  import opened Wrappers

  const BASE_COOLDOWN_MS := 2 * 60 * 60 * 1000
  const MAX_DAILY_INSIGHTS := 3
  const UNACKED_THRESHOLD := 3

  type Calendar = int -> int

  datatype Throttle = Throttle(sentToday: seq<int>, lastSentAt: Option<int>, unackedCount: nat,
                               cooldownMultiplier: nat, currentDate: Option<int>)

  const FRESH := Throttle([], None, 0, 1, None)

  // ---- The four throttle functions ----

  function NewDay(s: Throttle, today: int): Throttle {
    if s.currentDate == Some(today) then s else s.(sentToday := [], currentDate := Some(today))
  }

  predicate CooledDown(s: Throttle, now: int) {
    s.lastSentAt.None? || now - s.lastSentAt.value >= BASE_COOLDOWN_MS * s.cooldownMultiplier
  }

  predicate CanSend(s: Throttle, now: int, today: int) {
    |NewDay(s, today).sentToday| < MAX_DAILY_INSIGHTS && CooledDown(s, now)
  }

  function Sent(s: Throttle, now: int): Throttle {
    s.(sentToday := s.sentToday + [now], lastSentAt := Some(now), unackedCount := s.unackedCount + 1)
  }

  function Acked(s: Throttle): Throttle { s.(unackedCount := 0, cooldownMultiplier := 1) }

  function Increased(s: Throttle): Throttle {
    if s.unackedCount < UNACKED_THRESHOLD then s
    else
      var doubled := s.cooldownMultiplier * 2;
      s.(cooldownMultiplier := if doubled <= 8 then doubled else 8, unackedCount := 0)
  }

  class InsightState {
    var sentToday: seq<int>
    var lastSentAt: Option<int>
    var unackedCount: nat
    var cooldownMultiplier: nat
    var currentDate: Option<int>

    function Value(): Throttle
      reads this
    {
      Throttle(sentToday, lastSentAt, unackedCount, cooldownMultiplier, currentDate)
    }

    constructor ()
      ensures Value() == FRESH
    {
      sentToday, lastSentAt, unackedCount, cooldownMultiplier, currentDate := [], None, 0, 1, None;
    }

    /** Even the question resets the daily list. */
    method CanSendInsight(now: int, today: int) returns (ok: bool)
      modifies this
      ensures Value() == NewDay(old(Value()), today)
      ensures ok <==> CanSend(old(Value()), now, today)
    {
      if currentDate != Some(today) {
        sentToday := [];
        currentDate := Some(today);
      }
      if |sentToday| >= MAX_DAILY_INSIGHTS { return false; }
      if lastSentAt.Some? {
        var elapsed := now - lastSentAt.value;
        if elapsed < BASE_COOLDOWN_MS * cooldownMultiplier { return false; }
      }
      return true;
    }

    method RecordInsightSent(now: int)
      modifies this
      ensures Value() == Sent(old(Value()), now)
    {
      sentToday := sentToday + [now];
      lastSentAt := Some(now);
      unackedCount := unackedCount + 1;
    }

    method RecordInsightAcked()
      modifies this
      ensures Value() == Acked(old(Value()))
    {
      unackedCount := 0;
      cooldownMultiplier := 1;
    }

    method MaybeIncreaseCooldown()
      modifies this
      ensures Value() == Increased(old(Value()))
    {
      if unackedCount >= UNACKED_THRESHOLD {
        cooldownMultiplier := if cooldownMultiplier * 2 <= 8 then cooldownMultiplier * 2 else 8;
        unackedCount := 0;
      }
    }

    /** The head of runInsightCheck, up to its model call. */
    method BeginCheck(now: int, today: int) returns (ok: bool)
      modifies this
      ensures ok <==> CanSend(old(Value()), now, today)
      ensures Value() == if ok then Increased(NewDay(old(Value()), today)) else NewDay(old(Value()), today)
    {
      ok := CanSendInsight(now, today);
      if ok { MaybeIncreaseCooldown(); }
    }
  }

  // ---- Runs ----

  /** A granted check, until its tick sends or gives up: when it was, and the multiplier it was judged by. */
  datatype Permit = Permit(at: int, multiplier: nat)

  /** Save is any other write of the scheduler's state file, and Restart reads that file again. */
  datatype Event =
    | Check(now: int)
    | Send(now: int, permit: Permit)
    | Drop(now: int, permit: Permit)
    | Ack(now: int)
    | Save(now: int)
    | Restart(now: int)

  /**
   Ticks wait for their model calls side by side: nothing in the scheduler keeps them apart. Sends and replies
   are saved at once, what a check changes is not.
   */
  datatype System = System(s: Throttle, open: seq<Permit>, saved: Throttle)

  function Remove(open: seq<Permit>, p: Permit): (r: seq<Permit>)
    requires p in open
    ensures |r| == |open| - 1
  {
    if open[0] == p then open[1..] else [open[0]] + Remove(open[1..], p)
  }

  predicate Enabled(y: System, e: Event) { (e.Send? || e.Drop?) ==> e.permit in y.open }

  function Step(day: Calendar, y: System, e: Event): System {
    match e
    case Check(now) =>
      if CanSend(y.s, now, day(now))
      then System(Increased(NewDay(y.s, day(now))), y.open + [Permit(now, y.s.cooldownMultiplier)], y.saved)
      else System(NewDay(y.s, day(now)), y.open, y.saved)
    case Send(now, p) => System(Sent(y.s, now), if p in y.open then Remove(y.open, p) else y.open, Sent(y.s, now))
    case Drop(now, p) => System(y.s, if p in y.open then Remove(y.open, p) else y.open, y.saved)
    case Ack(_) => System(Acked(y.s), y.open, Acked(y.s))
    case Save(_) => System(y.s, y.open, y.s)
    case Restart(_) => System(y.saved, [], y.saved)
  }

  function Run(day: Calendar, events: seq<Event>): System {
    if events == [] then System(FRESH, [], FRESH) else Step(day, Run(day, Init(events)), Last(events))
  }

  function Init(events: seq<Event>): seq<Event>
    requires events != []
  {
    events[..|events| - 1]
  }

  function Last(events: seq<Event>): Event
    requires events != []
  {
    events[|events| - 1]
  }

  ghost predicate MonotoneDays(day: Calendar) { forall t, u :: t <= u ==> day(t) <= day(u) }

  /** Sends come only from granted checks, on a clock that never goes back, with at most k ticks waiting at once. */
  predicate Legal(day: Calendar, events: seq<Event>, k: nat) {
    events == [] ||
    (Legal(day, Init(events), k) && Enabled(Run(day, Init(events)), Last(events)) && |Run(day, events).open| <= k
     && (|events| > 1 ==> Last(Init(events)).now <= Last(events).now))
  }

  // ---- What happened, read off the events alone ----

  function LastSend(events: seq<Event>): Option<int> {
    if events == [] then None else if Last(events).Send? then Some(Last(events).now) else LastSend(Init(events))
  }

  /** The last check that the state still knows of. */
  function LastCheck(events: seq<Event>): Option<int> {
    if events == [] then None
    else
      match Last(events)
      case Check(now) => Some(now)
      case Restart(_) => SavedCheck(Init(events))
      case _ => LastCheck(Init(events))
  }

  /** The last check that the state file knows of. */
  function SavedCheck(events: seq<Event>): Option<int> {
    if events == [] then None
    else
      match Last(events)
      case Send(_, _) => LastCheck(Init(events))
      case Ack(_) => LastCheck(Init(events))
      case Save(_) => LastCheck(Init(events))
      case _ => SavedCheck(Init(events))
  }

  predicate On(day: Calendar, check: Option<int>, d: int) { check.Some? && day(check.value) == d }

  predicate Before(day: Calendar, check: Option<int>, d: int) { check.None? || day(check.value) < d }

  predicate CheckedOn(day: Calendar, events: seq<Event>, d: int) { On(day, LastCheck(events), d) }

  /** Sends on a calendar day. */
  function SendsOn(day: Calendar, events: seq<Event>, d: int): nat {
    if events == [] then 0
    else SendsOn(day, Init(events), d) + if Last(events).Send? && day(Last(events).now) == d then 1 else 0
  }

  /** Sends whose check was made on a calendar day. */
  function SendsFrom(day: Calendar, events: seq<Event>, d: int): nat {
    if events == [] then 0
    else SendsFrom(day, Init(events), d) + if Last(events).Send? && day(Last(events).permit.at) == d then 1 else 0
  }

  /** Sends on a day whose check was made on the same day. */
  function SameDay(day: Calendar, events: seq<Event>, d: int): nat {
    if events == [] then 0
    else
      var e := Last(events);
      SameDay(day, Init(events), d) + if e.Send? && day(e.now) == d && day(e.permit.at) == d then 1 else 0
  }

  /** Sends on a day whose check was made on another: midnight passed during the model call. */
  function Crossings(day: Calendar, events: seq<Event>, d: int): nat {
    if events == [] then 0
    else
      var e := Last(events);
      Crossings(day, Init(events), d) + if e.Send? && day(e.now) == d && day(e.permit.at) != d then 1 else 0
  }

  /** Sends from day d on whose check was made before it. */
  function Carried(day: Calendar, events: seq<Event>, d: int): nat {
    if events == [] then 0
    else
      var e := Last(events);
      Carried(day, Init(events), d) + if e.Send? && day(e.permit.at) < d <= day(e.now) then 1 else 0
  }

  /** Sends since the user last replied. */
  function Unanswered(events: seq<Event>): nat {
    if events == [] || Last(events).Ack? then 0 else Unanswered(Init(events)) + if Last(events).Send? then 1 else 0
  }

  // ---- Outstanding permits ----

  /** Permits granted on a day, and those granted before it. */
  function OpenFrom(day: Calendar, open: seq<Permit>, d: int): (n: nat)
    ensures n <= |open|
  {
    if open == [] then 0 else (if day(open[0].at) == d then 1 else 0) + OpenFrom(day, open[1..], d)
  }

  function OpenBefore(day: Calendar, open: seq<Permit>, d: int): (n: nat)
    ensures n <= |open|
  {
    if open == [] then 0 else (if day(open[0].at) < d then 1 else 0) + OpenBefore(day, open[1..], d)
  }

  lemma {:induction false} RemoveCounts(day: Calendar, open: seq<Permit>, p: Permit, d: int)
    requires p in open
    ensures OpenFrom(day, Remove(open, p), d) == OpenFrom(day, open, d) - if day(p.at) == d then 1 else 0
    ensures OpenBefore(day, Remove(open, p), d) == OpenBefore(day, open, d) - if day(p.at) < d then 1 else 0
    ensures forall q :: q in Remove(open, p) ==> q in open
  {
    if open[0] != p {
      RemoveCounts(day, open[1..], p, d);
      assert ([open[0]] + Remove(open[1..], p))[1..] == Remove(open[1..], p);
    }
  }

  lemma {:induction false} GrantCounts(day: Calendar, open: seq<Permit>, p: Permit, d: int)
    ensures OpenFrom(day, open + [p], d) == OpenFrom(day, open, d) + if day(p.at) == d then 1 else 0
    ensures OpenBefore(day, open + [p], d) == OpenBefore(day, open, d) + if day(p.at) < d then 1 else 0
  {
    if open != [] {
      GrantCounts(day, open[1..], p, d);
      assert (open + [p])[1..] == open[1..] + [p];
    } else {
      assert [] + [p] == [p] && [p][1..] == [];
    }
  }

  // ---- The state means what happened ----

  function DayOf(day: Calendar, check: Option<int>): Option<int> {
    if check.None? then None else Some(day(check.value))
  }

  lemma {:induction false} StateRemembers(day: Calendar, events: seq<Event>)
    ensures Run(day, events).s.lastSentAt == LastSend(events) == Run(day, events).saved.lastSentAt
    ensures Run(day, events).s.currentDate == DayOf(day, LastCheck(events))
    ensures Run(day, events).saved.currentDate == DayOf(day, SavedCheck(events))
  {
    if events != [] { StateRemembers(day, Init(events)); }
  }

  predicate NotAfter(a: Option<int>, b: Option<int>) { a.Some? ==> b.Some? && a.value <= b.value }

  /** Checks, and with them the permits in hand, lie in the past, none after the last check. */
  lemma {:induction false} ChecksArePast(day: Calendar, events: seq<Event>, k: nat)
    requires Legal(day, events, k)
    ensures LastCheck(events).Some? ==> events != [] && LastCheck(events).value <= Last(events).now
    ensures NotAfter(SavedCheck(events), LastCheck(events))
    ensures forall p :: p in Run(day, events).open ==>
              LastCheck(events).Some? && p.at <= LastCheck(events).value
  {
    if events != [] {
      ChecksArePast(day, Init(events), k);
      var open, e := Run(day, Init(events)).open, Last(events);
      if e.Send? || e.Drop? { RemoveCounts(day, open, e.permit, 0); }
    }
  }

  /** The multiplier is always one of four. */
  lemma {:induction false} MultiplierIsAPower(day: Calendar, events: seq<Event>)
    ensures Run(day, events).s.cooldownMultiplier in {1, 2, 4, 8}
    ensures Run(day, events).saved.cooldownMultiplier in {1, 2, 4, 8}
  {
    if events != [] { MultiplierIsAPower(day, Init(events)); }
  }

  function Doubled(n: nat): nat { if n == 0 then 1 else if n == 1 then 2 else if n == 2 then 4 else 8 }

  /** The cooldown has doubled once for each three sends in a row left unanswered, up to 16 hours. */
  predicate Adapted(s: Throttle, unanswered: nat) {
    && s.unackedCount <= unanswered && (unanswered - s.unackedCount) % 3 == 0
    && s.unackedCount <= UNACKED_THRESHOLD
    && s.cooldownMultiplier == Doubled((unanswered - s.unackedCount) / 3)
  }

  predicate AdaptedThroughout(y: System, unanswered: nat) {
    && Adapted(y.s, unanswered) && Adapted(y.saved, unanswered)
    && (y.open != [] ==> y.s.unackedCount < UNACKED_THRESHOLD)
  }

  lemma StaysAdapted(day: Calendar, y: System, e: Event, unanswered: nat)
    requires AdaptedThroughout(y, unanswered) && Enabled(y, e) && |y.open| <= 1
    ensures AdaptedThroughout(Step(day, y, e), if e.Ack? then 0 else unanswered + if e.Send? then 1 else 0)
  {
    if e.Check? { IncreaseAdapts(NewDay(y.s, day(e.now)), unanswered); }
  }

  lemma IncreaseAdapts(s: Throttle, unanswered: nat)
    requires Adapted(s, unanswered)
    ensures Adapted(Increased(s), unanswered) && Increased(s).unackedCount < UNACKED_THRESHOLD
  {
  }

  /** So it is when ticks do not overlap, in the state file too. */
  lemma {:induction false} CooldownAdapts(day: Calendar, events: seq<Event>)
    requires Legal(day, events, 1)
    ensures Adapted(Run(day, events).s, Unanswered(events)) && Adapted(Run(day, events).saved, Unanswered(events))
    ensures Run(day, events).open != [] ==> Run(day, events).s.unackedCount < UNACKED_THRESHOLD
  {
    if events != [] {
      CooldownAdapts(day, Init(events));
      StaysAdapted(day, Run(day, Init(events)), Last(events), Unanswered(Init(events)));
    }
  }

  // ---- How many sends a day ----

  /** What is known of day d: the daily list counts its sends while it is current, and permits are few. */
  predicate Tallied(day: Calendar, events: seq<Event>, d: int, k: nat) {
    var y, sends := Run(day, events), SendsFrom(day, events, d);
    && sends + OpenFrom(day, y.open, d) <= MAX_DAILY_INSIGHTS - 1 + k
    && (On(day, LastCheck(events), d) ==> sends <= |y.s.sentToday|)
    && (On(day, SavedCheck(events), d) ==> sends <= |y.saved.sentToday|)
    && (Before(day, LastCheck(events), d) ==> sends + OpenFrom(day, y.open, d) == 0)
    && (Before(day, SavedCheck(events), d) ==> sends == 0)
  }

  lemma TallyCheck(day: Calendar, events: seq<Event>, now: int, d: int, k: nat)
    requires k > 0 && Tallied(day, events, d, k) && |Step(day, Run(day, events), Check(now)).open| <= k
    requires LastCheck(events).Some? ==> day(LastCheck(events).value) <= day(now)
    ensures Tallied(day, events + [Check(now)], d, k)
  {
    var all, y := events + [Check(now)], Run(day, events);
    assert Init(all) == events && Last(all) == Check(now);
    StateRemembers(day, events);
    GrantCounts(day, y.open, Permit(now, y.s.cooldownMultiplier), d);
  }

  lemma TallySend(day: Calendar, events: seq<Event>, e: Event, d: int, k: nat)
    requires (e.Send? || e.Drop?) && Tallied(day, events, d, k) && e.permit in Run(day, events).open
    requires LastCheck(events).Some? && day(e.permit.at) <= day(LastCheck(events).value)
    ensures Tallied(day, events + [e], d, k)
  {
    var all := events + [e];
    assert Init(all) == events && Last(all) == e;
    RemoveCounts(day, Run(day, events).open, e.permit, d);
  }

  lemma {:induction false} DailyTally(day: Calendar, events: seq<Event>, d: int, k: nat)
    requires k > 0 && Legal(day, events, k) && MonotoneDays(day)
    ensures Tallied(day, events, d, k)
  {
    if events != [] {
      DailyTally(day, Init(events), d, k);
      ChecksArePast(day, Init(events), k);
      assert Init(events) + [Last(events)] == events;
      match Last(events)
      case Check(now) => TallyCheck(day, Init(events), now, d, k);
      case Send(_, _) => TallySend(day, Init(events), Last(events), d, k);
      case Drop(_, _) => TallySend(day, Init(events), Last(events), d, k);
      case _ =>
    }
  }

  /** With at most k ticks waiting at once, a day grants at most k - 1 messages beyond its three. */
  lemma GrantedOnADay(day: Calendar, events: seq<Event>, d: int, k: nat)
    requires k > 0 && Legal(day, events, k) && MonotoneDays(day)
    ensures SendsFrom(day, events, d) <= MAX_DAILY_INSIGHTS + k - 1
  {
    DailyTally(day, events, d, k);
  }

  /** Only permits that were open when day d began can be used for a send on it or later. */
  lemma {:induction false} CarriedAreFew(day: Calendar, events: seq<Event>, d: int, k: nat)
    requires Legal(day, events, k) && MonotoneDays(day)
    ensures Carried(day, events, d) + OpenBefore(day, Run(day, events).open, d) <= k
    ensures Carried(day, events, d) > 0 ==> day(Last(events).now) >= d
  {
    if events != [] {
      var e, y := Last(events), Run(day, Init(events));
      CarriedAreFew(day, Init(events), d, k);
      match e
      case Check(now) => GrantCounts(day, y.open, Permit(now, y.s.cooldownMultiplier), d);
      case Send(_, p) => RemoveCounts(day, y.open, p, d);
      case Drop(_, p) => RemoveCounts(day, y.open, p, d);
      case _ =>
    }
  }

  lemma {:induction false} SendsSplit(day: Calendar, events: seq<Event>, d: int, k: nat)
    requires Legal(day, events, k) && MonotoneDays(day)
    ensures SendsOn(day, events, d) == SameDay(day, events, d) + Crossings(day, events, d)
    ensures SameDay(day, events, d) <= SendsFrom(day, events, d)
    ensures Crossings(day, events, d) <= Carried(day, events, d)
  {
    if events != [] {
      SendsSplit(day, Init(events), d, k);
      ChecksArePast(day, Init(events), k);
    }
  }

  /**
   With at most k ticks waiting at once: at most k + 2 sends a day beside those that span midnight, of which
   there are at most k. So never more than 2k + 2, and that many exactly when both bounds are reached.
   */
  lemma OverlapLimit(day: Calendar, events: seq<Event>, d: int, k: nat)
    requires k > 0 && Legal(day, events, k) && MonotoneDays(day)
    ensures SendsOn(day, events, d) <= k + 2 + Crossings(day, events, d) && Crossings(day, events, d) <= k
    ensures SendsOn(day, events, d) == 2 * k + 2 <==>
              Crossings(day, events, d) == k && SameDay(day, events, d) == k + 2
  {
    DailyTally(day, events, d, k);
    CarriedAreFew(day, events, d, k);
    SendsSplit(day, events, d, k);
  }

  /**
   One tick at a time: never more than four sends a day, and more than three exactly when one spans midnight
   and three more are granted and sent on the day itself.
   */
  lemma DailyLimit(day: Calendar, events: seq<Event>, d: int)
    requires Legal(day, events, 1) && MonotoneDays(day)
    ensures SendsOn(day, events, d) <= 4
    ensures SendsOn(day, events, d) > 3 <==> Crossings(day, events, d) == 1 && SameDay(day, events, d) == 3
  {
    OverlapLimit(day, events, d, 1);
  }

  function SendsBetween(day: Calendar, events: seq<Event>, from: int, days: nat): nat {
    if days == 0 then 0 else SendsBetween(day, events, from, days - 1) + SendsOn(day, events, from + days - 1)
  }

  function GrantsBetween(day: Calendar, events: seq<Event>, from: int, days: nat): nat {
    if days == 0 then 0 else GrantsBetween(day, events, from, days - 1) + SendsFrom(day, events, from + days - 1)
  }

  lemma {:induction false} BetweenStep(day: Calendar, events: seq<Event>, from: int, days: nat)
    requires events != []
    ensures var e := Last(events);
            && SendsBetween(day, events, from, days) == SendsBetween(day, Init(events), from, days)
                 + (if e.Send? && from <= day(e.now) < from + days then 1 else 0)
            && GrantsBetween(day, events, from, days) == GrantsBetween(day, Init(events), from, days)
                 + (if e.Send? && from <= day(e.permit.at) < from + days then 1 else 0)
  {
    if days > 0 { BetweenStep(day, events, from, days - 1); }
  }

  lemma {:induction false} NothingBetween(day: Calendar, from: int, days: nat)
    ensures SendsBetween(day, [], from, days) == 0
  {
    if days > 0 { NothingBetween(day, from, days - 1); }
  }

  /** A send within the period was granted within it, or carried into it. */
  lemma {:induction false} SentOrCarried(day: Calendar, events: seq<Event>, from: int, days: nat, k: nat)
    requires Legal(day, events, k) && MonotoneDays(day)
    ensures SendsBetween(day, events, from, days) <= GrantsBetween(day, events, from, days) + Carried(day, events, from)
  {
    if events == [] {
      NothingBetween(day, from, days);
    } else {
      SentOrCarried(day, Init(events), from, days, k);
      BetweenStep(day, events, from, days);
      ChecksArePast(day, Init(events), k);
    }
  }

  lemma {:induction false} GrantsOverDays(day: Calendar, events: seq<Event>, from: int, days: nat, k: nat)
    requires k > 0 && Legal(day, events, k) && MonotoneDays(day)
    ensures GrantsBetween(day, events, from, days) <= (k + 2) * days
  {
    if days > 0 {
      GrantsOverDays(day, events, from, days - 1, k);
      GrantedOnADay(day, events, from + days - 1, k);
      assert (k + 2) * days == (k + 2) * (days - 1) + (k + 2);
    }
  }

  /**
   Over any N days in a row at most (k + 2)N messages are granted, and at most k more are sent, all of them
   carried over from before the first day: with ticks one at a time 3N + 1.
   */
  lemma LimitOverDays(day: Calendar, events: seq<Event>, from: int, days: nat, k: nat)
    requires k > 0 && Legal(day, events, k) && MonotoneDays(day)
    ensures GrantsBetween(day, events, from, days) <= (k + 2) * days
    ensures SendsBetween(day, events, from, days) <= (k + 2) * days + Carried(day, events, from)
    ensures Carried(day, events, from) <= k
  {
    GrantsOverDays(day, events, from, days, k);
    SentOrCarried(day, events, from, days, k);
    CarriedAreFew(day, events, from, k);
  }

  // ---- Spacing ----

  /** One tick at a time: between consecutive sends lie two hours times the multiplier the check was judged by. */
  lemma SpacedSends(day: Calendar, events: seq<Event>)
    requires events != [] && Legal(day, events, 1) && Last(events).Send? && LastSend(Init(events)).Some?
    ensures var multiplier := Last(events).permit.multiplier;
            && multiplier in {1, 2, 4, 8}
            && Last(events).now - LastSend(Init(events)).value >= BASE_COOLDOWN_MS * multiplier
  {
    GrantedAfterCooldown(day, Init(events));
    StateRemembers(day, Init(events));
    ChecksArePast(day, Init(events), 1);
  }

  /** The permit in hand was granted after the cooldown. */
  predicate Spaced(y: System) {
    y.open != [] ==>
      && |y.open| == 1 && y.open[0].multiplier in {1, 2, 4, 8}
      && (y.s.lastSentAt.Some? ==> y.open[0].at - y.s.lastSentAt.value >= BASE_COOLDOWN_MS * y.open[0].multiplier)
  }

  lemma StaysSpaced(day: Calendar, y: System, e: Event)
    requires Spaced(y) && y.s.cooldownMultiplier in {1, 2, 4, 8} && Enabled(y, e)
    requires |Step(day, y, e).open| <= 1
    ensures Spaced(Step(day, y, e))
  {
  }

  lemma {:induction false} GrantedAfterCooldown(day: Calendar, events: seq<Event>)
    requires Legal(day, events, 1)
    ensures Spaced(Run(day, events))
  {
    if events != [] {
      GrantedAfterCooldown(day, Init(events));
      MultiplierIsAPower(day, Init(events));
      StaysSpaced(day, Run(day, Init(events)), Last(events));
    }
  }

  // ---- When a check is granted ----

  /** Sends recorded while d was the date of the last check. */
  function Counted(day: Calendar, events: seq<Event>, d: int): nat {
    if events == [] then 0
    else Counted(day, Init(events), d) + if Last(events).Send? && CheckedOn(day, Init(events), d) then 1 else 0
  }

  lemma {:induction false} ListIsCounted(day: Calendar, events: seq<Event>, d: int, k: nat)
    requires Legal(day, events, k) && MonotoneDays(day)
    ensures CheckedOn(day, events, d) ==> |Run(day, events).s.sentToday| == Counted(day, events, d)
    ensures On(day, SavedCheck(events), d) ==> |Run(day, events).saved.sentToday| == Counted(day, events, d)
    ensures Before(day, LastCheck(events), d) || Before(day, SavedCheck(events), d) ==> Counted(day, events, d) == 0
  {
    if events != [] {
      ListIsCounted(day, Init(events), d, k);
      StateRemembers(day, Init(events));
      ChecksArePast(day, Init(events), k);
    }
  }

  /** The exact rule, overlapping ticks or not: fewer than three sends counted today, and the cooldown is over. */
  lemma GrantedExactly(day: Calendar, events: seq<Event>, now: int, k: nat)
    requires Legal(day, events, k) && (events != [] ==> Last(events).now <= now) && MonotoneDays(day)
    ensures var s := Run(day, events).s;
            CanSend(s, now, day(now)) <==>
            && Counted(day, events, day(now)) < MAX_DAILY_INSIGHTS
            && (LastSend(events).Some? ==> now - LastSend(events).value >= BASE_COOLDOWN_MS * s.cooldownMultiplier)
  {
    StateRemembers(day, events);
    ListIsCounted(day, events, day(now), k);
    ChecksArePast(day, events, k);
  }

  lemma {:induction false} CountedAreToday(day: Calendar, events: seq<Event>, d: int, k: nat)
    requires Legal(day, events, k) && MonotoneDays(day)
    requires events != [] ==> day(Last(events).now) <= d
    ensures Counted(day, events, d) <= SendsOn(day, events, d)
  {
    if events != [] {
      CountedAreToday(day, Init(events), d, k);
      ChecksArePast(day, Init(events), k);
    }
  }

  /** Sixteen silent hours and a day without a message always permit a send. */
  lemma SilenceEnds(day: Calendar, events: seq<Event>, now: int, k: nat)
    requires Legal(day, events, k) && (events != [] ==> Last(events).now <= now) && MonotoneDays(day)
    requires SendsOn(day, events, day(now)) == 0
    requires LastSend(events).Some? ==> now - LastSend(events).value >= 8 * BASE_COOLDOWN_MS
    ensures CanSend(Run(day, events).s, now, day(now))
  {
    CountedAreToday(day, events, day(now), k);
    MultiplierIsAPower(day, events);
    LongestCooldown(Run(day, events).s.cooldownMultiplier);
    GrantedExactly(day, events, now, k);
  }

  lemma LongestCooldown(multiplier: nat)
    requires multiplier in {1, 2, 4, 8}
    ensures BASE_COOLDOWN_MS * multiplier <= 8 * BASE_COOLDOWN_MS
  {
  }

  // ---- The bounds are reached ----

  const HOUR := 60 * 60 * 1000

  /** UTC days. */
  const UTC: Calendar := t => t / 86_400_000

  /** A run that has reached a state with n sends on day d, and nothing after `at`. */
  ghost predicate Reached(events: seq<Event>, s: Throttle, open: seq<Permit>, at: int, d: int, n: nat, k: nat) {
    && Legal(UTC, events, k) && Run(UTC, events).s == s && Run(UTC, events).open == open
    && SendsOn(UTC, events, d) == n && (events != [] ==> Last(events).now <= at)
  }

  lemma AddCheck(events: seq<Event>, s: Throttle, open: seq<Permit>, t: int, d: int, n: nat, k: nat)
    requires Reached(events, s, open, t, d, n, k) && CanSend(s, t, UTC(t)) && |open| < k
    ensures Reached(events + [Check(t)], Increased(NewDay(s, UTC(t))), open + [Permit(t, s.cooldownMultiplier)],
                    t, d, n, k)
  {
    var all := events + [Check(t)];
    assert Init(all) == events && Last(all) == Check(t);
  }

  lemma AddSend(events: seq<Event>, s: Throttle, open: seq<Permit>, t: int, p: Permit, d: int, n: nat, k: nat)
    requires Reached(events, s, open, t, d, n, k) && p in open
    ensures Reached(events + [Send(t, p)], Sent(s, t), Remove(open, p), t, d, if UTC(t) == d then n + 1 else n, k)
  {
    var all := events + [Send(t, p)];
    assert Init(all) == events && Last(all) == Send(t, p);
  }

  lemma AddAck(events: seq<Event>, s: Throttle, open: seq<Permit>, t: int, d: int, n: nat, k: nat)
    requires Reached(events, s, open, t, d, n, k) && |open| <= k
    ensures Reached(events + [Ack(t)], Acked(s), open, t, d, n, k)
  {
    var all := events + [Ack(t)];
    assert Init(all) == events && Last(all) == Ack(t);
  }

  /** One tick: a granted check at a, its send at b. */
  lemma CheckAndSend(events: seq<Event>, s: Throttle, a: int, b: int, d: int, n: nat, k: nat) returns (all: seq<Event>)
    requires Reached(events, s, [], a, d, n, k) && a <= b && CanSend(s, a, UTC(a)) && k > 0
    ensures Reached(all, Sent(Increased(NewDay(s, UTC(a))), b), [], b, d, if UTC(b) == d then n + 1 else n, k)
  {
    var p := Permit(a, s.cooldownMultiplier);
    AddCheck(events, s, [], a, d, n, k);
    assert [] + [p] == [p] && Remove([p], p) == [];
    all := events + [Check(a)] + [Send(b, p)];
    AddSend(events + [Check(a)], Increased(NewDay(s, UTC(a))), [p], b, p, d, n, k);
  }

  const S1 := Throttle([24 * HOUR], Some(24 * HOUR), 1, 1, Some(0))
  const S2 := Throttle([26 * HOUR], Some(26 * HOUR), 2, 1, Some(1))
  const S3 := Throttle([26 * HOUR, 28 * HOUR], Some(28 * HOUR), 3, 1, Some(1))

  lemma ThrottleSteps()
    ensures CanSend(FRESH, 23 * HOUR, 0) && Sent(Increased(NewDay(FRESH, 0)), 24 * HOUR) == S1
    ensures CanSend(S1, 26 * HOUR, 1) && Sent(Increased(NewDay(S1, 1)), 26 * HOUR) == S2
    ensures CanSend(S2, 28 * HOUR, 1) && Sent(Increased(NewDay(S2, 1)), 28 * HOUR) == S3
    ensures CanSend(S3, 30 * HOUR, 1)
  {
  }

  /** One tick at a time, a check at 23:00 that sends at midnight leaves the new day its full allowance. */
  lemma FourInOneDay() returns (events: seq<Event>)
    ensures Legal(UTC, events, 1) && SendsOn(UTC, events, 1) == 4
  {
    ThrottleSteps();
    var late := CheckAndSend([], FRESH, 23 * HOUR, 24 * HOUR, 1, 0, 1);
    var first := CheckAndSend(late, S1, 26 * HOUR, 26 * HOUR, 1, 1, 1);
    var second := CheckAndSend(first, S2, 28 * HOUR, 28 * HOUR, 1, 2, 1);
    events := CheckAndSend(second, S3, 30 * HOUR, 30 * HOUR, 1, 3, 1);
  }

  function Copies(p: Permit, n: nat): (r: seq<Permit>)
    ensures |r| == n && forall i :: 0 <= i < n ==> r[i] == p
  {
    seq(n, _ => p)
  }

  /** While nothing is sent, a granted check leaves the next one granted. */
  lemma {:induction false} ManyChecks(events: seq<Event>, s: Throttle, t: int, d: int, n: nat, j: nat, k: nat)
    returns (all: seq<Event>)
    requires Reached(events, s, [], t, d, n, k) && j <= k
    requires CanSend(s, t, UTC(t)) && Increased(NewDay(s, UTC(t))) == s
    ensures Reached(all, s, Copies(Permit(t, s.cooldownMultiplier), j), t, d, n, k)
    decreases j
  {
    var p := Permit(t, s.cooldownMultiplier);
    if j == 0 {
      all := events;
      assert Copies(p, 0) == [];
    } else {
      var before := ManyChecks(events, s, t, d, n, j - 1, k);
      AddCheck(before, s, Copies(p, j - 1), t, d, n, k);
      all := before + [Check(t)];
      assert Copies(p, j - 1) + [p] == Copies(p, j);
    }
  }

  function SentTimes(s: Throttle, t: int, j: nat): Throttle {
    if j == 0 then s else Sent(SentTimes(s, t, j - 1), t)
  }

  lemma {:induction false} SentTimesAre(s: Throttle, t: int, j: nat)
    ensures var r := SentTimes(s, t, j);
            r.currentDate == s.currentDate && r.lastSentAt == if j == 0 then s.lastSentAt else Some(t)
  {
    if j > 0 { SentTimesAre(s, t, j - 1); }
  }

  lemma {:induction false} ManySends(events: seq<Event>, s: Throttle, t: int, p: Permit, n: nat, m: nat, j: nat, k: nat)
    returns (all: seq<Event>)
    requires Reached(events, s, Copies(p, m), t, UTC(t), n, k) && j <= m
    ensures Reached(all, SentTimes(s, t, j), Copies(p, m - j), t, UTC(t), n + j, k)
    ensures j > 0 ==> all != [] && Last(all) == Send(t, p)
    ensures j > 1 ==> Init(all) != [] && Last(Init(all)) == Send(t, p)
    decreases j
  {
    if j == 0 {
      all := events;
    } else {
      var before := ManySends(events, s, t, p, n, m, j - 1, k);
      var open := Copies(p, m - j + 1);
      assert open[0] == p && Remove(open, p) == Copies(p, m - j);
      AddSend(before, SentTimes(s, t, j - 1), open, t, p, UTC(t), n + j - 1, k);
      all := before + [Send(t, p)];
      assert Init(all) == before;
    }
  }

  const T1 := Throttle([0], Some(0), 1, 1, Some(0))
  const T2 := Throttle([0, 2 * HOUR], Some(2 * HOUR), 2, 1, Some(0))

  lemma QuietSteps()
    ensures CanSend(FRESH, 0, 0) && Sent(Increased(NewDay(FRESH, 0)), 0) == T1
    ensures CanSend(T1, 2 * HOUR, 0) && Sent(Increased(NewDay(T1, 0)), 2 * HOUR) == T2
    ensures CanSend(T2, 4 * HOUR, 0) && Increased(NewDay(T2, 0)) == T2
  {
  }

  /**
   k overlapping ticks do reach k + 2 sends on one day, none across midnight: five with three ticks. And two
   of them already send without any time between.
   */
  lemma OverlapReachesTheLimit(k: nat) returns (events: seq<Event>)
    requires k > 0
    ensures Legal(UTC, events, k) && SendsOn(UTC, events, 0) == k + 2
    ensures k > 1 ==>
              && |events| > 1 && Last(events).Send? && Last(Init(events)).Send?
              && Last(events).now == Last(Init(events)).now
  {
    QuietSteps();
    var first := CheckAndSend([], FRESH, 0, 0, 0, 0, k);
    var second := CheckAndSend(first, T1, 2 * HOUR, 2 * HOUR, 0, 1, k);
    var checked := ManyChecks(second, T2, 4 * HOUR, 0, 2, k, k);
    events := ManySends(checked, T2, 4 * HOUR, Permit(4 * HOUR, 1), 2, k, k, k);
  }

  const U0 := FRESH.(currentDate := Some(0))
  const U1 := Throttle([26 * HOUR], Some(26 * HOUR), 1, 1, Some(1))
  const U2 := Throttle([26 * HOUR, 28 * HOUR], Some(28 * HOUR), 2, 1, Some(1))

  lemma LateSteps(late: Throttle)
    requires late.lastSentAt == Some(24 * HOUR) && late.currentDate == Some(0)
    ensures CanSend(Acked(late), 26 * HOUR, 1) && Sent(Increased(NewDay(Acked(late), 1)), 26 * HOUR) == U1
    ensures CanSend(U1, 28 * HOUR, 1) && Sent(Increased(NewDay(U1, 1)), 28 * HOUR) == U2
    ensures CanSend(U2, 30 * HOUR, 1) && Increased(NewDay(U2, 1)) == U2
  {
  }

  /** k ticks granted at 23:00 that send at midnight. */
  lemma CrossingSends(k: nat) returns (events: seq<Event>)
    requires k > 0
    ensures Reached(events, SentTimes(U0, 24 * HOUR, k), [], 24 * HOUR, 1, k, k)
  {
    var start := CheckedOnce(k);
    var checked := ManyChecks(start, U0, 23 * HOUR, 1, 0, k, k);
    events := ManySends(checked, U0, 24 * HOUR, Permit(23 * HOUR, 1), 0, k, k, k);
    assert Copies(Permit(23 * HOUR, 1), 0) == [];
  }

  /** A check that gives up. */
  lemma CheckedOnce(k: nat) returns (events: seq<Event>)
    requires k > 0
    ensures Reached(events, U0, [], 23 * HOUR, 1, 0, k)
  {
    var p := Permit(23 * HOUR, 1);
    assert Reached([], FRESH, [], 23 * HOUR, 1, 0, k);
    AddCheck([], FRESH, [], 23 * HOUR, 1, 0, k);
    var checked := [] + [Check(23 * HOUR)];
    events := checked + [Drop(23 * HOUR, p)];
    assert Init(events) == checked && Last(events) == Drop(23 * HOUR, p) && Remove([p], p) == [];
    assert Run(UTC, checked).open == [p];
  }

  /** The largest number is reached for every k: k sends from before midnight, two, and k more at one moment. */
  lemma MostInOneDay(k: nat) returns (events: seq<Event>)
    requires k > 0
    ensures Legal(UTC, events, k) && SendsOn(UTC, events, 1) == 2 * k + 2
  {
    var late := CrossingSends(k);
    var s := SentTimes(U0, 24 * HOUR, k);
    SentTimesAre(U0, 24 * HOUR, k);
    LateSteps(s);
    AddAck(late, s, [], 24 * HOUR, 1, k, k);
    var first := CheckAndSend(late + [Ack(24 * HOUR)], Acked(s), 26 * HOUR, 26 * HOUR, 1, k, k);
    var second := CheckAndSend(first, U1, 28 * HOUR, 28 * HOUR, 1, k + 1, k);
    var checked := ManyChecks(second, U2, 30 * HOUR, 1, k + 2, k, k);
    events := ManySends(checked, U2, 30 * HOUR, Permit(30 * HOUR, 1), k + 2, k, k, k);
  }
}
