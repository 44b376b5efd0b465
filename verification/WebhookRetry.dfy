// One webhook delivery row under one worker: claimed, attempted, recorded, retried
// with exponential backoff, and reaped when the worker died holding it.
module WebhookRetry {
  import opened Wrappers

  const STUCK_MS := 300_000

  datatype Profile = Profile(maxAttempts: nat, baseDelaySecs: nat)

  function RetryProfile(name: string): Profile {
    if name == "conservative" then Profile(3, 30)
    else if name == "aggressive" then Profile(7, 15)
    else Profile(5, 60)
  }

  function ProfileOf(setting: Option<string>): Profile {
    match setting
    case Some(name) => RetryProfile(name)
    case None => RetryProfile("balanced")
  }

  // ---- the row and its statements; times in milliseconds ----

  datatype Status = Pending | Delivering | Succeeded | Failed

  datatype Row = Row(status: Status, attempts: nat, nextAt: Option<nat>, lastAt: Option<nat>, updatedAt: nat)

  predicate Final(s: Status) {
    s == Succeeded || s == Failed
  }

  predicate IsStuck(r: Row, clock: nat) {
    && r.status == Delivering
    && (r.lastAt.Some? ==> r.lastAt.value + STUCK_MS < clock)
    && r.updatedAt + STUCK_MS < clock
  }

  function ReapRow(r: Row, now: nat, clock: nat): Row {
    if IsStuck(r, clock) then r.(status := Pending, updatedAt := now) else r
  }

  // `live` says whether the endpoint is active and not paused.
  predicate IsClaimable(r: Row, now: nat, live: bool) {
    r.status == Pending && (r.nextAt.Some? ==> r.nextAt.value <= now) && live
  }

  function ClaimRow(r: Row, now: nat, live: bool): Row {
    if IsClaimable(r, now, live) then r.(status := Delivering, updatedAt := now) else r
  }

  function SuccessRow(r: Row, attempts: nat, clock: nat): Row {
    Row(Succeeded, attempts + 1, None, Some(clock), clock)
  }

  // 1 << e
  function Shift(e: nat): (power: nat)
    ensures power >= 1
  {
    if e == 0 then 1 else 2 * Shift(e - 1)
  }

  function DelayMs(p: Profile, attempt: nat): nat
    requires attempt >= 1
  {
    1000 * (p.baseDelaySecs * Shift(if attempt - 1 <= 30 then attempt - 1 else 30))
  }

  // The next attempt is timed from a second reading of the clock, `lag` later.
  function FailureRow(r: Row, attempts: nat, p: Profile, clock: nat, lag: nat): Row {
    if attempts + 1 >= p.maxAttempts then Row(Failed, attempts + 1, None, Some(clock), clock)
    else Row(Pending, attempts + 1, Some(clock + lag + DelayMs(p, attempts + 1)), Some(clock), clock)
  }

  // ---- the worker ----

  // The statement the worker executes next; attempts are as it loaded them.
  datatype Pc = Idle | Reap(now: nat) | Claim(now: nat) | Load | Attempt(attempts: nat)
              | RecordSuccess(attempts: nat) | ReadProfile(attempts: nat) | RecordFailure(attempts: nat, profile: Profile)

  // What the outside decides about a step: the endpoint's state, how far the
  // attempt got, and how long a second clock reading comes after the first.
  datatype Choice = Choice(live: bool, posted: bool, accepted: bool, lag: nat)

  function Step(r: Row, pc: Pc, clock: nat, setting: Option<string>, c: Choice): (Row, Pc) {
    match pc
    case Idle => (r, Idle)
    case Reap(now) => (ReapRow(r, now, clock), Claim(now))
    case Claim(now) => (ClaimRow(r, now, c.live), if IsClaimable(r, now, c.live) then Load else Idle)
    case Load => (r, Attempt(r.attempts))
    case Attempt(n) => (r, if c.posted && c.accepted then RecordSuccess(n) else ReadProfile(n))
    case RecordSuccess(n) => (SuccessRow(r, n, clock), Idle)
    case ReadProfile(n) => (r, RecordFailure(n, ProfileOf(setting)))
    case RecordFailure(n, p) => (FailureRow(r, n, p, clock, c.lag), Idle)
  }

  // ---- a tick left to itself ----

  // The clock readings and the outside's choices of one tick.
  datatype Visit = Visit(now: nat, reapedAt: nat, recordedAt: nat, setting: Option<string>, choice: Choice)

  function ClockAt(v: Visit, pc: Pc): nat {
    if pc.Reap? then v.reapedAt else v.recordedAt
  }

  function StepsLeft(pc: Pc): nat {
    match pc
    case Idle => 0 case RecordSuccess(_) => 1 case RecordFailure(_, _) => 1 case ReadProfile(_) => 2
    case Attempt(_) => 3 case Load => 4 case Claim(_) => 5 case Reap(_) => 6
  }

  function RunAlone(r: Row, pc: Pc, v: Visit): Row
    decreases StepsLeft(pc)
  {
    if pc == Idle then r
    else
      var (next, q) := Step(r, pc, ClockAt(v, pc), v.setting, v.choice);
      RunAlone(next, q, v)
  }

  class Delivery {
    var status: Status
    var attempts: nat
    var nextAt: Option<nat>
    var lastAt: Option<nat>
    var updatedAt: nat

    constructor (createdAt: nat)
      ensures Now() == Row(Pending, 0, None, None, createdAt)
    {
      status, attempts, nextAt, lastAt, updatedAt := Pending, 0, None, None, createdAt;
    }

    function Now(): Row
      reads this
    {
      Row(status, attempts, nextAt, lastAt, updatedAt)
    }

    method ReapIfStuck(now: nat, clock: nat)
      modifies this`status, this`updatedAt
      ensures Now() == ReapRow(old(Now()), now, clock)
    {
      if status == Delivering && (lastAt.None? || lastAt.value + STUCK_MS < clock) && updatedAt + STUCK_MS < clock {
        status, updatedAt := Pending, now;
      }
    }

    method ClaimIfDue(now: nat, live: bool) returns (claimed: bool)
      modifies this`status, this`updatedAt
      ensures Now() == ClaimRow(old(Now()), now, live) && claimed == IsClaimable(old(Now()), now, live)
    {
      claimed := status == Pending && (nextAt.None? || nextAt.value <= now) && live;
      if claimed {
        status, updatedAt := Delivering, now;
      }
    }

    method MarkSucceeded(loaded: nat, clock: nat)
      modifies this
      ensures Now() == SuccessRow(old(Now()), loaded, clock)
    {
      status, attempts, nextAt := Succeeded, loaded + 1, None;
      lastAt, updatedAt := Some(clock), clock;
    }

    method MarkFailed(loaded: nat, profile: Profile, clock: nat, lag: nat)
      modifies this
      ensures Now() == FailureRow(old(Now()), loaded, profile, clock, lag)
    {
      var attempt := loaded + 1;
      if attempt >= profile.maxAttempts {
        status, nextAt := Failed, None;
      } else {
        status, nextAt := Pending, Some(clock + lag + DelayMs(profile, attempt));
      }
      attempts, lastAt, updatedAt := attempt, Some(clock), clock;
    }

    method AttemptDelivery(v: Visit)
      modifies this
      ensures Now() == RunAlone(old(Now()), Load, v)
    {
      ghost var goal := RunAlone(Now(), Load, v);
      var loaded := attempts;
      assert RunAlone(Now(), Attempt(loaded), v) == goal;
      if v.choice.posted && v.choice.accepted {
        assert RunAlone(Now(), RecordSuccess(loaded), v) == goal;
        MarkSucceeded(loaded, v.recordedAt);
        assert RunAlone(Now(), Idle, v) == goal;
      } else {
        assert RunAlone(Now(), ReadProfile(loaded), v) == goal;
        var profile := ProfileOf(v.setting);
        assert RunAlone(Now(), RecordFailure(loaded, profile), v) == goal;
        MarkFailed(loaded, profile, v.recordedAt, v.choice.lag);
        assert RunAlone(Now(), Idle, v) == goal;
      }
    }

    // `run_tick` as far as this delivery is concerned.
    method RunTick(v: Visit) returns (claimed: bool)
      modifies this
      ensures Now() == RunAlone(old(Now()), Reap(v.now), v)
    {
      ghost var goal := RunAlone(Now(), Reap(v.now), v);
      ReapIfStuck(v.now, v.reapedAt);
      assert RunAlone(Now(), Claim(v.now), v) == goal;
      claimed := ClaimIfDue(v.now, v.choice.live);
      if claimed {
        assert RunAlone(Now(), Load, v) == goal;
        AttemptDelivery(v);
      } else {
        assert RunAlone(Now(), Idle, v) == goal;
      }
    }
  }

  // ---- runs ----

  // `recordedAt` and `delays` are the recorded attempts and the backoffs scheduled
  // so far; `posts` counts the requests really sent.
  datatype State = State(row: Row, pc: Pc, clock: nat, setting: Option<string>, posts: nat, crashes: nat,
                         recordedAt: seq<nat>, delays: seq<nat>)

  datatype Event = TickStarts | Runs(choice: Choice) | Crashes | TimePasses(ms: nat) | ProfileChanges(setting: Option<string>)

  function Remember(s: State, t: State, c: Choice): State {
    match s.pc
    case Attempt(_) => if c.posted then t.(posts := s.posts + 1) else t
    case RecordSuccess(_) => t.(recordedAt := s.recordedAt + [s.clock])
    case RecordFailure(n, p) =>
      t.(recordedAt := s.recordedAt + [s.clock],
         delays := s.delays + if t.row.status == Pending then [DelayMs(p, n + 1)] else [])
    case _ => t
  }

  function Apply(s: State, e: Event): State {
    match e
    case TickStarts => if s.pc == Idle then s.(pc := Reap(s.clock)) else s
    case Runs(c) =>
      var (row, pc) := Step(s.row, s.pc, s.clock, s.setting, c);
      Remember(s, s.(row := row, pc := pc), c)
    case Crashes => s.(pc := Idle, crashes := s.crashes + 1)
    case TimePasses(ms) => s.(clock := s.clock + ms)
    case ProfileChanges(setting) => s.(setting := setting)
  }

  function Run(s: State, events: seq<Event>): State
    decreases |events|
  {
    if events == [] then s else Run(Apply(s, events[0]), events[1..])
  }

  predicate Initial(s: State) {
    s == State(Row(Pending, 0, None, None, s.row.updatedAt), Idle, s.clock, s.setting, 0, 0, [], []) && s.row.updatedAt <= s.clock
  }

  predicate HoldsRow(pc: Pc) {
    pc == Load || pc.Attempt? || pc.RecordSuccess? || pc.ReadProfile? || pc.RecordFailure?
  }

  predicate HasLoaded(pc: Pc) {
    pc.Attempt? || pc.RecordSuccess? || pc.ReadProfile? || pc.RecordFailure?
  }

  predicate IsProfile(p: Profile) {
    p == RetryProfile("conservative") || p == RetryProfile("balanced") || p == RetryProfile("aggressive")
  }

  // The worker's copy is current, and only it holds the row.
  predicate WorkerKnows(s: State) {
    && (HoldsRow(s.pc) ==> s.row.status == Delivering)
    && (HasLoaded(s.pc) ==> s.pc.attempts == s.row.attempts)
    && (s.pc.RecordFailure? ==> IsProfile(s.pc.profile))
    && (s.pc.Reap? || s.pc.Claim? ==> s.pc.now <= s.clock && (s.row.lastAt.Some? ==> s.row.lastAt.value <= s.pc.now))
    && (s.row.lastAt.Some? ==> s.row.lastAt.value <= s.row.updatedAt && s.row.lastAt.value <= s.clock)
  }

  // A recorded attempt comes after the backoff of the one before it.
  predicate Spaced(recordedAt: seq<nat>, delays: seq<nat>) {
    forall k :: 0 <= k < |recordedAt| - 1 && k < |delays| ==> recordedAt[k] + delays[k] <= recordedAt[k + 1]
  }

  predicate HistoryKept(s: State) {
    && |s.recordedAt| == s.row.attempts
    && (!Final(s.row.status) ==> s.row.attempts < 7 && |s.delays| == s.row.attempts)
    && (Final(s.row.status) ==> 1 <= s.row.attempts <= 7 && |s.delays| == s.row.attempts - 1)
    && Spaced(s.recordedAt, s.delays)
    && (s.row.status == Pending && s.row.attempts > 0 ==>
          s.row.nextAt.Some? && s.recordedAt[s.row.attempts - 1] + s.delays[s.row.attempts - 1] <= s.row.nextAt.value)
    && (s.row.status == Delivering && s.row.attempts > 0 ==>
          s.recordedAt[s.row.attempts - 1] + s.delays[s.row.attempts - 1] <= s.clock
          && s.row.nextAt.Some? && s.recordedAt[s.row.attempts - 1] + s.delays[s.row.attempts - 1] <= s.row.nextAt.value)
  }

  predicate PostsCounted(s: State) {
    s.posts <= s.row.attempts + s.crashes + if s.pc.RecordSuccess? || s.pc.ReadProfile? || s.pc.RecordFailure? then 1 else 0
  }

  predicate Inv(s: State) {
    WorkerKnows(s) && HistoryKept(s) && PostsCounted(s)
  }

  lemma SuccessKeepsInv(s: State, c: Choice)
    requires Inv(s) && s.pc.RecordSuccess?
    ensures Inv(Apply(s, Runs(c)))
  {
  }

  lemma FailureKeepsInv(s: State, c: Choice)
    requires Inv(s) && s.pc.RecordFailure?
    ensures Inv(Apply(s, Runs(c)))
  {
  }

  lemma SendingKeepsInv(s: State, c: Choice)
    requires Inv(s) && (s.pc.Load? || s.pc.Attempt? || s.pc.ReadProfile?)
    ensures Inv(Apply(s, Runs(c)))
  {
  }

  lemma ScanKeepsInv(s: State, c: Choice)
    requires Inv(s) && (s.pc.Idle? || s.pc.Reap? || s.pc.Claim?)
    ensures Inv(Apply(s, Runs(c)))
  {
  }

  lemma ApplyKeepsInv(s: State, e: Event)
    requires Inv(s)
    ensures Inv(Apply(s, e))
  {
    if e.Runs? && s.pc.RecordSuccess? {
      SuccessKeepsInv(s, e.choice);
    } else if e.Runs? && s.pc.RecordFailure? {
      FailureKeepsInv(s, e.choice);
    } else if e.Runs? && HoldsRow(s.pc) {
      SendingKeepsInv(s, e.choice);
    } else if e.Runs? {
      ScanKeepsInv(s, e.choice);
    }
  }

  lemma {:induction false} RunKeepsInv(s: State, events: seq<Event>)
    requires Inv(s)
    ensures Inv(Run(s, events))
    decreases |events|
  {
    if events != [] {
      ApplyKeepsInv(s, events[0]);
      RunKeepsInv(Apply(s, events[0]), events[1..]);
    }
  }

  // ---- the results ----

  // Whatever the profile changes and crashes: at most 7 attempts are ever recorded,
  // each no earlier than the previous one plus its backoff, and only crashes can
  // make the endpoint see more requests than that.
  lemma AttemptsAreBounded(s: State, events: seq<Event>, k: nat)
    requires Initial(s)
    ensures var t := Run(s, events);
      && t.row.attempts == |t.recordedAt| <= 7
      && t.posts <= t.row.attempts + t.crashes + 1
      && (k + 1 < |t.recordedAt| && k < |t.delays| ==> t.recordedAt[k] + t.delays[k] <= t.recordedAt[k + 1])
  {
    RunKeepsInv(s, events);
  }

  // `succeeded` and `failed` are never left, and nothing is recorded after them.
  lemma {:induction false} OutcomeIsFinal(s: State, events: seq<Event>)
    requires Inv(s) && Final(s.row.status)
    ensures Run(s, events).row == s.row && Run(s, events).recordedAt == s.recordedAt && Run(s, events).posts == s.posts
    decreases |events|
  {
    if events != [] {
      ApplyKeepsInv(s, events[0]);
      OutcomeIsFinal(Apply(s, events[0]), events[1..]);
    }
  }

  // ---- a fixed profile ----

  function Total(delays: seq<nat>): nat {
    if delays == [] then 0 else Total(delays[..|delays| - 1]) + delays[|delays| - 1]
  }

  predicate ChangesProfile(events: seq<Event>) {
    exists k :: 0 <= k < |events| && events[k].ProfileChanges?
  }

  predicate FollowsProfile(s: State, p: Profile) {
    && ProfileOf(s.setting) == p
    && (s.pc.RecordFailure? ==> s.pc.profile == p)
    && (forall k :: 0 <= k < |s.delays| ==> s.delays[k] == 1000 * (p.baseDelaySecs * Shift(k)))
    && (!Final(s.row.status) ==> s.row.attempts < p.maxAttempts)
    && (s.row.status == Failed ==> s.row.attempts == p.maxAttempts)
  }

  lemma ApplyFollowsProfile(s: State, e: Event, p: Profile)
    requires Inv(s) && FollowsProfile(s, p) && !e.ProfileChanges?
    ensures FollowsProfile(Apply(s, e), p)
  {
  }

  lemma {:induction false} RunFollowsProfile(s: State, events: seq<Event>, p: Profile)
    requires Inv(s) && FollowsProfile(s, p) && !ChangesProfile(events)
    ensures FollowsProfile(Run(s, events), p)
    decreases |events|
  {
    if events != [] {
      ApplyKeepsInv(s, events[0]);
      assert !events[0].ProfileChanges?;
      ApplyFollowsProfile(s, events[0], p);
      forall k | 0 <= k < |events[1..]| ensures !events[1..][k].ProfileChanges? {
        assert events[1..][k] == events[k + 1];
      }
      RunFollowsProfile(Apply(s, events[0]), events[1..], p);
    }
  }

  lemma {:induction false} GeometricTotal(delays: seq<nat>, base: nat)
    requires forall k :: 0 <= k < |delays| ==> delays[k] == 1000 * (base * Shift(k))
    ensures Total(delays) == 1000 * (base * (Shift(|delays|) - 1))
    decreases |delays|
  {
    if delays != [] {
      var n := |delays| - 1;
      GeometricTotal(delays[..n], base);
      DoubledTerm(base, Shift(n));
    }
  }

  lemma DoubledTerm(base: nat, power: nat)
    requires power >= 1
    ensures 1000 * (base * (power - 1)) + 1000 * (base * power) == 1000 * (base * (2 * power - 1))
  {
  }

  lemma {:induction false} SpanCoversTotal(recordedAt: seq<nat>, delays: seq<nat>)
    requires |recordedAt| == |delays| + 1 && Spaced(recordedAt, delays)
    ensures recordedAt[0] + Total(delays) <= recordedAt[|delays|]
    decreases |delays|
  {
    if delays != [] {
      var n := |delays| - 1;
      SpanCoversTotal(recordedAt[..n + 1], delays[..n]);
      assert recordedAt[n] + delays[n] <= recordedAt[n + 1];
    }
  }

  // Under one profile a delivery that never succeeds fails at exactly its maximum of
  // attempts, after backoffs that add up to base * (2^(max-1) - 1), and that much time
  // really passes between its first and its last attempt.
  lemma FailsAfterWholeBackoff(s: State, events: seq<Event>)
    requires Initial(s) && !ChangesProfile(events)
    ensures var t, p := Run(s, events), ProfileOf(s.setting);
      t.row.status == Failed ==>
        && t.row.attempts == |t.recordedAt| == p.maxAttempts && p.maxAttempts > 0
        && Total(t.delays) == 1000 * (p.baseDelaySecs * (Shift(p.maxAttempts - 1) - 1))
        && t.recordedAt[0] + Total(t.delays) <= t.recordedAt[p.maxAttempts - 1]
  {
    RunKeepsInv(s, events);
    RunFollowsProfile(s, events, ProfileOf(s.setting));
    if Run(s, events).row.status == Failed {
      FailedHistory(Run(s, events), ProfileOf(s.setting));
    }
  }

  lemma FailedHistory(t: State, p: Profile)
    requires HistoryKept(t) && FollowsProfile(t, p) && t.row.status == Failed
    ensures t.row.attempts == |t.recordedAt| == p.maxAttempts && p.maxAttempts > 0
    ensures Total(t.delays) == 1000 * (p.baseDelaySecs * (Shift(p.maxAttempts - 1) - 1))
    ensures t.recordedAt[0] + Total(t.delays) <= t.recordedAt[p.maxAttempts - 1]
  {
    GeometricTotal(t.delays, p.baseDelaySecs);
    SpanCoversTotal(t.recordedAt, t.delays);
  }

  // The backoffs of the three profiles, in milliseconds: 90 seconds over 3 attempts, 15
  // minutes over 5, 15 minutes 45 seconds over 7. Any other name means the second.
  lemma ProfileBackoffs(s: State, events: seq<Event>)
    requires Initial(s) && !ChangesProfile(events) && Run(s, events).row.status == Failed
    ensures var t := Run(s, events);
      && (s.setting == Some("conservative") ==> t.row.attempts == 3 && Total(t.delays) == 90_000)
      && (s.setting == Some("aggressive") ==> t.row.attempts == 7 && Total(t.delays) == 945_000)
      && (s.setting !in {Some("conservative"), Some("aggressive")} ==> t.row.attempts == 5 && Total(t.delays) == 900_000)
  {
    FailsAfterWholeBackoff(s, events);
    assert Shift(2) == 4 && Shift(4) == 16;
    assert Shift(6) == 4 * Shift(4);
  }

  // ---- what counts as delivered ----

  // The event is the answer to an attempt that was really sent, and it is a success.
  predicate Delivers(s: State, e: Event) {
    e.Runs? && s.pc.Attempt? && e.choice.posted && e.choice.accepted
  }

  ghost predicate EverDelivers(s: State, events: seq<Event>)
    decreases |events|
  {
    events != [] && (Delivers(s, events[0]) || EverDelivers(Apply(s, events[0]), events[1..]))
  }

  predicate IsDelivered(s: State) {
    s.pc.RecordSuccess? || s.row.status == Succeeded
  }

  lemma OnlyDeliveryDelivers(s: State, e: Event)
    requires !IsDelivered(s)
    ensures IsDelivered(Apply(s, e)) <==> Delivers(s, e)
  {
  }

  // Only an accepted answer is ever recorded as a success.
  lemma {:induction false} SuccessWasAccepted(s: State, events: seq<Event>)
    requires !IsDelivered(s) && IsDelivered(Run(s, events))
    ensures EverDelivers(s, events)
    decreases |events|
  {
    if !Delivers(s, events[0]) {
      OnlyDeliveryDelivers(s, events[0]);
      SuccessWasAccepted(Apply(s, events[0]), events[1..]);
    }
  }

  // The row after an attempt: settled by an accepted answer, failed at the profile's
  // last attempt, and otherwise due again after its backoff.
  function Attempted(attempts: nat, v: Visit): Row {
    var p := ProfileOf(v.setting);
    if v.choice.posted && v.choice.accepted then Row(Succeeded, attempts + 1, None, Some(v.recordedAt), v.recordedAt)
    else if attempts + 1 >= p.maxAttempts then Row(Failed, attempts + 1, None, Some(v.recordedAt), v.recordedAt)
    else
      var backoff := 1000 * (p.baseDelaySecs * Shift(if attempts <= 30 then attempts else 30));
      Row(Pending, attempts + 1, Some(v.recordedAt + v.choice.lag + backoff), Some(v.recordedAt), v.recordedAt)
  }

  // A tick left to itself attempts the row exactly when it is pending, or stuck, and due
  // at an endpoint that is live; otherwise it changes nothing but a stuck row's claim.
  lemma TickAttemptsExactly(r: Row, v: Visit)
    ensures var after := RunAlone(r, Reap(v.now), v);
      var stuck := r.status == Delivering && r.updatedAt + 300_000 < v.reapedAt && (r.lastAt.Some? ==> r.lastAt.value + 300_000 < v.reapedAt);
      var attempted := (r.status == Pending || stuck) && (r.nextAt.Some? ==> r.nextAt.value <= v.now) && v.choice.live;
      && (attempted ==> after == Attempted(r.attempts, v))
      && (!attempted && !stuck ==> after == r)
      && (!attempted && stuck ==> after == r.(status := Pending, updatedAt := v.now))
  {
    var r1 := ReapRow(r, v.now, v.reapedAt);
    assert RunAlone(r, Reap(v.now), v) == RunAlone(r1, Claim(v.now), v);
    if IsClaimable(r1, v.now, v.choice.live) {
      var r2 := ClaimRow(r1, v.now, v.choice.live);
      assert RunAlone(r1, Claim(v.now), v) == RunAlone(r2, Load, v) == RunAlone(r2, Attempt(r.attempts), v);
      AttemptAlone(r2, v);
    } else {
      assert RunAlone(r1, Claim(v.now), v) == RunAlone(r1, Idle, v);
    }
  }

  lemma AttemptAlone(r: Row, v: Visit)
    ensures RunAlone(r, Attempt(r.attempts), v) == Attempted(r.attempts, v)
  {
    var n, p := r.attempts, ProfileOf(v.setting);
    if v.choice.posted && v.choice.accepted {
      assert RunAlone(r, Attempt(n), v) == RunAlone(r, RecordSuccess(n), v) == RunAlone(SuccessRow(r, n, v.recordedAt), Idle, v);
    } else {
      assert RunAlone(r, Attempt(n), v) == RunAlone(r, ReadProfile(n), v) == RunAlone(r, RecordFailure(n, p), v);
      assert RunAlone(r, RecordFailure(n, p), v) == RunAlone(FailureRow(r, n, p, v.recordedAt, v.choice.lag), Idle, v);
    }
  }

  // A delivery whose worker died is taken up again by the first tick more than five
  // minutes after the claim, and by none before.
  lemma CrashedDeliveryIsReaped(s: State, c: Choice)
    requires Inv(s) && s.row.status == Delivering && s.pc.Reap?
    ensures Apply(s, Runs(c)).row.status == (if s.clock > s.row.updatedAt + 300_000 then Pending else Delivering)
    ensures Apply(s, Runs(c)).row.attempts == s.row.attempts
  {
  }
}
