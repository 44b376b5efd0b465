// What billing keeps in every run: the scheduler's statements, its crashes, and
// pause, resume and cancel requests and payments in between, in any order.
module BillingRuns {
  import opened Wrappers
  import opened Calendar
  import opened Billing

  // ---- interleavings ----

  // A status request on its way. A resume that found no billing date reads the clock
  // between its load and its write, and writes that date whatever happens meanwhile.
  datatype Request = PauseWrite | ResumeLoaded(dateless: bool) | ResumeWrite(date: Option<Instant>) | CancelWrite | Answered

  // `anchors` are the dates resumes have restarted billing from; `backdated` says
  // whether one of them lay before a period already there or under way when it was
  // written; `lostDate` says whether a pause or resume has written over a cancelled
  // subscription that had no billing date.
  datatype State = State(db: Db, pc: Pc, requests: seq<Request>, anchors: seq<Instant>, backdated: bool, lostDate: bool)

  datatype Event = BillerVisits(now: Instant) | OrphanVisited(cycle: nat) | RetryRequested(cycle: nat)
                 | Runs(fails: bool) | Crashes
                 | PauseLoads | ResumeLoads | CancelLoads | RequestReads(k: nat, now: Instant) | RequestWrites(k: nat)
                 | CycleTurns(cycle: nat, status: CycleStatus) | InvoicePaid(invoice: nat)

  predicate Sane(s: State) {
    InRange(s.pc, |s.db.cycles|)
  }

  // A cancelled subscription without a billing date.
  predicate Dateless(db: Db) {
    db.status == Stopped && db.next.None?
  }

  // Before the last period, or before the one a call has begun to bill.
  predicate Backdates(db: Db, pc: Pc, date: Instant) {
    || (db.cycles != [] && Before(date, db.cycles[|db.cycles| - 1].start))
    || ((pc.SelectCycle? || pc.AddCycle? || pc.Advance?) && Before(date, pc.start))
  }

  // None of the writes looks at the row again.
  function AnswerRequest(s: State, k: nat): State
    requires k < |s.requests|
  {
    var db, t := s.db, s.(requests := s.requests[k := Answered]);
    match s.requests[k]
    case PauseWrite => t.(db := db.(status := Paused), lostDate := s.lostDate || Dateless(db))
    case ResumeWrite(None) => t.(db := db.(status := Active), lostDate := s.lostDate || Dateless(db))
    case ResumeWrite(Some(date)) =>
      t.(db := db.(status := Active, next := Some(date)), anchors := s.anchors + [date],
         backdated := s.backdated || Backdates(db, s.pc, date))
    case CancelWrite => t.(db := db.(status := Stopped, next := None))
    case _ => s
  }

  function ReadClock(r: Request, now: Instant): Request {
    match r
    case ResumeLoaded(dateless) => ResumeWrite(if dateless then Some(now) else None)
    case _ => r
  }

  function TurnCycle(db: Db, c: nat, status: CycleStatus): Db
    requires c < |db.cycles|
  {
    db.(cycles := db.cycles[c := db.cycles[c].(status := status)])
  }

  function AddRequest(s: State, r: Request): State {
    s.(requests := s.requests + [r])
  }

  // An event that cannot happen in the current state changes nothing. Billing calls
  // come one at a time; the orphan pass and a retry go by what an earlier query
  // returned, and the other handlers leave a paid cycle alone.
  function Apply(s: State, e: Event, i: PlanInterval): (t: State)
    requires Sane(s)
    ensures Sane(t)
  {
    var db := s.db;
    match e
    case BillerVisits(now) => if s.pc.Ended? then s.(pc := LoadSub(now)) else s
    case OrphanVisited(c) => if s.pc.Ended? && c < |db.cycles| then s.(pc := LoadCycle(c, false)) else s
    case RetryRequested(c) => if s.pc.Ended? && c < |db.cycles| then s.(pc := LoadCycle(c, true)) else s
    case Runs(fails) => var (next, pc) := Step(db, s.pc, i, fails); s.(db := next, pc := pc)
    case Crashes => s.(pc := Ended(Failed))
    case PauseLoads => if db.status != Stopped then AddRequest(s, PauseWrite) else s
    case ResumeLoads => if db.status == Paused then AddRequest(s, ResumeLoaded(db.next.None?)) else s
    case CancelLoads => if db.status != Stopped then AddRequest(s, CancelWrite) else s
    case RequestReads(k, now) =>
      if k < |s.requests| then s.(requests := s.requests[k := ReadClock(s.requests[k], now)]) else s
    case RequestWrites(k) => if k < |s.requests| then AnswerRequest(s, k) else s
    case CycleTurns(c, status) =>
      if c < |db.cycles| && db.cycles[c].status != Paid then s.(db := TurnCycle(db, c, status)) else s
    case InvoicePaid(p) =>
      if p < |db.invoices| && db.invoices[p].cycle < |db.cycles| then s.(db := TurnCycle(db, db.invoices[p].cycle, Paid)) else s
  }

  function Run(s: State, events: seq<Event>, i: PlanInterval): (t: State)
    requires Sane(s)
    ensures Sane(t)
    decreases |events|
  {
    if events == [] then s else Run(Apply(s, events[0], i), events[1..], i)
  }

  // A subscription just created, first billed at `start`.
  predicate Initial(s: State, start: Instant) {
    s == State(Db(Active, Some(start), [], []), Ended(NothingDue), [], [], false, false)
  }

  // ---- periods tile ----

  predicate Tiled(cycles: seq<Cycle>, start: Instant, i: PlanInterval) {
    forall k :: 0 <= k < |cycles| ==> cycles[k].start == Iterate(start, i, k) && cycles[k].end == Iterate(start, i, k + 1)
  }

  // Where the next billing date may stand beside `n` periods: at the next one, or
  // still at the last one when the scheduler stopped before its advance.
  predicate OnTile(t: Instant, n: nat, start: Instant, i: PlanInterval) {
    t == Iterate(start, i, n) || (n > 0 && t == Iterate(start, i, n - 1))
  }

  // What the running call knows of the period it bills.
  predicate CallOnTile(pc: Pc, n: nat, start: Instant, i: PlanInterval) {
    match pc
    case SelectCycle(t) => OnTile(t, n, start, i)
    case AddCycle(t) => t == Iterate(start, i, n)
    case Advance(t, c) => n > 0 && c == n - 1 && t == Iterate(start, i, n - 1)
    case _ => true
  }

  predicate Tiling(db: Db, pc: Pc, start: Instant, i: PlanInterval) {
    && Tiled(db.cycles, start, i)
    && (db.next.Some? ==> OnTile(db.next.value, |db.cycles|, start, i))
    && CallOnTile(pc, |db.cycles|, start, i)
    && (db.next.Some? && (pc.SelectCycle? || pc.AddCycle? || pc.Advance?) ==> db.next.value == pc.start)
  }

  lemma FindOnTile(cycles: seq<Cycle>, start: Instant, i: PlanInterval, t: Instant)
    requires Tiled(cycles, start, i) && OnTile(t, |cycles|, start, i)
    ensures t == Iterate(start, i, |cycles|) <==> FindCycle(cycles, t).None?
    ensures FindCycle(cycles, t).Some? ==> FindCycle(cycles, t) == Some(|cycles| - 1)
  {
    var n := |cycles|;
    forall k | 0 <= k < n ensures Iterate(start, i, k) != Iterate(start, i, n) {
      IteratesIncrease(start, i, k, n);
    }
    forall k | 0 <= k < n - 1 ensures Iterate(start, i, k) != Iterate(start, i, n - 1) {
      IteratesIncrease(start, i, k, n - 1);
    }
  }

  lemma AddCycleKeepsTiling(db: Db, t: Instant, start: Instant, i: PlanInterval, fails: bool)
    requires Tiling(db, AddCycle(t), start, i)
    ensures var (next, q) := Step(db, AddCycle(t), i, fails); Tiling(next, q, start, i)
  {
    FindOnTile(db.cycles, start, i, t);
  }

  lemma SelectKeepsTiling(db: Db, t: Instant, start: Instant, i: PlanInterval, fails: bool)
    requires Tiling(db, SelectCycle(t), start, i)
    ensures var (next, q) := Step(db, SelectCycle(t), i, fails); Tiling(next, q, start, i)
  {
    FindOnTile(db.cycles, start, i, t);
  }

  lemma AdvanceKeepsTiling(db: Db, t: Instant, c: nat, start: Instant, i: PlanInterval, fails: bool)
    requires Tiling(db, Advance(t, c), start, i)
    ensures var (next, q) := Step(db, Advance(t, c), i, fails); Tiling(next, q, start, i)
  {
    assert PeriodEnd(t, i) == Iterate(start, i, |db.cycles|);
  }

  lemma LoadKeepsTiling(db: Db, now: Instant, start: Instant, i: PlanInterval, fails: bool)
    requires Tiling(db, LoadSub(now), start, i)
    ensures var (next, q) := Step(db, LoadSub(now), i, fails); Tiling(next, q, start, i)
  {
  }

  lemma InvoicingKeepsTiling(db: Db, pc: Pc, start: Instant, i: PlanInterval, fails: bool)
    requires InRange(pc, |db.cycles|) && Tiling(db, pc, start, i)
    requires !pc.LoadSub? && !pc.SelectCycle? && !pc.AddCycle? && !pc.Advance?
    ensures var (next, q) := Step(db, pc, i, fails); Tiling(next, q, start, i)
  {
    var (next, q) := Step(db, pc, i, fails);
    assert next.next == db.next && |next.cycles| == |db.cycles| && CallOnTile(q, |db.cycles|, start, i);
    assert Tiled(next.cycles, start, i);
  }

  lemma StepKeepsTiling(db: Db, pc: Pc, start: Instant, i: PlanInterval, fails: bool)
    requires InRange(pc, |db.cycles|) && Tiling(db, pc, start, i)
    ensures var (next, q) := Step(db, pc, i, fails); Tiling(next, q, start, i)
  {
    match pc
    case LoadSub(now) => LoadKeepsTiling(db, now, start, i, fails);
    case SelectCycle(t) => SelectKeepsTiling(db, t, start, i, fails);
    case AddCycle(t) => AddCycleKeepsTiling(db, t, start, i, fails);
    case Advance(t, c) => AdvanceKeepsTiling(db, t, c, start, i, fails);
    case _ => InvoicingKeepsTiling(db, pc, start, i, fails);
  }

  // Requests only ever move the billing date by dropping it, unless one re-anchors it.
  lemma RequestKeepsTiling(s: State, start: Instant, i: PlanInterval, k: nat)
    requires Tiling(s.db, s.pc, start, i) && k < |s.requests|
    ensures AnswerRequest(s, k).anchors != [] || Tiling(AnswerRequest(s, k).db, s.pc, start, i)
  {
  }

  lemma TurnKeepsTiling(db: Db, pc: Pc, c: nat, status: CycleStatus, start: Instant, i: PlanInterval)
    requires Tiling(db, pc, start, i) && c < |db.cycles|
    ensures Tiling(TurnCycle(db, c, status), pc, start, i)
  {
  }

  lemma ApplyKeepsTiling(s: State, e: Event, start: Instant, i: PlanInterval)
    requires Sane(s) && Tiling(s.db, s.pc, start, i)
    ensures var t := Apply(s, e, i); t.anchors != [] || Tiling(t.db, t.pc, start, i)
  {
    match e
    case Runs(fails) => StepKeepsTiling(s.db, s.pc, start, i, fails);
    case RequestWrites(k) => if k < |s.requests| { RequestKeepsTiling(s, start, i, k); }
    case CycleTurns(c, status) => if c < |s.db.cycles| { TurnKeepsTiling(s.db, s.pc, c, status, start, i); }
    case InvoicePaid(p) =>
      if p < |s.db.invoices| && s.db.invoices[p].cycle < |s.db.cycles| {
        TurnKeepsTiling(s.db, s.pc, s.db.invoices[p].cycle, Paid, start, i);
      }
    case _ =>
  }

  // ---- when billing is re-anchored ----

  // A live subscription has its billing date.
  predicate HasDate(db: Db) {
    db.status != Stopped ==> db.next.Some?
  }

  // As long as no request has lost the billing date, live subscriptions have one and
  // no resume is about to re-anchor.
  predicate Anchored(s: State) {
    s.lostDate || (
      && s.anchors == [] && HasDate(s.db)
      && forall k :: 0 <= k < |s.requests| ==> !Reanchors(s.requests[k]))
  }

  // A resume that will restart billing from a date of its own.
  predicate Reanchors(r: Request) {
    r == ResumeLoaded(true) || (r.ResumeWrite? && r.date.Some?)
  }

  lemma ApplyKeepsAnchor(s: State, e: Event, i: PlanInterval)
    requires Sane(s) && Anchored(s)
    ensures Anchored(Apply(s, e, i))
  {
  }

  lemma {:induction false} RunKeepsTiling(s: State, events: seq<Event>, start: Instant, i: PlanInterval)
    requires Sane(s) && Anchored(s) && (s.anchors != [] || Tiling(s.db, s.pc, start, i))
    ensures var t := Run(s, events, i); Anchored(t) && (t.anchors != [] || Tiling(t.db, t.pc, start, i))
    decreases |events|
  {
    if events != [] {
      ApplyKeepsAnchor(s, events[0], i);
      if s.anchors == [] {
        ApplyKeepsTiling(s, events[0], start, i);
      }
      RunKeepsTiling(Apply(s, events[0], i), events[1..], start, i);
    }
  }

  // Whatever crashes: as long as no resume has re-anchored billing, the periods are
  // the first n iterates of the interval from the start, each ending where the
  // next begins, and the billing date is the n-th iterate or the last period's start.
  lemma PeriodsTile(s: State, events: seq<Event>, start: Instant, i: PlanInterval)
    requires Initial(s, start)
    ensures var t := Run(s, events, i);
      t.anchors == [] ==> Tiled(t.db.cycles, start, i) && (t.db.next.Some? ==> OnTile(t.db.next.value, |t.db.cycles|, start, i))
  {
    RunKeepsTiling(s, events, start, i);
  }

  // Later periods start later, each where the one before it ends.
  lemma PeriodsIncrease(s: State, events: seq<Event>, start: Instant, i: PlanInterval, j: nat, k: nat)
    requires Initial(s, start) && Run(s, events, i).anchors == []
    requires j < k < |Run(s, events, i).db.cycles|
    ensures var cycles := Run(s, events, i).db.cycles;
      Before(cycles[j].start, cycles[k].start) && cycles[k - 1].end == cycles[k].start
  {
    PeriodsTile(s, events, start, i);
    IteratesIncrease(start, i, j, k);
  }

  // As long as no pause or resume has written over a cancelled subscription without a
  // date, billing is never re-anchored and a live subscription has its date, on the
  // tiling.
  lemma LiveSubscriptionIsOnTile(s: State, events: seq<Event>, start: Instant, i: PlanInterval)
    requires Initial(s, start) && !Run(s, events, i).lostDate
    ensures var t := Run(s, events, i);
      && t.anchors == []
      && (t.db.status != Stopped ==> t.db.next.Some? && OnTile(t.db.next.value, |t.db.cycles|, start, i))
  {
    RunKeepsTiling(s, events, start, i);
  }

  // ---- exactly when a live subscription loses its date ----

  // The write of a pause, or of a resume that saw a date, on a cancelled row without one.
  predicate LosesDate(s: State, e: Event) {
    && e.RequestWrites? && e.k < |s.requests|
    && s.requests[e.k] in {PauseWrite, ResumeWrite(None)}
    && Dateless(s.db)
  }

  // No other event of scheduler, requests or payments takes the date away.
  lemma DateIsLostExactly(s: State, e: Event, i: PlanInterval)
    requires Sane(s) && HasDate(s.db)
    ensures !HasDate(Apply(s, e, i).db) <==> LosesDate(s, e)
    ensures Apply(s, e, i).lostDate <==> s.lostDate || LosesDate(s, e)
  {
  }

  // The guard the two UPDATEs lack: where cancelled rows are exactly those without a
  // date, the write keeps the date of a live subscription if and only if the row is
  // not cancelled at the write.
  lemma StatusGuardKeepsDate(s: State, k: nat)
    requires k < |s.requests| && s.requests[k] in {PauseWrite, ResumeWrite(None)}
    requires s.db.next.None? <==> s.db.status == Stopped
    ensures HasDate(AnswerRequest(s, k).db) <==> s.db.status != Stopped
  {
  }

  // At some moment of the run a live subscription has no date.
  predicate EverWithoutDate(s: State, events: seq<Event>, i: PlanInterval)
    requires Sane(s)
    decreases |events|
  {
    !HasDate(s.db) || (events != [] && EverWithoutDate(Apply(s, events[0], i), events[1..], i))
  }

  lemma {:induction false} LostDateStays(s: State, events: seq<Event>, i: PlanInterval)
    requires Sane(s) && s.lostDate
    ensures Run(s, events, i).lostDate
    decreases |events|
  {
    if events != [] {
      LostDateStays(Apply(s, events[0], i), events[1..], i);
    }
  }

  lemma {:induction false} DateTracked(s: State, events: seq<Event>, i: PlanInterval)
    requires Sane(s) && HasDate(s.db) && !s.lostDate
    ensures EverWithoutDate(s, events, i) <==> Run(s, events, i).lostDate
    decreases |events|
  {
    if events != [] {
      var t := Apply(s, events[0], i);
      DateIsLostExactly(s, events[0], i);
      if HasDate(t.db) {
        DateTracked(t, events[1..], i);
      } else {
        LostDateStays(t, events[1..], i);
      }
    }
  }

  // Over a whole run, a live subscription is ever without its date exactly when a
  // pause or resume wrote over a cancelled one that had none.
  lemma DateIsEverLostExactly(s: State, events: seq<Event>, start: Instant, i: PlanInterval)
    requires Initial(s, start)
    ensures EverWithoutDate(s, events, i) <==> Run(s, events, i).lostDate
  {
    DateTracked(s, events, i);
  }

  // A pause that loads before a cancellation and writes after it.
  const LatePause: seq<Event> := [PauseLoads, CancelLoads, RequestWrites(1), RequestWrites(0)]

  // A resume from there.
  function Resume(now: Instant): seq<Event> {
    [ResumeLoads, RequestReads(2, now), RequestWrites(2)]
  }

  lemma LatePauseLosesDate(s: State, start: Instant, i: PlanInterval)
    requires Initial(s, start)
    ensures var t := Run(s, LatePause, i);
      t == s.(db := Db(Paused, None, [], []), requests := [Answered, Answered], lostDate := true)
  {
    var s1 := RunFirst(s, LatePause, i);
    var s2 := RunFirst(s1, LatePause[1..], i);
    var s3 := RunFirst(s2, LatePause[2..], i);
    var s4 := RunFirst(s3, LatePause[3..], i);
  }

  lemma ResumeReanchors(s: State, i: PlanInterval, now: Instant)
    requires Sane(s) && s.db == Db(Paused, None, [], []) && |s.requests| == 2 && s.pc.Ended?
    ensures var t := Run(s, Resume(now), i); t.db == Db(Active, Some(now), [], []) && t.pc == s.pc
  {
    var s1 := RunFirst(s, Resume(now), i);
    var s2 := RunFirst(s1, Resume(now)[1..], i);
    var s3 := RunFirst(s2, Resume(now)[2..], i);
  }

  // It does happen: such a pause lets a resume bill from the present moment, off
  // the tiling.
  lemma LatePauseBreaksTiling(s: State, start: Instant, i: PlanInterval, now: Instant)
    requires Initial(s, start) && now != start
    ensures !Tiled(Run(Run(Run(s, LatePause, i), Resume(now), i), OneBilling(now), i).db.cycles, start, i)
  {
    LatePauseLosesDate(s, start, i);
    ResumeReanchors(Run(s, LatePause, i), i, now);
    var t := Run(Run(s, LatePause, i), Resume(now), i);
    OneBillingIsCall(t, i, now);
    BillsNewPeriod(t.db, i, now);
    assert Run(t, OneBilling(now), i).db.cycles[0].start == now;
  }

  // A visit of the scheduler and more statements than its call can have.
  function OneBilling(now: Instant): seq<Event> {
    [BillerVisits(now)] + Statements(10)
  }

  function Statements(n: nat): seq<Event> {
    seq(n, _ => Runs(false))
  }

  lemma {:induction false} StatementsRunCall(s: State, i: PlanInterval, n: nat)
    requires Sane(s) && StepsLeft(s.pc) <= n
    ensures var (db, outcome) := RunAlone(s.db, s.pc, i, {});
      Run(s, Statements(n), i) == s.(db := db, pc := Ended(outcome))
    decreases n
  {
    if n > 0 {
      assert Statements(n)[1..] == Statements(n - 1);
      var t := RunFirst(s, Statements(n), i);
      if !s.pc.Ended? {
        StepsRunOut(s.db, s.pc, i, false);
        assert RunAlone(s.db, s.pc, i, {}) == RunAlone(t.db, t.pc, i, {});
      }
      StatementsRunCall(t, i, n - 1);
    }
  }

  // With nothing in between, a visit is one undisturbed call.
  lemma OneBillingIsCall(s: State, i: PlanInterval, now: Instant)
    requires Sane(s) && s.pc.Ended?
    ensures var (db, outcome) := RunAlone(s.db, LoadSub(now), i, {});
      Run(s, OneBilling(now), i) == s.(db := db, pc := Ended(outcome))
  {
    var t := RunFirst(s, OneBilling(now), i);
    assert OneBilling(now)[1..] == Statements(10);
    StatementsRunCall(t, i, 10);
  }

  lemma {:induction false} RunConcat(s: State, a: seq<Event>, b: seq<Event>, i: PlanInterval)
    requires Sane(s)
    ensures Run(s, a + b, i) == Run(Run(s, a, i), b, i)
    decreases |a|
  {
    if a == [] {
      assert a + b == b;
    } else {
      assert (a + b)[1..] == a[1..] + b;
      RunConcat(Apply(s, a[0], i), a[1..], b, i);
    }
  }

  lemma RunFirst(s: State, events: seq<Event>, i: PlanInterval) returns (t: State)
    requires Sane(s) && events != []
    ensures t == Apply(s, events[0], i) && Sane(t) && Run(s, events, i) == Run(t, events[1..], i)
  {
    t := Apply(s, events[0], i);
  }

  // ---- invoices and attempts ----

  predicate InvoicesCounted(db: Db) {
    && (forall p, q :: 0 <= p < |db.invoices| && 0 <= q < |db.invoices| && db.invoices[p] == db.invoices[q] ==> p == q)
    && (forall p :: 0 <= p < |db.invoices| ==>
          db.invoices[p].cycle < |db.cycles| && 1 <= db.invoices[p].attempt <= db.cycles[db.invoices[p].cycle].attempts + 1)
    && (forall c, a :: 0 <= c < |db.cycles| && 1 <= a <= db.cycles[c].attempts ==> Invoice(c, a) in db.invoices)
    && (forall c :: 0 <= c < |db.cycles| ==> LinkedTo(db, c))
  }

  // A cycle points at the invoice of its last counted attempt.
  predicate LinkedTo(db: Db, c: nat)
    requires c < |db.cycles|
  {
    match db.cycles[c].invoice
    case None => db.cycles[c].attempts == 0
    case Some(id) => id < |db.invoices| && db.invoices[id] == Invoice(c, db.cycles[c].attempts)
  }

  predicate CallCounts(db: Db, pc: Pc) {
    && InRange(pc, |db.cycles|)
    && (pc.Guard? || pc.AddInvoice? || pc.Mint? || pc.Link? ==> pc.attempt == db.cycles[pc.cycle].attempts + 1)
    && (pc.Mint? || pc.Link? ==> pc.invoice < |db.invoices| && db.invoices[pc.invoice] == Invoice(pc.cycle, pc.attempt))
  }

  lemma AddingKeepsCount(db: Db, c: nat, a: nat)
    requires InvoicesCounted(db) && c < |db.cycles| && a == db.cycles[c].attempts + 1 && Invoice(c, a) !in db.invoices
    ensures InvoicesCounted(db.(invoices := db.invoices + [Invoice(c, a)]))
  {
    var next := db.(invoices := db.invoices + [Invoice(c, a)]);
    forall k | 0 <= k < |db.cycles| ensures LinkedTo(next, k) {
      assert LinkedTo(db, k);
    }
  }

  lemma LinkingKeepsCount(db: Db, c: nat, a: nat, id: nat)
    requires InvoicesCounted(db) && c < |db.cycles| && a == db.cycles[c].attempts + 1
    requires id < |db.invoices| && db.invoices[id] == Invoice(c, a)
    ensures InvoicesCounted(db.(cycles := db.cycles[c := LinkInvoice(db.cycles[c], a, id)]))
  {
    var next := db.(cycles := db.cycles[c := LinkInvoice(db.cycles[c], a, id)]);
    forall k | 0 <= k < |db.cycles| ensures LinkedTo(next, k) {
      assert LinkedTo(db, k);
    }
  }

  // Rows whose attempts and links stay, and new ones without any, count as before.
  lemma SameCounts(db: Db, next: Db)
    requires InvoicesCounted(db) && next.invoices == db.invoices && |db.cycles| <= |next.cycles|
    requires forall k :: 0 <= k < |db.cycles| ==> next.cycles[k].attempts == db.cycles[k].attempts && next.cycles[k].invoice == db.cycles[k].invoice
    requires forall k :: |db.cycles| <= k < |next.cycles| ==> next.cycles[k].attempts == 0 && next.cycles[k].invoice.None?
    ensures InvoicesCounted(next)
  {
    forall k | 0 <= k < |next.cycles| ensures LinkedTo(next, k) {
      assert k < |db.cycles| ==> LinkedTo(db, k);
    }
  }

  // No other statement counts an attempt or adds an invoice.
  lemma OthersKeepCount(db: Db, pc: Pc, i: PlanInterval, fails: bool)
    requires InvoicesCounted(db) && CallCounts(db, pc)
    requires fails || (!pc.Link? && !(pc.AddInvoice? && Invoice(pc.cycle, pc.attempt) !in db.invoices))
    ensures InvoicesCounted(Step(db, pc, i, fails).0)
  {
    SameCounts(db, Step(db, pc, i, fails).0);
  }

  lemma StepKeepsCount(db: Db, pc: Pc, i: PlanInterval, fails: bool)
    requires InvoicesCounted(db) && CallCounts(db, pc)
    ensures var (next, q) := Step(db, pc, i, fails); InvoicesCounted(next) && CallCounts(next, q)
  {
    if pc.AddInvoice? && !fails && Invoice(pc.cycle, pc.attempt) !in db.invoices {
      AddingKeepsCount(db, pc.cycle, pc.attempt);
    } else if pc.Link? && !fails {
      LinkingKeepsCount(db, pc.cycle, pc.attempt, pc.invoice);
    } else {
      OthersKeepCount(db, pc, i, fails);
    }
  }

  predicate CountKept(s: State) {
    InvoicesCounted(s.db) && CallCounts(s.db, s.pc)
  }

  // Requests leave cycles, invoices and the running call alone.
  lemma RequestsLeaveInvoices(s: State, e: Event, i: PlanInterval)
    requires Sane(s)
    requires e.PauseLoads? || e.ResumeLoads? || e.CancelLoads? || e.RequestReads? || e.RequestWrites?
    ensures var t := Apply(s, e, i); t.db.cycles == s.db.cycles && t.db.invoices == s.db.invoices && t.pc == s.pc
  {
  }

  lemma RequestsKeepCount(s: State, e: Event, i: PlanInterval)
    requires Sane(s) && CountKept(s)
    requires e.PauseLoads? || e.ResumeLoads? || e.CancelLoads? || e.RequestReads? || e.RequestWrites?
    ensures CountKept(Apply(s, e, i))
  {
    RequestsLeaveInvoices(s, e, i);
    SameCounts(s.db, Apply(s, e, i).db);
  }

  // Visits and crashes only start or end a call.
  lemma VisitsKeepCount(s: State, e: Event, i: PlanInterval)
    requires Sane(s) && CountKept(s) && (e.BillerVisits? || e.OrphanVisited? || e.RetryRequested? || e.Crashes?)
    ensures CountKept(Apply(s, e, i))
  {
  }

  lemma TurningKeepsCount(s: State, c: nat, status: CycleStatus)
    requires CountKept(s) && c < |s.db.cycles|
    ensures CountKept(s.(db := TurnCycle(s.db, c, status)))
  {
    SameCounts(s.db, TurnCycle(s.db, c, status));
  }

  lemma ApplyKeepsCount(s: State, e: Event, i: PlanInterval)
    requires Sane(s) && CountKept(s)
    ensures CountKept(Apply(s, e, i))
  {
    match e
    case Runs(fails) => StepKeepsCount(s.db, s.pc, i, fails);
    case CycleTurns(c, status) => if c < |s.db.cycles| { TurningKeepsCount(s, c, status); }
    case InvoicePaid(p) => if p < |s.db.invoices| { TurningKeepsCount(s, s.db.invoices[p].cycle, Paid); }
    case BillerVisits(_) => VisitsKeepCount(s, e, i);
    case OrphanVisited(_) => VisitsKeepCount(s, e, i);
    case RetryRequested(_) => VisitsKeepCount(s, e, i);
    case Crashes => VisitsKeepCount(s, e, i);
    case _ => RequestsKeepCount(s, e, i);
  }

  lemma {:induction false} RunKeepsCount(s: State, events: seq<Event>, i: PlanInterval)
    requires Sane(s) && CountKept(s)
    ensures CountKept(Run(s, events, i))
    decreases |events|
  {
    if events != [] {
      ApplyKeepsCount(s, events[0], i);
      RunKeepsCount(Apply(s, events[0], i), events[1..], i);
    }
  }

  // However the scheduler crashes and retries: a cycle with k counted attempts has
  // exactly one invoice for each of the attempts 1 to k, at most one for k + 1, and
  // no other.
  lemma OneInvoicePerAttempt(s: State, events: seq<Event>, start: Instant, i: PlanInterval, c: nat, a: nat)
    requires Initial(s, start)
    ensures var db := Run(s, events, i).db;
      && (forall p, q :: 0 <= p < |db.invoices| && 0 <= q < |db.invoices| && db.invoices[p] == db.invoices[q] ==> p == q)
      && (c < |db.cycles| && 1 <= a <= db.cycles[c].attempts ==> Invoice(c, a) in db.invoices)
      && (Invoice(c, a) in db.invoices ==> c < |db.cycles| && 1 <= a <= db.cycles[c].attempts + 1)
  {
    RunKeepsCount(s, events, i);
  }

  // ---- the half-minted cycle ----

  // The next attempt's invoice exists, but no call is left to count it.
  predicate HalfMinted(db: Db, pc: Pc, c: nat) {
    && c < |db.cycles| && Invoice(c, db.cycles[c].attempts + 1) in db.invoices
    && !((pc.Mint? || pc.Link?) && pc.cycle == c)
  }

  lemma StepStaysHalfMinted(db: Db, pc: Pc, i: PlanInterval, fails: bool, c: nat)
    requires InvoicesCounted(db) && CallCounts(db, pc) && HalfMinted(db, pc, c)
    ensures HalfMinted(Step(db, pc, i, fails).0, Step(db, pc, i, fails).1, c)
    ensures Step(db, pc, i, fails).0.cycles[c] == db.cycles[c]
  {
  }

  lemma ApplyStaysHalfMinted(s: State, e: Event, i: PlanInterval, c: nat)
    requires Sane(s) && CountKept(s) && HalfMinted(s.db, s.pc, c)
    ensures var t := Apply(s, e, i);
      HalfMinted(t.db, t.pc, c) && t.db.cycles[c].attempts == s.db.cycles[c].attempts && t.db.cycles[c].invoice == s.db.cycles[c].invoice
  {
    if e.Runs? {
      StepStaysHalfMinted(s.db, s.pc, i, e.fails, c);
    } else {
      OthersStayHalfMinted(s, e, i, c);
    }
  }

  lemma OthersStayHalfMinted(s: State, e: Event, i: PlanInterval, c: nat)
    requires Sane(s) && HalfMinted(s.db, s.pc, c) && !e.Runs?
    ensures var t := Apply(s, e, i);
      HalfMinted(t.db, t.pc, c) && t.db.cycles[c].attempts == s.db.cycles[c].attempts && t.db.cycles[c].invoice == s.db.cycles[c].invoice
  {
  }

  // Once the next attempt's invoice exists and no call is left to count it, no later
  // pass, retry, request or payment ever counts it or links it to its cycle.
  lemma {:induction false} HalfMintedIsNeverLinked(s: State, events: seq<Event>, i: PlanInterval, c: nat)
    requires Sane(s) && CountKept(s) && HalfMinted(s.db, s.pc, c)
    ensures var t := Run(s, events, i);
      && HalfMinted(t.db, t.pc, c)
      && t.db.cycles[c].attempts == s.db.cycles[c].attempts && t.db.cycles[c].invoice == s.db.cycles[c].invoice
    decreases |events|
  {
    if events != [] {
      ApplyKeepsCount(s, events[0], i);
      ApplyStaysHalfMinted(s, events[0], i, c);
      HalfMintedIsNeverLinked(Apply(s, events[0], i), events[1..], i, c);
    }
  }

  // The running call has checked the cycle and may still link an invoice to it.
  predicate PastChecks(pc: Pc, c: nat) {
    (pc.Guard? || pc.AddInvoice? || pc.Mint? || pc.Link?) && pc.cycle == c
  }

  predicate PaidForGood(s: State, c: nat) {
    c < |s.db.cycles| && s.db.cycles[c].status == Paid && !PastChecks(s.pc, c)
  }

  lemma StepKeepsPaid(db: Db, pc: Pc, i: PlanInterval, fails: bool, c: nat)
    requires InRange(pc, |db.cycles|) && c < |db.cycles| && db.cycles[c].status == Paid && !PastChecks(pc, c)
    ensures var (next, q) := Step(db, pc, i, fails); next.cycles[c] == db.cycles[c] && !PastChecks(q, c)
  {
  }

  lemma ApplyKeepsPaid(s: State, e: Event, i: PlanInterval, c: nat)
    requires Sane(s) && PaidForGood(s, c)
    ensures PaidForGood(Apply(s, e, i), c) && Apply(s, e, i).db.cycles[c] == s.db.cycles[c]
  {
    if e.Runs? {
      StepKeepsPaid(s.db, s.pc, i, e.fails, c);
    }
  }

  // A paid cycle stays exactly as it is, never invoiced again, unless a call was
  // already past its checks when the payment came.
  lemma {:induction false} PaidStaysPaid(s: State, events: seq<Event>, i: PlanInterval, c: nat)
    requires Sane(s) && PaidForGood(s, c)
    ensures PaidForGood(Run(s, events, i), c) && Run(s, events, i).db.cycles[c] == s.db.cycles[c]
    decreases |events|
  {
    if events != [] {
      ApplyKeepsPaid(s, events[0], i, c);
      PaidStaysPaid(Apply(s, events[0], i), events[1..], i, c);
    }
  }

  // A payment of any invoice of a cycle, a stranded one too, reaches the cycle through
  // the invoice's own column; where no call is past its checks at that moment, nothing
  // touches the cycle again.
  lemma PaymentClosesCycle(s: State, p: nat, i: PlanInterval, events: seq<Event>)
    requires Sane(s) && InvoicesCounted(s.db) && p < |s.db.invoices| && !PastChecks(s.pc, s.db.invoices[p].cycle)
    ensures var c, t := s.db.invoices[p].cycle, Run(Apply(s, InvoicePaid(p), i), events, i);
      && c < |s.db.cycles| && c < |t.db.cycles|
      && t.db.cycles[c] == s.db.cycles[c].(status := Paid)
  {
    var c := s.db.invoices[p].cycle;
    assert c < |s.db.cycles|;
    PaidStaysPaid(Apply(s, InvoicePaid(p), i), events, i, c);
  }

  // Whether a call past its checks still gets to its link.
  predicate WillLink(db: Db, pc: Pc) {
    pc.Mint? || pc.Link? || ((pc.Guard? || pc.AddInvoice?) && Invoice(pc.cycle, pc.attempt) !in db.invoices)
  }

  // Such a call, left to itself, turns a cycle paid meanwhile back to invoiced exactly
  // when it gets to its link: that UPDATE does not look at the status.
  lemma {:induction false} PaymentUndoneExactly(db: Db, pc: Pc, c: nat, i: PlanInterval)
    requires InRange(pc, |db.cycles|) && PastChecks(pc, c) && db.cycles[c].status == Paid
    ensures var after := RunAlone(db, pc, i, {}).0;
      c < |after.cycles| && (after.cycles[c].status == Invoiced <==> WillLink(db, pc))
      && (after.cycles[c].status == Paid <==> !WillLink(db, pc))
    decreases StepsLeft(pc)
  {
    var (next, q) := Step(db, pc, i, false);
    StepsRunOut(db, pc, i, false);
    assert RunAlone(db, pc, i, {}) == RunAlone(next, q, i, {});
    if PastChecks(q, c) {
      PaymentUndoneExactly(next, q, c, i);
    } else if q == Snapshot {
      assert RunAlone(next, q, i, {}) == RunAlone(next, Ended(Outcome.Billed), i, {});
    }
  }

  // What a call needs to mint the next attempt of a cycle.
  predicate CanMint(db: Db, c: nat, retry: bool)
    requires c < |db.cycles|
  {
    && db.cycles[c].status != Paid && db.cycles[c].status != Cancelled
    && (if retry then db.cycles[c].status == PastDue else db.cycles[c].invoice.None?)
    && Invoice(c, db.cycles[c].attempts + 1) !in db.invoices
  }

  // The rows with the next attempt of a cycle minted, linked and counted.
  function Minted(db: Db, c: nat): Db
    requires c < |db.cycles|
  {
    var a := db.cycles[c].attempts + 1;
    db.(invoices := db.invoices + [Invoice(c, a)],
        cycles := db.cycles[c := db.cycles[c].(status := Invoiced, invoice := Some(|db.invoices|), attempts := a)])
  }

  // An undisturbed call counts a new attempt exactly when the checks pass and that
  // attempt has no invoice yet; otherwise it leaves every row as it was.
  lemma CallMintsExactly(db: Db, c: nat, retry: bool, i: PlanInterval)
    requires c < |db.cycles|
    ensures RunAlone(db, LoadCycle(c, retry), i, {}).0 == if CanMint(db, c, retry) then Minted(db, c) else db
    ensures RunAlone(db, LoadCycle(c, retry), i, {}).0.cycles[c].attempts == db.cycles[c].attempts + 1 <==> CanMint(db, c, retry)
    ensures RunAlone(db, LoadCycle(c, retry), i, {}).1 == Outcome.Billed <==>
      || CanMint(db, c, retry)
      || (!retry && db.cycles[c].invoice.Some? && db.cycles[c].status != Paid && db.cycles[c].status != Cancelled)
  {
    var e := {};
    match DecideInvoicing(db.cycles[c], retry)
    case Attempt(a) =>
      assert RunAlone(db, LoadCycle(c, retry), i, e) == RunAlone(db, Guard(c, a), i, e);
      if Invoice(c, a) in db.invoices {
        assert RunAlone(db, Guard(c, a), i, e) == RunAlone(db, Ended(Failed), i, e);
      } else {
        MintsFreshInvoice(db, c, i);
      }
    case AlreadyInvoiced => assert RunAlone(db, LoadCycle(c, retry), i, e) == RunAlone(db, Ended(Outcome.Billed), i, e);
    case _ => assert RunAlone(db, LoadCycle(c, retry), i, e) == RunAlone(db, Ended(Failed), i, e);
  }

  // The first billing of a subscription up to its invoice.
  function FirstBilling(now: Instant): seq<Event> {
    [BillerVisits(now), Runs(false), Runs(false), Runs(false), Runs(false), Runs(false), Runs(false), Runs(false)]
  }

  // The rows once the first period has its cycle and the billing date has moved on.
  function FirstPeriod(start: Instant, i: PlanInterval): Db {
    Db(Active, Some(PeriodEnd(start, i)), [Cycle(start, PeriodEnd(start, i), Pending, None, 0)], [])
  }

  lemma AdvanceRuns(s: State, t: Instant, c: nat, i: PlanInterval)
    requires Sane(s) && s.pc == Advance(t, c)
    ensures Apply(s, Runs(false), i).db == s.db.(next := Some(PeriodEnd(t, i)))
    ensures Apply(s, Runs(false), i).pc == LoadCycle(c, false)
  {
  }

  lemma FirstBillingAdvances(s: State, start: Instant, i: PlanInterval, now: Instant)
    requires Initial(s, start) && !Before(now, start)
    ensures var t := Run(s, FirstBilling(now)[..5], i); t.db == FirstPeriod(start, i) && t.pc == LoadCycle(0, false)
  {
    var events := FirstBilling(now)[..5];
    var s1 := RunFirst(s, events, i);
    var s2 := RunFirst(s1, events[1..], i);
    assert s2.db == s.db && s2.pc == SelectCycle(start);
    var s3 := RunFirst(s2, events[2..], i);
    assert s3.db == s.db && s3.pc == AddCycle(start);
    var s4 := RunFirst(s3, events[3..], i);
    assert s4.db == FirstPeriod(start, i).(next := Some(start)) && s4.pc == Advance(start, 0);
    assert events[4..] == [Runs(false)] && events[4..][1..] == [];
    AdvanceRuns(s4, start, 0, i);
    var s5 := RunFirst(s4, events[4..], i);
  }

  lemma FirstBillingInvoices(s: State, start: Instant, i: PlanInterval, now: Instant)
    requires s.db == FirstPeriod(start, i) && s.pc == LoadCycle(0, false)
    ensures var t := Run(s, FirstBilling(now)[5..], i);
      t.db == FirstPeriod(start, i).(invoices := [Invoice(0, 1)]) && t.pc == Mint(0, 1, 0)
  {
    var events := FirstBilling(now)[5..];
    var s6 := RunFirst(s, events, i);
    assert s6.db == s.db && s6.pc == Guard(0, 1);
    var s7 := RunFirst(s6, events[1..], i);
    assert s7.db == s.db && s7.pc == AddInvoice(0, 1);
    var s8 := RunFirst(s7, events[2..], i);
  }

  lemma FirstBillingInserts(s: State, start: Instant, i: PlanInterval, now: Instant)
    requires Initial(s, start) && !Before(now, start)
    ensures var t := Run(s, FirstBilling(now), i);
      t.db == FirstPeriod(start, i).(invoices := [Invoice(0, 1)]) && t.pc == Mint(0, 1, 0)
  {
    var events := FirstBilling(now);
    FirstBillingAdvances(s, start, i, now);
    FirstBillingInvoices(Run(s, events[..5], i), start, i, now);
    RunConcat(s, events[..5], events[5..], i);
    assert events == events[..5] + events[5..];
  }

  // It does happen: a crash, or an error of the minting, right after the invoice of
  // the first due period.
  lemma HalfMintedHappens(s: State, start: Instant, i: PlanInterval, now: Instant, e: Event)
    requires Initial(s, start) && !Before(now, start) && e in {Crashes, Runs(true)}
    ensures var t := Apply(Run(s, FirstBilling(now), i), e, i);
      HalfMinted(t.db, t.pc, 0) && IsOrphan(t.db.cycles[0]) && t.db.status == Active
  {
    FirstBillingInserts(s, start, i, now);
    assert [Invoice(0, 1)][0] == Invoice(0, 1);
  }

  // The first call runs to its end, its invoice expires, and a retry mints a second one.
  const Retrying: seq<Event> := [Runs(false), Runs(false), Runs(false), CycleTurns(0, PastDue)]

  const MintingAgain: seq<Event> := [RetryRequested(0), Runs(false), Runs(false), Runs(false)]

  // The first invoice is paid after all, and the retry goes on to its link.
  const PayingBeforeLink: seq<Event> := [InvoicePaid(0), Runs(false), Runs(false)]

  // The one cycle of the run below, with an invoice and a status.
  function OnlyCycle(start: Instant, i: PlanInterval, status: CycleStatus, invoice: nat): seq<Cycle> {
    [Cycle(start, PeriodEnd(start, i), status, Some(invoice), invoice + 1)]
  }

  lemma FirstInvoiceExpires(s: State, start: Instant, i: PlanInterval)
    requires s.db == FirstPeriod(start, i).(invoices := [Invoice(0, 1)]) && s.pc == Mint(0, 1, 0)
    ensures var t := Run(s, Retrying, i);
      && t.pc.Ended? && t.db.invoices == [Invoice(0, 1)] && t.db.cycles == OnlyCycle(start, i, PastDue, 0)
  {
    var s1 := RunFirst(s, Retrying, i);
    assert s1.db == s.db && s1.pc == Link(0, 1, 0);
    var s2 := RunFirst(s1, Retrying[1..], i);
    assert s2.db.cycles == OnlyCycle(start, i, Invoiced, 0) && s2.pc == Snapshot;
    var s3 := RunFirst(s2, Retrying[2..], i);
    assert s3.db == s2.db && s3.pc.Ended?;
    var s4 := RunFirst(s3, Retrying[3..], i);
    assert Retrying[3..][1..] == [];
  }

  lemma RetryMints(s: State, start: Instant, i: PlanInterval)
    requires s.pc.Ended? && s.db.invoices == [Invoice(0, 1)] && s.db.cycles == OnlyCycle(start, i, PastDue, 0)
    ensures var t := Run(s, MintingAgain, i);
      && t.pc == Mint(0, 2, 1) && t.db.invoices == [Invoice(0, 1), Invoice(0, 2)] && t.db.cycles == s.db.cycles
  {
    var s1 := RunFirst(s, MintingAgain, i);
    var s2 := RunFirst(s1, MintingAgain[1..], i);
    assert s2.db == s.db && s2.pc == Guard(0, 2);
    var s3 := RunFirst(s2, MintingAgain[2..], i);
    assert s3.db == s.db && s3.pc == AddInvoice(0, 2);
    var s4 := RunFirst(s3, MintingAgain[3..], i);
  }

  lemma RetryLinksPaid(s: State, start: Instant, i: PlanInterval)
    requires s.pc == Mint(0, 2, 1) && s.db.invoices == [Invoice(0, 1), Invoice(0, 2)]
    requires s.db.cycles == OnlyCycle(start, i, PastDue, 0)
    ensures Run(s, PayingBeforeLink[..1], i).db.cycles == OnlyCycle(start, i, Paid, 0)
    ensures Run(s, PayingBeforeLink, i).db.cycles == OnlyCycle(start, i, Invoiced, 1)
  {
    var s1 := RunFirst(s, PayingBeforeLink, i);
    assert s1.db.cycles == OnlyCycle(start, i, Paid, 0);
    var s2 := RunFirst(s1, PayingBeforeLink[1..], i);
    var s3 := RunFirst(s2, PayingBeforeLink[2..], i);
    assert Run(s, PayingBeforeLink[..1], i) == s1 by {
      var one := RunFirst(s, PayingBeforeLink[..1], i);
    }
  }

  // The run up to the payment of the first invoice.
  ghost function BeforePayment(s: State, now: Instant, i: PlanInterval): (t: State)
    requires Sane(s)
    ensures Sane(t)
  {
    Run(Run(Run(s, FirstBilling(now), i), Retrying, i), MintingAgain, i)
  }

  // It does happen: a cycle is paid, and a retry under way turns it back to invoiced,
  // with a second invoice to pay.
  lemma PaymentIsUndone(s: State, start: Instant, i: PlanInterval, now: Instant)
    requires Initial(s, start) && !Before(now, start)
    ensures var t := BeforePayment(s, now, i);
      && Run(t, PayingBeforeLink[..1], i).db.cycles == OnlyCycle(start, i, Paid, 0)
      && Run(t, PayingBeforeLink, i).db.cycles == OnlyCycle(start, i, Invoiced, 1)
  {
    FirstBillingInserts(s, start, i, now);
    var billed := Run(s, FirstBilling(now), i);
    FirstInvoiceExpires(billed, start, i);
    var expired := Run(billed, Retrying, i);
    RetryMints(expired, start, i);
    RetryLinksPaid(Run(expired, MintingAgain, i), start, i);
  }

  // ---- catching up ----

  // A live subscription between calls, with nothing half done.
  predicate Settled(db: Db, start: Instant, i: PlanInterval) {
    && Tiled(db.cycles, start, i)
    && db.next == Some(Iterate(start, i, |db.cycles|))
    && InvoicesCounted(db)
  }

  // The rows with a new period from `t`, its first invoice and the next date.
  function BilledAt(db: Db, t: Instant, i: PlanInterval): Db {
    db.(next := Some(PeriodEnd(t, i)),
        cycles := db.cycles + [Cycle(t, PeriodEnd(t, i), Invoiced, Some(|db.invoices|), 1)],
        invoices := db.invoices + [Invoice(|db.cycles|, 1)])
  }

  // The rows once a due date has its cycle and the billing date has moved on.
  function PeriodAdded(db: Db, t: Instant, i: PlanInterval): Db {
    db.(next := Some(PeriodEnd(t, i)), cycles := db.cycles + [Cycle(t, PeriodEnd(t, i), Pending, None, 0)])
  }

  lemma AddsPeriod(db: Db, i: PlanInterval, now: Instant, t: Instant)
    requires IsDue(db, now) && db.next == Some(t) && FindCycle(db.cycles, t).None?
    ensures RunAlone(db, LoadSub(now), i, {}) == RunAlone(PeriodAdded(db, t, i), LoadCycle(|db.cycles|, false), i, {})
  {
    var n, e := |db.cycles|, {};
    var db1 := db.(cycles := db.cycles + [Cycle(t, PeriodEnd(t, i), Pending, None, 0)]);
    assert RunAlone(db, LoadSub(now), i, e) == RunAlone(db, SelectCycle(t), i, e) == RunAlone(db, AddCycle(t), i, e);
    assert RunAlone(db, AddCycle(t), i, e) == RunAlone(db1, Advance(t, n), i, e);
    assert RunAlone(db1, Advance(t, n), i, e) == RunAlone(PeriodAdded(db, t, i), LoadCycle(n, false), i, e);
  }

  lemma MintsAddedPeriod(db: Db, i: PlanInterval, t: Instant)
    requires Invoice(|db.cycles|, 1) !in db.invoices
    ensures RunAlone(PeriodAdded(db, t, i), LoadCycle(|db.cycles|, false), i, {}) == (BilledAt(db, t, i), Outcome.Billed)
  {
    var n, added := |db.cycles|, PeriodAdded(db, t, i);
    CallMintsExactly(added, n, false, i);
    assert Minted(added, n).cycles == BilledAt(db, t, i).cycles;
  }

  // One undisturbed call bills the due date as a new period when none starts there.
  lemma BillsNewPeriod(db: Db, i: PlanInterval, now: Instant)
    requires IsDue(db, now) && FindCycle(db.cycles, db.next.value).None? && Invoice(|db.cycles|, 1) !in db.invoices
    ensures RunAlone(db, LoadSub(now), i, {}) == (BilledAt(db, db.next.value, i), Outcome.Billed)
  {
    AddsPeriod(db, i, now, db.next.value);
    MintsAddedPeriod(db, i, db.next.value);
  }

  function BilledOnce(db: Db, start: Instant, i: PlanInterval): Db {
    BilledAt(db, Iterate(start, i, |db.cycles|), i)
  }

  // One undisturbed call bills exactly the due period.
  lemma BillsOnePeriod(db: Db, start: Instant, i: PlanInterval, now: Instant)
    requires Settled(db, start, i)
    ensures RunAlone(db, LoadSub(now), i, {})
         == if db.status == Active && !Before(now, db.next.value) then (BilledOnce(db, start, i), Outcome.Billed) else (db, NothingDue)
  {
    if IsDue(db, now) {
      FindOnTile(db.cycles, start, i, db.next.value);
      BillsNewPeriod(db, i, now);
    } else {
      assert RunAlone(db, LoadSub(now), i, {}) == RunAlone(db, Ended(NothingDue), i, {});
    }
  }

  lemma BillingSettles(db: Db, start: Instant, i: PlanInterval)
    requires Settled(db, start, i)
    ensures Settled(BilledOnce(db, start, i), start, i)
  {
    var billed, n := BilledOnce(db, start, i), |db.cycles|;
    forall k | 0 <= k < |billed.cycles| ensures LinkedTo(billed, k) {
      assert k < n ==> LinkedTo(db, k);
    }
    NewInvoiceCounts(db, billed);
  }

  lemma NewInvoiceCounts(db: Db, billed: Db)
    requires InvoicesCounted(db) && |billed.cycles| == |db.cycles| + 1 && db.cycles <= billed.cycles
    requires billed.cycles[|db.cycles|].attempts == 1 && billed.invoices == db.invoices + [Invoice(|db.cycles|, 1)]
    requires forall k :: 0 <= k < |billed.cycles| ==> LinkedTo(billed, k)
    ensures InvoicesCounted(billed)
  {
    forall c, a | 0 <= c < |billed.cycles| && 1 <= a <= billed.cycles[c].attempts ensures Invoice(c, a) in billed.invoices {
      if c < |db.cycles| {
        assert Invoice(c, a) in db.invoices;
      } else {
        assert billed.invoices[|db.invoices|] == Invoice(c, a);
      }
    }
  }

  lemma MintsFreshInvoice(db: Db, c: nat, i: PlanInterval)
    requires c < |db.cycles| && Invoice(c, db.cycles[c].attempts + 1) !in db.invoices
    ensures RunAlone(db, Guard(c, db.cycles[c].attempts + 1), i, {}) == (Minted(db, c), Outcome.Billed)
  {
    var id, a, e := |db.invoices|, db.cycles[c].attempts + 1, {};
    var db1 := db.(invoices := db.invoices + [Invoice(c, a)]);
    assert RunAlone(db, Guard(c, a), i, e) == RunAlone(db, AddInvoice(c, a), i, e) == RunAlone(db1, Mint(c, a, id), i, e);
    assert RunAlone(db1, Mint(c, a, id), i, e) == RunAlone(db1, Link(c, a, id), i, e) == RunAlone(Minted(db, c), Snapshot, i, e);
    assert RunAlone(Minted(db, c), Snapshot, i, e) == RunAlone(Minted(db, c), Ended(Outcome.Billed), i, e);
  }

  // How many periods, from the n-th on and up to `limit`, are due at `now`.
  function DuePeriods(start: Instant, i: PlanInterval, n: nat, now: Instant, limit: nat): (k: nat)
    ensures k <= limit
    ensures forall j :: n <= j < n + k ==> !Before(now, Iterate(start, i, j))
    ensures k < limit ==> Before(now, Iterate(start, i, n + k))
    decreases limit
  {
    if limit == 0 || Before(now, Iterate(start, i, n)) then 0 else 1 + DuePeriods(start, i, n + 1, now, limit - 1)
  }

  // `n` calls in which nothing errors out.
  function Flawless(n: nat): seq<set<Stage>> {
    seq(n, _ => {})
  }

  lemma CatchUpOnce(db: Db, start: Instant, i: PlanInterval, now: Instant, limit: nat)
    requires Settled(db, start, i) && limit > 0
    ensures !IsDue(db, now) ==> CatchUp(db, now, i, Flawless(limit)) == (db, 0)
    ensures var (end, acted) := CatchUp(BilledOnce(db, start, i), now, i, Flawless(limit - 1));
      IsDue(db, now) ==> CatchUp(db, now, i, Flawless(limit)) == (end, acted + 1)
  {
    BillsOnePeriod(db, start, i, now);
    assert Flawless(limit)[1..] == Flawless(limit - 1);
  }

  // `end` is `db` with `acted` more periods, each with its first invoice.
  predicate CaughtUp(db: Db, end: Db, acted: nat, start: Instant, i: PlanInterval) {
    && Settled(end, start, i)
    && |end.cycles| == |db.cycles| + acted && db.cycles <= end.cycles && db.invoices <= end.invoices
    && forall c :: |db.cycles| <= c < |end.cycles| ==> end.cycles[c].status == Invoiced && end.cycles[c].attempts == 1
  }

  lemma OneMoreCaughtUp(db: Db, end: Db, acted: nat, start: Instant, i: PlanInterval)
    requires CaughtUp(BilledOnce(db, start, i), end, acted, start, i)
    ensures CaughtUp(db, end, acted + 1, start, i)
  {
    assert BilledOnce(db, start, i).cycles[|db.cycles|] == end.cycles[|db.cycles|];
  }

  // What `limit` undisturbed calls make of `db`.
  predicate CaughtUpBy(db: Db, start: Instant, i: PlanInterval, now: Instant, limit: nat) {
    var (end, acted) := CatchUp(db, now, i, Flawless(limit));
    acted == DuePeriods(start, i, |db.cycles|, now, limit) && CaughtUp(db, end, acted, start, i)
  }

  lemma NothingToCatchUp(db: Db, start: Instant, i: PlanInterval, now: Instant, limit: nat)
    requires Settled(db, start, i) && db.status == Active && (limit == 0 || Before(now, db.next.value))
    ensures CaughtUpBy(db, start, i, now, limit)
  {
    if limit > 0 {
      CatchUpOnce(db, start, i, now, limit);
    }
  }

  lemma OneMorePeriod(db: Db, start: Instant, i: PlanInterval, now: Instant, limit: nat)
    requires Settled(db, start, i) && db.status == Active && limit > 0 && !Before(now, db.next.value)
    requires CaughtUpBy(BilledOnce(db, start, i), start, i, now, limit - 1)
    ensures CaughtUpBy(db, start, i, now, limit)
  {
    var billed := BilledOnce(db, start, i);
    var (end, acted) := CatchUp(billed, now, i, Flawless(limit - 1));
    assert |billed.cycles| == |db.cycles| + 1;
    CatchUpOnce(db, start, i, now, limit);
    OneMoreCaughtUp(db, end, acted, start, i);
  }

  // A subscription that slept through several periods is billed for every one of
  // them, in order, each with its first invoice, and ends with its next date in the
  // future, unless the tick's cap is reached first.
  lemma {:induction false} CatchUpBillsEveryDuePeriod(db: Db, start: Instant, i: PlanInterval, now: Instant, limit: nat)
    requires Settled(db, start, i) && db.status == Active
    ensures CaughtUpBy(db, start, i, now, limit)
    decreases limit
  {
    if limit == 0 || Before(now, db.next.value) {
      NothingToCatchUp(db, start, i, now, limit);
    } else {
      BillingSettles(db, start, i);
      CatchUpBillsEveryDuePeriod(BilledOnce(db, start, i), start, i, now, limit - 1);
      OneMorePeriod(db, start, i, now, limit);
    }
  }

  // A tick in which nothing errors out bills every due period, at most a hundred of
  // them, when no earlier cycle lacks its invoice.
  lemma TickBillsEveryDuePeriod(db: Db, start: Instant, i: PlanInterval, now: Instant)
    requires Settled(db, start, i) && db.status == Active
    requires forall c :: 0 <= c < |db.cycles| ==> !IsOrphan(db.cycles[c])
    ensures var luck := TickLuck(Flawless(100), Flawless(50));
      && IsTickLuck(luck)
      && var (end, acted) := Tick(db, now, i, luck);
      acted == DuePeriods(start, i, |db.cycles|, now, 100) && CaughtUp(db, end, acted, start, i)
  {
    CatchUpBillsEveryDuePeriod(db, start, i, now, 100);
    var (end, acted) := CatchUp(db, now, i, Flawless(100));
    forall c | 0 <= c < |end.cycles| ensures !IsOrphan(end.cycles[c]) {
      assert c < |db.cycles| ==> end.cycles[c] == db.cycles[c];
    }
    NothingOrphaned(end.cycles);
  }

  lemma {:induction false} NothingOrphaned(cycles: seq<Cycle>)
    requires forall c :: 0 <= c < |cycles| ==> !IsOrphan(cycles[c])
    ensures OrphanIds(cycles) == []
  {
    if cycles != [] {
      NothingOrphaned(cycles[..|cycles| - 1]);
    }
  }

  // The last cycle was created, but its invoice never.
  predicate LastUnbilled(db: Db) {
    && InvoicesCounted(db) && db.cycles != []
    && IsOrphan(db.cycles[|db.cycles| - 1]) && Invoice(|db.cycles| - 1, 1) !in db.invoices
  }

  // Where the scheduler stopped after its advance, the orphan pass mints the invoice.
  lemma OrphanPassResumes(db: Db, i: PlanInterval)
    requires LastUnbilled(db)
    ensures RunAlone(db, LoadCycle(|db.cycles| - 1, false), i, {}) == (Minted(db, |db.cycles| - 1), Outcome.Billed)
  {
    var n := |db.cycles| - 1;
    assert LinkedTo(db, n);
    assert RunAlone(db, LoadCycle(n, false), i, {}) == RunAlone(db, Guard(n, 1), i, {});
    MintsFreshInvoice(db, n, i);
  }

  // Where it stopped before its advance, the next call bills the period it had
  // already created, and none twice.
  lemma StoppedBillingResumes(db: Db, start: Instant, i: PlanInterval, now: Instant)
    requires LastUnbilled(db) && Tiled(db.cycles, start, i)
    requires db.next == Some(Iterate(start, i, |db.cycles| - 1)) && db.status == Active && !Before(now, db.next.value)
    ensures RunAlone(db, LoadSub(now), i, {}) == (Minted(db.(next := Some(Iterate(start, i, |db.cycles|))), |db.cycles| - 1), Outcome.Billed)
  {
    var n := |db.cycles| - 1;
    var advanced := AdvancesLast(db, start, i, now);
    OrphanPassResumes(advanced, i);
    assert RunAlone(advanced, LoadCycle(n, false), i, {}) == (Minted(advanced, n), Outcome.Billed);
  }

  lemma AdvancesLast(db: Db, start: Instant, i: PlanInterval, now: Instant) returns (advanced: Db)
    requires LastUnbilled(db) && Tiled(db.cycles, start, i)
    requires db.next == Some(Iterate(start, i, |db.cycles| - 1)) && db.status == Active && !Before(now, db.next.value)
    ensures advanced == db.(next := Some(Iterate(start, i, |db.cycles|))) && LastUnbilled(advanced)
    ensures RunAlone(db, LoadSub(now), i, {}) == RunAlone(advanced, LoadCycle(|db.cycles| - 1, false), i, {})
  {
    var t := Iterate(start, i, |db.cycles| - 1);
    advanced := db.(next := Some(PeriodEnd(t, i)));
    LastPeriodFound(db.cycles, start, i);
    ReachesCycle(db, i, t, |db.cycles| - 1, now);
    AdvanceLeavesUnbilled(db, advanced.next);
  }

  lemma LastPeriodFound(cycles: seq<Cycle>, start: Instant, i: PlanInterval)
    requires Tiled(cycles, start, i) && cycles != []
    ensures FindCycle(cycles, Iterate(start, i, |cycles| - 1)) == Some(|cycles| - 1)
  {
    FindOnTile(cycles, start, i, Iterate(start, i, |cycles| - 1));
    IteratesIncrease(start, i, |cycles| - 1, |cycles|);
  }

  lemma AdvanceLeavesUnbilled(db: Db, next: Option<Instant>)
    requires LastUnbilled(db)
    ensures LastUnbilled(db.(next := next))
  {
    SameCounts(db, db.(next := next));
  }

  // A due call that finds the cycle of its period advances and goes on to invoice it.
  lemma ReachesCycle(db: Db, i: PlanInterval, t: Instant, n: nat, now: Instant)
    requires n < |db.cycles| && FindCycle(db.cycles, t) == Some(n) && db.next == Some(t) && IsDue(db, now)
    ensures RunAlone(db, LoadSub(now), i, {}) == RunAlone(db.(next := Some(PeriodEnd(t, i))), LoadCycle(n, false), i, {})
  {
    assert RunAlone(db, LoadSub(now), i, {}) == RunAlone(db, SelectCycle(t), i, {}) == RunAlone(db, Advance(t, n), i, {});
  }

  lemma MintAlone(db: Db, c: nat, i: PlanInterval) returns (minted: Db)
    requires c < |db.cycles| && IsOrphan(db.cycles[c]) && InvoicesCounted(db)
    ensures minted == RunAlone(db, LoadCycle(c, false), i, {}).0
    ensures InvoicesCounted(minted) && db.invoices <= minted.invoices
    ensures |minted.cycles| == |db.cycles| && forall k :: 0 <= k < |db.cycles| && k != c ==> minted.cycles[k] == db.cycles[k]
    ensures forall k :: k != c ==> (Invoice(k, 1) in minted.invoices <==> Invoice(k, 1) in db.invoices)
    ensures Invoice(c, 1) !in db.invoices ==> minted.cycles[c].status == Invoiced && minted.cycles[c].attempts == 1
  {
    assert LinkedTo(db, c);
    assert RunAlone(db, LoadCycle(c, false), i, {}) == RunAlone(db, Guard(c, 1), i, {});
    if Invoice(c, 1) in db.invoices {
      assert RunAlone(db, Guard(c, 1), i, {}) == RunAlone(db, Ended(Failed), i, {});
      minted := db;
    } else {
      MintsFreshInvoice(db, c, i);
      AddingKeepsCount(db, c, 1);
      LinkingKeepsCount(db.(invoices := db.invoices + [Invoice(c, 1)]), c, 1, |db.invoices|);
      minted := RunAlone(db, LoadCycle(c, false), i, {}).0;
    }
  }

  // Every cycle in `orphans` without an invoice of its own has got its first one,
  // and no other cycle has changed.
  predicate OrphansInvoiced(db: Db, end: Db, orphans: seq<nat>) {
    && |end.cycles| == |db.cycles|
    && (forall c :: 0 <= c < |db.cycles| && c !in orphans ==> end.cycles[c] == db.cycles[c])
    && (forall c :: 0 <= c < |db.cycles| && c in orphans && Invoice(c, 1) !in db.invoices ==>
          end.cycles[c].status == Invoiced && end.cycles[c].attempts == 1)
  }

  lemma OneMoreInvoiced(db: Db, minted: Db, end: Db, first: nat, rest: seq<nat>)
    requires OrphansInvoiced(minted, end, rest) && |minted.cycles| == |db.cycles| && first < |db.cycles| && first !in rest
    requires forall k :: 0 <= k < |db.cycles| && k != first ==> minted.cycles[k] == db.cycles[k]
    requires forall k :: k != first ==> (Invoice(k, 1) in minted.invoices <==> Invoice(k, 1) in db.invoices)
    requires Invoice(first, 1) !in db.invoices ==> minted.cycles[first].status == Invoiced && minted.cycles[first].attempts == 1
    ensures OrphansInvoiced(db, end, [first] + rest)
  {
  }

  predicate Ascending(ids: seq<nat>) {
    forall j, k :: 0 <= j < k < |ids| ==> ids[j] < ids[k]
  }

  // The orphan pass closes the gap it exists for.
  lemma {:induction false} OrphanPassInvoices(db: Db, orphans: seq<nat>, i: PlanInterval)
    requires InvoicesCounted(db) && AllBelow(orphans, |db.cycles|) && Ascending(orphans)
    requires forall k :: 0 <= k < |orphans| ==> IsOrphan(db.cycles[orphans[k]])
    ensures OrphansInvoiced(db, InvoiceAll(db, orphans, i, Flawless(|orphans|)).0, orphans)
    decreases |orphans|
  {
    if orphans != [] {
      var first, rest := orphans[0], orphans[1..];
      var minted := MintAlone(db, first, i);
      assert Flawless(|orphans|)[1..] == Flawless(|rest|);
      assert AllBelow(rest, |minted.cycles|) && Ascending(rest);
      OrphanPassInvoices(minted, rest, i);
      OneMoreInvoiced(db, minted, InvoiceAll(minted, rest, i, Flawless(|rest|)).0, first, rest);
      assert orphans == [first] + rest;
    }
  }
}
