// What is left of the periods' order when resumes have re-anchored billing: the
// periods fall into stretches, each of them the iterates of the interval from the
// subscription's start or from a date a resume wrote.
module BillingAnchors {
  import opened Wrappers
  import opened Calendar
  import opened Billing
  import opened BillingRuns

  // A date a stretch of periods may begin at.
  predicate IsOrigin(t: Instant, start: Instant, anchors: seq<Instant>) {
    t == start || t in anchors
  }

  // Period `k` takes up where the last one ended, or begins a new stretch after it.
  predicate Follows(cycles: seq<Cycle>, k: nat, start: Instant, anchors: seq<Instant>, i: PlanInterval)
    requires k < |cycles|
  {
    && cycles[k].end == PeriodEnd(cycles[k].start, i)
    && if k == 0 then IsOrigin(cycles[0].start, start, anchors)
       else Before(cycles[k - 1].start, cycles[k].start)
            && (cycles[k].start == cycles[k - 1].end || cycles[k].start in anchors)
  }

  predicate Chained(cycles: seq<Cycle>, start: Instant, anchors: seq<Instant>, i: PlanInterval) {
    forall k :: 0 <= k < |cycles| ==> Follows(cycles, k, start, anchors, i)
  }

  // Where a billing date may stand beside the periods: at the last one's start or
  // end, or at a later anchor.
  predicate OnChain(t: Instant, cycles: seq<Cycle>, start: Instant, anchors: seq<Instant>) {
    if cycles == [] then IsOrigin(t, start, anchors)
    else
      var last := cycles[|cycles| - 1];
      t == last.start || t == last.end || (t in anchors && Before(last.start, t))
  }

  // What the running call knows of the period it bills.
  predicate CallOnChain(pc: Pc, cycles: seq<Cycle>, start: Instant, anchors: seq<Instant>) {
    match pc
    case SelectCycle(t) => OnChain(t, cycles, start, anchors)
    case AddCycle(t) => OnChain(t, cycles, start, anchors) && FindCycle(cycles, t).None?
    case Advance(t, c) => cycles != [] && c == |cycles| - 1 && t == cycles[c].start
    case _ => true
  }

  // The date a call works on is the subscription's, unless a resume has written one
  // since, and no earlier one.
  predicate DateOfCall(next: Option<Instant>, pc: Pc, anchors: seq<Instant>) {
    next.Some? && (pc.SelectCycle? || pc.AddCycle? || pc.Advance?) ==>
      next.value == pc.start || (next.value in anchors && !Before(next.value, pc.start))
  }

  predicate Chain(s: State, start: Instant, i: PlanInterval) {
    && Chained(s.db.cycles, start, s.anchors, i)
    && (s.db.next.Some? ==> OnChain(s.db.next.value, s.db.cycles, start, s.anchors))
    && CallOnChain(s.pc, s.db.cycles, start, s.anchors)
    && DateOfCall(s.db.next, s.pc, s.anchors)
  }

  lemma {:induction false} ChainIncreases(cycles: seq<Cycle>, start: Instant, anchors: seq<Instant>, i: PlanInterval, j: nat, k: nat)
    requires Chained(cycles, start, anchors, i) && j < k < |cycles|
    ensures Before(cycles[j].start, cycles[k].start)
    decreases k
  {
    assert Follows(cycles, k, start, anchors, i);
    if j < k - 1 {
      ChainIncreases(cycles, start, anchors, i, j, k - 1);
      BeforeTrans(cycles[j].start, cycles[k - 1].start, cycles[k].start);
    }
  }

  // A date on the chain that has a period already has the last one.
  lemma FindOnChain(cycles: seq<Cycle>, start: Instant, anchors: seq<Instant>, i: PlanInterval, t: Instant)
    requires Chained(cycles, start, anchors, i) && OnChain(t, cycles, start, anchors)
    ensures FindCycle(cycles, t).Some? ==> FindCycle(cycles, t) == Some(|cycles| - 1)
    ensures FindCycle(cycles, t).None? && cycles != [] ==> Before(cycles[|cycles| - 1].start, t)
  {
    if cycles != [] {
      var n := |cycles| - 1;
      assert Follows(cycles, n, start, anchors, i);
      AddIntervalIsLater(cycles[n].start, i);
      forall k | 0 <= k < n ensures cycles[k].start != t {
        ChainIncreases(cycles, start, anchors, i, k, n);
      }
    }
  }

  lemma AddCycleKeepsChain(s: State, start: Instant, i: PlanInterval)
    requires Sane(s) && Chain(s, start, i) && s.pc.AddCycle?
    ensures Chain(Apply(s, Runs(false), i), start, i)
  {
    var t, cycles := s.pc.start, s.db.cycles;
    FindOnChain(cycles, start, s.anchors, i, t);
    var more := cycles + [Cycle(t, PeriodEnd(t, i), Pending, None, 0)];
    forall k | 0 <= k < |more| ensures Follows(more, k, start, s.anchors, i) {
      if k < |cycles| {
        assert Follows(cycles, k, start, s.anchors, i);
      }
    }
    assert Apply(s, Runs(false), i).db.cycles == more;
  }

  lemma SelectKeepsChain(s: State, start: Instant, i: PlanInterval)
    requires Sane(s) && Chain(s, start, i) && s.pc.SelectCycle?
    ensures Chain(Apply(s, Runs(false), i), start, i)
  {
    FindOnChain(s.db.cycles, start, s.anchors, i, s.pc.start);
  }

  lemma AdvanceKeepsChain(s: State, start: Instant, i: PlanInterval)
    requires Sane(s) && Chain(s, start, i) && s.pc.Advance?
    ensures Chain(Apply(s, Runs(false), i), start, i)
  {
    assert Follows(s.db.cycles, |s.db.cycles| - 1, start, s.anchors, i);
  }

  predicate SameDates(a: seq<Cycle>, b: seq<Cycle>) {
    |a| == |b| && forall k :: 0 <= k < |a| ==> b[k].start == a[k].start && b[k].end == a[k].end
  }

  lemma SameDatesChained(a: seq<Cycle>, b: seq<Cycle>, start: Instant, anchors: seq<Instant>, i: PlanInterval)
    requires SameDates(a, b) && Chained(a, start, anchors, i)
    ensures Chained(b, start, anchors, i)
  {
    forall k | 0 <= k < |b| ensures Follows(b, k, start, anchors, i) {
      assert Follows(a, k, start, anchors, i);
    }
  }

  // Statements that leave the periods' dates and the billing date alone.
  lemma SameDatesKeepChain(s: State, t: State, start: Instant, i: PlanInterval)
    requires Chain(s, start, i) && SameDates(s.db.cycles, t.db.cycles)
    requires t.db.next == s.db.next && t.anchors == s.anchors
    requires !t.pc.SelectCycle? && !t.pc.AddCycle? && !t.pc.Advance?
    ensures Chain(t, start, i)
  {
    SameDatesChained(s.db.cycles, t.db.cycles, start, s.anchors, i);
  }

  // So do an error and every statement after the advance.
  lemma InvoicingLeavesDates(db: Db, pc: Pc, i: PlanInterval, fails: bool)
    requires InRange(pc, |db.cycles|)
    requires fails || (!pc.LoadSub? && !pc.SelectCycle? && !pc.AddCycle? && !pc.Advance?)
    ensures var (next, q) := Step(db, pc, i, fails);
      && SameDates(db.cycles, next.cycles) && next.next == db.next
      && !q.SelectCycle? && !q.AddCycle? && !q.Advance?
  {
  }

  lemma LoadKeepsChain(s: State, start: Instant, i: PlanInterval)
    requires Sane(s) && Chain(s, start, i) && s.pc.LoadSub?
    ensures Chain(Apply(s, Runs(false), i), start, i)
  {
  }

  lemma StepKeepsChain(s: State, start: Instant, i: PlanInterval, fails: bool)
    requires Sane(s) && Chain(s, start, i)
    ensures Chain(Apply(s, Runs(fails), i), start, i)
  {
    if !fails && s.pc.LoadSub? {
      LoadKeepsChain(s, start, i);
    } else if !fails && s.pc.SelectCycle? {
      SelectKeepsChain(s, start, i);
    } else if !fails && s.pc.AddCycle? {
      AddCycleKeepsChain(s, start, i);
    } else if !fails && s.pc.Advance? {
      AdvanceKeepsChain(s, start, i);
    } else {
      InvoicingLeavesDates(s.db, s.pc, i, fails);
      SameDatesKeepChain(s, Apply(s, Runs(fails), i), start, i);
    }
  }

  lemma MoreAnchorsChain(cycles: seq<Cycle>, start: Instant, anchors: seq<Instant>, more: seq<Instant>, i: PlanInterval)
    requires Chained(cycles, start, anchors, i)
    ensures Chained(cycles, start, anchors + more, i)
  {
    forall k | 0 <= k < |cycles| ensures Follows(cycles, k, start, anchors + more, i) {
      assert Follows(cycles, k, start, anchors, i);
    }
  }

  // A re-anchoring that is not backdated starts no earlier than the last period.
  lemma ReanchorKeepsChain(s: State, start: Instant, i: PlanInterval, k: nat)
    requires Chain(s, start, i) && k < |s.requests| && s.requests[k].ResumeWrite? && s.requests[k].date.Some?
    requires !Backdates(s.db, s.pc, s.requests[k].date.value)
    ensures Chain(AnswerRequest(s, k), start, i)
  {
    var date := s.requests[k].date.value;
    MoreAnchorsChain(s.db.cycles, start, s.anchors, [date], i);
    if s.db.cycles != [] {
      EqualOrBefore(s.db.cycles[|s.db.cycles| - 1].start, date);
    }
  }

  lemma EqualOrBefore(a: Instant, b: Instant)
    requires !Before(b, a)
    ensures a == b || Before(a, b)
  {
  }

  lemma RequestKeepsChain(s: State, start: Instant, i: PlanInterval, k: nat)
    requires Sane(s) && Chain(s, start, i) && k < |s.requests| && !AnswerRequest(s, k).backdated
    ensures Chain(AnswerRequest(s, k), start, i)
  {
    if s.requests[k].ResumeWrite? && s.requests[k].date.Some? {
      ReanchorKeepsChain(s, start, i, k);
    }
  }

  lemma ApplyKeepsChain(s: State, e: Event, start: Instant, i: PlanInterval)
    requires Sane(s) && Chain(s, start, i)
    ensures Apply(s, e, i).backdated || Chain(Apply(s, e, i), start, i)
  {
    match e
    case Runs(fails) => StepKeepsChain(s, start, i, fails);
    case RequestWrites(k) => if k < |s.requests| && !AnswerRequest(s, k).backdated { RequestKeepsChain(s, start, i, k); }
    case CycleTurns(c, status) => TurnsKeepChain(s, e, start, i);
    case InvoicePaid(p) => TurnsKeepChain(s, e, start, i);
    case _ =>
  }

  lemma SameDatesFind(a: seq<Cycle>, b: seq<Cycle>, t: Instant)
    requires SameDates(a, b)
    ensures FindCycle(a, t).None? ==> FindCycle(b, t).None?
  {
  }

  lemma TurnsKeepChain(s: State, e: Event, start: Instant, i: PlanInterval)
    requires Sane(s) && Chain(s, start, i) && (e.CycleTurns? || e.InvoicePaid?)
    ensures Chain(Apply(s, e, i), start, i)
  {
    var t := Apply(s, e, i);
    OthersKeepDates(s, e, i);
    SameDatesChained(s.db.cycles, t.db.cycles, start, s.anchors, i);
    if s.pc.AddCycle? {
      SameDatesFind(s.db.cycles, t.db.cycles, s.pc.start);
    }
  }

  lemma {:induction false} BackdatedStays(s: State, events: seq<Event>, i: PlanInterval)
    requires Sane(s) && s.backdated
    ensures Run(s, events, i).backdated
    decreases |events|
  {
    if events != [] {
      BackdatedStays(Apply(s, events[0], i), events[1..], i);
    }
  }

  lemma {:induction false} RunKeepsChain(s: State, events: seq<Event>, start: Instant, i: PlanInterval)
    requires Sane(s) && Chain(s, start, i)
    ensures Run(s, events, i).backdated || Chain(Run(s, events, i), start, i)
    decreases |events|
  {
    if events != [] {
      var t := Apply(s, events[0], i);
      ApplyKeepsChain(s, events[0], start, i);
      if t.backdated {
        BackdatedStays(t, events[1..], i);
      } else {
        RunKeepsChain(t, events[1..], start, i);
      }
    }
  }

  // ---- the results ----

  // Periods `j` to `k` are the iterates of the interval from period `j`'s start.
  predicate Stretch(cycles: seq<Cycle>, j: nat, k: nat, i: PlanInterval)
    requires j <= k < |cycles|
  {
    forall m :: j <= m <= k ==>
      cycles[m].start == Iterate(cycles[j].start, i, m - j) && cycles[m].end == Iterate(cycles[j].start, i, m - j + 1)
  }

  lemma {:induction false} StretchBack(cycles: seq<Cycle>, start: Instant, anchors: seq<Instant>, i: PlanInterval, k: nat)
    returns (j: nat)
    requires Chained(cycles, start, anchors, i) && k < |cycles|
    ensures j <= k && IsOrigin(cycles[j].start, start, anchors) && Stretch(cycles, j, k, i)
    decreases k
  {
    assert Follows(cycles, k, start, anchors, i);
    if IsOrigin(cycles[k].start, start, anchors) {
      j := k;
      assert Iterate(cycles[k].start, i, 0) == cycles[k].start;
      assert Iterate(cycles[k].start, i, 1) == cycles[k].end;
    } else {
      j := StretchBack(cycles, start, anchors, i, k - 1);
      assert cycles[k].start == Iterate(cycles[j].start, i, k - j);
      assert cycles[k].end == Iterate(cycles[j].start, i, k - j + 1);
    }
  }

  // Every run, re-anchored or not, in which no resume writes a date before the last
  // period or one under way: the periods are a concatenation of tilings, each from
  // the subscription's start or from a date a resume wrote.
  lemma PeriodsAreTilings(s: State, events: seq<Event>, start: Instant, i: PlanInterval, k: nat)
    requires Initial(s, start)
    requires !Run(s, events, i).backdated && k < |Run(s, events, i).db.cycles|
    ensures var t := Run(s, events, i);
      exists j :: 0 <= j <= k && IsOrigin(t.db.cycles[j].start, start, t.anchors) && Stretch(t.db.cycles, j, k, i)
  {
    RunKeepsChain(s, events, start, i);
    var t := Run(s, events, i);
    var j := StretchBack(t.db.cycles, start, t.anchors, i, k);
  }

  // Across all stretches of such a run, later periods start strictly later.
  lemma PeriodsStillIncrease(s: State, events: seq<Event>, start: Instant, i: PlanInterval, j: nat, k: nat)
    requires Initial(s, start) && !Run(s, events, i).backdated
    requires j < k < |Run(s, events, i).db.cycles|
    ensures Before(Run(s, events, i).db.cycles[j].start, Run(s, events, i).db.cycles[k].start)
  {
    RunKeepsChain(s, events, start, i);
    var t := Run(s, events, i);
    ChainIncreases(t.db.cycles, start, t.anchors, i, j, k);
  }

  // ---- without that guard ----

  predicate Increasing(cycles: seq<Cycle>) {
    forall j, k :: 0 <= j < k < |cycles| ==> Before(cycles[j].start, cycles[k].start)
  }

  lemma StillIncreasing(cycles: seq<Cycle>, c: Cycle)
    requires Increasing(cycles)
    ensures Increasing(cycles + [c]) <==> cycles == [] || Before(cycles[|cycles| - 1].start, c.start)
  {
    var more := cycles + [c];
    if cycles != [] && Before(cycles[|cycles| - 1].start, c.start) {
      forall j | 0 <= j < |cycles| ensures Before(cycles[j].start, c.start) {
        if j < |cycles| - 1 {
          BeforeTrans(cycles[j].start, cycles[|cycles| - 1].start, c.start);
        }
      }
      assert Increasing(more);
    } else if cycles != [] {
      assert more[|cycles| - 1] == cycles[|cycles| - 1] && more[|cycles|] == c;
    }
  }

  // Billing a date that already starts a period moves no period.
  lemma FoundPeriodKeepsDates(db: Db, i: PlanInterval, now: Instant, t: Instant)
    requires IsDue(db, now) && db.next == Some(t) && FindCycle(db.cycles, t).Some?
    ensures SameDates(db.cycles, RunAlone(db, LoadSub(now), i, {}).0.cycles)
  {
    var c := FindCycle(db.cycles, t).value;
    ReachesCycle(db, i, t, c, now);
    CallMintsExactly(db.(next := Some(PeriodEnd(t, i))), c, false, i);
  }

  lemma SameDatesIncrease(a: seq<Cycle>, b: seq<Cycle>)
    requires SameDates(a, b) && Increasing(a)
    ensures Increasing(b)
  {
  }

  // A written date that starts no period yet is billed as the next one.
  lemma WrittenDateIsBilled(s: State, i: PlanInterval, k: nat, now: Instant, date: Instant)
    requires Sane(s) && s.pc.Ended? && Invoice(|s.db.cycles|, 1) !in s.db.invoices
    requires k < |s.requests| && s.requests[k] == ResumeWrite(Some(date)) && !Before(now, date)
    requires FindCycle(s.db.cycles, date).None?
    ensures Run(AnswerRequest(s, k), OneBilling(now), i).db.cycles
         == s.db.cycles + [Cycle(date, PeriodEnd(date, i), Invoiced, Some(|s.db.invoices|), 1)]
  {
    var t := AnswerRequest(s, k);
    OneBillingIsCall(t, i, now);
    BillsNewPeriod(t.db, i, now);
  }

  // When a resume has written `date` and that date is billed, the periods are in order
  // afterwards if and only if the date was later than the last period's start or
  // already a period's: the guard the UPDATE lacks.
  lemma AnchorOrderExactly(s: State, i: PlanInterval, k: nat, now: Instant, date: Instant)
    requires Sane(s) && s.pc.Ended? && Increasing(s.db.cycles) && InvoicesCounted(s.db)
    requires k < |s.requests| && s.requests[k] == ResumeWrite(Some(date)) && !Before(now, date)
    ensures Increasing(Run(AnswerRequest(s, k), OneBilling(now), i).db.cycles)
       <==> (s.db.cycles == [] || Before(s.db.cycles[|s.db.cycles| - 1].start, date) || FindCycle(s.db.cycles, date).Some?)
  {
    if FindCycle(s.db.cycles, date).Some? {
      var t := AnswerRequest(s, k);
      OneBillingIsCall(t, i, now);
      FoundPeriodKeepsDates(t.db, i, now, date);
      SameDatesIncrease(s.db.cycles, RunAlone(t.db, LoadSub(now), i, {}).0.cycles);
    } else {
      WrittenDateIsBilled(s, i, k, now, date);
      StillIncreasing(s.db.cycles, Cycle(date, PeriodEnd(date, i), Invoiced, Some(|s.db.invoices|), 1));
    }
  }

  // Two resumes load the same subscription and read the clock one after the other;
  // the later one writes first.
  function TwoResumes(earlier: Instant, later: Instant): seq<Event> {
    [ResumeLoads, ResumeLoads, RequestReads(2, earlier), RequestReads(3, later), RequestWrites(3)]
  }

  lemma TwoResumesWrite(s: State, i: PlanInterval, earlier: Instant, later: Instant)
    requires Sane(s) && s.db == Db(Paused, None, [], []) && s.requests == [Answered, Answered] && s.pc.Ended?
    ensures var t := Run(s, TwoResumes(earlier, later), i);
      && t.db == Db(Active, Some(later), [], []) && t.pc == s.pc
      && t.requests == [Answered, Answered, ResumeWrite(Some(earlier)), Answered]
  {
    var events := TwoResumes(earlier, later);
    var s1 := RunFirst(s, events, i);
    var s2 := RunFirst(s1, events[1..], i);
    assert s2.requests == [Answered, Answered, ResumeLoaded(true), ResumeLoaded(true)];
    var s3 := RunFirst(s2, events[2..], i);
    var s4 := RunFirst(s3, events[3..], i);
    assert s4.requests == [Answered, Answered, ResumeWrite(Some(earlier)), ResumeWrite(Some(later))];
    var s5 := RunFirst(s4, events[4..], i);
  }

  // One period, with its first invoice.
  predicate OnlyPeriod(db: Db, t: Instant) {
    |db.cycles| == 1 && db.cycles[0].start == t && db.invoices == [Invoice(0, 1)]
  }

  lemma LaterIsBilled(s: State, i: PlanInterval, later: Instant, now: Instant)
    requires Sane(s) && s.db == Db(Active, Some(later), [], []) && s.pc.Ended? && !Before(now, later)
    ensures var t := Run(s, OneBilling(now), i); OnlyPeriod(t.db, later) && t.pc.Ended? && t.requests == s.requests
  {
    OneBillingIsCall(s, i, now);
    BillsNewPeriod(s.db, i, now);
  }

  lemma EarlierIsBilled(s: State, i: PlanInterval, later: Instant, earlier: Instant, now: Instant)
    requires Sane(s) && s.pc.Ended? && Before(earlier, later) && !Before(now, later)
    requires OnlyPeriod(s.db, later)
    requires 2 < |s.requests| && s.requests[2] == ResumeWrite(Some(earlier))
    ensures var cycles := Run(AnswerRequest(s, 2), OneBilling(now), i).db.cycles;
      |cycles| == 2 && cycles[0].start == later && cycles[1].start == earlier
  {
    NotBeforeTrans(earlier, later, now);
    OnePeriodNotFound(s.db.cycles, earlier);
    WrittenDateIsBilled(s, i, 2, now, earlier);
  }

  // It does happen, with a clock that only goes forward: the later date is billed,
  // then the first resume writes the earlier one, and the next period starts before
  // the one already there.
  lemma TwoResumesBreakOrder(s: State, start: Instant, i: PlanInterval, earlier: Instant, later: Instant, now: Instant)
    requires Initial(s, start) && Before(earlier, later) && !Before(now, later)
    ensures var t := Run(Run(Run(s, LatePause, i), TwoResumes(earlier, later), i), OneBilling(now), i);
      && 2 < |t.requests| && t.requests[2] == ResumeWrite(Some(earlier))
      && var cycles := Run(AnswerRequest(t, 2), OneBilling(now), i).db.cycles;
      && |cycles| == 2 && cycles[0].start == later && cycles[1].start == earlier
  {
    LatePauseLosesDate(s, start, i);
    var s1 := Run(s, LatePause, i);
    TwoResumesWrite(s1, i, earlier, later);
    var s2 := Run(s1, TwoResumes(earlier, later), i);
    LaterIsBilled(s2, i, later, now);
    EarlierIsBilled(Run(s2, OneBilling(now), i), i, later, earlier, now);
  }

  lemma NotBeforeTrans(a: Instant, b: Instant, c: Instant)
    requires Before(a, b) && !Before(c, b)
    ensures !Before(c, a) && a != b && !Before(b, a)
  {
  }

  lemma OnePeriodNotFound(cycles: seq<Cycle>, t: Instant)
    requires |cycles| == 1 && cycles[0].start != t
    ensures FindCycle(cycles, t).None?
  {
  }

  // ---- while it is not active ----

  // Not active, with no resume under way and no call in the middle of billing a period.
  predicate AtRest(s: State) {
    && s.db.status != Active && !s.pc.SelectCycle? && !s.pc.AddCycle? && !s.pc.Advance?
    && forall r :: r in s.requests ==> !r.ResumeLoaded? && !r.ResumeWrite?
  }

  lemma RequestKeepsRest(s: State, e: Event, i: PlanInterval)
    requires Sane(s) && AtRest(s) && (e.RequestReads? || e.RequestWrites?)
    ensures var t := Apply(s, e, i);
      AtRest(t) && t.db.cycles == s.db.cycles && (t.db.next == s.db.next || t.db.next.None?)
  {
    if e.k < |s.requests| {
      assert s.requests[e.k] in s.requests;
    }
  }

  lemma StepKeepsRest(s: State, i: PlanInterval, fails: bool)
    requires Sane(s) && AtRest(s)
    ensures var t := Apply(s, Runs(fails), i);
      AtRest(t) && SameDates(s.db.cycles, t.db.cycles) && t.db.next == s.db.next
  {
    NoNewDates(s.db, s.pc, i, fails);
  }

  lemma ApplyKeepsRest(s: State, e: Event, i: PlanInterval)
    requires Sane(s) && AtRest(s) && !e.ResumeLoads?
    ensures var t := Apply(s, e, i);
      AtRest(t) && SameDates(s.db.cycles, t.db.cycles) && (t.db.next == s.db.next || t.db.next.None?)
  {
    match e
    case Runs(fails) => StepKeepsRest(s, i, fails);
    case RequestReads(k, now) => RequestKeepsRest(s, e, i);
    case RequestWrites(k) => RequestKeepsRest(s, e, i);
    case _ => OthersKeepDates(s, e, i);
  }

  // A paused or cancelled subscription gets no period, however often it is visited and
  // whatever is retried, until a resume is asked for; and its billing date stays or goes.
  lemma {:induction false} InactiveAddsNoPeriod(s: State, events: seq<Event>, i: PlanInterval)
    requires Sane(s) && AtRest(s) && forall k :: 0 <= k < |events| ==> !events[k].ResumeLoads?
    ensures var t := Run(s, events, i);
      && t.db.status != Active && SameDates(s.db.cycles, t.db.cycles)
      && (t.db.next == s.db.next || t.db.next.None?)
    decreases |events|
  {
    if events != [] {
      assert !events[0].ResumeLoads?;
      ApplyKeepsRest(s, events[0], i);
      InactiveAddsNoPeriod(Apply(s, events[0], i), events[1..], i);
    }
  }

  // ---- in every run whatever ----

  // The date is some iterate of the interval from the start or from an anchor.
  ghost predicate Derived(t: Instant, start: Instant, anchors: seq<Instant>, i: PlanInterval) {
    exists o: Instant, m: nat :: IsOrigin(o, start, anchors) && t == Iterate(o, i, m)
  }

  lemma OriginDerived(t: Instant, start: Instant, anchors: seq<Instant>, i: PlanInterval)
    requires IsOrigin(t, start, anchors)
    ensures Derived(t, start, anchors, i)
  {
    assert t == Iterate(t, i, 0);
  }

  lemma PeriodEndDerived(t: Instant, start: Instant, anchors: seq<Instant>, i: PlanInterval)
    requires Derived(t, start, anchors, i)
    ensures Derived(PeriodEnd(t, i), start, anchors, i)
  {
    var o: Instant, m: nat :| IsOrigin(o, start, anchors) && t == Iterate(o, i, m);
    assert PeriodEnd(t, i) == Iterate(o, i, m + 1);
  }

  lemma MoreAnchorsDerived(t: Instant, start: Instant, anchors: seq<Instant>, date: Instant, i: PlanInterval)
    requires Derived(t, start, anchors, i)
    ensures Derived(t, start, anchors + [date], i)
  {
    var o: Instant, m: nat :| IsOrigin(o, start, anchors) && t == Iterate(o, i, m);
    assert IsOrigin(o, start, anchors + [date]);
  }

  ghost predicate AllDerived(s: State, start: Instant, i: PlanInterval) {
    && (forall k :: 0 <= k < |s.db.cycles| ==> Derived(s.db.cycles[k].start, start, s.anchors, i))
    && (s.db.next.Some? ==> Derived(s.db.next.value, start, s.anchors, i))
    && (s.pc.SelectCycle? || s.pc.AddCycle? || s.pc.Advance? ==> Derived(s.pc.start, start, s.anchors, i))
  }

  lemma AdvanceKeepsDerived(s: State, start: Instant, i: PlanInterval)
    requires Sane(s) && AllDerived(s, start, i) && s.pc.Advance?
    ensures AllDerived(Apply(s, Runs(false), i), start, i)
  {
    PeriodEndDerived(s.pc.start, start, s.anchors, i);
  }

  lemma AddingKeepsDerived(s: State, start: Instant, i: PlanInterval)
    requires Sane(s) && AllDerived(s, start, i) && s.pc.AddCycle?
    ensures AllDerived(Apply(s, Runs(false), i), start, i)
  {
  }

  // No other statement writes a date.
  lemma NoNewDates(db: Db, pc: Pc, i: PlanInterval, fails: bool)
    requires InRange(pc, |db.cycles|) && (fails || (!pc.AddCycle? && !pc.Advance?))
    ensures var (next, q) := Step(db, pc, i, fails);
      && SameDates(db.cycles, next.cycles) && next.next == db.next
      && (q.SelectCycle? || q.AddCycle? || q.Advance? ==>
            (db.next.Some? && q.start == db.next.value)
            || ((pc.SelectCycle? || pc.AddCycle? || pc.Advance?) && q.start == pc.start))
  {
  }

  lemma StepKeepsDerived(s: State, start: Instant, i: PlanInterval, fails: bool)
    requires Sane(s) && AllDerived(s, start, i)
    ensures AllDerived(Apply(s, Runs(fails), i), start, i)
  {
    if !fails && s.pc.Advance? {
      AdvanceKeepsDerived(s, start, i);
    } else if !fails && s.pc.AddCycle? {
      AddingKeepsDerived(s, start, i);
    } else {
      NoNewDates(s.db, s.pc, i, fails);
    }
  }

  lemma RequestKeepsDerived(s: State, start: Instant, i: PlanInterval, k: nat)
    requires Sane(s) && AllDerived(s, start, i) && k < |s.requests|
    ensures AllDerived(AnswerRequest(s, k), start, i)
  {
    if s.requests[k].ResumeWrite? && s.requests[k].date.Some? {
      var date := s.requests[k].date.value;
      OriginDerived(date, start, s.anchors + [date], i);
      forall t: Instant | Derived(t, start, s.anchors, i) ensures Derived(t, start, s.anchors + [date], i) {
        MoreAnchorsDerived(t, start, s.anchors, date, i);
      }
    }
  }

  lemma ApplyKeepsDerived(s: State, e: Event, start: Instant, i: PlanInterval)
    requires Sane(s) && AllDerived(s, start, i)
    ensures AllDerived(Apply(s, e, i), start, i)
  {
    match e
    case Runs(fails) => StepKeepsDerived(s, start, i, fails);
    case RequestWrites(k) => if k < |s.requests| { RequestKeepsDerived(s, start, i, k); }
    case _ => OthersKeepDates(s, e, i);
  }

  lemma {:induction false} RunKeepsDerived(s: State, events: seq<Event>, start: Instant, i: PlanInterval)
    requires Sane(s) && AllDerived(s, start, i)
    ensures AllDerived(Run(s, events, i), start, i)
    decreases |events|
  {
    if events != [] {
      ApplyKeepsDerived(s, events[0], start, i);
      RunKeepsDerived(Apply(s, events[0], i), events[1..], start, i);
    }
  }

  // Whatever requests write and when: every period starts at an iterate of the
  // interval from the subscription's start or from a date a resume wrote.
  lemma PeriodsAreIterates(s: State, events: seq<Event>, start: Instant, i: PlanInterval, k: nat)
    requires Initial(s, start) && k < |Run(s, events, i).db.cycles|
    ensures var t := Run(s, events, i); Derived(t.db.cycles[k].start, start, t.anchors, i)
  {
    OriginDerived(start, start, [], i);
    RunKeepsDerived(s, events, start, i);
  }

  predicate Distinct(cycles: seq<Cycle>, i: PlanInterval) {
    && (forall k :: 0 <= k < |cycles| ==> cycles[k].end == PeriodEnd(cycles[k].start, i))
    && forall j, k :: 0 <= j < k < |cycles| ==> cycles[j].start != cycles[k].start
  }

  lemma StepKeepsDistinct(db: Db, pc: Pc, i: PlanInterval, fails: bool)
    requires InRange(pc, |db.cycles|) && Distinct(db.cycles, i)
    ensures Distinct(Step(db, pc, i, fails).0.cycles, i)
  {
  }

  lemma ApplyKeepsDistinct(s: State, e: Event, i: PlanInterval)
    requires Sane(s) && Distinct(s.db.cycles, i)
    ensures Distinct(Apply(s, e, i).db.cycles, i)
  {
    if e.Runs? {
      StepKeepsDistinct(s.db, s.pc, i, e.fails);
    } else {
      OthersKeepDates(s, e, i);
    }
  }

  lemma OthersKeepDates(s: State, e: Event, i: PlanInterval)
    requires Sane(s) && !e.Runs?
    ensures SameDates(s.db.cycles, Apply(s, e, i).db.cycles)
  {
  }

  lemma {:induction false} RunKeepsDistinct(s: State, events: seq<Event>, i: PlanInterval)
    requires Sane(s) && Distinct(s.db.cycles, i)
    ensures Distinct(Run(s, events, i).db.cycles, i)
    decreases |events|
  {
    if events != [] {
      ApplyKeepsDistinct(s, events[0], i);
      RunKeepsDistinct(Apply(s, events[0], i), events[1..], i);
    }
  }

  // In every run whatever, no two periods share a start and each
  // lasts one interval.
  lemma PeriodsAreDistinct(s: State, events: seq<Event>, start: Instant, i: PlanInterval)
    requires Initial(s, start)
    ensures Distinct(Run(s, events, i).db.cycles, i)
  {
    RunKeepsDistinct(s, events, i);
  }
}
