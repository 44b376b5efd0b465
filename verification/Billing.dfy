// Subscription billing by one scheduler whose statements are not transactional:
// it may stop between any two of them, while pause, resume and cancel requests
// and the payments of earlier invoices go on beside it.
module Billing {
  import opened Wrappers
  import opened Calendar

  // How many periods one tick bills for one subscription.
  const MAX_PERIODS_PER_TICK := 100

  // How many orphaned cycles one tick picks up.
  const SCAN_BATCH := 50

  // ---- the rows of one subscription ----

  datatype SubStatus = Active | Paused | Stopped
  datatype CycleStatus = Pending | Invoiced | PastDue | Paid | Cancelled

  datatype Cycle = Cycle(start: Instant, end: Instant, status: CycleStatus, invoice: Option<nat>, attempts: nat)

  // An invoice of a cycle. Its external id is made of the cycle and the attempt.
  datatype Invoice = Invoice(cycle: nat, attempt: nat)

  datatype Db = Db(status: SubStatus, next: Option<Instant>, cycles: seq<Cycle>, invoices: seq<Invoice>)

  predicate IsDue(db: Db, now: Instant) {
    db.status == Active && db.next.Some? && !Before(now, db.next.value)
  }

  function FindCycle(cycles: seq<Cycle>, start: Instant): (i: Option<nat>)
    ensures i.Some? ==> i.value < |cycles| && cycles[i.value].start == start
    ensures i.None? ==> forall j :: 0 <= j < |cycles| ==> cycles[j].start != start
  {
    if cycles == [] then None
    else if cycles[|cycles| - 1].start == start then Some(|cycles| - 1)
    else FindCycle(cycles[..|cycles| - 1], start)
  }

  // Waiting for an invoice that was never minted.
  predicate IsOrphan(c: Cycle) {
    c.status == Pending && c.invoice.None?
  }

  // ---- the scheduler ----

  // How a call ends.
  datatype Outcome = Billed | NothingDue | Failed

  // The statement the running call executes next.
  datatype Pc = Ended(outcome: Outcome)
              | LoadSub(now: Instant) | SelectCycle(start: Instant) | AddCycle(start: Instant) | Advance(start: Instant, cycle: nat)
              | LoadCycle(cycle: nat, retry: bool) | Guard(cycle: nat, attempt: nat) | AddInvoice(cycle: nat, attempt: nat)
              | Mint(cycle: nat, attempt: nat, invoice: nat) | Link(cycle: nat, attempt: nat, invoice: nat)
              | Snapshot

  predicate InRange(pc: Pc, n: nat) {
    pc.Advance? || pc.LoadCycle? || pc.Guard? || pc.AddInvoice? || pc.Mint? || pc.Link? ==> pc.cycle < n
  }

  datatype Invoicing = NotInvoiceable | AlreadyInvoiced | NotPastDue | Attempt(n: nat)

  // The checks `generate_invoice_for_cycle` opens with.
  function DecideInvoicing(c: Cycle, retry: bool): Invoicing {
    if c.status == Paid || c.status == Cancelled then NotInvoiceable
    else if !retry && c.invoice.Some? then AlreadyInvoiced
    else if retry && c.status != PastDue then NotPastDue
    else Attempt(c.attempts + 1)
  }

  function LinkInvoice(c: Cycle, attempt: nat, invoice: nat): Cycle {
    c.(status := Invoiced, invoice := Some(invoice), attempts := attempt)
  }

  // One statement of the running call. The plan's terms, copied into the subscription
  // at the end, are not part of the rows: the interval is fixed. `fails` makes a
  // statement error out, which ends the call. The unique indexes on periods and external ids turn duplicates away.
  function Step(db: Db, pc: Pc, i: PlanInterval, fails: bool): (r: (Db, Pc))
    requires InRange(pc, |db.cycles|)
    ensures |db.cycles| <= |r.0.cycles| && InRange(r.1, |r.0.cycles|)
  {
    if pc.Ended? then (db, pc)
    else if fails then (db, Ended(Failed))
    else
      match pc
      case LoadSub(now) => (db, if IsDue(db, now) then SelectCycle(db.next.value) else Ended(NothingDue))
      case SelectCycle(start) =>
        (match FindCycle(db.cycles, start)
         case Some(c) => (db, Advance(start, c))
         case None => (db, AddCycle(start)))
      case AddCycle(start) =>
        if FindCycle(db.cycles, start).Some? then (db, Ended(Failed))
        else (db.(cycles := db.cycles + [Cycle(start, PeriodEnd(start, i), Pending, None, 0)]), Advance(start, |db.cycles|))
      case Advance(start, c) => (db.(next := Some(PeriodEnd(start, i))), LoadCycle(c, false))
      case LoadCycle(c, retry) =>
        (match DecideInvoicing(db.cycles[c], retry)
         case Attempt(n) => (db, Guard(c, n))
         case AlreadyInvoiced => (db, Ended(Billed))
         case _ => (db, Ended(Failed)))
      case Guard(c, n) => (db, if Invoice(c, n) in db.invoices then Ended(Failed) else AddInvoice(c, n))
      case AddInvoice(c, n) =>
        if Invoice(c, n) in db.invoices then (db, Ended(Failed))
        else (db.(invoices := db.invoices + [Invoice(c, n)]), Mint(c, n, |db.invoices|))
      case Mint(c, n, inv) => (db, Link(c, n, inv))
      case Link(c, n, inv) => (db.(cycles := db.cycles[c := LinkInvoice(db.cycles[c], n, inv)]), Snapshot)
      case Snapshot => (db, Ended(Billed))
  }

  // ---- one call left to itself ----

  datatype Stage = AtSub | AtCycle | AtNewCycle | AtAdvance | AtLoad | AtGuard | AtInvoice | AtMint | AtLink | AtSnapshot

  function StageOf(pc: Pc): Stage
    requires !pc.Ended?
  {
    match pc
    case LoadSub(_) => AtSub case SelectCycle(_) => AtCycle case AddCycle(_) => AtNewCycle case Advance(_, _) => AtAdvance
    case LoadCycle(_, _) => AtLoad case Guard(_, _) => AtGuard case AddInvoice(_, _) => AtInvoice
    case Mint(_, _, _) => AtMint case Link(_, _, _) => AtLink case Snapshot => AtSnapshot
  }

  function StepsLeft(pc: Pc): nat {
    match pc
    case Ended(_) => 0 case Snapshot => 1 case Link(_, _, _) => 2 case Mint(_, _, _) => 3 case AddInvoice(_, _) => 4
    case Guard(_, _) => 5 case LoadCycle(_, _) => 6 case Advance(_, _) => 7 case AddCycle(_) => 8 case SelectCycle(_) => 9
    case LoadSub(_) => 10
  }

  lemma StepsRunOut(db: Db, pc: Pc, i: PlanInterval, fails: bool)
    requires InRange(pc, |db.cycles|) && !pc.Ended?
    ensures StepsLeft(Step(db, pc, i, fails).1) < StepsLeft(pc)
  {
  }

  // A call with nothing in between; the statements in `failing` error out.
  function RunAlone(db: Db, pc: Pc, i: PlanInterval, failing: set<Stage>): (r: (Db, Outcome))
    requires InRange(pc, |db.cycles|)
    ensures |db.cycles| <= |r.0.cycles|
    decreases StepsLeft(pc)
  {
    if pc.Ended? then (db, pc.outcome)
    else
      var fails := StageOf(pc) in failing;
      StepsRunOut(db, pc, i, fails);
      var (next, q) := Step(db, pc, i, fails);
      RunAlone(next, q, i, failing)
  }

  // The catch-up of one subscription: one call for each entry of `failing`, until
  // one bills nothing.
  function CatchUp(db: Db, now: Instant, i: PlanInterval, failing: seq<set<Stage>>): (Db, nat)
    decreases |failing|
  {
    if failing == [] then (db, 0)
    else
      var (next, outcome) := RunAlone(db, LoadSub(now), i, failing[0]);
      if outcome == Billed then
        var (end, acted) := CatchUp(next, now, i, failing[1..]);
        (end, acted + 1)
      else (next, 0)
  }

  predicate AllBelow(ids: seq<nat>, n: nat) {
    forall k :: 0 <= k < |ids| ==> ids[k] < n
  }

  // The orphan pass over the cycles its query returned.
  function InvoiceAll(db: Db, orphans: seq<nat>, i: PlanInterval, failing: seq<set<Stage>>): (Db, nat)
    requires AllBelow(orphans, |db.cycles|) && |orphans| <= |failing|
    decreases |orphans|
  {
    if orphans == [] then (db, 0)
    else
      var (next, outcome) := RunAlone(db, LoadCycle(orphans[0], false), i, failing[0]);
      var (end, acted) := InvoiceAll(next, orphans[1..], i, failing[1..]);
      (end, if outcome == Billed then acted + 1 else acted)
  }

  // The ids of the orphaned cycles, oldest first.
  function OrphanIds(cycles: seq<Cycle>): (ids: seq<nat>)
    ensures AllBelow(ids, |cycles|) && |ids| <= |cycles|
    ensures forall k :: 0 <= k < |ids| ==> IsOrphan(cycles[ids[k]])
    ensures forall j, k :: 0 <= j < k < |ids| ==> ids[j] < ids[k]
    ensures forall c :: 0 <= c < |cycles| && IsOrphan(cycles[c]) ==> c in ids
  {
    if cycles == [] then []
    else
      var n := |cycles| - 1;
      OrphanIds(cycles[..n]) + if IsOrphan(cycles[n]) then [n] else []
  }

  // The batch the orphan query returns for this subscription.
  function OrphanBatch(db: Db): (ids: seq<nat>)
    ensures AllBelow(ids, |db.cycles|) && |ids| <= SCAN_BATCH
    ensures db.status != Active ==> ids == []
  {
    var ids := OrphanIds(db.cycles);
    if db.status != Active then []
    else if |ids| <= SCAN_BATCH then ids
    else ids[..SCAN_BATCH]
  }

  // The batch is the oldest orphans of an active subscription, fifty of them at most.
  lemma BatchExactly(db: Db)
    ensures var ids := OrphanBatch(db);
      && (db.status != Active ==> ids == [])
      && (forall k :: 0 <= k < |ids| ==> IsOrphan(db.cycles[ids[k]]))
      && forall c :: db.status == Active && 0 <= c < |db.cycles| && IsOrphan(db.cycles[c]) && c !in ids ==>
           |ids| == 50 && forall k :: 0 <= k < 50 ==> ids[k] < c
  {
    var ids := OrphanIds(db.cycles);
    if db.status == Active && |ids| > SCAN_BATCH {
      assert forall c :: c in ids && c !in ids[..SCAN_BATCH] ==> exists j :: SCAN_BATCH <= j < |ids| && ids[j] == c;
    }
  }

  // Which statements error out in each call of a tick.
  datatype TickLuck = TickLuck(due: seq<set<Stage>>, orphans: seq<set<Stage>>)

  predicate IsTickLuck(luck: TickLuck) {
    |luck.due| == MAX_PERIODS_PER_TICK && |luck.orphans| == SCAN_BATCH
  }

  // One tick of the scheduler, as far as this subscription is concerned.
  function Tick(db: Db, now: Instant, i: PlanInterval, luck: TickLuck): (Db, nat)
    requires IsTickLuck(luck)
  {
    var (caughtUp, billed) := CatchUp(db, now, i, luck.due);
    var (end, invoiced) := InvoiceAll(caughtUp, OrphanBatch(caughtUp), i, luck.orphans);
    (end, billed + invoiced)
  }

  lemma NotDueIsIdle(db: Db, now: Instant, i: PlanInterval, failing: seq<set<Stage>>)
    requires !IsDue(db, now)
    ensures CatchUp(db, now, i, failing) == (db, 0)
  {
    if failing != [] {
      var f := failing[0];
      assert AtSub !in f ==> RunAlone(db, LoadSub(now), i, f) == RunAlone(db, Ended(NothingDue), i, f);
      assert AtSub in f ==> RunAlone(db, LoadSub(now), i, f) == RunAlone(db, Ended(Failed), i, f);
    }
  }

  // Past its load, a call never ends with nothing due.
  lemma {:induction false} SomethingWasDue(db: Db, pc: Pc, i: PlanInterval, failing: set<Stage>)
    requires InRange(pc, |db.cycles|) && !pc.LoadSub? && (pc.Ended? ==> pc.outcome != NothingDue)
    ensures RunAlone(db, pc, i, failing).1 != NothingDue
    decreases StepsLeft(pc)
  {
    if !pc.Ended? {
      var fails := StageOf(pc) in failing;
      var (next, q) := Step(db, pc, i, fails);
      StepsRunOut(db, pc, i, fails);
      SomethingWasDue(next, q, i, failing);
    }
  }

  // Whatever errors out, a call gets past its load exactly when that works and finds
  // the subscription active with a billing date that has come; otherwise it changes nothing.
  lemma DueExactly(db: Db, now: Instant, i: PlanInterval, failing: set<Stage>)
    ensures var (after, outcome) := RunAlone(db, LoadSub(now), i, failing);
      var due := db.status == Active && db.next.Some? && !Before(now, db.next.value);
      && (outcome == NothingDue <==> AtSub !in failing && !due)
      && (!due || AtSub in failing ==> after == db)
  {
    var fails := AtSub in failing;
    var (next, q) := Step(db, LoadSub(now), i, fails);
    assert RunAlone(db, LoadSub(now), i, failing) == RunAlone(next, q, i, failing);
    if q.SelectCycle? {
      SomethingWasDue(next, q, i, failing);
    }
  }

  lemma TickInTwo(db: Db, now: Instant, i: PlanInterval, luck: TickLuck, caughtUp: Db, billed: nat, end: Db, invoiced: nat)
    requires IsTickLuck(luck) && (caughtUp, billed) == CatchUp(db, now, i, luck.due)
    requires (end, invoiced) == InvoiceAll(caughtUp, OrphanBatch(caughtUp), i, luck.orphans)
    ensures (end, billed + invoiced) == Tick(db, now, i, luck)
  {
  }

  // A tick leaves a subscription that is not active entirely alone, whatever is due or
  // orphaned.
  lemma InactiveIsIdle(db: Db, now: Instant, i: PlanInterval, luck: TickLuck)
    requires IsTickLuck(luck) && db.status != Active
    ensures Tick(db, now, i, luck) == (db, 0)
  {
    NotDueIsIdle(db, now, i, luck.due);
  }

  lemma InvoiceAllStep(db: Db, orphans: seq<nat>, k: nat, i: PlanInterval, failing: seq<set<Stage>>)
    requires AllBelow(orphans, |db.cycles|) && k < |orphans| <= |failing|
    ensures var (next, outcome) := RunAlone(db, LoadCycle(orphans[k], false), i, failing[k]);
      var (end, acted) := InvoiceAll(next, orphans[k + 1..], i, failing[k + 1..]);
      InvoiceAll(db, orphans[k..], i, failing[k..]) == (end, if outcome == Billed then acted + 1 else acted)
  {
    assert orphans[k..][1..] == orphans[k + 1..] && failing[k..][1..] == failing[k + 1..];
  }

  class SubscriptionTables {
    const interval: PlanInterval
    var status: SubStatus
    var next: Option<Instant>
    var cycles: seq<Cycle>
    var invoices: seq<Invoice>

    constructor (startsAt: Instant, plan: PlanInterval)
      ensures Rows() == Db(Active, Some(startsAt), [], []) && interval == plan
    {
      interval := plan;
      status, next, cycles, invoices := Active, Some(startsAt), [], [];
    }

    function Rows(): Db
      reads this
    {
      Db(status, next, cycles, invoices)
    }

    // `create_for_merchant` as billing uses it, then the updates of cycle and snapshot.
    method MintInvoice(cycle: nat, attempt: nat, failing: set<Stage>) returns (outcome: Outcome)
      requires cycle < |cycles|
      modifies this`cycles, this`invoices
      ensures (Rows(), outcome) == RunAlone(old(Rows()), Guard(cycle, attempt), interval, failing)
    {
      ghost var goal := RunAlone(Rows(), Guard(cycle, attempt), interval, failing);
      if AtGuard in failing || Invoice(cycle, attempt) in invoices {
        return Failed;
      }
      assert RunAlone(Rows(), AddInvoice(cycle, attempt), interval, failing) == goal;
      if AtInvoice in failing {
        assert RunAlone(Rows(), Ended(Failed), interval, failing) == goal;
        return Failed;
      }
      var id := |invoices|;
      invoices := invoices + [Invoice(cycle, attempt)];
      assert RunAlone(Rows(), Mint(cycle, attempt, id), interval, failing) == goal;
      if AtMint in failing {
        assert RunAlone(Rows(), Ended(Failed), interval, failing) == goal;
        return Failed;
      }
      assert RunAlone(Rows(), Link(cycle, attempt, id), interval, failing) == goal;
      if AtLink in failing {
        assert RunAlone(Rows(), Ended(Failed), interval, failing) == goal;
        return Failed;
      }
      cycles := cycles[cycle := LinkInvoice(cycles[cycle], attempt, id)];
      assert RunAlone(Rows(), Snapshot, interval, failing) == goal;
      outcome := if AtSnapshot in failing then Failed else Billed;
      assert RunAlone(Rows(), Ended(outcome), interval, failing) == goal;
    }

    method GenerateInvoiceForCycle(cycle: nat, retry: bool, failing: set<Stage>) returns (outcome: Outcome)
      requires cycle < |cycles|
      modifies this`cycles, this`invoices
      ensures (Rows(), outcome) == RunAlone(old(Rows()), LoadCycle(cycle, retry), interval, failing)
    {
      ghost var goal := RunAlone(Rows(), LoadCycle(cycle, retry), interval, failing);
      if AtLoad in failing {
        return Failed;
      }
      var row := cycles[cycle];
      if row.status == Paid || row.status == Cancelled {
        return Failed;
      }
      if !retry && row.invoice.Some? {
        return Billed;
      }
      if retry && row.status != PastDue {
        return Failed;
      }
      assert RunAlone(Rows(), Guard(cycle, row.attempts + 1), interval, failing) == goal;
      outcome := MintInvoice(cycle, row.attempts + 1, failing);
    }

    // The cycle of a due period: the existing one, or a new one.
    method EnsureCycle(start: Instant, failing: set<Stage>) returns (cycle: Option<nat>)
      modifies this`cycles
      ensures cycle.Some? ==> cycle.value < |cycles|
      ensures cycle.Some? ==> RunAlone(old(Rows()), SelectCycle(start), interval, failing) == RunAlone(Rows(), Advance(start, cycle.value), interval, failing)
      ensures cycle.None? ==> RunAlone(old(Rows()), SelectCycle(start), interval, failing) == (Rows(), Failed)
    {
      ghost var goal := RunAlone(Rows(), SelectCycle(start), interval, failing);
      if AtCycle in failing {
        return None;
      }
      cycle := FindCycle(cycles, start);
      if cycle.None? {
        assert RunAlone(Rows(), AddCycle(start), interval, failing) == goal;
        if AtNewCycle in failing {
          assert RunAlone(Rows(), Ended(Failed), interval, failing) == goal;
          return None;
        }
        cycle := Some(|cycles|);
        cycles := cycles + [Cycle(start, PeriodEnd(start, interval), Pending, None, 0)];
      }
    }

    method GenerateDueInvoice(now: Instant, failing: set<Stage>) returns (outcome: Outcome)
      modifies this`next, this`cycles, this`invoices
      ensures (Rows(), outcome) == RunAlone(old(Rows()), LoadSub(now), interval, failing)
      ensures outcome == NothingDue <==>
        AtSub !in failing && !(old(status) == Active && old(next).Some? && !Before(now, old(next).value))
    {
      DueExactly(Rows(), now, interval, failing);
      ghost var goal := RunAlone(Rows(), LoadSub(now), interval, failing);
      if AtSub in failing {
        return Failed;
      }
      if next.None? || status != Active || Before(now, next.value) {
        return NothingDue;
      }
      var start := next.value;
      assert RunAlone(Rows(), SelectCycle(start), interval, failing) == goal;
      var cycle := EnsureCycle(start, failing);
      if cycle.None? || AtAdvance in failing {
        return Failed;
      }
      next := Some(PeriodEnd(start, interval));
      assert RunAlone(Rows(), LoadCycle(cycle.value, false), interval, failing) == goal;
      outcome := GenerateInvoiceForCycle(cycle.value, false, failing);
    }

    // The first half of a tick, for this subscription.
    method BillDuePeriods(now: Instant, failing: seq<set<Stage>>) returns (acted: nat)
      modifies this`next, this`cycles, this`invoices
      ensures (Rows(), acted) == CatchUp(old(Rows()), now, interval, failing)
    {
      acted := 0;
      ghost var goal := CatchUp(Rows(), now, interval, failing);
      var k := 0;
      assert failing[0..] == failing;
      while k < |failing|
        invariant 0 <= k <= |failing| && status == old(status)
        invariant var (end, more) := CatchUp(Rows(), now, interval, failing[k..]); goal == (end, acted + more)
      {
        var outcome := GenerateDueInvoice(now, failing[k]);
        if outcome != Billed {
          return;
        }
        assert failing[k..][1..] == failing[k + 1..];
        acted := acted + 1;
        k := k + 1;
      }
    }

    // The second half of a tick.
    method InvoiceOrphans(orphans: seq<nat>, failing: seq<set<Stage>>) returns (acted: nat)
      requires AllBelow(orphans, |cycles|) && |orphans| <= |failing|
      modifies this`cycles, this`invoices
      ensures (Rows(), acted) == InvoiceAll(old(Rows()), orphans, interval, failing)
    {
      acted := 0;
      ghost var goal := InvoiceAll(Rows(), orphans, interval, failing);
      var k := 0;
      assert orphans[0..] == orphans && failing[0..] == failing;
      while k < |orphans|
        invariant 0 <= k <= |orphans| && |cycles| >= old(|cycles|)
        invariant var (end, more) := InvoiceAll(Rows(), orphans[k..], interval, failing[k..]); goal == (end, acted + more)
      {
        InvoiceAllStep(Rows(), orphans, k, interval, failing);
        var outcome := GenerateInvoiceForCycle(orphans[k], false, failing[k]);
        if outcome == Billed {
          acted := acted + 1;
        }
        k := k + 1;
      }
    }

    // The scan for due subscriptions only picks this one up when it is due.
    method ScanDue(now: Instant, failing: seq<set<Stage>>) returns (acted: nat)
      modifies this`next, this`cycles, this`invoices
      ensures (Rows(), acted) == CatchUp(old(Rows()), now, interval, failing)
      ensures old(status) != Active ==> Rows() == old(Rows()) && acted == 0
    {
      if status == Active && next.Some? && !Before(now, next.value) {
        acted := BillDuePeriods(now, failing);
      } else {
        acted := 0;
        NotDueIsIdle(Rows(), now, interval, failing);
      }
    }

    method ScanOrphans(failing: seq<set<Stage>>) returns (acted: nat)
      requires |failing| == SCAN_BATCH
      modifies this`cycles, this`invoices
      ensures (Rows(), acted) == InvoiceAll(old(Rows()), OrphanBatch(old(Rows())), interval, failing)
      ensures status != Active ==> Rows() == old(Rows()) && acted == 0
    {
      var orphans := OrphanBatch(Rows());
      acted := InvoiceOrphans(orphans, failing);
    }

    method RunTick(now: Instant, luck: TickLuck) returns (acted: nat)
      requires IsTickLuck(luck)
      modifies this`next, this`cycles, this`invoices
      ensures (Rows(), acted) == Tick(old(Rows()), now, interval, luck)
      ensures old(status) != Active ==> Rows() == old(Rows()) && acted == 0
    {
      ghost var before := Rows();
      acted := ScanDue(now, luck.due);
      ghost var caughtUp := Rows();
      var invoiced := ScanOrphans(luck.orphans);
      TickInTwo(before, now, interval, luck, caughtUp, acted, Rows(), invoiced);
      acted := acted + invoiced;
    }
  }
}
