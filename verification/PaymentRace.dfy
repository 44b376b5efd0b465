// The payment deadline as a race between wallet submissions and the expiry of
// the invoice. Every SQL statement is one atomic step; any number of processes
// interleave their steps.
module PaymentRace {
  import opened Wrappers

  const NS_PER_MS := 1_000_000
  const PAYMENT_WINDOW_MS := 15 * 60 * 1000

  datatype InvoiceStatus = Open | Expired | Paid | Cancelled | Refunded
  datatype IntentStatus = Created | Fetched | Submitted | IntentExpired | OtherStatus
  datatype CovenantState = Pending | AwaitingFunding | CovenantExpired | OtherState
  datatype CycleStatus = Invoiced | PastDue | CyclePaid
  datatype FailureReason = WindowExpired | OtherReason

  // Stored times are in milliseconds.
  datatype Intent = Intent(status: IntentStatus, txId: Option<string>, submittedAt: Option<nat>, expiresAt: nat,
                           covenant: CovenantState, failure: Option<FailureReason>)
  datatype Cycle = Cycle(status: CycleStatus, pastDueAt: Option<nat>)
  datatype Db = Db(invoice: InvoiceStatus, invoiceExpiresAt: nat, intent: Intent, cycle: Option<Cycle>)

  // A clock reading in nanoseconds as it is stored.
  function ToStored(ns: nat): nat {
    ns / NS_PER_MS
  }

  // ---- minting: one deadline for invoice and intent ----

  // The intent's deadline: the invoice's, but never past the window of its own mint.
  function IntentDeadline(invoiceExpiresAt: nat, mintedNs: nat): nat {
    var cap := mintedNs + PAYMENT_WINDOW_MS * NS_PER_MS;
    ToStored(if invoiceExpiresAt * NS_PER_MS <= cap then invoiceExpiresAt * NS_PER_MS else cap)
  }

  // The intent's deadline is the sooner of the invoice's and fifteen minutes from its
  // own mint; minted after the invoice, it ends up with the invoice's own.
  lemma OneDeadline(invoiceNs: nat, intentNs: nat, deadline: nat)
    ensures IntentDeadline(deadline, intentNs)
         == if deadline <= intentNs / 1_000_000 + 900_000 then deadline else intentNs / 1_000_000 + 900_000
    ensures var stored := ToStored(invoiceNs + PAYMENT_WINDOW_MS * NS_PER_MS);
      && stored == invoiceNs / 1_000_000 + 900_000
      && (invoiceNs <= intentNs ==> IntentDeadline(stored, intentNs) == stored)
  {
  }

  // ---- the statements of `expire_invoice` ----

  // Marks an open invoice expired.
  function ExpireInvoiceRow(db: Db): Db {
    if db.invoice == Open then db.(invoice := Expired) else db
  }

  function ExpireIntentRow(db: Db): Db {
    if db.intent.txId.Some? then db
    else
      var covenant := if db.intent.covenant in {Pending, AwaitingFunding} then CovenantExpired else db.intent.covenant;
      var failure := if db.intent.failure.Some? then db.intent.failure else Some(WindowExpired);
      db.(intent := db.intent.(status := IntentExpired, covenant := covenant, failure := failure))
  }

  function ExpireCycleRow(db: Db, now: nat): Db {
    match db.cycle
    case Some(c) =>
      if c.status == CyclePaid then db
      else db.(cycle := Some(Cycle(PastDue, if c.pastDueAt.Some? then c.pastDueAt else Some(now))))
    case None => db
  }

  predicate TimelySubmission(db: Db) {
    db.intent.txId.Some? && db.intent.submittedAt.Some? && db.intent.submittedAt.value <= db.intent.expiresAt
  }

  function RestoreInvoiceRow(db: Db): Db {
    if db.invoice == Expired then db.(invoice := Open) else db
  }

  function RestoreIntentRow(db: Db): Db {
    if db.intent.txId.None? then db
    else
      var covenant := if db.intent.covenant == CovenantExpired then AwaitingFunding else db.intent.covenant;
      var failure := if db.intent.failure == Some(WindowExpired) then None else db.intent.failure;
      db.(intent := db.intent.(status := Submitted, covenant := covenant, failure := failure))
  }

  function RestoreCycleRow(db: Db): Db {
    match db.cycle
    case Some(c) => if c.status == PastDue then db.(cycle := Some(Cycle(Invoiced, None))) else db
    case None => db
  }

  // ---- the statements of a wallet submission ----

  datatype Submission = Submission(receivedNs: nat, txId: Option<string>, hasSigned: bool, entitled: bool)

  predicate ArrivedInTime(req: Submission, deadline: nat) {
    req.receivedNs <= deadline * NS_PER_MS
  }

  datatype Refusal = InvoiceNotOpen | StoreNotEntitled | WindowOver | NotAccepting | ProofRequired | AlreadySubmitted | RelayFailed

  datatype Decision = Refuse(refusal: Refusal) | ExpireFirst | Proceed(txId: string)

  // The checks between reading the rows and claiming the transaction id.
  function Decide(req: Submission, invoice: InvoiceStatus, intent: Intent): Decision {
    var inTime := ArrivedInTime(req, intent.expiresAt);
    if invoice != Open && !(invoice == Expired && inTime) then Refuse(InvoiceNotOpen)
    else if !req.entitled then Refuse(StoreNotEntitled)
    else if !inTime then ExpireFirst
    else if intent.status !in {Created, Fetched, Submitted} && intent.status != IntentExpired then Refuse(NotAccepting)
    else if req.txId.None? && !req.hasSigned then Refuse(ProofRequired)
    else if intent.txId.Some? && (req.hasSigned || (req.txId.Some? && req.txId != intent.txId)) then Refuse(AlreadySubmitted)
    else if req.hasSigned then Refuse(RelayFailed)
    else Proceed(req.txId.value)
  }

  // The guard of the UPDATE that claims the transaction id.
  predicate MayClaim(db: Db, txId: string, at: nat) {
    && (db.intent.status in {Created, Fetched, Submitted} || (db.intent.status == IntentExpired && at <= db.intent.expiresAt))
    && (db.intent.txId.None? || db.intent.txId == Some(txId))
  }

  function ClaimRow(db: Db, txId: string, at: nat): Db {
    if MayClaim(db, txId, at) then
      var submittedAt := if db.intent.submittedAt.Some? then db.intent.submittedAt else Some(at);
      db.(intent := db.intent.(status := Submitted, txId := Some(txId), submittedAt := submittedAt))
    else db
  }

  function ReopenInvoiceRow(db: Db, at: nat): Db {
    if db.invoice == Expired && db.invoiceExpiresAt >= at then db.(invoice := Open) else db
  }

  // ---- processes ----

  datatype Outcome = ExpiryRan(expired: bool) | Refused(refusal: Refusal) | Accepted(txId: string) | Errored

  // The statement a process runs next.
  datatype Pc = ReadInvoice | ReadIntent(seen: InvoiceStatus) | Claim(txId: string) | ReadExisting
              | ReopenInvoice(txId: string) | ReopenCycle(txId: string) | LoadResult(txId: string)
              | Scan | ExpireInvoice | ExpireIntent | ExpireCycle | CheckTimely
              | RestoreInvoice | RestoreIntent | RestoreCycle
              | Finished(outcome: Outcome)

  // `wonExpiry` remembers whether this process's first expiry statement hit the row.
  datatype Proc = Submitter(req: Submission, now: nat, wonExpiry: bool, pc: Pc)
                | Expirer(now: nat, wonExpiry: bool, pc: Pc)

  function AfterExpiry(p: Proc, restored: bool): Outcome {
    if p.Submitter? then Refused(WindowOver) else ExpiryRan(p.wonExpiry && !restored)
  }

  predicate IsSubmitterPc(pc: Pc) {
    pc.ReadInvoice? || pc.ReadIntent? || pc.Claim? || pc.ReadExisting? || pc.ReopenInvoice? || pc.ReopenCycle? || pc.LoadResult?
  }

  predicate WellFormed(p: Proc) {
    IsSubmitterPc(p.pc) ==> p.Submitter?
  }

  // One statement of one process.
  function Step(db: Db, p: Proc): (r: (Db, Proc))
    requires WellFormed(p)
    ensures WellFormed(r.1)
  {
    match p.pc
    case ReadInvoice => (db, p.(pc := ReadIntent(db.invoice)))
    case ReadIntent(seen) =>
      (match Decide(p.req, seen, db.intent)
       case Refuse(why) => (db, p.(pc := Finished(Refused(why))))
       case ExpireFirst => (db, p.(pc := ExpireInvoice))
       case Proceed(txId) => (db, p.(pc := Claim(txId))))
    case Claim(txId) =>
      var at := ToStored(p.req.receivedNs);
      if MayClaim(db, txId, at) then (ClaimRow(db, txId, at), p.(pc := ReopenInvoice(txId)))
      else (db, p.(pc := ReadExisting))
    case ReadExisting => (db, p.(pc := Finished(Refused(AlreadySubmitted))))
    case ReopenInvoice(txId) => (ReopenInvoiceRow(db, ToStored(p.req.receivedNs)), p.(pc := ReopenCycle(txId)))
    case ReopenCycle(txId) => (RestoreCycleRow(db), p.(pc := LoadResult(txId)))
    case LoadResult(txId) => (db, p.(pc := Finished(Accepted(txId))))
    case Scan =>
      if db.invoice == Open && db.invoiceExpiresAt <= p.now && !TimelySubmission(db) then (db, p.(pc := ExpireInvoice))
      else (db, p.(pc := Finished(ExpiryRan(false))))
    case ExpireInvoice => (ExpireInvoiceRow(db), p.(wonExpiry := db.invoice == Open, pc := ExpireIntent))
    case ExpireIntent => (ExpireIntentRow(db), p.(pc := ExpireCycle))
    case ExpireCycle => (ExpireCycleRow(db, p.now), p.(pc := CheckTimely))
    case CheckTimely =>
      if TimelySubmission(db) then (db, p.(pc := RestoreInvoice)) else (db, p.(pc := Finished(AfterExpiry(p, false))))
    case RestoreInvoice => (RestoreInvoiceRow(db), p.(pc := RestoreIntent))
    case RestoreIntent => (RestoreIntentRow(db), p.(pc := RestoreCycle))
    case RestoreCycle => (RestoreCycleRow(db), p.(pc := Finished(AfterExpiry(p, true))))
    case Finished(_) => (db, p)
  }

  // How many statements a process can still run.
  function StepsLeft(pc: Pc): nat {
    match pc
    case Finished(_) => 0
    case RestoreCycle => 1 case RestoreIntent => 2 case RestoreInvoice => 3 case CheckTimely => 4
    case ExpireCycle => 5 case ExpireIntent => 6 case ExpireInvoice => 7 case Scan => 8
    case LoadResult(_) => 1 case ReopenCycle(_) => 2 case ReopenInvoice(_) => 3 case ReadExisting => 1 case Claim(_) => 4
    case ReadIntent(_) => 8 case ReadInvoice => 9
  }

  // Every statement brings its process closer to its end, whatever the rows hold.
  lemma StepsRunOut(db: Db, p: Proc)
    requires WellFormed(p) && !p.pc.Finished?
    ensures StepsLeft(Step(db, p).1.pc) < StepsLeft(p.pc)
  {
  }

  // A process running with nothing in between.
  function RunAlone(db: Db, p: Proc): (Db, Outcome)
    requires WellFormed(p)
    decreases StepsLeft(p.pc)
  {
    if p.pc.Finished? then (db, p.pc.outcome)
    else
      StepsRunOut(db, p);
      RunAlone(Step(db, p).0, Step(db, p).1)
  }

  // ---- the handlers, statement by statement ----

  class PaymentTables {
    var invoiceStatus: InvoiceStatus
    var invoiceExpiresAt: nat
    var intent: Intent
    var cycle: Option<Cycle>

    constructor (db: Db)
      ensures Rows() == db
    {
      invoiceStatus, invoiceExpiresAt, intent, cycle := db.invoice, db.invoiceExpiresAt, db.intent, db.cycle;
    }

    function Rows(): Db
      reads this
    {
      Db(invoiceStatus, invoiceExpiresAt, intent, cycle)
    }

    // One UPDATE each; the row counts are what the callers look at.

    method MarkInvoiceExpired() returns (hit: bool)
      modifies this`invoiceStatus
      ensures hit == (old(invoiceStatus) == Open) && invoiceStatus == if hit then Expired else old(invoiceStatus)
      ensures Rows() == ExpireInvoiceRow(old(Rows()))
    {
      hit := invoiceStatus == Open;
      if hit {
        invoiceStatus := Expired;
      }
    }

    method MarkIntentExpired()
      modifies this`intent
      ensures Rows() == ExpireIntentRow(old(Rows()))
    {
      if intent.txId.None? {
        var covenant := if intent.covenant == Pending || intent.covenant == AwaitingFunding then CovenantExpired else intent.covenant;
        var failure := if intent.failure.Some? then intent.failure else Some(WindowExpired);
        intent := intent.(status := IntentExpired, covenant := covenant, failure := failure);
      }
    }

    method MarkCyclePastDue(now: nat)
      modifies this`cycle
      ensures Rows() == ExpireCycleRow(old(Rows()), now)
    {
      if cycle.Some? && cycle.value.status != CyclePaid {
        cycle := Some(Cycle(PastDue, if cycle.value.pastDueAt.Some? then cycle.value.pastDueAt else Some(now)));
      }
    }

    method RestoreInvoiceStatus()
      modifies this`invoiceStatus
      ensures Rows() == RestoreInvoiceRow(old(Rows()))
    {
      if invoiceStatus == Expired {
        invoiceStatus := Open;
      }
    }

    method RestoreIntentStatus()
      modifies this`intent
      ensures Rows() == RestoreIntentRow(old(Rows()))
    {
      if intent.txId.Some? {
        var covenant := if intent.covenant == CovenantExpired then AwaitingFunding else intent.covenant;
        var failure := if intent.failure == Some(WindowExpired) then None else intent.failure;
        intent := intent.(status := Submitted, covenant := covenant, failure := failure);
      }
    }

    method RestoreCycleStatus()
      modifies this`cycle
      ensures Rows() == RestoreCycleRow(old(Rows()))
    {
      if cycle.Some? && cycle.value.status == PastDue {
        cycle := Some(Cycle(Invoiced, None));
      }
    }

    method ClaimTransaction(txId: string, at: nat) returns (claimed: bool)
      modifies this`intent
      ensures Rows() == ClaimRow(old(Rows()), txId, at) && claimed == MayClaim(old(Rows()), txId, at)
    {
      claimed := (intent.status == Created || intent.status == Fetched || intent.status == Submitted
                  || (intent.status == IntentExpired && at <= intent.expiresAt))
                 && (intent.txId.None? || intent.txId == Some(txId));
      if claimed {
        intent := intent.(status := Submitted, txId := Some(txId),
                          submittedAt := if intent.submittedAt.Some? then intent.submittedAt else Some(at));
      }
    }

    method ReopenTimelyInvoice(at: nat)
      modifies this`invoiceStatus
      ensures Rows() == ReopenInvoiceRow(old(Rows()), at)
    {
      if invoiceStatus == Expired && invoiceExpiresAt >= at {
        invoiceStatus := Open;
      }
    }

    // The read-back of `expire_invoice`: reconcile in favour of a timely submission.
    method Reconcile(won: bool, ghost p: Proc) returns (expired: bool)
      requires p.pc == CheckTimely && p.wonExpiry == won
      modifies this`invoiceStatus, this`intent, this`cycle
      ensures RunAlone(old(Rows()), p) == (Rows(), if p.Submitter? then Refused(WindowOver) else ExpiryRan(expired))
    {
      ghost var q := Step(Rows(), p).1;
      if intent.txId.Some? && intent.submittedAt.Some? && intent.submittedAt.value <= intent.expiresAt {
        ghost var goal := RunAlone(Rows(), q);
        RestoreInvoiceStatus();
        q := q.(pc := RestoreIntent);
        assert RunAlone(Rows(), q) == goal;
        RestoreIntentStatus();
        q := q.(pc := RestoreCycle);
        assert RunAlone(Rows(), q) == goal;
        RestoreCycleStatus();
        assert RunAlone(Rows(), q.(pc := Finished(AfterExpiry(q, true)))) == goal;
        return false;
      }
      return won;
    }

    // `expire_invoice` on behalf of process `p`, left to itself.
    method ExpireInvoiceNow(now: nat, ghost p: Proc) returns (expired: bool)
      requires p.pc == ExpireInvoice && p.now == now
      modifies this`invoiceStatus, this`intent, this`cycle
      ensures RunAlone(old(Rows()), p) == (Rows(), if p.Submitter? then Refused(WindowOver) else ExpiryRan(expired))
    {
      ghost var goal := RunAlone(Rows(), p);
      var won := MarkInvoiceExpired();
      ghost var q := p.(wonExpiry := won, pc := ExpireIntent);
      assert RunAlone(Rows(), q) == goal;
      MarkIntentExpired();
      q := q.(pc := ExpireCycle);
      assert RunAlone(Rows(), q) == goal;
      MarkCyclePastDue(now);
      q := q.(pc := CheckTimely);
      assert RunAlone(Rows(), q) == goal;
      expired := Reconcile(won, q);
    }

    // One pass of the expirer over this invoice, left to itself.
    method ExpireIfDue(now: nat) returns (expired: bool)
      modifies this`invoiceStatus, this`intent, this`cycle
      ensures RunAlone(old(Rows()), Expirer(now, false, Scan)) == (Rows(), ExpiryRan(expired))
      ensures expired ==> old(invoiceStatus) == Open && invoiceStatus == Expired && old(invoiceExpiresAt) <= now
      ensures !expired ==> Rows() == old(Rows())
    {
      PassExpiresExactly(Rows(), now);
      ghost var goal := RunAlone(Rows(), Expirer(now, false, Scan));
      var timely := intent.txId.Some? && intent.submittedAt.Some? && intent.submittedAt.value <= intent.expiresAt;
      if invoiceStatus != Open || invoiceExpiresAt > now || timely {
        assert RunAlone(Rows(), Expirer(now, false, Finished(ExpiryRan(false)))) == goal;
        return false;
      }
      assert RunAlone(Rows(), Expirer(now, false, ExpireInvoice)) == goal;
      expired := ExpireInvoiceNow(now, Expirer(now, false, ExpireInvoice));
    }

    // The writing half of a submission, from whatever rows other processes have
    // left since its checks.
    method WriteSubmission(req: Submission, txId: string, ghost p: Proc) returns (outcome: Outcome)
      requires p.Submitter? && p.req == req && p.pc == Claim(txId)
      modifies this`invoiceStatus, this`intent, this`cycle
      ensures RunAlone(old(Rows()), p) == (Rows(), outcome)
    {
      ghost var goal := RunAlone(Rows(), p);
      var at := ToStored(req.receivedNs);
      var claimed := ClaimTransaction(txId, at);
      if !claimed {
        assert RunAlone(Rows(), p.(pc := ReadExisting)) == goal;
        assert RunAlone(Rows(), p.(pc := Finished(Refused(AlreadySubmitted)))) == goal;
        return Refused(AlreadySubmitted);
      }
      ghost var q := p.(pc := ReopenInvoice(txId));
      assert RunAlone(Rows(), q) == goal;
      ReopenTimelyInvoice(at);
      q := q.(pc := ReopenCycle(txId));
      assert RunAlone(Rows(), q) == goal;
      RestoreCycleStatus();
      q := q.(pc := LoadResult(txId));
      assert RunAlone(Rows(), q) == goal;
      outcome := Accepted(txId);
      assert RunAlone(Rows(), q.(pc := Finished(outcome))) == goal;
    }

    // A wallet submission, left to itself. `now` is the clock its late path expires with.
    method SubmitPayment(req: Submission, now: nat) returns (outcome: Outcome)
      modifies this`invoiceStatus, this`intent, this`cycle
      ensures RunAlone(old(Rows()), Submitter(req, now, false, ReadInvoice)) == (Rows(), outcome)
    {
      ghost var p := Submitter(req, now, false, ReadInvoice);
      ghost var goal := RunAlone(Rows(), p);
      var seen := invoiceStatus;
      p := p.(pc := ReadIntent(seen));
      assert RunAlone(Rows(), p) == goal;
      var decision := Decide(req, seen, intent);
      match decision
      case Refuse(why) =>
        assert RunAlone(Rows(), p.(pc := Finished(Refused(why)))) == goal;
        return Refused(why);
      case ExpireFirst =>
        var _ := ExpireInvoiceNow(now, p.(pc := ExpireInvoice));
        return Refused(WindowOver);
      case Proceed(txId) =>
        outcome := WriteSubmission(req, txId, p.(pc := Claim(txId)));
    }
  }

  // ---- interleavings ----

  datatype State = State(db: Db, procs: seq<Proc>)

  // A process arrives, process `i` runs its next statement, or that statement errors
  // out and ends the process. An expiry on behalf of a finalize or a listing starts
  // once its caller has found the deadline over.
  datatype Event = SubmissionArrives(req: Submission, now: nat) | ScannerStarts(now: nat) | ExpiryStarts(now: nat)
                 | Runs(i: nat) | Fails(i: nat)

  predicate AllWellFormed(s: State) {
    forall i :: 0 <= i < |s.procs| ==> WellFormed(s.procs[i])
  }

  function Apply(s: State, e: Event): (t: State)
    requires AllWellFormed(s)
    ensures AllWellFormed(t)
  {
    match e
    case SubmissionArrives(req, now) => s.(procs := s.procs + [Submitter(req, now, false, ReadInvoice)])
    case ScannerStarts(now) => s.(procs := s.procs + [Expirer(now, false, Scan)])
    case ExpiryStarts(now) =>
      if s.db.invoiceExpiresAt <= now || s.db.intent.expiresAt <= now then s.(procs := s.procs + [Expirer(now, false, ExpireInvoice)]) else s
    case Runs(i) =>
      if i < |s.procs| then
        var (db, p) := Step(s.db, s.procs[i]);
        State(db, s.procs[i := p])
      else s
    case Fails(i) =>
      if i < |s.procs| && !s.procs[i].pc.Finished? then s.(procs := s.procs[i := s.procs[i].(pc := Finished(Errored))]) else s
  }

  // The state after any sequence of events, in any order.
  function Run(s: State, events: seq<Event>): (t: State)
    requires AllWellFormed(s)
    ensures AllWellFormed(t)
    decreases |events|
  {
    if events == [] then s else Run(Apply(s, events[0]), events[1..])
  }

  // A freshly minted, unpaid invoice.
  predicate Initial(s: State) {
    && s.procs == [] && s.db.invoice == Open
    && s.db.invoiceExpiresAt == s.db.intent.expiresAt
    && s.db.intent.status in {Created, Fetched} && s.db.intent.txId.None? && s.db.intent.submittedAt.None?
    && (s.db.cycle.Some? ==> s.db.cycle.value == Cycle(Invoiced, None))
  }

  predicate AllFinished(s: State) {
    forall i :: 0 <= i < |s.procs| ==> s.procs[i].pc.Finished?
  }

  // ---- the invariant ----

  // What a process knows, given the rows.
  predicate ProcKnows(db: Db, p: Proc) {
    && WellFormed(p)
    && (p.pc.Claim? ==> ToStored(p.req.receivedNs) <= db.intent.expiresAt)
    && (p.pc.ReopenInvoice? ==> ToStored(p.req.receivedNs) <= db.intent.expiresAt)
    && (p.pc.ReopenInvoice? || p.pc.ReopenCycle? || p.pc.LoadResult? ==> db.intent.txId == Some(p.pc.txId))
    && (p.pc in {RestoreInvoice, RestoreIntent, RestoreCycle} ==> db.intent.txId.Some?)
    && (p.pc.Finished? && p.pc.outcome.Accepted? ==> db.intent.txId == Some(p.pc.outcome.txId))
  }

  predicate RowsSound(db: Db) {
    && db.invoice in {Open, Expired}
    && db.invoiceExpiresAt == db.intent.expiresAt
    && db.intent.status in {Created, Fetched, Submitted, IntentExpired}
    && (db.intent.txId.Some? <==> db.intent.submittedAt.Some?)
    && (db.intent.txId.Some? ==> db.intent.status == Submitted && db.intent.submittedAt.value <= db.intent.expiresAt)
    && (db.cycle.Some? ==> db.cycle.value.status in {Invoiced, PastDue} && (db.cycle.value.status == Invoiced ==> db.cycle.value.pastDueAt.None?))
  }

  predicate Inv(s: State) {
    RowsSound(s.db) && forall i :: 0 <= i < |s.procs| ==> ProcKnows(s.db, s.procs[i])
  }

  lemma SubmissionKeepsRows(db: Db, p: Proc)
    requires RowsSound(db) && ProcKnows(db, p) && IsSubmitterPc(p.pc)
    ensures RowsSound(Step(db, p).0) && ProcKnows(Step(db, p).0, Step(db, p).1)
    ensures Step(db, p).0.intent.expiresAt == db.intent.expiresAt
    ensures db.intent.txId.Some? ==>
      Step(db, p).0.intent.txId == db.intent.txId && Step(db, p).0.intent.submittedAt == db.intent.submittedAt
  {
  }

  lemma ExpiryKeepsRows(db: Db, p: Proc)
    requires RowsSound(db) && ProcKnows(db, p) && !IsSubmitterPc(p.pc)
    ensures RowsSound(Step(db, p).0) && ProcKnows(Step(db, p).0, Step(db, p).1)
    ensures Step(db, p).0.intent.expiresAt == db.intent.expiresAt
    ensures db.intent.txId.Some? ==>
      Step(db, p).0.intent.txId == db.intent.txId && Step(db, p).0.intent.submittedAt == db.intent.submittedAt
  {
  }

  lemma StepKeepsRows(db: Db, p: Proc)
    requires RowsSound(db) && ProcKnows(db, p)
    ensures RowsSound(Step(db, p).0) && ProcKnows(Step(db, p).0, Step(db, p).1)
    ensures Step(db, p).0.intent.expiresAt == db.intent.expiresAt
    ensures db.intent.txId.Some? ==>
      Step(db, p).0.intent.txId == db.intent.txId && Step(db, p).0.intent.submittedAt == db.intent.submittedAt
  {
    if IsSubmitterPc(p.pc) {
      SubmissionKeepsRows(db, p);
    } else {
      ExpiryKeepsRows(db, p);
    }
  }

  lemma OthersKeepKnowledge(db: Db, next: Db, p: Proc)
    requires ProcKnows(db, p) && next.intent.expiresAt == db.intent.expiresAt
    requires db.intent.txId.Some? ==> next.intent.txId == db.intent.txId
    ensures ProcKnows(next, p)
  {
  }

  lemma ApplyKeepsInv(s: State, e: Event)
    requires Inv(s)
    ensures AllWellFormed(s) && Inv(Apply(s, e))
  {
    var t := Apply(s, e);
    if e.Runs? && e.i < |s.procs| {
      StepKeepsRows(s.db, s.procs[e.i]);
      forall j | 0 <= j < |t.procs| ensures ProcKnows(t.db, t.procs[j]) {
        if j != e.i {
          OthersKeepKnowledge(s.db, t.db, s.procs[j]);
        }
      }
    }
  }

  lemma {:induction false} RunKeepsInv(s: State, events: seq<Event>)
    requires Inv(s)
    ensures AllWellFormed(s) && Inv(Run(s, events))
    decreases |events|
  {
    if events != [] {
      ApplyKeepsInv(s, events[0]);
      RunKeepsInv(Apply(s, events[0]), events[1..]);
    }
  }

  // ---- duties ----

  // What has to be put right once a transaction is on record: an expired invoice
  // reopened, a past-due cycle put back, a retired covenant revived.
  datatype Duty = OpenInvoice | InvoiceCycle | ReviveCovenant

  predicate Owes(db: Db, duty: Duty) {
    && db.intent.txId.Some?
    && match duty
       case OpenInvoice => db.invoice == Expired
       case InvoiceCycle => db.cycle.Some? && db.cycle.value.status == PastDue
       case ReviveCovenant => db.intent.covenant == CovenantExpired
  }

  // The process is bound to do it, unless a statement of its fails.
  predicate Bound(p: Proc, duty: Duty) {
    match duty
    case OpenInvoice => p.pc.ReopenInvoice? || p.pc in {ExpireIntent, ExpireCycle, CheckTimely, RestoreInvoice}
    case InvoiceCycle =>
      p.pc.ReopenInvoice? || p.pc.ReopenCycle? || p.pc in {CheckTimely, RestoreInvoice, RestoreIntent, RestoreCycle}
    case ReviveCovenant => p.pc in {ExpireInvoice, ExpireIntent, ExpireCycle, CheckTimely, RestoreInvoice, RestoreIntent}
  }

  predicate AnyBound(procs: seq<Proc>, duty: Duty) {
    exists i :: 0 <= i < |procs| && Bound(procs[i], duty)
  }

  // A duty that is owed has someone bound to it.
  predicate Met(s: State, duty: Duty) {
    Owes(s.db, duty) ==> AnyBound(s.procs, duty)
  }

  // A claim that finds the covenant already retired.
  predicate ClaimsRetired(db: Db, p: Proc)
    requires WellFormed(p)
  {
    p.pc.Claim? && db.intent.txId.None? && db.intent.covenant == CovenantExpired && Step(db, p).0.intent.txId.Some?
  }

  // The event leaves a duty to nobody: the last process bound to it fails, or, for
  // the covenant, a claim finds it retired with no expiry under way.
  predicate Strands(s: State, e: Event, duty: Duty)
    requires AllWellFormed(s)
  {
    || (e.Fails? && e.i < |s.procs| && Owes(s.db, duty) && Bound(s.procs[e.i], duty) && !AnyBound(Apply(s, e).procs, duty))
    || (duty == ReviveCovenant && e.Runs? && e.i < |s.procs| && ClaimsRetired(s.db, s.procs[e.i]) && !AnyBound(s.procs, duty))
  }

  predicate NeverBound(s: State, events: seq<Event>, duty: Duty)
    requires AllWellFormed(s)
    decreases |events|
  {
    !AnyBound(s.procs, duty) && (events == [] || NeverBound(Apply(s, events[0]), events[1..], duty))
  }

  // Some event of the run leaves the duty to nobody, and nobody is bound to it after.
  predicate Stranded(s: State, events: seq<Event>, duty: Duty)
    requires AllWellFormed(s)
    decreases |events|
  {
    events != [] &&
    ((Strands(s, events[0], duty) && NeverBound(Apply(s, events[0]), events[1..], duty))
     || Stranded(Apply(s, events[0]), events[1..], duty))
  }

  // A statement that makes a duty arise binds its process, claims of retired
  // covenants aside; only a bound process does away with one.
  lemma StepKeepsDuty(db: Db, p: Proc, duty: Duty)
    requires RowsSound(db) && ProcKnows(db, p)
    ensures var (next, q) := Step(db, p);
      && (Owes(next, duty) ==>
            || Bound(q, duty) || (Owes(db, duty) && !Bound(p, duty))
            || (duty == ReviveCovenant && ClaimsRetired(db, p)))
      && (Owes(db, duty) && !Owes(next, duty) ==> Bound(p, duty))
  {
  }

  lemma RunsKeepsMet(s: State, i: nat, duty: Duty)
    requires Inv(s) && i < |s.procs|
    ensures AllWellFormed(s)
    ensures Met(s, duty) && !Strands(s, Runs(i), duty) ==> Met(Apply(s, Runs(i)), duty)
  {
    var t := Apply(s, Runs(i));
    StepKeepsDuty(s.db, s.procs[i], duty);
    forall j | 0 <= j < |s.procs| && j != i && Bound(s.procs[j], duty) ensures AnyBound(t.procs, duty) {
      assert Bound(t.procs[j], duty);
    }
    if Bound(t.procs[i], duty) {
      assert AnyBound(t.procs, duty);
    }
  }

  lemma ApplyKeepsMet(s: State, e: Event, duty: Duty)
    requires Inv(s) && Met(s, duty)
    ensures AllWellFormed(s)
    ensures !Strands(s, e, duty) ==> Met(Apply(s, e), duty)
  {
    if e.Runs? {
      if e.i < |s.procs| {
        RunsKeepsMet(s, e.i, duty);
      }
    } else if Owes(s.db, duty) {
      var t := Apply(s, e);
      var j :| 0 <= j < |s.procs| && Bound(s.procs[j], duty);
      if t.procs[j] == s.procs[j] {
        assert Bound(t.procs[j], duty);
      }
    }
  }

  lemma StrandingUnmeets(s: State, e: Event, duty: Duty)
    requires Inv(s) && AllWellFormed(s) && Strands(s, e, duty)
    ensures !Met(Apply(s, e), duty)
  {
    var t := Apply(s, e);
    if e.Runs? {
      forall j | 0 <= j < |t.procs| ensures !Bound(t.procs[j], duty) {
        assert j != e.i ==> t.procs[j] == s.procs[j];
      }
    }
  }

  // Without anyone bound to it, an owed duty stays owed.
  lemma UnmetStaysOwed(s: State, e: Event, duty: Duty)
    requires Inv(s) && !Met(s, duty)
    ensures AllWellFormed(s) && Owes(Apply(s, e).db, duty)
  {
    if e.Runs? && e.i < |s.procs| {
      StepKeepsDuty(s.db, s.procs[e.i], duty);
    }
  }

  lemma {:induction false} StrandedTracksDuty(s: State, events: seq<Event>, duty: Duty)
    requires Inv(s)
    ensures AllWellFormed(s)
    ensures !Met(Run(s, events), duty) <==> Stranded(s, events, duty) || (!Met(s, duty) && NeverBound(s, events, duty))
    decreases |events|
  {
    if events != [] {
      var t := Apply(s, events[0]);
      ApplyKeepsInv(s, events[0]);
      StrandedTracksDuty(t, events[1..], duty);
      if Met(s, duty) {
        ApplyKeepsMet(s, events[0], duty);
      } else {
        UnmetStaysOwed(s, events[0], duty);
      }
      if Strands(s, events[0], duty) {
        StrandingUnmeets(s, events[0], duty);
      }
    }
  }

  // ---- the results ----

  // At every moment of every run, a duty is owed with nobody bound to it exactly when
  // the run has stranded it; otherwise an expired invoice beside a recorded
  // transaction has a process on its way to reopen it.
  lemma DutyHasHolder(s: State, events: seq<Event>, duty: Duty)
    requires Initial(s)
    ensures Met(Run(s, events), duty) <==> !Stranded(s, events, duty)
  {
    StrandedTracksDuty(s, events, duty);
  }

  // However submissions, expiries and errors interleave, once every process has
  // finished and a submission is on record: the intent is submitted, and invoice and
  // cycle are alive exactly unless the last process bound to put them right failed.
  lemma TimelySubmissionWins(s: State, events: seq<Event>)
    requires Initial(s) && AllFinished(Run(s, events)) && Run(s, events).db.intent.txId.Some?
    ensures var db := Run(s, events).db;
      && db.intent.status == Submitted
      && (db.invoice == Open <==> !Stranded(s, events, OpenInvoice))
      && (db.cycle.Some? ==> (db.cycle.value == Cycle(Invoiced, None) <==> !Stranded(s, events, InvoiceCycle)))
  {
    RunKeepsInv(s, events);
    DutyHasHolder(s, events, OpenInvoice);
    DutyHasHolder(s, events, InvoiceCycle);
  }

  predicate AnyFails(events: seq<Event>) {
    exists k :: 0 <= k < |events| && events[k].Fails?
  }

  lemma {:induction false} NothingStrandsWithoutFailure(s: State, events: seq<Event>, duty: Duty)
    requires AllWellFormed(s) && !AnyFails(events) && duty != ReviveCovenant
    ensures !Stranded(s, events, duty)
    decreases |events|
  {
    if events != [] {
      assert !events[0].Fails?;
      forall k | 0 <= k < |events[1..]| ensures !events[1..][k].Fails? {
        assert events[1..][k] == events[k + 1];
      }
      NothingStrandsWithoutFailure(Apply(s, events[0]), events[1..], duty);
    }
  }

  // In particular, where no statement errors out, a timely payment is alive in the
  // end: invoice open, intent submitted, cycle invoiced.
  lemma WinsWithoutFailure(s: State, events: seq<Event>)
    requires Initial(s) && !AnyFails(events) && AllFinished(Run(s, events)) && Run(s, events).db.intent.txId.Some?
    ensures var db := Run(s, events).db;
      && db.invoice == Open && db.intent.status == Submitted
      && (db.cycle.Some? ==> db.cycle.value == Cycle(Invoiced, None))
  {
    TimelySubmissionWins(s, events);
    NothingStrandsWithoutFailure(s, events, OpenInvoice);
    NothingStrandsWithoutFailure(s, events, InvoiceCycle);
  }

  // The event retires a covenant: an expiry's intent statement, with no transaction
  // on record yet.
  predicate RetiresAt(s: State, e: Event) {
    && e.Runs? && e.i < |s.procs| && s.procs[e.i].pc == ExpireIntent
    && s.db.intent.txId.None? && s.db.intent.covenant in {Pending, AwaitingFunding}
  }

  predicate EverRetires(s: State, events: seq<Event>)
    requires AllWellFormed(s)
    decreases |events|
  {
    events != [] && (RetiresAt(s, events[0]) || EverRetires(Apply(s, events[0]), events[1..]))
  }

  lemma StepMovesCovenant(s: State, e: Event)
    requires AllWellFormed(s) && s.db.intent.covenant in {Pending, AwaitingFunding, CovenantExpired}
    ensures Apply(s, e).db.intent.covenant in {Pending, AwaitingFunding, CovenantExpired}
    ensures Apply(s, e).db.intent.covenant == Pending <==> s.db.intent.covenant == Pending && !RetiresAt(s, e)
  {
  }

  lemma {:induction false} PendingTracked(s: State, events: seq<Event>)
    requires AllWellFormed(s) && s.db.intent.covenant in {Pending, AwaitingFunding, CovenantExpired}
    ensures var covenant := Run(s, events).db.intent.covenant;
      && covenant in {Pending, AwaitingFunding, CovenantExpired}
      && (covenant == Pending <==> s.db.intent.covenant == Pending && !EverRetires(s, events))
    decreases |events|
  {
    if events != [] {
      StepMovesCovenant(s, events[0]);
      PendingTracked(Apply(s, events[0]), events[1..]);
    }
  }

  // Where the covenant ends once a submission is on record. It is left retired exactly
  // when stranded: claimed for when already retired with no expiry under way or to
  // come, or given up by the last expiry to fail. Otherwise it awaits its funding if it
  // did before or if it was ever retired, finalized or not, and stays pending if neither.
  lemma CovenantRevivedExactly(s: State, events: seq<Event>)
    requires Initial(s) && s.db.intent.covenant in {Pending, AwaitingFunding}
    requires AllFinished(Run(s, events)) && Run(s, events).db.intent.txId.Some?
    ensures var covenant, stranded := Run(s, events).db.intent.covenant, Stranded(s, events, ReviveCovenant);
      && (covenant == CovenantExpired <==> stranded)
      && (covenant == AwaitingFunding <==> !stranded && (s.db.intent.covenant == AwaitingFunding || EverRetires(s, events)))
      && (covenant == Pending <==> s.db.intent.covenant == Pending && !EverRetires(s, events))
  {
    DutyHasHolder(s, events, ReviveCovenant);
    PendingTracked(s, events);
  }

  // Every accepted submission carries the transaction id on record, and what is
  // on record arrived by the signed deadline.
  lemma AcceptedAgree(s: State, events: seq<Event>, i: nat)
    requires Initial(s)
    ensures var end := Run(s, events);
      && (end.db.intent.txId.Some? ==> end.db.intent.submittedAt.Some? && end.db.intent.submittedAt.value <= end.db.intent.expiresAt)
      && (i < |end.procs| && end.procs[i].pc.Finished? && end.procs[i].pc.outcome.Accepted? ==>
            end.db.intent.txId == Some(end.procs[i].pc.outcome.txId))
  {
    RunKeepsInv(s, events);
  }

  // The transaction id and its time of submission are written once.
  lemma {:induction false} SubmissionIsFinal(s: State, events: seq<Event>)
    requires Inv(s) && s.db.intent.txId.Some?
    ensures AllWellFormed(s)
    ensures Run(s, events).db.intent.txId == s.db.intent.txId
    ensures Run(s, events).db.intent.submittedAt == s.db.intent.submittedAt
    decreases |events|
  {
    if events != [] {
      ApplyKeepsInv(s, events[0]);
      if events[0].Runs? && events[0].i < |s.procs| {
        StepKeepsRows(s.db, s.procs[events[0].i]);
      }
      SubmissionIsFinal(Apply(s, events[0]), events[1..]);
    }
  }

  // ---- nothing expires early ----

  // The event can set off an expiry: a scan or an expiry at or past the deadline, or a
  // submission that comes after it.
  predicate MayExpire(e: Event, deadline: nat) {
    match e
    case SubmissionArrives(req, _) => req.receivedNs > deadline * 1_000_000
    case ScannerStarts(now) => deadline <= now
    case ExpiryStarts(now) => deadline <= now
    case _ => false
  }

  predicate EarlyProc(p: Proc, deadline: nat) {
    match p
    case Submitter(req, _, _, pc) => req.receivedNs <= deadline * 1_000_000 && (IsSubmitterPc(pc) || pc.Finished?)
    case Expirer(now, _, pc) => (pc == Scan && now < deadline) || pc.Finished?
  }

  // Nothing has been expired, and nobody is about to.
  predicate Early(s: State, deadline: nat) {
    && s.db.invoice == Open && s.db.invoiceExpiresAt == s.db.intent.expiresAt == deadline
    && s.db.intent.status in {Created, Fetched, Submitted}
    && (s.db.cycle.Some? ==> s.db.cycle.value == Cycle(Invoiced, None))
    && forall i :: 0 <= i < |s.procs| ==> EarlyProc(s.procs[i], deadline)
  }

  lemma ApplyKeepsEarly(s: State, e: Event, deadline: nat)
    requires AllWellFormed(s) && Early(s, deadline) && !MayExpire(e, deadline)
    ensures Early(Apply(s, e), deadline)
    ensures Apply(s, e).db.intent.covenant == s.db.intent.covenant && Apply(s, e).db.cycle == s.db.cycle
  {
    if e.Runs? && e.i < |s.procs| {
      assert EarlyProc(s.procs[e.i], deadline);
    }
  }

  lemma {:induction false} RunKeepsEarly(s: State, events: seq<Event>, deadline: nat)
    requires AllWellFormed(s) && Early(s, deadline)
    requires forall k :: 0 <= k < |events| ==> !MayExpire(events[k], deadline)
    ensures Early(Run(s, events), deadline)
    ensures Run(s, events).db.intent.covenant == s.db.intent.covenant && Run(s, events).db.cycle == s.db.cycle
    decreases |events|
  {
    if events != [] {
      ApplyKeepsEarly(s, events[0], deadline);
      RunKeepsEarly(Apply(s, events[0]), events[1..], deadline);
    }
  }

  // However processes interleave, as long as every scan and expiry starts before the
  // deadline and every submission arrives by it, the invoice stays open, the intent
  // live, and covenant and cycle as they were.
  lemma NothingExpiresEarly(s: State, events: seq<Event>)
    requires Initial(s)
    requires forall k :: 0 <= k < |events| ==> !MayExpire(events[k], s.db.invoiceExpiresAt)
    ensures var db := Run(s, events).db;
      && db.invoice == Open && db.intent.status in {Created, Fetched, Submitted}
      && db.intent.covenant == s.db.intent.covenant && db.cycle == s.db.cycle
  {
    RunKeepsEarly(s, events, s.db.invoiceExpiresAt);
  }

  // The rows an expiry leaves behind. Beside a transaction recorded in time it revives
  // invoice, intent, covenant and cycle; otherwise it closes what is open and unpaid.
  function AfterExpiryRows(db: Db, now: nat): Db {
    var intent := db.intent;
    var unpaid := db.cycle.Some? && db.cycle.value.status != CyclePaid;
    if intent.txId.Some? && intent.submittedAt.Some? && intent.submittedAt.value <= intent.expiresAt then
      Db(if db.invoice == Expired then Open else db.invoice, db.invoiceExpiresAt,
         intent.(status := Submitted,
                 covenant := if intent.covenant == CovenantExpired then AwaitingFunding else intent.covenant,
                 failure := if intent.failure == Some(WindowExpired) then None else intent.failure),
         if unpaid then Some(Cycle(Invoiced, None)) else db.cycle)
    else
      Db(if db.invoice == Open then Expired else db.invoice, db.invoiceExpiresAt,
         if intent.txId.Some? then intent
         else intent.(status := IntentExpired,
                      covenant := if intent.covenant in {Pending, AwaitingFunding} then CovenantExpired else intent.covenant,
                      failure := if intent.failure.None? then Some(WindowExpired) else intent.failure),
         if unpaid then Some(Cycle(PastDue, if db.cycle.value.pastDueAt.None? then Some(now) else db.cycle.value.pastDueAt))
         else db.cycle)
  }

  // The three UPDATEs an expiry opens with.
  function MarkedRows(db: Db, now: nat): Db {
    ExpireCycleRow(ExpireIntentRow(ExpireInvoiceRow(db)), now)
  }

  lemma ExpiryMarks(db: Db, now: nat)
    ensures RunAlone(db, Expirer(now, false, ExpireInvoice)) == RunAlone(MarkedRows(db, now), Expirer(now, db.invoice == Open, CheckTimely))
  {
    var won, db1 := db.invoice == Open, ExpireInvoiceRow(db);
    var db2 := ExpireIntentRow(db1);
    assert RunAlone(db, Expirer(now, false, ExpireInvoice)) == RunAlone(db1, Expirer(now, won, ExpireIntent))
        == RunAlone(db2, Expirer(now, won, ExpireCycle));
    assert RunAlone(db2, Expirer(now, won, ExpireCycle)) == RunAlone(MarkedRows(db, now), Expirer(now, won, CheckTimely));
  }

  lemma MarksSettle(db: Db, now: nat)
    ensures var marked := MarkedRows(db, now);
      && (TimelySubmission(marked) <==> TimelySubmission(db))
      && AfterExpiryRows(db, now)
         == if TimelySubmission(marked) then RestoreCycleRow(RestoreIntentRow(RestoreInvoiceRow(marked))) else marked
  {
  }

  // An expiry of whatever rows leaves exactly these, and answers whether it closed an
  // open invoice.
  lemma ExpiryAlone(db: Db, now: nat)
    ensures var timely := db.intent.txId.Some? && db.intent.submittedAt.Some? && db.intent.submittedAt.value <= db.intent.expiresAt;
      RunAlone(db, Expirer(now, false, ExpireInvoice)) == (AfterExpiryRows(db, now), ExpiryRan(db.invoice == Open && !timely))
  {
    var won, marked := db.invoice == Open, MarkedRows(db, now);
    ExpiryMarks(db, now);
    MarksSettle(db, now);
    if TimelySubmission(marked) {
      assert RunAlone(marked, Expirer(now, won, CheckTimely)) == RunAlone(marked, Expirer(now, won, RestoreInvoice));
      RestoresInTurn(marked, now, won);
    } else {
      assert RunAlone(marked, Expirer(now, won, CheckTimely)) == (marked, ExpiryRan(won));
    }
  }

  // One pass of the expirer over whatever rows expires exactly the open invoices whose
  // deadline has come with no transaction recorded in time, and leaves all others alone.
  lemma PassExpiresExactly(db: Db, now: nat)
    ensures var (after, outcome) := RunAlone(db, Expirer(now, false, Scan));
      var due := db.invoice == Open && db.invoiceExpiresAt <= now
        && !(db.intent.txId.Some? && db.intent.submittedAt.Some? && db.intent.submittedAt.value <= db.intent.expiresAt);
      && outcome == ExpiryRan(due)
      && (due ==> after.invoice == Expired)
      && (!due ==> after == db)
  {
    if db.invoice == Open && db.invoiceExpiresAt <= now && !TimelySubmission(db) {
      assert RunAlone(db, Expirer(now, false, Scan)) == RunAlone(db, Expirer(now, false, ExpireInvoice));
      ExpiryAlone(db, now);
    } else {
      assert RunAlone(db, Expirer(now, false, Scan)) == RunAlone(db, Expirer(now, false, Finished(ExpiryRan(false))));
    }
  }

  // A paid, cancelled or refunded invoice and a paid cycle are out of reach of all this.
  lemma {:induction false} SettledRowsStay(s: State, events: seq<Event>)
    requires AllWellFormed(s)
    ensures s.db.invoice !in {Open, Expired} ==> Run(s, events).db.invoice == s.db.invoice
    ensures s.db.cycle.Some? && s.db.cycle.value.status == CyclePaid ==> Run(s, events).db.cycle == s.db.cycle
    decreases |events|
  {
    if events != [] {
      SettledRowsStay(Apply(s, events[0]), events[1..]);
    }
  }

  // ---- what a process does when nothing interferes ----

  // Expiring an unpaid invoice closes all three rows.
  lemma ExpiryClosesUnpaid(db: Db, now: nat)
    requires db.invoice == Open && db.intent.txId.None?
    ensures var (after, outcome) := RunAlone(db, Expirer(now, false, ExpireInvoice));
      && outcome == ExpiryRan(true)
      && after.invoice == Expired && after.invoiceExpiresAt == db.invoiceExpiresAt
      && after.intent == db.intent.(
           status := IntentExpired,
           covenant := if db.intent.covenant in {Pending, AwaitingFunding} then CovenantExpired else db.intent.covenant,
           failure := if db.intent.failure.None? then Some(WindowExpired) else db.intent.failure)
      && after.cycle == (if db.cycle.None? || db.cycle.value.status == CyclePaid then db.cycle
                         else Some(Cycle(PastDue, if db.cycle.value.pastDueAt.None? then Some(now) else db.cycle.value.pastDueAt)))
  {
    var db1 := ExpireInvoiceRow(db);
    var db2 := ExpireIntentRow(db1);
    var db3 := ExpireCycleRow(db2, now);
    assert RunAlone(db, Expirer(now, false, ExpireInvoice)) == RunAlone(db1, Expirer(now, true, ExpireIntent))
        == RunAlone(db2, Expirer(now, true, ExpireCycle));
    assert RunAlone(db2, Expirer(now, true, ExpireCycle)) == RunAlone(db3, Expirer(now, true, CheckTimely))
        == (db3, ExpiryRan(true));
  }

  // Expiring an invoice whose payment is on record undoes itself: it ends with the
  // rows it started from, a retired covenant brought back.
  lemma ExpirySparesSubmitted(db: Db, now: nat)
    requires RowsSound(db) && db.invoice == Open && TimelySubmission(db)
    requires db.cycle.Some? ==> db.cycle.value.status == Invoiced
    ensures var (after, outcome) := RunAlone(db, Expirer(now, false, ExpireInvoice));
      && outcome == ExpiryRan(false) && after.invoice == Open && after.cycle == db.cycle
      && after.intent == db.intent.(
           covenant := if db.intent.covenant == CovenantExpired then AwaitingFunding else db.intent.covenant,
           failure := if db.intent.failure == Some(WindowExpired) then None else db.intent.failure)
  {
    var db1 := ExpireInvoiceRow(db);
    var db3 := ExpireCycleRow(db1, now);
    assert RunAlone(db, Expirer(now, false, ExpireInvoice)) == RunAlone(db1, Expirer(now, true, ExpireIntent))
        == RunAlone(db1, Expirer(now, true, ExpireCycle));
    assert RunAlone(db1, Expirer(now, true, ExpireCycle)) == RunAlone(db3, Expirer(now, true, CheckTimely))
        == RunAlone(db3, Expirer(now, true, RestoreInvoice));
    RestoresInTurn(db3, now, true);
  }

  lemma RestoresInTurn(db: Db, now: nat, won: bool)
    ensures RunAlone(db, Expirer(now, won, RestoreInvoice)) == (RestoreCycleRow(RestoreIntentRow(RestoreInvoiceRow(db))), ExpiryRan(false))
  {
    var db1 := RestoreInvoiceRow(db);
    var db2 := RestoreIntentRow(db1);
    assert RunAlone(db, Expirer(now, won, RestoreInvoice)) == RunAlone(db1, Expirer(now, won, RestoreIntent))
        == RunAlone(db2, Expirer(now, won, RestoreCycle));
    assert RunAlone(db2, Expirer(now, won, RestoreCycle)) == (RestoreCycleRow(db2), ExpiryRan(false));
  }

  // Exactly the submissions the platform promises to accept: from an entitled
  // store, received by the deadline, with an id that is not in conflict and no
  // signed transaction to relay, for an open or expired invoice.
  lemma AcceptedExactly(db: Db, req: Submission, now: nat, txId: string)
    ensures RunAlone(db, Submitter(req, now, false, ReadInvoice)).1 == Accepted(txId) <==>
      && db.invoice in {Open, Expired} && db.intent.status != OtherStatus
      && req.entitled && req.receivedNs <= db.intent.expiresAt * 1_000_000 && !req.hasSigned
      && req.txId == Some(txId) && (db.intent.txId.None? || db.intent.txId == Some(txId))
  {
    var p := Submitter(req, now, false, ReadInvoice);
    var p1 := p.(pc := ReadIntent(db.invoice));
    assert RunAlone(db, p) == RunAlone(db, p1);
    match Decide(req, db.invoice, db.intent)
    case Refuse(why) =>
      assert RunAlone(db, p1) == RunAlone(db, p1.(pc := Finished(Refused(why))));
    case ExpireFirst =>
      assert RunAlone(db, p1) == RunAlone(db, p1.(pc := ExpireInvoice));
      ExpiryRefuses(db, p1.(pc := ExpireInvoice));
    case Proceed(id) =>
      assert RunAlone(db, p1) == RunAlone(db, p1.(pc := Claim(id)));
      ClaimsExactly(db, p1.(pc := Claim(id)), id);
  }

  // The rows with a transaction on record: the first time of receipt is kept, in
  // milliseconds, and of the covenant nothing changes.
  function Recorded(db: Db, receivedNs: nat, txId: string): Db {
    var at := receivedNs / 1_000_000;
    Db(if db.invoice == Expired && at <= db.invoiceExpiresAt then Open else db.invoice, db.invoiceExpiresAt,
       db.intent.(status := Submitted, txId := Some(txId),
                  submittedAt := if db.intent.submittedAt.Some? then db.intent.submittedAt else Some(at)),
       if db.cycle.Some? && db.cycle.value.status == PastDue then Some(Cycle(Invoiced, None)) else db.cycle)
  }

  // The writing half of a submission, whatever other processes have left: it records
  // the transaction exactly when the intent is live, or expired and the submission in
  // time, and holds no other id; otherwise it leaves the rows alone.
  lemma ClaimsExactly(db: Db, p: Proc, txId: string)
    requires p.Submitter? && p.pc == Claim(txId)
    ensures var claims :=
        && (db.intent.status in {Created, Fetched, Submitted}
            || (db.intent.status == IntentExpired && p.req.receivedNs / 1_000_000 <= db.intent.expiresAt))
        && (db.intent.txId.None? || db.intent.txId == Some(txId));
      RunAlone(db, p) == if claims then (Recorded(db, p.req.receivedNs, txId), Accepted(txId)) else (db, Refused(AlreadySubmitted))
  {
    var (db1, p1) := Step(db, p);
    assert RunAlone(db, p) == RunAlone(db1, p1);
    if p1.pc.ReopenInvoice? {
      var (db2, p2) := Step(db1, p1);
      var (db3, p3) := Step(db2, p2);
      assert RunAlone(db1, p1) == RunAlone(db2, p2) == RunAlone(db3, p3);
      assert RunAlone(db3, p3) == (db3, Accepted(txId));
    } else {
      assert RunAlone(db1, p1) == (db1, Refused(AlreadySubmitted));
    }
  }

  // A submission that finds the invoice already expired revives the invoice and
  // the intent, but never the covenant: its state is what it was before, so a
  // covenant retired by the expiry stays retired.
  lemma RevivalLeavesCovenant(db: Db, req: Submission, now: nat)
    ensures var (after, outcome) := RunAlone(db, Submitter(req, now, false, ReadInvoice));
      outcome.Accepted? ==> after == Recorded(db, req.receivedNs, outcome.txId) && after.intent.covenant == db.intent.covenant
  {
    var p := Submitter(req, now, false, ReadInvoice);
    var p1 := p.(pc := ReadIntent(db.invoice));
    assert RunAlone(db, p) == RunAlone(db, p1);
    match Decide(req, db.invoice, db.intent)
    case Refuse(why) =>
      assert RunAlone(db, p1.(pc := Finished(Refused(why)))) == RunAlone(db, p1);
    case ExpireFirst =>
      assert RunAlone(db, p1) == RunAlone(db, p1.(pc := ExpireInvoice));
      ExpiryRefuses(db, p1.(pc := ExpireInvoice));
    case Proceed(txId) =>
      assert RunAlone(db, p1) == RunAlone(db, p1.(pc := Claim(txId)));
      ClaimsExactly(db, p1.(pc := Claim(txId)), txId);
  }

  // Why a submission is refused, in the handler's order of checks, and what it leaves
  // behind: a late one runs the expiry, any other leaves the rows alone.
  lemma RefusedExactly(db: Db, req: Submission, now: nat)
    ensures var late := req.receivedNs > db.intent.expiresAt * 1_000_000;
      var closed := db.invoice != Open && (db.invoice != Expired || late);
      var heard := !closed && req.entitled && !late && db.intent.status != OtherStatus;
      var (after, outcome) := RunAlone(db, Submitter(req, now, false, ReadInvoice));
      && (outcome == Refused(InvoiceNotOpen) <==> closed)
      && (outcome == Refused(StoreNotEntitled) <==> !closed && !req.entitled)
      && (outcome == Refused(WindowOver) <==> !closed && req.entitled && late)
      && (outcome == Refused(NotAccepting) <==> !closed && req.entitled && !late && db.intent.status == OtherStatus)
      && (outcome == Refused(ProofRequired) <==> heard && req.txId.None? && !req.hasSigned)
      && (outcome == Refused(AlreadySubmitted) <==>
            heard && db.intent.txId.Some? && (req.hasSigned || (req.txId.Some? && req.txId != db.intent.txId)))
      && (outcome == Refused(RelayFailed) <==> heard && db.intent.txId.None? && req.hasSigned)
      && (outcome.Refused? && outcome.refusal != WindowOver ==> after == db)
      && (outcome == Refused(WindowOver) ==> after == RunAlone(db, Expirer(now, false, ExpireInvoice)).0)
  {
    var p := Submitter(req, now, false, ReadInvoice);
    var p1 := p.(pc := ReadIntent(db.invoice));
    assert RunAlone(db, p) == RunAlone(db, p1);
    match Decide(req, db.invoice, db.intent)
    case Refuse(why) =>
      assert RunAlone(db, p1) == RunAlone(db, p1.(pc := Finished(Refused(why))));
    case ExpireFirst =>
      assert RunAlone(db, p1) == RunAlone(db, p1.(pc := ExpireInvoice));
      ExpiryRefuses(db, p1.(pc := ExpireInvoice));
      SameExpiry(db, p1.(pc := ExpireInvoice), Expirer(now, false, ExpireInvoice));
    case Proceed(id) =>
      assert RunAlone(db, p1) == RunAlone(db, p1.(pc := Claim(id)));
      ClaimsExactly(db, p1.(pc := Claim(id)), id);
  }

  // An expiry leaves the same rows whoever runs it.
  lemma {:induction false} SameExpiry(db: Db, p: Proc, q: Proc)
    requires WellFormed(p) && WellFormed(q) && p.pc == q.pc && p.now == q.now
    requires p.pc in {ExpireInvoice, ExpireIntent, ExpireCycle, CheckTimely, RestoreInvoice, RestoreIntent, RestoreCycle}
    ensures RunAlone(db, p).0 == RunAlone(db, q).0
    decreases StepsLeft(p.pc)
  {
    var (next, p') := Step(db, p);
    var (same, q') := Step(db, q);
    if !p'.pc.Finished? {
      SameExpiry(next, p', q');
    }
  }

  // The expiry a late submission runs ends in a refusal.
  lemma {:induction false} ExpiryRefuses(db: Db, p: Proc)
    requires p.Submitter? && p.pc in {ExpireInvoice, ExpireIntent, ExpireCycle, CheckTimely, RestoreInvoice, RestoreIntent, RestoreCycle}
    ensures RunAlone(db, p).1 == Refused(WindowOver)
    decreases StepsLeft(p.pc)
  {
    var (next, q) := Step(db, p);
    if !q.pc.Finished? {
      ExpiryRefuses(next, q);
    }
  }

  // It does happen: a finalized invoice expires, and a submission received in time
  // comes after. It is accepted and reopens the invoice, beside a retired covenant.
  lemma RevivalHappens(db: Db, req: Submission, now: nat, later: nat, txId: string)
    requires Initial(State(db, [])) && db.intent.covenant == AwaitingFunding
    requires req == Submission(req.receivedNs, Some(txId), false, true) && ArrivedInTime(req, db.intent.expiresAt)
    ensures var expired := RunAlone(db, Expirer(now, false, ExpireInvoice)).0;
      var (after, outcome) := RunAlone(expired, Submitter(req, later, false, ReadInvoice));
      && expired.invoice == Expired
      && outcome == Accepted(txId) && after.invoice == Open && after.intent.covenant == CovenantExpired
  {
    ExpiryClosesUnpaid(db, now);
    var expired := RunAlone(db, Expirer(now, false, ExpireInvoice)).0;
    AcceptedExactly(expired, req, later, txId);
    RevivalLeavesCovenant(expired, req, later);
  }

  // ---- one failing statement is enough ----

  lemma RunFirst(s: State, events: seq<Event>) returns (t: State)
    requires AllWellFormed(s) && events != []
    ensures t == Apply(s, events[0]) && AllWellFormed(t) && Run(s, events) == Run(t, events[1..])
  {
    t := Apply(s, events[0]);
  }

  function Repeat(i: nat, n: nat): seq<Event> {
    seq(n, _ => Runs(i))
  }

  // With nothing in between, a process's statements are its run alone.
  lemma {:induction false} RepeatRunsAlone(s: State, i: nat, n: nat)
    requires AllWellFormed(s) && i < |s.procs| && StepsLeft(s.procs[i].pc) <= n
    ensures var (db, outcome) := RunAlone(s.db, s.procs[i]);
      && Run(s, Repeat(i, n)).db == db
      && |Run(s, Repeat(i, n)).procs| == |s.procs|
      && Run(s, Repeat(i, n)).procs[i].pc == Finished(outcome)
      && forall j :: 0 <= j < |s.procs| && j != i ==> Run(s, Repeat(i, n)).procs[j] == s.procs[j]
    decreases n
  {
    if n > 0 {
      assert Repeat(i, n)[1..] == Repeat(i, n - 1);
      var t := RunFirst(s, Repeat(i, n));
      if !s.procs[i].pc.Finished? {
        StepsRunOut(s.db, s.procs[i]);
        assert RunAlone(s.db, s.procs[i]) == RunAlone(t.db, t.procs[i]);
      }
      RepeatRunsAlone(t, i, n - 1);
    }
  }

  // The expirer picks the invoice up and a wallet's submission arrives.
  function ScanFirst(req: Submission, now: nat): seq<Event> {
    [ScannerStarts(now), Runs(0), SubmissionArrives(req, now)]
  }

  // The submission has run to its end beside an expirer that has yet to mark the invoice.
  lemma SubmissionBesideScan(s: State, req: Submission, now: nat, txId: string, n: nat)
    requires Initial(s) && s.db.invoiceExpiresAt <= now
    requires req == Submission(req.receivedNs, Some(txId), false, true) && ArrivedInTime(req, s.db.intent.expiresAt)
    requires n >= 9
    ensures var t := Run(Run(s, ScanFirst(req, now)), Repeat(1, n));
      && |t.procs| == 2 && t.procs[0] == Expirer(now, false, ExpireInvoice) && t.procs[1].pc == Finished(Accepted(txId))
      && t.db.invoice == Open && t.db.intent.txId == Some(txId)
  {
    var events := ScanFirst(req, now);
    var s1 := RunFirst(s, events);
    var s2 := RunFirst(s1, events[1..]);
    var s3 := RunFirst(s2, events[2..]);
    assert s3.procs == [Expirer(now, false, ExpireInvoice), Submitter(req, now, false, ReadInvoice)] && s3.db == s.db;
    RepeatRunsAlone(s3, 1, n);
    AcceptedExactly(s.db, req, now, txId);
    RevivalLeavesCovenant(s.db, req, now);
  }

  lemma MarksAndFails(t: State, now: nat)
    requires |t.procs| == 2 && t.procs[0] == Expirer(now, false, ExpireInvoice) && t.procs[1].pc.Finished?
    requires t.db.invoice == Open
    requires AllWellFormed(t)
    ensures var end := Run(t, [Runs(0), Fails(0)]);
      AllFinished(end) && |end.procs| == 2 && end.procs[1] == t.procs[1] && end.db.invoice == Expired
  {
    var last := [Runs(0), Fails(0)];
    var t1 := RunFirst(t, last);
    assert t1.procs[0].pc == ExpireIntent && t1.db.invoice == Expired;
    var end := RunFirst(t1, last[1..]);
    assert Run(t, last) == end;
  }

  // One failing statement is enough: the expirer marks the invoice and its next
  // statement errors out. Then everything has finished, the submission was accepted,
  // and the invoice stays expired; the next scans pass it over, as it is not open.
  lemma OneFailureStrands(s: State, req: Submission, now: nat, txId: string, n: nat)
    requires Initial(s) && s.db.invoiceExpiresAt <= now
    requires req == Submission(req.receivedNs, Some(txId), false, true) && ArrivedInTime(req, s.db.intent.expiresAt)
    requires n >= 9
    ensures var end := Run(Run(Run(s, ScanFirst(req, now)), Repeat(1, n)), [Runs(0), Fails(0)]);
      AllFinished(end) && |end.procs| == 2 && end.procs[1].pc == Finished(Accepted(txId)) && end.db.invoice == Expired
  {
    var t := Run(Run(s, ScanFirst(req, now)), Repeat(1, n));
    SubmissionBesideScan(s, req, now, txId, n);
    MarksAndFails(t, now);
  }

  // ---- an unfinalized covenant comes to await funding ----

  // An expiry retires the covenant.
  function Retiring(now: nat): seq<Event> {
    [ExpiryStarts(now), Runs(0), Runs(0)]
  }

  // A submission claims behind it; the expiry is still to reconcile.
  function Claiming(req: Submission, now: nat): seq<Event> {
    [SubmissionArrives(req, now), Runs(1), Runs(1), Runs(1)]
  }

  lemma CrossingRetires(s: State, now: nat)
    requires Initial(s) && s.db.intent.covenant == Pending && s.db.invoiceExpiresAt <= now
    ensures var t := Run(s, Retiring(now));
      && t.procs == [Expirer(now, true, ExpireCycle)] && RowsSound(t.db) && t.db.invoice == Expired
      && t.db.intent.status == IntentExpired && t.db.intent.txId.None? && t.db.intent.covenant == CovenantExpired
      && t.db.intent.expiresAt == s.db.intent.expiresAt
  {
    var s1 := RunFirst(s, Retiring(now));
    var s2 := RunFirst(s1, Retiring(now)[1..]);
    var s3 := RunFirst(s2, Retiring(now)[2..]);
  }

  lemma CrossingClaims(s: State, req: Submission, now: nat, txId: string)
    requires s.procs == [Expirer(now, true, ExpireCycle)] && RowsSound(s.db) && s.db.invoice == Expired
    requires s.db.intent.status == IntentExpired && s.db.intent.txId.None? && s.db.intent.covenant == CovenantExpired
    requires req == Submission(req.receivedNs, Some(txId), false, true) && ArrivedInTime(req, s.db.intent.expiresAt)
    ensures var t := Run(s, Claiming(req, now));
      && t.procs == [Expirer(now, true, ExpireCycle), Submitter(req, now, false, ReopenInvoice(txId))]
      && RowsSound(t.db) && t.db.intent.txId == Some(txId) && t.db.intent.covenant == CovenantExpired
  {
    var events := Claiming(req, now);
    var s1 := RunFirst(s, events);
    var s2 := RunFirst(s1, events[1..]);
    var s3 := RunFirst(s2, events[2..]);
    assert s3.procs[1].pc == Claim(txId) && s3.db == s.db;
    var s4 := RunFirst(s3, events[3..]);
  }

  lemma ReconcileRevives(db: Db, now: nat)
    requires RowsSound(db) && db.intent.txId.Some? && db.intent.covenant == CovenantExpired
    ensures RunAlone(db, Expirer(now, true, ExpireCycle)).0.intent.covenant == AwaitingFunding
    ensures RunAlone(db, Expirer(now, true, ExpireCycle)).0.intent.txId == db.intent.txId
  {
    var db1 := ExpireCycleRow(db, now);
    assert RunAlone(db, Expirer(now, true, ExpireCycle)) == RunAlone(db1, Expirer(now, true, CheckTimely))
        == RunAlone(db1, Expirer(now, true, RestoreInvoice));
    RestoresInTurn(db1, now, true);
  }

  lemma ReopeningLeavesCovenant(db: Db, p: Proc, txId: string)
    requires p.Submitter? && p.pc == ReopenInvoice(txId)
    ensures RunAlone(db, p).0.intent == db.intent && RunAlone(db, p).1 == Accepted(txId)
  {
    var db1 := ReopenInvoiceRow(db, ToStored(p.req.receivedNs));
    var db2 := RestoreCycleRow(db1);
    assert RunAlone(db, p) == RunAlone(db1, p.(pc := ReopenCycle(txId))) == RunAlone(db2, p.(pc := LoadResult(txId)));
    assert RunAlone(db2, p.(pc := LoadResult(txId))) == (db2, Accepted(txId));
  }

  lemma CrossingReconciles(s: State, req: Submission, now: nat, txId: string, n: nat)
    requires s.procs == [Expirer(now, true, ExpireCycle), Submitter(req, now, false, ReopenInvoice(txId))] && n >= 5
    requires RowsSound(s.db) && s.db.intent.txId == Some(txId) && s.db.intent.covenant == CovenantExpired
    ensures var t := Run(s, Repeat(0, n));
      && |t.procs| == 2 && t.procs[0].pc.Finished? && t.procs[1] == s.procs[1]
      && t.db.intent.txId == Some(txId) && t.db.intent.covenant == AwaitingFunding
  {
    RepeatRunsAlone(s, 0, n);
    ReconcileRevives(s.db, now);
  }

  lemma CrossingEnds(s: State, txId: string, n: nat)
    requires AllWellFormed(s) && |s.procs| == 2 && s.procs[0].pc.Finished? && s.procs[1].pc == ReopenInvoice(txId) && n >= 3
    ensures AllFinished(Run(s, Repeat(1, n)))
    ensures Run(s, Repeat(1, n)).db.intent == s.db.intent
  {
    RepeatRunsAlone(s, 1, n);
    assert Run(s, Repeat(1, n)).db.intent == s.db.intent by {
      ReopeningLeavesCovenant(s.db, s.procs[1], txId);
    }
  }

  // So an intent nobody has finalized can end up awaiting the funding of a covenant
  // that was never derived.
  lemma CrossingSkipsFinalize(s: State, req: Submission, now: nat, txId: string)
    requires Initial(s) && s.db.intent.covenant == Pending && s.db.invoiceExpiresAt <= now
    requires req == Submission(req.receivedNs, Some(txId), false, true) && ArrivedInTime(req, s.db.intent.expiresAt)
    ensures var claimed := Run(Run(s, Retiring(now)), Claiming(req, now));
      var end := Run(Run(claimed, Repeat(0, 5)), Repeat(1, 3));
      AllFinished(end) && end.db.intent.txId == Some(txId) && end.db.intent.covenant == AwaitingFunding
  {
    CrossingRetires(s, now);
    CrossingClaims(Run(s, Retiring(now)), req, now, txId);
    var claimed := Run(Run(s, Retiring(now)), Claiming(req, now));
    CrossingReconciles(claimed, req, now, txId, 5);
    CrossingEnds(Run(claimed, Repeat(0, 5)), txId, 3);
  }
}
