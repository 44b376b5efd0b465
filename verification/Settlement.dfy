// Settlement of one funded escrow: the chain observer, the keeper and the
// release, refund, arbiter and mutual-settlement requests, all acting on the
// same intent and invoice rows and on the same ledger. Every SQL statement and
// every submission to the node is one atomic step.
module Settlement {
  import opened Wrappers
  import ConfirmationPolicy

  // ---- the ledger ----

  type Outpoint = nat
  type TxId = nat

  // The covenant's entrypoints.
  datatype Branch = ByCustomer | ByTimeout | ByAgreement | ByArbiters | RefundByArbiters | RefundByMerchant

  datatype Tx = Tx(id: TxId, inputs: set<Outpoint>, branch: Branch)

  // The node's view: what can still be spent, and what spent the rest.
  datatype Ledger = Ledger(unspent: set<Outpoint>, spentBy: map<Outpoint, Tx>, medianMs: nat)

  // A timeout release carries the capture time as its lock time.
  predicate CanAccept(l: Ledger, tx: Tx, captureMs: nat) {
    && tx.inputs <= l.unspent
    && (tx.branch == ByTimeout ==> l.medianMs > captureMs)
  }

  function Accept(l: Ledger, tx: Tx): Ledger {
    l.(unspent := l.unspent - tx.inputs, spentBy := l.spentBy + map o | o in tx.inputs :: tx)
  }

  predicate LedgerSound(l: Ledger) {
    l.unspent !! l.spentBy.Keys
  }

  // ---- the rows ----

  datatype InvoiceStatus = Open | Expired | Paid | Cancelled | Refunded

  datatype CovenantState = AwaitingFunding | Retired | Failed | Funded
                         | Settling | Releasing | Refunding | SettlingMutual
                         | CapturedState | ReleasedState | ArbitratedState | MutualState | RefundedState

  datatype Db = Db(covenant: CovenantState, invoice: InvoiceStatus, submitted: bool,
                   releaseTx: Option<TxId>, refundTx: Option<TxId>, cyclePaid: bool)

  predicate MerchantTerminal(c: CovenantState) {
    c in {CapturedState, ReleasedState, ArbitratedState, MutualState}
  }

  predicate Terminal(c: CovenantState) {
    MerchantTerminal(c) || c == RefundedState
  }

  // The branch a terminal state stands for.
  predicate Names(c: CovenantState, b: Branch) {
    match c
    case CapturedState => b == ByTimeout
    case ReleasedState => b == ByCustomer
    case ArbitratedState => b == ByArbiters
    case MutualState => b == ByAgreement
    case RefundedState => b == RefundByArbiters || b == RefundByMerchant
    case _ => false
  }

  // ---- the actors ----

  datatype Kind = Keeper | CustomerRelease | ArbiterRelease | MerchantRefund | ArbiterRefund | MutualSettle

  function BranchOf(k: Kind): Branch {
    match k
    case Keeper => ByTimeout
    case CustomerRelease => ByCustomer
    case ArbiterRelease => ByArbiters
    case MerchantRefund => RefundByMerchant
    case ArbiterRefund => RefundByArbiters
    case MutualSettle => ByAgreement
  }

  // The state an actor claims the row with.
  function ClaimState(k: Kind): CovenantState {
    match k
    case Keeper => Settling
    case CustomerRelease => Releasing
    case ArbiterRelease => Releasing
    case MerchantRefund => Refunding
    case ArbiterRefund => Refunding
    case MutualSettle => SettlingMutual
  }

  function TerminalState(k: Kind): CovenantState {
    match k
    case Keeper => CapturedState
    case CustomerRelease => ReleasedState
    case ArbiterRelease => ArbitratedState
    case MerchantRefund => RefundedState
    case ArbiterRefund => RefundedState
    case MutualSettle => MutualState
  }

  predicate IsRefund(k: Kind) {
    k == MerchantRefund || k == ArbiterRefund
  }

  datatype Pc = Load | Claim | Broadcast | RecordIntent(txId: TxId) | RecordInvoice(txId: TxId) | RecordCycle(txId: TxId)
              | Emit | Restore | Done

  datatype Actor = Actor(kind: Kind, pc: Pc)

  // What the outside decides about one step: a statement works or errors out; a
  // broadcast is never sent, or is sent with a fee input, valid or not, and the
  // node's reply to an accepted transaction may get lost.
  datatype Choice = Works | Errors | Sends(txId: TxId, fee: Outpoint, valid: bool, replyArrives: bool)

  datatype World = World(db: Db, ledger: Ledger, covenantOut: Outpoint, captureMs: nat)

  // A failed statement sends the keeper to its restore; a request just returns.
  function OnError(a: Actor): Actor {
    a.(pc := if a.kind == Keeper then Restore else Done)
  }

  // ---- the statements ----

  function ClaimRow(db: Db, to: CovenantState): Db {
    if db.covenant == Funded then db.(covenant := to) else db
  }

  function RestoreRow(db: Db, from: CovenantState): Db {
    if db.covenant == from then db.(covenant := Funded) else db
  }

  // Unguarded: the row is written whatever its state.
  function RecordIntentRow(db: Db, k: Kind, txId: TxId): Db {
    if IsRefund(k) then db.(covenant := RefundedState, refundTx := Some(txId))
    else db.(covenant := TerminalState(k), releaseTx := Some(txId))
  }

  function RecordInvoiceRow(db: Db, k: Kind): Db {
    if db.invoice == Open then db.(invoice := if IsRefund(k) then Refunded else Paid) else db
  }

  function RecordCycleRow(db: Db): Db {
    db.(cyclePaid := true)
  }

  function SpendTx(w: World, k: Kind, c: Choice): Tx
    requires c.Sends?
  {
    Tx(c.txId, {w.covenantOut, c.fee}, BranchOf(k))
  }

  // One step of one actor.
  function Step(w: World, a: Actor, c: Choice): (World, Actor) {
    match a.pc
    case Load =>
      if w.db.covenant == Funded && w.db.invoice == Open && (a.kind == Keeper ==> w.captureMs < w.ledger.medianMs)
      then (w, a.(pc := Claim)) else (w, a.(pc := Done))
    case Claim =>
      if w.db.covenant == Funded then (w.(db := ClaimRow(w.db, ClaimState(a.kind))), a.(pc := Broadcast))
      else (w, a.(pc := Done))
    case Broadcast =>
      (match c
       case Sends(txId, _, valid, replyArrives) =>
         var tx := SpendTx(w, a.kind, c);
         if valid && CanAccept(w.ledger, tx, w.captureMs) then
           (w.(ledger := Accept(w.ledger, tx)), a.(pc := if replyArrives then RecordIntent(txId) else Restore))
         else (w, a.(pc := Restore))
       case Works => (w, a.(pc := Restore))
       case Errors => (w, a.(pc := Restore)))
    case RecordIntent(txId) =>
      if c == Errors then (w, OnError(a))
      else (w.(db := RecordIntentRow(w.db, a.kind, txId)), a.(pc := RecordInvoice(txId)))
    case RecordInvoice(txId) =>
      if c == Errors then (w, OnError(a))
      else (w.(db := RecordInvoiceRow(w.db, a.kind)), a.(pc := if IsRefund(a.kind) then Emit else RecordCycle(txId)))
    case RecordCycle(_) =>
      if c == Errors then (w, OnError(a))
      else (w.(db := RecordCycleRow(w.db)), a.(pc := Emit))
    case Emit => (w, if c == Errors then OnError(a) else a.(pc := Done))
    case Restore =>
      (if c == Errors then w else w.(db := RestoreRow(w.db, ClaimState(a.kind))), a.(pc := Done))
    case Done => (w, a)
  }

  // ---- the observer ----

  datatype Output = Output(address: string, amount: int)

  // What one look at the chain shows of the submitted transaction.
  datatype View = View(outputs: seq<Output>, acceptedAt: Option<nat>, virtualDaa: nat)

  // A look together with the tenant's policy at that moment and the confirmations
  // it resolves to.
  datatype Look = Look(view: View, policy: ConfirmationPolicy.Policy, required: int)

  function PaidTo(outputs: seq<Output>, address: string): int {
    if outputs == [] then 0
    else (if outputs[0].address == address then outputs[0].amount else 0) + PaidTo(outputs[1..], address)
  }

  lemma {:induction false} PaidToAppend(a: seq<Output>, b: seq<Output>, address: string)
    ensures PaidTo(a + b, address) == PaidTo(a, address) + PaidTo(b, address)
    decreases |a|
  {
    if a == [] {
      assert a + b == b;
    } else {
      PaidToAppend(a[1..], b, address);
      assert (a + b)[1..] == a[1..] + b;
    }
  }

  function Confirmations(v: View): nat {
    match v.acceptedAt
    case Some(at) => if v.virtualDaa >= at then v.virtualDaa - at else 0
    case None => 0
  }

  datatype Verdict = Mismatch | Unconfirmed | Confirmed

  function Judge(v: View, required: int, address: string, gross: int): Verdict {
    if PaidTo(v.outputs, address) != gross then Mismatch
    else if Confirmations(v) >= required then Confirmed
    else Unconfirmed
  }

  // Each output counts exactly when it pays the address.
  lemma PaidToCounts(outputs: seq<Output>, o: Output, address: string)
    ensures PaidTo([], address) == 0
    ensures PaidTo(outputs + [o], address) == PaidTo(outputs, address) + if o.address == address then o.amount else 0
  {
    PaidToAppend(outputs, [o], address);
    assert PaidTo([o], address) == (if o.address == address then o.amount else 0) + PaidTo([o][1..], address);
  }

  // A mismatch fails the covenant for good; one look too few leaves the row alone.
  function MarkRow(db: Db, verdict: Verdict): Db {
    match verdict
    case Mismatch => db.(covenant := Failed)
    case Unconfirmed => db
    case Confirmed => db.(covenant := Funded)
  }

  // The transaction was accepted into a block at least `required` scores ago.
  predicate ConfirmedFor(v: View, required: int) {
    v.acceptedAt.Some? && v.virtualDaa - v.acceptedAt.value >= required
  }

  // The row is funded exactly on the gross confirmed for as long as required, and
  // failed exactly on any other amount, confirmed or not.
  lemma VerdictExactly(db: Db, v: View, required: int, address: string, gross: int)
    requires required >= 1
    ensures Judge(v, required, address, gross) == Confirmed <==>
      PaidTo(v.outputs, address) == gross && v.acceptedAt.Some? && v.virtualDaa - v.acceptedAt.value >= required
    ensures MarkRow(db, Judge(v, required, address, gross)) == db.(covenant :=
      if PaidTo(v.outputs, address) != gross then Failed
      else if v.acceptedAt.Some? && v.virtualDaa - v.acceptedAt.value >= required then Funded
      else db.covenant)
  {
  }

  // The observer's pass over the row: it has selected the row, or is about to
  // write a verdict, or is about to record the anomaly of a mismatch.
  datatype Observer = Idle | Selected | Marking(verdict: Verdict, look: Look) | Signalling

  // ---- interleavings ----

  // `payment` is the intent's network, asset, currency and total; `policy` is the
  // tenant's, and may change at any time.
  datatype State = State(world: World, actors: seq<Actor>, observer: Observer, address: string, gross: int,
                         payment: ConfirmationPolicy.Payment, policy: ConfirmationPolicy.Policy,
                         signals: nat, fundedOn: Option<Look>)

  datatype Event = Arrives(kind: Kind) | Runs(i: nat, choice: Choice) | Crashes(i: nat)
                 | ObserverSelects | ObserverLooks(view: Option<View>, required: int) | ObserverWrites | ObserverCrashes
                 | Submits | IntentExpires | IntentReconciled
                 | InvoiceExpires | InvoiceReopens | InvoiceCancelled
                 | PolicyChanges(policy: ConfirmationPolicy.Policy)
                 | ChainSpends(tx: Tx) | OutputAppears(o: Outpoint) | TimePasses(ms: nat)

  function WithDb(s: State, db: Db): State {
    s.(world := s.world.(db := db))
  }

  function WithLedger(s: State, l: Ledger): State {
    s.(world := s.world.(ledger := l))
  }

  function ObserverWrite(s: State): State {
    var db := s.world.db;
    match s.observer
    case Marking(verdict, look) =>
      WithDb(s, MarkRow(db, verdict)).(observer := if verdict == Mismatch then Signalling else Idle,
                                       fundedOn := if verdict == Confirmed then Some(look) else s.fundedOn)
    case Signalling => s.(observer := Idle, signals := s.signals + 1)
    case _ => s
  }

  // An event that cannot happen in the current state changes nothing.
  ghost function Apply(s: State, e: Event): State {
    var w, db, l := s.world, s.world.db, s.world.ledger;
    match e
    case Arrives(kind) => s.(actors := s.actors + [Actor(kind, Load)])
    case Runs(i, c) =>
      if i < |s.actors| then
        var (next, a) := Step(w, s.actors[i], c);
        s.(world := next, actors := s.actors[i := a])
      else s
    case Crashes(i) => if i < |s.actors| then s.(actors := s.actors[i := s.actors[i].(pc := Done)]) else s
    case ObserverSelects =>
      if s.observer == Idle && db.covenant == AwaitingFunding && db.submitted && db.invoice == Open
      then s.(observer := Selected) else s
    case ObserverLooks(view, required) =>
      if s.observer != Selected then s
      else (match view
            case None => s.(observer := Idle)
            case Some(v) =>
              if ConfirmationPolicy.IsRequired(s.policy, s.payment, required)
              then s.(observer := Marking(Judge(v, required, s.address, s.gross), Look(v, s.policy, required))) else s)
    case ObserverWrites => ObserverWrite(s)
    case ObserverCrashes => s.(observer := Idle)
    case Submits => WithDb(s, db.(submitted := true))
    case IntentExpires =>
      if !db.submitted && db.covenant == AwaitingFunding then WithDb(s, db.(covenant := Retired)) else s
    case IntentReconciled =>
      if db.submitted && db.covenant == Retired then WithDb(s, db.(covenant := AwaitingFunding)) else s
    case InvoiceExpires => if db.invoice == Open then WithDb(s, db.(invoice := Expired)) else s
    case InvoiceReopens => if db.invoice == Expired then WithDb(s, db.(invoice := Open)) else s
    case InvoiceCancelled => WithDb(s, db.(invoice := Cancelled))
    case PolicyChanges(policy) => s.(policy := policy)
    case ChainSpends(tx) => if CanAccept(l, tx, w.captureMs) then WithLedger(s, Accept(l, tx)) else s
    case OutputAppears(o) => if o !in l.spentBy then WithLedger(s, l.(unspent := l.unspent + {o})) else s
    case TimePasses(ms) => if ms >= l.medianMs then WithLedger(s, l.(medianMs := ms)) else s
  }

  ghost function Run(s: State, events: seq<Event>): State
    decreases |events|
  {
    if events == [] then s else Run(Apply(s, events[0]), events[1..])
  }

  // A finalized, unfunded intent of an open invoice.
  predicate Initial(s: State) {
    && s.world.db == Db(AwaitingFunding, Open, false, None, None, false)
    && LedgerSound(s.world.ledger)
    && s.actors == [] && s.observer == Idle && s.signals == 0 && s.fundedOn == None
  }

  // ---- the invariant ----

  // Between winning its claim and its terminal or restore write.
  predicate Holds(db: Db, a: Actor) {
    a.pc == Broadcast || a.pc.RecordIntent? || (a.pc == Restore && !Terminal(db.covenant))
  }

  predicate SpentAs(w: World, k: Kind, txId: TxId) {
    w.covenantOut in w.ledger.spentBy && w.ledger.spentBy[w.covenantOut].branch == BranchOf(k)
    && w.ledger.spentBy[w.covenantOut].id == txId
  }

  predicate ActorKnows(w: World, a: Actor) {
    && (Holds(w.db, a) ==> w.db.covenant == ClaimState(a.kind))
    && (a.pc.RecordIntent? ==> SpentAs(w, a.kind, a.pc.txId))
    && (a.pc.RecordInvoice? || a.pc.RecordCycle? || a.pc == Emit ==> w.db.covenant == TerminalState(a.kind))
    && (a.pc.RecordCycle? ==> !IsRefund(a.kind))
    && (a.pc == Restore && Terminal(w.db.covenant) ==> w.db.covenant == TerminalState(a.kind))
  }

  // A recorded outcome is the spend that happened on the chain.
  predicate OutcomeTrue(w: World) {
    var db := w.db;
    && (Terminal(db.covenant) ==> w.covenantOut in w.ledger.spentBy && Names(db.covenant, w.ledger.spentBy[w.covenantOut].branch))
    && (MerchantTerminal(db.covenant) ==> db.releaseTx == Some(w.ledger.spentBy[w.covenantOut].id) && db.refundTx.None?)
    && (db.covenant == RefundedState ==> db.refundTx == Some(w.ledger.spentBy[w.covenantOut].id) && db.releaseTx.None?)
    && (!Terminal(db.covenant) ==> db.releaseTx.None? && db.refundTx.None?)
    && (db.invoice == Paid ==> MerchantTerminal(db.covenant))
    && (db.invoice == Refunded ==> db.covenant == RefundedState)
    && (db.cyclePaid ==> MerchantTerminal(db.covenant))
  }

  // A look at the chain that justifies calling the covenant funded.
  ghost predicate Justifies(s: State, look: Look) {
    && PaidTo(look.view.outputs, s.address) == s.gross
    && ConfirmedFor(look.view, look.required)
    && ConfirmationPolicy.IsRequired(look.policy, s.payment, look.required)
  }

  ghost predicate ObserverKnows(s: State) {
    var db := s.world.db;
    && (s.observer == Selected || s.observer.Marking? ==> db.covenant == AwaitingFunding && db.submitted)
    && (s.observer.Marking? && s.observer.verdict == Confirmed ==> Justifies(s, s.observer.look))
    && (s.observer == Signalling ==> db.covenant == Failed && s.signals == 0)
    && s.signals <= 1
    && (s.signals == 1 ==> db.covenant == Failed)
    && (db.covenant !in {AwaitingFunding, Retired, Failed} ==> s.fundedOn.Some? && Justifies(s, s.fundedOn.value))
  }

  predicate Exclusive(db: Db, actors: seq<Actor>) {
    forall i, j :: 0 <= i < |actors| && 0 <= j < |actors| && Holds(db, actors[i]) && Holds(db, actors[j]) ==> i == j
  }

  ghost predicate Inv(s: State) {
    && LedgerSound(s.world.ledger)
    && OutcomeTrue(s.world)
    && ObserverKnows(s)
    && (forall i :: 0 <= i < |s.actors| ==> ActorKnows(s.world, s.actors[i]))
    && Exclusive(s.world.db, s.actors)
  }

  lemma AcceptKeepsSpends(l: Ledger, tx: Tx, captureMs: nat)
    requires LedgerSound(l) && CanAccept(l, tx, captureMs)
    ensures LedgerSound(Accept(l, tx))
    ensures forall o :: o in l.spentBy ==> o in Accept(l, tx).spentBy && Accept(l, tx).spentBy[o] == l.spentBy[o]
    ensures forall o :: o in tx.inputs ==> o in Accept(l, tx).spentBy && Accept(l, tx).spentBy[o] == tx
  {
  }

  // What one step of an actor does to the row and the ledger.
  lemma BroadcastKeepsWorld(w: World, a: Actor, c: Choice)
    requires LedgerSound(w.ledger) && OutcomeTrue(w) && ActorKnows(w, a) && a.pc == Broadcast
    ensures var (next, b) := Step(w, a, c);
      && LedgerSound(next.ledger) && OutcomeTrue(next) && ActorKnows(next, b)
      && (forall o :: o in w.ledger.spentBy ==> o in next.ledger.spentBy && next.ledger.spentBy[o] == w.ledger.spentBy[o])
      && next.covenantOut == w.covenantOut
  {
    if c.Sends? && c.valid && CanAccept(w.ledger, SpendTx(w, a.kind, c), w.captureMs) {
      AcceptKeepsSpends(w.ledger, SpendTx(w, a.kind, c), w.captureMs);
    }
  }

  lemma WritesKeepWorld(w: World, a: Actor, c: Choice)
    requires LedgerSound(w.ledger) && OutcomeTrue(w) && ActorKnows(w, a) && a.pc != Broadcast
    ensures var (next, b) := Step(w, a, c);
      && LedgerSound(next.ledger) && OutcomeTrue(next) && ActorKnows(next, b)
      && (forall o :: o in w.ledger.spentBy ==> o in next.ledger.spentBy && next.ledger.spentBy[o] == w.ledger.spentBy[o])
      && next.covenantOut == w.covenantOut
  {
  }

  lemma StepKeepsWorld(w: World, a: Actor, c: Choice)
    requires LedgerSound(w.ledger) && OutcomeTrue(w) && ActorKnows(w, a)
    ensures var (next, b) := Step(w, a, c);
      && LedgerSound(next.ledger) && OutcomeTrue(next) && ActorKnows(next, b)
      && (forall o :: o in w.ledger.spentBy ==> o in next.ledger.spentBy && next.ledger.spentBy[o] == w.ledger.spentBy[o])
      && next.covenantOut == w.covenantOut
  {
    if a.pc == Broadcast {
      BroadcastKeepsWorld(w, a, c);
    } else {
      WritesKeepWorld(w, a, c);
    }
  }

  // A step changes the covenant state only by claiming a funded row, or as its holder.
  lemma StepChangesState(w: World, a: Actor, c: Choice)
    requires ActorKnows(w, a)
    ensures var (next, b) := Step(w, a, c);
      && (next.db.covenant != w.db.covenant ==>
            || (a.pc == Claim && w.db.covenant == Funded && next.db.covenant == ClaimState(a.kind) && Holds(next.db, b))
            || (Holds(w.db, a) && !Holds(next.db, b) && (next.db.covenant == Funded || next.db.covenant == TerminalState(a.kind))))
      && (Holds(next.db, b) ==> Holds(w.db, a) || (a.pc == Claim && w.db.covenant == Funded))
  {
  }

  // The other actors' knowledge survives a step.
  lemma OthersKeepKnowledge(w: World, a: Actor, c: Choice, other: Actor)
    requires LedgerSound(w.ledger) && ActorKnows(w, a) && OutcomeTrue(w)
    requires ActorKnows(w, other) && !(Holds(w.db, a) && Holds(w.db, other))
    ensures ActorKnows(Step(w, a, c).0, other)
    ensures Holds(Step(w, a, c).0.db, other) ==> Holds(w.db, other)
    ensures Holds(Step(w, a, c).0.db, other) ==> !Holds(Step(w, a, c).0.db, Step(w, a, c).1)
  {
    StepKeepsWorld(w, a, c);
    StepChangesState(w, a, c);
  }

  lemma RunsKeepsInv(s: State, i: nat, c: Choice)
    requires Inv(s) && i < |s.actors|
    ensures Inv(Apply(s, Runs(i, c)))
  {
    var a := s.actors[i];
    var (next, b) := Step(s.world, a, c);
    var actors := s.actors[i := b];
    StepKeepsWorld(s.world, a, c);
    StepChangesState(s.world, a, c);
    forall j | 0 <= j < |actors|
      ensures ActorKnows(next, actors[j])
      ensures j != i && Holds(next.db, actors[j]) ==> Holds(s.world.db, s.actors[j]) && !Holds(next.db, b)
    {
      if j != i {
        OthersKeepKnowledge(s.world, a, c, s.actors[j]);
      }
    }
  }

  lemma ObserverKeepsInv(s: State, e: Event)
    requires Inv(s)
    requires e.ObserverSelects? || e.ObserverLooks? || e.ObserverWrites? || e.ObserverCrashes?
    ensures Inv(Apply(s, e))
  {
    var t := Apply(s, e);
    forall j | 0 <= j < |t.actors|
      ensures ActorKnows(t.world, t.actors[j]) && (Holds(t.world.db, t.actors[j]) <==> Holds(s.world.db, s.actors[j]))
    {
      assert ActorKnows(s.world, s.actors[j]);
    }
  }

  lemma LedgerKeepsInv(s: State, e: Event)
    requires Inv(s)
    requires e.ChainSpends? || e.OutputAppears? || e.TimePasses?
    ensures Inv(Apply(s, e))
  {
    if e.ChainSpends? && CanAccept(s.world.ledger, e.tx, s.world.captureMs) {
      AcceptKeepsSpends(s.world.ledger, e.tx, s.world.captureMs);
    }
    var t := Apply(s, e);
    forall j | 0 <= j < |t.actors| ensures ActorKnows(t.world, t.actors[j]) {
      assert ActorKnows(s.world, s.actors[j]);
    }
  }

  // Requests arriving, crashes and policy changes.
  lemma ArrivalsKeepInv(s: State, e: Event)
    requires Inv(s) && (e.Arrives? || e.Crashes? || e.PolicyChanges?)
    ensures Inv(Apply(s, e))
  {
    var t := Apply(s, e);
    forall j | 0 <= j < |t.actors|
      ensures ActorKnows(t.world, t.actors[j])
      ensures Holds(t.world.db, t.actors[j]) ==> j < |s.actors| && Holds(s.world.db, s.actors[j])
    {
      if j < |s.actors| {
        assert ActorKnows(s.world, s.actors[j]);
      }
    }
  }

  predicate IsRowEvent(e: Event) {
    e.Submits? || e.IntentExpires? || e.IntentReconciled? || e.InvoiceExpires? || e.InvoiceReopens? || e.InvoiceCancelled?
  }

  // Submissions, expiries and cancellations leave claims and outcomes alone.
  lemma RowEventsKeepInv(s: State, e: Event)
    requires Inv(s) && IsRowEvent(e)
    ensures Inv(Apply(s, e))
  {
    var t := Apply(s, e);
    forall j | 0 <= j < |t.actors|
      ensures ActorKnows(t.world, t.actors[j]) && (Holds(t.world.db, t.actors[j]) ==> Holds(s.world.db, s.actors[j]))
    {
      assert ActorKnows(s.world, s.actors[j]);
    }
  }

  lemma ApplyKeepsInv(s: State, e: Event)
    requires Inv(s)
    ensures Inv(Apply(s, e))
  {
    if e.Runs? {
      if e.i < |s.actors| {
        RunsKeepsInv(s, e.i, e.choice);
      }
    } else if e.ObserverSelects? || e.ObserverLooks? || e.ObserverWrites? || e.ObserverCrashes? {
      ObserverKeepsInv(s, e);
    } else if e.ChainSpends? || e.OutputAppears? || e.TimePasses? {
      LedgerKeepsInv(s, e);
    } else if IsRowEvent(e) {
      RowEventsKeepInv(s, e);
    } else {
      ArrivalsKeepInv(s, e);
    }
  }

  lemma {:induction false} RunKeepsInv(s: State, events: seq<Event>)
    requires Inv(s)
    ensures Inv(Run(s, events))
    decreases |events|
  {
    if events != [] {
      ApplyKeepsInv(s, events[0]);
      RunKeepsInv(Apply(s, events[0]), events[1..]);
    }
  }

  // ---- one actor left to itself, statement by statement ----

  // What happens to each step of an undisturbed run: how the broadcast goes and
  // which statements error out.
  datatype Luck = Luck(broadcast: Choice, failing: set<Stage>)
  datatype Stage = AtIntent | AtInvoice | AtCycle | AtEvent | AtRestore

  function ChoiceAt(luck: Luck, pc: Pc): Choice {
    match pc
    case Broadcast => luck.broadcast
    case RecordIntent(_) => if AtIntent in luck.failing then Errors else Works
    case RecordInvoice(_) => if AtInvoice in luck.failing then Errors else Works
    case RecordCycle(_) => if AtCycle in luck.failing then Errors else Works
    case Emit => if AtEvent in luck.failing then Errors else Works
    case Restore => if AtRestore in luck.failing then Errors else Works
    case _ => Works
  }

  function StepsLeft(pc: Pc): nat {
    match pc
    case Done => 0 case Restore => 1 case Emit => 2 case RecordCycle(_) => 3 case RecordInvoice(_) => 4
    case RecordIntent(_) => 5 case Broadcast => 6 case Claim => 7 case Load => 8
  }

  lemma StepsRunOut(w: World, a: Actor, c: Choice)
    requires a.pc != Done
    ensures StepsLeft(Step(w, a, c).1.pc) < StepsLeft(a.pc)
  {
  }

  function RunAlone(w: World, a: Actor, luck: Luck): World
    decreases StepsLeft(a.pc)
  {
    if a.pc == Done then w
    else
      var (next, b) := Step(w, a, ChoiceAt(luck, a.pc));
      StepsRunOut(w, a, ChoiceAt(luck, a.pc));
      RunAlone(next, b, luck)
  }

  predicate ReplyArrives(w: World, k: Kind, luck: Luck) {
    && luck.broadcast.Sends? && luck.broadcast.valid && luck.broadcast.replyArrives
    && CanAccept(w.ledger, SpendTx(w, k, luck.broadcast), w.captureMs)
  }

  // The write that should end the claim errors out, and nothing makes up for it: a
  // request restores only after a failed broadcast, the keeper after any error.
  predicate StaysClaimed(w: World, k: Kind, luck: Luck) {
    if ReplyArrives(w, k, luck) then AtIntent in luck.failing && (k == Keeper ==> AtRestore in luck.failing)
    else AtRestore in luck.failing
  }

  lemma {:induction false} RecordedStays(w: World, a: Actor, luck: Luck)
    requires a.pc.RecordInvoice? || a.pc.RecordCycle? || a.pc == Emit || a.pc == Restore || a.pc == Done
    requires w.db.covenant == TerminalState(a.kind)
    ensures RunAlone(w, a, luck).db.covenant == TerminalState(a.kind)
    decreases StepsLeft(a.pc)
  {
    if a.pc != Done {
      var (next, b) := Step(w, a, ChoiceAt(luck, a.pc));
      StepsRunOut(w, a, ChoiceAt(luck, a.pc));
      RecordedStays(next, b, luck);
    }
  }

  lemma RestoreAlone(w: World, k: Kind, luck: Luck)
    requires w.db.covenant == ClaimState(k)
    ensures RunAlone(w, Actor(k, Restore), luck).db.covenant == if AtRestore in luck.failing then ClaimState(k) else Funded
  {
    var next := Step(w, Actor(k, Restore), ChoiceAt(luck, Restore)).0;
    assert RunAlone(w, Actor(k, Restore), luck) == RunAlone(next, Actor(k, Done), luck) == next;
  }

  lemma RecordAlone(w: World, k: Kind, txId: TxId, luck: Luck)
    requires w.db.covenant == ClaimState(k)
    ensures RunAlone(w, Actor(k, RecordIntent(txId)), luck).db.covenant
         == if AtIntent !in luck.failing then TerminalState(k)
            else if k == Keeper && AtRestore !in luck.failing then Funded
            else ClaimState(k)
  {
    var (next, b) := Step(w, Actor(k, RecordIntent(txId)), ChoiceAt(luck, RecordIntent(txId)));
    assert RunAlone(w, Actor(k, RecordIntent(txId)), luck) == RunAlone(next, b, luck);
    if AtIntent !in luck.failing {
      RecordedStays(next, b, luck);
    } else if k == Keeper {
      RestoreAlone(w, k, luck);
    } else {
      assert RunAlone(w, Actor(k, Done), luck) == w;
    }
  }

  // Left to itself after a won claim, an actor leaves the row claimed exactly when
  // its ending write fails as described, settled exactly when the reply arrives and
  // the outcome gets recorded, and funded otherwise.
  lemma AloneEndsClaim(w: World, k: Kind, luck: Luck)
    requires w.db.covenant == ClaimState(k)
    ensures var covenant := RunAlone(w, Actor(k, Broadcast), luck).db.covenant;
      && (covenant == ClaimState(k) <==> StaysClaimed(w, k, luck))
      && (covenant == TerminalState(k) <==> ReplyArrives(w, k, luck) && AtIntent !in luck.failing)
      && covenant in {ClaimState(k), TerminalState(k), Funded}
  {
    var (next, b) := Step(w, Actor(k, Broadcast), luck.broadcast);
    assert RunAlone(w, Actor(k, Broadcast), luck) == RunAlone(next, b, luck);
    if b.pc == Restore {
      RestoreAlone(next, k, luck);
    } else {
      RecordAlone(next, k, b.pc.txId, luck);
    }
  }

  // The rows after a settlement in which everything worked.
  function Settled(db: Db, k: Kind, txId: TxId): Db {
    match k
    case MerchantRefund => db.(covenant := RefundedState, refundTx := Some(txId), invoice := Refunded)
    case ArbiterRefund => db.(covenant := RefundedState, refundTx := Some(txId), invoice := Refunded)
    case Keeper => db.(covenant := CapturedState, releaseTx := Some(txId), invoice := Paid, cyclePaid := true)
    case CustomerRelease => db.(covenant := ReleasedState, releaseTx := Some(txId), invoice := Paid, cyclePaid := true)
    case ArbiterRelease => db.(covenant := ArbitratedState, releaseTx := Some(txId), invoice := Paid, cyclePaid := true)
    case MutualSettle => db.(covenant := MutualState, releaseTx := Some(txId), invoice := Paid, cyclePaid := true)
  }

  // A load goes on to the claim exactly when the row is funded, its invoice open and,
  // for the keeper, the capture time past; claiming writes nothing but the claim.
  lemma ClaimsExactly(w: World, k: Kind, c: Choice, d: Choice)
    ensures var (w1, a1) := Step(w, Actor(k, Load), c);
      var (w2, a2) := Step(w1, a1, d);
      var claimed := if k == Keeper then Settling
                     else if k == CustomerRelease || k == ArbiterRelease then Releasing
                     else if k == MerchantRefund || k == ArbiterRefund then Refunding
                     else SettlingMutual;
      && (a2.pc == Broadcast <==>
            w.db.covenant == Funded && w.db.invoice == Open && (k == Keeper ==> w.captureMs < w.ledger.medianMs))
      && w2 == if a2.pc == Broadcast then w.(db := w.db.(covenant := claimed)) else w
  {
  }

  // So an actor that loads a row it may not settle changes neither rows nor ledger,
  // whatever is about to go right or wrong.
  lemma ClosedIsLeftAlone(w: World, k: Kind, luck: Luck)
    requires w.db.covenant != Funded || w.db.invoice != Open || (k == Keeper && w.ledger.medianMs <= w.captureMs)
    ensures RunAlone(w, Actor(k, Load), luck) == w
  {
    assert RunAlone(w, Actor(k, Load), luck) == RunAlone(w, Actor(k, Done), luck);
  }

  // A spend the node does not take is undone: the claim is given back and nothing else
  // was touched.
  lemma RefusedSpendIsUndone(w: World, k: Kind, luck: Luck)
    requires AtRestore !in luck.failing
    requires !(luck.broadcast.Sends? && luck.broadcast.valid && CanAccept(w.ledger, SpendTx(w, k, luck.broadcast), w.captureMs))
    ensures RunAlone(w, Actor(k, Load), luck) == w
  {
    ClaimsExactly(w, k, Works, Works);
    if w.db.covenant == Funded && w.db.invoice == Open && (k == Keeper ==> w.captureMs < w.ledger.medianMs) {
      var w1 := w.(db := ClaimRow(w.db, ClaimState(k)));
      assert RunAlone(w, Actor(k, Load), luck) == RunAlone(w, Actor(k, Claim), luck) == RunAlone(w1, Actor(k, Broadcast), luck);
      assert RunAlone(w1, Actor(k, Broadcast), luck) == RunAlone(w1, Actor(k, Restore), luck) == RunAlone(w, Actor(k, Done), luck);
    } else {
      ClosedIsLeftAlone(w, k, luck);
    }
  }

  // When the covenant is funded, the node accepts the spend and nothing errors out,
  // the outcome, its transaction, the invoice and the cycle are all recorded.
  lemma SettlesWhenAllWorks(w: World, k: Kind, luck: Luck)
    requires w.db.covenant == Funded && w.db.invoice == Open && luck.failing == {}
    requires luck.broadcast.Sends? && luck.broadcast.valid && luck.broadcast.replyArrives
    requires {w.covenantOut, luck.broadcast.fee} <= w.ledger.unspent && (k == Keeper ==> w.captureMs < w.ledger.medianMs)
    ensures var txId, spent := luck.broadcast.txId, {w.covenantOut, luck.broadcast.fee};
      var tx := Tx(txId, spent, if k == Keeper then ByTimeout else if k == CustomerRelease then ByCustomer
                                else if k == ArbiterRelease then ByArbiters else if k == MerchantRefund then RefundByMerchant
                                else if k == ArbiterRefund then RefundByArbiters else ByAgreement);
      RunAlone(w, Actor(k, Load), luck)
        == w.(db := Settled(w.db, k, txId),
              ledger := w.ledger.(unspent := w.ledger.unspent - spent, spentBy := w.ledger.spentBy + map o | o in spent :: tx))
  {
    var txId := luck.broadcast.txId;
    var w1 := w.(db := ClaimRow(w.db, ClaimState(k)));
    var w2 := w1.(ledger := Accept(w.ledger, SpendTx(w, k, luck.broadcast)));
    assert RunAlone(w, Actor(k, Load), luck) == RunAlone(w, Actor(k, Claim), luck) == RunAlone(w1, Actor(k, Broadcast), luck);
    assert RunAlone(w1, Actor(k, Broadcast), luck) == RunAlone(w2, Actor(k, RecordIntent(txId)), luck);
    RecordsWhenAllWorks(w2, k, txId, luck);
  }

  lemma RefundRecords(w: World, k: Kind, txId: TxId, luck: Luck)
    requires luck.failing == {} && IsRefund(k)
    ensures RunAlone(w, Actor(k, RecordInvoice(txId)), luck) == w.(db := RecordInvoiceRow(w.db, k))
  {
    var w4 := w.(db := RecordInvoiceRow(w.db, k));
    assert RunAlone(w, Actor(k, RecordInvoice(txId)), luck) == RunAlone(w4, Actor(k, Emit), luck) == RunAlone(w4, Actor(k, Done), luck);
  }

  lemma ReleaseRecords(w: World, k: Kind, txId: TxId, luck: Luck)
    requires luck.failing == {} && !IsRefund(k)
    ensures RunAlone(w, Actor(k, RecordInvoice(txId)), luck) == w.(db := RecordCycleRow(RecordInvoiceRow(w.db, k)))
  {
    var w4 := w.(db := RecordInvoiceRow(w.db, k));
    var w5 := w4.(db := RecordCycleRow(w4.db));
    assert RunAlone(w, Actor(k, RecordInvoice(txId)), luck) == RunAlone(w4, Actor(k, RecordCycle(txId)), luck);
    assert RunAlone(w4, Actor(k, RecordCycle(txId)), luck) == RunAlone(w5, Actor(k, Emit), luck) == RunAlone(w5, Actor(k, Done), luck);
  }

  lemma RecordsWhenAllWorks(w: World, k: Kind, txId: TxId, luck: Luck)
    requires w.db.invoice == Open && luck.failing == {}
    ensures RunAlone(w, Actor(k, RecordIntent(txId)), luck) == w.(db := Settled(w.db, k, txId))
  {
    var w3 := w.(db := RecordIntentRow(w.db, k, txId));
    assert RunAlone(w, Actor(k, RecordIntent(txId)), luck) == RunAlone(w3, Actor(k, RecordInvoice(txId)), luck);
    if IsRefund(k) {
      RefundRecords(w3, k, txId, luck);
    } else {
      ReleaseRecords(w3, k, txId, luck);
    }
  }

  class SettlementTables {
    const covenantOut: Outpoint
    const captureMs: nat
    var covenant: CovenantState
    var invoice: InvoiceStatus
    var submitted: bool
    var releaseTx: Option<TxId>
    var refundTx: Option<TxId>
    var cyclePaid: bool
    var ledger: Ledger

    constructor (w: World)
      ensures Now() == w
    {
      covenantOut, captureMs, ledger := w.covenantOut, w.captureMs, w.ledger;
      covenant, invoice, submitted := w.db.covenant, w.db.invoice, w.db.submitted;
      releaseTx, refundTx, cyclePaid := w.db.releaseTx, w.db.refundTx, w.db.cyclePaid;
    }

    function Rows(): Db
      reads this
    {
      Db(covenant, invoice, submitted, releaseTx, refundTx, cyclePaid)
    }

    function Now(): World
      reads this
    {
      World(Rows(), ledger, covenantOut, captureMs)
    }

    method ClaimFunded(to: CovenantState) returns (won: bool)
      modifies this`covenant
      ensures won == (old(covenant) == Funded) && covenant == if won then to else old(covenant)
      ensures Rows() == ClaimRow(old(Rows()), to)
    {
      won := covenant == Funded;
      if won {
        covenant := to;
      }
    }

    method RestoreFunded(from: CovenantState, fails: bool)
      modifies this`covenant
      ensures covenant == if !fails && old(covenant) == from then Funded else old(covenant)
      ensures Rows() == if fails then old(Rows()) else RestoreRow(old(Rows()), from)
    {
      if !fails && covenant == from {
        covenant := Funded;
      }
    }

    // `submit_transaction`: the node may accept and the reply still be lost.
    method Submit(k: Kind, c: Choice) returns (reply: Option<TxId>)
      modifies this`ledger
      ensures var (next, b) := Step(old(Now()), Actor(k, Broadcast), c);
        Now() == next && b == Actor(k, if reply.Some? then RecordIntent(reply.value) else Restore)
    {
      reply := None;
      if c.Sends? && c.valid {
        var tx := Tx(c.txId, {covenantOut, c.fee}, BranchOf(k));
        if CanAccept(ledger, tx, captureMs) {
          ledger := Accept(ledger, tx);
          reply := if c.replyArrives then Some(c.txId) else None;
        }
      }
    }

    method MarkInvoicePaid(k: Kind, txId: TxId, luck: Luck) returns (ok: bool)
      requires !IsRefund(k)
      modifies this`invoice, this`cyclePaid
      ensures RunAlone(old(Now()), Actor(k, RecordInvoice(txId)), luck)
           == RunAlone(Now(), if ok then Actor(k, Emit) else OnError(Actor(k, Done)), luck)
    {
      ghost var goal := RunAlone(Now(), Actor(k, RecordInvoice(txId)), luck);
      if AtInvoice in luck.failing {
        return false;
      }
      if invoice == Open {
        invoice := Paid;
      }
      assert RunAlone(Now(), Actor(k, RecordCycle(txId)), luck) == goal;
      if AtCycle in luck.failing {
        return false;
      }
      cyclePaid := true;
      return true;
    }

    method MarkSettledPaid(k: Kind, txId: TxId, luck: Luck) returns (ok: bool)
      requires !IsRefund(k)
      modifies this`covenant, this`releaseTx, this`invoice, this`cyclePaid
      ensures RunAlone(old(Now()), Actor(k, RecordIntent(txId)), luck)
           == RunAlone(Now(), if ok then Actor(k, Emit) else OnError(Actor(k, Done)), luck)
    {
      ghost var goal := RunAlone(Now(), Actor(k, RecordIntent(txId)), luck);
      if AtIntent in luck.failing {
        return false;
      }
      covenant, releaseTx := TerminalState(k), Some(txId);
      assert RunAlone(Now(), Actor(k, RecordInvoice(txId)), luck) == goal;
      ok := MarkInvoicePaid(k, txId, luck);
    }

    method FinalizeRefund(k: Kind, txId: TxId, luck: Luck) returns (ok: bool)
      requires IsRefund(k)
      modifies this`covenant, this`refundTx, this`invoice
      ensures RunAlone(old(Now()), Actor(k, RecordIntent(txId)), luck)
           == RunAlone(Now(), if ok then Actor(k, Emit) else OnError(Actor(k, Done)), luck)
    {
      ghost var goal := RunAlone(Now(), Actor(k, RecordIntent(txId)), luck);
      if AtIntent in luck.failing {
        return false;
      }
      covenant, refundTx := RefundedState, Some(txId);
      assert RunAlone(Now(), Actor(k, RecordInvoice(txId)), luck) == goal;
      if AtInvoice in luck.failing {
        return false;
      }
      if invoice == Open {
        invoice := Refunded;
      }
      return true;
    }

    // Everything after a won claim: broadcast, record the outcome, and give the
    // claim back on failure (a request only when the broadcast failed).
    method SettleClaimed(k: Kind, luck: Luck)
      modifies this
      ensures Now() == RunAlone(old(Now()), Actor(k, Broadcast), luck)
    {
      ghost var goal := RunAlone(Now(), Actor(k, Broadcast), luck);
      var reply := Submit(k, luck.broadcast);
      if reply.None? {
        assert RunAlone(Now(), Actor(k, Restore), luck) == goal;
        RestoreFunded(ClaimState(k), AtRestore in luck.failing);
        return;
      }
      assert RunAlone(Now(), Actor(k, RecordIntent(reply.value)), luck) == goal;
      var ok;
      if IsRefund(k) {
        ok := FinalizeRefund(k, reply.value, luck);
      } else {
        ok := MarkSettledPaid(k, reply.value, luck);
      }
      EndSettlement(k, luck, ok);
    }

    // The event of a recorded settlement, then the keeper's restore if anything failed.
    method EndSettlement(k: Kind, luck: Luck, recorded: bool)
      modifies this`covenant
      ensures Now() == RunAlone(old(Now()), if recorded then Actor(k, Emit) else OnError(Actor(k, Done)), luck)
    {
      var failed := !recorded || AtEvent in luck.failing;
      assert RunAlone(Now(), if recorded then Actor(k, Emit) else OnError(Actor(k, Done)), luck)
          == RunAlone(Now(), if failed then OnError(Actor(k, Done)) else Actor(k, Done), luck);
      if failed && k == Keeper {
        RestoreFunded(Settling, AtRestore in luck.failing);
      }
    }

    // The observer's look at a submitted transaction, the policy that applies to it,
    // and the verdict.
    method ObserveCandidate(v: View, policy: ConfirmationPolicy.Policy, payment: ConfirmationPolicy.Payment,
                            address: string, gross: int) returns (anomaly: bool, required: int)
      modifies this`covenant
      ensures ConfirmationPolicy.IsRequired(policy, payment, required)
      ensures anomaly == (PaidTo(v.outputs, address) != gross)
      ensures covenant == if anomaly then Failed
                          else if v.acceptedAt.Some? && v.virtualDaa - v.acceptedAt.value >= required then Funded
                          else old(covenant)
      ensures Rows() == MarkRow(old(Rows()), Judge(v, required, address, gross))
    {
      var funded, k := 0, 0;
      while k < |v.outputs|
        invariant 0 <= k <= |v.outputs| && funded == PaidTo(v.outputs[..k], address)
        invariant Rows() == old(Rows())
      {
        assert v.outputs[..k + 1] == v.outputs[..k] + [v.outputs[k]];
        PaidToAppend(v.outputs[..k], [v.outputs[k]], address);
        if v.outputs[k].address == address {
          funded := funded + v.outputs[k].amount;
        }
        k := k + 1;
      }
      assert v.outputs[..k] == v.outputs;
      var clamped;
      required, clamped := ConfirmationPolicy.ResolvePolicy(policy, payment);
      anomaly := funded != gross;
      if anomaly {
        covenant := Failed;
      } else if Confirmations(v) >= required {
        covenant := Funded;
      }
    }

    // One candidate of a keeper pass, or one settlement request, left to itself.
    method Settle(k: Kind, luck: Luck)
      modifies this
      ensures Now() == RunAlone(old(Now()), Actor(k, Load), luck)
      ensures old(covenant) != Funded || old(invoice) != Open || (k == Keeper && old(ledger).medianMs <= captureMs) ==>
        Now() == old(Now())
    {
      ghost var goal := RunAlone(Now(), Actor(k, Load), luck);
      if covenant != Funded || invoice != Open || (k == Keeper && ledger.medianMs <= captureMs) {
        ClosedIsLeftAlone(Now(), k, luck);
      }
      if covenant != Funded || invoice != Open || (k == Keeper && captureMs >= ledger.medianMs) {
        assert RunAlone(Now(), Actor(k, Done), luck) == goal;
        return;
      }
      assert RunAlone(Now(), Actor(k, Claim), luck) == goal;
      var won := ClaimFunded(ClaimState(k));
      assert won;
      assert RunAlone(Now(), Actor(k, Broadcast), luck) == goal;
      SettleClaimed(k, luck);
    }
  }

  // ---- the results ----

  // At most one actor at a time is between winning its claim and its terminal or
  // restore write, and the row carries that actor's claim.
  lemma SettlementIsExclusive(s: State, events: seq<Event>, i: nat, j: nat)
    requires Initial(s)
    ensures var now := Run(s, events);
      && (i < |now.actors| && Holds(now.world.db, now.actors[i]) ==> now.world.db.covenant == ClaimState(now.actors[i].kind))
      && (i < |now.actors| && j < |now.actors| && Holds(now.world.db, now.actors[i]) && Holds(now.world.db, now.actors[j]) ==> i == j)
  {
    RunKeepsInv(s, events);
  }

  // A restore that changes the row gives back the actor's own claim; it never
  // undoes a terminal state or someone else's claim.
  lemma RestoreIsSafe(s: State, events: seq<Event>, i: nat, c: Choice)
    requires Initial(s)
    requires var now := Run(s, events); i < |now.actors| && now.actors[i].pc == Restore
    ensures var now := Run(s, events); var after := Apply(now, Runs(i, c));
      after.world.db != now.world.db ==>
        && after.world.db == now.world.db.(covenant := Funded)
        && now.world.db.covenant == ClaimState(now.actors[i].kind) && !Terminal(now.world.db.covenant)
        && forall j :: 0 <= j < |now.actors| && j != i ==> !Holds(now.world.db, now.actors[j])
  {
    RunKeepsInv(s, events);
    var now := Run(s, events);
    if Holds(now.world.db, now.actors[i]) {
      assert forall j :: 0 <= j < |now.actors| && j != i ==> !Holds(now.world.db, now.actors[j]);
    }
  }

  // Whatever is recorded really happened: a terminal state names the branch that
  // spent the covenant, with its transaction id; a paid invoice has a settled
  // covenant, a refunded one a refunded covenant; and never both ids.
  lemma OutcomeAgreesWithChain(s: State, events: seq<Event>)
    requires Initial(s)
    ensures OutcomeTrue(Run(s, events).world)
    ensures var db := Run(s, events).world.db;
      && (db.invoice == Paid ==> MerchantTerminal(db.covenant) && db.releaseTx.Some?)
      && (db.invoice == Refunded ==> db.covenant == RefundedState && db.refundTx.Some?)
      && (db.releaseTx.None? || db.refundTx.None?)
  {
    RunKeepsInv(s, events);
  }

  // What is recorded of the outcome.
  predicate SameOutcome(a: Db, b: Db) {
    a.covenant == b.covenant && a.releaseTx == b.releaseTx && a.refundTx == b.refundTx
  }

  lemma StepKeepsOutcome(w: World, a: Actor, c: Choice)
    requires ActorKnows(w, a) && Terminal(w.db.covenant)
    ensures SameOutcome(w.db, Step(w, a, c).0.db)
  {
  }

  lemma ApplyKeepsOutcome(s: State, e: Event)
    requires Inv(s) && Terminal(s.world.db.covenant)
    ensures SameOutcome(s.world.db, Apply(s, e).world.db)
  {
    if e.Runs? && e.i < |s.actors| {
      StepKeepsOutcome(s.world, s.actors[e.i], e.choice);
    }
  }

  // A recorded outcome is final.
  lemma {:induction false} TerminalIsFinal(s: State, events: seq<Event>)
    requires Inv(s) && Terminal(s.world.db.covenant)
    ensures SameOutcome(s.world.db, Run(s, events).world.db)
    decreases |events|
  {
    if events != [] {
      ApplyKeepsInv(s, events[0]);
      ApplyKeepsOutcome(s, events[0]);
      TerminalIsFinal(Apply(s, events[0]), events[1..]);
    }
  }

  lemma {:induction false} RunSnoc(s: State, events: seq<Event>, e: Event)
    ensures Run(s, events + [e]) == Apply(Run(s, events), e)
    decreases |events|
  {
    if events == [] {
      assert [e][1..] == [];
    } else {
      assert (events + [e])[1..] == events[1..] + [e];
      RunSnoc(Apply(s, events[0]), events[1..], e);
    }
  }

  // The look was taken by the k-th event of the run, under the tenant's policy as
  // it stood at that moment.
  ghost predicate TakenAt(s: State, events: seq<Event>, look: Look, k: nat) {
    k < |events| && events[k] == ObserverLooks(Some(look.view), look.required) && Run(s, events[..k]).policy == look.policy
  }

  ghost predicate Taken(s: State, events: seq<Event>, look: Look) {
    exists k :: TakenAt(s, events, look, k)
  }

  lemma TakenStays(s: State, events: seq<Event>, e: Event, look: Look)
    requires Taken(s, events, look)
    ensures Taken(s, events + [e], look)
  {
    var k: nat :| TakenAt(s, events, look, k);
    assert (events + [e])[..k] == events[..k];
    assert TakenAt(s, events + [e], look, k);
  }

  ghost predicate LooksTaken(s: State, events: seq<Event>) {
    var now := Run(s, events);
    && (now.observer.Marking? ==> Taken(s, events, now.observer.look))
    && (now.fundedOn.Some? ==> Taken(s, events, now.fundedOn.value))
  }

  // The only looks an event can bring in are its own and the observer's.
  lemma ApplyLooks(t: State, e: Event)
    ensures var next := Apply(t, e);
      && (next.fundedOn.Some? ==> next.fundedOn == t.fundedOn || (t.observer.Marking? && next.fundedOn == Some(t.observer.look)))
      && (next.observer.Marking? ==>
            || next.observer == t.observer
            || (e == ObserverLooks(Some(next.observer.look.view), next.observer.look.required) && next.observer.look.policy == t.policy))
  {
  }

  lemma {:induction false} LooksAreTaken(s: State, events: seq<Event>)
    requires s.observer == Idle && s.fundedOn.None?
    ensures LooksTaken(s, events)
    decreases |events|
  {
    if events != [] {
      var n := |events| - 1;
      var front, e := events[..n], events[n];
      assert events == front + [e];
      LooksAreTaken(s, front);
      RunSnoc(s, front, e);
      var t, now := Run(s, front), Run(s, events);
      ApplyLooks(t, e);
      forall look | Taken(s, front, look) ensures Taken(s, events, look) {
        TakenStays(s, front, e, look);
      }
      if now.observer.Marking? && now.observer != t.observer {
        assert events[..n] == front;
        assert TakenAt(s, events, now.observer.look, n);
      }
    }
  }

  // The covenant counts as funded only on a look at the chain, taken during the run,
  // that showed exactly the gross paid to it, confirmed as often as the tenant's
  // policy at that moment asks for this intent's payment.
  lemma FundedIsJustified(s: State, events: seq<Event>)
    requires Initial(s)
    ensures var now := Run(s, events);
      now.world.db.covenant !in {AwaitingFunding, Retired, Failed} ==>
        && now.fundedOn.Some?
        && var look := now.fundedOn.value;
        && PaidTo(look.view.outputs, s.address) == s.gross
        && look.view.acceptedAt.Some? && look.view.virtualDaa - look.view.acceptedAt.value >= look.required >= 10
        && ConfirmationPolicy.IsRequired(look.policy, s.payment, look.required)
        && Taken(s, events, look)
        && SelectedOpen(s, events)
  {
    RunKeepsInv(s, events);
    RunKeepsTerms(s, events);
    LooksAreTaken(s, events);
    SelectionsAreOpen(s, events);
  }

  // The k-th event of the run selects the row, which at that moment awaits the funding
  // of an open invoice with a transaction on record.
  ghost predicate SelectedAt(s: State, events: seq<Event>, k: nat) {
    && k < |events| && events[k] == ObserverSelects
    && var db := Run(s, events[..k]).world.db;
    && db.covenant == AwaitingFunding && db.invoice == Open && db.submitted
  }

  ghost predicate SelectedOpen(s: State, events: seq<Event>) {
    exists k :: SelectedAt(s, events, k)
  }

  // The row is only ever looked at, and marked funded, after it was so selected.
  lemma {:induction false} SelectionsAreOpen(s: State, events: seq<Event>)
    requires s.observer == Idle && s.fundedOn.None?
    ensures var now := Run(s, events);
      now.observer == Selected || now.observer.Marking? || now.fundedOn.Some? ==> SelectedOpen(s, events)
    decreases |events|
  {
    if events != [] {
      var n := |events| - 1;
      var front, e := events[..n], events[n];
      assert events == front + [e];
      SelectionsAreOpen(s, front);
      RunSnoc(s, front, e);
      if SelectedOpen(s, front) {
        var k: nat :| SelectedAt(s, front, k);
        assert events[..k] == front[..k];
        assert SelectedAt(s, events, k);
      } else if e == ObserverSelects {
        SelectionIsOpen(Run(s, front));
        assert Run(s, events).observer == Selected ==> SelectedAt(s, events, n);
      } else {
        OnlySelectingSelects(Run(s, front), e);
      }
    }
  }

  lemma SelectionIsOpen(t: State)
    requires t.observer != Selected && !t.observer.Marking? && t.fundedOn.None?
    ensures var next := Apply(t, ObserverSelects);
      && !next.observer.Marking? && next.fundedOn.None?
      && (next.observer == Selected ==>
            t.world.db.covenant == AwaitingFunding && t.world.db.invoice == Open && t.world.db.submitted)
  {
  }

  lemma OnlySelectingSelects(t: State, e: Event)
    requires t.observer != Selected && !t.observer.Marking? && t.fundedOn.None? && e != ObserverSelects
    ensures var next := Apply(t, e); next.observer != Selected && !next.observer.Marking? && next.fundedOn.None?
  {
  }

  // ---- claims over whole runs ----

  // The k-th event of the run is the load of actor `i`, which finds the row funded, its
  // invoice open and, for the keeper, the capture time past.
  ghost predicate LoadedAt(s: State, events: seq<Event>, i: nat, k: nat) {
    && k < |events| && events[k].Runs? && events[k].i == i
    && var t := Run(s, events[..k]);
    && i < |t.actors| && t.actors[i].pc == Load
    && t.world.db.covenant == Funded && t.world.db.invoice == Open
    && (t.actors[i].kind == Keeper ==> t.world.captureMs < t.world.ledger.medianMs)
  }

  ghost predicate Loaded(s: State, events: seq<Event>, i: nat) {
    exists k :: LoadedAt(s, events, i, k)
  }

  // An actor past its load was past it before, or this event is its load.
  lemma ApplyLoads(t: State, e: Event, i: nat)
    requires i < |Apply(t, e).actors| && Apply(t, e).actors[i].pc !in {Load, Done}
    ensures i < |t.actors|
    ensures t.actors[i].pc in {Load, Done} ==>
      && e.Runs? && e.i == i && t.actors[i].pc == Load
      && t.world.db.covenant == Funded && t.world.db.invoice == Open
      && (t.actors[i].kind == Keeper ==> t.world.captureMs < t.world.ledger.medianMs)
  {
    if e.Runs? && e.i < |t.actors| && t.actors[e.i].pc == Load {
      ClaimsExactly(t.world, t.actors[e.i].kind, e.choice, Works);
    }
  }

  // Whoever is past its load, about to claim, broadcast, record or restore, found the
  // row funded, the invoice open and, as the keeper, the capture time past.
  lemma {:induction false} ActorsLoadedOpen(s: State, events: seq<Event>, i: nat)
    requires s.actors == [] && i < |Run(s, events).actors| && Run(s, events).actors[i].pc !in {Load, Done}
    ensures Loaded(s, events, i)
    decreases |events|
  {
    if events != [] {
      var n := |events| - 1;
      var front, e := events[..n], events[n];
      assert events == front + [e];
      RunSnoc(s, front, e);
      ApplyLoads(Run(s, front), e, i);
      if Run(s, front).actors[i].pc !in {Load, Done} {
        ActorsLoadedOpen(s, front, i);
        var k: nat :| LoadedAt(s, front, i, k);
        assert events[..k] == front[..k];
        assert LoadedAt(s, events, i, k);
      } else {
        assert LoadedAt(s, events, i, n);
      }
    }
  }

  // And one that loads a closed, claimed or premature row is done for good.
  lemma {:induction false} ClosedLoadNeverActs(s: State, later: seq<Event>, i: nat, c: Choice)
    requires i < |s.actors| && s.actors[i].pc == Load
    requires (s.world.db.covenant == Funded && s.world.db.invoice == Open) ==>
      s.actors[i].kind == Keeper && s.world.ledger.medianMs <= s.world.captureMs
    ensures Apply(s, Runs(i, c)).world == s.world
    ensures var t := Run(Apply(s, Runs(i, c)), later);
      i < |t.actors| && t.actors[i].pc == Done && forall d :: Apply(t, Runs(i, d)).world == t.world
  {
    ClaimsExactly(s.world, s.actors[i].kind, c, Works);
    DoneStaysDone(Apply(s, Runs(i, c)), later, i);
  }

  lemma {:induction false} DoneStaysDone(s: State, events: seq<Event>, i: nat)
    requires i < |s.actors| && s.actors[i].pc == Done
    ensures i < |Run(s, events).actors| && Run(s, events).actors[i].pc == Done
    decreases |events|
  {
    if events != [] {
      DoneStaysDone(Apply(s, events[0]), events[1..], i);
    }
  }

  lemma {:induction false} RunKeepsTerms(s: State, events: seq<Event>)
    ensures var t := Run(s, events); t.address == s.address && t.gross == s.gross && t.payment == s.payment
    decreases |events|
  {
    if events != [] {
      RunKeepsTerms(Apply(s, events[0]), events[1..]);
    }
  }

  // A failed verification is final and raises at most one anomaly signal.
  lemma {:induction false} FailureIsFinal(s: State, events: seq<Event>)
    requires Inv(s) && s.world.db.covenant == Failed
    ensures Run(s, events).world.db.covenant == Failed && Run(s, events).signals <= 1
    decreases |events|
  {
    if events != [] {
      ApplyKeepsInv(s, events[0]);
      var e := events[0];
      if e.Runs? && e.i < |s.actors| {
        assert ActorKnows(s.world, s.actors[e.i]);
        StepChangesState(s.world, s.actors[e.i], e.choice);
      }
      FailureIsFinal(Apply(s, e), events[1..]);
    }
  }

  predicate AnyObserverCrash(events: seq<Event>) {
    exists k :: 0 <= k < |events| && events[k].ObserverCrashes?
  }

  // The row is failed exactly when its anomaly is on record or about to be.
  predicate Signalled(s: State) {
    && (s.world.db.covenant == Failed <==> s.signals == 1 || s.observer == Signalling)
    && (s.observer.Marking? && s.observer.verdict == Mismatch ==> s.signals == 0)
  }

  lemma ApplyKeepsSignalled(s: State, e: Event)
    requires Inv(s) && Signalled(s) && !e.ObserverCrashes?
    ensures Signalled(Apply(s, e))
  {
    if e.Runs? && e.i < |s.actors| {
      assert ActorKnows(s.world, s.actors[e.i]);
      StepChangesState(s.world, s.actors[e.i], e.choice);
    }
  }

  lemma {:induction false} RunKeepsSignalled(s: State, events: seq<Event>)
    requires Inv(s) && Signalled(s) && !AnyObserverCrash(events)
    ensures Signalled(Run(s, events))
    decreases |events|
  {
    if events != [] {
      assert !events[0].ObserverCrashes?;
      forall k | 0 <= k < |events[1..]| ensures !events[1..][k].ObserverCrashes? {
        assert events[1..][k] == events[k + 1];
      }
      ApplyKeepsInv(s, events[0]);
      ApplyKeepsSignalled(s, events[0]);
      RunKeepsSignalled(Apply(s, events[0]), events[1..]);
    }
  }

  // In a run in which the observer never crashes, a failed verification and its one
  // anomaly signal go together once the observer has moved on.
  lemma FailureIsSignalled(s: State, events: seq<Event>)
    requires Initial(s) && !AnyObserverCrash(events)
    ensures var t := Run(s, events);
      t.observer != Signalling ==> t.signals == if t.world.db.covenant == Failed then 1 else 0
  {
    RunKeepsSignalled(s, events);
    RunKeepsInv(s, events);
  }

  // Some actor has the node's confirmation of its spend in hand.
  predicate ReplyInHand(actors: seq<Actor>) {
    exists i :: 0 <= i < |actors| && actors[i].pc.RecordIntent?
  }

  // The covenant is spent, but nobody can record the outcome.
  predicate Unrecordable(s: State) {
    && s.world.covenantOut in s.world.ledger.spentBy
    && !Terminal(s.world.db.covenant)
    && !ReplyInHand(s.actors)
  }

  lemma StepCannotRecord(w: World, a: Actor, c: Choice)
    requires LedgerSound(w.ledger) && w.covenantOut in w.ledger.spentBy
    requires !Terminal(w.db.covenant) && !a.pc.RecordIntent?
    ensures var (next, b) := Step(w, a, c);
      !Terminal(next.db.covenant) && !b.pc.RecordIntent? && next.covenantOut == w.covenantOut && next.ledger == w.ledger
  {
    if a.pc == Broadcast && c.Sends? {
      assert w.covenantOut in SpendTx(w, a.kind, c).inputs;
    }
  }

  lemma ApplyCannotRecord(s: State, e: Event)
    requires Inv(s) && Unrecordable(s)
    ensures Unrecordable(Apply(s, e))
  {
    if e.Runs? {
      if e.i < |s.actors| {
        StepCannotRecord(s.world, s.actors[e.i], e.choice);
      }
    } else if e.ChainSpends? && CanAccept(s.world.ledger, e.tx, s.world.captureMs) {
      AcceptKeepsSpends(s.world.ledger, e.tx, s.world.captureMs);
    }
  }

  lemma {:induction false} UnrecordableForever(s: State, events: seq<Event>)
    requires Inv(s) && Unrecordable(s)
    ensures Inv(Run(s, events)) && Unrecordable(Run(s, events))
    decreases |events|
  {
    if events != [] {
      ApplyKeepsInv(s, events[0]);
      ApplyCannotRecord(s, events[0]);
      UnrecordableForever(Apply(s, events[0]), events[1..]);
    }
  }

  // An accepted spend whose reply is lost leaves nobody who could record it.
  lemma LostReplyStrands(s: State, i: nat, c: Choice)
    requires Inv(s) && i < |s.actors| && LosesReply(s, i, c)
    ensures Unrecordable(Apply(s, Runs(i, c)))
  {
    var a := s.actors[i];
    assert ActorKnows(s.world, a) && Holds(s.world.db, a);
    AcceptKeepsSpends(s.world.ledger, SpendTx(s.world, a.kind, c), s.world.captureMs);
    assert s.world.covenantOut in SpendTx(s.world, a.kind, c).inputs;
    OnlyHolder(s, i);
  }

  // So does a crash or an error before the first write of the outcome.
  lemma DroppedReplyStrands(s: State, i: nat)
    requires Inv(s) && i < |s.actors| && s.actors[i].pc.RecordIntent?
    ensures Unrecordable(Apply(s, Crashes(i))) && Unrecordable(Apply(s, Runs(i, Errors)))
  {
    assert ActorKnows(s.world, s.actors[i]) && Holds(s.world.db, s.actors[i]);
    OnlyHolder(s, i);
  }

  lemma OnlyHolder(s: State, i: nat)
    requires Inv(s) && i < |s.actors| && Holds(s.world.db, s.actors[i])
    ensures forall j :: 0 <= j < |s.actors| && j != i ==> !s.actors[j].pc.RecordIntent?
  {
    forall j | 0 <= j < |s.actors| && j != i ensures !s.actors[j].pc.RecordIntent? {
      assert !Holds(s.world.db, s.actors[j]);
    }
  }

  // Actor `i` is about to broadcast a spend the node accepts and answers in vain.
  predicate LosesReply(s: State, i: nat, c: Choice)
    requires i < |s.actors|
  {
    && s.actors[i].pc == Broadcast
    && c.Sends? && c.valid && !c.replyArrives
    && CanAccept(s.world.ledger, SpendTx(s.world, s.actors[i].kind, c), s.world.captureMs)
  }

  // When the node accepts a spend and the reply is lost, nothing that runs later
  // ever records an outcome: the row stays unsettled beside a spent covenant.
  lemma LostReplyIsNeverRecorded(s: State, events: seq<Event>, i: nat, c: Choice, later: seq<Event>)
    requires Initial(s)
    requires i < |Run(s, events).actors| && LosesReply(Run(s, events), i, c)
    ensures var end := Run(Apply(Run(s, events), Runs(i, c)), later).world;
      && end.covenantOut in end.ledger.spentBy
      && !Terminal(end.db.covenant) && end.db.releaseTx.None? && end.db.refundTx.None?
  {
    var now := Run(s, events);
    RunKeepsInv(s, events);
    ApplyKeepsInv(now, Runs(i, c));
    LostReplyStrands(now, i, c);
    UnrecordableForever(Apply(now, Runs(i, c)), later);
  }

  // Some continuation of the run ends in a recorded outcome.
  ghost predicate CanStillRecord(s: State) {
    exists later :: Terminal(Run(s, later).world.db.covenant)
  }

  lemma HolderCanRecord(s: State, i: nat)
    requires i < |s.actors| && s.actors[i].pc.RecordIntent?
    ensures CanStillRecord(s)
  {
    var later := [Runs(i, Works)];
    var t := RunFirst(s, later);
    assert Run(s, later) == t;
    assert Terminal(t.world.db.covenant);
  }

  // A spent covenant can still be recorded as settled exactly as long as some actor
  // holds the node's reply and has not written it down.
  lemma RecordableExactly(s: State, events: seq<Event>)
    requires Initial(s)
    requires var w := Run(s, events).world; w.covenantOut in w.ledger.spentBy && !Terminal(w.db.covenant)
    ensures CanStillRecord(Run(s, events)) <==> ReplyInHand(Run(s, events).actors)
  {
    var now := Run(s, events);
    RunKeepsInv(s, events);
    if ReplyInHand(now.actors) {
      var i :| 0 <= i < |now.actors| && now.actors[i].pc.RecordIntent?;
      HolderCanRecord(now, i);
    } else {
      forall later ensures !Terminal(Run(now, later).world.db.covenant) {
        UnrecordableForever(now, later);
      }
    }
  }

  // ---- when the invoice is paid ----

  // The event is a merchant-side actor's invoice write that works and finds it open.
  predicate PaysAt(s: State, e: Event) {
    && e.Runs? && e.i < |s.actors| && e.choice != Errors
    && s.actors[e.i].pc.RecordInvoice? && !IsRefund(s.actors[e.i].kind)
    && s.world.db.invoice == Open
  }

  predicate AnyCancels(events: seq<Event>) {
    exists k :: 0 <= k < |events| && events[k].InvoiceCancelled?
  }

  // Some event of the run pays the invoice, and no cancellation lands after it.
  ghost predicate PaidBy(s: State, events: seq<Event>)
    decreases |events|
  {
    events != [] && ((PaysAt(s, events[0]) && !AnyCancels(events[1..])) || PaidBy(Apply(s, events[0]), events[1..]))
  }

  lemma StepPaysExactly(w: World, a: Actor, c: Choice)
    ensures Step(w, a, c).0.db.invoice == Paid <==>
      || w.db.invoice == Paid
      || (c != Errors && a.pc.RecordInvoice? && !IsRefund(a.kind) && w.db.invoice == Open)
  {
  }

  lemma ApplyPaysExactly(s: State, e: Event)
    ensures Apply(s, e).world.db.invoice == Paid <==> PaysAt(s, e) || (s.world.db.invoice == Paid && !e.InvoiceCancelled?)
  {
    if e.Runs? && e.i < |s.actors| {
      StepPaysExactly(s.world, s.actors[e.i], e.choice);
    }
  }

  lemma {:induction false} PaidTracked(s: State, events: seq<Event>)
    ensures Run(s, events).world.db.invoice == Paid <==> PaidBy(s, events) || (s.world.db.invoice == Paid && !AnyCancels(events))
    decreases |events|
  {
    if events != [] {
      ApplyPaysExactly(s, events[0]);
      PaidTracked(Apply(s, events[0]), events[1..]);
      assert AnyCancels(events) <==> events[0].InvoiceCancelled? || AnyCancels(events[1..]) by {
        if AnyCancels(events[1..]) {
          var k :| 0 <= k < |events[1..]| && events[1..][k].InvoiceCancelled?;
          assert events[k + 1].InvoiceCancelled?;
        }
        if AnyCancels(events) {
          var k :| 0 <= k < |events| && events[k].InvoiceCancelled?;
          assert k > 0 ==> events[1..][k - 1].InvoiceCancelled?;
        }
      }
    }
  }

  // A merchant-side outcome leaves the invoice unpaid exactly when its invoice write
  // never ran, failed, or found the invoice not open, or a cancellation landed later.
  lemma OutcomeUnpaidExactly(s: State, events: seq<Event>)
    requires Initial(s) && MerchantTerminal(Run(s, events).world.db.covenant)
    ensures Run(s, events).world.db.invoice != Paid <==> !PaidBy(s, events)
  {
    PaidTracked(s, events);
  }

  // ---- and it happens ----

  lemma RunFirst(s: State, events: seq<Event>) returns (t: State)
    requires events != []
    ensures t == Apply(s, events[0]) && Run(s, events) == Run(t, events[1..])
  {
    t := Apply(s, events[0]);
  }

  // A payment is submitted and the observer picks it up.
  const SubmitRun: seq<Event> := [PolicyChanges(ConfirmationPolicy.Policy(None, [])), Submits, ObserverSelects]

  // The observer sees exactly the gross, confirmed ten times.
  function FundingRun(s: State): seq<Event> {
    [ObserverLooks(Some(View([Output(s.address, s.gross)], Some(0), 10)), 10), ObserverWrites]
  }

  lemma SelectsSubmitted(s: State)
    requires s.world.db == Db(AwaitingFunding, Open, false, None, None, false) && s.observer == Idle
    ensures Run(s, SubmitRun[1..]) == s.(observer := Selected, world := s.world.(db := s.world.db.(submitted := true)))
  {
    var s2 := RunFirst(s, SubmitRun[1..]);
    assert s2 == s.(world := s.world.(db := s.world.db.(submitted := true)));
    var s3 := RunFirst(s2, SubmitRun[2..]);
    assert SubmitRun[2..][1..] == [];
  }

  lemma PolicyChangesFirst(s: State, p: ConfirmationPolicy.Policy, rest: seq<Event>)
    ensures Run(s, [PolicyChanges(p)] + rest) == Run(s.(policy := p), rest)
  {
    var events := [PolicyChanges(p)] + rest;
    var t := RunFirst(s, events);
    assert events[1..] == rest && t == s.(policy := p);
  }

  lemma SubmitRunSelects(s: State)
    requires Initial(s)
    ensures Run(s, SubmitRun)
         == s.(policy := ConfirmationPolicy.Policy(None, []), observer := Selected,
               world := s.world.(db := Db(AwaitingFunding, Open, true, None, None, false)))
  {
    var p := ConfirmationPolicy.Policy(None, []);
    assert SubmitRun == [PolicyChanges(p)] + SubmitRun[1..];
    PolicyChangesFirst(s, p, SubmitRun[1..]);
    SelectsSubmitted(s.(policy := p));
  }

  lemma FundingRunMarks(s: State)
    requires s.policy == ConfirmationPolicy.Policy(None, []) && s.observer == Selected
    ensures var t := Run(s, FundingRun(s)); t.world == s.world.(db := s.world.db.(covenant := Funded)) && t.actors == s.actors
  {
    var view := View([Output(s.address, s.gross)], Some(0), 10);
    assert PaidTo(view.outputs[1..], s.address) == 0;
    assert Judge(view, 10, s.address, s.gross) == Confirmed;
    var events := FundingRun(s);
    var s1 := RunFirst(s, events);
    assert s1.world == s.world && s1.actors == s.actors;
    assert events[1..] == [ObserverWrites] && events[1..][1..] == [];
    var s2 := RunFirst(s1, events[1..]);
  }

  // The state a fresh intent is in once its payment is confirmed.
  ghost function FundedState(s: State): State {
    Run(Run(s, SubmitRun), FundingRun(s))
  }

  lemma FundingRunFunds(s: State)
    requires Initial(s)
    ensures FundedState(s).world == s.world.(db := Db(Funded, Open, true, None, None, false)) && FundedState(s).actors == []
  {
    SubmitRunSelects(s);
    FundingRunMarks(Run(s, SubmitRun));
  }

  // The customer releases a funded covenant up to the broadcast.
  const ReleaseRun: seq<Event> := [Arrives(CustomerRelease), Runs(0, Works), Runs(0, Works)]

  // From a fresh intent whose covenant output is there to spend, a release can lose
  // its reply.
  lemma RepliesCanBeLost(s: State, txId: TxId, fee: Outpoint)
    requires Initial(s) && {s.world.covenantOut, fee} <= s.world.ledger.unspent
    ensures var t := Run(FundedState(s), ReleaseRun);
      && t.actors == [Actor(CustomerRelease, Broadcast)] && LosesReply(t, 0, Sends(txId, fee, true, false))
      && t.world.db == Db(Releasing, Open, true, None, None, false)
  {
    FundingRunFunds(s);
    var s1 := RunFirst(FundedState(s), ReleaseRun);
    var s2 := RunFirst(s1, ReleaseRun[1..]);
    var s3 := RunFirst(s2, ReleaseRun[2..]);
  }

  // From such a broadcast: the node accepts and answers, the outcome is recorded, and
  // the invoice expires before its own write.
  function UnpaidRun(txId: TxId, fee: Outpoint): seq<Event> {
    [Runs(0, Sends(txId, fee, true, true)), Runs(0, Works), InvoiceExpires, Runs(0, Works)]
  }

  lemma UnpaidRunEnds(t: State, txId: TxId, fee: Outpoint)
    requires t.actors == [Actor(CustomerRelease, Broadcast)] && t.world.db == Db(Releasing, Open, true, None, None, false)
    requires CanAccept(t.world.ledger, SpendTx(t.world, CustomerRelease, Sends(txId, fee, true, true)), t.world.captureMs)
    ensures var end := Run(t, UnpaidRun(txId, fee)).world.db;
      end.covenant == ReleasedState && end.releaseTx == Some(txId) && end.invoice == Expired
  {
    var events := UnpaidRun(txId, fee);
    var s1 := RunFirst(t, events);
    assert s1.actors == [Actor(CustomerRelease, RecordIntent(txId))] && s1.world.db == t.world.db;
    var s2 := RunFirst(s1, events[1..]);
    assert s2.actors == [Actor(CustomerRelease, RecordInvoice(txId))];
    assert s2.world.db == Db(ReleasedState, Open, true, Some(txId), None, false);
    UnpaidWrite(s2, txId, events[2..]);
  }

  lemma UnpaidWrite(s: State, txId: TxId, events: seq<Event>)
    requires s.actors == [Actor(CustomerRelease, RecordInvoice(txId))] && events == [InvoiceExpires, Runs(0, Works)]
    requires s.world.db == Db(ReleasedState, Open, true, Some(txId), None, false)
    ensures Run(s, events).world.db == Db(ReleasedState, Expired, true, Some(txId), None, false)
  {
    var s1 := RunFirst(s, events);
    var s2 := RunFirst(s1, events[1..]);
  }

  lemma SettledInvoiceCanStayUnpaid(s: State, txId: TxId, fee: Outpoint)
    requires Initial(s) && {s.world.covenantOut, fee} <= s.world.ledger.unspent
    ensures var end := Run(Run(FundedState(s), ReleaseRun), UnpaidRun(txId, fee)).world.db;
      end.covenant == ReleasedState && end.releaseTx == Some(txId) && end.invoice == Expired
  {
    RepliesCanBeLost(s, txId, fee);
    UnpaidRunEnds(Run(FundedState(s), ReleaseRun), txId, fee);
  }
}
