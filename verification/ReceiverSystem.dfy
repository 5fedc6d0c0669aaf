/** The receiver as a whole: the event loop, its worker goroutines, the operation channel between them,
    and everything the outside may do, as one nondeterministic step relation. */
module ReceiverSystem {
  import opened Imap
  import opened ReceiverSpec

  /** Where a worker goroutine is. A finishing worker is about to send, or is blocked sending, its operation. */
  datatype Worker =
    | Idling(stop: nat)
    | Fetching(existing: set<nat>)
    | Deleting(resend: set<nat>, store: set<nat>, unanswered: set<nat>, issued: bool)
    | Finishing(op: Operation)

  datatype Status = Running | Exited | Panicked(site: PanicSite) | SelfBlocked

  /** `dispatched`, `forgotten` and `abandoned` are history: what went out, which UIDs left `messages`,
      and which acked UIDs a finished delete never answered. */
  datatype Sys = Sys(
    loop: Loop,
    workers: seq<Worker>,
    opChan: seq<Operation>,
    status: Status,
    dispatched: seq<Message>,
    forgotten: multiset<nat>,
    abandoned: set<nat>)

  datatype Action =
    | Quit
    | Update(mailbox: bool)
    | AckIn(uid: nat, ok: bool)
    | Timeout
    | TakeOp
    | DeliverFetch(k: nat, fetched: map<nat, Message>, order: seq<nat>)
    | DeliverResend(k: nat, uid: nat)
    | DeliverAnswer(k: nat, uid: nat, gone: bool)
    | IssueStore(k: nat)
    | WorkerDone(k: nat)
    | WorkerSend(k: nat)

  const OPCHAN_CAPACITY: nat := 1

  predicate ByLoop(a: Action) {
    !a.IssueStore? && !a.WorkerDone? && !a.WorkerSend?
  }

  /** What may happen next. A fetch result keeps the UID each message is filed under; nothing else is assumed about
      the outside. In particular a server may answer a store with any UID it likes. */
  ghost predicate Enabled(s: Sys, a: Action) {
    && (ByLoop(a) ==> s.status == Running)
    && match a
       case TakeOp => s.opChan != []
       case DeliverFetch(k, fetched, order) =>
         && k < |s.workers| && s.workers[k].Fetching?
         && IsOrder(order, fetched.Keys)
         && (forall u :: u in fetched ==> fetched[u].uid == u)
       case DeliverResend(k, uid) =>
         k < |s.workers| && s.workers[k].Deleting? && !s.workers[k].issued && uid in s.workers[k].resend
       case DeliverAnswer(k, uid, gone) =>
         k < |s.workers| && s.workers[k].Deleting? && s.workers[k].issued
       case IssueStore(k) =>
         k < |s.workers| && s.workers[k].Deleting? && !s.workers[k].issued && s.workers[k].resend == {}
       case WorkerDone(k) =>
         && k < |s.workers| && !s.workers[k].Finishing?
         && (s.workers[k].Deleting? ==> s.workers[k].issued)
       case WorkerSend(k) =>
         k < |s.workers| && s.workers[k].Finishing? && |s.opChan| < OPCHAN_CAPACITY
       case _ => true
  }

  /** A server answers a store only for UIDs it was given, each at most once. */
  ghost predicate Honest(s: Sys, a: Action) {
    a.DeliverAnswer? && a.k < |s.workers| && s.workers[a.k].Deleting? ==> a.uid in s.workers[a.k].unanswered
  }

  ghost predicate Trusted(s: Sys, a: Action) {
    Enabled(s, a) && Honest(s, a)
  }

  function FinishOf(w: Worker): Operation {
    match w
    case Idling(_) => IdleFinish
    case Fetching(_) => FetchFinish
    case Deleting(_, _, _, _) => DeleteFinish
    case Finishing(op) => op
  }

  function InState(batch: map<nat, Entry>, state: MsgState): set<nat> {
    set u | u in batch && batch[u].state == state
  }

  function Start(job: Job): seq<Worker> {
    match job
    case NoJob => []
    case IdleJob(stop) => [Idling(stop)]
    case FetchJob(existing) => [Fetching(existing)]
    case DeleteJob(batch) =>
      var store := InState(batch, Acked);
      [Deleting(InState(batch, Deleted), store, store, false)]
  }

  /** The event the loop receives, and the state of the rest at the moment it is received. */
  ghost function EventOf(s: Sys, a: Action): Event
    requires Enabled(s, a) && ByLoop(a)
  {
    match a
    case Quit => QuitAsked
    case Update(mailbox) => Updated(mailbox)
    case AckIn(uid, ok) => GotAck(uid, ok)
    case Timeout => TimedOut
    case TakeOp => GotOp(s.opChan[0])
    case DeliverFetch(_, fetched, order) => GotFetch(fetched, order)
    case DeliverResend(_, uid) => GotAnswer(uid, Deleted)
    case DeliverAnswer(_, uid, gone) => GotAnswer(uid, if gone then Deleted else Acked)
  }

  ghost function Received(s: Sys, a: Action): Sys
    requires Enabled(s, a) && ByLoop(a)
  {
    match a
    case TakeOp => s.(opChan := s.opChan[1..])
    case DeliverFetch(k, _, _) => s.(workers := s.workers[k := Finishing(FetchFinish)])
    case DeliverResend(k, uid) => s.(workers := s.workers[k := s.workers[k].(resend := s.workers[k].resend - {uid})])
    case DeliverAnswer(k, uid, _) =>
      s.(workers := s.workers[k := s.workers[k].(unanswered := s.workers[k].unanswered - {uid})])
    case _ => s
  }

  /** One loop iteration on an event. */
  ghost function Iterate(s: Sys, ev: Event): Sys
    requires WellFormed(ev)
  {
    match Select(s.loop, ev)
    case SelectPanic(site) => s.(status := Panicked(site))
    case Selected(l, op, out) => Settle(Dispatch(s, l, out), Switch(l, op))
  }

  ghost function Dispatch(s: Sys, l: Loop, out: seq<Message>): Sys {
    s.(loop := l,
       dispatched := s.dispatched + out,
       forgotten := s.forgotten + multiset(s.loop.messages.Keys - l.messages.Keys))
  }

  ghost function Settle(s: Sys, o: Outcome): Sys {
    match o
    case SwitchPanic(site) => s.(status := Panicked(site))
    case Exit(l) => s.(loop := l, status := Exited)
    case Continue(l, job, selfSend) =>
      if selfSend && |s.opChan| >= OPCHAN_CAPACITY then s.(loop := l, status := SelfBlocked)
      else s.(loop := l, workers := s.workers + Start(job),
          opChan := if selfSend then s.opChan + [OpNone] else s.opChan)
  }

  ghost function Next(s: Sys, a: Action): Sys
    requires Enabled(s, a)
  {
    match a
    case IssueStore(k) => s.(workers := s.workers[k := s.workers[k].(issued := true)])
    case WorkerDone(k) =>
      s.(workers := s.workers[k := Finishing(FinishOf(s.workers[k]))],
         abandoned := s.abandoned + if s.workers[k].Deleting? then s.workers[k].unanswered else {})
    case WorkerSend(k) => s.(workers := s.workers[..k] + s.workers[k + 1..], opChan := s.opChan + [s.workers[k].op])
    case _ => Iterate(Received(s, a), EventOf(s, a))
  }

  ghost predicate Init(s: Sys) {
    s == Sys(FreshLoop(s.loop.cfg), [], [], Running, [], multiset{}, {})
  }

  // ---- Control: at most one worker, of the kind the state says, and a channel that never overfills

  function FinishFor(state: LoopState): Operation
    requires state != AtRest
  {
    match state
    case InIdle => IdleFinish
    case InFetch => FetchFinish
    case InDelete => DeleteFinish
  }

  predicate Serves(w: Worker, l: Loop) {
    l.state != AtRest &&
    match w
    case Idling(stop) => l.state == InIdle && stop == l.stopChan
    case Fetching(_) => l.state == InFetch
    case Deleting(resend, store, unanswered, issued) =>
      && l.state == InDelete && resend == {} && unanswered <= store
      && (!issued ==> unanswered == store)
    case Finishing(op) => op == FinishFor(l.state)
  }

  /** What the loop's flags promise at every loop head. */
  predicate Flags(l: Loop) {
    && (l.state != InIdle ==> l.stop == 0)
    && (l.cfg.disableDeletions ==> l.delete == 0 && l.state != InDelete)
    && (!l.cfg.disableDeletions && l.pending != map[] ==> l.delete > 0)
  }

  /** Resting: no worker. Working: either the one worker and at most a stale OpNone, or just its finish. */
  predicate Agreement(l: Loop, workers: seq<Worker>, opChan: seq<Operation>) {
    if l.state == AtRest then
      workers == [] && (opChan == [] || opChan == [OpNone])
    else
      || (|workers| == 1 && Serves(workers[0], l) && (opChan == [] || opChan == [OpNone]))
      || (workers == [] && opChan == [FinishFor(l.state)])
  }

  predicate Control(s: Sys) {
    && Flags(s.loop)
    && Agreement(s.loop, s.workers, s.opChan)
    && match s.status
       case Running => s.loop.state == AtRest && s.opChan == [] ==> s.loop.quit == 0
       case Exited => s.loop.state == AtRest && s.loop.quit > 0
           && (!s.loop.cfg.disableDeletions ==> s.loop.pending == map[])
       case _ => false
  }

  // ---- Data: every known UID is in exactly one place

  predicate Keyed(m: map<nat, Entry>) {
    forall u :: u in m ==> m[u].message.uid == u && m[u].seqNum == m[u].message.seqNum && m[u].state != Deleted
  }

  /** An acked UID is pending, or in the delete in flight and unanswered, or was left by one: exactly one of these. */
  predicate Placed(m: map<nat, Entry>, pending: map<nat, Entry>, inFlight: set<nat>, abandoned: set<nat>) {
    && Keyed(m)
    && (forall u :: u in pending ==> u in m && m[u] == pending[u] && m[u].state == Acked)
    && (forall u :: u in inFlight ==> u in m && m[u].state == Acked && u !in pending)
    && (forall u :: u in abandoned ==> u in m && m[u].state == Acked && u !in pending && u !in inFlight)
    && (forall u :: u in m && m[u].state == Acked ==> u in pending || u in inFlight || u in abandoned)
  }

  function InFlight(s: Sys): set<nat> {
    if |s.workers| > 0 && s.workers[0].Deleting? then s.workers[0].unanswered else {}
  }

  ghost predicate Data(s: Sys) {
    && Placed(s.loop.messages, s.loop.pending, InFlight(s), s.abandoned)
    && Uids(s.dispatched) == s.forgotten + multiset(s.loop.messages.Keys)
  }

  ghost predicate Inv(s: Sys) {
    Control(s) && Data(s)
  }

  /** The part that holds whatever the server answers. */
  ghost predicate Steady(s: Sys) {
    Control(s) && PendingAcked(s.loop)
  }

  predicate PendingAcked(l: Loop) {
    forall u :: u in l.pending ==> l.pending[u].state == Acked
  }

  // ---- Control is kept

  lemma ControlInit(s: Sys)
    requires Init(s)
    ensures Inv(s)
  {
  }

  lemma BatchOfAcked(batch: map<nat, Entry>)
    requires forall u :: u in batch ==> batch[u].state == Acked
    ensures Start(DeleteJob(batch)) == [Deleting({}, batch.Keys, batch.Keys, false)]
  {
    assert InState(batch, Acked) == batch.Keys;
    assert InState(batch, Deleted) == {};
  }

  lemma ControlWorker(s: Sys, a: Action)
    requires Steady(s) && Enabled(s, a) && !ByLoop(a)
    ensures Steady(Next(s, a))
  {
  }

  /** What a visit to StateNone amounts to under the flags' promise. Pending deletes always go first and go
      all together, whatever is wanted besides; the batch size has no part in it. */
  lemma RestCases(l: Loop)
    requires l.state == AtRest && Flags(l)
    ensures Rest(l) ==
      if !l.cfg.disableDeletions && l.pending != map[] then
        Continue(l.(delete := 0, fetch := if l.quit > 0 then 0 else l.fetch, state := InDelete, pending := map[]),
                 DeleteJob(l.pending), false)
      else if l.quit > 0 then
        Exit(l.(delete := 0, fetch := 0))
      else if l.fetch > 0 then
        Continue(l.(delete := 0, fetch := 0, state := InFetch), FetchJob(KnownSeqNums(l.messages)), false)
      else
        Continue(l.(delete := 0, state := InIdle), IdleJob(l.stopChan), false)
  {
    assert |l.pending| == 0 <==> l.pending == map[];
  }

  lemma SettleAtRest(s: Sys, op: Operation)
    requires s.status == Running && s.loop.state == AtRest
    requires Flags(s.loop) && Agreement(s.loop, s.workers, s.opChan)
    requires PendingAcked(s.loop)
    requires op == OpNone || op == OpTimeout
    ensures Control(Settle(s, Switch(s.loop, op)))
  {
    BatchOfAcked(s.loop.pending);
    RestCases(if op == OpNone then s.loop else TimeoutFlags(s.loop));
  }

  lemma SettleWorking(s: Sys, op: Operation)
    requires s.status == Running && s.loop.state != AtRest
    requires Flags(s.loop) && Agreement(s.loop, s.workers, s.opChan)
    requires op == OpNone || op == OpTimeout
    ensures Control(Settle(s, Switch(s.loop, op)))
  {
  }

  lemma SettleFinish(s: Sys)
    requires s.status == Running && s.loop.state != AtRest
    requires Flags(s.loop) && s.workers == [] && s.opChan == []
    ensures Control(Settle(s, Switch(s.loop, FinishFor(s.loop.state))))
  {
  }

  /** Receiving an event changes no state; the flags' promise survives, and what becomes pending is acked. */
  lemma SelectKeeps(l: Loop, ev: Event)
    requires WellFormed(ev) && Flags(l)
    requires PendingAcked(l)
    requires ev.GotAnswer? ==> ev.answer != Unacked
    ensures match Select(l, ev)
      case SelectPanic(site) =>
        (ev.GotFetch? && l.state != InFetch) || (ev.GotAnswer? && l.state != InDelete) || ev.GotUnknown?
      case Selected(l', op, out) =>
        && Flags(l') && l'.state == l.state && l'.stopChan == l.stopChan && l'.cfg == l.cfg
        && l.quit <= l'.quit && l.fetch <= l'.fetch && (ev == Updated(true) ==> l'.fetch > 0)
        && PendingAcked(l')
        && op == (match ev case TimedOut => OpTimeout case GotOp(o) => o case _ => OpNone)
  {
  }

  /** An event that carries no finish, taken while the workers and the channel agree with the state. */
  lemma ControlEvent(r: Sys, ev: Event)
    requires WellFormed(ev) && r.status == Running
    requires Flags(r.loop) && Agreement(r.loop, r.workers, r.opChan)
    requires PendingAcked(r.loop)
    requires match ev
      case GotFetch(_, _) => r.loop.state == InFetch
      case GotAnswer(_, answer) => r.loop.state == InDelete && answer != Unacked
      case GotUnknown => false
      case GotOp(op) => op == OpNone
      case _ => true
    ensures Steady(Iterate(r, ev))
  {
    SelectKeeps(r.loop, ev);
    var sel := Select(r.loop, ev);
    var d := Dispatch(r, sel.loop, sel.out);
    assert Agreement(d.loop, d.workers, d.opChan);
    if r.loop.state == AtRest {
      SettleAtRest(d, sel.op);
    } else {
      SettleWorking(d, sel.op);
    }
    SettleKeepsPending(d, sel.op);
  }

  lemma SettleKeepsPending(d: Sys, op: Operation)
    requires Flags(d.loop) && PendingAcked(d.loop)
    ensures PendingAcked(Settle(d, Switch(d.loop, op)).loop)
  {
    SwitchKeepsMessages(d.loop, op);
  }

  lemma ReceivedAgrees(s: Sys, a: Action)
    requires Steady(s) && Enabled(s, a) && ByLoop(a)
    requires a == TakeOp ==> s.opChan[0] == OpNone
    ensures Agreement(Received(s, a).loop, Received(s, a).workers, Received(s, a).opChan)
    ensures a.DeliverFetch? ==> s.loop.state == InFetch
    ensures a.DeliverResend? || a.DeliverAnswer? ==> s.loop.state == InDelete
  {
  }

  lemma ControlFinish(s: Sys)
    requires Steady(s) && Enabled(s, TakeOp) && s.opChan[0] != OpNone
    ensures Steady(Next(s, TakeOp))
  {
    var d := Dispatch(Received(s, TakeOp), s.loop, []);
    SettleFinish(d);
    SettleKeepsPending(d, FinishFor(d.loop.state));
  }

  lemma ControlLoop(s: Sys, a: Action)
    requires Steady(s) && Enabled(s, a) && ByLoop(a)
    requires a == TakeOp ==> s.opChan[0] == OpNone
    ensures Steady(Next(s, a))
  {
    ReceivedAgrees(s, a);
    ControlEvent(Received(s, a), EventOf(s, a));
  }

  lemma SteadyKept(s: Sys, a: Action)
    requires Steady(s) && Enabled(s, a)
    ensures Steady(Next(s, a))
  {
    if !ByLoop(a) {
      ControlWorker(s, a);
    } else if a == TakeOp && s.opChan[0] != OpNone {
      ControlFinish(s);
    } else {
      ControlLoop(s, a);
    }
  }

  // ---- Data is kept

  lemma PlacedAdmit(m: map<nat, Entry>, p: map<nat, Entry>, f: set<nat>, b: set<nat>, fetched: map<nat, Message>)
    requires Placed(m, p, f, b)
    requires forall u :: u in fetched ==> fetched[u].uid == u
    ensures Placed(Admit(m, fetched), p, f, b)
  {
    AdmitKeys(m, fetched);
  }

  lemma PlacedAck(l: Loop, f: set<nat>, b: set<nat>, uid: nat, ok: bool)
    requires Placed(l.messages, l.pending, f, b)
    ensures Placed(HandleAck(l, uid, ok).messages, HandleAck(l, uid, ok).pending, f, b)
    ensures HandleAck(l, uid, ok).messages.Keys == l.messages.Keys
  {
  }

  lemma PlacedAnswer(l: Loop, f: set<nat>, b: set<nat>, uid: nat, gone: bool)
    requires Placed(l.messages, l.pending, f, b) && uid in f
    ensures var l' := HandleAnswer(l, uid, if gone then Deleted else Acked);
      && Placed(l'.messages, l'.pending, f - {uid}, b)
      && l'.messages.Keys == if gone then l.messages.Keys - {uid} else l.messages.Keys
  {
  }

  /** A switch leaves the known messages alone, and pending ones too unless it hands them all over. */
  lemma SwitchKeepsMessages(l: Loop, op: Operation)
    requires Flags(l)
    ensures match Switch(l, op)
      case SwitchPanic(_) => true
      case Exit(l') => l'.messages == l.messages && l'.pending == l.pending
      case Continue(l', job, _) =>
        && l'.messages == l.messages
        && if job.DeleteJob? then job.batch == l.pending && l'.pending == map[] else l'.pending == l.pending
  {
    if l.state == AtRest {
      RestCases(if op == OpTimeout then TimeoutFlags(l) else l);
    }
  }

  lemma SettleKeepsData(s: Sys, op: Operation)
    requires Data(s) && Flags(s.loop) && (s.loop.state == AtRest ==> s.workers == [])
    requires Control(Settle(s, Switch(s.loop, op)))
    ensures Data(Settle(s, Switch(s.loop, op)))
  {
    SwitchKeepsMessages(s.loop, op);
    BatchOfAcked(s.loop.pending);
  }

  lemma DisjointMultisets(a: set<nat>, b: set<nat>)
    requires a !! b
    ensures multiset(a + b) == multiset(a) + multiset(b)
  {
  }

  lemma FetchKeepsLaw(known: map<nat, Entry>, fetched: map<nat, Message>, order: seq<nat>, sent: seq<Message>,
      forgotten: multiset<nat>)
    requires IsOrder(order, fetched.Keys)
    requires forall u :: u in fetched ==> fetched[u].uid == u
    requires Uids(sent) == forgotten + multiset(known.Keys)
    ensures Uids(sent + NewMessages(known, fetched, order)) == forgotten + multiset(Admit(known, fetched).Keys)
  {
    NewMessagesUids(known, fetched, order);
    UidsConcat(sent, NewMessages(known, fetched, order));
    AdmitDomain(known, fetched);
    DisjointMultisets(known.Keys, fetched.Keys - known.Keys);
  }

  /** Receiving adds messages without removing any. */
  lemma AdmittingKeepsData(r: Sys, fetched: map<nat, Message>, order: seq<nat>)
    requires Data(r)
    requires IsOrder(order, fetched.Keys)
    requires forall u :: u in fetched ==> fetched[u].uid == u
    ensures Data(Dispatch(r, r.loop.(messages := Admit(r.loop.messages, fetched)),
        NewMessages(r.loop.messages, fetched, order)))
  {
    PlacedAdmit(r.loop.messages, r.loop.pending, InFlight(r), r.abandoned, fetched);
    FetchKeepsLaw(r.loop.messages, fetched, order, r.dispatched, r.forgotten);
    AdmitDomain(r.loop.messages, fetched);
    assert r.loop.messages.Keys - Admit(r.loop.messages, fetched).Keys == {};
  }

  lemma QuietDispatchKeepsData(r: Sys, l: Loop)
    requires Data(r) && l.messages == r.loop.messages && l.pending == r.loop.pending
    ensures Data(Dispatch(r, l, []))
  {
    assert r.dispatched + [] == r.dispatched;
    assert r.loop.messages.Keys - l.messages.Keys == {};
  }

  lemma FetchKeepsData(s: Sys, a: Action)
    requires Inv(s) && Trusted(s, a) && a.DeliverFetch?
    ensures var sel := Select(s.loop, EventOf(s, a)); sel.Selected? && Data(Dispatch(Received(s, a), sel.loop, sel.out))
  {
    var r := Received(s, a);
    assert InFlight(r) == InFlight(s) == {};
    assert Data(r);
    if s.loop.quit == 0 {
      AdmittingKeepsData(r, a.fetched, a.order);
    } else {
      QuietDispatchKeepsData(r, s.loop);
    }
  }

  lemma AckKeepsData(s: Sys, a: Action)
    requires Inv(s) && Trusted(s, a) && a.AckIn?
    ensures var sel := Select(s.loop, EventOf(s, a)); sel.Selected? && Data(Dispatch(Received(s, a), sel.loop, sel.out))
  {
    PlacedAck(s.loop, InFlight(s), s.abandoned, a.uid, a.ok);
    assert s.dispatched + [] == s.dispatched;
    assert s.loop.messages.Keys - HandleAck(s.loop, a.uid, a.ok).messages.Keys == {};
  }

  lemma ForgetKeepsLaw(before: set<nat>, after: set<nat>, sent: multiset<nat>, forgotten: multiset<nat>)
    requires after <= before && sent == forgotten + multiset(before)
    ensures sent == forgotten + multiset(before - after) + multiset(after)
  {
    DisjointMultisets(before - after, after);
    assert before - after + after == before;
  }

  lemma AnswerKeepsData(s: Sys, a: Action)
    requires Inv(s) && Trusted(s, a) && a.DeliverAnswer?
    ensures var sel := Select(s.loop, EventOf(s, a)); sel.Selected? && Data(Dispatch(Received(s, a), sel.loop, sel.out))
  {
    PlacedAnswer(s.loop, InFlight(s), s.abandoned, a.uid, a.gone);
    assert s.dispatched + [] == s.dispatched;
    ForgetKeepsLaw(s.loop.messages.Keys, HandleAnswer(s.loop, a.uid, if a.gone then Deleted else Acked).messages.Keys,
                   Uids(s.dispatched), s.forgotten);
  }

  lemma SelectKeepsData(s: Sys, a: Action)
    requires Inv(s) && Trusted(s, a) && ByLoop(a)
    ensures var sel := Select(s.loop, EventOf(s, a));
      sel.Selected? && Data(Dispatch(Received(s, a), sel.loop, sel.out))
  {
    if a.AckIn? {
      AckKeepsData(s, a);
    } else if a.DeliverAnswer? {
      AnswerKeepsData(s, a);
    } else if a.DeliverFetch? {
      FetchKeepsData(s, a);
    } else if !a.DeliverResend? {
      QuietDispatchKeepsData(Received(s, a), Select(s.loop, EventOf(s, a)).loop);
    }
  }

  lemma WorkerKeepsData(s: Sys, a: Action)
    requires Inv(s) && Trusted(s, a) && !ByLoop(a)
    ensures Data(Next(s, a))
  {
    var f := InFlight(s);
    if a.WorkerDone? {
      assert Placed(s.loop.messages, s.loop.pending, {}, s.abandoned + f);
    }
  }

  lemma DataKept(s: Sys, a: Action)
    requires Inv(s) && Trusted(s, a)
    ensures Data(Next(s, a))
  {
    if !ByLoop(a) {
      WorkerKeepsData(s, a);
    } else {
      SteadyKept(s, a);
      SelectKeepsData(s, a);
      var ev := EventOf(s, a);
      var sel := Select(s.loop, ev);
      var d := Dispatch(Received(s, a), sel.loop, sel.out);
      SelectKeeps(s.loop, ev);
      SettleKeepsData(d, sel.op);
    }
  }

  lemma InvKept(s: Sys, a: Action)
    requires Inv(s) && Trusted(s, a)
    ensures Inv(Next(s, a))
  {
    SteadyKept(s, a);
    DataKept(s, a);
  }

  ghost predicate Step(s: Sys, a: Action, t: Sys) {
    Enabled(s, a) && t == Next(s, a)
  }

  ghost predicate HonestStep(s: Sys, a: Action, t: Sys) {
    Step(s, a, t) && Honest(s, a)
  }

  lemma StepKeepsInv()
    ensures forall s, a, t :: Inv(s) && HonestStep(s, a, t) ==> Inv(t)
  {
    forall s, a, t | Inv(s) && HonestStep(s, a, t)
      ensures Inv(t)
    {
      InvKept(s, a);
    }
  }

  lemma StepKeepsSteady()
    ensures forall s, a, t :: Steady(s) && Step(s, a, t) ==> Steady(t)
  {
    forall s, a, t | Steady(s) && Step(s, a, t)
      ensures Steady(t)
    {
      SteadyKept(s, a);
    }
  }

  lemma EventSelected(s: Sys, a: Action)
    requires Steady(s) && Enabled(s, a) && ByLoop(a)
    ensures Select(s.loop, EventOf(s, a)).Selected?
  {
    if a != TakeOp {
      ReceivedAgrees(s, a);
    }
  }

  /** A loop iteration in two halves: the state `d` and operation `op` the `switch` starts from. */
  lemma Halves(s: Sys, a: Action) returns (d: Sys, op: Operation)
    requires Steady(s) && Enabled(s, a) && ByLoop(a)
    ensures Select(s.loop, EventOf(s, a)).Selected?
    ensures d == Dispatch(Received(s, a), Select(s.loop, EventOf(s, a)).loop, Select(s.loop, EventOf(s, a)).out)
    ensures op == Select(s.loop, EventOf(s, a)).op
    ensures Next(s, a) == Settle(d, Switch(d.loop, op))
    ensures Flags(d.loop) && d.loop.state == s.loop.state && d.loop.cfg == s.loop.cfg && d.status == Running
    ensures d.loop.stopChan == s.loop.stopChan && d.abandoned == s.abandoned
    ensures d.workers == Received(s, a).workers && d.opChan == Received(s, a).opChan
    ensures s.loop.quit <= d.loop.quit && s.loop.fetch <= d.loop.fetch
    ensures a == Update(true) ==> d.loop.fetch > 0
    ensures PendingAcked(d.loop)
    ensures s.loop.state == AtRest ==> d.workers == [] && op in {OpNone, OpTimeout}
    ensures op !in {OpNone, OpTimeout} ==>
      d.workers == [] && d.opChan == [] && s.loop.state != AtRest && op == FinishFor(s.loop.state) && a == TakeOp
          && s.opChan[0] == op
    ensures a == Timeout ==> op == OpTimeout
  {
    var ev := EventOf(s, a);
    EventSelected(s, a);
    SelectKeeps(s.loop, ev);
    var sel := Select(s.loop, ev);
    d, op := Dispatch(Received(s, a), sel.loop, sel.out), sel.op;
  }

  /** A loop iteration never panics and never blocks on its own send: it goes on, or leaves. */
  lemma IterationGoesOnOrLeaves(s: Sys, a: Action)
    requires Steady(s) && Enabled(s, a) && ByLoop(a)
    ensures Select(s.loop, EventOf(s, a)).Selected?
    ensures var sel := Select(s.loop, EventOf(s, a));
      && Next(s, a).dispatched == s.dispatched + sel.out
      && match Switch(sel.loop, sel.op)
         case SwitchPanic(_) => false
         case Exit(l) => Next(s, a).loop == l && Next(s, a).status == Exited
         case Continue(l, job, selfSend) =>
           && Next(s, a).loop == l && Next(s, a).status == Running
           && Next(s, a).workers == Received(s, a).workers + Start(job)
           && Next(s, a).opChan == Received(s, a).opChan + (if selfSend then [OpNone] else [])
    ensures Flags(Select(s.loop, EventOf(s, a)).loop)
  {
    var d, op := Halves(s, a);
    SteadyKept(s, a);
  }

  /** The stop flag is down when an IDLE starts. */
  lemma IdleStartsOpen(l: Loop, op: Operation)
    requires Flags(l)
    ensures var o := Switch(l, op); o.Continue? && o.job.IdleJob? ==> o.loop.stop == 0
  {
    if l.state == AtRest {
      RestCases(if op == OpTimeout then TimeoutFlags(l) else l);
    }
  }

  /** During a fetch or a delete the loop only takes in what it receives. */
  lemma JustReceives(s: Sys, a: Action)
    requires Steady(s) && Enabled(s, a) && (a.DeliverFetch? || a.AckIn? || a.DeliverAnswer?)
    requires s.loop.state == InFetch || s.loop.state == InDelete
    ensures var sel := Select(s.loop, EventOf(s, a));
      var t := Next(s, a);
      && sel.Selected? && Steady(t) && t.status == Running && t.loop == sel.loop && t.loop.state == s.loop.state
      && t.loop.cfg == s.loop.cfg && t.dispatched == s.dispatched + sel.out
      && t.workers == Received(s, a).workers && t.opChan == Received(s, a).opChan
  {
    SteadyKept(s, a);
    IterationGoesOnOrLeaves(s, a);
    var d, op := Halves(s, a);
    assert Received(s, a).workers + [] == Received(s, a).workers;
    assert Received(s, a).opChan + [] == Received(s, a).opChan;
  }
}
