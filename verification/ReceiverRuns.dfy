/** What holds over every run of the receiver. */
module ReceiverRuns {
  import opened Imap
  import opened Numbers
  import opened ReceiverSpec
  import opened ReceiverSystem
  import FetchSet
  import Paths

  /** `tr` is the sequence of states passed through by doing `acts` from the start, whatever servers answer. */
  ghost predicate IsRun(tr: seq<Sys>, acts: seq<Action>) {
    Paths.IsPath(Step, tr, acts) && Init(tr[0])
  }

  /** A run in which servers are honest throughout. */
  ghost predicate IsHonestRun(tr: seq<Sys>, acts: seq<Action>) {
    Paths.IsPath(HonestStep, tr, acts) && Init(tr[0])
  }

  lemma HonestRuns(tr: seq<Sys>, acts: seq<Action>)
    ensures IsHonestRun(tr, acts) <==> IsRun(tr, acts) && forall j :: 0 <= j < |acts| ==> Honest(tr[j], acts[j])
  {
    if IsHonestRun(tr, acts) {
      forall j {:trigger acts[j]} | 0 <= j < |acts|
        ensures Step(tr[j], acts[j], tr[j + 1]) && Honest(tr[j], acts[j])
      {
        assert HonestStep(tr[j], acts[j], tr[j + 1]);
      }
    }
    if IsRun(tr, acts) && forall j :: 0 <= j < |acts| ==> Honest(tr[j], acts[j]) {
      forall j {:trigger acts[j]} | 0 <= j < |acts|
        ensures HonestStep(tr[j], acts[j], tr[j + 1])
      {
        assert Step(tr[j], acts[j], tr[j + 1]);
      }
    }
  }

  lemma RunSteady(tr: seq<Sys>, acts: seq<Action>, j: nat)
    requires IsRun(tr, acts) && j <= |acts|
    ensures Steady(tr[j])
    ensures j < |acts| ==> Step(tr[j], acts[j], tr[j + 1])
  {
    ControlInit(tr[0]);
    StepKeepsSteady();
    Paths.Invariant(Step, Steady, tr, acts, j);
    if j < |acts| {
      assert Step(tr[j], acts[j], tr[j + 1]);
    }
  }

  lemma RunInv(tr: seq<Sys>, acts: seq<Action>, j: nat)
    requires IsHonestRun(tr, acts) && j <= |acts|
    ensures Inv(tr[j])
    ensures j < |acts| ==> HonestStep(tr[j], acts[j], tr[j + 1])
  {
    ControlInit(tr[0]);
    StepKeepsInv();
    Paths.Invariant(HonestStep, Inv, tr, acts, j);
    if j < |acts| {
      assert HonestStep(tr[j], acts[j], tr[j + 1]);
    }
  }

  // ---- Workers, states and the operation channel

  /** The channel's contents and then whatever a worker is trying to send on it. */
  function Queued(s: Sys): seq<Operation> {
    s.opChan + if |s.workers| > 0 && s.workers[0].Finishing? then [s.workers[0].op] else []
  }

  predicate KindIs(w: Worker, state: LoopState) {
    state != AtRest && FinishOf(w) == FinishFor(state)
  }

  lemma Agree(s: Sys)
    requires Steady(s)
    ensures s.status == Running || s.status == Exited
    ensures |s.workers| <= 1
    ensures forall w :: w in s.workers ==> KindIs(w, s.loop.state)
    ensures s.loop.state == AtRest ==> Queued(s) == [] || Queued(s) == [OpNone]
    ensures s.loop.state != AtRest ==>
      var finish := FinishFor(s.loop.state);
      Queued(s) == [] || Queued(s) == [OpNone] || Queued(s) == [finish] || Queued(s) == [OpNone, finish]
    ensures s.status == Exited ==> s.workers == []
  {
  }

  /** In every reachable state no panic has happened and the loop is not stuck on its own send; there is at most
      one worker, of the kind the state says; and an exited loop leaves no worker behind. */
  lemma WorkerAndStateAgree(tr: seq<Sys>, acts: seq<Action>, j: nat)
    requires IsRun(tr, acts) && j <= |acts|
    ensures var s := tr[j];
      && (s.status == Running || s.status == Exited)
      && |s.workers| <= 1
      && (forall w :: w in s.workers ==> KindIs(w, s.loop.state))
      && (s.loop.state == AtRest ==> Queued(s) == [] || Queued(s) == [OpNone])
      && (s.loop.state != AtRest ==>
            var finish := FinishFor(s.loop.state);
            Queued(s) == [] || Queued(s) == [OpNone] || Queued(s) == [finish] || Queued(s) == [OpNone, finish])
      && (s.status == Exited ==> s.workers == [])
  {
    RunSteady(tr, acts, j);
    Agree(tr[j]);
  }

  // ---- Known UIDs

  predicate IsUnacked(s: Sys, u: nat) { u in s.loop.messages && s.loop.messages[u].state == Unacked }
  predicate IsPending(s: Sys, u: nat) { u in s.loop.pending }
  predicate IsInFlight(s: Sys, u: nat) { u in InFlight(s) }
  predicate IsAbandoned(s: Sys, u: nat) { u in s.abandoned }

  lemma OnePlace(s: Sys, u: nat)
    requires Inv(s)
    ensures One(IsUnacked(s, u)) + One(IsPending(s, u)) + One(IsInFlight(s, u)) + One(IsAbandoned(s, u))
         == One(u in s.loop.messages)
    ensures u in s.loop.messages ==> s.loop.messages[u].state != Deleted
    ensures Uids(s.dispatched)[u] == s.forgotten[u] + One(u in s.loop.messages)
  {
  }

  /** Each known UID is in exactly one of the four places, and nothing else is in any of them. No message is
      ever recorded as deleted. And a UID goes out once per stay: as often as it has been forgotten, and once
      more if it is known now. */
  lemma EveryUidHasOnePlace(tr: seq<Sys>, acts: seq<Action>, j: nat, u: nat)
    requires IsHonestRun(tr, acts) && j <= |acts|
    ensures One(IsUnacked(tr[j], u)) + One(IsPending(tr[j], u)) + One(IsInFlight(tr[j], u)) + One(IsAbandoned(tr[j], u))
         == One(u in tr[j].loop.messages)
    ensures u in tr[j].loop.messages ==> tr[j].loop.messages[u].state != Deleted
    ensures Uids(tr[j].dispatched)[u] == tr[j].forgotten[u] + One(u in tr[j].loop.messages)
  {
    RunInv(tr, acts, j);
    OnePlace(tr[j], u);
  }

  lemma StoreIsAcked(s: Sys, k: nat)
    requires Inv(s) && Enabled(s, IssueStore(k))
    ensures !s.loop.cfg.disableDeletions && k == 0
    ensures forall u :: u in s.workers[k].store ==> u in s.loop.messages && s.loop.messages[u].state == Acked
  {
  }

  /** A store names only messages acked without error, and happens only with deletions enabled. */
  lemma StoresOnlyAcked(tr: seq<Sys>, acts: seq<Action>, j: nat)
    requires IsHonestRun(tr, acts) && j < |acts| && acts[j].IssueStore?
    ensures Enabled(tr[j], acts[j]) && !tr[j].loop.cfg.disableDeletions
    ensures forall u :: u in tr[j].workers[acts[j].k].store ==>
      u in tr[j].loop.messages && tr[j].loop.messages[u].state == Acked
  {
    RunInv(tr, acts, j);
    StoreIsAcked(tr[j], acts[j].k);
  }

  lemma SettleKeepsAbandoned(d: Sys, o: Outcome)
    ensures Settle(d, o).abandoned == d.abandoned
  {
  }

  lemma AbandonedStep(s: Sys, a: Action)
    requires Inv(s) && Trusted(s, a)
    ensures s.abandoned <= Next(s, a).abandoned
  {
    if ByLoop(a) {
      var d, op := Halves(s, a);
      SettleKeepsAbandoned(d, Switch(d.loop, op));
    }
  }

  lemma AbandonedRest(s: Sys, u: nat)
    requires Inv(s) && u in s.abandoned
    ensures u in s.loop.messages && s.loop.messages[u].state == Acked && u !in s.loop.pending && u !in InFlight(s)
  {
  }

  /** An acked message whose delete finished without answering for it is never tried again: it stays known,
      acked and untouched for the rest of the run. */
  lemma AbandonedForGood(tr: seq<Sys>, acts: seq<Action>, i: nat, j: nat, u: nat)
    requires IsHonestRun(tr, acts) && i <= j <= |acts| && u in tr[i].abandoned
    ensures u in tr[j].abandoned && u in tr[j].loop.messages && tr[j].loop.messages[u].state == Acked
    ensures u !in tr[j].loop.pending && u !in InFlight(tr[j])
  {
    RunInv(tr, acts, i);
    StepKeepsInv();
    forall s, a, t | Inv(s) && u in s.abandoned && HonestStep(s, a, t)
      ensures u in t.abandoned
    {
      AbandonedStep(s, a);
    }
    Paths.Until(HonestStep, Inv, (s: Sys) => u in s.abandoned, (s: Sys, t: Sys) => false, tr, acts, i, j);
    AbandonedRest(tr[j], u);
  }

  // ---- Pending deletes are never passed over

  lemma HandOver(d: Sys, op: Operation)
    requires Flags(d.loop) && d.loop.state == AtRest && d.workers == [] && op in {OpNone, OpTimeout}
    requires PendingAcked(d.loop)
    requires !d.loop.cfg.disableDeletions && d.loop.pending != map[]
    ensures var t := Settle(d, Switch(d.loop, op));
      && t.loop.state == InDelete && t.loop.pending == map[]
      && t.workers == [Deleting({}, d.loop.pending.Keys, d.loop.pending.Keys, false)]
  {
    BatchOfAcked(d.loop.pending);
    RestCases(if op == OpTimeout then TimeoutFlags(d.loop) else d.loop);
  }

  /** A resting loop with acks pending, whatever it receives, hands over all of them, in one delete,
      before any fetch, IDLE or exit. */
  lemma PendingGoesFirst(s: Sys, a: Action)
    requires Steady(s) && Enabled(s, a) && ByLoop(a) && s.loop.state == AtRest && !s.loop.cfg.disableDeletions
    ensures var pending := Select(s.loop, EventOf(s, a)).loop.pending;
      pending != map[] ==>
        && Next(s, a).loop.state == InDelete && Next(s, a).loop.pending == map[]
        && Next(s, a).workers == [Deleting({}, pending.Keys, pending.Keys, false)]
  {
    var d, op := Halves(s, a);
    if d.loop.pending != map[] {
      HandOver(d, op);
    }
  }

  lemma ExitedEmpty(s: Sys)
    requires Steady(s) && s.status == Exited && !s.loop.cfg.disableDeletions
    ensures s.loop.pending == map[]
  {
  }

  /** Leaving the loop never drops a pending delete. */
  lemma NothingPendingAtExit(tr: seq<Sys>, acts: seq<Action>, j: nat)
    requires IsRun(tr, acts) && j <= |acts| && tr[j].status == Exited && !tr[j].loop.cfg.disableDeletions
    ensures tr[j].loop.pending == map[]
  {
    RunSteady(tr, acts, j);
    ExitedEmpty(tr[j]);
  }

  function WithBatchSize(l: Loop, batchSize: nat): Loop {
    l.(cfg := l.cfg.(batchSize := batchSize))
  }

  /** The batch size never makes a difference. */
  lemma BatchSizeIsIrrelevant(l: Loop, op: Operation, n: nat)
    requires Flags(l)
    ensures Switch(WithBatchSize(l, n), op) ==
      match Switch(l, op)
      case SwitchPanic(site) => SwitchPanic(site)
      case Exit(l') => Exit(WithBatchSize(l', n))
      case Continue(l', job, send) => Continue(WithBatchSize(l', n), job, send)
  {
    if l.state == AtRest {
      var m := WithBatchSize(l, n);
      RestCases(if op == OpTimeout then TimeoutFlags(l) else l);
      RestCases(if op == OpTimeout then TimeoutFlags(m) else m);
    }
  }

  // ---- No lost wake-up

  predicate StartsFetch(s: Sys, t: Sys) { s.loop.state != InFetch && t.loop.state == InFetch }
  predicate StartsIdle(s: Sys, t: Sys) { s.loop.state != InIdle && t.loop.state == InIdle }

  predicate Owed(s: Sys) { s.loop.fetch > 0 || s.loop.quit > 0 }

  /** What must lead to a fetch: a mailbox update at any time, anything but its own end during an IDLE,
      and a timeout anywhere but during a fetch. */
  ghost predicate Disturbs(s: Sys, a: Action) {
    || a == Update(true)
    || (ByLoop(a) && s.loop.state == InIdle && !(a == TakeOp && s.opChan != [] && s.opChan[0] == IdleFinish))
    || (a == Timeout && s.loop.state != InFetch)
  }

  lemma SettleOwes(d: Sys, op: Operation)
    requires Flags(d.loop) && op in {OpNone, OpTimeout}
    requires || d.loop.fetch > 0 || d.loop.quit > 0 || d.loop.state == InIdle
             || (op == OpTimeout && d.loop.state != InFetch)
    ensures var t := Settle(d, Switch(d.loop, op));
      !StartsIdle(d, t) && (StartsFetch(d, t) || Owed(t))
  {
    if d.loop.state == AtRest {
      RestCases(if op == OpTimeout then TimeoutFlags(d.loop) else d.loop);
    }
  }

  lemma FinishOwes(d: Sys, op: Operation)
    requires d.loop.state != AtRest && op == FinishFor(d.loop.state) && Owed(d)
    ensures !StartsIdle(d, Settle(d, Switch(d.loop, op))) && Owed(Settle(d, Switch(d.loop, op)))
  {
  }

  lemma WorkerOwes(s: Sys, a: Action)
    requires Enabled(s, a) && !ByLoop(a)
    ensures Next(s, a).loop == s.loop
  {
  }

  lemma DisturbanceStep(s: Sys, a: Action)
    requires Steady(s) && Enabled(s, a) && (Disturbs(s, a) || Owed(s))
    ensures !StartsIdle(s, Next(s, a))
    ensures StartsFetch(s, Next(s, a)) || Owed(Next(s, a))
  {
    if ByLoop(a) {
      var d, op := Halves(s, a);
      if op in {OpNone, OpTimeout} {
        SettleOwes(d, op);
      } else {
        FinishOwes(d, op);
      }
    } else {
      WorkerOwes(s, a);
    }
  }

  /** After a disturbance, no IDLE starts until a fetch has. */
  lemma NoLostWakeup(tr: seq<Sys>, acts: seq<Action>, i: nat, j: nat)
    requires IsRun(tr, acts) && i <= j < |acts|
    requires Disturbs(tr[i], acts[i]) && StartsIdle(tr[j], tr[j + 1])
    ensures exists k :: i <= k < j && StartsFetch(tr[k], tr[k + 1])
  {
    RunSteady(tr, acts, i);
    RunSteady(tr, acts, j);
    DisturbanceStep(tr[i], acts[i]);
    if !StartsFetch(tr[i], tr[i + 1]) {
      RunSteady(tr, acts, i + 1);
      StepKeepsSteady();
      forall s, a, t | Steady(s) && Owed(s) && Step(s, a, t)
        ensures StartsFetch(s, t) || Owed(t)
      {
        DisturbanceStep(s, a);
      }
      Paths.Until(Step, Steady, Owed, StartsFetch, tr, acts, i + 1, j);
      if Owed(tr[j]) {
        DisturbanceStep(tr[j], acts[j]);
      }
    }
  }

  // ---- The stop channel

  lemma SettleIdleStart(d: Sys, op: Operation)
    requires Flags(d.loop) && (d.loop.state == AtRest ==> d.workers == [] && op in {OpNone, OpTimeout})
    requires StartsIdle(d, Settle(d, Switch(d.loop, op)))
    ensures var t := Settle(d, Switch(d.loop, op));
      t.workers == [Idling(d.loop.stopChan)] && t.loop.stop == 0 && t.loop.stopChan == d.loop.stopChan
  {
    if d.loop.state == AtRest {
      RestCases(if op == OpTimeout then TimeoutFlags(d.loop) else d.loop);
    }
  }

  lemma IdlingHolds(s: Sys)
    requires Steady(s)
    ensures forall w :: w in s.workers && w.Idling? ==> s.loop.state == InIdle && w.stop == s.loop.stopChan
  {
  }

  /** An IDLE starts on a channel not yet closed, and for as long as it runs that channel is the current one
      of the stop flag, the one the loop's next flag closes. */
  lemma IdleHoldsTheStopChannel(tr: seq<Sys>, acts: seq<Action>, j: nat)
    requires IsRun(tr, acts) && j < |acts|
    ensures forall w :: w in tr[j].workers && w.Idling? ==> tr[j].loop.state == InIdle && w.stop == tr[j].loop.stopChan
    ensures StartsIdle(tr[j], tr[j + 1]) ==>
      tr[j + 1].workers == [Idling(tr[j].loop.stopChan)] && tr[j + 1].loop.stop == 0
          && tr[j + 1].loop.stopChan == tr[j].loop.stopChan
  {
    RunSteady(tr, acts, j);
    IdlingHolds(tr[j]);
    if StartsIdle(tr[j], tr[j + 1]) {
      assert ByLoop(acts[j]);
      var d, op := Halves(tr[j], acts[j]);
      SettleIdleStart(d, op);
    }
  }

  predicate IsStopping(s: Sys) { s.loop.state == InIdle && s.loop.stop > 0 }
  predicate LeavesIdle(s: Sys, t: Sys) { s.loop.state == InIdle && t.loop.state != InIdle }

  lemma SettleStops(d: Sys, op: Operation)
    requires d.loop.state == InIdle && op in {OpNone, OpTimeout}
    ensures IsStopping(Settle(d, Switch(d.loop, op)))
  {
  }

  lemma StoppingStep(s: Sys, a: Action)
    requires Steady(s) && Enabled(s, a) && IsStopping(s)
    ensures IsStopping(Next(s, a)) || LeavesIdle(s, Next(s, a))
  {
    if ByLoop(a) {
      var d, op := Halves(s, a);
      if op in {OpNone, OpTimeout} {
        SettleStops(d, op);
      }
    }
  }

  lemma DisturbedStops(s: Sys, a: Action)
    requires Steady(s) && Enabled(s, a) && Disturbs(s, a) && s.loop.state == InIdle
    ensures IsStopping(Next(s, a))
  {
    var d, op := Halves(s, a);
    SettleStops(d, op);
  }

  lemma StoppedBy(tr: seq<Sys>, acts: seq<Action>, i: nat)
    requires IsRun(tr, acts) && i < |acts| && tr[i].loop.state == InIdle && Disturbs(tr[i], acts[i])
    ensures IsStopping(tr[i + 1])
  {
    RunSteady(tr, acts, i);
    DisturbedStops(tr[i], acts[i]);
  }

  lemma StoppingAlong(tr: seq<Sys>, acts: seq<Action>, i: nat)
    requires IsRun(tr, acts) && i < |acts| && IsStopping(tr[i])
    ensures IsStopping(tr[i + 1]) || LeavesIdle(tr[i], tr[i + 1])
  {
    RunSteady(tr, acts, i);
    StoppingStep(tr[i], acts[i]);
  }

  lemma {:induction false} StoppingUntilLeft(tr: seq<Sys>, acts: seq<Action>, i: nat, j: nat) returns (k: nat)
    requires IsRun(tr, acts) && i <= j <= |acts| && IsStopping(tr[i])
    ensures !IsStopping(tr[j]) ==> i <= k < j && LeavesIdle(tr[k], tr[k + 1])
    decreases j - i
  {
    k := i;
    if i < j {
      StoppingAlong(tr, acts, i);
      if !LeavesIdle(tr[i], tr[i + 1]) {
        k := StoppingUntilLeft(tr, acts, i + 1, j);
      }
    }
  }

  /** A disturbed IDLE is told to stop: its channel is closed at once, and stays so until a step, here returned, in
      which the IDLE is over. */
  lemma DisturbedIdleIsStopped(tr: seq<Sys>, acts: seq<Action>, i: nat, j: nat) returns (k: nat)
    requires IsRun(tr, acts) && i < j <= |acts|
    requires tr[i].loop.state == InIdle && Disturbs(tr[i], acts[i])
    ensures IsStopping(tr[i + 1])
    ensures !IsStopping(tr[j]) ==> i < k < j && LeavesIdle(tr[k], tr[k + 1])
  {
    StoppedBy(tr, acts, i);
    k := StoppingUntilLeft(tr, acts, i + 1, j);
  }

  // ---- What a fetch leaves out

  /** A fetch under way was told the sequence numbers of all the messages known, as they are known now. */
  predicate FetchIsInformed(s: Sys) {
    |s.workers| > 0 && s.workers[0].Fetching? ==> s.workers[0].existing == KnownSeqNums(s.loop.messages)
  }

  lemma AckKeepsSeqNums(l: Loop, uid: nat, ok: bool)
    ensures KnownSeqNums(HandleAck(l, uid, ok).messages) == KnownSeqNums(l.messages)
  {
    var m, m' := l.messages, HandleAck(l, uid, ok).messages;
    assert m'.Keys == m.Keys;
    assert forall u :: u in m ==> m'[u].seqNum == m[u].seqNum;
  }

  lemma SelectInformed(s: Sys, a: Action)
    requires Steady(s) && Enabled(s, a) && ByLoop(a) && FetchIsInformed(s) && Select(s.loop, EventOf(s, a)).Selected?
    ensures FetchIsInformed(Dispatch(Received(s, a), Select(s.loop, EventOf(s, a)).loop,
        Select(s.loop, EventOf(s, a)).out))
  {
    if a.AckIn? {
      AckKeepsSeqNums(s.loop, a.uid, a.ok);
    }
  }

  lemma SettleInformed(d: Sys, op: Operation)
    requires Flags(d.loop) && FetchIsInformed(d) && d.status == Running
    requires d.loop.state == AtRest ==> d.workers == [] && op in {OpNone, OpTimeout}
    ensures FetchIsInformed(Settle(d, Switch(d.loop, op)))
  {
    if d.loop.state == AtRest {
      RestCases(if op == OpTimeout then TimeoutFlags(d.loop) else d.loop);
    }
  }

  lemma InformedStep(s: Sys, a: Action)
    requires Steady(s) && Enabled(s, a) && FetchIsInformed(s)
    ensures FetchIsInformed(Next(s, a))
  {
    if ByLoop(a) {
      var d, op := Halves(s, a);
      SelectInformed(s, a);
      SettleInformed(d, op);
    }
  }

  lemma InformedThroughout(tr: seq<Sys>, acts: seq<Action>, j: nat)
    requires IsRun(tr, acts) && j <= |acts|
    ensures FetchIsInformed(tr[j])
  {
    ControlInit(tr[0]);
    StepKeepsSteady();
    var informed := (s: Sys) => Steady(s) && FetchIsInformed(s);
    forall s, a, t | informed(s) && Step(s, a, t)
      ensures informed(t)
    {
      InformedStep(s, a);
    }
    Paths.Invariant(Step, informed, tr, acts, j);
  }

  /** For as long as a fetch runs, the numbers it was told to leave out are the sequence numbers recorded for the
      messages known at that moment, no more and no fewer. */
  lemma FetchLeavesOutTheKnown(tr: seq<Sys>, acts: seq<Action>, j: nat)
    requires IsRun(tr, acts) && j <= |acts|
    ensures forall w :: w in tr[j].workers && w.Fetching? ==>
      forall n :: n in w.existing <==> exists u :: u in tr[j].loop.messages && tr[j].loop.messages[u].seqNum == n
  {
    InformedThroughout(tr, acts, j);
    RunSteady(tr, acts, j);
    Agree(tr[j]);
  }

  /** So no fetch asks for a message by a sequence number recorded for a known one, however large the mailbox and the
      fetch. */
  lemma FetchAsksForNothingKnown(tr: seq<Sys>, acts: seq<Action>, j: nat, w: Worker, wanted: set<nat>, size: nat,
      maxSize: nat, u: nat)
    requires IsRun(tr, acts) && j <= |acts| && w in tr[j].workers && w.Fetching?
    requires FetchSet.IsFetchSet(wanted, w.existing, size, maxSize)
    requires u in tr[j].loop.messages
    ensures tr[j].loop.messages[u].seqNum !in wanted
  {
    FetchLeavesOutTheKnown(tr, acts, j);
    assert tr[j].loop.messages[u].seqNum in w.existing;
  }

  // ---- No fetch without cause

  lemma SettleWants(d: Sys, op: Operation)
    requires Flags(d.loop) && d.status == Running && (d.loop.state == AtRest ==> op in {OpNone, OpTimeout})
    requires d.loop.state != InIdle || op == IdleFinish
    requires op != OpTimeout || d.loop.state == InFetch
    ensures var t := Settle(d, Switch(d.loop, op));
      && (t.loop.fetch > 0 ==> d.loop.fetch > 0 && !StartsFetch(d, t))
      && (StartsFetch(d, t) ==> d.loop.fetch > 0)
  {
    if d.loop.state == AtRest {
      RestCases(d.loop);
    }
  }

  lemma SelectWants(s: Sys, a: Action)
    requires Steady(s) && Enabled(s, a) && ByLoop(a) && a != Update(true) && Select(s.loop, EventOf(s, a)).Selected?
    ensures Select(s.loop, EventOf(s, a)).loop.fetch == s.loop.fetch
  {
  }

  lemma SettleSpendsFetch(d: Sys, op: Operation)
    requires Flags(d.loop) && (d.loop.state == AtRest ==> op in {OpNone, OpTimeout})
    ensures StartsFetch(d, Settle(d, Switch(d.loop, op))) ==> Settle(d, Switch(d.loop, op)).loop.fetch == 0
  {
    if d.loop.state == AtRest {
      RestCases(if op == OpTimeout then TimeoutFlags(d.loop) else d.loop);
    }
  }

  /** A fetch comes to be wanted, or is started, only by a disturbance or because it was wanted; and starting it leaves
      none wanted. */
  lemma WantStep(s: Sys, a: Action)
    requires Steady(s) && Enabled(s, a)
    ensures StartsFetch(s, Next(s, a)) ==> Next(s, a).loop.fetch == 0
    ensures StartsFetch(s, Next(s, a)) || Next(s, a).loop.fetch > 0 ==> Disturbs(s, a) || s.loop.fetch > 0
  {
    if ByLoop(a) {
      var d, op := Halves(s, a);
      SettleSpendsFetch(d, op);
      if !Disturbs(s, a) {
        SelectWants(s, a);
        SettleWants(d, op);
      }
    } else {
      WorkerOwes(s, a);
    }
  }

  predicate Wants(s: Sys) { s.loop.fetch > 0 }

  lemma WantedBecause(tr: seq<Sys>, acts: seq<Action>, j: nat) returns (i: nat)
    requires IsRun(tr, acts) && j <= |acts| && Wants(tr[j])
    ensures i < j && Disturbs(tr[i], acts[i])
    ensures forall k :: i <= k < j ==> !StartsFetch(tr[k], tr[k + 1])
  {
    ControlInit(tr[0]);
    StepKeepsSteady();
    forall s, a, t | Steady(s) && Step(s, a, t) && Wants(t)
      ensures !StartsFetch(s, t) && (Disturbs(s, a) || Wants(s))
    {
      WantStep(s, a);
    }
    i := Paths.Traced(Step, Steady, Wants, Disturbs, StartsFetch, tr, acts, j);
  }

  lemma StartedBecause(tr: seq<Sys>, acts: seq<Action>, j: nat)
    requires IsRun(tr, acts) && j < |acts| && StartsFetch(tr[j], tr[j + 1])
    ensures Disturbs(tr[j], acts[j]) || Wants(tr[j])
  {
    RunSteady(tr, acts, j);
    WantStep(tr[j], acts[j]);
  }

  /** Every fetch that starts was caused by a disturbance since the last one started, which is the step returned. */
  lemma EveryFetchHasACause(tr: seq<Sys>, acts: seq<Action>, j: nat) returns (i: nat)
    requires IsRun(tr, acts) && j < |acts| && StartsFetch(tr[j], tr[j + 1])
    ensures i <= j && Disturbs(tr[i], acts[i])
    ensures forall k :: i <= k < j ==> !StartsFetch(tr[k], tr[k + 1])
  {
    StartedBecause(tr, acts, j);
    if Wants(tr[j]) {
      i := WantedBecause(tr, acts, j);
    } else {
      i := j;
    }
  }

  // ---- The loop never stalls

  /** The steps by which workers finish and the loop hears of it. */
  predicate Progress(a: Action) {
    a.IssueStore? || a.WorkerDone? || a.WorkerSend? || a.TakeOp? || a.DeliverFetch?
  }

  /** A loop at rest has a wake-up in its channel, unless nothing has happened to it yet. */
  predicate RestIsWoken(s: Sys) {
    s.status == Running && s.loop.state == AtRest ==> s.opChan == [OpNone] || s.loop == FreshLoop(s.loop.cfg)
  }

  lemma SettleWakes(d: Sys, op: Operation)
    requires Flags(d.loop) && (d.loop.state == AtRest ==> op in {OpNone, OpTimeout})
    requires op in {OpNone, OpTimeout} || (d.loop.state != AtRest && op == FinishFor(d.loop.state) && d.opChan == [])
    ensures RestIsWoken(Settle(d, Switch(d.loop, op)))
  {
    if d.loop.state == AtRest {
      RestCases(if op == OpTimeout then TimeoutFlags(d.loop) else d.loop);
    }
  }

  lemma WakeStep(s: Sys, a: Action)
    requires Steady(s) && Enabled(s, a) && RestIsWoken(s)
    ensures RestIsWoken(Next(s, a))
  {
    if ByLoop(a) {
      var d, op := Halves(s, a);
      SettleWakes(d, op);
    } else {
      WorkerOwes(s, a);
    }
  }

  lemma WokenThroughout(tr: seq<Sys>, acts: seq<Action>, j: nat)
    requires IsRun(tr, acts) && j <= |acts|
    ensures RestIsWoken(tr[j])
  {
    ControlInit(tr[0]);
    StepKeepsSteady();
    var woken := (s: Sys) => Steady(s) && RestIsWoken(s);
    forall s, a, t | woken(s) && Step(s, a, t)
      ensures woken(t)
    {
      WakeStep(s, a);
    }
    Paths.Invariant(Step, woken, tr, acts, j);
  }

  lemma ProgressOf(s: Sys) returns (a: Action)
    requires Steady(s) && s.status == Running && (s.loop.state == AtRest ==> s.opChan == [OpNone])
    ensures Progress(a) && Enabled(s, a) && Honest(s, a)
  {
    if s.loop.state == AtRest || s.workers == [] {
      a := TakeOp;
    } else if s.workers[0].Finishing? {
      a := if s.opChan == [] then WorkerSend(0) else TakeOp;
    } else if s.workers[0].Deleting? && !s.workers[0].issued {
      a := IssueStore(0);
    } else {
      a := WorkerDone(0);
    }
  }

  /** From its first event to its exit the receiver always has a step to take that waits for nothing but its own
      workers. */
  lemma NeverStalls(tr: seq<Sys>, acts: seq<Action>, j: nat) returns (a: Action)
    requires IsRun(tr, acts) && j <= |acts| && tr[j].status == Running && tr[j].loop != FreshLoop(tr[j].loop.cfg)
    ensures Progress(a) && Enabled(tr[j], a)
  {
    RunSteady(tr, acts, j);
    WokenThroughout(tr, acts, j);
    a := ProgressOf(tr[j]);
  }

  // ---- What an ack does

  lemma AckMarks(l: Loop, u: nat, ok: bool)
    requires u in l.messages && l.messages[u].state == Unacked
    ensures var m := HandleAck(l, u, ok).messages;
      u in m && m[u].message == l.messages[u].message && (ok <==> m[u].state != Unacked)
  {
  }

  lemma AckStep(s: Sys, u: nat, ok: bool)
    requires Inv(s) && s.status == Running && IsUnacked(s, u)
    ensures var t := Next(s, AckIn(u, ok));
      && u in t.loop.messages && t.loop.messages[u].message == s.loop.messages[u].message
      && (ok <==> !IsUnacked(t, u))
  {
    AckMarks(s.loop, u, ok);
    IterationGoesOnOrLeaves(s, AckIn(u, ok));
    SwitchKeepsMessages(HandleAck(s.loop, u, ok), OpNone);
  }

  lemma AckAbandonsNothing(s: Sys, u: nat, ok: bool)
    requires Inv(s) && s.status == Running
    ensures Next(s, AckIn(u, ok)).abandoned == s.abandoned
  {
    var d, op := Halves(s, AckIn(u, ok));
    SettleKeepsAbandoned(d, Switch(d.loop, op));
  }

  lemma AbandonedIsAcked(s: Sys, u: nat)
    requires Inv(s) && IsUnacked(s, u)
    ensures !IsAbandoned(s, u)
  {
  }

  /** An ack without error puts an unacked message's delete in hand: it is pending, or in a delete that has started. An
      ack with an error leaves it unacked. */
  lemma AckPutsDeleteInHand(tr: seq<Sys>, acts: seq<Action>, j: nat, u: nat, ok: bool)
    requires IsHonestRun(tr, acts) && j < |acts| && acts[j] == AckIn(u, ok) && IsUnacked(tr[j], u)
    ensures ok ==> IsPending(tr[j + 1], u) || IsInFlight(tr[j + 1], u)
    ensures !ok ==> IsUnacked(tr[j + 1], u)
  {
    RunInv(tr, acts, j);
    RunInv(tr, acts, j + 1);
    AckStep(tr[j], u, ok);
    AckAbandonsNothing(tr[j], u, ok);
    AbandonedIsAcked(tr[j], u);
    OnePlace(tr[j + 1], u);
  }
}
