/** What the assumption that servers are honest is for: one answer for a message that was not in the store, and a later
    store names that message, though nobody ever acked it. */
module ReceiverHonesty {
  import opened ReceiverSpec
  import opened ReceiverSystem
  import opened ReceiverRuns
  import Paths

  predicate NotAnAck(a: Action) {
    !a.AckIn?
  }

  ghost predicate AboutToStore(s: Sys, uid: nat) {
    Enabled(s, IssueStore(0)) && uid in s.workers[0].store
  }

  /** Without another ack, and with servers honest from here on, a state that meets `goal` may be reached. */
  ghost predicate Leads(s: Sys, goal: Sys -> bool) {
    Paths.Leads(HonestStep, NotAnAck, s, goal)
  }

  ghost function StoreOf(uid: nat): Sys -> bool {
    (s: Sys) => AboutToStore(s, uid)
  }

  /** A delete is pending for `uid` in a receiver that deletes. */
  ghost predicate Due(s: Sys, uid: nat) {
    Steady(s) && s.status == Running && !s.loop.cfg.disableDeletions && uid in s.loop.pending
  }

  /** A delete that has been issued is at work. */
  predicate StoreIssued(s: Sys) {
    s.loop.state == InDelete && |s.workers| == 1 && s.workers[0].Deleting? && s.workers[0].issued
  }

  // The way there, one step at a time: from each of these states to the next.

  lemma Rests(s: Sys, uid: nat) returns (t: Sys)
    requires Due(s, uid) && s.loop.state == AtRest && s.opChan == [OpNone]
    ensures HonestStep(s, TakeOp, t) && AboutToStore(t, uid)
  {
    PendingGoesFirst(s, TakeOp);
    SteadyKept(s, TakeOp);
    t := Next(s, TakeOp);
  }

  lemma Finishes(s: Sys, uid: nat) returns (t: Sys)
    requires Due(s, uid) && s.loop.state == InDelete && s.opChan == [DeleteFinish]
    ensures HonestStep(s, TakeOp, t) && Due(t, uid) && t.loop.state == AtRest && t.opChan == [OpNone]
  {
    SteadyKept(s, TakeOp);
    t := Next(s, TakeOp);
  }

  lemma Sends(s: Sys, uid: nat) returns (t: Sys)
    requires Due(s, uid) && s.loop.state == InDelete && s.workers == [Finishing(DeleteFinish)] && s.opChan == []
    ensures HonestStep(s, WorkerSend(0), t) && Due(t, uid) && t.loop.state == InDelete && t.opChan == [DeleteFinish]
  {
    SteadyKept(s, WorkerSend(0));
    t := Next(s, WorkerSend(0));
  }

  lemma IsDone(s: Sys, uid: nat) returns (t: Sys)
    requires Due(s, uid) && StoreIssued(s) && s.opChan == []
    ensures HonestStep(s, WorkerDone(0), t) && Due(t, uid)
    ensures t.loop.state == InDelete && t.workers == [Finishing(DeleteFinish)] && t.opChan == []
  {
    SteadyKept(s, WorkerDone(0));
    t := Next(s, WorkerDone(0));
  }

  lemma HearsStale(s: Sys, uid: nat) returns (t: Sys)
    requires Due(s, uid) && StoreIssued(s) && s.opChan != []
    ensures HonestStep(s, TakeOp, t) && Due(t, uid) && StoreIssued(t) && t.opChan == []
  {
    SteadyKept(s, TakeOp);
    t := Next(s, TakeOp);
  }

  lemma FromDone(s: Sys, uid: nat)
    requires Due(s, uid) && StoreIssued(s) && s.opChan == []
    ensures Leads(s, StoreOf(uid))
  {
    var t := IsDone(s, uid);
    var u := Sends(t, uid);
    var v := Finishes(u, uid);
    var w := Rests(v, uid);
    Paths.IsThere(HonestStep, NotAnAck, w, StoreOf(uid));
    Paths.OneStepEarlier(HonestStep, NotAnAck, v, TakeOp, w, StoreOf(uid));
    Paths.OneStepEarlier(HonestStep, NotAnAck, u, TakeOp, v, StoreOf(uid));
    Paths.OneStepEarlier(HonestStep, NotAnAck, t, WorkerSend(0), u, StoreOf(uid));
    Paths.OneStepEarlier(HonestStep, NotAnAck, s, WorkerDone(0), t, StoreOf(uid));
  }

  lemma FromIssued(s: Sys, uid: nat)
    requires Due(s, uid) && StoreIssued(s)
    ensures Leads(s, StoreOf(uid))
  {
    if s.opChan == [] {
      FromDone(s, uid);
    } else {
      var t := HearsStale(s, uid);
      FromDone(t, uid);
      Paths.OneStepEarlier(HonestStep, NotAnAck, s, TakeOp, t, StoreOf(uid));
    }
  }

  lemma AnswerMakesDue(s: Sys, uid: nat) returns (t: Sys)
    requires Steady(s) && s.status == Running && StoreIssued(s) && !s.loop.cfg.disableDeletions
    requires uid in s.loop.messages
    ensures Step(s, DeliverAnswer(0, uid, false), t) && Due(t, uid) && StoreIssued(t)
  {
    var a := DeliverAnswer(0, uid, false);
    var l := HandleAnswer(s.loop, uid, Acked);
    assert uid in l.pending && l.state == InDelete && l.cfg == s.loop.cfg;
    SteadyKept(s, a);
    IterationGoesOnOrLeaves(s, a);
    t := Next(s, a);
    assert t.loop == l && t.workers == Received(s, a).workers;
  }

  /** While a store is being answered, a single answer that an unacked message is not deleted leads to a store of that
      message. That answer is dishonest, and nothing after it is. */
  lemma DishonestAnswerStores(s: Sys, uid: nat) returns (t: Sys)
    requires Inv(s) && s.status == Running && StoreIssued(s) && !s.loop.cfg.disableDeletions
    requires uid in s.loop.messages && s.loop.messages[uid].state == Unacked
    ensures Step(s, DeliverAnswer(0, uid, false), t) && !Honest(s, DeliverAnswer(0, uid, false))
    ensures Leads(t, StoreOf(uid))
  {
    t := AnswerMakesDue(s, uid);
    FromIssued(t, uid);
  }

  // ---- Such a state is reached

  /** A fetch is over but for its end, one of its messages is acked and one, `uid`, is not. */
  ghost predicate FetchEnding(s: Sys, uid: nat) {
    && Steady(s) && s.status == Running && !s.loop.cfg.disableDeletions && s.loop.pending != map[]
    && s.loop.state == InFetch && s.workers == [Finishing(FetchFinish)] && s.opChan == []
    && HoldsUnacked(s, uid)
  }

  predicate HoldsUnacked(s: Sys, uid: nat) {
    HoldsUnackedIn(s.loop, uid)
  }

  predicate HoldsUnackedIn(l: Loop, uid: nat) {
    uid in l.messages && l.messages[uid].state == Unacked
  }

  lemma FetchSends(s: Sys, uid: nat) returns (t: Sys)
    requires FetchEnding(s, uid)
    ensures HonestStep(s, WorkerSend(0), t) && Steady(t) && t.status == Running && t.loop == s.loop
    ensures t.workers == [] && t.opChan == [FetchFinish]
  {
    SteadyKept(s, WorkerSend(0));
    t := Next(s, WorkerSend(0));
  }

  lemma FetchEnds(s: Sys) returns (t: Sys)
    requires Steady(s) && s.status == Running && s.loop.state == InFetch && s.opChan == [FetchFinish]
    ensures HonestStep(s, TakeOp, t) && Steady(t) && t.status == Running && t.loop == s.loop.(state := AtRest)
    ensures t.opChan == [OpNone]
  {
    SteadyKept(s, TakeOp);
    t := Next(s, TakeOp);
  }

  lemma DeleteStarts(s: Sys) returns (t: Sys)
    requires Steady(s) && s.status == Running && s.loop.state == AtRest && s.opChan == [OpNone]
    requires s.loop.pending != map[] && !s.loop.cfg.disableDeletions
    ensures HonestStep(s, TakeOp, t) && Steady(t) && t.status == Running && t.loop.cfg == s.loop.cfg
    ensures t.loop.state == InDelete && t.loop.messages == s.loop.messages && |t.workers| == 1 && t.workers[0].Deleting?
    ensures !t.workers[0].issued && t.workers[0].resend == {}
  {
    SteadyKept(s, TakeOp);
    PendingGoesFirst(s, TakeOp);
    IterationGoesOnOrLeaves(s, TakeOp);
    SwitchKeepsMessages(s.loop, OpNone);
    t := Next(s, TakeOp);
  }

  lemma StoreGoesOut(s: Sys) returns (t: Sys)
    requires Steady(s) && s.status == Running && s.loop.state == InDelete
    requires |s.workers| == 1 && s.workers[0].Deleting? && !s.workers[0].issued && s.workers[0].resend == {}
    ensures HonestStep(s, IssueStore(0), t) && t.status == Running && StoreIssued(t) && t.loop == s.loop
  {
    t := Next(s, IssueStore(0));
  }

  ghost function StoreOutWithout(uid: nat): Sys -> bool {
    (s: Sys) => StoreIssued(s) && s.status == Running && !s.loop.cfg.disableDeletions && HoldsUnacked(s, uid)
  }

  /** From there the delete of the acked one gets under way with the other still unacked. */
  lemma DeleteGetsUnderWay(s: Sys, uid: nat)
    requires FetchEnding(s, uid)
    ensures Leads(s, StoreOutWithout(uid))
  {
    var t := FetchSends(s, uid);
    var u := FetchEnds(t);
    var v := DeleteStarts(u);
    var w := StoreGoesOut(v);
    Paths.IsThere(HonestStep, NotAnAck, w, StoreOutWithout(uid));
    Paths.OneStepEarlier(HonestStep, NotAnAck, v, IssueStore(0), w, StoreOutWithout(uid));
    Paths.OneStepEarlier(HonestStep, NotAnAck, u, TakeOp, v, StoreOutWithout(uid));
    Paths.OneStepEarlier(HonestStep, NotAnAck, t, TakeOp, u, StoreOutWithout(uid));
    Paths.OneStepEarlier(HonestStep, NotAnAck, s, WorkerSend(0), t, StoreOutWithout(uid));
  }
}
