/** Once asked to quit, the receiver starts nothing new and runs out of work. */
module ReceiverQuit {
  import opened Imap
  import opened Numbers
  import opened ReceiverSpec
  import opened ReceiverSystem
  import opened ReceiverRuns
  import FetchSet
  import Paths

  ghost predicate Quitting(s: Sys) {
    Inv(s) && s.loop.quit > 0
  }

  function UnackedUids(m: map<nat, Entry>): set<nat> {
    set u | u in m && m[u].state == Unacked
  }

  /** One for every ack still to come, and one for a delete batch that is waiting. */
  function Owing(l: Loop): nat {
    |UnackedUids(l.messages)| + One(!l.cfg.disableDeletions && l.pending != map[])
  }

  /** An upper bound on the remaining visits to StateNone. */
  function Visits(s: Sys): nat {
    Owing(s.loop) + One(s.status == Running)
  }

  predicate RestVisit(s: Sys, a: Action) {
    ByLoop(a) && s.loop.state == AtRest
  }

  /** A delete the server refused: the message is queued again. */
  predicate Refused(a: Action) {
    a.DeliverAnswer? && !a.gone
  }

  lemma AckOwes(l: Loop, uid: nat, ok: bool)
    requires forall u :: u in l.pending ==> u in l.messages
    ensures Owing(HandleAck(l, uid, ok)) <= Owing(l)
  {
    var before := UnackedUids(l.messages);
    var after := UnackedUids(HandleAck(l, uid, ok).messages);
    if uid in before && ok {
      assert after == before - {uid};
    } else {
      assert after == before;
    }
  }

  lemma AnswerOwes(l: Loop, uid: nat, gone: bool)
    ensures Owing(HandleAnswer(l, uid, if gone then Deleted else Acked)) <= Owing(l) + One(!gone)
  {
    FetchSet.SubsetSize(UnackedUids(HandleAnswer(l, uid, if gone then Deleted else Acked).messages),
        UnackedUids(l.messages));
  }

  /** Receiving owes nothing new once quitting, but for a refused delete, and sends nothing out. */
  lemma SelectOwes(l: Loop, ev: Event)
    requires WellFormed(ev) && l.quit > 0
    requires forall u :: u in l.pending ==> u in l.messages
    requires ev.GotAnswer? ==> ev.answer != Unacked
    requires Select(l, ev).Selected?
    ensures Select(l, ev).out == []
    ensures Owing(Select(l, ev).loop) <= Owing(l) + One(ev.GotAnswer? && ev.answer == Acked)
  {
    if ev.GotAck? {
      AckOwes(l, ev.uid, ev.ok);
    } else if ev.GotAnswer? {
      AnswerOwes(l, ev.uid, ev.answer == Deleted);
    }
  }

  lemma SettleOwing(d: Sys, op: Operation)
    requires d.status == Running && d.loop.quit > 0 && Flags(d.loop)
    requires d.loop.state == AtRest ==> op in {OpNone, OpTimeout}
    ensures var t := Settle(d, Switch(d.loop, op));
      && Visits(t) + One(d.loop.state == AtRest) <= Visits(d)
      && !StartsFetch(d, t) && !StartsIdle(d, t)
  {
    if d.loop.state == AtRest {
      RestCases(if op == OpTimeout then TimeoutFlags(d.loop) else d.loop);
    }
  }

  lemma SwitchKeepsQuit(d: Sys, op: Operation)
    requires Flags(d.loop)
    ensures Settle(d, Switch(d.loop, op)).loop.quit == d.loop.quit
    ensures Settle(d, Switch(d.loop, op)).dispatched == d.dispatched
  {
    if d.loop.state == AtRest {
      RestCases(if op == OpTimeout then TimeoutFlags(d.loop) else d.loop);
    }
  }

  lemma HalvesOwe(s: Sys, a: Action) returns (d: Sys, op: Operation)
    requires Quitting(s) && Trusted(s, a) && ByLoop(a)
    ensures Next(s, a) == Settle(d, Switch(d.loop, op))
    ensures d.status == Running && d.loop.quit > 0 && Flags(d.loop) && d.loop.state == s.loop.state
    ensures d.loop.state == AtRest ==> op in {OpNone, OpTimeout}
    ensures d.dispatched == s.dispatched
    ensures Owing(d.loop) <= Owing(s.loop) + One(Refused(a))
  {
    d, op := Halves(s, a);
    SelectOwes(s.loop, EventOf(s, a));
    assert s.dispatched + [] == s.dispatched;
  }

  /** No step of a quitting receiver fetches, idles or dispatches; a visit to StateNone uses one up. */
  lemma QuitStep(s: Sys, a: Action)
    requires Quitting(s) && Trusted(s, a)
    ensures Quitting(Next(s, a))
    ensures Next(s, a).dispatched == s.dispatched
    ensures !StartsFetch(s, Next(s, a)) && !StartsIdle(s, Next(s, a))
    ensures Visits(Next(s, a)) + One(RestVisit(s, a)) <= Visits(s) + One(Refused(a))
  {
    InvKept(s, a);
    if ByLoop(a) {
      var d, op := HalvesOwe(s, a);
      SettleOwing(d, op);
      SwitchKeepsQuit(d, op);
    }
  }

  // ---- How far the worker is from being done

  function Stage(s: Sys): nat {
    if s.loop.state == AtRest then 0
    else if s.workers == [] then 1
    else |s.opChan| + Distance(s.workers[0])
  }

  function Distance(w: Worker): nat {
    match w
    case Finishing(_) => 2
    case Deleting(_, _, _, issued) => if issued then 3 else 4
    case _ => 3
  }

  function Remaining(s: Sys): nat {
    8 * Visits(s) + Stage(s)
  }

  lemma ReceivedFalls(s: Sys, a: Action)
    requires Inv(s) && Trusted(s, a) && ByLoop(a) && s.loop.state != AtRest
    requires a == TakeOp ==> s.opChan[0] == OpNone
    ensures Stage(Received(s, a)) + One(Progress(a)) <= Stage(s)
  {
  }

  lemma SettleKeepsStage(d: Sys, op: Operation)
    requires d.loop.state != AtRest && op in {OpNone, OpTimeout}
    ensures Stage(Settle(d, Switch(d.loop, op))) == Stage(d)
  {
  }

  lemma SettleFinishEndsStage(d: Sys, op: Operation)
    requires d.loop.state != AtRest && op == FinishFor(d.loop.state) && d.opChan == []
    ensures Stage(Settle(d, Switch(d.loop, op))) == 0
  {
  }

  lemma WorkerFalls(s: Sys, a: Action)
    requires Inv(s) && Trusted(s, a) && !ByLoop(a)
    ensures Stage(Next(s, a)) + 1 <= Stage(s)
  {
  }

  lemma StageFalls(s: Sys, a: Action)
    requires Inv(s) && Trusted(s, a) && !RestVisit(s, a)
    ensures Stage(Next(s, a)) + One(Progress(a)) <= Stage(s)
  {
    if ByLoop(a) {
      var d, op := Halves(s, a);
      if op in {OpNone, OpTimeout} {
        ReceivedFalls(s, a);
        SettleKeepsStage(d, op);
        assert Stage(d) == Stage(Received(s, a));
      } else {
        SettleFinishEndsStage(d, op);
      }
    } else {
      WorkerFalls(s, a);
    }
  }

  lemma StageIsSmall(s: Sys)
    requires Inv(s)
    ensures Stage(s) <= 5
  {
  }

  lemma RemainingFalls(s: Sys, a: Action)
    requires Quitting(s) && Trusted(s, a)
    ensures Remaining(Next(s, a)) + One(Progress(a)) <= Remaining(s) + 8 * One(Refused(a))
  {
    QuitStep(s, a);
    if RestVisit(s, a) {
      StageIsSmall(Next(s, a));
    } else {
      StageFalls(s, a);
    }
  }

  /** Until it has exited, a quitting receiver can always make progress by itself. */
  lemma ProgressIsPossible(s: Sys) returns (a: Action)
    requires Quitting(s) && s.status == Running
    ensures Progress(a) && Trusted(s, a)
  {
    if s.loop.state == AtRest || s.workers == [] {
      a := TakeOp;
    } else if s.workers[0].Finishing? {
      a := if s.opChan == [] then WorkerSend(0) else TakeOp;
    } else if s.workers[0].Deleting? && !s.workers[0].issued {
      a := IssueStore(0);
    } else {
      a := WorkerDone(0);
    }
  }

  lemma QuittingKept()
    ensures Paths.Preserves(HonestStep, Quitting)
  {
    forall s, a, t | Quitting(s) && HonestStep(s, a, t)
      ensures Quitting(t)
    {
      QuitStep(s, a);
    }
  }

  /** After a quit, in any run whatever, StateNone is visited at most once per ack outstanding, once for the
      batch waiting, once to leave, and once per refused delete. */
  lemma QuitBoundsVisits(tr: seq<Sys>, acts: seq<Action>)
    requires Paths.IsPath(HonestStep, tr, acts) && Quitting(tr[0])
    ensures Paths.Sum((s: Sys, a: Action) => One(RestVisit(s, a)), tr, acts) + Visits(tr[|acts|])
         <= Visits(tr[0]) + Paths.Sum((s: Sys, a: Action) => One(Refused(a)), tr, acts)
  {
    var pays := (s: Sys, a: Action) => One(RestVisit(s, a));
    var earns := (s: Sys, a: Action) => One(Refused(a));
    QuittingKept();
    forall s, a, t | Quitting(s) && HonestStep(s, a, t)
      ensures Visits(t) + pays(s, a) <= Visits(s) + earns(s, a)
    {
      QuitStep(s, a);
    }
    Paths.Potential(HonestStep, Quitting, Visits, pays, earns, tr, acts);
  }

  function StepMade(s: Sys, a: Action): nat { One(Progress(a)) }
  function StepCost(s: Sys, a: Action): nat { 8 * One(Refused(a)) }

  /** The progress steps of a run. */
  ghost function ProgressMade(tr: seq<Sys>, acts: seq<Action>): nat
    requires |tr| == |acts| + 1
  {
    Paths.Sum(StepMade, tr, acts)
  }

  /** Eight for every delete refused along a run. */
  ghost function RefusalCost(tr: seq<Sys>, acts: seq<Action>): nat
    requires |tr| == |acts| + 1
  {
    Paths.Sum(StepCost, tr, acts)
  }

  /** Progress steps are just as bounded. */
  lemma QuitBoundsProgress(tr: seq<Sys>, acts: seq<Action>)
    requires Paths.IsPath(HonestStep, tr, acts) && Quitting(tr[0])
    ensures ProgressMade(tr, acts) + Remaining(tr[|acts|]) <= Remaining(tr[0]) + RefusalCost(tr, acts)
  {
    var pays, earns := StepMade, StepCost;
    QuittingKept();
    forall s, a, t | Quitting(s) && HonestStep(s, a, t)
      ensures Remaining(t) + pays(s, a) <= Remaining(s) + earns(s, a)
    {
      RemainingFalls(s, a);
    }
    Paths.Potential(HonestStep, Quitting, Remaining, pays, earns, tr, acts);
  }

  lemma QuittingExits(tr: seq<Sys>, acts: seq<Action>)
    requires Paths.IsPath(HonestStep, tr, acts) && Quitting(tr[0])
    requires ProgressMade(tr, acts) >= Remaining(tr[0]) + RefusalCost(tr, acts)
    ensures tr[|acts|].status == Exited
  {
    QuitBoundsProgress(tr, acts);
    QuittingKept();
    Paths.Invariant(HonestStep, Quitting, tr, acts, |acts|);
  }

  /** A quitting receiver that can make no more progress has exited. */
  lemma QuitStuckHasExited(s: Sys)
    requires Quitting(s) && forall a :: Progress(a) ==> !Trusted(s, a)
    ensures s.status == Exited
  {
    if s.status == Running {
      var a := ProgressIsPossible(s);
    }
  }

  // ---- How many answers a server can still give

  /** Messages that a store may still be answered for: unacked, pending, or in the delete in flight. */
  function Answerable(s: Sys): nat {
    AnswerableOf(s.loop, InFlight(s))
  }

  function AnswerableOf(l: Loop, inFlight: set<nat>): nat {
    |UnackedUids(l.messages)| + |l.pending.Keys| + |inFlight|
  }

  lemma AckAnswerable(l: Loop, f: set<nat>, b: set<nat>, uid: nat, ok: bool)
    requires Placed(l.messages, l.pending, f, b)
    ensures AnswerableOf(HandleAck(l, uid, ok), f) <= AnswerableOf(l, f)
  {
    var l' := HandleAck(l, uid, ok);
    if ok && uid in UnackedUids(l.messages) {
      assert UnackedUids(l'.messages) == UnackedUids(l.messages) - {uid};
      assert l'.pending.Keys == l.pending.Keys + {uid};
    } else {
      assert l' == l;
    }
  }

  lemma AnswerAnswerable(l: Loop, f: set<nat>, b: set<nat>, uid: nat, gone: bool)
    requires Placed(l.messages, l.pending, f, b) && uid in f
    ensures AnswerableOf(HandleAnswer(l, uid, if gone then Deleted else Acked), f - {uid}) + 1
         <= AnswerableOf(l, f) + One(!gone)
  {
    var l' := HandleAnswer(l, uid, if gone then Deleted else Acked);
    assert UnackedUids(l'.messages) == UnackedUids(l.messages);
    if !gone {
      assert l'.pending.Keys == l.pending.Keys + {uid};
    }
  }

  lemma SelectAnswerable(s: Sys, a: Action)
    requires Quitting(s) && Trusted(s, a) && ByLoop(a) && Select(s.loop, EventOf(s, a)).Selected?
    ensures AnswerableOf(Select(s.loop, EventOf(s, a)).loop, InFlight(Received(s, a))) + One(a.DeliverAnswer?)
         <= Answerable(s) + One(Refused(a))
  {
    if a.AckIn? {
      AckAnswerable(s.loop, InFlight(s), s.abandoned, a.uid, a.ok);
    } else if a.DeliverAnswer? {
      AnswerAnswerable(s.loop, InFlight(s), s.abandoned, a.uid, a.gone);
    } else if a.DeliverFetch? {
      assert InFlight(Received(s, a)) == {};
    }
  }

  lemma SettleAnswerable(d: Sys, op: Operation)
    requires Flags(d.loop) && PendingAcked(d.loop) && (d.loop.state == AtRest ==> d.workers == [])
    ensures Answerable(Settle(d, Switch(d.loop, op))) <= Answerable(d)
  {
    SwitchKeepsMessages(d.loop, op);
    BatchOfAcked(d.loop.pending);
  }

  lemma HalvesAnswerable(s: Sys, a: Action) returns (d: Sys, op: Operation)
    requires Quitting(s) && Trusted(s, a) && ByLoop(a)
    ensures Next(s, a) == Settle(d, Switch(d.loop, op))
    ensures Flags(d.loop) && PendingAcked(d.loop) && (d.loop.state == AtRest ==> d.workers == [])
    ensures Answerable(d) + One(a.DeliverAnswer?) <= Answerable(s) + One(Refused(a))
  {
    d, op := Halves(s, a);
    SelectAnswerable(s, a);
  }

  lemma WorkerAnswerable(s: Sys, a: Action)
    requires Quitting(s) && Trusted(s, a) && !ByLoop(a)
    ensures Answerable(Next(s, a)) <= Answerable(s)
  {
  }

  lemma AnswerableStep(s: Sys, a: Action)
    requires Quitting(s) && Trusted(s, a)
    ensures Answerable(Next(s, a)) + One(a.DeliverAnswer?) <= Answerable(s) + One(Refused(a))
  {
    if ByLoop(a) {
      var d, op := HalvesAnswerable(s, a);
      SettleAnswerable(d, op);
    } else {
      WorkerAnswerable(s, a);
    }
  }

  /** Answers to a store, the one kind of worker step that is no progress step, are bounded as well. */
  lemma QuitBoundsAnswers(tr: seq<Sys>, acts: seq<Action>)
    requires Paths.IsPath(HonestStep, tr, acts) && Quitting(tr[0])
    ensures Paths.Sum((s: Sys, a: Action) => One(a.DeliverAnswer?), tr, acts) + Answerable(tr[|acts|])
         <= Answerable(tr[0]) + Paths.Sum((s: Sys, a: Action) => One(Refused(a)), tr, acts)
  {
    var pays := (s: Sys, a: Action) => One(a.DeliverAnswer?);
    var earns := (s: Sys, a: Action) => One(Refused(a));
    QuittingKept();
    forall s, a, t | Quitting(s) && HonestStep(s, a, t)
      ensures Answerable(t) + pays(s, a) <= Answerable(s) + earns(s, a)
    {
      AnswerableStep(s, a);
    }
    Paths.Potential(HonestStep, Quitting, Answerable, pays, earns, tr, acts);
  }

  // ---- From the request to quit

  lemma QuitRaisesFlag(s: Sys)
    requires Inv(s) && s.status == Running
    ensures var t := Next(s, Quit);
      Quitting(t) && !StartsFetch(s, t) && !StartsIdle(s, t) && t.dispatched == s.dispatched
  {
    InvKept(s, Quit);
    var d, op := Halves(s, Quit);
    assert d.loop.quit > 0 && s.dispatched + [] == s.dispatched;
    SettleOwing(d, op);
    SwitchKeepsQuit(d, op);
  }

  lemma QuitIsAnswered(tr: seq<Sys>, acts: seq<Action>, i: nat)
    requires IsHonestRun(tr, acts) && i < |acts| && acts[i] == Quit
    ensures Quitting(tr[i + 1]) && !StartsFetch(tr[i], tr[i + 1]) && !StartsIdle(tr[i], tr[i + 1])
    ensures tr[i + 1].dispatched == tr[i].dispatched
  {
    RunInv(tr, acts, i);
    QuitRaisesFlag(tr[i]);
  }

  lemma QuittingStays(tr: seq<Sys>, acts: seq<Action>, i: nat, j: nat)
    requires IsHonestRun(tr, acts) && i <= j <= |acts| && Quitting(tr[i])
    ensures Quitting(tr[j]) && tr[j].dispatched == tr[i].dispatched
  {
    var sent := tr[i].dispatched;
    QuittingKept();
    forall s, a, t | Quitting(s) && s.dispatched == sent && HonestStep(s, a, t)
      ensures t.dispatched == sent
    {
      QuitStep(s, a);
    }
    Paths.Until(HonestStep, Quitting, (s: Sys) => s.dispatched == sent, (s: Sys, t: Sys) => false, tr, acts, i, j);
  }

  /** Asked to quit, the receiver is quitting from that step on, for good. */
  lemma QuitIsHeeded(tr: seq<Sys>, acts: seq<Action>, i: nat, j: nat)
    requires IsHonestRun(tr, acts) && i < j <= |acts| && acts[i] == Quit
    ensures Quitting(tr[j]) && tr[j].dispatched == tr[i].dispatched
  {
    QuitIsAnswered(tr, acts, i);
    QuittingStays(tr, acts, i + 1, j);
  }

  /** From the step that asks it to quit, that step included, no fetch and no IDLE ever starts, and nothing more is
      dispatched. */
  lemma QuitStartsNothing(tr: seq<Sys>, acts: seq<Action>, i: nat, j: nat)
    requires IsHonestRun(tr, acts) && i <= j < |acts| && acts[i] == Quit
    ensures !StartsFetch(tr[j], tr[j + 1]) && !StartsIdle(tr[j], tr[j + 1])
    ensures tr[j + 1].dispatched == tr[i].dispatched
  {
    if i == j {
      QuitIsAnswered(tr, acts, i);
    } else {
      QuitIsHeeded(tr, acts, i, j);
      RunInv(tr, acts, j);
      QuitStep(tr[j], acts[j]);
    }
  }

  /** A receiver asked to quit has exited once it has taken enough progress steps since: with no delete refused
      `Remaining` of the state after the request are enough. */
  lemma QuitExits(tr: seq<Sys>, acts: seq<Action>, i: nat)
    requires IsHonestRun(tr, acts) && i < |acts| && acts[i] == Quit
    requires ProgressMade(tr[i + 1..], acts[i + 1..])
          >= Remaining(tr[i + 1]) + RefusalCost(tr[i + 1..], acts[i + 1..])
    ensures tr[|acts|].status == Exited
  {
    QuitIsHeeded(tr, acts, i, i + 1);
    Paths.Suffix(HonestStep, tr, acts, i + 1);
    QuittingExits(tr[i + 1..], acts[i + 1..]);
  }
}
