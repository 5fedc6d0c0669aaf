/** Runs of the pump told from its actions: what arrived and what was acked, that answers are true, and that leaving
    and quitting are final. */
module PumpRuns {
  import opened Imap
  import opened PumpSpec
  import opened PumpProgress
  import Paths

  ghost predicate IsRun(tr: seq<Pump>, acts: seq<Action>) {
    Paths.IsPath(Step, tr, acts) && Init(tr[0])
  }

  lemma RunStep(tr: seq<Pump>, acts: seq<Action>, j: nat)
    requires IsRun(tr, acts) && j < |acts|
    ensures Inv(tr[j]) && Inv(tr[j + 1]) && Step(tr[j], acts[j], tr[j + 1])
    ensures |tr[j + 1].mailboxes| == |tr[j].mailboxes|
  {
    RunInv(tr, acts, j);
    RunInv(tr, acts, j + 1);
    assert Step(tr[j], acts[j], tr[j + 1]);
    ShapeKept(tr[j], acts[j]);
  }

  // ---- Nothing is lost, invented or reordered on the channels

  function ArrivedBy(a: Action, i: nat): seq<Message> {
    if a.Arrive? && a.source == i then a.messages else []
  }

  /** What has arrived from source i in the first j steps. */
  function Arrived(acts: seq<Action>, j: nat, i: nat): seq<Message>
    requires j <= |acts|
  {
    if j == 0 then []
    else Arrived(acts, j - 1, i) + ArrivedBy(acts[j - 1], i)
  }

  lemma ArrivalStep(p: Pump, a: Action, i: nat)
    requires Shaped(p) && Enabled(p, a) && i < |p.mailboxes|
    requires Shaped(Next(p, a)) && |Next(p, a).mailboxes| == |p.mailboxes|
    ensures var q := Next(p, a);
      q.taken[i] + q.incoming[i] == p.taken[i] + p.incoming[i] + ArrivedBy(a, i)
  {
    var q := Next(p, a);
    if a.Arrive? && a.source == i {
      assert q.taken[i] + (p.incoming[i] + a.messages) == p.taken[i] + p.incoming[i] + a.messages;
    } else if a.Choose? && a.c == Receive(i) {
      assert [p.incoming[i][0]] + p.incoming[i][1..] == p.incoming[i];
      assert p.taken[i] + [p.incoming[i][0]] + p.incoming[i][1..] == p.taken[i] + p.incoming[i];
    } else {
      assert q.taken[i] == p.taken[i] && q.incoming[i] == p.incoming[i];
    }
  }

  /** Source by source and in order, what arrived is what was taken and then what waits to be. */
  lemma {:induction false} ArrivedIsTakenOrWaiting(tr: seq<Pump>, acts: seq<Action>, j: nat, i: nat)
    requires IsRun(tr, acts) && j <= |acts| && i < |tr[0].mailboxes|
    ensures |tr[j].mailboxes| == |tr[j].taken| == |tr[j].incoming| == |tr[0].mailboxes|
    ensures tr[j].taken[i] + tr[j].incoming[i] == Arrived(acts, j, i)
  {
    if j == 0 {
      RunInv(tr, acts, 0);
    } else {
      ArrivedIsTakenOrWaiting(tr, acts, j - 1, i);
      RunStep(tr, acts, j - 1);
      ArrivalStep(tr[j - 1], acts[j - 1], i);
    }
  }

  function GivenBy(p: Pump, a: Action, i: nat): seq<Response> {
    if a.AckReturns? && p.tick.Acking? && p.tick.source == i && p.tick.uid != 0
    then [Response(p.tick.uid, p.tick.ok)] else []
  }

  function ReadBy(p: Pump, a: Action, i: nat): seq<Response> {
    if a == AckTaken(i) && i < |p.acks| && p.acks[i] != [] then [p.acks[i][0]] else []
  }

  /** The acks that Ack calls for source i returned from, and those its receiver has looked at, in the first j steps. A
      message without a UID cannot be acked. */
  ghost function AcksGiven(tr: seq<Pump>, acts: seq<Action>, j: nat, i: nat): seq<Response>
    requires j <= |acts| && |tr| == |acts| + 1
  {
    if j == 0 then [] else AcksGiven(tr, acts, j - 1, i) + GivenBy(tr[j - 1], acts[j - 1], i)
  }

  ghost function AcksRead(tr: seq<Pump>, acts: seq<Action>, j: nat, i: nat): seq<Response>
    requires j <= |acts| && |tr| == |acts| + 1
  {
    if j == 0 then [] else AcksRead(tr, acts, j - 1, i) + ReadBy(tr[j - 1], acts[j - 1], i)
  }

  lemma AckStep(p: Pump, a: Action, i: nat)
    requires Shaped(p) && Enabled(p, a) && i < |p.mailboxes|
    requires Shaped(Next(p, a)) && |Next(p, a).mailboxes| == |p.mailboxes|
    ensures ReadBy(p, a, i) + Next(p, a).acks[i] == p.acks[i] + GivenBy(p, a, i)
  {
  }

  lemma Reassociated<T>(read: seq<T>, first: seq<T>, rest: seq<T>, before: seq<T>, more: seq<T>, given: seq<T>)
    requires first + rest == before + more && read + before == given
    ensures (read + first) + rest == given + more
  {
    assert (read + first) + rest == read + (first + rest);
    assert read + (before + more) == (read + before) + more;
  }

  /** Source by source and in order, the acks given are those its receiver has read and then those that wait. */
  lemma {:induction false} AcksAreReadInOrder(tr: seq<Pump>, acts: seq<Action>, j: nat, i: nat)
    requires IsRun(tr, acts) && j <= |acts| && i < |tr[0].mailboxes|
    ensures |tr[j].mailboxes| == |tr[j].acks| == |tr[0].mailboxes|
    ensures AcksRead(tr, acts, j, i) + tr[j].acks[i] == AcksGiven(tr, acts, j, i)
  {
    if j == 0 {
      RunInv(tr, acts, 0);
    } else {
      AcksAreReadInOrder(tr, acts, j - 1, i);
      RunStep(tr, acts, j - 1);
      var p, a := tr[j - 1], acts[j - 1];
      AckStep(p, a, i);
      Reassociated(AcksRead(tr, acts, j - 1, i), ReadBy(p, a, i), tr[j].acks[i], p.acks[i], GivenBy(p, a, i),
                   AcksGiven(tr, acts, j - 1, i));
    }
  }

  // ---- Answers are true

  ghost predicate Has(reqs: set<Request>, ch: nat, uid: nat) {
    exists q :: q in reqs && q.ch == ch && q.uid == uid
  }

  /** Ok means that the source's message was appended; not ok that its Append failed, or that it was refused, for want
      of a UID or of an ingester. */
  ghost predicate IsTrue(p: Pump, i: nat, r: Response) {
    if r.ok then Has(p.appended, i, r.uid) else r.uid == 0 || p.shutdown || Has(p.failed, i, r.uid)
  }

  ghost predicate AllTrue(p: Pump)
    requires Shaped(p)
  {
    && (forall i, k :: 0 <= i < |p.mailboxes| && 0 <= k < |p.responses[i]| ==> IsTrue(p, i, p.responses[i][k]))
    && (forall i, k :: 0 <= i < |p.mailboxes| && 0 <= k < |p.acks[i]| ==> IsTrue(p, i, p.acks[i][k]))
    && (p.tick.Acking? ==> IsTrue(p, p.tick.source, Response(p.tick.uid, p.tick.ok)))
    && (p.ingest.Responding? ==> IsTrue(p, p.ingest.ch, p.ingest.response))
  }

  /** An Append of `q` has returned in one of the first j steps, with or without an error. */
  ghost predicate Returned(tr: seq<Pump>, acts: seq<Action>, j: nat, ok: bool, q: Request)
    requires j <= |acts| < |tr|
  {
    exists k {:trigger acts[k]} :: 0 <= k < j && acts[k] == AppendReturns(ok) && tr[k].ingest == Appending(q)
  }

  lemma OutcomeStep(p: Pump, a: Action, q: Request)
    requires Shaped(p) && Enabled(p, a)
    ensures q in Next(p, a).appended <==> q in p.appended || (a == AppendReturns(true) && p.ingest == Appending(q))
    ensures q in Next(p, a).failed <==> q in p.failed || (a == AppendReturns(false) && p.ingest == Appending(q))
  {
  }

  lemma ReturnedStep(tr: seq<Pump>, acts: seq<Action>, j: nat, ok: bool, q: Request)
    requires j < |acts| < |tr|
    ensures Returned(tr, acts, j + 1, ok, q) <==>
      Returned(tr, acts, j, ok, q) || (acts[j] == AppendReturns(ok) && tr[j].ingest == Appending(q))
  {
  }

  /** In every run the requests counted as appended, or as failed, are those whose Append returned so. */
  lemma {:induction false} OutcomesAreThoseReturned(tr: seq<Pump>, acts: seq<Action>, j: nat, q: Request)
    requires IsRun(tr, acts) && j <= |acts|
    ensures q in tr[j].appended <==> Returned(tr, acts, j, true, q)
    ensures q in tr[j].failed <==> Returned(tr, acts, j, false, q)
  {
    if j > 0 {
      OutcomesAreThoseReturned(tr, acts, j - 1, q);
      RunStep(tr, acts, j - 1);
      OutcomeStep(tr[j - 1], acts[j - 1], q);
      ReturnedStep(tr, acts, j - 1, true, q);
      ReturnedStep(tr, acts, j - 1, false, q);
    }
  }

  lemma TruthLasts(p: Pump, q: Pump, i: nat, r: Response)
    requires p.appended <= q.appended && p.failed <= q.failed && (p.shutdown ==> q.shutdown)
    requires IsTrue(p, i, r)
    ensures IsTrue(q, i, r)
  {
  }

  lemma AppendIsTold(p: Pump, ok: bool)
    requires Shaped(p) && Enabled(p, AppendReturns(ok))
    ensures var q := Next(p, AppendReturns(ok)); q.ingest.Responding? && IsTrue(q, q.ingest.ch, q.ingest.response)
  {
    var req := p.ingest.req;
    assert req in if ok then p.appended + {req} else p.failed + {req};
  }

  lemma HistoryGrows(p: Pump, a: Action)
    requires Shaped(p) && Enabled(p, a)
    ensures var q := Next(p, a);
      p.appended <= q.appended && p.failed <= q.failed && (p.shutdown ==> q.shutdown)
  {
  }

  lemma QueuesStayTrue(p: Pump, a: Action, i: nat, k: nat)
    requires Shaped(p) && Enabled(p, a) && AllTrue(p)
    requires Shaped(Next(p, a)) && |Next(p, a).mailboxes| == |p.mailboxes| && i < |p.mailboxes|
    ensures k < |Next(p, a).responses[i]| ==> IsTrue(p, i, Next(p, a).responses[i][k])
    ensures k < |Next(p, a).acks[i]| ==> IsTrue(p, i, Next(p, a).acks[i][k])
  {
  }

  lemma TruthKept(p: Pump, a: Action)
    requires Shaped(p) && Enabled(p, a) && AllTrue(p)
    ensures Shaped(Next(p, a)) && AllTrue(Next(p, a))
  {
    var q := Next(p, a);
    ShapeKept(p, a);
    HistoryGrows(p, a);
    forall i, k | 0 <= i < |q.mailboxes| && 0 <= k < |q.responses[i]|
      ensures IsTrue(q, i, q.responses[i][k])
    {
      QueuesStayTrue(p, a, i, k);
      TruthLasts(p, q, i, q.responses[i][k]);
    }
    forall i, k | 0 <= i < |q.mailboxes| && 0 <= k < |q.acks[i]|
      ensures IsTrue(q, i, q.acks[i][k])
    {
      QueuesStayTrue(p, a, i, k);
      TruthLasts(p, q, i, q.acks[i][k]);
    }
    TickTold(p, a);
    IngestTold(p, a);
  }

  lemma TickTold(p: Pump, a: Action)
    requires Shaped(p) && Enabled(p, a) && AllTrue(p)
    ensures var q := Next(p, a); q.tick.Acking? ==> IsTrue(q, q.tick.source, Response(q.tick.uid, q.tick.ok))
  {
    var q := Next(p, a);
    HistoryGrows(p, a);
    if q.tick.Acking? {
      if a.Choose? && a.c.Reply? {
        assert p.responses[a.c.source][0] == Response(q.tick.uid, q.tick.ok);
      }
      TruthLasts(p, q, q.tick.source, Response(q.tick.uid, q.tick.ok));
    }
  }

  lemma IngestTold(p: Pump, a: Action)
    requires Shaped(p) && Enabled(p, a) && AllTrue(p)
    ensures var q := Next(p, a); q.ingest.Responding? ==> IsTrue(q, q.ingest.ch, q.ingest.response)
  {
    var q := Next(p, a);
    HistoryGrows(p, a);
    if a.AppendReturns? {
      AppendIsTold(p, a.ok);
    } else if q.ingest.Responding? {
      TruthLasts(p, q, q.ingest.ch, q.ingest.response);
    }
  }

  /** In every run, whatever a receiver is told of a message is so. */
  lemma ReceiversAreToldTheTruth(tr: seq<Pump>, acts: seq<Action>, j: nat)
    requires IsRun(tr, acts) && j <= |acts|
    ensures Shaped(tr[j])
    ensures forall i, k :: 0 <= i < |tr[j].mailboxes| && 0 <= k < |tr[j].acks[i]| ==> IsTrue(tr[j], i, tr[j].acks[i][k])
  {
    var truthful := (p: Pump) => Shaped(p) && AllTrue(p);
    RunInv(tr, acts, 0);
    forall p, a, q | truthful(p) && Step(p, a, q)
      ensures truthful(q)
    {
      TruthKept(p, a);
    }
    Paths.Invariant(Step, truthful, tr, acts, j);
  }

  // ---- Leaving and quitting are final

  lemma LeftStep(p: Pump, a: Action)
    requires Shaped(p) && Enabled(p, a) && p.tick.TickDone?
    ensures !a.Choose? && !a.Handoff? && !a.AckReturns?
    ensures var q := Next(p, a); q.tick.TickDone? && q.taken == p.taken && q.answered == p.answered
  {
  }

  /** Once the stop channel is chosen the loop is over: nothing is ever chosen, handed over or acked again. */
  lemma {:induction false} LeavingIsFinal(tr: seq<Pump>, acts: seq<Action>, i: nat, j: nat)
    requires IsRun(tr, acts) && i < j <= |acts| && acts[i] == Choose(Leave)
    ensures tr[j].tick.TickDone? && tr[j].taken == tr[i].taken && tr[j].answered == tr[i].answered
    ensures j < |acts| ==> !acts[j].Choose? && !acts[j].Handoff? && !acts[j].AckReturns?
    decreases j
  {
    if j == i + 1 {
      RunStep(tr, acts, i);
    } else {
      LeavingIsFinal(tr, acts, i, j - 1);
      RunStep(tr, acts, j - 1);
      LeftStep(tr[j - 1], acts[j - 1]);
    }
    if j < |acts| {
      RunStep(tr, acts, j);
      LeftStep(tr[j], acts[j]);
    }
  }

  lemma QuitStep(p: Pump, a: Action)
    requires Shaped(p) && Enabled(p, a) && p.ingest.IngestDone? && p.shutdown
    ensures var q := Next(p, a);
      && q.ingest.IngestDone? && q.shutdown && q.appended == p.appended && q.failed == p.failed
      && (a.Choose? && a.c.Receive? ==> q.tick == Acking(a.c.source, p.incoming[a.c.source][0].uid, false))
  {
  }

  /** Once the ingester has quit nothing is appended, and whatever is taken is refused. */
  lemma {:induction false} QuittingIsFinal(tr: seq<Pump>, acts: seq<Action>, i: nat, j: nat)
    requires IsRun(tr, acts) && i < j <= |acts| && acts[i] == IngestQuits
    ensures tr[j].ingest.IngestDone? && tr[j].shutdown
    ensures tr[j].appended == tr[i].appended && tr[j].failed == tr[i].failed
    ensures j < |acts| && acts[j].Choose? && acts[j].c.Receive? ==>
      tr[j + 1].tick.Acking? && tr[j + 1].tick.source == acts[j].c.source && !tr[j + 1].tick.ok
    decreases j
  {
    if j == i + 1 {
      RunStep(tr, acts, i);
    } else {
      QuittingIsFinal(tr, acts, i, j - 1);
      RunStep(tr, acts, j - 1);
      QuitStep(tr[j - 1], acts[j - 1]);
    }
    if j < |acts| {
      RunStep(tr, acts, j);
      QuitStep(tr[j], acts[j]);
    }
  }
}
