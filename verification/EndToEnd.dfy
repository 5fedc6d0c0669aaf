/** N receivers, the pump and the ingester together: a message is deleted at its source only after an Append
    of that very message to that source's mailbox has succeeded. UIDs of different sources may collide. */
module EndToEnd {
  import opened Imap
  import opened ReceiverSpec
  import R = ReceiverSystem
  import P = PumpSpec
  import PR = PumpRuns
  import Paths

  datatype World = World(pump: P.Pump, receivers: seq<R.Sys>)

  /** A step of one receiver (what it dispatches arrives at the pump), a receiver reading an ack, or a pump step. */
  datatype Act = Receiver(i: nat, a: R.Action) | ReadAck(i: nat) | Pump(p: P.Action)

  ghost predicate Enabled(w: World, act: Act) {
    match act
    case Receiver(i, a) => i < |w.receivers| && !a.AckIn? && R.Enabled(w.receivers[i], a)
    case ReadAck(i) => i < |w.receivers| && P.Enabled(w.pump, P.AckTaken(i)) && w.receivers[i].status == R.Running
    case Pump(p) => !p.Arrive? && !p.AckTaken? && P.Enabled(w.pump, p)
  }

  ghost function Sent(s: R.Sys, t: R.Sys): seq<Message> {
    if |s.dispatched| <= |t.dispatched| then t.dispatched[|s.dispatched|..] else []
  }

  ghost function AckOf(w: World, i: nat): R.Action
    requires P.Shaped(w.pump) && P.Enabled(w.pump, P.AckTaken(i))
  {
    R.AckIn(w.pump.acks[i][0].uid, w.pump.acks[i][0].ok)
  }

  ghost predicate Joined(w: World) {
    P.Shaped(w.pump) && |w.receivers| == |w.pump.mailboxes|
  }

  ghost function Next(w: World, act: Act): World
    requires Joined(w) && Enabled(w, act)
  {
    match act
    case Receiver(i, a) =>
      var t := R.Next(w.receivers[i], a);
      World(P.Next(w.pump, P.Arrive(i, Sent(w.receivers[i], t))), w.receivers[i := t])
    case ReadAck(i) =>
      World(P.Next(w.pump, P.AckTaken(i)), w.receivers[i := R.Next(w.receivers[i], AckOf(w, i))])
    case Pump(p) => World(P.Next(w.pump, p), w.receivers)
  }

  ghost predicate Honest(w: World, act: Act) {
    act.Receiver? && act.i < |w.receivers| ==> R.Honest(w.receivers[act.i], act.a)
  }

  ghost predicate Trusted(w: World, act: Act) {
    Enabled(w, act) && Honest(w, act)
  }

  ghost predicate Step(w: World, act: Act, v: World) {
    Joined(w) && Enabled(w, act) && v == Next(w, act)
  }

  ghost predicate HonestStep(w: World, act: Act, v: World) {
    Step(w, act, v) && Honest(w, act)
  }

  ghost predicate Init(w: World) {
    && P.Init(w.pump) && |w.receivers| == |w.pump.mailboxes|
    && forall i {:trigger w.receivers[i]} :: 0 <= i < |w.receivers| ==> R.Init(w.receivers[i])
  }

  // ---- What a receiver step does to the known messages

  /** Unacked messages stay as they are, known ones never change but by an ack, and what is sent out is what is new. */
  ghost predicate Effect(m: map<nat, Entry>, m': map<nat, Entry>, out: seq<Message>) {
    && (forall u :: u in m && m[u].state == Unacked ==> u in m')
    && (forall u :: u in m && u in m' ==> m'[u] == m[u])
    && (forall u :: u in m' && u !in m ==> m'[u].state == Unacked)
    && (forall x :: x in out ==> x.uid in m' && x.uid !in m && m'[x.uid].message == x)
    && (forall u :: Uids(out)[u] <= 1)
  }

  /** An iteration leaves the known messages as receiving the event left them, and sends out what that sent. */
  lemma LoopKeeps(s: R.Sys, a: R.Action)
    requires R.Steady(s) && R.Enabled(s, a) && R.ByLoop(a)
    ensures var sel := Select(s.loop, R.EventOf(s, a));
      sel.Selected? && R.Next(s, a).loop.messages == sel.loop.messages && Sent(s, R.Next(s, a)) == sel.out
  {
    R.IterationGoesOnOrLeaves(s, a);
    var sel := Select(s.loop, R.EventOf(s, a));
    R.SwitchKeepsMessages(sel.loop, sel.op);
  }

  lemma FetchEffect(l: Loop, fetched: map<nat, Message>, order: seq<nat>)
    requires IsOrder(order, fetched.Keys) && l.state == InFetch && l.quit == 0
    requires forall u :: u in fetched ==> fetched[u].uid == u
    ensures var sel := Select(l, GotFetch(fetched, order));
      sel.Selected? && Effect(l.messages, sel.loop.messages, sel.out)
  {
    FetchDispatchesTheUnknown(l, fetched, order);
  }

  lemma AnswerEffect(s: R.Sys, a: R.Action)
    requires R.Inv(s) && R.Trusted(s, a) && a.DeliverAnswer?
    ensures Effect(s.loop.messages, HandleAnswer(s.loop, a.uid, if a.gone then Deleted else Acked).messages, [])
  {
  }

  lemma SelectEffect(s: R.Sys, a: R.Action)
    requires R.Inv(s) && R.Trusted(s, a) && R.ByLoop(a) && !a.AckIn?
    requires Select(s.loop, R.EventOf(s, a)).Selected?
    ensures var sel := Select(s.loop, R.EventOf(s, a)); Effect(s.loop.messages, sel.loop.messages, sel.out)
  {
    if a.DeliverFetch? {
      if s.loop.quit == 0 {
        FetchEffect(s.loop, a.fetched, a.order);
      }
    } else if a.DeliverAnswer? {
      AnswerEffect(s, a);
    }
  }

  lemma ReceiverEffect(s: R.Sys, a: R.Action)
    requires R.Inv(s) && R.Trusted(s, a) && !a.AckIn?
    ensures Effect(s.loop.messages, R.Next(s, a).loop.messages, Sent(s, R.Next(s, a)))
  {
    if R.ByLoop(a) {
      LoopKeeps(s, a);
      SelectEffect(s, a);
    } else {
      assert Sent(s, R.Next(s, a)) == [];
    }
  }

  lemma AckEffect(s: R.Sys, uid: nat, ok: bool)
    requires R.Inv(s) && s.status == R.Running
    ensures R.Next(s, R.AckIn(uid, ok)).loop.messages == HandleAck(s.loop, uid, ok).messages
  {
    LoopKeeps(s, R.AckIn(uid, ok));
  }

  // ---- The link between a receiver and what is under way for it

  /** For source i: each message or response under way belongs to one unacked known message, at most one each;
      a response says ok, and a known message is acked, only if its own message was appended to its own mailbox;
      and a message whose Append failed has nothing but that failure left to come back. */
  ghost predicate Link(i: nat, mailbox: string, m: map<nat, Entry>, raw: multiset<Message>, back: multiset<P.Response>,
      appended: set<P.Request>, failed: set<P.Request>)
  {
    && (forall x :: x in raw ==> x.uid in m && m[x.uid].state == Unacked && m[x.uid].message == x && raw[x] == 1)
    && (forall r :: r in back ==>
          && r.uid in m && m[r.uid].state == Unacked && back[r] == 1
          && (r.ok ==> P.Request(mailbox, r.uid, m[r.uid].message, i) in appended))
    && (forall x, r :: x in raw && r in back ==> x.uid != r.uid)
    && (forall r, r' :: r in back && r' in back && r.uid == r'.uid ==> r == r')
    && (forall u :: u in m && m[u].state == Acked ==> P.Request(mailbox, u, m[u].message, i) in appended)
    && (forall q :: q in failed && q.ch == i ==>
          && q.uid in m && m[q.uid].state == Unacked && m[q.uid].message == q.message
          && (forall x :: x in raw ==> x.uid != q.uid)
          && (forall r :: r in back && r.uid == q.uid ==> !r.ok))
  }

  lemma {:induction false} CopiesOfUid(out: seq<Message>, x: Message)
    ensures multiset(out)[x] <= Uids(out)[x.uid]
  {
    if out != [] {
      CopiesOfUid(out[1..], x);
      assert out == [out[0]] + out[1..];
    }
  }

  lemma LinkReceiverStep(i: nat, mailbox: string, m: map<nat, Entry>, m': map<nat, Entry>, raw: multiset<Message>,
      back: multiset<P.Response>, out: seq<Message>, appended: set<P.Request>, failed: set<P.Request>)
    requires Link(i, mailbox, m, raw, back, appended, failed) && Effect(m, m', out)
    ensures Link(i, mailbox, m', raw + multiset(out), back, appended, failed)
  {
    forall x | x in raw + multiset(out)
      ensures x.uid in m' && m'[x.uid].state == Unacked && m'[x.uid].message == x && (raw + multiset(out))[x] == 1
    {
      CopiesOfUid(out, x);
    }
  }

  lemma LinkAck(i: nat, mailbox: string, l: Loop, raw: multiset<Message>, back: multiset<P.Response>, r: P.Response,
      appended: set<P.Request>, failed: set<P.Request>)
    requires Link(i, mailbox, l.messages, raw, back, appended, failed) && r in back
    ensures Link(i, mailbox, HandleAck(l, r.uid, r.ok).messages, raw, back - multiset{r}, appended, failed)
  {
  }

  lemma LinkDrop(i: nat, mailbox: string, m: map<nat, Entry>, raw: multiset<Message>, back: multiset<P.Response>,
      r: P.Response, appended: set<P.Request>, failed: set<P.Request>)
    requires Link(i, mailbox, m, raw, back, appended, failed) && r in back
    ensures Link(i, mailbox, m, raw, back - multiset{r}, appended, failed)
  {
  }

  /** A message turns into a response: not ok, or ok and appended. */
  lemma LinkAnswer(i: nat, mailbox: string, m: map<nat, Entry>, raw: multiset<Message>, back: multiset<P.Response>,
      x: Message, ok: bool,
      appended: set<P.Request>, failed: set<P.Request>, appended': set<P.Request>, failed': set<P.Request>)
    requires Link(i, mailbox, m, raw, back, appended, failed) && x in raw
    requires appended <= appended' && (ok ==> P.Request(mailbox, x.uid, x, i) in appended')
    requires failed' == failed || (!ok && failed' == failed + {P.Request(mailbox, x.uid, x, i)})
    ensures Link(i, mailbox, m, raw - multiset{x}, back + multiset{P.Response(x.uid, ok)}, appended', failed')
  {
  }

  lemma LinkOther(i: nat, mailbox: string, m: map<nat, Entry>, raw: multiset<Message>, back: multiset<P.Response>,
      appended: set<P.Request>, failed: set<P.Request>, appended': set<P.Request>, failed': set<P.Request>)
    requires Link(i, mailbox, m, raw, back, appended, failed)
    requires appended <= appended'
    requires forall q :: q in failed' && q.ch == i ==> q in failed
    ensures Link(i, mailbox, m, raw, back, appended', failed')
  {
  }

  // ---- How pump steps move messages and responses

  lemma RawBackArrive(p: P.Pump, i: nat, ms: seq<Message>, j: nat)
    requires P.Shaped(p) && i < |p.mailboxes| && j < |p.mailboxes|
    ensures var q := P.Next(p, P.Arrive(i, ms));
      P.Raw(q, j) == P.Raw(p, j) + (if i == j then multiset(ms) else multiset{}) && P.Back(q, j) == P.Back(p, j)
  {
  }

  lemma LessFirst<T>(a: multiset<T>, b: multiset<T>, x: T)
    requires x in a
    ensures x in a + b && (a - multiset{x}) + b == (a + b) - multiset{x}
  {
  }

  lemma HeadGone<T>(q: seq<T>)
    requires q != []
    ensures q[0] in multiset(q) && multiset(q[1..]) == multiset(q) - multiset{q[0]}
  {
    assert q == [q[0]] + q[1..];
  }

  lemma RawBackAckTaken(p: P.Pump, i: nat, j: nat)
    requires P.Shaped(p) && P.Enabled(p, P.AckTaken(i)) && j < |p.mailboxes|
    ensures p.acks[i][0] in P.Back(p, i)
    ensures var q := P.Next(p, P.AckTaken(i));
      && P.Raw(q, j) == P.Raw(p, j)
      && P.Back(q, j) == if i == j then P.Back(p, j) - multiset{p.acks[i][0]} else P.Back(p, j)
  {
    var x := p.acks[i][0];
    HeadGone(p.acks[i]);
    LessFirst(multiset(p.acks[i]), P.TickBack(p.tick, i), x);
    LessFirst(multiset(p.acks[i]) + P.TickBack(p.tick, i), multiset(p.responses[i]), x);
    LessFirst(multiset(p.acks[i]) + P.TickBack(p.tick, i) + multiset(p.responses[i]), P.IngestBack(p.ingest, i), x);
  }

  lemma TakeAlgebra<T>(all: multiset<T>, rest: multiset<T>, g: multiset<T>, x: T)
    requires x in all && rest == all - multiset{x}
    ensures x in all + multiset{} + g
    ensures rest + multiset{} + g == all + multiset{} + g - multiset{x}
    ensures rest + multiset{x} + g == all + multiset{} + g
  {
  }

  lemma TakenRaw(p: P.Pump, i: nat, j: nat)
    requires P.Shaped(p) && P.Enabled(p, P.Choose(P.Receive(i))) && j < |p.mailboxes|
    ensures p.incoming[i][0] in P.Raw(p, i)
    ensures var q := P.Next(p, P.Choose(P.Receive(i)));
      var x := p.incoming[i][0];
      P.Raw(q, j) == if i == j && (x.uid == 0 || p.shutdown) then P.Raw(p, j) - multiset{x} else P.Raw(p, j)
  {
    var q := P.Next(p, P.Choose(P.Receive(i)));
    var x := p.incoming[i][0];
    HeadGone(p.incoming[i]);
    TakeAlgebra(multiset(p.incoming[i]), multiset(p.incoming[i][1..]), P.IngestRaw(p.ingest, i), x);
    if i != j {
      assert q.incoming[j] == p.incoming[j] && P.TickRaw(q.tick, j) == P.TickRaw(p.tick, j);
    }
  }

  lemma TakenBack(p: P.Pump, i: nat, j: nat)
    requires P.Shaped(p) && P.Enabled(p, P.Choose(P.Receive(i))) && j < |p.mailboxes|
    ensures var q := P.Next(p, P.Choose(P.Receive(i)));
      var x := p.incoming[i][0];
      P.Back(q, j) == P.Back(p, j)
        + if i == j && (x.uid == 0 || p.shutdown) then multiset{P.Response(x.uid, false)} else multiset{}
  {
    var q := P.Next(p, P.Choose(P.Receive(i)));
    var x := p.incoming[i][0];
    assert P.TickBack(p.tick, j) == multiset{} && q.acks == p.acks && q.responses == p.responses
        && q.ingest == p.ingest;
    assert P.TickBack(q.tick, j)
        == if i == j && (x.uid == 0 || p.shutdown) then multiset{P.Response(x.uid, false)} else multiset{};
  }

  lemma RawBackReply(p: P.Pump, i: nat, j: nat)
    requires P.Shaped(p) && P.Enabled(p, P.Choose(P.Reply(i))) && j < |p.mailboxes|
    ensures var q := P.Next(p, P.Choose(P.Reply(i)));
      P.Raw(q, j) == P.Raw(p, j) && P.Back(q, j) == P.Back(p, j)
  {
    assert p.responses[i] == [p.responses[i][0]] + p.responses[i][1..];
  }

  lemma RawBackAppend(p: P.Pump, ok: bool, j: nat)
    requires P.Shaped(p) && P.Enabled(p, P.AppendReturns(ok)) && j < |p.mailboxes|
    ensures var q := P.Next(p, P.AppendReturns(ok));
      var req := p.ingest.req;
      if req.ch == j then
        && req.message in P.Raw(p, j)
        && P.Raw(q, j) == P.Raw(p, j) - multiset{req.message}
        && P.Back(q, j) == P.Back(p, j) + multiset{P.Response(req.uid, ok)}
      else P.Raw(q, j) == P.Raw(p, j) && P.Back(q, j) == P.Back(p, j)
  {
    var q := P.Next(p, P.AppendReturns(ok));
    var req := p.ingest.req;
    if req.ch == j {
      AppendAlgebra(multiset(p.incoming[j]) + P.TickRaw(p.tick, j), req.message);
      AppendAlgebra(multiset(p.acks[j]) + P.TickBack(p.tick, j) + multiset(p.responses[j]), P.Response(req.uid, ok));
    }
  }

  lemma AppendAlgebra<T>(a: multiset<T>, x: T)
    ensures x in a + multiset{x} && a + multiset{} == a + multiset{x} - multiset{x}
    ensures a + multiset{x} == a + multiset{} + multiset{x}
  {
  }

  lemma RawBackAckReturns(p: P.Pump, j: nat)
    requires P.Shaped(p) && P.Enabled(p, P.AckReturns) && j < |p.mailboxes|
    ensures var q := P.Next(p, P.AckReturns);
      var r := P.Response(p.tick.uid, p.tick.ok);
      && r in P.Back(p, p.tick.source)
      && P.Raw(q, j) == P.Raw(p, j)
      && P.Back(q, j) == if p.tick.source == j && r.uid == 0 then P.Back(p, j) - multiset{r} else P.Back(p, j)
  {
    var q := P.Next(p, P.AckReturns);
    var i, r := p.tick.source, P.Response(p.tick.uid, p.tick.ok);
    assert q.incoming == p.incoming && q.responses == p.responses && q.ingest == p.ingest;
    assert P.TickRaw(q.tick, j) == P.TickRaw(p.tick, j) == multiset{} && P.TickBack(q.tick, j) == multiset{};
    AckAlgebra(multiset(p.acks[i]), multiset(p.responses[i]), P.IngestBack(p.ingest, i), r);
    if i != j {
      assert q.acks[j] == p.acks[j] && P.TickBack(p.tick, j) == multiset{};
    } else if r.uid != 0 {
      assert multiset(q.acks[j]) == multiset(p.acks[j]) + multiset{r};
    }
  }

  lemma AckAlgebra<T>(acks: multiset<T>, responses: multiset<T>, g: multiset<T>, r: T)
    ensures r in acks + multiset{r} + responses + g
    ensures acks + multiset{} + responses + g == acks + multiset{r} + responses + g - multiset{r}
    ensures (acks + multiset{r}) + multiset{} + responses + g == acks + multiset{r} + responses + g
  {
  }

  lemma RawBackRespond(p: P.Pump, j: nat)
    requires P.Shaped(p) && P.Enabled(p, P.Respond) && j < |p.mailboxes|
    ensures P.Raw(P.Next(p, P.Respond), j) == P.Raw(p, j) && P.Back(P.Next(p, P.Respond), j) == P.Back(p, j)
  {
    var q := P.Next(p, P.Respond);
    assert P.IngestRaw(p.ingest, j) == multiset{} == P.IngestRaw(q.ingest, j)
        && P.IngestBack(q.ingest, j) == multiset{};
    assert multiset(q.responses[j]) == multiset(p.responses[j]) + P.IngestBack(p.ingest, j);
  }

  lemma RawBackHandoff(p: P.Pump, j: nat)
    requires P.Shaped(p) && P.Enabled(p, P.Handoff) && j < |p.mailboxes|
    ensures P.Raw(P.Next(p, P.Handoff), j) == P.Raw(p, j) && P.Back(P.Next(p, P.Handoff), j) == P.Back(p, j)
  {
    HandoffAlgebra(multiset(p.incoming[j]), P.TickRaw(p.tick, j));
    assert P.IngestRaw(P.Next(p, P.Handoff).ingest, j) == P.TickRaw(p.tick, j);
  }

  lemma HandoffAlgebra<T>(a: multiset<T>, x: multiset<T>)
    ensures a + multiset{} + x == a + x + multiset{}
  {
  }

  lemma RawBackStop(p: P.Pump, a: P.Action, j: nat)
    requires P.Shaped(p) && P.Enabled(p, a) && j < |p.mailboxes|
    requires a == P.IngestQuits || a == P.Choose(P.Leave)
    ensures P.Raw(P.Next(p, a), j) == P.Raw(p, j) && P.Back(P.Next(p, a), j) == P.Back(p, j)
  {
    var q := P.Next(p, a);
    assert q.incoming == p.incoming && q.responses == p.responses && q.acks == p.acks;
    assert P.TickRaw(q.tick, j) == P.TickRaw(p.tick, j) && P.TickBack(q.tick, j) == P.TickBack(p.tick, j);
    assert P.IngestRaw(q.ingest, j) == P.IngestRaw(p.ingest, j);
    assert P.IngestBack(q.ingest, j) == P.IngestBack(p.ingest, j);
  }

  predicate Passes(a: P.Action) {
    a.Handoff? || a.Respond? || a.IngestQuits? || a == P.Choose(P.Leave) || (a.Choose? && a.c.Reply?)
  }

  /** Steps that only pass on what is under way. */
  lemma RawBackPass(p: P.Pump, a: P.Action, j: nat)
    requires P.Shaped(p) && P.Enabled(p, a) && Passes(a) && j < |p.mailboxes|
    requires P.Shaped(P.Next(p, a)) && |P.Next(p, a).mailboxes| == |p.mailboxes|
    ensures P.Raw(P.Next(p, a), j) == P.Raw(p, j) && P.Back(P.Next(p, a), j) == P.Back(p, j)
  {
    if a.Respond? {
      RawBackRespond(p, j);
    } else if a.Handoff? {
      RawBackHandoff(p, j);
    } else if a.Choose? && a.c.Reply? {
      RawBackReply(p, a.c.source, j);
    } else {
      RawBackStop(p, a, j);
    }
  }

  // ---- The joint invariant

  ghost predicate Linked(w: World, i: nat)
    requires Joined(w) && i < |w.receivers|
  {
    Link(i, w.pump.mailboxes[i], w.receivers[i].loop.messages, P.Raw(w.pump, i), P.Back(w.pump, i), w.pump.appended,
        w.pump.failed)
  }

  ghost predicate Inv(w: World) {
    && Joined(w)
    && P.Routed(w.pump)
    && (forall i {:trigger w.receivers[i]} :: 0 <= i < |w.receivers| ==> R.Inv(w.receivers[i]))
    && (forall i {:trigger Linked(w, i)} :: 0 <= i < |w.receivers| ==> Linked(w, i))
  }

  lemma InitInv(w: World)
    requires Init(w)
    ensures Inv(w)
  {
    forall i | 0 <= i < |w.receivers|
      ensures R.Inv(w.receivers[i]) && Linked(w, i)
    {
      R.ControlInit(w.receivers[i]);
    }
  }

  lemma ReceiverKeeps(w: World, i: nat, a: R.Action)
    requires Inv(w) && Trusted(w, Receiver(i, a))
    ensures Inv(Next(w, Receiver(i, a)))
  {
    var v := Next(w, Receiver(i, a));
    var s, t := w.receivers[i], v.receivers[i];
    P.RoutedKept(w.pump, P.Arrive(i, Sent(s, t)));
    R.InvKept(s, a);
    ReceiverEffect(s, a);
    forall j | 0 <= j < |w.receivers|
      ensures Linked(v, j)
    {
      assert Linked(w, j);
      RawBackArrive(w.pump, i, Sent(s, t), j);
      if i == j {
        LinkReceiverStep(i, w.pump.mailboxes[i], s.loop.messages, t.loop.messages, P.Raw(w.pump, i), P.Back(w.pump, i),
                         Sent(s, t), w.pump.appended, w.pump.failed);
      }
    }
  }

  lemma ReadAckLinks(w: World, i: nat, j: nat)
    requires Inv(w) && Enabled(w, ReadAck(i)) && j < |w.receivers|
    requires Joined(Next(w, ReadAck(i)))
    ensures Linked(Next(w, ReadAck(i)), j)
  {
    var r := w.pump.acks[i][0];
    assert Linked(w, j);
    RawBackAckTaken(w.pump, i, j);
    if i == j {
      AckEffect(w.receivers[i], r.uid, r.ok);
      LinkAck(i, w.pump.mailboxes[i], w.receivers[i].loop, P.Raw(w.pump, i), P.Back(w.pump, i), r, w.pump.appended,
          w.pump.failed);
    }
  }

  lemma ReadAckKeeps(w: World, i: nat)
    requires Inv(w) && Enabled(w, ReadAck(i))
    ensures Inv(Next(w, ReadAck(i)))
  {
    P.RoutedKept(w.pump, P.AckTaken(i));
    R.InvKept(w.receivers[i], AckOf(w, i));
    forall j | 0 <= j < |w.receivers|
      ensures Linked(Next(w, ReadAck(i)), j)
    {
      ReadAckLinks(w, i, j);
    }
  }

  lemma AppendKeeps(w: World, ok: bool, j: nat)
    requires Inv(w) && Enabled(w, Pump(P.AppendReturns(ok))) && j < |w.receivers|
    requires Joined(Next(w, Pump(P.AppendReturns(ok))))
    ensures Linked(Next(w, Pump(P.AppendReturns(ok))), j)
  {
    var v := Next(w, Pump(P.AppendReturns(ok)));
    var req := w.pump.ingest.req;
    assert Linked(w, j);
    RawBackAppend(w.pump, ok, j);
    var m, raw, back := w.receivers[j].loop.messages, P.Raw(w.pump, j), P.Back(w.pump, j);
    if req.ch == j {
      LinkAnswer(j, w.pump.mailboxes[j], m, raw, back, req.message, ok, w.pump.appended, w.pump.failed,
          v.pump.appended, v.pump.failed);
    } else {
      LinkOther(j, w.pump.mailboxes[j], m, raw, back, w.pump.appended, w.pump.failed, v.pump.appended, v.pump.failed);
    }
  }

  lemma TakeKeeps(w: World, i: nat, j: nat)
    requires Inv(w) && Enabled(w, Pump(P.Choose(P.Receive(i)))) && j < |w.receivers|
    requires Joined(Next(w, Pump(P.Choose(P.Receive(i)))))
    ensures Linked(Next(w, Pump(P.Choose(P.Receive(i)))), j)
  {
    assert Linked(w, j);
    TakenRaw(w.pump, i, j);
    TakenBack(w.pump, i, j);
    var x := w.pump.incoming[i][0];
    if i == j && (x.uid == 0 || w.pump.shutdown) {
      LinkAnswer(j, w.pump.mailboxes[j], w.receivers[j].loop.messages, P.Raw(w.pump, j), P.Back(w.pump, j), x, false,
                 w.pump.appended, w.pump.failed, w.pump.appended, w.pump.failed);
    }
  }

  lemma AckReturnsKeeps(w: World, j: nat)
    requires Inv(w) && Enabled(w, Pump(P.AckReturns)) && j < |w.receivers|
    requires Joined(Next(w, Pump(P.AckReturns)))
    ensures Linked(Next(w, Pump(P.AckReturns)), j)
  {
    assert Linked(w, j);
    RawBackAckReturns(w.pump, j);
    var r := P.Response(w.pump.tick.uid, w.pump.tick.ok);
    if w.pump.tick.source == j && r.uid == 0 {
      LinkDrop(j, w.pump.mailboxes[j], w.receivers[j].loop.messages, P.Raw(w.pump, j), P.Back(w.pump, j), r,
               w.pump.appended, w.pump.failed);
    }
  }

  lemma PassKeeps(w: World, a: P.Action, j: nat)
    requires Inv(w) && Enabled(w, Pump(a)) && Passes(a) && j < |w.receivers|
    requires Joined(Next(w, Pump(a)))
    ensures Linked(Next(w, Pump(a)), j)
  {
    assert Linked(w, j);
    P.ShapeKept(w.pump, a);
    RawBackPass(w.pump, a, j);
  }

  lemma PumpKeeps(w: World, a: P.Action)
    requires Inv(w) && Enabled(w, Pump(a))
    ensures Inv(Next(w, Pump(a)))
  {
    P.RoutedKept(w.pump, a);
    P.ShapeKept(w.pump, a);
    forall j | 0 <= j < |w.receivers|
      ensures Linked(Next(w, Pump(a)), j)
    {
      if a.AppendReturns? {
        AppendKeeps(w, a.ok, j);
      } else if a.AckReturns? {
        AckReturnsKeeps(w, j);
      } else if a.Choose? && a.c.Receive? {
        TakeKeeps(w, a.c.source, j);
      } else {
        PassKeeps(w, a, j);
      }
    }
  }

  lemma StepKeepsInv()
    ensures Paths.Preserves(HonestStep, Inv)
  {
    forall w, act, v | Inv(w) && HonestStep(w, act, v)
      ensures Inv(v)
    {
      match act
      case Receiver(i, a) => ReceiverKeeps(w, i, a);
      case ReadAck(i) => ReadAckKeeps(w, i);
      case Pump(a) => PumpKeeps(w, a);
    }
  }

  // ---- Over whole runs

  ghost predicate IsHonestRun(tr: seq<World>, acts: seq<Act>) {
    Paths.IsPath(HonestStep, tr, acts) && Init(tr[0])
  }

  lemma RunInv(tr: seq<World>, acts: seq<Act>, j: nat)
    requires IsHonestRun(tr, acts) && j <= |acts|
    ensures Inv(tr[j])
    ensures j < |acts| ==> HonestStep(tr[j], acts[j], tr[j + 1])
  {
    InitInv(tr[0]);
    StepKeepsInv();
    Paths.Invariant(HonestStep, Inv, tr, acts, j);
    if j < |acts| {
      assert HonestStep(tr[j], acts[j], tr[j + 1]);
    }
  }

  lemma MailboxesStay(tr: seq<World>, acts: seq<Act>, j: nat)
    requires IsHonestRun(tr, acts) && j <= |acts|
    ensures tr[j].pump.mailboxes == tr[0].pump.mailboxes
  {
    var boxes := tr[0].pump.mailboxes;
    Paths.Invariant(HonestStep, (w: World) => w.pump.mailboxes == boxes, tr, acts, j);
  }

  /** Only a nil return of Append records a request as appended, and only an error records it as failed. */
  lemma AppendedBy(w: World, act: Act, req: P.Request)
    requires Joined(w) && Enabled(w, act)
    ensures req in Next(w, act).pump.appended && req !in w.pump.appended ==>
      act == Pump(P.AppendReturns(true)) && w.pump.ingest == P.Appending(req)
    ensures req in w.pump.failed ==> req in Next(w, act).pump.failed
  {
  }

  ghost predicate Stores(w: World, act: Act, i: nat, u: nat) {
    && act.Receiver? && act.i == i && act.a.IssueStore? && Enabled(w, act)
    && u in w.receivers[i].workers[act.a.k].store
  }

  lemma StoredIsAppended(w: World, act: Act, i: nat, u: nat)
    requires Inv(w) && Stores(w, act, i, u)
    ensures u in w.receivers[i].loop.messages && w.receivers[i].loop.messages[u].message.uid == u
    ensures P.Request(w.pump.mailboxes[i], u, w.receivers[i].loop.messages[u].message, i) in w.pump.appended
    ensures w.receivers[i].loop.messages[u].state == Acked && !w.receivers[i].loop.cfg.disableDeletions
  {
    assert R.Inv(w.receivers[i]) && Linked(w, i);
  }

  // ---- From becoming known to being stored

  ghost predicate Knows(w: World, i: nat, u: nat) {
    i < |w.receivers| && u in w.receivers[i].loop.messages
  }

  function MessageOf(w: World, i: nat, u: nat): Message
    requires Knows(w, i, u)
  {
    w.receivers[i].loop.messages[u].message
  }

  /** UID u of source i is known and unacked, and no response on its way says that it was appended. */
  ghost predicate Unappended(w: World, i: nat, u: nat) {
    && Knows(w, i, u) && w.receivers[i].loop.messages[u].state == Unacked
    && i < |w.pump.responses| && i < |w.pump.acks|
    && forall r :: r in P.Back(w.pump, i) && r.uid == u ==> !r.ok
  }

  /** An Append of source i's message with UID u returns nil in this step. */
  ghost predicate Appends(w: World, act: Act, i: nat, u: nat) {
    && act == Pump(P.AppendReturns(true))
    && w.pump.ingest.Appending? && w.pump.ingest.req.ch == i && w.pump.ingest.req.uid == u
  }

  /** What comes to be on its way back: refusals, and the answer to an Append that has returned nil. */
  lemma BackGains(p: P.Pump, a: P.Action, j: nat, r: P.Response)
    requires P.Shaped(p) && P.Enabled(p, a) && !a.Arrive? && !a.AckTaken? && j < |p.mailboxes|
    requires P.Shaped(P.Next(p, a)) && |P.Next(p, a).mailboxes| == |p.mailboxes|
    requires r in P.Back(P.Next(p, a), j) && r.ok
    ensures r in P.Back(p, j) || (a == P.AppendReturns(true) && p.ingest.req.ch == j && p.ingest.req.uid == r.uid)
  {
    if a.AppendReturns? {
      RawBackAppend(p, a.ok, j);
    } else if a.AckReturns? {
      RawBackAckReturns(p, j);
    } else if a.Choose? && a.c.Receive? {
      TakenBack(p, a.c.source, j);
    } else {
      RawBackPass(p, a, j);
    }
  }

  lemma EntersUnappended(w: World, act: Act, i: nat, u: nat)
    requires Inv(w) && Trusted(w, act) && i < |w.receivers| && !Knows(w, i, u) && Knows(Next(w, act), i, u)
    ensures Unappended(Next(w, act), i, u)
  {
    assert Linked(w, i);
    if act.Receiver? {
      ReceiverEffect(w.receivers[act.i], act.a);
      RawBackArrive(w.pump, act.i, Sent(w.receivers[act.i], R.Next(w.receivers[act.i], act.a)), i);
    } else if act.ReadAck? {
      AckEffect(w.receivers[act.i], AckOf(w, act.i).uid, AckOf(w, act.i).ok);
      AckKeys(w.receivers[act.i].loop, AckOf(w, act.i).uid, AckOf(w, act.i).ok);
    }
  }

  lemma ReceiverStays(w: World, n: nat, a: R.Action, i: nat, u: nat)
    requires Inv(w) && Trusted(w, Receiver(n, a)) && Knows(w, i, u) && Knows(Next(w, Receiver(n, a)), i, u)
    ensures MessageOf(Next(w, Receiver(n, a)), i, u) == MessageOf(w, i, u)
    ensures Unappended(w, i, u) ==> Unappended(Next(w, Receiver(n, a)), i, u)
  {
    ReceiverEffect(w.receivers[n], a);
    RawBackArrive(w.pump, n, Sent(w.receivers[n], R.Next(w.receivers[n], a)), i);
  }

  lemma AckChanges(l: Loop, uid: nat, ok: bool, u: nat)
    requires u in l.messages
    ensures u in HandleAck(l, uid, ok).messages && HandleAck(l, uid, ok).messages[u].message == l.messages[u].message
    ensures uid != u || !ok ==> HandleAck(l, uid, ok).messages[u] == l.messages[u]
  {
  }

  lemma TakenAckWasBack(p: P.Pump, i: nat, j: nat, r: P.Response)
    requires P.Shaped(p) && P.Enabled(p, P.AckTaken(i)) && j < |p.mailboxes|
    requires r in P.Back(P.Next(p, P.AckTaken(i)), j)
    ensures r in P.Back(p, j)
  {
    RawBackAckTaken(p, i, j);
  }

  lemma ReadAckKnows(w: World, n: nat, i: nat, u: nat)
    requires Inv(w) && Enabled(w, ReadAck(n)) && Knows(w, i, u)
    ensures Knows(Next(w, ReadAck(n)), i, u) && MessageOf(Next(w, ReadAck(n)), i, u) == MessageOf(w, i, u)
    ensures n != i || AckOf(w, n).uid != u || !AckOf(w, n).ok ==>
      Next(w, ReadAck(n)).receivers[i].loop.messages[u] == w.receivers[i].loop.messages[u]
  {
    var r := AckOf(w, n);
    if n == i {
      AckEffect(w.receivers[n], r.uid, r.ok);
      AckChanges(w.receivers[n].loop, r.uid, r.ok, u);
    }
  }

  lemma ReadAckStays(w: World, n: nat, i: nat, u: nat)
    requires Inv(w) && Enabled(w, ReadAck(n)) && Knows(w, i, u)
    ensures Knows(Next(w, ReadAck(n)), i, u) && MessageOf(Next(w, ReadAck(n)), i, u) == MessageOf(w, i, u)
    ensures Unappended(w, i, u) ==> Unappended(Next(w, ReadAck(n)), i, u)
  {
    ReadAckKnows(w, n, i, u);
    if Unappended(w, i, u) {
      RawBackAckTaken(w.pump, n, n);
      forall r | r in P.Back(P.Next(w.pump, P.AckTaken(n)), i) && r.uid == u
        ensures !r.ok
      {
        TakenAckWasBack(w.pump, n, i, r);
      }
    }
  }

  lemma PumpStays(w: World, a: P.Action, i: nat, u: nat)
    requires Inv(w) && Enabled(w, Pump(a)) && Knows(w, i, u)
    ensures Knows(Next(w, Pump(a)), i, u) && MessageOf(Next(w, Pump(a)), i, u) == MessageOf(w, i, u)
    ensures Unappended(w, i, u) ==> Unappended(Next(w, Pump(a)), i, u) || Appends(w, Pump(a), i, u)
  {
    var v := Next(w, Pump(a));
    P.ShapeKept(w.pump, a);
    if Unappended(w, i, u) && !Appends(w, Pump(a), i, u) {
      forall r | r in P.Back(v.pump, i) && r.uid == u
        ensures !r.ok
      {
        if r.ok {
          BackGains(w.pump, a, i, r);
        }
      }
    }
  }

  /** While source i knows UID u, it knows it under one message, and only a nil Append ends its being unappended. */
  lemma StayStep(tr: seq<World>, acts: seq<Act>, k: nat, i: nat, u: nat)
    requires IsHonestRun(tr, acts) && k < |acts| && Knows(tr[k], i, u) && Knows(tr[k + 1], i, u)
    ensures MessageOf(tr[k + 1], i, u) == MessageOf(tr[k], i, u)
    ensures Unappended(tr[k], i, u) ==> Unappended(tr[k + 1], i, u) || Appends(tr[k], acts[k], i, u)
  {
    RunInv(tr, acts, k);
    match acts[k]
    case Receiver(n, a) => ReceiverStays(tr[k], n, a, i, u);
    case ReadAck(n) => ReadAckStays(tr[k], n, i, u);
    case Pump(a) => PumpStays(tr[k], a, i, u);
  }

  /** Source i knows UID u in every state from k to j. */
  ghost predicate KnowsThroughout(tr: seq<World>, k: nat, j: nat, i: nat, u: nat)
    requires j < |tr|
  {
    forall t {:trigger tr[t]} :: k <= t <= j ==> Knows(tr[t], i, u)
  }

  lemma NothingKnownAtFirst(tr: seq<World>, acts: seq<Act>, i: nat, u: nat)
    requires IsHonestRun(tr, acts)
    ensures !Knows(tr[0], i, u)
  {
    if i < |tr[0].receivers| {
      assert R.Init(tr[0].receivers[i]);
    }
  }

  lemma ReceiversStay(tr: seq<World>, acts: seq<Act>, k: nat)
    requires IsHonestRun(tr, acts) && k < |acts|
    ensures |tr[k + 1].receivers| == |tr[k].receivers|
  {
    RunInv(tr, acts, k);
  }

  lemma StayEntered(tr: seq<World>, acts: seq<Act>, k: nat, i: nat, u: nat)
    requires IsHonestRun(tr, acts) && k < |acts| && !Knows(tr[k], i, u) && Knows(tr[k + 1], i, u)
    ensures Unappended(tr[k + 1], i, u)
  {
    RunInv(tr, acts, k);
    ReceiversStay(tr, acts, k);
    EntersUnappended(tr[k], acts[k], i, u);
  }

  lemma {:induction false} StayBegins(tr: seq<World>, acts: seq<Act>, j: nat, i: nat, u: nat) returns (n: nat)
    requires IsHonestRun(tr, acts) && j <= |acts| && Knows(tr[j], i, u)
    ensures n <= j && KnowsThroughout(tr, n, j, i, u) && Unappended(tr[n], i, u)
  {
    NothingKnownAtFirst(tr, acts, i, u);
    if Knows(tr[j - 1], i, u) {
      n := StayBegins(tr, acts, j - 1, i, u);
    } else {
      n := j;
      StayEntered(tr, acts, j - 1, i, u);
    }
  }

  lemma {:induction false} AppendedSince(tr: seq<World>, acts: seq<Act>, n: nat, j: nat, i: nat, u: nat)
      returns (k: nat)
    requires IsHonestRun(tr, acts) && n <= j <= |acts| && KnowsThroughout(tr, n, j, i, u)
    requires Unappended(tr[n], i, u) && !Unappended(tr[j], i, u)
    ensures n <= k < j && Appends(tr[k], acts[k], i, u)
    decreases j - n
  {
    StayStep(tr, acts, n, i, u);
    if Appends(tr[n], acts[n], i, u) {
      k := n;
    } else {
      k := AppendedSince(tr, acts, n + 1, j, i, u);
    }
  }

  lemma {:induction false} OneMessage(tr: seq<World>, acts: seq<Act>, k: nat, j: nat, i: nat, u: nat)
    requires IsHonestRun(tr, acts) && k <= j <= |acts| && KnowsThroughout(tr, k, j, i, u)
    ensures MessageOf(tr[j], i, u) == MessageOf(tr[k], i, u)
    decreases j - k
  {
    if k < j {
      StayStep(tr, acts, k, i, u);
      OneMessage(tr, acts, k + 1, j, i, u);
    }
  }

  lemma AppendedIsKnown(w: World, i: nat, u: nat)
    requires Inv(w) && w.pump.ingest.Appending? && w.pump.ingest.req.ch == i && w.pump.ingest.req.uid == u
    requires Knows(w, i, u)
    ensures i < |w.pump.mailboxes|
    ensures w.pump.ingest.req == P.Request(w.pump.mailboxes[i], u, MessageOf(w, i, u), i)
  {
    assert Linked(w, i);
    assert P.WellRouted(w.pump, w.pump.ingest.req);
    assert w.pump.ingest.req.message in P.Raw(w.pump, i);
  }

  lemma StoredWasAppended(w: World, act: Act, i: nat, u: nat)
    requires Inv(w) && Stores(w, act, i, u)
    ensures Knows(w, i, u) && !Unappended(w, i, u) && MessageOf(w, i, u).uid == u
  {
    StoredIsAppended(w, act, i, u);
  }

  /** No loss. In every run, with any number of sources, when source i marks UID u as deleted, an earlier Append to
      source i's mailbox had returned nil for the very message source i knows under u, and has known without a break
      since. Returns that earlier step. */
  lemma NothingDeletedUnappended(tr: seq<World>, acts: seq<Act>, j: nat, i: nat, u: nat) returns (k: nat, m: Message)
    requires IsHonestRun(tr, acts) && j < |acts| && Stores(tr[j], acts[j], i, u)
    ensures k < j && KnowsThroughout(tr, k, j, i, u)
    ensures Knows(tr[j], i, u) && m == MessageOf(tr[j], i, u) && m.uid == u
    ensures i < |tr[0].pump.mailboxes|
    ensures acts[k] == Pump(P.AppendReturns(true))
    ensures tr[k].pump.ingest == P.Appending(P.Request(tr[0].pump.mailboxes[i], u, m, i))
  {
    RunInv(tr, acts, j);
    StoredWasAppended(tr[j], acts[j], i, u);
    m := MessageOf(tr[j], i, u);
    var n := StayBegins(tr, acts, j, i, u);
    k := AppendedSince(tr, acts, n, j, i, u);
    OneMessage(tr, acts, k, j, i, u);
    RunInv(tr, acts, k);
    MailboxesStay(tr, acts, k);
    AppendedIsKnown(tr[k], i, u);
  }

  /** A message whose Append failed: known and unacked, and nothing on its way could make it otherwise. */
  ghost predicate Stuck(w: World, req: P.Request) {
    req in w.pump.failed
  }

  ghost predicate Dispatches(w: World, act: Act, v: World, i: nat, u: nat) {
    act.Receiver? && act.i == i && i < |w.receivers| && i < |v.receivers|
        && u in Uids(Sent(w.receivers[i], v.receivers[i]))
  }

  lemma StuckHolds(w: World, req: P.Request)
    requires Inv(w) && Stuck(w, req)
    ensures req.ch < |w.receivers| && req.uid in w.receivers[req.ch].loop.messages
    ensures w.receivers[req.ch].loop.messages[req.uid] == Entry(req.message.seqNum, req.message, Unacked)
  {
    assert P.WellRouted(w.pump, req);
    assert Linked(w, req.ch);
    assert R.Inv(w.receivers[req.ch]);
  }

  lemma {:induction false} UidInUids(ms: seq<Message>, u: nat) returns (m: Message)
    requires u in Uids(ms)
    ensures m in ms && m.uid == u
  {
    if ms[0].uid == u {
      m := ms[0];
    } else {
      m := UidInUids(ms[1..], u);
    }
  }

  lemma KnownIsNotDispatched(w: World, act: Act, i: nat, u: nat)
    requires Inv(w) && Trusted(w, act) && i < |w.receivers| && u in w.receivers[i].loop.messages
    ensures !Dispatches(w, act, Next(w, act), i, u)
  {
    var v := Next(w, act);
    if Dispatches(w, act, v, i, u) {
      ReceiverEffect(w.receivers[i], act.a);
      var m := UidInUids(Sent(w.receivers[i], v.receivers[i]), u);
      assert false;
    }
  }

  lemma StuckNow(w: World, act: Act, req: P.Request)
    requires Inv(w) && Trusted(w, act) && Stuck(w, req)
    ensures req.ch < |w.receivers| && req.uid in w.receivers[req.ch].loop.messages
    ensures w.receivers[req.ch].loop.messages[req.uid] == Entry(req.message.seqNum, req.message, Unacked)
    ensures !Stores(w, act, req.ch, req.uid)
    ensures !Dispatches(w, act, Next(w, act), req.ch, req.uid)
  {
    StuckHolds(w, req);
    if Stores(w, act, req.ch, req.uid) {
      StoredIsAppended(w, act, req.ch, req.uid);
    }
    KnownIsNotDispatched(w, act, req.ch, req.uid);
  }

  lemma FailedForGood(tr: seq<World>, acts: seq<Act>, k: nat, j: nat, req: P.Request)
    requires IsHonestRun(tr, acts) && k <= j <= |acts| && Stuck(tr[k], req)
    ensures Stuck(tr[j], req)
  {
    RunInv(tr, acts, k);
    StepKeepsInv();
    forall w, act, v | Inv(w) && Stuck(w, req) && HonestStep(w, act, v)
      ensures Stuck(v, req)
    {
      AppendedBy(w, act, req);
    }
    Paths.Until(HonestStep, Inv, (w: World) => Stuck(w, req), (w: World, v: World) => false, tr, acts, k, j);
  }

  lemma FailureRecorded(w: World, req: P.Request)
    requires Joined(w) && Enabled(w, Pump(P.AppendReturns(false))) && w.pump.ingest == P.Appending(req)
    ensures Stuck(Next(w, Pump(P.AppendReturns(false))), req)
  {
  }

  /** After its Append has failed, a message stays known and unacked for the rest of the run: it is neither
      dispatched again nor ever marked as deleted. */
  lemma FailedStaysPut(tr: seq<World>, acts: seq<Act>, k: nat, j: nat, req: P.Request)
    requires IsHonestRun(tr, acts) && k < j < |acts|
    requires acts[k] == Pump(P.AppendReturns(false)) && tr[k].pump.ingest == P.Appending(req)
    ensures req.ch < |tr[j].receivers| && req.uid in tr[j].receivers[req.ch].loop.messages
    ensures tr[j].receivers[req.ch].loop.messages[req.uid] == Entry(req.message.seqNum, req.message, Unacked)
    ensures !Stores(tr[j], acts[j], req.ch, req.uid)
    ensures !Dispatches(tr[j], acts[j], tr[j + 1], req.ch, req.uid)
  {
    RunInv(tr, acts, k);
    FailureRecorded(tr[k], req);
    FailedForGood(tr, acts, k + 1, j, req);
    RunInv(tr, acts, j);
    StuckNow(tr[j], acts[j], req);
  }

  /** Source i has let go of UID u. */
  ghost predicate Forgets(w: World, v: World, i: nat, u: nat) {
    && i < |w.receivers| && i < |v.receivers|
    && u in w.receivers[i].loop.messages && u !in v.receivers[i].loop.messages
  }

  /** UID u of source i is known, and no message with it is on its way to an Append. */
  ghost predicate Spent(w: World, i: nat, u: nat) {
    && i < |w.receivers| && i < |w.pump.incoming| && u in w.receivers[i].loop.messages
    && forall x :: x in P.Raw(w.pump, i) ==> x.uid != u
  }

  lemma SpentByAppend(w: World, ok: bool)
    requires Inv(w) && Enabled(w, Pump(P.AppendReturns(ok)))
    ensures Spent(Next(w, Pump(P.AppendReturns(ok))), w.pump.ingest.req.ch, w.pump.ingest.req.uid)
  {
    var req := w.pump.ingest.req;
    var v := Next(w, Pump(P.AppendReturns(ok)));
    PumpKeeps(w, P.AppendReturns(ok));
    RawBackAppend(w.pump, ok, req.ch);
    assert Linked(v, req.ch);
    assert P.Response(req.uid, ok) in P.Back(v.pump, req.ch);
  }

  lemma SpentReceiver(w: World, n: nat, a: R.Action, i: nat, u: nat)
    requires Inv(w) && Spent(w, i, u) && Trusted(w, Receiver(n, a))
    ensures Forgets(w, Next(w, Receiver(n, a)), i, u) || Spent(Next(w, Receiver(n, a)), i, u)
  {
    var v := Next(w, Receiver(n, a));
    var out := Sent(w.receivers[n], v.receivers[n]);
    RawBackArrive(w.pump, n, out, i);
    ReceiverEffect(w.receivers[n], a);
  }

  lemma RawGainsNothing(p: P.Pump, a: P.Action, j: nat, x: Message)
    requires P.Shaped(p) && P.Enabled(p, a) && !a.Arrive? && !a.AckTaken? && j < |p.mailboxes|
    requires P.Shaped(P.Next(p, a)) && |P.Next(p, a).mailboxes| == |p.mailboxes| && x in P.Raw(P.Next(p, a), j)
    ensures x in P.Raw(p, j)
  {
    if a.AppendReturns? {
      RawBackAppend(p, a.ok, j);
    } else if a.AckReturns? {
      RawBackAckReturns(p, j);
    } else if a.Choose? && a.c.Receive? {
      TakenRaw(p, a.c.source, j);
    } else {
      RawBackPass(p, a, j);
    }
  }

  lemma SpentPump(w: World, a: P.Action, i: nat, u: nat)
    requires Inv(w) && Spent(w, i, u) && Enabled(w, Pump(a))
    ensures Spent(Next(w, Pump(a)), i, u)
  {
    P.ShapeKept(w.pump, a);
    forall x | x in P.Raw(Next(w, Pump(a)).pump, i)
      ensures x in P.Raw(w.pump, i)
    {
      RawGainsNothing(w.pump, a, i, x);
    }
  }

  lemma SpentReadAck(w: World, n: nat, i: nat, u: nat)
    requires Inv(w) && Spent(w, i, u) && Enabled(w, ReadAck(n))
    ensures Spent(Next(w, ReadAck(n)), i, u)
  {
    RawBackAckTaken(w.pump, n, i);
    if n == i {
      var r := w.pump.acks[n][0];
      AckEffect(w.receivers[n], r.uid, r.ok);
      AckKeys(w.receivers[n].loop, r.uid, r.ok);
    }
  }

  lemma AckKeys(l: Loop, uid: nat, ok: bool)
    ensures HandleAck(l, uid, ok).messages.Keys == l.messages.Keys
  {
  }

  lemma SpentStep(w: World, act: Act, i: nat, u: nat)
    requires Inv(w) && Spent(w, i, u) && Trusted(w, act)
    ensures Forgets(w, Next(w, act), i, u) || Spent(Next(w, act), i, u)
  {
    match act
    case Receiver(n, a) => SpentReceiver(w, n, a, i, u);
    case ReadAck(n) => SpentReadAck(w, n, i, u);
    case Pump(a) => SpentPump(w, a, i, u);
  }

  lemma AppendingIsRaw(w: World)
    requires Inv(w) && w.pump.ingest.Appending?
    ensures !Spent(w, w.pump.ingest.req.ch, w.pump.ingest.req.uid)
  {
    assert w.pump.ingest.req.message in P.Raw(w.pump, w.pump.ingest.req.ch);
  }

  lemma SpentAlong(tr: seq<World>, acts: seq<Act>, k: nat, i: nat, u: nat)
    requires IsHonestRun(tr, acts) && k < |acts| && Spent(tr[k], i, u)
    ensures Forgets(tr[k], tr[k + 1], i, u) || Spent(tr[k + 1], i, u)
  {
    RunInv(tr, acts, k);
    SpentStep(tr[k], acts[k], i, u);
  }

  lemma {:induction false} SpentUntilForgotten(tr: seq<World>, acts: seq<Act>, k: nat, j: nat, i: nat, u: nat)
      returns (n: nat)
    requires IsHonestRun(tr, acts) && k <= j <= |acts| && Spent(tr[k], i, u) && !Spent(tr[j], i, u)
    ensures k <= n < j && Forgets(tr[n], tr[n + 1], i, u)
    decreases j - k
  {
    SpentAlong(tr, acts, k, i, u);
    if Forgets(tr[k], tr[k + 1], i, u) {
      n := k;
    } else {
      n := SpentUntilForgotten(tr, acts, k + 1, j, i, u);
    }
  }

  /** The ingester's Append of a message of source i with UID u, successful or not, returns in this step. */
  ghost predicate AppendOf(w: World, act: Act, i: nat, u: nat) {
    && act.Pump? && act.p.AppendReturns?
    && w.pump.ingest.Appending? && w.pump.ingest.req.ch == i && w.pump.ingest.req.uid == u
  }

  lemma SpentAround(tr: seq<World>, acts: seq<Act>, k: nat, i: nat, u: nat)
    requires IsHonestRun(tr, acts) && k < |acts| && AppendOf(tr[k], acts[k], i, u)
    ensures !Spent(tr[k], i, u) && Spent(tr[k + 1], i, u)
  {
    RunInv(tr, acts, k);
    AppendingIsRaw(tr[k]);
    SpentByAppend(tr[k], acts[k].p.ok);
  }

  /** No duplicates. Between two Appends for the same UID of the same source, successful or not, the source has
      forgotten that UID: while it knows a message it is appended at most once. */
  lemma AppendedOncePerStay(tr: seq<World>, acts: seq<Act>, k: nat, j: nat, i: nat, u: nat) returns (n: nat)
    requires IsHonestRun(tr, acts) && k < j < |acts|
    requires AppendOf(tr[k], acts[k], i, u) && AppendOf(tr[j], acts[j], i, u)
    ensures k < n < j && Forgets(tr[n], tr[n + 1], i, u)
  {
    assert Spent(tr[k + 1], i, u) by {
      SpentAround(tr, acts, k, i, u);
    }
    assert !Spent(tr[j], i, u) by {
      SpentAround(tr, acts, j, i, u);
    }
    n := SpentUntilForgotten(tr, acts, k + 1, j, i, u);
  }

  // ---- Nothing is lost between receiver and pump

  /** What source i has sent out is what the pump has taken from it and then what waits to be taken. */
  ghost predicate OnItsWay(w: World, i: nat) {
    && i < |w.receivers| && i < |w.pump.taken| && i < |w.pump.incoming|
    && w.receivers[i].dispatched == w.pump.taken[i] + w.pump.incoming[i]
  }

  lemma DispatchedGrows(s: R.Sys, a: R.Action)
    requires R.Inv(s) && R.Enabled(s, a)
    ensures R.Next(s, a).dispatched == s.dispatched + Sent(s, R.Next(s, a))
    ensures a.AckIn? ==> R.Next(s, a).dispatched == s.dispatched
  {
    if R.ByLoop(a) {
      R.IterationGoesOnOrLeaves(s, a);
    }
  }

  lemma OnItsWayStep(w: World, act: Act, i: nat)
    requires Inv(w) && Trusted(w, act) && OnItsWay(w, i) && Inv(Next(w, act))
    ensures OnItsWay(Next(w, act), i)
  {
    match act
    case Receiver(n, a) =>
      var out := Sent(w.receivers[n], R.Next(w.receivers[n], a));
      DispatchedGrows(w.receivers[n], a);
      PR.ArrivalStep(w.pump, P.Arrive(n, out), i);
    case ReadAck(n) =>
      DispatchedGrows(w.receivers[n], AckOf(w, n));
      PR.ArrivalStep(w.pump, P.AckTaken(n), i);
    case Pump(p) => PR.ArrivalStep(w.pump, p, i);
  }

  /** In every run and for each source, what was sent out has been taken by the pump or waits to be, in order. */
  lemma {:induction false} SentIsTakenOrWaiting(tr: seq<World>, acts: seq<Act>, j: nat, i: nat)
    requires IsHonestRun(tr, acts) && j <= |acts| && i < |tr[0].receivers|
    ensures OnItsWay(tr[j], i)
  {
    if j == 0 {
      RunInv(tr, acts, 0);
      assert R.Init(tr[0].receivers[i]);
    } else {
      SentIsTakenOrWaiting(tr, acts, j - 1, i);
      RunInv(tr, acts, j - 1);
      RunInv(tr, acts, j);
      OnItsWayStep(tr[j - 1], acts[j - 1], i);
    }
  }
}
