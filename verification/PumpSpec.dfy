/** The pump between N receivers and one ingester: the select loop, the ingest loop and the channels that join
    them, as a step relation. A single pump is the case of one source. */
module PumpSpec {
  import opened Imap

  datatype Response = Response(uid: nat, ok: bool)

  /** `ch` is the index of the reply channel, which is what tells the sources apart. */
  datatype Request = Request(mailbox: string, uid: nat, message: Message, ch: nat)

  /** Where the select loop is: in its select, blocked handing a message to the ingester, or blocked in an Ack. */
  datatype Tick =
    | Selecting
    | Sending(source: nat, message: Message)
    | Acking(source: nat, uid: nat, ok: bool)
    | TickDone

  datatype Ingest = Waiting | Appending(req: Request) | Responding(ch: nat, response: Response) | IngestDone

  /** `acks[i]` is what receiver i has been sent and not yet looked at. `taken`, `answered`, `appended` and
      `failed` are history: messages received per source, Acks returned per source, and the requests whose
      Append returned nil or an error. */
  datatype Pump = Pump(
    mailboxes: seq<string>,
    incoming: seq<seq<Message>>,
    responses: seq<seq<Response>>,
    acks: seq<seq<Response>>,
    tick: Tick,
    ingest: Ingest,
    shutdown: bool,
    taken: seq<seq<Message>>,
    answered: seq<multiset<nat>>,
    appended: set<Request>,
    failed: set<Request>)

  const RESPONSE_CAPACITY: nat := 10

  /** What the index chosen by the select means. */
  datatype Case = Receive(source: nat) | Reply(source: nat) | Leave

  function Route(n: nat, chosen: nat): Case
    requires chosen < 2 * n + 1
  {
    if chosen < n then Receive(chosen) else if chosen < 2 * n then Reply(chosen - n) else Leave
  }

  /** The 2n+1 cases are, without overlap or gap, one receive and one reply per source, and the exit. */
  lemma RoutesPartition(n: nat, c: Case)
    requires c == Leave || c.source < n
    ensures exists chosen :: 0 <= chosen < 2 * n + 1 && Route(n, chosen) == c
    ensures forall a, b :: 0 <= a < 2 * n + 1 && 0 <= b < 2 * n + 1 && Route(n, a) == Route(n, b) ==> a == b
  {
    var chosen := match c case Receive(i) => i case Reply(i) => n + i case Leave => 2 * n;
    assert Route(n, chosen) == c;
  }

  datatype Action =
    | Arrive(source: nat, messages: seq<Message>)
    | Choose(c: Case)
    | Handoff
    | AppendReturns(ok: bool)
    | Respond
    | AckReturns
    | AckTaken(source: nat)
    | IngestQuits

  ghost predicate Enabled(p: Pump, a: Action) {
    match a
    case Arrive(i, _) => i < |p.incoming|
    case Choose(Receive(i)) => p.tick.Selecting? && i < |p.incoming| && p.incoming[i] != []
    case Choose(Reply(i)) => p.tick.Selecting? && i < |p.responses| && p.responses[i] != []
    case Choose(Leave) => p.tick.Selecting?
    case Handoff => p.tick.Sending? && p.ingest.Waiting?
    case AppendReturns(_) => p.ingest.Appending?
    case Respond => p.ingest.Responding? && p.ingest.ch < |p.responses|
        && |p.responses[p.ingest.ch]| < RESPONSE_CAPACITY
    case AckReturns => p.tick.Acking?
    case AckTaken(i) => i < |p.acks| && p.acks[i] != []
    case IngestQuits => p.ingest.Waiting? && !p.tick.Sending?
  }

  /** IngestMessage refuses a message without a UID, and any once shut down; otherwise it waits for the ingester. */
  function Ingested(p: Pump, source: nat, m: Message): Tick {
    if m.uid == 0 || p.shutdown then Acking(source, m.uid, false) else Sending(source, m)
  }

  /** What the select loop does with the case chosen. */
  function Chosen(p: Pump, c: Case): Pump
    requires c == Leave || c.source < |p.incoming| == |p.responses| == |p.taken|
    requires c.Receive? ==> p.incoming[c.source] != []
    requires c.Reply? ==> p.responses[c.source] != []
  {
    match c
    case Receive(i) =>
      var m := p.incoming[i][0];
      p.(incoming := p.incoming[i := p.incoming[i][1..]], taken := p.taken[i := p.taken[i] + [m]],
          tick := Ingested(p, i, m))
    case Reply(i) =>
      var r := p.responses[i][0];
      p.(responses := p.responses[i := p.responses[i][1..]], tick := Acking(i, r.uid, r.ok))
    case Leave => p.(tick := TickDone)
  }

  ghost function Next(p: Pump, a: Action): Pump
    requires Shaped(p) && Enabled(p, a)
  {
    match a
    case Arrive(i, ms) => p.(incoming := p.incoming[i := p.incoming[i] + ms])
    case Choose(c) => Chosen(p, c)
    case Handoff =>
      var i, m := p.tick.source, p.tick.message;
      p.(tick := Selecting, ingest := Appending(Request(p.mailboxes[i], m.uid, m, i)))
    case AppendReturns(ok) =>
      var req := p.ingest.req;
      p.(ingest := Responding(req.ch, Response(req.uid, ok)),
         appended := if ok then p.appended + {req} else p.appended,
         failed := if ok then p.failed else p.failed + {req})
    case Respond =>
      var i := p.ingest.ch;
      p.(ingest := Waiting, responses := p.responses[i := p.responses[i] + [p.ingest.response]])
    case AckReturns =>
      var i, r := p.tick.source, Response(p.tick.uid, p.tick.ok);
      p.(tick := Selecting,
         answered := p.answered[i := p.answered[i] + multiset{r.uid}],
         acks := if r.uid == 0 then p.acks else p.acks[i := p.acks[i] + [r]])
    case AckTaken(i) => p.(acks := p.acks[i := p.acks[i][1..]])
    case IngestQuits => p.(ingest := IngestDone, shutdown := true)
  }

  /** One of everything per source, and every index in use is a source. */
  predicate Shaped(p: Pump) {
    && |p.incoming| == |p.responses| == |p.acks| == |p.taken| == |p.answered| == |p.mailboxes|
    && (p.tick.Sending? || p.tick.Acking? ==> p.tick.source < |p.mailboxes|)
    && (p.ingest.Appending? ==> p.ingest.req.ch < |p.mailboxes|)
    && (p.ingest.Responding? ==> p.ingest.ch < |p.mailboxes|)
  }

  function Nones<T>(n: nat, t: T): seq<T> {
    seq(n, _ => t)
  }

  function FreshPump(mailboxes: seq<string>): Pump {
    var n := |mailboxes|;
    Pump(mailboxes, Nones(n, []), Nones(n, []), Nones(n, []), Selecting, Waiting, false,
         Nones(n, []), Nones(n, multiset{}), {}, {})
  }

  ghost predicate Init(p: Pump) {
    p == FreshPump(p.mailboxes)
  }

  // ---- Messages and responses under way

  /** Messages of source i on their way to an Append. */
  function Raw(p: Pump, i: nat): multiset<Message>
    requires i < |p.incoming|
  {
    multiset(p.incoming[i]) + TickRaw(p.tick, i) + IngestRaw(p.ingest, i)
  }

  function TickRaw(t: Tick, i: nat): multiset<Message> {
    if t.Sending? && t.source == i then multiset{t.message} else multiset{}
  }

  function IngestRaw(g: Ingest, i: nat): multiset<Message> {
    if g.Appending? && g.req.ch == i then multiset{g.req.message} else multiset{}
  }

  /** Responses on their way back to receiver i. */
  function Back(p: Pump, i: nat): multiset<Response>
    requires i < |p.responses| && i < |p.acks|
  {
    multiset(p.acks[i]) + TickBack(p.tick, i) + multiset(p.responses[i]) + IngestBack(p.ingest, i)
  }

  function TickBack(t: Tick, i: nat): multiset<Response> {
    if t.Acking? && t.source == i then multiset{Response(t.uid, t.ok)} else multiset{}
  }

  function IngestBack(g: Ingest, i: nat): multiset<Response> {
    if g.Responding? && g.ch == i then multiset{g.response} else multiset{}
  }

  /** A request as the pump makes them: it goes to its source's mailbox and asks for the answer on its source's
      channel. */
  predicate WellRouted(p: Pump, req: Request)
    requires |p.taken| == |p.mailboxes|
  {
    && req.ch < |p.mailboxes| && req.mailbox == p.mailboxes[req.ch] && req.uid == req.message.uid
    && req.message in p.taken[req.ch]
  }

  function ResponseUids(rs: seq<Response>): multiset<nat> {
    if rs == [] then multiset{} else multiset{rs[0].uid} + ResponseUids(rs[1..])
  }

  /** UIDs of source i between the select loop's receive and the return of their Ack. */
  function Held(p: Pump, i: nat): multiset<nat>
    requires i < |p.responses|
  {
    ResponseUids(p.responses[i]) + TickHolds(p.tick, i) + IngestHolds(p.ingest, i)
  }

  function TickHolds(t: Tick, i: nat): multiset<nat> {
    match t
    case Sending(s, m) => if s == i then multiset{m.uid} else multiset{}
    case Acking(s, uid, _) => if s == i then multiset{uid} else multiset{}
    case _ => multiset{}
  }

  function IngestHolds(g: Ingest, i: nat): multiset<nat> {
    match g
    case Appending(req) => if req.ch == i then multiset{req.uid} else multiset{}
    case Responding(ch, r) => if ch == i then multiset{r.uid} else multiset{}
    case _ => multiset{}
  }

  ghost predicate Routed(p: Pump)
    requires Shaped(p)
  {
    && (p.tick.Sending? ==> p.tick.message in p.taken[p.tick.source])
    && (p.ingest.Appending? ==> WellRouted(p, p.ingest.req))
    && (forall req :: req in p.appended ==> WellRouted(p, req))
    && (forall req :: req in p.failed ==> WellRouted(p, req))
  }

  /** For one source: the reply channel is within bounds, and taken = acked + in flight. */
  ghost predicate Counted(p: Pump, i: nat)
    requires Shaped(p) && i < |p.mailboxes|
  {
    && |p.responses[i]| <= RESPONSE_CAPACITY
    && Uids(p.taken[i]) == p.answered[i] + Held(p, i)
  }

  ghost predicate Inv(p: Pump) {
    && Shaped(p) && Routed(p)
    && forall i {:trigger Counted(p, i)} :: 0 <= i < |p.mailboxes| ==> Counted(p, i)
  }

  lemma {:induction false} ResponseUidsSnoc(rs: seq<Response>, r: Response)
    ensures ResponseUids(rs + [r]) == ResponseUids(rs) + multiset{r.uid}
  {
    if rs == [] {
      assert rs + [r] == [r];
    } else {
      assert (rs + [r])[1..] == rs[1..] + [r];
      ResponseUidsSnoc(rs[1..], r);
    }
  }

  lemma UidsSnoc(ms: seq<Message>, m: Message)
    ensures Uids(ms + [m]) == Uids(ms) + multiset{m.uid}
  {
    UidsConcat(ms, [m]);
    assert Uids([m]) == multiset{m.uid};
  }

  lemma InitInv(p: Pump)
    requires Init(p)
    ensures Inv(p)
  {
  }

  lemma ShapeKept(p: Pump, a: Action)
    requires Shaped(p) && Enabled(p, a)
    ensures Shaped(Next(p, a)) && Next(p, a).mailboxes == p.mailboxes
    ensures forall i :: 0 <= i < |p.mailboxes| ==> p.taken[i] <= Next(p, a).taken[i]
  {
  }

  lemma StillRouted(p: Pump, q: Pump, req: Request)
    requires Shaped(p) && Shaped(q) && WellRouted(p, req) && q.mailboxes == p.mailboxes
    requires forall i :: 0 <= i < |p.mailboxes| ==> p.taken[i] <= q.taken[i]
    ensures WellRouted(q, req)
  {
    var i := req.ch;
    assert p.taken[i] <= q.taken[i];
    var k :| 0 <= k < |p.taken[i]| && p.taken[i][k] == req.message;
    assert q.taken[i][k] == req.message;
  }

  lemma RoutedKept(p: Pump, a: Action)
    requires Shaped(p) && Routed(p) && Enabled(p, a)
    ensures Shaped(Next(p, a)) && Routed(Next(p, a))
  {
    var q := Next(p, a);
    ShapeKept(p, a);
    forall req | req in p.appended || req in p.failed || (p.ingest.Appending? && req == p.ingest.req)
      ensures WellRouted(q, req)
    {
      StillRouted(p, q, req);
    }
    if p.tick.Sending? {
      assert p.taken[p.tick.source] <= q.taken[p.tick.source];
    }
  }

  lemma Balanced(taken: multiset<nat>, answered: multiset<nat>, held: multiset<nat>, more: multiset<nat>)
    requires taken == answered + held
    ensures taken + more == answered + (held + more)
  {
  }

  lemma TakeCounted(p: Pump, s: nat, i: nat)
    requires Shaped(p) && Enabled(p, Choose(Receive(s))) && i < |p.mailboxes| && Counted(p, i)
    ensures Counted(Next(p, Choose(Receive(s))), i)
  {
    var m := p.incoming[s][0];
    var q := Next(p, Choose(Receive(s)));
    var more := if i == s then multiset{m.uid} else multiset{};
    TakenHolds(p, s, m, i);
    assert q.responses == p.responses && q.ingest == p.ingest;
    assert Held(q, i) == Held(p, i) + more;
    TakenGrows(p.taken, s, m, i);
    Balanced(Uids(p.taken[i]), p.answered[i], Held(p, i), more);
  }

  lemma TakenHolds(p: Pump, s: nat, m: Message, i: nat)
    requires p.tick.Selecting?
    ensures TickHolds(Ingested(p, s, m), i) == (if i == s then multiset{m.uid} else multiset{})
    ensures TickHolds(p.tick, i) == multiset{}
  {
  }

  lemma TakenGrows(taken: seq<seq<Message>>, s: nat, m: Message, i: nat)
    requires s < |taken| && i < |taken|
    ensures Uids(taken[s := taken[s] + [m]][i]) == Uids(taken[i]) + if i == s then multiset{m.uid} else multiset{}
  {
    UidsSnoc(taken[s], m);
  }

  lemma HandoffCounted(p: Pump, i: nat)
    requires Shaped(p) && Enabled(p, Handoff) && i < |p.mailboxes| && Counted(p, i)
    ensures Counted(Next(p, Handoff), i)
  {
    var q := Next(p, Handoff);
    assert IngestHolds(p.ingest, i) == multiset{} == TickHolds(q.tick, i);
    assert IngestHolds(q.ingest, i) == TickHolds(p.tick, i);
    Passed(ResponseUids(p.responses[i]), TickHolds(p.tick, i));
  }

  lemma Passed(a: multiset<nat>, t: multiset<nat>)
    ensures a + t + multiset{} == a + multiset{} + t
  {
  }

  lemma AppendCounted(p: Pump, ok: bool, i: nat)
    requires Shaped(p) && Enabled(p, AppendReturns(ok)) && i < |p.mailboxes| && Counted(p, i)
    requires p.ingest.req.uid == p.ingest.req.message.uid
    ensures Counted(Next(p, AppendReturns(ok)), i)
  {
    assert IngestHolds(Next(p, AppendReturns(ok)).ingest, i) == IngestHolds(p.ingest, i);
  }

  lemma LeaveCounted(p: Pump, i: nat)
    requires Shaped(p) && Enabled(p, Choose(Leave)) && i < |p.mailboxes| && Counted(p, i)
    ensures Counted(Next(p, Choose(Leave)), i)
  {
    assert TickHolds(Next(p, Choose(Leave)).tick, i) == TickHolds(p.tick, i);
  }

  lemma QuietCounted(p: Pump, a: Action, i: nat)
    requires Shaped(p) && Enabled(p, a) && i < |p.mailboxes| && Counted(p, i)
    requires a.Arrive? || a.AckTaken? || a.IngestQuits?
    ensures Counted(Next(p, a), i)
  {
    if a.IngestQuits? {
      assert IngestHolds(Next(p, a).ingest, i) == IngestHolds(p.ingest, i);
    }
  }

  lemma ReplyCounted(p: Pump, s: nat, i: nat)
    requires Shaped(p) && Enabled(p, Choose(Reply(s))) && i < |p.mailboxes| && Counted(p, i)
    ensures Counted(Next(p, Choose(Reply(s))), i)
  {
    var q := Next(p, Choose(Reply(s)));
    assert q.ingest == p.ingest && q.taken == p.taken && q.answered == p.answered;
    assert TickHolds(p.tick, i) == multiset{};
    if i == s {
      var r := p.responses[i][0];
      assert q.responses[i] == p.responses[i][1..] && TickHolds(q.tick, i) == multiset{r.uid};
      assert ResponseUids(p.responses[i]) == multiset{r.uid} + ResponseUids(q.responses[i]);
      HeadMoves(ResponseUids(q.responses[i]), multiset{r.uid}, IngestHolds(p.ingest, i));
    } else {
      assert q.responses[i] == p.responses[i] && TickHolds(q.tick, i) == multiset{};
    }
  }

  lemma HeadMoves(rest: multiset<nat>, head: multiset<nat>, g: multiset<nat>)
    ensures head + rest + multiset{} + g == rest + head + g
  {
  }

  lemma RespondCounted(p: Pump, i: nat)
    requires Shaped(p) && Enabled(p, Respond) && i < |p.mailboxes| && Counted(p, i)
    ensures Counted(Next(p, Respond), i)
  {
    var q := Next(p, Respond);
    var ch, r := p.ingest.ch, p.ingest.response;
    assert q.tick == p.tick && q.taken == p.taken && q.answered == p.answered && IngestHolds(q.ingest, i) == multiset{};
    if i == ch {
      ResponseUidsSnoc(p.responses[ch], r);
      LastMoves(ResponseUids(p.responses[ch]), TickHolds(p.tick, i), multiset{r.uid});
    } else {
      assert q.responses[i] == p.responses[i] && IngestHolds(p.ingest, i) == multiset{};
    }
  }

  lemma LastMoves(a: multiset<nat>, t: multiset<nat>, x: multiset<nat>)
    ensures (a + x) + t + multiset{} == a + t + x
  {
  }

  lemma AckCounted(p: Pump, i: nat)
    requires Shaped(p) && Enabled(p, AckReturns) && i < |p.mailboxes| && Counted(p, i)
    ensures Counted(Next(p, AckReturns), i)
  {
    var q := Next(p, AckReturns);
    var less := if i == p.tick.source then multiset{p.tick.uid} else multiset{};
    assert q.responses == p.responses && q.ingest == p.ingest && q.taken == p.taken;
    assert q.answered[i] == p.answered[i] + less;
    assert TickHolds(p.tick, i) == less && TickHolds(q.tick, i) == multiset{};
    Settled(Uids(p.taken[i]), p.answered[i], ResponseUids(p.responses[i]), less, IngestHolds(p.ingest, i));
  }

  lemma Settled(taken: multiset<nat>, answered: multiset<nat>, a: multiset<nat>, x: multiset<nat>, g: multiset<nat>)
    requires taken == answered + (a + x + g)
    ensures taken == (answered + x) + (a + multiset{} + g)
  {
  }

  lemma CountKept(p: Pump, a: Action, i: nat)
    requires Shaped(p) && Routed(p) && Enabled(p, a) && i < |p.mailboxes| && Counted(p, i)
    requires Shaped(Next(p, a)) && |Next(p, a).mailboxes| == |p.mailboxes|
    ensures Counted(Next(p, a), i)
  {
    if a.Choose? && a.c.Receive? {
      TakeCounted(p, a.c.source, i);
    } else if a.Choose? && a.c.Reply? {
      ReplyCounted(p, a.c.source, i);
    } else if a.Respond? {
      RespondCounted(p, i);
    } else if a.AckReturns? {
      AckCounted(p, i);
    } else if a.Choose? {
      LeaveCounted(p, i);
    } else if a.Handoff? {
      HandoffCounted(p, i);
    } else if a.AppendReturns? {
      AppendCounted(p, a.ok, i);
    } else {
      QuietCounted(p, a, i);
    }
  }

  /** Routing and counting are kept by every step, whoever it is by. */
  lemma InvKept(p: Pump, a: Action)
    requires Inv(p) && Enabled(p, a)
    ensures Inv(Next(p, a))
  {
    RoutedKept(p, a);
    ShapeKept(p, a);
    forall i | 0 <= i < |p.mailboxes|
      ensures Counted(Next(p, a), i)
    {
      CountKept(p, a, i);
    }
  }
}
