/** When the select loop and the ingester can end up waiting for each other, and that otherwise they finish. */
module PumpProgress {
  import opened Imap
  import opened Numbers
  import opened PumpSpec
  import Paths

  ghost predicate Step(p: Pump, a: Action, q: Pump) {
    Shaped(p) && Enabled(p, a) && q == Next(p, a)
  }

  lemma RunInv(tr: seq<Pump>, acts: seq<Action>, j: nat)
    requires Paths.IsPath(Step, tr, acts) && Init(tr[0]) && j <= |acts|
    ensures Inv(tr[j])
  {
    InitInv(tr[0]);
    forall p, a, q | Inv(p) && Step(p, a, q)
      ensures Inv(q)
    {
      InvKept(p, a);
    }
    Paths.Invariant(Step, Inv, tr, acts, j);
  }

  /** In every run, for every source: what was taken from it has been acked to it or is under way, message by
      message; and whatever was tried on the destination came from the source whose mailbox it went to. */
  lemma TakenIsAckedOrUnderWay(tr: seq<Pump>, acts: seq<Action>, j: nat, i: nat)
    requires Paths.IsPath(Step, tr, acts) && Init(tr[0]) && j <= |acts|
    requires |tr[j].mailboxes| == |tr[j].taken| == |tr[j].answered| == |tr[j].responses| && i < |tr[j].mailboxes|
    ensures Uids(tr[j].taken[i]) == tr[j].answered[i] + Held(tr[j], i)
    ensures forall req :: req in tr[j].appended || req in tr[j].failed ==> WellRouted(tr[j], req)
  {
    RunInv(tr, acts, j);
    assert Counted(tr[j], i);
  }

  function TotalLen(qs: seq<seq<Response>>): nat {
    if qs == [] then 0 else |qs[0]| + TotalLen(qs[1..])
  }

  lemma {:induction false} TotalLenUpdate(qs: seq<seq<Response>>, i: nat, q: seq<Response>)
    requires i < |qs|
    ensures TotalLen(qs[i := q]) + |qs[i]| == TotalLen(qs) + |q|
  {
    if i == 0 {
      assert qs[0 := q][1..] == qs[1..];
    } else {
      assert qs[i := q][1..] == qs[1..][i - 1 := q];
      TotalLenUpdate(qs[1..], i - 1, q);
    }
  }

  lemma {:induction false} TotalLenSome(qs: seq<seq<Response>>) returns (i: nat)
    requires TotalLen(qs) > 0
    ensures i < |qs| && qs[i] != []
  {
    if qs[0] != [] {
      i := 0;
    } else {
      i := TotalLenSome(qs[1..]);
      i := i + 1;
    }
  }

  function TickLoad(t: Tick): nat {
    if t.Sending? || t.Acking? then 1 else 0
  }

  function IngestLoad(g: Ingest): nat {
    if g.Appending? || g.Responding? then 1 else 0
  }

  /** Messages between the select loop's receive and the return of their Ack, over all sources. */
  function Load(p: Pump): nat {
    TotalLen(p.responses) + TickLoad(p.tick) + IngestLoad(p.ingest)
  }

  /** Each waits for the other: the loop for the ingester to take its message, the ingester for room on a reply
      channel that only the loop empties. */
  predicate MutualWait(p: Pump) {
    && p.tick.Sending?
    && p.ingest.Responding? && IsFull(p, p.ingest.ch)
  }

  predicate IsFull(p: Pump, ch: nat) {
    ch < |p.responses| && |p.responses[ch]| >= RESPONSE_CAPACITY
  }

  /** Bound to end in a mutual wait: the loop has a message to hand over, and the ingester, if only once its Append
      returns, an answer for a channel that is full. */
  predicate Jammed(p: Pump) {
    p.tick.Sending? && match p.ingest
                       case Appending(req) => IsFull(p, req.ch)
                       case Responding(ch, _) => IsFull(p, ch)
                       case _ => false
  }

  /** With at most 11 messages under way the two are not so bound, however many sources there are. */
  lemma ElevenNeverBlock(p: Pump)
    requires Shaped(p) && Jammed(p)
    ensures Load(p) >= 12
  {
    TotalLenUpdate(p.responses, if p.ingest.Appending? then p.ingest.req.ch else p.ingest.ch, []);
  }

  /** No step whatever, by anyone, undoes a jam, and none acks or appends anything once each waits for the other. */
  lemma JamStays(p: Pump, a: Action)
    requires Shaped(p) && Enabled(p, a) && Jammed(p)
    ensures Shaped(Next(p, a)) && Jammed(Next(p, a)) && Next(p, a).answered == p.answered
    ensures MutualWait(p) ==> !Moves(a) && MutualWait(Next(p, a)) && Next(p, a).appended == p.appended
  {
    ShapeKept(p, a);
  }

  /** A jam is for good: along any run from it, nothing more is ever acked. */
  lemma {:induction false} JammedForGood(tr: seq<Pump>, acts: seq<Action>, j: nat)
    requires Paths.IsPath(Step, tr, acts) && Shaped(tr[0]) && Jammed(tr[0]) && j <= |acts|
    ensures Shaped(tr[j]) && Jammed(tr[j]) && tr[j].answered == tr[0].answered
    ensures MutualWait(tr[0]) ==> MutualWait(tr[j]) && tr[j].appended == tr[0].appended
  {
    if j > 0 {
      JammedForGood(tr, acts, j - 1);
      assert Step(tr[j - 1], acts[j - 1], tr[j - 1 + 1]);
      JamStays(tr[j - 1], acts[j - 1]);
    }
  }

  // ---- With intake stopped, everything is acked

  predicate Moves(a: Action) {
    a.Handoff? || a.AppendReturns? || a.Respond? || a.AckReturns? || (a.Choose? && a.c.Reply?)
  }

  /** Steps left before everything under way has been acked. */
  function Work(p: Pump): nat {
    2 * TotalLen(p.responses)
    + (match p.tick case Sending(_, _) => 5 case Acking(_, _, _) => 1 case _ => 0)
    + (match p.ingest case Appending(_) => 4 case Responding(_, _) => 3 case _ => 0)
  }

  predicate Open(p: Pump) {
    p.tick != TickDone && p.ingest != IngestDone
  }

  lemma WorkFalls(p: Pump, a: Action)
    requires Shaped(p) && Enabled(p, a) && Moves(a)
    ensures Shaped(Next(p, a))
    ensures Work(Next(p, a)) + 1 == Work(p)
    ensures Open(p) ==> Open(Next(p, a))
  {
    ShapeKept(p, a);
    if a.Respond? {
      TotalLenUpdate(p.responses, p.ingest.ch, p.responses[p.ingest.ch] + [p.ingest.response]);
    } else if a.Choose? {
      TotalLenUpdate(p.responses, a.c.source, p.responses[a.c.source][1..]);
    }
  }

  lemma MovesKeepJam(p: Pump, a: Action)
    requires Shaped(p) && Enabled(p, a) && Moves(a)
    ensures Jammed(Next(p, a)) <==> Jammed(p)
  {
  }

  lemma SomethingMoves(p: Pump) returns (a: Action)
    requires Shaped(p) && Load(p) > 0 && Open(p) && !MutualWait(p)
    ensures Moves(a) && Enabled(p, a)
  {
    if p.tick.Acking? {
      a := AckReturns;
    } else if p.ingest.Appending? {
      a := AppendReturns(true);
    } else if p.ingest.Responding? {
      a := if IsFull(p, p.ingest.ch) then Choose(Reply(p.ingest.ch)) else Respond;
    } else if p.tick.Sending? {
      a := Handoff;
    } else {
      var i := TotalLenSome(p.responses);
      a := Choose(Reply(i));
    }
  }

  lemma MovingMeansNoWait(p: Pump, a: Action)
    requires Shaped(p) && Enabled(p, a) && Moves(a)
    ensures Load(p) > 0 && !MutualWait(p)
  {
    if a.Choose? {
      TotalLenUpdate(p.responses, a.c.source, []);
    }
  }

  /** Some message under way can be moved on exactly when there is one and the two do not wait for each other. */
  lemma MovesIff(p: Pump)
    requires Shaped(p) && Open(p)
    ensures (exists a :: Moves(a) && Enabled(p, a)) <==> Load(p) > 0 && !MutualWait(p)
  {
    if Load(p) > 0 && !MutualWait(p) {
      var a := SomethingMoves(p);
    }
    if a :| Moves(a) && Enabled(p, a) {
      MovingMeansNoWait(p, a);
    }
  }

  /** Steps of a drain: the loop takes nothing in; receivers may go on sending and looking at their acks. */
  predicate Drains(a: Action) {
    Moves(a) || a.Arrive? || a.AckTaken?
  }

  ghost predicate IsDrain(tr: seq<Pump>, acts: seq<Action>) {
    && Paths.IsPath(Step, tr, acts)
    && (forall a :: a in acts ==> Drains(a))
    && Open(tr[0])
  }

  function Moved(acts: seq<Action>): nat {
    if acts == [] then 0 else One(Moves(acts[0])) + Moved(acts[1..])
  }

  lemma DrainStep(p: Pump, a: Action)
    requires Shaped(p) && Enabled(p, a) && Drains(a) && Open(p)
    ensures Shaped(Next(p, a)) && Open(Next(p, a))
    ensures Work(Next(p, a)) + One(Moves(a)) == Work(p)
    ensures Jammed(Next(p, a)) <==> Jammed(p)
  {
    ShapeKept(p, a);
    if Moves(a) {
      WorkFalls(p, a);
      MovesKeepJam(p, a);
    }
  }

  lemma {:induction false} DrainCounts(tr: seq<Pump>, acts: seq<Action>)
    requires IsDrain(tr, acts) && Shaped(tr[0])
    ensures Shaped(tr[|acts|]) && Open(tr[|acts|])
    ensures Work(tr[|acts|]) + Moved(acts) == Work(tr[0])
    ensures Jammed(tr[|acts|]) <==> Jammed(tr[0])
    decreases |acts|
  {
    if acts != [] {
      Paths.Tail(Step, tr, acts);
      DrainStep(tr[0], acts[0]);
      DrainCounts(tr[1..], acts[1..]);
    }
  }

  lemma NoWorkNoLoad(p: Pump)
    ensures Work(p) == 0 <==> Load(p) == 0
  {
  }

  /** Without intake, exactly the states that are not jammed have all that is under way acked: a drain that can go no
      further has left nothing under way if and only if it did not start from a jam. A drain from any other state goes
      on until then, and takes Work(tr[0]) moves whatever their order; at most 11 under way is no jam. */
  lemma DrainEnds(tr: seq<Pump>, acts: seq<Action>)
    requires IsDrain(tr, acts) && Shaped(tr[0])
    ensures var end := tr[|acts|];
      && Moved(acts) <= Work(tr[0])
      && (Moved(acts) == Work(tr[0]) <==> Load(end) == 0)
      && ((exists a :: Moves(a) && Enabled(end, a)) <==> Load(end) > 0 && !MutualWait(end))
      && ((forall a :: Moves(a) ==> !Enabled(end, a)) ==> (Load(end) == 0 <==> !Jammed(tr[0])))
    ensures Load(tr[0]) <= 11 ==> !Jammed(tr[0])
  {
    DrainCounts(tr, acts);
    NoWorkNoLoad(tr[|acts|]);
    MovesIff(tr[|acts|]);
    if Jammed(tr[0]) {
      ElevenNeverBlock(tr[0]);
      ElevenNeverBlock(tr[|acts|]);
    }
  }

  lemma {:induction false} EmptyChannels(rs: seq<seq<Response>>, i: nat)
    requires TotalLen(rs) == 0 && i < |rs|
    ensures rs[i] == []
  {
    if i > 0 {
      EmptyChannels(rs[1..], i - 1);
    }
  }

  /** Nothing under way means that all that was ever taken has been acked, source by source. */
  lemma NothingUnderWay(p: Pump, i: nat)
    requires Inv(p) && Load(p) == 0 && i < |p.mailboxes|
    ensures Uids(p.taken[i]) == p.answered[i]
  {
    assert Counted(p, i);
    EmptyChannels(p.responses, i);
    assert Held(p, i) == multiset{};
  }

  // ---- Twelve can block

  ghost predicate Reachable(p: Pump) {
    exists tr: seq<Pump>, acts: seq<Action> :: Paths.IsPath(Step, tr, acts) && Init(tr[0]) && tr[|acts|] == p
  }

  lemma ReachNext(p: Pump, a: Action)
    requires Reachable(p) && Shaped(p) && Enabled(p, a)
    ensures Reachable(Next(p, a)) && Shaped(Next(p, a))
  {
    ShapeKept(p, a);
    var tr, acts :| Paths.IsPath(Step, tr, acts) && Init(tr[0]) && tr[|acts|] == p;
    Paths.Snoc(Step, tr, acts, a, Next(p, a));
    assert (tr + [Next(p, a)])[|acts + [a]|] == Next(p, a);
  }

  /** A single-source pump that has appended k messages and acked none, with enough more waiting to jam. */
  ghost predicate Filling(p: Pump, k: nat) {
    && Shaped(p) && Reachable(p) && |p.mailboxes| == 1 && p.tick == Selecting && p.ingest == Waiting && !p.shutdown
    && k <= 10 && |p.responses[0]| == k && |p.incoming[0]| == 12 - k
    && forall m :: m in p.incoming[0] ==> m.uid != 0
  }

  /** One message through to the ingester's answer. */
  lemma OneAnswered(p: Pump, k: nat) returns (q: Pump)
    requires Filling(p, k)
    ensures Shaped(q) && Reachable(q) && q.tick == Selecting && q.ingest.Responding? && q.ingest.ch == 0
    ensures q.responses == p.responses && q.mailboxes == p.mailboxes && !q.shutdown && |q.incoming| == 1
        && q.incoming[0] == p.incoming[0][1..]
  {
    ReachNext(p, Choose(Receive(0)));
    var a := Next(p, Choose(Receive(0)));
    assert p.incoming[0][0] in p.incoming[0];
    ReachNext(a, Handoff);
    ReachNext(Next(a, Handoff), AppendReturns(true));
    q := Next(Next(a, Handoff), AppendReturns(true));
  }

  lemma {:induction false} Fill(p: Pump, k: nat) returns (q: Pump)
    requires Filling(p, k)
    ensures Shaped(q) && Reachable(q) && MutualWait(q) && Load(q) == 12
    decreases 10 - k
  {
    var a := OneAnswered(p, k);
    if k < 10 {
      ReachNext(a, Respond);
      q := Fill(Next(a, Respond), k + 1);
    } else {
      ReachNext(a, Choose(Receive(0)));
      q := Next(a, Choose(Receive(0)));
      assert a.incoming[0][0] in p.incoming[0];
      assert |q.responses| == 1 && q.responses[1..] == [] && TotalLen(q.responses) == |q.responses[0]|;
    }
  }

  /** The bound is tight: with twelve under way a run can reach a state where each waits for the other, and from
      there no run acks or appends anything again. */
  lemma TwelveCanBlock() returns (q: Pump)
    ensures Reachable(q) && MutualWait(q) && Load(q) == 12
    ensures forall tr: seq<Pump>, acts: seq<Action> {:trigger Paths.IsPath(Step, tr, acts)} ::
      Paths.IsPath(Step, tr, acts) && tr[0] == q ==>
        var end := tr[|acts|]; MutualWait(end) && end.answered == q.answered && end.appended == q.appended
  {
    var start := FreshPump(["INBOX"]);
    assert Init(start);
    var none: seq<Action> := [];
    assert Paths.IsPath(Step, [start], none) && [start][|none|] == start;
    var messages := seq(12, i requires 0 <= i < 12 => Message(i + 1, i + 1, ""));
    ReachNext(start, Arrive(0, messages));
    var p := Next(start, Arrive(0, messages));
    assert p.incoming[0] == messages;
    q := Fill(p, 0);
    forall tr: seq<Pump>, acts: seq<Action> | Paths.IsPath(Step, tr, acts) && tr[0] == q
      ensures var end := tr[|acts|]; MutualWait(end) && end.answered == q.answered && end.appended == q.appended
    {
      JammedForGood(tr, acts, |acts|);
    }
  }
}
