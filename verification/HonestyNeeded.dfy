/** Without honest servers there is loss: a run, honest but for a single answer, that deletes a message nobody ever
    appended. */
module HonestyNeeded {
  import opened Imap
  import opened EndToEnd
  import H = ReceiverHonesty
  import P = PumpSpec
  import R = ReceiverSystem
  import S = ReceiverSpec
  import Paths

  /** No message of source i with UID u has ever been appended. */
  ghost predicate NeverAppended(w: World, i: nat, u: nat) {
    forall q :: q in w.pump.appended ==> !(q.ch == i && q.uid == u)
  }

  /** Source i is waiting for the answers to a store and knows UID u, which is not acked, and was never appended. */
  ghost predicate Exposed(w: World, i: nat, u: nat) {
    && Inv(w) && i < |w.receivers| && NeverAppended(w, i, u)
    && H.StoreOutWithout(u)(w.receivers[i])
  }

  lemma ReceiverAlone(w: World, i: nat, a: R.Action, t: R.Sys) returns (v: World)
    requires Joined(w) && i < |w.receivers| && R.Step(w.receivers[i], a, t) && !a.AckIn?
    ensures Step(w, Receiver(i, a), v) && Joined(v)
    ensures R.Honest(w.receivers[i], a) ==> Honest(w, Receiver(i, a))
    ensures v.receivers == w.receivers[i := t] && v.pump.appended == w.pump.appended
    ensures v.pump == P.Next(w.pump, P.Arrive(i, Sent(w.receivers[i], t)))
  {
    v := Next(w, Receiver(i, a));
    P.ShapeKept(w.pump, P.Arrive(i, Sent(w.receivers[i], t)));
  }

  /** What a receiver can do by itself it can do as part of the whole. */
  lemma {:induction false} Lift(w: World, i: nat, tr: seq<R.Sys>, acts: seq<R.Action>)
      returns (wtr: seq<World>, wacts: seq<Act>)
    requires Joined(w) && i < |w.receivers|
    requires Paths.IsPath(R.HonestStep, tr, acts) && tr[0] == w.receivers[i]
        && (forall k :: 0 <= k < |acts| ==> H.NotAnAck(acts[k]))
    ensures Paths.IsPath(HonestStep, wtr, wacts) && wtr[0] == w
    ensures var v := wtr[|wacts|];
      i < |v.receivers| && v.receivers[i] == tr[|acts|] && v.pump.appended == w.pump.appended
    decreases |acts|
  {
    if acts == [] {
      wtr, wacts := [w], [];
    } else {
      Paths.Tail(R.HonestStep, tr, acts);
      var v := ReceiverAlone(w, i, acts[0], tr[1]);
      var vtr, vacts := Lift(v, i, tr[1..], acts[1..]);
      Paths.Cons(HonestStep, w, Receiver(i, acts[0]), vtr, vacts);
      wtr, wacts := [w] + vtr, [Receiver(i, acts[0])] + vacts;
    }
  }

  /** Wherever a source is so exposed, one dishonest answer is enough for it to delete the message. */
  lemma DishonestAnswerDeletes(w: World, i: nat, u: nat) returns (v: World, tr: seq<World>, acts: seq<Act>)
    requires Exposed(w, i, u)
    ensures Step(w, Receiver(i, R.DeliverAnswer(0, u, false)), v)
    ensures Paths.IsPath(HonestStep, tr, acts) && tr[0] == v
    ensures Stores(tr[|acts|], Receiver(i, R.IssueStore(0)), i, u) && NeverAppended(tr[|acts|], i, u)
  {
    var t := H.DishonestAnswerStores(w.receivers[i], u);
    v := ReceiverAlone(w, i, R.DeliverAnswer(0, u, false), t);
    var rtr, racts :| Paths.IsWay(R.HonestStep, H.NotAnAck, t, H.StoreOf(u), rtr, racts);
    tr, acts := Lift(v, i, rtr, racts);
  }

  // ---- Exposed states are reached

  ghost predicate Reached(w: World) {
    exists tr: seq<World>, acts: seq<Act> :: IsHonestRun(tr, acts) && tr[|acts|] == w
  }

  lemma ReachedInv(w: World)
    requires Reached(w)
    ensures Inv(w)
  {
    var tr, acts :| IsHonestRun(tr, acts) && tr[|acts|] == w;
    RunInv(tr, acts, |acts|);
  }

  lemma ReachNext(w: World, act: Act, v: World)
    requires Reached(w) && HonestStep(w, act, v)
    ensures Reached(v)
  {
    var tr, acts :| IsHonestRun(tr, acts) && tr[|acts|] == w;
    Paths.Snoc(HonestStep, tr, acts, act, v);
    assert IsHonestRun(tr + [v], acts + [act]) && (tr + [v])[|acts + [act]|] == v;
  }

  lemma {:induction false} ReachAlone(w: World, i: nat, tr: seq<R.Sys>, acts: seq<R.Action>) returns (v: World)
    requires Reached(w) && Joined(w) && i < |w.receivers|
    requires Paths.IsPath(R.HonestStep, tr, acts) && tr[0] == w.receivers[i]
        && (forall k :: 0 <= k < |acts| ==> H.NotAnAck(acts[k]))
    ensures Reached(v) && i < |v.receivers| && v.receivers[i] == tr[|acts|] && v.pump.appended == w.pump.appended
    decreases |acts|
  {
    if acts == [] {
      v := w;
    } else {
      Paths.Tail(R.HonestStep, tr, acts);
      var x := ReceiverAlone(w, i, acts[0], tr[1]);
      ReachNext(w, Receiver(i, acts[0]), x);
      v := ReachAlone(x, i, tr[1..], acts[1..]);
    }
  }

  ghost function FreshSys(): R.Sys {
    R.Sys(S.FreshLoop(S.Config(15, false)), [], [], R.Running, [], multiset{}, {})
  }

  ghost predicate Fetching(s: R.Sys) {
    && R.Steady(s) && s.status == R.Running && s.loop.state == S.InFetch && !s.loop.cfg.disableDeletions
    && s.loop.quit == 0 && s.loop.messages == map[] && s.dispatched == [] && s.opChan == []
    && |s.workers| == 1 && s.workers[0].Fetching?
  }

  lemma FetchBegins(s: R.Sys) returns (t: R.Sys)
    requires s == FreshSys()
    ensures R.HonestStep(s, R.Update(true), t) && Fetching(t)
  {
    R.ControlInit(s);
    R.SteadyKept(s, R.Update(true));
    t := R.Next(s, R.Update(true));
    R.RestCases(s.loop.(fetch := 1));
  }

  ghost predicate Fetched(s: R.Sys) {
    && R.Steady(s) && s.status == R.Running && s.loop.state == S.InFetch && !s.loop.cfg.disableDeletions
    && H.HoldsUnackedIn(s.loop, 1) && H.HoldsUnackedIn(s.loop, 2)
    && s.workers == [R.Finishing(S.FetchFinish)] && s.opChan == []
  }

  /** A fetch result of two messages. */
  predicate IsPair(f: map<nat, Message>) {
    f.Keys == {1, 2} && f[1].uid == 1 && f[2].uid == 2
  }

  lemma PairSelected(l: S.Loop, f: map<nat, Message>)
    requires l.state == S.InFetch && l.quit == 0 && l.messages == map[] && IsPair(f)
    ensures S.IsOrder([1, 2], f.Keys)
    ensures S.Select(l, S.GotFetch(f, [1, 2])) == S.Selected(l.(messages := S.Admit(map[], f)), S.OpNone, [f[1], f[2]])
  {
    assert [1, 2][1..] == [2] && [2][1..] == [];
    var known: map<nat, S.Entry> := map[];
    assert S.NewMessages(known, f, []) == [];
    assert S.NewMessages(known, f, [2]) == [f[2]];
    assert S.NewMessages(known, f, [1, 2]) == [f[1]] + [f[2]];
  }

  lemma TwoArrive(s: R.Sys, f: map<nat, Message>) returns (t: R.Sys)
    requires Fetching(s) && IsPair(f)
    ensures R.HonestStep(s, R.DeliverFetch(0, f, [1, 2]), t) && Fetched(t)
    ensures t.dispatched == [f[1], f[2]]
  {
    var a := R.DeliverFetch(0, f, [1, 2]);
    PairSelected(s.loop, f);
    R.JustReceives(s, a);
    t := R.Next(s, a);
  }

  lemma AckSelected(l: S.Loop)
    requires H.HoldsUnackedIn(l, 1) && H.HoldsUnackedIn(l, 2)
    ensures var l' := S.HandleAck(l, 1, true);
      l'.pending != map[] && H.HoldsUnackedIn(l', 2) && l'.state == l.state && l'.cfg == l.cfg
  {
    assert 1 in S.HandleAck(l, 1, true).pending;
  }

  lemma FirstIsAcked(s: R.Sys) returns (t: R.Sys)
    requires Fetched(s)
    ensures R.Enabled(s, R.AckIn(1, true)) && t == R.Next(s, R.AckIn(1, true)) && H.FetchEnding(t, 2)
  {
    AckSelected(s.loop);
    R.JustReceives(s, R.AckIn(1, true));
    t := R.Next(s, R.AckIn(1, true));
  }

  lemma PumpMoves(w: World, a: P.Action) returns (v: World)
    requires Reached(w) && Joined(w) && P.Enabled(w.pump, a) && !a.Arrive? && !a.AckTaken?
    ensures Reached(v) && Joined(v) && v.receivers == w.receivers && v.pump == P.Next(w.pump, a)
  {
    P.ShapeKept(w.pump, a);
    v := Next(w, Pump(a));
    ReachNext(w, Pump(a), v);
  }

  /** The loops at rest, one message on its way in, and nothing else under way. */
  predicate Quiet(p: P.Pump) {
    && P.Shaped(p) && |p.mailboxes| == 1 && !p.shutdown && p.tick.Selecting? && p.ingest.Waiting?
    && p.responses[0] == [] && p.acks[0] == [] && p.appended == {}
  }

  lemma FirstIsAppended(w: World) returns (v: World)
    requires Reached(w) && Joined(w) && Quiet(w.pump) && w.pump.incoming[0] != [] && w.pump.incoming[0][0].uid == 1
    ensures Reached(v) && Joined(v) && v.receivers == w.receivers && |v.pump.mailboxes| == 1
    ensures v.pump.tick.Selecting? && v.pump.ingest == P.Responding(0, P.Response(1, true))
    ensures v.pump.responses[0] == [] && v.pump.acks[0] == [] && NeverAppended(v, 0, 2)
  {
    var a := PumpMoves(w, P.Choose(P.Receive(0)));
    var b := PumpMoves(a, P.Handoff);
    v := PumpMoves(b, P.AppendReturns(true));
  }

  lemma FirstIsAnswered(w: World) returns (v: World)
    requires Reached(w) && Joined(w) && |w.pump.mailboxes| == 1
    requires w.pump.tick.Selecting? && w.pump.ingest == P.Responding(0, P.Response(1, true))
    requires w.pump.responses[0] == [] && w.pump.acks[0] == []
    ensures Reached(v) && Joined(v) && v.receivers == w.receivers && v.pump.appended == w.pump.appended
    ensures |v.pump.acks| == 1 && v.pump.acks[0] == [P.Response(1, true)]
  {
    var a := PumpMoves(w, P.Respond);
    assert a.pump.responses[0] == [P.Response(1, true)];
    var b := PumpMoves(a, P.Choose(P.Reply(0)));
    v := PumpMoves(b, P.AckReturns);
  }

  lemma AckIsRead(w: World) returns (v: World)
    requires Reached(w) && Joined(w) && |w.receivers| == 1 && Fetched(w.receivers[0])
    requires |w.pump.acks| == 1 && w.pump.acks[0] == [P.Response(1, true)]
    ensures Reached(v) && Joined(v) && |v.receivers| == 1 && H.FetchEnding(v.receivers[0], 2)
    ensures v.pump.appended == w.pump.appended
  {
    var t := FirstIsAcked(w.receivers[0]);
    P.ShapeKept(w.pump, P.AckTaken(0));
    v := Next(w, ReadAck(0));
    ReachNext(w, ReadAck(0), v);
  }

  ghost function FreshWorld(): World {
    World(P.FreshPump(["INBOX"]), [FreshSys()])
  }

  lemma StartIsReached()
    ensures Reached(FreshWorld()) && Joined(FreshWorld()) && Quiet(FreshWorld().pump)
  {
    var none: seq<Act> := [];
    assert IsHonestRun([FreshWorld()], none) && [FreshWorld()][|none|] == FreshWorld();
  }

  /** One source, with a fetch under way. */
  lemma FetchIsReached() returns (w: World)
    ensures Reached(w) && Joined(w) && Quiet(w.pump) && w.pump.incoming[0] == []
    ensures |w.receivers| == 1 && Fetching(w.receivers[0])
  {
    StartIsReached();
    var t := FetchBegins(FreshSys());
    w := ReceiverAlone(FreshWorld(), 0, R.Update(true), t);
    ReachNext(FreshWorld(), Receiver(0, R.Update(true)), w);
  }

  lemma ResultIsReached() returns (w: World)
    ensures Reached(w) && Joined(w) && Quiet(w.pump) && w.pump.incoming[0] != [] && w.pump.incoming[0][0].uid == 1
    ensures |w.receivers| == 1 && Fetched(w.receivers[0])
  {
    var u := FetchIsReached();
    var f := map[1 := Message(1, 1, ""), 2 := Message(2, 2, "")];
    var t := TwoArrive(u.receivers[0], f);
    w := ReceiverAlone(u, 0, R.DeliverFetch(0, f, [1, 2]), t);
    ReachNext(u, Receiver(0, R.DeliverFetch(0, f, [1, 2])), w);
  }

  lemma ExposedIsReached() returns (w: World)
    ensures Reached(w) && Exposed(w, 0, 2)
  {
    var a := ResultIsReached();
    var b := FirstIsAppended(a);
    var c := FirstIsAnswered(b);
    var d := AckIsRead(c);
    H.DeleteGetsUnderWay(d.receivers[0], 2);
    var tr, acts :| Paths.IsWay(R.HonestStep, H.NotAnAck, d.receivers[0], H.StoreOutWithout(2), tr, acts);
    w := ReachAlone(d, 0, tr, acts);
    ReachedInv(w);
  }

  /** The assumption is needed: an honest run, one dishonest answer, and an honest run from there, and source 0 marks
      as deleted a UID of which nothing was ever appended. */
  lemma OneLieLosesAMessage() returns (w: World, v: World, tr: seq<World>, acts: seq<Act>)
    ensures Reached(w) && Step(w, Receiver(0, R.DeliverAnswer(0, 2, false)), v)
    ensures Paths.IsPath(HonestStep, tr, acts) && tr[0] == v
    ensures Stores(tr[|acts|], Receiver(0, R.IssueStore(0)), 0, 2) && NeverAppended(tr[|acts|], 0, 2)
  {
    w := ExposedIsReached();
    v, tr, acts := DishonestAnswerDeletes(w, 0, 2);
  }
}
