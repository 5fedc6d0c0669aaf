/** The single pump while the receiver's loop is sending out a fetch result. Until it has sent all of it the loop takes
    no acks, so the pump can end up waiting for the loop and the loop for the pump. Exactly when is a matter of how
    many messages are where. */
module Backpressure {
  import opened Imap
  import opened Numbers
  import P = PumpSpec
  import Paths

  const OUT_CAPACITY: nat := 20

  datatype Tick = Selecting | Sending | Acking

  datatype Ingest = Waiting | Appending | Responding

  /** Messages of the fetch result the loop has not sent yet, messages on the out channel, what select loop and
      ingester are at, answers on the response channel, and acks on the ack channel. */
  datatype Flow = Flow(unsent: nat, out: nat, tick: Tick, ingest: Ingest, responses: nat, acks: nat, ackCapacity: nat)

  datatype Move = Push | Receive | Handoff | AppendReturns | Respond | Reply | AckReturns

  predicate Enabled(f: Flow, m: Move) {
    f.unsent > 0 &&
    match m
    case Push => f.out < OUT_CAPACITY
    case Receive => f.tick.Selecting? && f.out > 0
    case Handoff => f.tick.Sending? && f.ingest.Waiting?
    case AppendReturns => f.ingest.Appending?
    case Respond => f.ingest.Responding? && f.responses < P.RESPONSE_CAPACITY
    case Reply => f.tick.Selecting? && f.responses > 0
    case AckReturns => f.tick.Acking? && f.acks < f.ackCapacity
  }

  function Next(f: Flow, m: Move): Flow
    requires Enabled(f, m)
  {
    match m
    case Push => f.(unsent := f.unsent - 1, out := f.out + 1)
    case Receive => f.(out := f.out - 1, tick := Sending)
    case Handoff => f.(tick := Selecting, ingest := Appending)
    case AppendReturns => f.(ingest := Responding)
    case Respond => f.(ingest := Waiting, responses := f.responses + 1)
    case Reply => f.(tick := Acking, responses := f.responses - 1)
    case AckReturns => f.(tick := Selecting, acks := f.acks + 1)
  }

  ghost predicate Step(f: Flow, m: Move, g: Flow) {
    Enabled(f, m) && g == Next(f, m)
  }

  predicate Fits(f: Flow) {
    f.out <= OUT_CAPACITY && f.responses <= P.RESPONSE_CAPACITY && f.acks <= f.ackCapacity
  }

  // ---- The counts are those of the pump

  function FlowOf(unsent: seq<Message>, p: P.Pump, ackCapacity: nat): Flow
    requires Single(p)
  {
    Flow(|unsent|, |p.incoming[0]|,
         match p.tick case Sending(_, _) => Sending case Acking(_, _, _) => Acking case _ => Selecting,
         match p.ingest case Appending(_) => Appending case Responding(_, _) => Responding case _ => Waiting,
         |p.responses[0]|, |p.acks[0]|, ackCapacity)
  }

  /** A single pump in operation. */
  predicate Single(p: P.Pump) {
    P.Shaped(p) && |p.mailboxes| == 1 && !p.shutdown && !p.tick.TickDone? && !p.ingest.IngestDone?
  }

  /** No message under way lacks a UID. */
  predicate Named(p: P.Pump)
    requires Single(p)
  {
    && (forall k :: 0 <= k < |p.incoming[0]| ==> p.incoming[0][k].uid != 0)
    && (forall k :: 0 <= k < |p.responses[0]| ==> p.responses[0][k].uid != 0)
    && (p.tick.Sending? ==> p.tick.message.uid != 0)
    && (p.tick.Acking? ==> p.tick.uid != 0)
    && (p.ingest.Appending? ==> p.ingest.req.uid != 0)
    && (p.ingest.Responding? ==> p.ingest.response.uid != 0)
  }

  function PumpAction(m: Move, unsent: seq<Message>, ok: bool): P.Action
    requires m == Push ==> unsent != []
  {
    match m
    case Push => P.Arrive(0, [unsent[0]])
    case Receive => P.Choose(P.Receive(0))
    case Handoff => P.Handoff
    case AppendReturns => P.AppendReturns(ok)
    case Respond => P.Respond
    case Reply => P.Choose(P.Reply(0))
    case AckReturns => P.AckReturns
  }

  /** The moves are the pump's steps, with a message arriving only while there is room for it and an Ack returning
      only while there is room for that. */
  lemma FlowIsThePump(unsent: seq<Message>, p: P.Pump, ackCapacity: nat, m: Move, ok: bool)
    requires Single(p) && Named(p) && unsent != [] && unsent[0].uid != 0
    ensures var a := PumpAction(m, unsent, ok);
      var f := FlowOf(unsent, p, ackCapacity);
      && (Enabled(f, m) <==>
            && P.Enabled(p, a)
            && (m == Push ==> |p.incoming[0]| < OUT_CAPACITY)
            && (m == AckReturns ==> |p.acks[0]| < ackCapacity))
      && (Enabled(f, m) ==>
            && Single(P.Next(p, a)) && Named(P.Next(p, a))
            && FlowOf(if m == Push then unsent[1..] else unsent, P.Next(p, a), ackCapacity) == Next(f, m))
  {
    if m == Push {
      MatchesArrival(unsent, p, ackCapacity);
    } else {
      var a := PumpAction(m, unsent, ok);
      if P.Enabled(p, a) {
        P.ShapeKept(p, a);
      }
    }
  }

  lemma MatchesArrival(unsent: seq<Message>, p: P.Pump, ackCapacity: nat)
    requires Single(p) && Named(p) && unsent != [] && unsent[0].uid != 0
    ensures var q := P.Next(p, P.Arrive(0, [unsent[0]]));
      && Single(q) && Named(q)
      && FlowOf(unsent[1..], q, ackCapacity) ==
         FlowOf(unsent, p, ackCapacity).(unsent := |unsent| - 1, out := |p.incoming[0]| + 1)
  {
    P.ShapeKept(p, P.Arrive(0, [unsent[0]]));
  }

  // ---- Exactly when the fetch result may not all be sent

  /** The loop waits for room on the out channel, and nothing can make any. */
  predicate Starved(f: Flow) {
    f.unsent > 0 && forall m :: !Enabled(f, m)
  }

  /** Messages the pump must still take before the loop has sent all of its own. */
  function Excess(f: Flow): nat {
    if f.unsent + f.out > OUT_CAPACITY then f.unsent + f.out - OUT_CAPACITY else 0
  }

  /** Messages between the pump's receive and the return of their Ack. */
  function Held(f: Flow): nat {
    f.responses + One(!f.tick.Selecting?) + One(!f.ingest.Waiting?)
  }

  /** What can be told beforehand. Either the messages held and still to be taken are more than there is room for acks,
      with one to spare, or those of them that are not being acked already come to 13. */
  predicate MayStarve(f: Flow)
    requires Fits(f)
  {
    Excess(f) > 0 && (|| Held(f) + Excess(f) >= f.ackCapacity - f.acks + 2
                      || Held(f) - One(f.tick.Acking?) + Excess(f) >= 13)
  }

  function Size(f: Flow): nat {
    20 * f.unsent + 10 * f.out + 2 * f.responses
    + (match f.tick case Sending => 7 case Acking => 1 case Selecting => 0)
    + (match f.ingest case Appending => 5 case Responding => 4 case Waiting => 0)
  }

  lemma SizeFalls(f: Flow, m: Move)
    requires Enabled(f, m)
    ensures Size(Next(f, m)) < Size(f)
  {
  }

  /** What is safe stays safe, and is not starved. */
  lemma SafeStep(f: Flow, m: Move)
    requires Fits(f) && !MayStarve(f) && Enabled(f, m)
    ensures Fits(Next(f, m)) && !MayStarve(Next(f, m))
  {
  }

  lemma SafeIsNotStarved(f: Flow)
    requires Fits(f) && Starved(f)
    ensures MayStarve(f)
  {
    assert !Enabled(f, Push) && !Enabled(f, Receive) && !Enabled(f, Handoff) && !Enabled(f, AppendReturns);
    assert !Enabled(f, Respond) && !Enabled(f, AckReturns);
  }

  /** What is not safe is starved, or can be kept unsafe by some move. */
  lemma UnsafeStep(f: Flow) returns (m: Move)
    requires Fits(f) && MayStarve(f) && !Starved(f)
    ensures Enabled(f, m) && Fits(Next(f, m)) && MayStarve(Next(f, m))
  {
    if Enabled(f, Push) {
      m := Push;
    } else if Enabled(f, AppendReturns) {
      m := AppendReturns;
    } else if Enabled(f, Respond) {
      m := Respond;
    } else if Enabled(f, Handoff) {
      m := Handoff;
    } else if Enabled(f, AckReturns) {
      m := AckReturns;
    } else {
      m := if Excess(f) > 1 then Receive else Reply;
    }
  }

  predicate AnyMove(m: Move) {
    true
  }

  ghost predicate StarvesFrom(f: Flow) {
    Paths.Leads(Step, AnyMove, f, Starved)
  }

  lemma {:induction false} UnsafeStarves(f: Flow)
    requires Fits(f) && MayStarve(f)
    ensures StarvesFrom(f)
    decreases Size(f)
  {
    if Starved(f) {
      Paths.IsThere(Step, AnyMove, f, Starved);
    } else {
      var m := UnsafeStep(f);
      SizeFalls(f, m);
      UnsafeStarves(Next(f, m));
      Paths.OneStepEarlier(Step, AnyMove, f, m, Next(f, m), Starved);
    }
  }

  lemma {:induction false} SafeAlong(tr: seq<Flow>, moves: seq<Move>)
    requires Paths.IsPath(Step, tr, moves) && Fits(tr[0]) && !MayStarve(tr[0])
    ensures Fits(tr[|moves|]) && !MayStarve(tr[|moves|])
    decreases |moves|
  {
    if moves != [] {
      Paths.Tail(Step, tr, moves);
      SafeStep(tr[0], moves[0]);
      SafeAlong(tr[1..], moves[1..]);
    }
  }

  /** From any state, loop and pump can come to wait for each other before the fetch result is sent if and only if the
      counts say so. */
  lemma StarvesIff(f: Flow)
    requires Fits(f)
    ensures StarvesFrom(f) <==> MayStarve(f)
  {
    if MayStarve(f) {
      UnsafeStarves(f);
    }
    if StarvesFrom(f) && !MayStarve(f) {
      var tr, moves :| Paths.IsWay(Step, AnyMove, f, Starved, tr, moves);
      SafeAlong(tr, moves);
      SafeIsNotStarved(tr[|moves|]);
    }
  }

  lemma {:induction false} SizeBounds(tr: seq<Flow>, moves: seq<Move>)
    requires Paths.IsPath(Step, tr, moves)
    ensures |moves| + Size(tr[|moves|]) <= Size(tr[0])
    decreases |moves|
  {
    if moves != [] {
      Paths.Tail(Step, tr, moves);
      SizeFalls(tr[0], moves[0]);
      SizeBounds(tr[1..], moves[1..]);
    }
  }

  /** When they do not, every way of going on ends, in boundedly many moves, with all of it sent. */
  lemma SafeSendsAll(tr: seq<Flow>, moves: seq<Move>)
    requires Paths.IsPath(Step, tr, moves) && Fits(tr[0]) && !MayStarve(tr[0])
    ensures |moves| <= Size(tr[0])
    ensures (forall m :: !Enabled(tr[|moves|], m)) ==> tr[|moves|].unsent == 0
  {
    SizeBounds(tr, moves);
    SafeAlong(tr, moves);
    if Starved(tr[|moves|]) {
      SafeIsNotStarved(tr[|moves|]);
    }
  }

  /** A fetch no larger than the out channel, sent to a pump with that channel empty, is always sent. Twenty queued,
      eleven held and twenty to send, with room for twenty acks, may starve. */
  lemma SmallFetchIsSafe(f: Flow)
    requires Fits(f) && f.unsent <= OUT_CAPACITY && f.out == 0
    ensures !StarvesFrom(f)
    ensures StarvesFrom(Flow(20, 20, Selecting, Appending, 10, 0, 20))
  {
    StarvesIff(f);
    StarvesIff(Flow(20, 20, Selecting, Appending, 10, 0, 20));
  }
}
