/** The pumps as the program has them: channels, the select cases built from them, and one iteration of the loop.
    Each iteration is proved to be the step (or the two steps) of `PumpSpec` for the case it was given. */
module Pumps {
  import opened Imap
  import opened PumpSpec

  /** A buffered Go channel. */
  class Queue<T> {
    var items: seq<T>

    constructor ()
      ensures items == []
    {
      items := [];
    }

    method Send(x: T)
      modifies this
      ensures items == old(items) + [x]
    {
      items := items + [x];
    }

    method Receive() returns (x: T)
      requires items != []
      modifies this
      ensures x == old(items)[0] && items == old(items)[1..]
    {
      x := items[0];
      items := items[1..];
    }
  }

  /** One channel per source, all different. */
  method MakeQueues<T>(n: nat) returns (queues: seq<Queue<T>>)
    ensures |queues| == n
    ensures forall i :: 0 <= i < n ==> fresh(queues[i]) && queues[i].items == []
    ensures forall i, j :: 0 <= i < j < n ==> queues[i] != queues[j]
  {
    queues := [];
    for i := 0 to n
      invariant |queues| == i
      invariant forall k :: 0 <= k < i ==> fresh(queues[k]) && queues[k].items == []
      invariant forall j, k :: 0 <= j < k < i ==> queues[j] != queues[k]
    {
      var q := new Queue<T>();
      queues := queues + [q];
    }
  }

  /** The pump's handle on a receiver. */
  class ReceiverClient {
    var acks: seq<Response>

    constructor ()
      ensures acks == []
    {
      acks := [];
    }

    /** A message without a UID cannot be acked. */
    method Ack(uid: nat, ok: bool)
      modifies this
      ensures acks == if uid == 0 then old(acks) else old(acks) + [Response(uid, ok)]
    {
      if uid == 0 {
        return;
      }
      acks := acks + [Response(uid, ok)];
    }
  }

  method MakeReceivers(n: nat) returns (receivers: seq<ReceiverClient>)
    ensures |receivers| == n
    ensures forall i :: 0 <= i < n ==> fresh(receivers[i]) && receivers[i].acks == []
    ensures forall i, j :: 0 <= i < j < n ==> receivers[i] != receivers[j]
  {
    receivers := [];
    for i := 0 to n
      invariant |receivers| == i
      invariant forall k :: 0 <= k < i ==> fresh(receivers[k]) && receivers[k].acks == []
      invariant forall j, k :: 0 <= j < k < i ==> receivers[j] != receivers[k]
    {
      var r := new ReceiverClient();
      receivers := receivers + [r];
    }
  }

  /** What a sender blocked on the ingester's unbuffered channel is offering. */
  datatype Offer = Offer(mailbox: string, message: Message, ch: Queue<Response>)

  class IngestClient {
    var shutdown: bool
    var incoming: Option<Offer>

    constructor ()
      ensures !shutdown && incoming == None
    {
      shutdown, incoming := false, None;
    }

    method IngestMessage(mailbox: string, msg: Message, ch: Queue<Response>) returns (accepted: bool)
      requires incoming == None
      modifies this`incoming
      ensures accepted <==> msg.uid != 0 && !shutdown
      ensures incoming == if accepted then Some(Offer(mailbox, msg, ch)) else None
    {
      if msg.uid == 0 {
        return false;
      }
      if shutdown {
        return false;
      }
      incoming := Some(Offer(mailbox, msg, ch));
      accepted := true;
    }

    /** One request of the ingester's loop: take what is offered, append it, and answer on the channel it came with. */
    method Serve(appendOk: bool) returns (served: Offer)
      requires incoming.Some? && |incoming.value.ch.items| < RESPONSE_CAPACITY
      modifies this`incoming, incoming.value.ch
      ensures incoming == None && served == old(incoming.value)
      ensures served.ch.items == old(incoming.value.ch.items) + [Response(served.message.uid, appendOk)]
    {
      served := incoming.value;
      incoming := None;
      served.ch.Send(Response(served.message.uid, appendOk));
    }
  }

  /** The loop's state once it has dealt with a case: back in the select, or still handing over a message. */
  ghost function AfterTick(p: Pump, c: Case): Pump
    requires Shaped(p) && Enabled(p, Choose(c))
  {
    var q := Next(p, Choose(c));
    if q.tick.Acking? then Next(q, AckReturns) else q
  }

  /** A request through the ingester: handed over, appended, and answered, there being room for the answer. */
  ghost function AfterServe(p: Pump, ok: bool): Pump
    requires Shaped(p) && Enabled(p, Handoff) && |p.responses[p.tick.source]| < RESPONSE_CAPACITY
  {
    Next(Next(Next(p, Handoff), AppendReturns(ok)), Respond)
  }

  datatype SelectCase = OnStop | OnMessage(messages: Queue<Message>) | OnResponse(responses: Queue<Response>)

  datatype PumpError = NoSources | Mismatch

  class MultiPump {
    const targetMailboxes: seq<string>
    const ingestClient: IngestClient
    var receivers: seq<ReceiverClient>
    var recvChannels: seq<Queue<Message>>
    var ingestChannels: seq<Queue<Response>>
    const cases: array<SelectCase>
    const recvBaseOffset: nat
    const ingestBaseOffset: nat
    const exitOffset: nat
    var stopped: bool
    /** The source of the message being handed to the ingester. */
    ghost var source: nat

    ghost predicate Valid()
      reads this, cases
    {
      var n := |targetMailboxes|;
      && 0 < n == |receivers| == |recvChannels| == |ingestChannels|
      && cases.Length == 2 * n + 1
      && recvBaseOffset == 0 && ingestBaseOffset == n && exitOffset == 2 * n
      && (forall i :: 0 <= i < n ==> cases[i] == OnMessage(recvChannels[i]))
      && (forall i :: 0 <= i < n ==> cases[n + i] == OnResponse(ingestChannels[i]))
      && cases[2 * n] == OnStop
      && (forall i, j :: 0 <= i < j < n ==> recvChannels[i] != recvChannels[j])
      && (forall i, j :: 0 <= i < j < n ==> ingestChannels[i] != ingestChannels[j])
      && (forall i, j :: 0 <= i < j < n ==> receivers[i] != receivers[j])
    }

    /** The pump is in the state `p` says, as far as the select loop can see. */
    ghost predicate Shows(p: Pump)
      reads this, ingestClient
      reads set q | q in recvChannels, set q | q in ingestChannels, set r | r in receivers
      requires |receivers| == |recvChannels| == |ingestChannels| == |targetMailboxes|
    {
      && Shaped(p) && p.mailboxes == targetMailboxes && p.shutdown == ingestClient.shutdown
      && (forall i :: 0 <= i < |p.mailboxes| ==> p.incoming[i] == recvChannels[i].items)
      && (forall i :: 0 <= i < |p.mailboxes| ==> p.responses[i] == ingestChannels[i].items)
      && (forall i :: 0 <= i < |p.mailboxes| ==> p.acks[i] == receivers[i].acks)
      && p.tick == (match ingestClient.incoming
                    case Some(offer) => Sending(source, offer.message)
                    case None => if stopped then TickDone else Selecting)
      && (ingestClient.incoming.Some? ==>
            !stopped && source < |p.mailboxes|
            && ingestClient.incoming ==
              Some(Offer(targetMailboxes[source], ingestClient.incoming.value.message, ingestChannels[source])))
    }

    constructor (mailboxes: seq<string>)
      requires mailboxes != []
      ensures Valid() && targetMailboxes == mailboxes
      ensures Shows(FreshPump(mailboxes))
    {
      var n := |mailboxes|;
      targetMailboxes := mailboxes;
      ingestClient := new IngestClient();
      recvBaseOffset, ingestBaseOffset, exitOffset := 0, n, 2 * n;
      cases := new SelectCase[2 * n + 1](_ => OnStop);
      receivers, recvChannels, ingestChannels := [], [], [];
      stopped, source := false, 0;
      new;
      recvChannels := MakeQueues(n);
      ingestChannels := MakeQueues(n);
      ConnectCases();
      receivers := MakeReceivers(n);
    }

    /** Lay out the select cases: one receive per source, one response per source, and the stop channel. */
    method ConnectCases()
      requires var n := |targetMailboxes|;
        && |recvChannels| == |ingestChannels| == n && cases.Length == 2 * n + 1
        && recvBaseOffset == 0 && ingestBaseOffset == n && exitOffset == 2 * n
      modifies cases
      ensures var n := |targetMailboxes|;
        && (forall i :: 0 <= i < n ==> cases[i] == OnMessage(recvChannels[i]))
        && (forall i :: 0 <= i < n ==> cases[n + i] == OnResponse(ingestChannels[i]))
        && cases[2 * n] == OnStop
    {
      var n := |targetMailboxes|;
      for i := 0 to n
        invariant forall k :: 0 <= k < i ==> cases[k] == OnMessage(recvChannels[k])
      {
        cases[recvBaseOffset + i] := OnMessage(recvChannels[i]);
      }
      for i := 0 to n
        invariant forall k :: 0 <= k < n ==> cases[k] == OnMessage(recvChannels[k])
        invariant forall k :: 0 <= k < i ==> cases[n + k] == OnResponse(ingestChannels[k])
      {
        cases[ingestBaseOffset + i] := OnResponse(ingestChannels[i]);
      }
      cases[exitOffset] := OnStop;
    }

    /** A message from a source: hand it to the ingester, to go to that source's mailbox and be answered on its
        channel. */
    method HandleIncoming(chosen: nat, ghost p: Pump)
      requires Valid() && Shows(p) && chosen < |targetMailboxes| && Enabled(p, Choose(Receive(chosen)))
      modifies this`source, ingestClient`incoming, recvChannels[chosen], receivers[chosen]
      ensures Valid() && Shows(AfterTick(p, Receive(chosen)))
    {
      ghost var q := AfterTick(p, Receive(chosen));
      assert q.incoming == p.incoming[chosen := p.incoming[chosen][1..]] && q.responses == p.responses && Shaped(q);
      var msg := cases[chosen].messages.Receive();
      var receiverIndex := chosen - recvBaseOffset;
      source := receiverIndex;
      var accepted := ingestClient.IngestMessage(targetMailboxes[receiverIndex], msg, ingestChannels[receiverIndex]);
      if !accepted {
        receivers[chosen].Ack(msg.uid, false);
      }
    }

    /** The ingester's answer for a source: ack that source's receiver. */
    method HandleResponse(chosen: nat, ghost p: Pump)
      requires Valid() && Shows(p) && ingestBaseOffset <= chosen < exitOffset
      requires Enabled(p, Choose(Reply(chosen - ingestBaseOffset)))
      modifies ingestChannels[chosen - ingestBaseOffset], receivers[chosen - ingestBaseOffset]
      ensures Valid() && Shows(AfterTick(p, Reply(chosen - ingestBaseOffset)))
    {
      var receiverIndex := chosen - ingestBaseOffset;
      assert cases[|targetMailboxes| + receiverIndex] == OnResponse(ingestChannels[receiverIndex]);
      var r := cases[chosen].responses.Receive();
      receivers[receiverIndex].Ack(r.uid, r.ok);
    }

    /** The ingester serves the request being handed to it. */
    method ServeIngest(appendOk: bool, ghost p: Pump)
      requires Valid() && Shows(p) && Enabled(p, Handoff) && |p.responses[p.tick.source]| < RESPONSE_CAPACITY
      modifies ingestClient`incoming, ingestChannels[source]
      ensures Valid() && Shows(AfterServe(p, appendOk))
    {
      ghost var q := AfterServe(p, appendOk);
      ghost var r := Response(p.tick.message.uid, appendOk);
      assert q.responses == p.responses[source := p.responses[source] + [r]] && q.incoming == p.incoming && Shaped(q);
      var _ := ingestClient.Serve(appendOk);
    }

    /** One iteration of the loop, for the index the select chose among the cases that are ready. */
    method Tick(chosen: nat, ghost p: Pump)
      requires Valid() && Shows(p) && chosen < cases.Length
      requires Enabled(p, Choose(Route(|targetMailboxes|, chosen)))
      modifies this`stopped, this`source, ingestClient`incoming
      modifies set q | q in recvChannels, set q | q in ingestChannels, set r | r in receivers
      ensures Valid() && Shows(AfterTick(p, Route(|targetMailboxes|, chosen)))
      ensures stopped <==> chosen == 2 * |targetMailboxes|
    {
      if recvBaseOffset <= chosen < ingestBaseOffset {
        HandleIncoming(chosen, p);
      } else if ingestBaseOffset <= chosen < exitOffset {
        HandleResponse(chosen, p);
      } else {
        stopped := true;
      }
    }
  }

  /** A multi-pump needs at least one source and a mailbox for each. */
  method NewPump(sources: nat, mailboxes: seq<string>) returns (pump: MultiPump?, error: Option<PumpError>)
    ensures error == if sources == 0 then Some(NoSources) else if sources != |mailboxes| then Some(Mismatch) else None
    ensures error == None <==> pump != null
    ensures pump != null ==> pump.Valid() && pump.targetMailboxes == mailboxes && pump.Shows(FreshPump(mailboxes))
  {
    pump, error := null, None;
    if sources == 0 {
      error := Some(NoSources);
    } else if sources != |mailboxes| {
      error := Some(Mismatch);
    } else {
      pump := new MultiPump(mailboxes);
    }
  }

  /** The single pump: one receiver, one mailbox, one response channel. */
  class MailPump {
    const destMailbox: string
    const receiver: ReceiverClient
    const ingest: IngestClient
    const incoming: Queue<Message>
    const ingestChannel: Queue<Response>
    var stopped: bool

    ghost predicate Shows(p: Pump)
      reads this, receiver, ingest, incoming, ingestChannel
    {
      && Shaped(p) && p.mailboxes == [destMailbox] && p.shutdown == ingest.shutdown
      && p.incoming == [incoming.items] && p.responses == [ingestChannel.items] && p.acks == [receiver.acks]
      && match ingest.incoming
         case Some(offer) => p.tick == Sending(0, offer.message)
             && offer == Offer(destMailbox, offer.message, ingestChannel)
         case None => p.tick == if stopped then TickDone else Selecting
    }

    constructor (mailbox: string)
      ensures destMailbox == mailbox
      ensures Shows(FreshPump([mailbox]))
    {
      destMailbox := mailbox;
      receiver := new ReceiverClient();
      ingest := new IngestClient();
      incoming := new Queue<Message>();
      ingestChannel := new Queue<Response>();
      stopped := false;
    }

    /** One iteration of the loop, for the case the select chose among those that are ready. */
    method Tick(c: Case, ghost p: Pump)
      requires Shows(p) && Enabled(p, Choose(c))
      modifies this`stopped, receiver, ingest`incoming, incoming, ingestChannel
      ensures Shows(AfterTick(p, c))
      ensures stopped <==> c.Leave?
    {
      match c
      case Receive(_) =>
        var msg := incoming.Receive();
        var accepted := ingest.IngestMessage(destMailbox, msg, ingestChannel);
        if !accepted {
          receiver.Ack(msg.uid, false);
        }
      case Reply(_) =>
        var r := ingestChannel.Receive();
        receiver.Ack(r.uid, r.ok);
      case Leave => stopped := true;
    }
  }
}
