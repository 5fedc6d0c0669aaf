/** What the pump knows of IMAP: a fetched message is a UID, a sequence number and an opaque body. */
module Imap {
  datatype Option<+T> = None | Some(value: T)

  datatype Message = Message(uid: nat, seqNum: nat, body: string)

  /** The UIDs of a stream of messages, with their multiplicities. */
  function Uids(ms: seq<Message>): multiset<nat> {
    if ms == [] then multiset{} else multiset{ms[0].uid} + Uids(ms[1..])
  }

  lemma {:induction false} UidsConcat(a: seq<Message>, b: seq<Message>)
    ensures Uids(a + b) == Uids(a) + Uids(b)
  {
    if a == [] {
      assert a + b == b;
    } else {
      assert (a + b)[1..] == a[1..] + b;
      UidsConcat(a[1..], b);
    }
  }
}
