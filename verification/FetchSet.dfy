/** Which sequence numbers a fetch asks for, and what it makes of the messages that come back. */
module FetchSet {
  import opened Imap
  import opened Numbers

  const UINT32: nat := 0x1_0000_0000

  /** Sequence numbers of the mailbox that are not already known. */
  ghost function Free(existing: set<nat>, messages: nat): set<nat> {
    set n: nat | 1 <= n <= messages && n !in existing
  }

  /** `wanted` is the min(maxSize, |Free|) smallest free numbers. */
  ghost predicate IsFetchSet(wanted: set<nat>, existing: set<nat>, messages: nat, maxSize: nat) {
    && wanted <= Free(existing, messages)
    && |wanted| == Min(maxSize, |Free(existing, messages)|)
    && forall x, y :: x in wanted && y in Free(existing, messages) - wanted ==> x < y
  }

  lemma SubsetSize<T>(a: set<T>, b: set<T>)
    requires a <= b
    ensures |a| <= |b|
    ensures |a| == |b| ==> a == b
    ensures |b - a| == |b| - |a|
  {
    assert b == a + (b - a);
  }

  lemma FetchSetsNest(a: set<nat>, b: set<nat>, existing: set<nat>, messages: nat, maxSize: nat)
    requires IsFetchSet(a, existing, messages, maxSize) && IsFetchSet(b, existing, messages, maxSize)
    ensures a <= b || b <= a
  {
    if x :| x in a && x !in b {
      assert x in Free(existing, messages) - b;
      forall y | y in b
        ensures y in a
      {
        assert y in a || y in Free(existing, messages) - a;
      }
    }
  }

  /** Being the smallest free numbers determines the set. */
  lemma FetchSetUnique(a: set<nat>, b: set<nat>, existing: set<nat>, messages: nat, maxSize: nat)
    requires IsFetchSet(a, existing, messages, maxSize) && IsFetchSet(b, existing, messages, maxSize)
    ensures a == b
  {
    FetchSetsNest(a, b, existing, messages, maxSize);
    if a <= b {
      SubsetSize(a, b);
    } else {
      SubsetSize(b, a);
    }
  }

  lemma FreeGrows(existing: set<nat>, n: nat)
    ensures n == 0 ==> Free(existing, n) == {}
    ensures Free(existing, n + 1) == Free(existing, n) + if n + 1 in existing then {} else {n + 1}
    ensures |Free(existing, n + 1)| == |Free(existing, n)| + if n + 1 in existing then 0 else 1
  {
    assert n + 1 !in Free(existing, n);
  }

  /** The free numbers up to n are a fetch set once there are enough of them, or n is the last message. */
  lemma FirstFree(existing: set<nat>, n: nat, messages: nat, maxSize: nat)
    requires n <= messages && |Free(existing, n)| <= maxSize
    ensures |Free(existing, n)| <= |Free(existing, messages)|
    ensures n == messages || |Free(existing, n)| == maxSize
        ==> IsFetchSet(Free(existing, n), existing, messages, maxSize)
  {
    SubsetSize(Free(existing, n), Free(existing, messages));
  }

  /** The counter is a uint32: on a mailbox of 2^32-1 messages it can come back to zero with the loop
      still running, and zero means '*' to the IMAP library. `wrapped` reports that, and says exactly when. */
  method BuildSeqSet(existing: set<nat>, messages: nat, maxSize: nat) returns (wanted: set<nat>, wrapped: bool)
    requires messages < UINT32
    ensures wrapped <==> messages == UINT32 - 1 && |Free(existing, messages)| < maxSize
    ensures !wrapped ==> IsFetchSet(wanted, existing, messages, maxSize)
  {
    wanted, wrapped := {}, false;
    var i: nat, next: nat := 0, 1;
    ghost var seen := 0;
    FreeGrows(existing, 0);
    while i < maxSize && next <= messages && !wrapped
      invariant seen <= messages && wanted == Free(existing, seen)
      invariant i == |wanted| <= maxSize
      invariant if wrapped then seen == messages == UINT32 - 1 && i < maxSize else next == seen + 1
      invariant next == UINT32 ==> i == maxSize
      decreases !wrapped, messages + 1 - next
    {
      FreeGrows(existing, seen);
      seen := next;
      if next !in existing {
        wanted := wanted + {next};
        i := i + 1;
      }
      if next + 1 == UINT32 && i < maxSize {
        wrapped := true;
      } else {
        next := next + 1;
      }
    }
    FirstFree(existing, seen, messages, maxSize);
  }

  /** What repeated fetching covers, one fetch set per round, each excluding all the earlier ones. */
  ghost function Covered(rounds: seq<set<nat>>): set<nat> {
    if rounds == [] then {} else Covered(rounds[..|rounds| - 1]) + rounds[|rounds| - 1]
  }

  ghost predicate Rounds(rounds: seq<set<nat>>, existing: set<nat>, messages: nat, maxSize: nat) {
    forall k {:trigger rounds[k]} :: 0 <= k < |rounds| ==>
      IsFetchSet(rounds[k], existing + Covered(rounds[..k]), messages, maxSize)
  }

  /** One more round after `seen`: it takes min(maxSize, what is left), all of it new. */
  lemma OneMoreRound(seen: set<nat>, round: set<nat>, existing: set<nat>, messages: nat, maxSize: nat)
    requires seen <= Free(existing, messages)
    requires IsFetchSet(round, existing + seen, messages, maxSize)
    ensures seen !! round && seen + round <= Free(existing, messages)
    ensures |seen + round| == Min(|seen| + maxSize, |Free(existing, messages)|)
  {
    var free := Free(existing, messages);
    assert Free(existing + seen, messages) == free - seen;
    SubsetSize(seen, free);
    assert |seen + round| == |seen| + |round|;
  }

  ghost function Total(rounds: nat, maxSize: nat): nat {
    if rounds == 0 then 0 else Total(rounds - 1, maxSize) + maxSize
  }

  lemma {:induction false} TotalIsProduct(rounds: nat, maxSize: nat)
    ensures Total(rounds, maxSize) == rounds * maxSize
  {
    if rounds != 0 {
      TotalIsProduct(rounds - 1, maxSize);
    }
  }

  lemma TotalCovered(rounds: seq<set<nat>>, existing: set<nat>, messages: nat, maxSize: nat)
    requires Rounds(rounds, existing, messages, maxSize)
    ensures Covered(rounds) <= Free(existing, messages)
    ensures |Covered(rounds)| == Min(Total(|rounds|, maxSize), |Free(existing, messages)|)
    ensures Covered(rounds) == Free(existing, messages) <==> Total(|rounds|, maxSize) >= |Free(existing, messages)|
  {
    assert rounds[..|rounds|] == rounds;
    RoundsCount(rounds, |rounds|, existing, messages, maxSize);
    SubsetSize(Covered(rounds), Free(existing, messages));
  }

  /** k rounds fetch exactly min(k * maxSize, |Free|) numbers, all of them free, and the free numbers are
      exhausted as soon as k * maxSize reaches their count and no sooner. */
  lemma RoundsCover(rounds: seq<set<nat>>, existing: set<nat>, messages: nat, maxSize: nat)
    requires Rounds(rounds, existing, messages, maxSize)
    ensures Covered(rounds) <= Free(existing, messages)
    ensures |Covered(rounds)| == Min(|rounds| * maxSize, |Free(existing, messages)|)
    ensures Covered(rounds) == Free(existing, messages) <==> |rounds| * maxSize >= |Free(existing, messages)|
  {
    TotalCovered(rounds, existing, messages, maxSize);
    TotalIsProduct(|rounds|, maxSize);
  }

  lemma {:induction false} RoundsCount(rounds: seq<set<nat>>, n: nat, existing: set<nat>, messages: nat, maxSize: nat)
    requires Rounds(rounds, existing, messages, maxSize) && n <= |rounds|
    ensures Covered(rounds[..n]) <= Free(existing, messages)
    ensures |Covered(rounds[..n])| == Min(Total(n, maxSize), |Free(existing, messages)|)
    decreases n
  {
    if n != 0 {
      RoundsCount(rounds, n - 1, existing, messages, maxSize);
      assert IsFetchSet(rounds[n - 1], existing + Covered(rounds[..n - 1]), messages, maxSize);
      OneMoreRound(Covered(rounds[..n - 1]), rounds[n - 1], existing, messages, maxSize);
      assert rounds[..n][..n - 1] == rounds[..n - 1];
    }
  }

  /** No number is asked for in two different rounds. */
  lemma RoundsDisjoint(rounds: seq<set<nat>>, existing: set<nat>, messages: nat, maxSize: nat, j: nat, k: nat)
    requires Rounds(rounds, existing, messages, maxSize)
    requires j < k < |rounds|
    ensures rounds[j] !! rounds[k]
  {
    RoundWithin(rounds[..k], j);
    assert rounds[k] <= Free(existing + Covered(rounds[..k]), messages);
  }

  lemma {:induction false} RoundWithin(rounds: seq<set<nat>>, j: nat)
    requires j < |rounds|
    ensures rounds[j] <= Covered(rounds)
    decreases |rounds|
  {
    if j < |rounds| - 1 {
      RoundWithin(rounds[..|rounds| - 1], j);
    }
  }

  // ---- readMessages

  ghost predicate Occurs(stream: seq<Message>, uid: nat) {
    exists k :: 0 <= k < |stream| && stream[k].uid == uid
  }

  /** The last message of the stream that carries this UID. */
  ghost function LastWith(stream: seq<Message>, uid: nat): Message
    requires Occurs(stream, uid)
  {
    if stream[|stream| - 1].uid == uid then stream[|stream| - 1] else LastWith(stream[..|stream| - 1], uid)
  }

  /** `m` is in the stream, and no message with its UID comes after it. */
  ghost predicate IsLast(stream: seq<Message>, m: Message) {
    exists k :: 0 <= k < |stream| && stream[k] == m && forall j :: k < j < |stream| ==> stream[j].uid != m.uid
  }

  lemma {:induction false} LastIsLast(stream: seq<Message>, uid: nat)
    requires Occurs(stream, uid)
    ensures LastWith(stream, uid).uid == uid && IsLast(stream, LastWith(stream, uid))
  {
    var n := |stream| - 1;
    if stream[n].uid != uid {
      var shorter := stream[..n];
      var i :| 0 <= i < |stream| && stream[i].uid == uid;
      assert shorter[i].uid == uid;
      LastIsLast(shorter, uid);
      var k :| 0 <= k < n && shorter[k] == LastWith(shorter, uid) && forall j :: k < j < n ==> shorter[j].uid != uid;
      assert stream[k] == LastWith(stream, uid);
      forall j | k < j < |stream|
        ensures stream[j].uid != uid
      {
        if j < n {
          assert stream[j] == shorter[j];
        }
      }
    }
  }

  lemma OccursAfter(stream: seq<Message>, msg: Message)
    ensures forall u :: Occurs(stream + [msg], u) <==> Occurs(stream, u) || u == msg.uid
    ensures forall u :: Occurs(stream + [msg], u) ==>
      LastWith(stream + [msg], u) == if u == msg.uid then msg else LastWith(stream, u)
  {
    var longer := stream + [msg];
    assert longer[..|longer| - 1] == stream;
    assert longer[|stream|].uid == msg.uid;
    forall u | Occurs(stream, u)
      ensures Occurs(longer, u)
    {
      var k :| 0 <= k < |stream| && stream[k].uid == u;
      assert longer[k].uid == u;
    }
  }

  ghost predicate StrictlyIncreasing(s: seq<nat>) {
    forall i, j :: 0 <= i < j < |s| ==> s[i] < s[j]
  }

  /** Stands for the library's in-place sort, on distinct UIDs. */
  method SortUids(uids: seq<nat>) returns (sorted: seq<nat>)
    requires forall i, j :: 0 <= i < j < |uids| ==> uids[i] != uids[j]
    ensures StrictlyIncreasing(sorted)
    ensures forall u :: u in sorted <==> u in uids
  {
    sorted := [];
    for i := 0 to |uids|
      invariant StrictlyIncreasing(sorted)
      invariant forall u :: u in sorted <==> u in uids[..i]
    {
      var at := 0;
      while at < |sorted| && sorted[at] < uids[i]
        invariant 0 <= at <= |sorted|
        invariant forall j :: 0 <= j < at ==> sorted[j] < uids[i]
      {
        at := at + 1;
      }
      ghost var was := sorted;
      assert uids[i] !in uids[..i];
      assert forall j :: at <= j < |was| ==> uids[i] < was[j];
      sorted := sorted[..at] + [uids[i]] + sorted[at..];
      assert forall u :: u in sorted <==> u in was || u == uids[i];
    }
    assert uids[..|uids|] == uids;
  }

  method ReadMessages(stream: seq<Message>) returns (uids: seq<nat>, unique: map<nat, Message>)
    ensures StrictlyIncreasing(uids)
    ensures forall u :: u in uids <==> u in unique
    ensures forall u :: u in unique <==> Occurs(stream, u)
    ensures forall u :: u in unique ==> unique[u] == LastWith(stream, u) && unique[u].uid == u
    ensures forall u :: u in unique ==> IsLast(stream, unique[u])
  {
    unique := map[];
    for i := 0 to |stream|
      invariant forall u :: u in unique <==> Occurs(stream[..i], u)
      invariant forall u :: u in unique ==> unique[u] == LastWith(stream[..i], u) && unique[u].uid == u
    {
      var msg := stream[i];
      OccursAfter(stream[..i], msg);
      assert stream[..i + 1] == stream[..i] + [msg];
      unique := unique[msg.uid := msg];
    }
    assert stream[..|stream|] == stream;
    uids := [];
    var left := unique.Keys;
    while left != {}
      invariant left <= unique.Keys
      invariant forall u :: u in uids <==> u in unique && u !in left
      invariant forall i, j :: 0 <= i < j < |uids| ==> uids[i] != uids[j]
      decreases left
    {
      var uid :| uid in left;
      uids := uids + [uid];
      left := left - {uid};
    }
    uids := SortUids(uids);
    forall u | u in unique
      ensures IsLast(stream, unique[u])
    {
      LastIsLast(stream, u);
    }
  }
}
