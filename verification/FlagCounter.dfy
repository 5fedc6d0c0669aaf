/** The flag that doubles as a counter, and the signalling channel it closes. */
module FlagCounters {

  /** A Go `chan struct{}` used only for signalling. Closing it twice panics, hence the precondition. */
  class Channel {
    var closed: bool
    /** Which flag the channel was made for. */
    ghost const role: nat

    constructor (ghost role: nat)
      ensures !closed && this.role == role
    {
      closed := false;
      this.role := role;
    }

    method Close()
      requires !closed
      modifies this
      ensures closed
    {
      closed := true;
    }
  }

  class FlagCounter {
    var counter: nat
    var channel: Channel
    /** Tells the flags of one owner apart, and with them their channels. */
    ghost const role: nat
    /** Everything that has happened to this counter; `life.current` names the current channel. */
    ghost var life: Life

    ghost predicate Valid()
      reads this, channel
    {
      && channel.role == role
      && counter == life.count
      && (channel.closed <==> counter > 0)
      && (channel.closed <==> life.current in life.closes)
      && Disciplined(life)
    }

    constructor (ghost role: nat)
      ensures Valid() && this.role == role && counter == 0 && life == Life(0, 0, []) && fresh(channel)
    {
      this.role := role;
      counter := 0;
      channel := new Channel(role);
      life := Life(0, 0, []);
    }

    method Flag()
      requires Valid()
      modifies this`counter, this`life, channel
      ensures Valid() && life == Apply(old(life), FlagOnce)
      ensures counter == old(counter) + 1 && channel == old(channel) && channel.closed
    {
      DisciplineKept(life, FlagOnce);
      life := Apply(life, FlagOnce);
      counter := counter + 1;
      if counter == 1 {
        channel.Close();
      }
    }

    method FlagIf(b: bool)
      requires Valid()
      modifies this`counter, this`life, channel
      ensures Valid() && life == if b then Apply(old(life), FlagOnce) else old(life)
    {
      if b {
        Flag();
      }
    }

    method FlagMany(count: nat)
      requires Valid()
      modifies this`counter, this`life, channel
      ensures Valid() && life == Apply(old(life), FlagBy(count))
      ensures counter == old(counter) + count && channel == old(channel)
    {
      DisciplineKept(life, FlagBy(count));
      life := Apply(life, FlagBy(count));
      var before := counter;
      counter := counter + count;
      if before == 0 && count != 0 {
        channel.Close();
      }
    }

    method IsFlagged() returns (flagged: bool)
      requires Valid()
      ensures flagged <==> counter > 0
      ensures flagged <==> channel.closed
    {
      flagged := counter > 0;
    }

    method Reset()
      requires Valid()
      modifies this
      ensures Valid() && life == Apply(old(life), ResetIt)
      ensures counter == 0 && fresh(channel) && !channel.closed
    {
      DisciplineKept(life, ResetIt);
      life := Apply(life, ResetIt);
      counter := 0;
      channel := new Channel(role);
    }
  }

  // A counter's whole life as a value: `closes` lists the channels closed so far, oldest first.

  datatype Use = FlagOnce | FlagBy(count: nat) | ResetIt

  datatype Life = Life(count: nat, current: nat, closes: seq<nat>)

  function Apply(l: Life, u: Use): Life {
    match u
    case FlagOnce => Life(l.count + 1, l.current, if l.count + 1 == 1 then l.closes + [l.current] else l.closes)
    case FlagBy(n) => Life(l.count + n, l.current, if l.count == 0 && n != 0 then l.closes + [l.current] else l.closes)
    case ResetIt => Life(0, l.current + 1, l.closes)
  }

  function Live(l: Life, uses: seq<Use>): Life
    decreases |uses|
  {
    if uses == [] then l else Live(Apply(l, uses[0]), uses[1..])
  }

  ghost predicate Disciplined(l: Life) {
    && (forall i, j :: 0 <= i < j < |l.closes| ==> l.closes[i] < l.closes[j])
    && (forall i :: 0 <= i < |l.closes| ==> l.closes[i] <= l.current)
    && (l.current in l.closes <==> l.count > 0)
  }

  lemma DisciplineKept(l: Life, u: Use)
    requires Disciplined(l)
    ensures Disciplined(Apply(l, u))
  {
    var next := Apply(l, u);
    assert u == ResetIt ==> next.current !in next.closes;
    assert next.closes != l.closes ==> next.closes[|l.closes|] == next.current;
  }

  /** However a counter is used, no channel is closed twice, and the current one is closed
      exactly while the count is positive. */
  lemma {:induction false} NeverClosedTwice(start: Life, uses: seq<Use>)
    requires Disciplined(start)
    ensures Disciplined(Live(start, uses))
    decreases |uses|
  {
    if uses != [] {
      DisciplineKept(start, uses[0]);
      NeverClosedTwice(Apply(start, uses[0]), uses[1..]);
    }
  }

  /** Flagging by n is n single flags: same count, same channels closed. */
  lemma {:induction false} FlagByIsRepeatedFlag(l: Life, n: nat)
    ensures Live(l, seq(n, _ => FlagOnce)) == Apply(l, FlagBy(n))
    decreases n
  {
    var uses := seq(n, _ => FlagOnce);
    if n != 0 {
      assert uses[1..] == seq(n - 1, _ => FlagOnce);
      FlagByIsRepeatedFlag(Apply(l, FlagOnce), n - 1);
    }
  }

  // The same on a 64-bit counter.

  const UINT64: nat := 0x1_0000_0000_0000_0000

  function Apply64(l: Life, u: Use): Life {
    match u
    case FlagOnce =>
      var count := (l.count + 1) % UINT64;
      Life(count, l.current, if count == 1 then l.closes + [l.current] else l.closes)
    case FlagBy(n) =>
      Life((l.count + n) % UINT64, l.current, if l.count == 0 && n != 0 then l.closes + [l.current] else l.closes)
    case ResetIt => Life(0, l.current + 1, l.closes)
  }

  function Added(u: Use): nat {
    match u
    case FlagOnce => 1
    case FlagBy(n) => n
    case ResetIt => 0
  }

  /** A 64-bit counter that wraps stays right about its channel unless it lands on exactly zero, where the flag is down
      with its channel closed. It counts right as long as it does not wrap. */
  lemma WrapAround(l: Life, u: Use)
    requires Disciplined(l) && l.count < UINT64 && Added(u) < UINT64
    ensures Apply64(l, u) == Apply(l, u) <==> u == ResetIt || l.count + Added(u) < UINT64
    ensures Disciplined(Apply64(l, u)) <==> u == ResetIt || l.count + Added(u) != UINT64
  {
    DisciplineKept(l, u);
    var next := Apply64(l, u);
    assert u != ResetIt ==> (next.count == if l.count + Added(u) < UINT64 then l.count + Added(u)
        else l.count + Added(u) - UINT64);
    if u != ResetIt && l.count + Added(u) >= UINT64 {
      assert next.closes == l.closes && next.current == l.current;
    } else {
      assert next == Apply(l, u);
    }
  }
}
