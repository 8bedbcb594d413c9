/** The compacting FIFO that every ring and the active-shard list use. */
module ActiveRing {
  import opened Types

  const COMPACT_AT: nat := 64

  /** The two fields of a ring: `buf[..head]` is the dead prefix, `buf[head..]` the queue. */
  datatype Ring<T> = Ring(buf: seq<T>, head: nat) {
    ghost predicate Valid() {
      && head <= |buf|
      && (head == |buf| ==> buf == [])
      && (head > COMPACT_AT ==> head * 2 < |buf|)
    }

    ghost function Contents(): seq<T>
      requires head <= |buf|
    {
      buf[head..]
    }
  }

  function Push<T>(r: Ring<T>, item: T): Ring<T> {
    if r.head == |r.buf| then Ring([item], 0) else Ring(r.buf + [item], r.head)
  }

  /** The ring after a pop, the item, and how many elements the compaction moved. */
  datatype Popped<T> = Popped(ring: Ring<T>, item: Option<T>, moved: nat)

  function Pop<T>(r: Ring<T>): Popped<T> {
    if r.head >= |r.buf| then Popped(r, None, 0)
    else
      var head := r.head + 1;
      if head > COMPACT_AT && head * 2 >= |r.buf| then
        Popped(Ring(r.buf[head..], 0), Some(r.buf[r.head]), |r.buf| - head)
      else if head == |r.buf| then
        Popped(Ring([], 0), Some(r.buf[r.head]), 0)
      else
        Popped(Ring(r.buf, head), Some(r.buf[r.head]), 0)
  }

  /** A valid ring is a FIFO: push appends, pop takes the first element, and both keep it valid. */
  lemma StepsAreFifo<T>(r: Ring<T>, item: T)
    requires r.Valid()
    ensures Push(r, item).Valid() && Push(r, item).Contents() == r.Contents() + [item]
    ensures Pop(r).ring.Valid()
    ensures Pop(r).item == (if r.Contents() == [] then None else Some(r.Contents()[0]))
    ensures Pop(r).ring.Contents() == (if r.Contents() == [] then [] else r.Contents()[1..])
    ensures Pop(r).moved + Pop(r).ring.head <= r.head + 1
  {
    assert Push(r, item).Contents() == r.Contents() + [item];
    if r.head < |r.buf| {
      assert Pop(r).ring.Contents() == r.Contents()[1..];
    }
  }

  datatype Op<T> = PushBack(item: T) | PopFront

  /** A run of the ring from empty: what it popped, and the totals the cost bound speaks of. */
  datatype Run<T> = Run(ring: Ring<T>, out: seq<T>, pops: nat, moved: nat)

  function Execute<T>(ops: seq<Op<T>>): Run<T> {
    if ops == [] then Run(Ring([], 0), [], 0, 0) else Step(Execute(ops[..|ops| - 1]), ops[|ops| - 1])
  }

  function Pushed<T>(ops: seq<Op<T>>): seq<T> {
    if ops == [] then [] else Pushed(ops[..|ops| - 1]) + Item(ops[|ops| - 1])
  }

  function Step<T>(r: Run<T>, op: Op<T>): Run<T> {
    match op
    case PushBack(item) => r.(ring := Push(r.ring, item))
    case PopFront =>
      var p := Pop(r.ring);
      if p.item.None? then r
      else Run(p.ring, r.out + [p.item.value], r.pops + 1, r.moved + p.moved)
  }

  function Item<T>(op: Op<T>): seq<T> {
    match op case PushBack(item) => [item] case PopFront => []
  }

  /** After a run that was pushed `input`: what came out followed by what is left is what went in, in order,
      and moved elements plus the dead prefix are paid for by pops. */
  ghost predicate FifoSoFar<T>(r: Run<T>, input: seq<T>) {
    && r.ring.Valid()
    && r.out + r.ring.Contents() == input
    && r.pops == |r.out|
    && r.moved + r.ring.head <= r.pops
  }

  lemma PushKeepsFifo<T>(r: Run<T>, input: seq<T>, item: T)
    requires FifoSoFar(r, input)
    ensures FifoSoFar(r.(ring := Push(r.ring, item)), input + [item])
  {
    hide Push, Ring.Valid, Ring.Contents;
    StepsAreFifo(r.ring, item);
    PushedHead(r.ring, item);
  }

  lemma PushedHead<T>(r: Ring<T>, item: T)
    ensures Push(r, item).head <= r.head
  {
  }

  lemma PopKeepsFifo<T>(r: Run<T>, input: seq<T>)
    requires FifoSoFar(r, input)
    ensures FifoSoFar(Step(r, PopFront), input)
  {
    hide Pop, Ring.Contents;
    PopIsFifo(r.ring);
    var c := r.ring.Contents();
    if c != [] {
      assert r.out + c == (r.out + [c[0]]) + c[1..];
    }
  }

  lemma PopIsFifo<T>(r: Ring<T>)
    requires r.Valid()
    ensures Pop(r).ring.Valid()
    ensures Pop(r).item == (if r.Contents() == [] then None else Some(r.Contents()[0]))
    ensures Pop(r).ring.Contents() == (if r.Contents() == [] then [] else r.Contents()[1..])
    ensures Pop(r).item.Some? ==> Pop(r).moved + Pop(r).ring.head <= r.head + 1
  {
    if r.head < |r.buf| {
      StepsAreFifo(r, r.buf[r.head]);
    }
  }

  /** The dead prefix of a well-formed ring stays within max(64, live length). */
  lemma PrefixIsShort<T>(r: Ring<T>)
    requires r.Valid()
    ensures r.head <= (if COMPACT_AT >= |r.Contents()| then COMPACT_AT else |r.Contents()|)
  {
  }

  lemma {:induction false} RunKeepsFifo<T>(ops: seq<Op<T>>)
    ensures FifoSoFar(Execute(ops), Pushed(ops))
  {
    hide FifoSoFar, Step;
    if ops == [] {
      NothingYet<T>();
    } else {
      var before, op := ops[..|ops| - 1], ops[|ops| - 1];
      RunKeepsFifo(before);
      match op
      case PushBack(item) =>
        PushKeepsFifo(Execute(before), Pushed(before), item);
        assert Step(Execute(before), op) == Execute(before).(ring := Push(Execute(before).ring, item)) by { StepPushes(Execute(before), item); }
      case PopFront =>
        PopKeepsFifo(Execute(before), Pushed(before));
        assert Pushed(before) + [] == Pushed(before);
    }
  }

  lemma StepPushes<T>(r: Run<T>, item: T)
    ensures Step(r, PushBack(item)) == r.(ring := Push(r.ring, item))
  {
  }

  lemma NothingYet<T>()
    ensures FifoSoFar<T>(Run(Ring([], 0), [], 0, 0), [])
  {
  }

  /** Over any run: what came out followed by what is left is what went in, in order;
      the dead prefix stays within max(64, live length); compaction is amortised O(1). */
  lemma RunRefinesFifo<T>(ops: seq<Op<T>>)
    ensures var r := Execute(ops);
            && r.ring.Valid()
            && r.out + r.ring.Contents() == Pushed(ops)
            && r.pops == |r.out|
            && r.ring.head <= (if COMPACT_AT >= |r.ring.Contents()| then COMPACT_AT else |r.ring.Contents()|)
            && r.moved + r.ring.head <= r.pops
  {
    hide Execute, Pushed, Ring.Valid, Ring.Contents;
    RunKeepsFifo(ops);
    PrefixIsShort(Execute(ops).ring);
  }

  /** A pop answers "empty" exactly when everything pushed has already come out. */
  lemma EmptyExactlyWhenDrained<T>(ops: seq<Op<T>>)
    ensures Pop(Execute(ops).ring).item.None? <==> Execute(ops).out == Pushed(ops)
  {
    hide Execute, Pushed;
    RunRefinesFifo(ops);
    var r := Execute(ops);
    PopIsFifo(r.ring);
    assert |r.out| + |r.ring.Contents()| == |Pushed(ops)|;
    if r.ring.Contents() == [] {
      assert r.out + [] == r.out;
    }
  }

  class ActiveRing<T> {
    var buf: seq<T>
    var head: nat
    ghost var pops: nat
    ghost var moved: nat

    ghost function Value(): Ring<T>
      reads this
    {
      Ring(buf, head)
    }

    ghost predicate Valid()
      reads this
    {
      && Value().Valid()
      && moved + head <= pops
    }

    ghost function Contents(): seq<T>
      requires Valid()
      reads this
    {
      Value().Contents()
    }

    constructor ()
      ensures Valid() && Contents() == []
    {
      buf, head := [], 0;
      pops, moved := 0, 0;
    }

    method Len() returns (n: nat)
      requires Valid()
      ensures n == |Contents()|
    {
      n := SatSub(|buf|, head);
    }

    method IsEmpty() returns (empty: bool)
      requires Valid()
      ensures empty <==> Contents() == []
    {
      var n := Len();
      empty := n == 0;
    }

    method PushBack(item: T)
      requires Valid()
      modifies this
      ensures Valid() && Value() == Push(old(Value()), item)
      ensures Contents() == old(Contents()) + [item]
      ensures pops == old(pops) && moved == old(moved)
    {
      StepsAreFifo(Value(), item);
      if head == |buf| {
        buf := [];
        head := 0;
      }
      buf := buf + [item];
    }

    method PopFront() returns (item: Option<T>)
      requires Valid()
      modifies this
      ensures Valid() && Value() == Pop(old(Value())).ring
      ensures item.None? <==> old(Contents()) == []
      ensures item.Some? ==> item.value == old(Contents())[0] && Contents() == old(Contents())[1..]
      ensures item.None? ==> Contents() == old(Contents())
      ensures pops == old(pops) + (if item.Some? then 1 else 0)
      ensures moved == old(moved) + Pop(old(Value())).moved
    {
      if head >= |buf| {
        return None;
      }
      StepsAreFifo(Value(), buf[head]);
      moved := moved + Pop(Value()).moved;
      pops := pops + 1;
      item := Some(buf[head]);
      head := head + 1;
      if head > COMPACT_AT && head * 2 >= |buf| {
        buf := buf[head..];
        head := 0;
      } else if head == |buf| {
        buf := [];
        head := 0;
      }
    }
  }
}
