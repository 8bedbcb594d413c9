/** The heavy-hitter sketch behind the top-talkers metric: Space-Saving with `capacity` slots. */
module TopTenants {
  import opened Types

  datatype TenantCount = TenantCount(tenant: Tenant, count: nat)

  type Entries = seq<TenantCount>

  function Find(es: Entries, t: Tenant): (i: nat)
    ensures i <= |es|
    ensures i < |es| ==> es[i].tenant == t
    ensures forall j :: 0 <= j < i ==> es[j].tenant != t
  {
    if es == [] || es[0].tenant == t then 0 else 1 + Find(es[1..], t)
  }

  ghost predicate IsFirstMin(es: Entries, i: int) {
    && 0 <= i < |es|
    && (forall j :: 0 <= j < |es| ==> es[i].count <= es[j].count)
    && (forall j :: 0 <= j < i ==> es[i].count < es[j].count)
  }

  function FirstMin(es: Entries): (i: nat)
    requires es != []
    ensures IsFirstMin(es, i)
  {
    if |es| == 1 then 0
    else
      var i := FirstMin(es[..|es| - 1]);
      if es[|es| - 1].count < es[i].count then |es| - 1 else i
  }

  /** The table after `record(t, delta)`. */
  function Recorded(capacity: nat, es: Entries, t: Tenant, delta: nat): Entries {
    if capacity == 0 then es
    else
      var i := Find(es, t);
      if i < |es| then es[i := TenantCount(t, SatAdd(es[i].count, delta))]
      else if |es| < capacity then es + [TenantCount(t, delta)]
      else
        var m := FirstMin(es);
        es[m := TenantCount(t, SatAdd(es[m].count, delta))]
  }

  datatype Event = Event(tenant: Tenant, weight: nat)

  /** The table after recording a whole stream. */
  function Sketch(capacity: nat, stream: seq<Event>): Entries {
    if stream == [] then []
    else
      var last := stream[|stream| - 1];
      Recorded(capacity, Sketch(capacity, stream[..|stream| - 1]), last.tenant, last.weight)
  }

  function TotalWeight(stream: seq<Event>): nat {
    if stream == [] then 0
    else TotalWeight(stream[..|stream| - 1]) + stream[|stream| - 1].weight
  }

  function TrueWeight(stream: seq<Event>, t: Tenant): nat {
    if stream == [] then 0
    else
      TrueWeight(stream[..|stream| - 1], t) +
      if stream[|stream| - 1].tenant == t then stream[|stream| - 1].weight else 0
  }

  function Sum(es: Entries): nat {
    if es == [] then 0 else Sum(es[..|es| - 1]) + es[|es| - 1].count
  }

  lemma {:induction false} SumOfUpdate(es: Entries, i: nat, e: TenantCount)
    requires i < |es|
    ensures Sum(es[i := e]) == Sum(es) - es[i].count + e.count
  {
    var front := es[..|es| - 1];
    if i == |es| - 1 {
      assert es[i := e][..|es| - 1] == front;
    } else {
      SumOfUpdate(front, i, e);
      assert es[i := e][..|es| - 1] == front[i := e];
    }
  }

  lemma {:induction false} CountBelowSum(es: Entries, i: nat)
    requires i < |es|
    ensures es[i].count <= Sum(es)
  {
    if i < |es| - 1 {
      CountBelowSum(es[..|es| - 1], i);
    }
  }

  lemma {:induction false} MinTimesLength(es: Entries, m: nat)
    requires forall i :: 0 <= i < |es| ==> m <= es[i].count
    ensures m * |es| <= Sum(es)
  {
    if es != [] {
      MinTimesLength(es[..|es| - 1], m);
      assert m * |es| == m * (|es| - 1) + m;
    }
  }

  /** The least tracked count of a full table; a table with room never forgot anybody. */
  function Floor(capacity: nat, es: Entries): nat {
    if |es| < capacity || es == [] then 0 else es[FirstMin(es)].count
  }

  predicate Tracked(es: Entries, t: Tenant) {
    exists i :: 0 <= i < |es| && es[i].tenant == t
  }

  ghost predicate Distinct(es: Entries) {
    forall i, j :: 0 <= i < j < |es| ==> es[i].tenant != es[j].tenant
  }

  /** Each tracked count is within `slack` above the truth; nobody untracked exceeds `slack`. */
  ghost predicate Accurate(es: Entries, truth: Tenant -> nat, slack: nat) {
    && (forall e :: e in es ==> truth(e.tenant) <= e.count <= truth(e.tenant) + slack)
    && (forall t :: !Tracked(es, t) ==> truth(t) <= slack)
  }

  function Truth(stream: seq<Event>): Tenant -> nat {
    t => TrueWeight(stream, t)
  }

  ghost predicate Guarantee(capacity: nat, es: Entries, stream: seq<Event>) {
    && |es| <= capacity
    && Sum(es) == TotalWeight(stream)
    && Distinct(es)
    && Accurate(es, Truth(stream), Floor(capacity, es))
  }

  /** Writing slot `i` with tenant `t`'s new count keeps the table accurate when what leaves the
      slot and what enters it are both covered by the slack. */
  lemma WriteKeepsAccurate(es: Entries, i: nat, e: TenantCount, before: Tenant -> nat, after: Tenant -> nat,
                           low: nat, slack: nat)
    requires i < |es| && Distinct(es) && Accurate(es, before, low) && low <= slack
    requires forall t :: t != e.tenant ==> after(t) == before(t)
    requires after(e.tenant) <= e.count <= after(e.tenant) + slack
    requires es[i].tenant == e.tenant || (!Tracked(es, e.tenant) && es[i].count <= slack)
    ensures Distinct(es[i := e]) && Accurate(es[i := e], after, slack)
  {
    var es' := es[i := e];
    assert es'[i].tenant == e.tenant;
    forall t | Tracked(es, t) ensures Tracked(es', t) || t == es[i].tenant {
      var j :| 0 <= j < |es| && es[j].tenant == t;
      if j != i {
        assert es'[j].tenant == t;
      }
    }
    assert es[i] in es;
    forall x | x in es' ensures after(x.tenant) <= x.count <= after(x.tenant) + slack {
      var j :| 0 <= j < |es'| && es'[j] == x;
      if j != i {
        assert es[j] in es;
      }
    }
  }

  lemma AppendKeepsAccurate(es: Entries, e: TenantCount, before: Tenant -> nat, after: Tenant -> nat)
    requires Distinct(es) && Accurate(es, before, 0) && !Tracked(es, e.tenant)
    requires forall t :: t != e.tenant ==> after(t) == before(t)
    requires after(e.tenant) == e.count
    ensures Distinct(es + [e]) && Accurate(es + [e], after, 0)
  {
    var es' := es + [e];
    assert es'[|es|].tenant == e.tenant;
    forall t | Tracked(es, t) ensures Tracked(es', t) {
      var j :| 0 <= j < |es| && es[j].tenant == t;
      assert es'[j].tenant == t;
    }
  }

  lemma StreamStep(stream: seq<Event>, e: Event)
    ensures TotalWeight(stream + [e]) == TotalWeight(stream) + e.weight
    ensures forall t :: TrueWeight(stream + [e], t) == TrueWeight(stream, t) + if t == e.tenant then e.weight else 0
  {
    assert (stream + [e])[..|stream|] == stream;
  }

  /** The least count never falls. */
  lemma FloorRises(capacity: nat, es: Entries, i: nat, e: TenantCount)
    requires i < |es| <= capacity && es[i].count <= e.count
    ensures Floor(capacity, es) <= Floor(capacity, es[i := e])
  {
  }

  lemma AppendKeepsGuarantee(capacity: nat, es: Entries, stream: seq<Event>, e: Event)
    requires |es| < capacity && Guarantee(capacity, es, stream) && !Tracked(es, e.tenant)
    ensures Guarantee(capacity, es + [TenantCount(e.tenant, e.weight)], stream + [e])
  {
    var slot := TenantCount(e.tenant, e.weight);
    StreamStep(stream, e);
    assert Truth(stream)(e.tenant) == 0;
    AppendKeepsAccurate(es, slot, Truth(stream), Truth(stream + [e]));
    assert (es + [slot])[..|es|] == es;
    SlackGrows(es + [slot], Truth(stream + [e]), Floor(capacity, es + [slot]));
  }

  lemma WriteKeepsGuarantee(capacity: nat, es: Entries, stream: seq<Event>, e: Event, m: nat)
    requires m < |es| && Guarantee(capacity, es, stream)
    requires es[m].tenant == e.tenant || (|es| == capacity && !Tracked(es, e.tenant) && m == FirstMin(es))
    ensures Guarantee(capacity, es[m := TenantCount(e.tenant, es[m].count + e.weight)], stream + [e])
  {
    var slot := TenantCount(e.tenant, es[m].count + e.weight);
    StreamStep(stream, e);
    assert es[m] in es;
    assert Truth(stream)(e.tenant) <= es[m].count;
    assert es[m].count <= Truth(stream)(e.tenant) + es[m].count;
    FloorRises(capacity, es, m, slot);
    SumOfUpdate(es, m, slot);
    WriteKeepsAccurate(es, m, slot, Truth(stream), Truth(stream + [e]), Floor(capacity, es), Floor(capacity, es[m := slot]));
  }

  /** Which slot `record` writes: `|es|` stands for a new one. */
  lemma RecordedSlot(capacity: nat, es: Entries, t: Tenant, delta: nat) returns (m: nat)
    requires |es| <= capacity && capacity > 0 && Sum(es) + delta <= U64_MAX
    ensures m <= |es|
    ensures m == |es| ==> |es| < capacity && !Tracked(es, t) && Recorded(capacity, es, t, delta) == es + [TenantCount(t, delta)]
    ensures m < |es| ==> Recorded(capacity, es, t, delta) == es[m := TenantCount(t, es[m].count + delta)]
    ensures m < |es| ==> es[m].tenant == t || (|es| == capacity && !Tracked(es, t) && m == FirstMin(es))
  {
    m := Find(es, t);
    if m == |es| == capacity {
      m := FirstMin(es);
    }
    if m < |es| {
      CountBelowSum(es, m);
    }
  }

  lemma RecordKeepsGuarantee(capacity: nat, es: Entries, stream: seq<Event>, e: Event)
    requires capacity > 0 && Guarantee(capacity, es, stream)
    requires TotalWeight(stream) + e.weight <= U64_MAX
    ensures Guarantee(capacity, Recorded(capacity, es, e.tenant, e.weight), stream + [e])
  {
    var m := RecordedSlot(capacity, es, e.tenant, e.weight);
    if m == |es| {
      AppendKeepsGuarantee(capacity, es, stream, e);
    } else {
      WriteKeepsGuarantee(capacity, es, stream, e, m);
    }
  }

  lemma SlackGrows(es: Entries, truth: Tenant -> nat, slack: nat)
    requires Accurate(es, truth, 0)
    ensures Accurate(es, truth, slack)
  {
  }

  lemma {:induction false} SketchKeepsGuarantee(capacity: nat, stream: seq<Event>)
    requires capacity > 0 && TotalWeight(stream) <= U64_MAX
    ensures Guarantee(capacity, Sketch(capacity, stream), stream)
  {
    if stream != [] {
      var front, e := stream[..|stream| - 1], stream[|stream| - 1];
      SketchKeepsGuarantee(capacity, front);
      assert front + [e] == stream;
      RecordKeepsGuarantee(capacity, Sketch(capacity, front), front, e);
    }
  }

  /** Space-Saving: with `capacity` slots after total weight M, the counts add up to M, each tracked
      count is right up to M / capacity, and whoever carries more than M / capacity is tracked. */
  lemma SpaceSaving(capacity: nat, stream: seq<Event>)
    requires capacity > 0 && TotalWeight(stream) <= U64_MAX
    ensures var es, total := Sketch(capacity, stream), TotalWeight(stream);
            && |es| <= capacity
            && Distinct(es)
            && Sum(es) == total
            && Accurate(es, Truth(stream), Floor(capacity, es))
            && Floor(capacity, es) <= total / capacity
            && (|es| < capacity ==> Floor(capacity, es) == 0)
            && (forall t :: TrueWeight(stream, t) * capacity > total ==> Tracked(es, t))
  {
    hide Sketch, TotalWeight, TrueWeight, Sum, Distinct;
    SketchKeepsGuarantee(capacity, stream);
    var es, total := Sketch(capacity, stream), TotalWeight(stream);
    var low := Floor(capacity, es);
    if |es| == capacity {
      MinTimesLength(es, low);
    }
    QuotientBound(low, capacity, total);
    forall t | TrueWeight(stream, t) * capacity > total ensures Tracked(es, t) {
      if !Tracked(es, t) {
        assert Truth(stream)(t) <= low;
        TimesMonotone(TrueWeight(stream, t), low, capacity);
      }
    }
  }

  lemma QuotientBound(x: nat, k: nat, total: nat)
    requires k > 0 && x * k <= total
    ensures x <= total / k
  {
    assert total == total / k * k + total % k;
    if x >= total / k + 1 {
      TimesMonotone(total / k + 1, x, k);
      assert false;
    }
  }

  // ---------------------------------------------------------------- snapshot

  predicate Descending(es: Entries) {
    forall i, j :: 0 <= i < j < |es| ==> es[i].count >= es[j].count
  }

  /** The entries with one given count, in table order. */
  function WithCount(es: Entries, c: nat): Entries {
    if es == [] then []
    else (if es[0].count == c then [es[0]] else []) + WithCount(es[1..], c)
  }

  /** Where a stable sort puts a new first element: before every equal count. */
  function Insert(e: TenantCount, es: Entries): Entries {
    if es == [] || e.count >= es[0].count then [e] + es
    else [es[0]] + Insert(e, es[1..])
  }

  lemma {:induction false} InsertAdds(e: TenantCount, es: Entries)
    ensures multiset(Insert(e, es)) == multiset(es) + multiset{e}
    ensures forall x :: x in Insert(e, es) ==> x == e || x in es
  {
    if es != [] && e.count < es[0].count {
      InsertAdds(e, es[1..]);
      assert es == [es[0]] + es[1..];
    }
  }

  lemma {:induction false} InsertSorts(e: TenantCount, es: Entries)
    requires Descending(es)
    ensures Descending(Insert(e, es))
  {
    if es != [] && e.count < es[0].count {
      var rest := Insert(e, es[1..]);
      InsertSorts(e, es[1..]);
      InsertAdds(e, es[1..]);
      forall i | 0 <= i < |rest| ensures rest[i].count <= es[0].count {
        assert rest[i] in rest;
      }
    }
  }

  /** `snapshot`: the table sorted by descending count, ties in table order. */
  function Snapshot(es: Entries): Entries {
    if es == [] then [] else Insert(es[0], Snapshot(es[1..]))
  }

  /** A snapshot is the table itself, rearranged so that counts descend. */
  lemma {:induction false} SnapshotSorts(es: Entries)
    ensures multiset(Snapshot(es)) == multiset(es)
    ensures Descending(Snapshot(es))
  {
    if es != [] {
      SnapshotSorts(es[1..]);
      InsertAdds(es[0], Snapshot(es[1..]));
      InsertSorts(es[0], Snapshot(es[1..]));
      assert es == [es[0]] + es[1..];
    }
  }

  lemma {:induction false} InsertIsStable(e: TenantCount, es: Entries, c: nat)
    requires Descending(es)
    ensures WithCount(Insert(e, es), c) == WithCount([e], c) + WithCount(es, c)
  {
    if es == [] || e.count >= es[0].count {
      assert ([e] + es)[1..] == es;
    } else {
      InsertIsStable(e, es[1..], c);
      assert Insert(e, es)[1..] == Insert(e, es[1..]);
    }
  }

  lemma HeadCount(es: Entries, c: nat)
    requires es != []
    ensures WithCount(es, c) == WithCount([es[0]], c) + WithCount(es[1..], c)
  {
    assert [es[0]][1..] == [];
  }

  lemma {:induction false} SnapshotIsStable(es: Entries, c: nat)
    ensures WithCount(Snapshot(es), c) == WithCount(es, c)
  {
    hide Insert, Descending, WithCount;
    if es != [] {
      SnapshotIsStable(es[1..], c);
      SnapshotSorts(es[1..]);
      InsertIsStable(es[0], Snapshot(es[1..]), c);
      HeadCount(es, c);
    }
  }

  class TopTenants {
    const capacity: nat
    var entries: Entries
    ghost var stream: seq<Event>

    ghost predicate Valid()
      reads this
    {
      && entries == Sketch(capacity, stream)
      && |entries| <= capacity
      && (forall i :: 0 <= i < |entries| ==> entries[i].count <= U64_MAX)
    }

    constructor (capacity: nat)
      ensures Valid() && this.capacity == capacity && stream == []
    {
      this.capacity := capacity;
      entries := [];
      stream := [];
    }

    method Record(tenant: Tenant, delta: nat)
      requires Valid() && delta <= U64_MAX
      modifies this
      ensures Valid() && stream == old(stream) + [Event(tenant, delta)]
      ensures entries == Recorded(capacity, old(entries), tenant, delta)
    {
      assert (stream + [Event(tenant, delta)])[..|stream|] == stream;
      stream := stream + [Event(tenant, delta)];
      if capacity == 0 {
        return;
      }
      var i := 0;
      while i < |entries|
        invariant 0 <= i <= |entries|
        invariant forall j :: 0 <= j < i ==> entries[j].tenant != tenant
        invariant entries == old(entries)
      {
        if entries[i].tenant == tenant {
          entries := entries[i := TenantCount(tenant, SatAdd(entries[i].count, delta))];
          return;
        }
        i := i + 1;
      }
      if |entries| < capacity {
        entries := entries + [TenantCount(tenant, delta)];
        return;
      }
      var minIdx, minCount := 0, U64_MAX;
      i := 0;
      while i < |entries|
        invariant 0 <= i <= |entries|
        invariant minIdx < |entries|
        invariant forall j :: 0 <= j < i ==> minCount <= entries[j].count
        invariant minCount <= U64_MAX
        invariant minCount == U64_MAX ==> minIdx == 0
        invariant minCount < U64_MAX ==> minIdx < i && entries[minIdx].count == minCount
        invariant forall j :: 0 <= j < minIdx ==> minCount < entries[j].count
      {
        if entries[i].count < minCount {
          minIdx, minCount := i, entries[i].count;
        }
        i := i + 1;
      }
      assert IsFirstMin(entries, minIdx) && entries[minIdx].count == minCount;
      entries := entries[minIdx := TenantCount(tenant, SatAdd(minCount, delta))];
    }
  }
}
