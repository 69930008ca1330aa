/** CollectDescriptorStats: a read-only walk over the scene graph that predicts how
    large a shared descriptor pool must be.

    The graph is a finite tree. An object reachable along two paths appears twice in
    the tree with the same integer `id`; identity is that id, never structural
    equality. The walk is a left fold of `Visit` over an accumulator `Stats`. */
module DescriptorStats {
  import opened Vk

  /** `VkDescriptorPoolSize`: a descriptor type and a count. */
  datatype PoolSize = PoolSize(descriptorType: int, descriptorCount: u32)

  /** An author-supplied annotation whose numbers stand in for its whole subtree. */
  datatype ResourceHints = ResourceHints(maxSlot: u32, numDescriptorSets: u32, descriptorPoolSizes: seq<PoolSize>)

  datatype Descriptor = Descriptor(id: int, descriptorType: int, numDescriptors: u32)

  datatype DescriptorSet = DescriptorSet(id: int, descriptors: seq<Descriptor>)

  /** What the walk meets, by the `apply` overload it lands in. `hints` is the
      object's "ResourceHints" entry when it has one. */
  datatype Obj =
    | Object(hints: Option<ResourceHints>, children: seq<Obj>)      // any other object
    | Node(hints: Option<ResourceHints>, children: seq<Obj>)        // groups, LODs, geometry, ...
    | StateGroup(hints: Option<ResourceHints>, stateCommands: seq<StateCommand>, children: seq<Obj>)
    | Command(command: StateCommand)
    | Hints(resourceHints: ResourceHints)
    | Set(descriptorSet: DescriptorSet)
    | Desc(descriptor: Descriptor)

  datatype StateCommand = StateCommand(slot: u32, children: seq<Obj>)

  /** The accumulators of one accounting run. */
  datatype Stats = Stats(
    maxSlot: u32,
    externalNumDescriptorSets: u32,
    descriptorSets: set<int>,
    descriptors: set<int>,
    descriptorTypeMap: map<int, u32>)

  /** Above this many declared sets a hint counts even with no pool sizes. */
  const HINT_SET_THRESHOLD: nat := 9

  /** The start of a run (the accumulators' initialisers live in a header that is
      not part of this model; zero and empty are assumed). */
  function Fresh(): Stats
  {
    Stats(0, 0, {}, {}, map[])
  }

  /** `descriptorTypeMap[t]`: `operator[]` reads an absent key as 0. */
  function Get(m: map<int, u32>, t: int): u32
  {
    if t in m then m[t] else 0
  }

  function Max(a: u32, b: u32): u32
  {
    if b > a then b else a
  }

  // ---------------------------------------------------------------------------
  // Reference sums (unbounded, no wrap-around)

  /** Sum of the counts listed for type `t`. */
  function SumOfType(ps: seq<PoolSize>, t: int): nat
  {
    if |ps| == 0 then 0
    else (if ps[0].descriptorType == t then ps[0].descriptorCount else 0) + SumOfType(ps[1..], t)
  }

  function TypesOf(ps: seq<PoolSize>): set<int>
  {
    set i | 0 <= i < |ps| :: ps[i].descriptorType
  }

  lemma TypesOfCons(ps: seq<PoolSize>)
    requires |ps| > 0
    ensures TypesOf(ps) == {ps[0].descriptorType} + TypesOf(ps[1..])
  {
    forall t | t in TypesOf(ps) ensures t in {ps[0].descriptorType} + TypesOf(ps[1..]) {
      var i :| 0 <= i < |ps| && ps[i].descriptorType == t;
      if i > 0 { assert ps[1..][i - 1] == ps[i]; }
    }
    forall t | t in TypesOf(ps[1..]) ensures t in TypesOf(ps) {
      var i :| 0 <= i < |ps[1..]| && ps[1..][i].descriptorType == t;
      assert ps[i + 1] == ps[1..][i];
    }
  }

  // ---------------------------------------------------------------------------
  // The fold

  /** `descriptorTypeMap[type] += count` with 32-bit wrap-around. */
  function AddCount(m: map<int, u32>, t: int, n: u32): (r: map<int, u32>)
    ensures r.Keys == m.Keys + {t}
    ensures Get(r, t) == Wrap32(Get(m, t) + n)
    ensures forall u :: u != t ==> Get(r, u) == Get(m, u)
  {
    m[t := Wrap32(Get(m, t) + n)]
  }

  /** One step of the fold, seen from a single type: only `t`'s entry moves. */
  lemma AddCountAt(m: map<int, u32>, u: int, n: u32, t: int)
    ensures Get(AddCount(m, u, n), t) == Wrap32(Get(m, t) + (if u == t then n else 0))
  {
  }

  /** Folds a pool-size list into the type map, entry by entry. */
  function AddPoolSizes(m: map<int, u32>, ps: seq<PoolSize>): map<int, u32>
    decreases ps
  {
    if |ps| == 0 then m
    else AddPoolSizes(AddCount(m, ps[0].descriptorType, ps[0].descriptorCount), ps[1..])
  }

  /** The fold adds exactly the listed types as keys. */
  lemma {:induction false} AddPoolSizesKeys(m: map<int, u32>, ps: seq<PoolSize>)
    ensures AddPoolSizes(m, ps).Keys == m.Keys + TypesOf(ps)
    decreases ps
  {
    if |ps| > 0 {
      TypesOfCons(ps);
      AddPoolSizesKeys(AddCount(m, ps[0].descriptorType, ps[0].descriptorCount), ps[1..]);
    }
  }

  /** Each type's entry grows by exactly that type's total in the list, modulo 2^32. */
  lemma {:induction false} AddPoolSizesSum(m: map<int, u32>, ps: seq<PoolSize>, t: int)
    ensures Get(AddPoolSizes(m, ps), t) == Wrap32(Get(m, t) + SumOfType(ps, t))
    decreases ps
  {
    if |ps| > 0 {
      var u, n := ps[0].descriptorType, ps[0].descriptorCount;
      var m' := AddCount(m, u, n);
      var head: nat := if u == t then n else 0;
      var rest := SumOfType(ps[1..], t);
      AddPoolSizesSum(m', ps[1..], t);
      AddCountAt(m, u, n, t);
      WrapAdd(Get(m, t) + head, rest);
      assert Get(AddPoolSizes(m, ps), t) == Wrap32(Get(m', t) + rest);
    }
  }

  lemma AddPoolSizesSumAll(m: map<int, u32>, ps: seq<PoolSize>)
    ensures forall t :: Get(AddPoolSizes(m, ps), t) == Wrap32(Get(m, t) + SumOfType(ps, t))
  {
    forall t {
      AddPoolSizesSum(m, ps, t);
    }
  }

  /** Whether a hint's counts are folded in: a non-empty pool-size list, or more
      than `HINT_SET_THRESHOLD` declared sets. */
  predicate HintCounts(h: ResourceHints)
  {
    |h.descriptorPoolSizes| > 0 || h.numDescriptorSets > HINT_SET_THRESHOLD
  }

  /** `apply(const ResourceHints&)`. */
  function ApplyHints(s: Stats, h: ResourceHints): (r: Stats)
    ensures r.maxSlot == Max(s.maxSlot, h.maxSlot)
    ensures r.descriptorSets == s.descriptorSets && r.descriptors == s.descriptors
    ensures HintCounts(h) ==> r.externalNumDescriptorSets == Wrap32(s.externalNumDescriptorSets + h.numDescriptorSets)
    ensures HintCounts(h) ==> r.descriptorTypeMap.Keys == s.descriptorTypeMap.Keys + TypesOf(h.descriptorPoolSizes)
    ensures HintCounts(h) ==> forall t :: Get(r.descriptorTypeMap, t) == Wrap32(Get(s.descriptorTypeMap, t) + SumOfType(h.descriptorPoolSizes, t))
    ensures !HintCounts(h) ==> r.externalNumDescriptorSets == s.externalNumDescriptorSets && r.descriptorTypeMap == s.descriptorTypeMap
  {
    var s' := s.(maxSlot := Max(s.maxSlot, h.maxSlot));
    if HintCounts(h) then
      AddPoolSizesKeys(s.descriptorTypeMap, h.descriptorPoolSizes);
      AddPoolSizesSumAll(s.descriptorTypeMap, h.descriptorPoolSizes);
      s'.(externalNumDescriptorSets := Wrap32(s.externalNumDescriptorSets + h.numDescriptorSets),
          descriptorTypeMap := AddPoolSizes(s.descriptorTypeMap, h.descriptorPoolSizes))
    else
      s'
  }

  /** `apply(const Descriptor&)`: the descriptor's count is added on every visit;
      the `descriptors` set only records that it was seen. */
  function ApplyDescriptor(s: Stats, d: Descriptor): (r: Stats)
    ensures r.descriptors == s.descriptors + {d.id}
    ensures r.descriptorTypeMap.Keys == s.descriptorTypeMap.Keys + {d.descriptorType}
    ensures Get(r.descriptorTypeMap, d.descriptorType) == Wrap32(Get(s.descriptorTypeMap, d.descriptorType) + d.numDescriptors)
    ensures forall t :: t != d.descriptorType ==> Get(r.descriptorTypeMap, t) == Get(s.descriptorTypeMap, t)
    ensures r.maxSlot == s.maxSlot && r.externalNumDescriptorSets == s.externalNumDescriptorSets
    ensures r.descriptorSets == s.descriptorSets
  {
    s.(descriptors := s.descriptors + {d.id},
       descriptorTypeMap := AddCount(s.descriptorTypeMap, d.descriptorType, d.numDescriptors))
  }

  /** Dispatch on the kind of object met. A Node or StateGroup carrying hints
      contributes only the hints; an Object's hints are never looked at. */
  function Visit(s: Stats, o: Obj): Stats
    decreases o, 1
  {
    match o
    case Object(_, children) => VisitAll(s, children)
    case Node(hints, children) =>
      if hints.Some? then ApplyHints(s, hints.value) else VisitAll(s, children)
    case StateGroup(hints, commands, children) =>
      if hints.Some? then ApplyHints(s, hints.value)
      else VisitAll(VisitCommands(s, commands), children)
    case Command(c) => VisitCommand(s, c)
    case Hints(h) => ApplyHints(s, h)
    case Set(ds) => VisitSet(s, ds)
    case Desc(d) => ApplyDescriptor(s, d)
  }

  /** `traverse(*this)`: the children in order. */
  function VisitAll(s: Stats, os: seq<Obj>): Stats
    decreases os, 0
  {
    if |os| == 0 then s else VisitAll(Visit(s, os[0]), os[1..])
  }

  /** `apply(const StateCommand&)`. */
  function VisitCommand(s: Stats, c: StateCommand): Stats
    decreases c, 1
  {
    VisitAll(s.(maxSlot := Max(s.maxSlot, c.slot)), c.children)
  }

  function VisitCommands(s: Stats, cs: seq<StateCommand>): Stats
    decreases cs, 0
  {
    if |cs| == 0 then s else VisitCommands(VisitCommand(s, cs[0]), cs[1..])
  }

  /** `apply(const DescriptorSet&)`: a set already seen is skipped entirely. */
  function VisitSet(s: Stats, ds: DescriptorSet): Stats
  {
    if ds.id in s.descriptorSets then s
    else VisitDescriptors(s.(descriptorSets := s.descriptorSets + {ds.id}), ds.descriptors)
  }

  function VisitDescriptors(s: Stats, ds: seq<Descriptor>): Stats
    decreases ds
  {
    if |ds| == 0 then s else VisitDescriptors(ApplyDescriptor(s, ds[0]), ds[1..])
  }

  // ---------------------------------------------------------------------------
  // Reference: what a walk reaches, defined without the accumulator

  /** What a walk meets: the slots it reads (state commands and hints), the
      descriptor-set and descriptor ids it records, the hinted set count it adds
      and, in visiting order, every (type, count) pair it adds to the type map. */
  datatype Reached = Reached(
    slots: set<int>,
    setIds: set<int>,
    descriptorIds: set<int>,
    externalSets: nat,
    contributions: seq<PoolSize>)

  const Nothing := Reached({}, {}, {}, 0, [])

  function Then(a: Reached, b: Reached): Reached
  {
    Reached(a.slots + b.slots, a.setIds + b.setIds, a.descriptorIds + b.descriptorIds,
            a.externalSets + b.externalSets, a.contributions + b.contributions)
  }

  /** A hint always offers its slot; its counts only when `HintCounts` holds. */
  ghost function HintReach(h: ResourceHints): Reached
  {
    if HintCounts(h) then Reached({h.maxSlot}, {}, {}, h.numDescriptorSets, h.descriptorPoolSizes)
    else Reached({h.maxSlot}, {}, {}, 0, [])
  }

  ghost function DescriptorIds(ds: seq<Descriptor>): set<int>
  {
    set i | 0 <= i < |ds| :: ds[i].id
  }

  ghost function DescriptorCounts(ds: seq<Descriptor>): seq<PoolSize>
  {
    if |ds| == 0 then [] else [PoolSize(ds[0].descriptorType, ds[0].numDescriptors)] + DescriptorCounts(ds[1..])
  }

  /** `seen` holds the descriptor-set ids recorded before this object is met. */
  ghost function Reach(seen: set<int>, o: Obj): Reached
    decreases o, 1
  {
    match o
    case Object(_, children) => ReachAll(seen, children)
    case Node(hints, children) =>
      if hints.Some? then HintReach(hints.value) else ReachAll(seen, children)
    case StateGroup(hints, commands, children) =>
      if hints.Some? then HintReach(hints.value)
      else
        var a := ReachCommands(seen, commands);
        Then(a, ReachAll(seen + a.setIds, children))
    case Command(c) => ReachCommand(seen, c)
    case Hints(h) => HintReach(h)
    case Set(ds) =>
      if ds.id in seen then Nothing
      else Reached({}, {ds.id}, DescriptorIds(ds.descriptors), 0, DescriptorCounts(ds.descriptors))
    case Desc(d) => Reached({}, {}, {d.id}, 0, [PoolSize(d.descriptorType, d.numDescriptors)])
  }

  ghost function ReachAll(seen: set<int>, os: seq<Obj>): Reached
    decreases os, 0
  {
    if |os| == 0 then Nothing
    else
      var a := Reach(seen, os[0]);
      Then(a, ReachAll(seen + a.setIds, os[1..]))
  }

  ghost function ReachCommand(seen: set<int>, c: StateCommand): Reached
    decreases c, 1
  {
    Then(Reached({c.slot}, {}, {}, 0, []), ReachAll(seen, c.children))
  }

  ghost function ReachCommands(seen: set<int>, cs: seq<StateCommand>): Reached
    decreases cs, 0
  {
    if |cs| == 0 then Nothing
    else
      var a := ReachCommand(seen, cs[0]);
      Then(a, ReachCommands(seen + a.setIds, cs[1..]))
  }

  /** `m` is the larger of `init` and every element of `xs`. */
  ghost predicate IsMaxOf(m: int, init: int, xs: set<int>)
  {
    && m >= init
    && (forall x :: x in xs ==> x <= m)
    && (m == init || m in xs)
  }

  /** The fold's outcome, given what the walk reaches from `s`. */
  ghost predicate Summarises(s: Stats, a: Reached, r: Stats)
  {
    && IsMaxOf(r.maxSlot, s.maxSlot, a.slots)
    && r.descriptorSets == s.descriptorSets + a.setIds
    && r.descriptors == s.descriptors + a.descriptorIds
    && r.externalNumDescriptorSets == Wrap32(s.externalNumDescriptorSets + a.externalSets)
    && r.descriptorTypeMap == AddPoolSizes(s.descriptorTypeMap, a.contributions)
  }

  /** Folding two lists one after the other is folding their concatenation. */
  lemma {:induction false} AddPoolSizesAppend(m: map<int, u32>, a: seq<PoolSize>, b: seq<PoolSize>)
    ensures AddPoolSizes(AddPoolSizes(m, a), b) == AddPoolSizes(m, a + b)
    decreases a
  {
    if |a| > 0 {
      assert (a + b)[0] == a[0];
      assert (a + b)[1..] == a[1..] + b;
      var m' := AddCount(m, a[0].descriptorType, a[0].descriptorCount);
      assert AddPoolSizes(m, a) == AddPoolSizes(m', a[1..]);
      assert AddPoolSizes(m, a + b) == AddPoolSizes(m', a[1..] + b);
      AddPoolSizesAppend(m', a[1..], b);
    } else {
      assert a + b == b;
    }
  }

  /** Summaries compose along a sequence of visits. */
  lemma SummarisesThen(s: Stats, a: Reached, m: Stats, b: Reached, r: Stats)
    requires Summarises(s, a, m) && Summarises(m, b, r)
    ensures Summarises(s, Then(a, b), r)
  {
    MaxOfThen(s.maxSlot, a.slots, m.maxSlot, b.slots, r.maxSlot);
    AddPoolSizesAppend(s.descriptorTypeMap, a.contributions, b.contributions);
    WrapAdd(s.externalNumDescriptorSets + a.externalSets, b.externalSets);
    assert s.externalNumDescriptorSets + a.externalSets + b.externalSets
        == s.externalNumDescriptorSets + Then(a, b).externalSets;
  }

  lemma MaxOfThen(init: int, xs: set<int>, m: int, ys: set<int>, r: int)
    requires IsMaxOf(m, init, xs) && IsMaxOf(r, m, ys)
    ensures IsMaxOf(r, init, xs + ys)
  {
  }

  lemma {:induction false} VisitDescriptorsReaches(s: Stats, ds: seq<Descriptor>)
    ensures Summarises(s, Reached({}, {}, DescriptorIds(ds), 0, DescriptorCounts(ds)), VisitDescriptors(s, ds))
    decreases ds
  {
    if |ds| > 0 {
      var s' := ApplyDescriptor(s, ds[0]);
      VisitDescriptorsReaches(s', ds[1..]);
      assert DescriptorIds(ds) == {ds[0].id} + DescriptorIds(ds[1..]) by {
        forall x | x in DescriptorIds(ds) ensures x in {ds[0].id} + DescriptorIds(ds[1..]) {
          var i :| 0 <= i < |ds| && ds[i].id == x;
          if i > 0 { assert ds[1..][i - 1] == ds[i]; }
        }
        forall x | x in DescriptorIds(ds[1..]) ensures x in DescriptorIds(ds) {
          var i :| 0 <= i < |ds[1..]| && ds[1..][i].id == x;
          assert ds[i + 1] == ds[1..][i];
        }
      }
      var head := [PoolSize(ds[0].descriptorType, ds[0].numDescriptors)];
      assert s'.descriptorTypeMap == AddPoolSizes(s.descriptorTypeMap, head);
      SummarisesThen(s, Reached({}, {}, {ds[0].id}, 0, head), s',
                     Reached({}, {}, DescriptorIds(ds[1..]), 0, DescriptorCounts(ds[1..])), VisitDescriptors(s, ds));
    } else {
      assert DescriptorIds(ds) == {};
    }
  }

  lemma HintReaches(s: Stats, h: ResourceHints)
    ensures Summarises(s, HintReach(h), ApplyHints(s, h))
  {
  }

  /** The fold computes exactly what the walk reaches: the largest slot met, the
      set ids and descriptor ids met, the hinted set counts and every (type, count)
      contribution, in order. */
  lemma {:induction false} VisitReaches(s: Stats, o: Obj)
    ensures Summarises(s, Reach(s.descriptorSets, o), Visit(s, o))
    decreases o, 1
  {
    match o
    case Object(_, children) => VisitAllReaches(s, children);
    case Node(hints, children) =>
      if hints.Some? { HintReaches(s, hints.value); } else { VisitAllReaches(s, children); }
    case StateGroup(hints, commands, children) =>
      if hints.Some? {
        HintReaches(s, hints.value);
      } else {
        var m := VisitCommands(s, commands);
        VisitCommandsReaches(s, commands);
        VisitAllReaches(m, children);
        SummarisesThen(s, ReachCommands(s.descriptorSets, commands), m,
                       ReachAll(m.descriptorSets, children), Visit(s, o));
      }
    case Command(c) => VisitCommandReaches(s, c);
    case Hints(h) => HintReaches(s, h);
    case Set(ds) =>
      if ds.id !in s.descriptorSets {
        VisitDescriptorsReaches(s.(descriptorSets := s.descriptorSets + {ds.id}), ds.descriptors);
      }
    case Desc(d) =>
  }

  lemma {:induction false} VisitAllReaches(s: Stats, os: seq<Obj>)
    ensures Summarises(s, ReachAll(s.descriptorSets, os), VisitAll(s, os))
    decreases os, 0
  {
    if |os| > 0 {
      var m := Visit(s, os[0]);
      VisitReaches(s, os[0]);
      VisitAllReaches(m, os[1..]);
      SummarisesThen(s, Reach(s.descriptorSets, os[0]), m, ReachAll(m.descriptorSets, os[1..]), VisitAll(s, os));
    }
  }

  lemma {:induction false} VisitCommandReaches(s: Stats, c: StateCommand)
    ensures Summarises(s, ReachCommand(s.descriptorSets, c), VisitCommand(s, c))
    decreases c, 1
  {
    var m := s.(maxSlot := Max(s.maxSlot, c.slot));
    VisitAllReaches(m, c.children);
    SummarisesThen(s, Reached({c.slot}, {}, {}, 0, []), m, ReachAll(s.descriptorSets, c.children), VisitCommand(s, c));
  }

  lemma {:induction false} VisitCommandsReaches(s: Stats, cs: seq<StateCommand>)
    ensures Summarises(s, ReachCommands(s.descriptorSets, cs), VisitCommands(s, cs))
    decreases cs, 0
  {
    if |cs| > 0 {
      var m := VisitCommand(s, cs[0]);
      VisitCommandReaches(s, cs[0]);
      VisitCommandsReaches(m, cs[1..]);
      SummarisesThen(s, ReachCommand(s.descriptorSets, cs[0]), m, ReachCommands(m.descriptorSets, cs[1..]), VisitCommands(s, cs));
    }
  }

  // ---------------------------------------------------------------------------
  // Properties of the walk

  /** A Node or StateGroup carrying hints counts exactly as the bare hints would:
      none of its state commands or children matter. */
  lemma HintedNodesContributeOnlyTheHint(s: Stats, h: ResourceHints, commands: seq<StateCommand>, children: seq<Obj>)
    ensures Visit(s, Node(Some(h), children)) == Visit(s, Hints(h))
    ensures Visit(s, StateGroup(Some(h), commands, children)) == Visit(s, Hints(h))
  {
  }

  /** A plain object is walked whether or not it carries hints. */
  lemma ObjectsIgnoreHints(s: Stats, h: ResourceHints, children: seq<Obj>)
    ensures Visit(s, Object(Some(h), children)) == Visit(s, Object(None, children)) == VisitAll(s, children)
  {
  }

  /** A descriptor set met again changes nothing and is not entered. */
  lemma RepeatedSetIsIgnored(s: Stats, ds: DescriptorSet)
    requires ds.id in s.descriptorSets
    ensures Visit(s, Set(ds)) == s
  {
  }

  /** Meeting one set twice records its id once and counts its descriptors once. */
  lemma {:induction false} SharedSetCountedOnce(s: Stats, ds: DescriptorSet)
    ensures var once := Visit(s, Set(ds));
      && Visit(once, Set(ds)) == once
      && once.descriptorSets == s.descriptorSets + {ds.id}
  {
    var once := Visit(s, Set(ds));
    VisitReaches(s, Set(ds));
    assert ds.id in once.descriptorSets;
  }

  /** A descriptor met twice is counted twice, while its id is recorded once. */
  lemma {:induction false} DescriptorCountedOnEveryVisit(s: Stats, d: Descriptor)
    ensures var twice := Visit(Visit(s, Desc(d)), Desc(d));
      && Get(twice.descriptorTypeMap, d.descriptorType)
         == Wrap32(Get(s.descriptorTypeMap, d.descriptorType) + 2 * d.numDescriptors)
      && twice.descriptors == s.descriptors + {d.id}
  {
    var once := Visit(s, Desc(d));
    WrapAdd(Get(s.descriptorTypeMap, d.descriptorType) + d.numDescriptors, d.numDescriptors);
  }

  /** Meeting a new set holding one descriptor records the set, then applies the descriptor. */
  lemma NewSingletonSet(s: Stats, id: int, d: Descriptor)
    requires id !in s.descriptorSets
    ensures Visit(s, Set(DescriptorSet(id, [d]))) == ApplyDescriptor(s.(descriptorSets := s.descriptorSets + {id}), d)
  {
    var t := s.(descriptorSets := s.descriptorSets + {id});
    assert [d][1..] == [];
    assert VisitDescriptors(t, [d]) == VisitDescriptors(ApplyDescriptor(t, d), []);
  }

  /** A descriptor shared by two different sets, both met for the first time, is
      counted once through each. */
  lemma {:induction false} DescriptorSharedBySetsCountedTwice(s: Stats, d: Descriptor, set1: int, set2: int)
    requires set1 != set2 && set1 !in s.descriptorSets && set2 !in s.descriptorSets
    ensures var r := VisitAll(s, [Set(DescriptorSet(set1, [d])), Set(DescriptorSet(set2, [d]))]);
      && Get(r.descriptorTypeMap, d.descriptorType)
         == Wrap32(Get(s.descriptorTypeMap, d.descriptorType) + 2 * d.numDescriptors)
      && r.descriptorSets == s.descriptorSets + {set1, set2}
      && r.descriptors == s.descriptors + {d.id}
  {
    var os := [Set(DescriptorSet(set1, [d])), Set(DescriptorSet(set2, [d]))];
    NewSingletonSet(s, set1, d);
    var once := Visit(s, os[0]);
    NewSingletonSet(once, set2, d);
    var twice := Visit(once, os[1]);
    assert os[1..][1..] == [];
    assert VisitAll(s, os) == VisitAll(once, os[1..]) == VisitAll(twice, []);
    WrapAdd(Get(s.descriptorTypeMap, d.descriptorType) + d.numDescriptors, d.numDescriptors);
  }

  /** The `descriptors` set is written but never read: whatever it holds on entry,
      every other accumulator ends the same. */
  lemma {:induction false} DescriptorIdsNeverAffectCounts(s: Stats, o: Obj, ids: set<int>)
    ensures var r := Visit(s, o); var r' := Visit(s.(descriptors := ids), o);
      && r'.maxSlot == r.maxSlot
      && r'.externalNumDescriptorSets == r.externalNumDescriptorSets
      && r'.descriptorSets == r.descriptorSets
      && r'.descriptorTypeMap == r.descriptorTypeMap
  {
    VisitReaches(s, o);
    VisitReaches(s.(descriptors := ids), o);
  }

  /** The largest slot never decreases, and ends at the largest slot met. */
  lemma {:induction false} MaxSlotIsLargestMet(s: Stats, o: Obj)
    ensures Visit(s, o).maxSlot >= s.maxSlot
    ensures forall x :: x in Reach(s.descriptorSets, o).slots ==> x <= Visit(s, o).maxSlot
    ensures Visit(s, o).maxSlot == s.maxSlot || Visit(s, o).maxSlot in Reach(s.descriptorSets, o).slots
  {
    VisitReaches(s, o);
  }

  /** Each type's entry after the walk is its entry before plus every count of that
      type the walk reaches, modulo 2^32. */
  lemma {:induction false} TypeCountIsSumReached(s: Stats, o: Obj, t: int)
    ensures Get(Visit(s, o).descriptorTypeMap, t)
         == Wrap32(Get(s.descriptorTypeMap, t) + SumOfType(Reach(s.descriptorSets, o).contributions, t))
  {
    VisitReaches(s, o);
    SummarisedCount(s, Reach(s.descriptorSets, o), Visit(s, o), t);
  }

  lemma {:induction false} SummarisedCount(s: Stats, a: Reached, r: Stats, t: int)
    requires Summarises(s, a, r)
    ensures Get(r.descriptorTypeMap, t) == Wrap32(Get(s.descriptorTypeMap, t) + SumOfType(a.contributions, t))
  {
    AddPoolSizesSum(s.descriptorTypeMap, a.contributions, t);
  }

  /** The walk adds a key for exactly the types it reaches. */
  lemma {:induction false} TypesReachedBecomeKeys(s: Stats, o: Obj)
    ensures Visit(s, o).descriptorTypeMap.Keys
         == s.descriptorTypeMap.Keys + TypesOf(Reach(s.descriptorSets, o).contributions)
  {
    var a := Reach(s.descriptorSets, o);
    VisitReaches(s, o);
    assert Visit(s, o).descriptorTypeMap == AddPoolSizes(s.descriptorTypeMap, a.contributions);
    AddPoolSizesKeys(s.descriptorTypeMap, a.contributions);
  }

  // ---------------------------------------------------------------------------
  // Results

  /** `computeNumDescriptorSets()`: hinted sets plus distinct sets met, as uint32. */
  function ComputeNumDescriptorSets(s: Stats): (r: u32)
    ensures r == Wrap32(s.externalNumDescriptorSets + |s.descriptorSets|)
  {
    WrapAdd(|s.descriptorSets|, s.externalNumDescriptorSets);
    Wrap32(s.externalNumDescriptorSets + Wrap32(|s.descriptorSets|))
  }

  lemma NonEmptyHasElement(xs: set<int>)
    requires xs != {}
    ensures exists x :: x in xs
  {
    if forall x :: x !in xs {
      assert false;
    }
  }

  /** The least element of a finite, non-empty set of types. */
  method MinType(xs: set<int>) returns (k: int)
    requires xs != {}
    ensures k in xs && forall x :: x in xs ==> k <= x
  {
    NonEmptyHasElement(xs);
    k :| k in xs;
    var rest := xs - {k};
    while rest != {}
      invariant rest <= xs && k in xs
      invariant forall y :: y in xs && y !in rest ==> k <= y
      decreases rest
    {
      NonEmptyHasElement(rest);
      var x :| x in rest;
      if x < k { k := x; }
      rest := rest - {x};
    }
  }

  /** `computeDescriptorPoolSizes()`: one entry per key of the type map, in the
      map's ascending key order, carrying that key's count. */
  method ComputeDescriptorPoolSizes(s: Stats) returns (poolSizes: seq<PoolSize>)
    ensures forall i, j :: 0 <= i < j < |poolSizes| ==> poolSizes[i].descriptorType < poolSizes[j].descriptorType
    ensures forall i :: 0 <= i < |poolSizes| ==>
      poolSizes[i].descriptorType in s.descriptorTypeMap
      && poolSizes[i].descriptorCount == s.descriptorTypeMap[poolSizes[i].descriptorType]
    ensures TypesOf(poolSizes) == s.descriptorTypeMap.Keys
  {
    var m := s.descriptorTypeMap;
    var remaining := m.Keys;
    poolSizes := [];
    while remaining != {}
      invariant remaining <= m.Keys
      invariant TypesOf(poolSizes) == m.Keys - remaining
      invariant forall i, j :: 0 <= i < j < |poolSizes| ==> poolSizes[i].descriptorType < poolSizes[j].descriptorType
      invariant forall i :: 0 <= i < |poolSizes| ==>
        poolSizes[i].descriptorType in m && poolSizes[i].descriptorCount == m[poolSizes[i].descriptorType]
      invariant forall i, t :: 0 <= i < |poolSizes| && t in remaining ==> poolSizes[i].descriptorType < t
      decreases remaining
    {
      var t := MinType(remaining);
      var next := poolSizes + [PoolSize(t, m[t])];
      assert TypesOf(next) == TypesOf(poolSizes) + {t} by {
        assert forall i :: 0 <= i < |poolSizes| ==> next[i] == poolSizes[i];
        assert next[|poolSizes|] == PoolSize(t, m[t]);
      }
      poolSizes := next;
      remaining := remaining - {t};
    }
  }

  /** Entries copied from a map built from nothing by folding `c` carry each
      type's total in `c`. */
  lemma EntriesCarryTotals(c: seq<PoolSize>, poolSizes: seq<PoolSize>)
    requires forall i :: 0 <= i < |poolSizes| ==>
      poolSizes[i].descriptorType in AddPoolSizes(map[], c)
      && poolSizes[i].descriptorCount == AddPoolSizes(map[], c)[poolSizes[i].descriptorType]
    ensures forall i :: 0 <= i < |poolSizes| ==>
      poolSizes[i].descriptorCount == Wrap32(SumOfType(c, poolSizes[i].descriptorType))
  {
    forall i | 0 <= i < |poolSizes|
      ensures poolSizes[i].descriptorCount == Wrap32(SumOfType(c, poolSizes[i].descriptorType))
    {
      AddPoolSizesSum(map[], c, poolSizes[i].descriptorType);
    }
  }

  /** A whole accounting run from fresh accumulators: the three outputs in terms of
      what the walk reaches. */
  method CollectDescriptorStats(root: Obj) returns (maxSlot: u32, numDescriptorSets: u32, poolSizes: seq<PoolSize>)
    ensures IsMaxOf(maxSlot, 0, Reach({}, root).slots)
    ensures numDescriptorSets == Wrap32(Reach({}, root).externalSets + |Reach({}, root).setIds|)
    ensures TypesOf(poolSizes) == TypesOf(Reach({}, root).contributions)
    ensures forall i :: 0 <= i < |poolSizes| ==>
      poolSizes[i].descriptorCount == Wrap32(SumOfType(Reach({}, root).contributions, poolSizes[i].descriptorType))
    ensures forall i, j :: 0 <= i < j < |poolSizes| ==> poolSizes[i].descriptorType < poolSizes[j].descriptorType
  {
    ghost var reached := Reach({}, root);
    var s := Visit(Fresh(), root);
    FreshRunReaches(root);
    WrapAdd(reached.externalSets, |reached.setIds|);
    maxSlot := s.maxSlot;
    numDescriptorSets := ComputeNumDescriptorSets(s);
    poolSizes := ComputeDescriptorPoolSizes(s);
    EntriesCarryTotals(reached.contributions, poolSizes);
  }

  /** `VisitReaches` specialised to fresh accumulators. */
  lemma {:induction false} FreshRunReaches(root: Obj)
    ensures IsMaxOf(Visit(Fresh(), root).maxSlot, 0, Reach({}, root).slots)
    ensures Visit(Fresh(), root).descriptorSets == Reach({}, root).setIds
    ensures Visit(Fresh(), root).externalNumDescriptorSets == Wrap32(Reach({}, root).externalSets)
    ensures Visit(Fresh(), root).descriptorTypeMap == AddPoolSizes(map[], Reach({}, root).contributions)
    ensures Visit(Fresh(), root).descriptorTypeMap.Keys == TypesOf(Reach({}, root).contributions)
  {
    VisitReaches(Fresh(), root);
    AddPoolSizesKeys(map[], Reach({}, root).contributions);
  }
}
