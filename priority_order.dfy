/** The order in which the pass lists the services carrying a tag: every tag
    instance contributes one entry, entries are grouped into buckets by
    priority (a missing priority counts as 0), and the buckets are
    concatenated from the highest priority down. This module defines that
    order as a specification and proves what it promises: one entry per tag
    instance, non-increasing priority, discovery order kept among equal
    priorities, and that these properties determine the order uniquely. */
module PriorityOrder {
  import opened Container

  /** One tag instance: the service that carries it and its priority. */
  datatype Entry = Entry(service: ServiceId, priority: int)

  /** The priority of a tag instance, 0 when the attribute is missing. */
  function PriorityOf(attributes: TagAttributes): int
  {
    match attributes.priority
    case Some(p) => p
    case None => 0
  }

  /** The entries of one service's tag instances, in order. */
  function Expand(id: ServiceId, tags: seq<TagAttributes>): seq<Entry>
  {
    seq(|tags|, k requires 0 <= k < |tags| => Entry(id, PriorityOf(tags[k])))
  }

  /** All entries in discovery order: services as the tag index lists them,
      then the tag instances of each service in order. */
  function Entries(tagged: seq<TaggedService>): seq<Entry>
  {
    if tagged == [] then []
    else Entries(tagged[..|tagged| - 1]) + Expand(tagged[|tagged| - 1].id, tagged[|tagged| - 1].tags)
  }

  /** The number of (service, tag instance) pairs. */
  function TagInstanceCount(tagged: seq<TaggedService>): nat
  {
    if tagged == [] then 0
    else TagInstanceCount(tagged[..|tagged| - 1]) + |tagged[|tagged| - 1].tags|
  }

  /** The number of tag instances that service `id` carries. */
  function InstancesOf(tagged: seq<TaggedService>, id: ServiceId): nat
  {
    if tagged == [] then 0
    else InstancesOf(tagged[..|tagged| - 1], id)
         + (if tagged[|tagged| - 1].id == id then |tagged[|tagged| - 1].tags| else 0)
  }

  function Ids(s: seq<Entry>): seq<ServiceId>
  {
    seq(|s|, k requires 0 <= k < |s| => s[k].service)
  }

  /** The entries of priority `p`, in their order in `s` (one bucket). */
  function Filter(s: seq<Entry>, p: int): seq<Entry>
  {
    if s == [] then []
    else (if s[0].priority == p then [s[0]] else []) + Filter(s[1..], p)
  }

  function Priorities(s: seq<Entry>): set<int>
  {
    set e | e in s :: e.priority
  }

  ghost predicate NonIncreasing(s: seq<Entry>)
  {
    forall i, j :: 0 <= i < j < |s| ==> s[i].priority >= s[j].priority
  }

  /** The largest key of a non-empty set of bucket keys. */
  ghost function Highest(keys: set<int>): (m: int)
    requires keys != {}
    ensures m in keys
    ensures forall k :: k in keys ==> k <= m
    decreases |keys|
  {
    NonEmptyHasKey(keys);
    var k :| k in keys;
    if keys == {k} then k
    else
      var rest := Highest(keys - {k});
      assert forall j :: j in keys ==> j == k || j in keys - {k};
      if rest < k then k else rest
  }

  lemma NonEmptyHasKey(keys: set<int>)
    requires keys != {}
    ensures exists k :: k in keys
  {
    if forall k :: k !in keys {
      assert false;
    }
  }

  /** The buckets of `es` whose keys are in `keys`, concatenated in
      descending key order. */
  ghost function MergeBuckets(es: seq<Entry>, keys: set<int>): seq<Entry>
    decreases |keys|
  {
    if keys == {} then []
    else
      var top := Highest(keys);
      Filter(es, top) + MergeBuckets(es, keys - {top})
  }

  /** The order of the services carrying a tag. */
  ghost function SortedByPriority(es: seq<Entry>): seq<Entry>
  {
    MergeBuckets(es, Priorities(es))
  }

  /** Taking the bucket of the highest key first, then the rest. */
  lemma MergeBucketsHighestFirst(es: seq<Entry>, keys: set<int>, top: int)
    requires top in keys
    requires forall k :: k in keys ==> k <= top
    ensures Ids(MergeBuckets(es, keys)) == Ids(Filter(es, top)) + Ids(MergeBuckets(es, keys - {top}))
  {
    assert top == Highest(keys);
    IdsConcat(Filter(es, top), MergeBuckets(es, keys - {top}));
  }

  // ---------------------------------------------------------------------
  // Facts about Filter and Ids

  lemma {:induction false} FilterConcat(a: seq<Entry>, b: seq<Entry>, p: int)
    ensures Filter(a + b, p) == Filter(a, p) + Filter(b, p)
    decreases |a|
  {
    if a == [] {
      assert a + b == b;
    } else {
      assert (a + b)[0] == a[0];
      assert (a + b)[1..] == a[1..] + b;
      FilterConcat(a[1..], b, p);
    }
  }

  lemma {:induction false} FilterFilter(s: seq<Entry>, p: int, q: int)
    ensures Filter(Filter(s, p), q) == if p == q then Filter(s, p) else []
    decreases |s|
  {
    if s != [] {
      FilterFilter(s[1..], p, q);
      var head := if s[0].priority == p then [s[0]] else [];
      FilterConcat(head, Filter(s[1..], p), q);
    }
  }

  lemma {:induction false} FilterEmptyWhenAbsent(s: seq<Entry>, p: int)
    requires p !in Priorities(s)
    ensures Filter(s, p) == []
    decreases |s|
  {
    if s != [] {
      assert s[0] in s;
      assert Priorities(s[1..]) <= Priorities(s) by {
        forall e | e in s[1..] ensures e in s { }
      }
      FilterEmptyWhenAbsent(s[1..], p);
    }
  }

  lemma {:induction false} FilterPriorities(s: seq<Entry>, p: int)
    ensures forall e :: e in Filter(s, p) ==> e in s && e.priority == p
    decreases |s|
  {
    if s != [] {
      FilterPriorities(s[1..], p);
    }
  }

  /** A non-empty bucket starts with the first entry of that priority. */
  lemma FilterHead(s: seq<Entry>)
    requires s != []
    ensures Filter(s, s[0].priority) == [s[0]] + Filter(s[1..], s[0].priority)
  {
  }

  lemma IdsConcat(a: seq<Entry>, b: seq<Entry>)
    ensures Ids(a + b) == Ids(a) + Ids(b)
  {
  }

  lemma PrioritiesSnoc(s: seq<Entry>, e: Entry)
    ensures Priorities(s + [e]) == Priorities(s) + {e.priority}
  {
    forall x | x in s + [e] ensures x in s || x == e { }
    assert e in s + [e];
    forall x | x in s ensures x in s + [e] { }
  }

  /** Appending an entry appends its service id to its own bucket only. */
  lemma IdsFilterSnoc(s: seq<Entry>, e: Entry, q: int)
    ensures Ids(Filter(s + [e], q)) == Ids(Filter(s, q)) + (if q == e.priority then [e.service] else [])
  {
    FilterConcat(s, [e], q);
    IdsConcat(Filter(s, q), Filter([e], q));
  }

  // ---------------------------------------------------------------------
  // The order: every entry of MergeBuckets has a priority among the keys

  lemma {:induction false} MergeBucketsPriorities(es: seq<Entry>, keys: set<int>)
    ensures forall e :: e in MergeBuckets(es, keys) ==> e.priority in keys
    decreases |keys|
  {
    if keys != {} {
      var top := Highest(keys);
      MergeBucketsPriorities(es, keys - {top});
      FilterPriorities(es, top);
    }
  }

  lemma {:induction false} MergeBucketsNonIncreasing(es: seq<Entry>, keys: set<int>)
    ensures NonIncreasing(MergeBuckets(es, keys))
    decreases |keys|
  {
    if keys != {} {
      var top := Highest(keys);
      var head, tail := Filter(es, top), MergeBuckets(es, keys - {top});
      MergeBucketsNonIncreasing(es, keys - {top});
      MergeBucketsPriorities(es, keys - {top});
      FilterPriorities(es, top);
      var s := head + tail;
      forall i, j | 0 <= i < j < |s| ensures s[i].priority >= s[j].priority {
        if j < |head| {
          assert s[i] in head && s[j] in head;
        } else if i < |head| {
          assert s[i] in head;
          assert s[j] == tail[j - |head|] && tail[j - |head|] in tail;
        } else {
          assert s[i] == tail[i - |head|] && s[j] == tail[j - |head|];
        }
      }
    }
  }

  lemma {:induction false} FilterOfMergeBuckets(es: seq<Entry>, keys: set<int>, p: int)
    ensures Filter(MergeBuckets(es, keys), p) == if p in keys then Filter(es, p) else []
    decreases |keys|
  {
    if keys != {} {
      var top := Highest(keys);
      FilterOfMergeBuckets(es, keys - {top}, p);
      FilterConcat(Filter(es, top), MergeBuckets(es, keys - {top}), p);
      FilterFilter(es, top, p);
    }
  }

  /** How often an entry occurs is decided by its own bucket. */
  lemma {:induction false} MultisetFilter(s: seq<Entry>, e: Entry)
    ensures multiset(s)[e] == multiset(Filter(s, e.priority))[e]
    decreases |s|
  {
    if s != [] {
      MultisetFilter(s[1..], e);
      assert s == [s[0]] + s[1..];
    }
  }

  /** Two sequences with the same buckets are permutations of each other. */
  lemma SameBucketsSameMultiset(s: seq<Entry>, t: seq<Entry>)
    requires forall p :: Filter(s, p) == Filter(t, p)
    ensures multiset(s) == multiset(t)
  {
    forall e ensures multiset(s)[e] == multiset(t)[e] {
      MultisetFilter(s, e);
      MultisetFilter(t, e);
    }
  }

  // ---------------------------------------------------------------------
  // What the order promises

  /** Priorities never increase along the result. */
  lemma SortedByPriorityIsNonIncreasing(es: seq<Entry>)
    ensures NonIncreasing(SortedByPriority(es))
  {
    MergeBucketsNonIncreasing(es, Priorities(es));
  }

  /** Stability: the entries of each priority keep their discovery order. */
  lemma SortedByPriorityIsStable(es: seq<Entry>, p: int)
    ensures Filter(SortedByPriority(es), p) == Filter(es, p)
  {
    FilterOfMergeBuckets(es, Priorities(es), p);
    if p !in Priorities(es) {
      FilterEmptyWhenAbsent(es, p);
    }
  }

  /** Nothing is lost and nothing is added: one result entry per entry. */
  lemma SortedByPriorityIsPermutation(es: seq<Entry>)
    ensures multiset(SortedByPriority(es)) == multiset(es)
    ensures |SortedByPriority(es)| == |es|
  {
    forall p ensures Filter(SortedByPriority(es), p) == Filter(es, p) {
      SortedByPriorityIsStable(es, p);
    }
    SameBucketsSameMultiset(SortedByPriority(es), es);
    assert |multiset(SortedByPriority(es))| == |multiset(es)|;
  }

  /** Non-increasing priority together with stable buckets fixes the order:
      any arrangement with both properties is SortedByPriority. */
  lemma SortedByPriorityIsUnique(es: seq<Entry>, s: seq<Entry>)
    requires NonIncreasing(s)
    requires forall p :: Filter(s, p) == Filter(es, p)
    ensures s == SortedByPriority(es)
  {
    SortedByPriorityIsNonIncreasing(es);
    forall p ensures Filter(s, p) == Filter(SortedByPriority(es), p) {
      SortedByPriorityIsStable(es, p);
    }
    SortedBucketsDetermine(s, SortedByPriority(es));
  }

  lemma {:induction false} SortedBucketsDetermine(s: seq<Entry>, t: seq<Entry>)
    requires NonIncreasing(s) && NonIncreasing(t)
    requires forall p :: Filter(s, p) == Filter(t, p)
    ensures s == t
    decreases |s| + |t|
  {
    if s == [] && t == [] {
    } else if s == [] {
      FilterHead(t);
      assert false;
    } else if t == [] {
      FilterHead(s);
      assert false;
    } else {
      SameHead(s, t);
      NonIncreasingTail(s);
      NonIncreasingTail(t);
      SameTailBuckets(s, t);
      SortedBucketsDetermine(s[1..], t[1..]);
      assert s == [s[0]] + s[1..];
      assert t == [t[0]] + t[1..];
    }
  }

  /** In a non-increasing sequence, the first entry has the highest priority
      of any non-empty bucket. */
  lemma HeadBoundsBuckets(s: seq<Entry>, p: int)
    requires NonIncreasing(s)
    requires Filter(s, p) != []
    ensures s != [] && s[0].priority >= p
  {
    FilterPriorities(s, p);
  }

  lemma SameHead(s: seq<Entry>, t: seq<Entry>)
    requires s != [] && t != []
    requires NonIncreasing(s) && NonIncreasing(t)
    requires forall p :: Filter(s, p) == Filter(t, p)
    ensures s[0] == t[0]
  {
    FilterHead(s);
    FilterHead(t);
    HeadBoundsBuckets(t, s[0].priority);
    HeadBoundsBuckets(s, t[0].priority);
    assert Filter(s, s[0].priority)[0] == s[0];
    assert Filter(t, t[0].priority)[0] == t[0];
  }

  lemma NonIncreasingTail(s: seq<Entry>)
    requires s != [] && NonIncreasing(s)
    ensures NonIncreasing(s[1..])
  {
  }

  lemma SameTailBuckets(s: seq<Entry>, t: seq<Entry>)
    requires s != [] && t != [] && s[0] == t[0]
    requires forall p :: Filter(s, p) == Filter(t, p)
    ensures forall p :: Filter(s[1..], p) == Filter(t[1..], p)
  {
    forall p ensures Filter(s[1..], p) == Filter(t[1..], p) {
      assert Filter(s, p) == Filter(t, p);
      if p == s[0].priority {
        assert Filter(s[1..], p) == Filter(s, p)[1..];
        assert Filter(t[1..], p) == Filter(t, p)[1..];
      } else {
        assert Filter(s, p) == Filter(s[1..], p);
        assert Filter(t, p) == Filter(t[1..], p);
      }
    }
  }

  /** A tag nobody carries yields the empty list. */
  lemma SortedByPriorityOfNothing(tagged: seq<TaggedService>)
    requires TagInstanceCount(tagged) == 0
    ensures SortedByPriority(Entries(tagged)) == []
  {
    EntriesCount(tagged);
    assert Priorities(Entries(tagged)) == {};
  }

  // ---------------------------------------------------------------------
  // From entries back to the tagged services

  lemma {:induction false} EntriesCount(tagged: seq<TaggedService>)
    ensures |Entries(tagged)| == TagInstanceCount(tagged)
    decreases |tagged|
  {
    if tagged != [] {
      EntriesCount(tagged[..|tagged| - 1]);
    }
  }

  lemma {:induction false} MultisetIdsOfEntries(tagged: seq<TaggedService>, id: ServiceId)
    ensures multiset(Ids(Entries(tagged)))[id] == InstancesOf(tagged, id)
    decreases |tagged|
  {
    if tagged != [] {
      var last := tagged[|tagged| - 1];
      var before := Entries(tagged[..|tagged| - 1]);
      MultisetIdsOfEntries(tagged[..|tagged| - 1], id);
      IdsConcat(before, Expand(last.id, last.tags));
      MultisetOfExpand(last.id, last.tags, id);
    }
  }

  lemma {:induction false} MultisetOfExpand(owner: ServiceId, tags: seq<TagAttributes>, id: ServiceId)
    ensures multiset(Ids(Expand(owner, tags)))[id] == if owner == id then |tags| else 0
    decreases |tags|
  {
    if tags != [] {
      var init := tags[..|tags| - 1];
      MultisetOfExpand(owner, init, id);
      assert Ids(Expand(owner, tags)) == Ids(Expand(owner, init)) + [owner];
    }
  }

  /** Reordering entries reorders their service ids the same way. */
  lemma {:induction false} PermutationIds(s: seq<Entry>, t: seq<Entry>)
    requires multiset(s) == multiset(t)
    ensures multiset(Ids(s)) == multiset(Ids(t))
    decreases |s|
  {
    if s == [] {
      assert |t| == |multiset(t)| == 0;
    } else {
      assert s[0] in multiset(t);
      var k :| 0 <= k < |t| && t[k] == s[0];
      var rest := t[..k] + t[k + 1..];
      assert t == t[..k] + [t[k]] + t[k + 1..];
      assert s == [s[0]] + s[1..];
      assert multiset(s) == multiset{s[0]} + multiset(s[1..]);
      assert multiset(t) == multiset(t[..k]) + multiset{t[k]} + multiset(t[k + 1..]);
      assert multiset(rest) == multiset(t[..k]) + multiset(t[k + 1..]);
      assert multiset(s[1..]) == multiset(s) - multiset{s[0]};
      assert multiset(rest) == multiset(t) - multiset{t[k]};
      PermutationIds(s[1..], rest);
      IdsConcat(t[..k] + [t[k]], t[k + 1..]);
      IdsConcat(t[..k], [t[k]]);
      IdsConcat(t[..k], t[k + 1..]);
      IdsConcat([s[0]], s[1..]);
    }
  }

  /** The listed services: exactly one per (service, tag instance) pair, so a
      service tagged twice is listed twice. */
  lemma SortedServicesCountInstances(tagged: seq<TaggedService>, id: ServiceId)
    ensures |Ids(SortedByPriority(Entries(tagged)))| == TagInstanceCount(tagged)
    ensures multiset(Ids(SortedByPriority(Entries(tagged))))[id] == InstancesOf(tagged, id)
  {
    var es := Entries(tagged);
    SortedByPriorityIsPermutation(es);
    EntriesCount(tagged);
    PermutationIds(SortedByPriority(es), es);
    MultisetIdsOfEntries(tagged, id);
  }
}
