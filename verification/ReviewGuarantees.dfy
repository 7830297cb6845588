/** What the review scheduler promises over whole runs. */
module ReviewGuarantees {
  import opened Options
  import opened Captures
  import opened RoundRobin
  import opened ReviewFrontier

  // ------------------------------------------------------------------
  // Which captures are scheduled, and which follow a representative.
  // ------------------------------------------------------------------

  /** First occurrences of the observations not marked beforehand. */
  function Fresh(items: seq<Item>, seen: set<Key>): seq<Item> {
    if items == [] then []
    else
      var prev, last := Fresh(items[..|items| - 1], seen), items[|items| - 1];
      if last.key in seen || last.key in KeysOf(prev) then prev else prev + [last]
  }

  function FirstWith(items: seq<Item>, content: ContentKey): Option<Item> {
    if items == [] then None
    else
      var prev := FirstWith(items[..|items| - 1], content);
      if prev.Some? then prev
      else if items[|items| - 1].content == Some(content) then Some(items[|items| - 1]) else None
  }

  function RepresentativeOf(before: seq<Item>, x: Item, groupIdentical: bool): Option<Item> {
    if groupIdentical && x.content.Some? then FirstWith(before, x.content.value) else None
  }

  /** The captures that have no representative before them. */
  function Leaders(items: seq<Item>, groupIdentical: bool): seq<Item> {
    if items == [] then []
    else
      var front, last := items[..|items| - 1], items[|items| - 1];
      Leaders(front, groupIdentical) + if RepresentativeOf(front, last, groupIdentical).None? then [last] else []
  }

  /** The captures whose representative has this key, in order. */
  function FollowersOf(items: seq<Item>, key: Key, groupIdentical: bool): seq<Item> {
    if items == [] then []
    else
      var front, last := items[..|items| - 1], items[|items| - 1];
      var rep := RepresentativeOf(front, last, groupIdentical);
      FollowersOf(front, key, groupIdentical) + if rep.Some? && rep.value.key == key then [last] else []
  }

  lemma {:induction false} FirstWithIsFirst(items: seq<Item>, content: ContentKey)
    ensures var r := FirstWith(items, content);
            && (r.Some? ==> r.value in items && r.value.content == Some(content))
            && (r.None? ==> forall x :: x in items ==> x.content != Some(content))
  {
    if items != [] { FirstWithIsFirst(items[..|items| - 1], content); }
  }

  ghost predicate DistinctKeys(items: seq<Item>) {
    forall i, j :: 0 <= i < j < |items| ==> items[i].key != items[j].key
  }

  lemma {:induction false} FreshFacts(items: seq<Item>, seen: set<Key>)
    ensures DistinctKeys(Fresh(items, seen))
    ensures KeysOf(Fresh(items, seen)) == KeysOf(items) - seen
    ensures forall x :: x in Fresh(items, seen) ==> x in items
  {
    if items != [] {
      var front, last := items[..|items| - 1], items[|items| - 1];
      FreshFacts(front, seen);
      var prev := Fresh(front, seen);
      forall i | 0 <= i < |prev| ensures prev[i].key in KeysOf(prev) {}
      assert forall x :: x in items <==> x in front || x == last;
      assert KeysOf(items) == KeysOf(front) + {last.key};
      assert KeysOf(prev + [last]) == KeysOf(prev) + {last.key};
    }
  }

  lemma {:induction false} LeadersAreItems(items: seq<Item>, groupIdentical: bool)
    ensures forall x :: x in Leaders(items, groupIdentical) ==> x in items
    ensures DistinctKeys(items) ==> DistinctKeys(Leaders(items, groupIdentical))
  {
    if items != [] {
      var front := items[..|items| - 1];
      LeadersAreItems(front, groupIdentical);
      var ls := Leaders(front, groupIdentical);
      forall i | 0 <= i < |ls| ensures exists k :: 0 <= k < |front| && ls[i] == items[k] {
        assert ls[i] in front;
      }
    }
  }

  /** The bookkeeping of the filling loop, in terms of the captures it let in. */
  ghost predicate Agrees(b: Build, d: seq<Item>, groupIdentical: bool) {
    && b.queued == KeysOf(d)
    && (forall c :: c in b.representatives <==> groupIdentical && FirstWith(d, c).Some?)
    && (forall c :: c in b.representatives ==> b.representatives[c] == FirstWith(d, c).value.key)
    && (forall k :: Members(b.followers, k) == FollowersOf(d, k, groupIdentical))
  }

  lemma {:induction false} Appended(d: seq<Item>, x: Item, groupIdentical: bool)
    ensures KeysOf(d + [x]) == KeysOf(d) + {x.key}
    ensures forall c ::
              FirstWith(d + [x], c)
              == if FirstWith(d, c).Some? then FirstWith(d, c) else if x.content == Some(c) then Some(x) else None
    ensures var rep := RepresentativeOf(d, x, groupIdentical);
            forall k ::
              FollowersOf(d + [x], k, groupIdentical)
              == FollowersOf(d, k, groupIdentical) + if rep.Some? && rep.value.key == k then [x] else []
    ensures Leaders(d + [x], groupIdentical)
         == Leaders(d, groupIdentical) + if RepresentativeOf(d, x, groupIdentical).None? then [x] else []
  {
    var d' := d + [x];
    assert d'[..|d'| - 1] == d && d'[|d'| - 1] == x;
    assert forall y :: y in d' <==> y in d || y == x;
  }

  lemma AdmitAgrees(b: Build, d: seq<Item>, x: Item, seen: set<Key>, groupIdentical: bool)
    requires |b.tiers| == TIERS && x.tier < TIERS && Agrees(b, d, groupIdentical)
    requires x.key !in seen && x.key !in b.queued
    ensures Agrees(Admit(b, x, seen, groupIdentical), d + [x], groupIdentical)
  {
    hide KeysOf, FirstWith, FollowersOf, Leaders, AddToFamily, Members;
    Appended(d, x, groupIdentical);
    AdmittedFollowers(b, d, x, seen, groupIdentical);
    if groupIdentical && x.content.Some? {
      assert x.content.value in b.representatives <==> FirstWith(d, x.content.value).Some?;
    }
  }

  lemma {:induction false} AdmittedFollowers(b: Build, d: seq<Item>, x: Item, seen: set<Key>, groupIdentical: bool)
    requires |b.tiers| == TIERS && x.tier < TIERS && Agrees(b, d, groupIdentical)
    requires x.key !in seen && x.key !in b.queued
    ensures var followers := Admit(b, x, seen, groupIdentical).followers;
            forall k :: Members(followers, k) == FollowersOf(d + [x], k, groupIdentical)
  {
    hide KeysOf, FirstWith, FollowersOf, Leaders, AddToFamily;
    Appended(d, x, groupIdentical);
    if groupIdentical && x.content.Some? {
      assert x.content.value in b.representatives <==> FirstWith(d, x.content.value).Some?;
    }
  }

  lemma {:induction false} BuildAgrees(items: seq<Item>, seen: set<Key>, groupIdentical: bool)
    requires InTiers(items)
    ensures Agrees(BuildOf(items, seen, groupIdentical), Fresh(items, seen), groupIdentical)
  {
    if items != [] {
      var front, last := items[..|items| - 1], items[|items| - 1];
      BuildAgrees(front, seen, groupIdentical);
      var b, d := BuildOf(front, seen, groupIdentical), Fresh(front, seen);
      if last.key !in seen && last.key !in KeysOf(d) {
        AdmitAgrees(b, d, last, seen, groupIdentical);
      }
    }
  }

  // ------------------------------------------------------------------
  // The scheduled order: complete, tier by tier, first in first out per route.
  // ------------------------------------------------------------------

  /** Everything the scheduler will offer, in order, when nobody else marks observations. */
  ghost function ReviewOrder(items: seq<Item>, seen: set<Key>, groupIdentical: bool): seq<Item>
    requires InTiers(items)
  {
    BuildFilled(items, seen, groupIdentical);
    Order(BuildOf(items, seen, groupIdentical).tiers)
  }

  ghost function Bag(turns: seq<Turns>): multiset<Item> {
    if turns == [] then multiset{} else Union(Queues(turns[0].lanes)) + Bag(turns[1..])
  }

  ghost function TiersBag(tiers: seq<seq<Turns>>): multiset<Item> {
    if tiers == [] then multiset{} else Bag(tiers[0]) + TiersBag(tiers[1..])
  }

  lemma QueuesUnion(lanes: seq<Lane>)
    requires lanes != []
    ensures Union(Queues(lanes)) == multiset(lanes[0].queue) + Union(Queues(lanes[1..]))
  {
    assert Queues(lanes)[1..] == Queues(lanes[1..]);
  }

  lemma {:induction false} LaneBag(lanes: seq<Lane>, item: Item)
    ensures Union(Queues(AddToLane(lanes, item))) == Union(Queues(lanes)) + multiset{item}
  {
    var after := AddToLane(lanes, item);
    QueuesUnion(after);
    if lanes == [] {
      assert after[1..] == [] && Queues([]) == [];
    } else {
      QueuesUnion(lanes);
      if lanes[0].route == item.route {
        assert after[1..] == lanes[1..];
      } else {
        LaneBag(lanes[1..], item);
        assert after[1..] == AddToLane(lanes[1..], item);
      }
    }
  }

  lemma {:induction false} FamilyBag(turns: seq<Turns>, item: Item)
    ensures Bag(AddToFamily(turns, item)) == Bag(turns) + multiset{item}
  {
    var after := AddToFamily(turns, item);
    if turns == [] {
      LaneBag([], item);
      assert AddToLane([], item) == [Lane(item.route, [item])];
      assert after[0].lanes == AddToLane([], item) && Bag(after[1..]) == multiset{};
    } else if turns[0].family == item.family {
      LaneBag(turns[0].lanes, item);
      assert after[1..] == turns[1..];
    } else {
      FamilyBag(turns[1..], item);
      assert after[1..] == AddToFamily(turns[1..], item);
    }
  }

  lemma TiersBagAdd(tiers: seq<seq<Turns>>, t: nat, item: Item)
    requires t < |tiers|
    ensures TiersBag(tiers[t := AddToFamily(tiers[t], item)]) == TiersBag(tiers) + multiset{item}
  {
    if t == 0 {
      FamilyBag(tiers[0], item);
      assert tiers[0 := AddToFamily(tiers[0], item)][1..] == tiers[1..];
    } else {
      TiersBagAdd(tiers[1..], t - 1, item);
      assert tiers[t := AddToFamily(tiers[t], item)][1..]
          == tiers[1..][t - 1 := AddToFamily(tiers[1..][t - 1], item)];
    }
  }

  lemma {:induction false} ContentsBag(turns: seq<Turns>)
    requires Filled(turns)
    ensures Union(Contents(turns)) == Bag(turns)
  {
    if turns != [] {
      assert Filled(turns[1..]);
      ContentsBag(turns[1..]);
      assert Contents(turns)[1..] == Contents(turns[1..]);
      ServeKeepsAll(Queues(turns[0].lanes));
    }
  }

  lemma {:induction false} OrderBag(tiers: seq<seq<Turns>>)
    requires TiersFilled(tiers)
    ensures multiset(Order(tiers)) == TiersBag(tiers)
  {
    if tiers != [] {
      assert TiersFilled(tiers[1..]);
      OrderBag(tiers[1..]);
      TierOrderIsTwoLevel(tiers[0]);
      ServeKeepsAll(Contents(tiers[0]));
      ContentsBag(tiers[0]);
    }
  }

  lemma {:induction false} EmptyBag(tiers: seq<seq<Turns>>)
    requires forall t :: 0 <= t < |tiers| ==> tiers[t] == []
    ensures TiersBag(tiers) == multiset{}
  {
    if tiers != [] { assert tiers[0] == []; EmptyBag(tiers[1..]); }
  }

  lemma AdmitBag(b: Build, d: seq<Item>, x: Item, seen: set<Key>, groupIdentical: bool)
    requires |b.tiers| == TIERS && x.tier < TIERS && Agrees(b, d, groupIdentical)
    requires x.key !in seen && x.key !in b.queued
    ensures TiersBag(Admit(b, x, seen, groupIdentical).tiers)
         == TiersBag(b.tiers)
            + if RepresentativeOf(d, x, groupIdentical).None? then multiset{x} else multiset{}
  {
    TiersBagAdd(b.tiers, x.tier, x);
    AdmittedTiers(b, d, x, seen, groupIdentical);
  }

  lemma {:induction false} BuildBag(items: seq<Item>, seen: set<Key>, groupIdentical: bool)
    requires InTiers(items)
    ensures TiersBag(BuildOf(items, seen, groupIdentical).tiers)
         == multiset(Leaders(Fresh(items, seen), groupIdentical))
  {
    if items == [] {
      EmptyBag(EMPTY_BUILD.tiers);
    } else {
      var front, last := items[..|items| - 1], items[|items| - 1];
      BuildBag(front, seen, groupIdentical);
      BuildAgrees(front, seen, groupIdentical);
      var b, d := BuildOf(front, seen, groupIdentical), Fresh(front, seen);
      if last.key !in seen && last.key !in KeysOf(d) {
        AdmitBag(b, d, last, seen, groupIdentical);
        Appended(d, last, groupIdentical);
        assert multiset(Leaders(d, groupIdentical) + [last]) == multiset(Leaders(d, groupIdentical)) + multiset{last};
      }
    }
  }

  /** The members of the groups of `taken`, in order. */
  ghost function GroupedWith(d: seq<Item>, taken: seq<Item>, groupIdentical: bool): seq<Item> {
    if taken == [] then []
    else GroupedWith(d, taken[..|taken| - 1], groupIdentical)
         + FollowersOf(d, taken[|taken| - 1].key, groupIdentical)
  }

  lemma {:induction false} GroupedConcat(d: seq<Item>, a: seq<Item>, b: seq<Item>, groupIdentical: bool)
    ensures GroupedWith(d, a + b, groupIdentical)
         == GroupedWith(d, a, groupIdentical) + GroupedWith(d, b, groupIdentical)
    decreases |b|
  {
    hide FollowersOf;
    if b == [] {
      assert a + b == a;
    } else {
      assert (a + b)[..|a + b| - 1] == a + b[..|b| - 1];
      GroupedConcat(d, a, b[..|b| - 1], groupIdentical);
    }
  }

  lemma {:induction false} GroupedOne(d: seq<Item>, x: Item, groupIdentical: bool)
    ensures GroupedWith(d, [x], groupIdentical) == FollowersOf(d, x.key, groupIdentical)
  {
    assert [x][..0] == [];
    assert [] + FollowersOf(d, x.key, groupIdentical) == FollowersOf(d, x.key, groupIdentical);
  }

  lemma {:induction false} GroupedSplit(d: seq<Item>, a: seq<Item>, x: Item, b: seq<Item>, groupIdentical: bool)
    ensures multiset(GroupedWith(d, a + [x] + b, groupIdentical))
         == multiset(GroupedWith(d, a + b, groupIdentical)) + multiset(FollowersOf(d, x.key, groupIdentical))
  {
    GroupedConcat(d, a + [x], b, groupIdentical);
    GroupedConcat(d, a, [x], groupIdentical);
    GroupedConcat(d, a, b, groupIdentical);
    GroupedOne(d, x, groupIdentical);
  }

  lemma {:induction false} GroupedPermutes(d: seq<Item>, a: seq<Item>, b: seq<Item>, groupIdentical: bool)
    requires multiset(a) == multiset(b)
    ensures multiset(GroupedWith(d, a, groupIdentical)) == multiset(GroupedWith(d, b, groupIdentical))
    decreases |a|
  {
    if a == [] {
      assert |b| == |multiset(b)| == 0;
    } else {
      var front, x := a[..|a| - 1], a[|a| - 1];
      assert a == front + [x] + [];
      assert x in multiset(b);
      var i :| 0 <= i < |b| && b[i] == x;
      assert b == b[..i] + [x] + b[i + 1..];
      assert multiset(front) == multiset(a) - multiset{x} == multiset(b[..i] + b[i + 1..]);
      GroupedPermutes(d, front, b[..i] + b[i + 1..], groupIdentical);
      GroupedSplit(d, b[..i], x, b[i + 1..], groupIdentical);
      GroupedSplit(d, front, x, [], groupIdentical);
      assert front + [] == front;
    }
  }

  lemma {:induction false} RepresentativesLead(d: seq<Item>, content: ContentKey)
    requires FirstWith(d, content).Some?
    ensures FirstWith(d, content).value in Leaders(d, true)
    ensures FirstWith(d, content).value in d
  {
    if d != [] && FirstWith(d[..|d| - 1], content).Some? { RepresentativesLead(d[..|d| - 1], content); }
  }

  lemma {:induction false} NoFollowersOfNewKey(d: seq<Item>, key: Key, groupIdentical: bool)
    requires key !in KeysOf(d)
    ensures FollowersOf(d, key, groupIdentical) == []
  {
    if d != [] {
      var front, last := d[..|d| - 1], d[|d| - 1];
      assert forall y :: y in front ==> y in d;
      NoFollowersOfNewKey(front, key, groupIdentical);
      if RepresentativeOf(front, last, groupIdentical).Some? {
        RepresentativesLead(front, last.content.value);
      }
    }
  }

  lemma LastKeyIsNew(taken: seq<Item>)
    requires DistinctKeys(taken) && taken != []
    ensures var front, last := taken[..|taken| - 1], taken[|taken| - 1];
            KeysOf(taken) == KeysOf(front) + {last.key} && last.key !in KeysOf(front)
  {
    assert taken == taken[..|taken| - 1] + [taken[|taken| - 1]];
  }

  /** A new follower joins exactly one group of a list of captures with distinct keys. */
  lemma {:induction false} OneGroupGrows(d: seq<Item>, x: Item, taken: seq<Item>, groupIdentical: bool)
    requires DistinctKeys(taken)
    ensures var rep := RepresentativeOf(d, x, groupIdentical);
            multiset(GroupedWith(d + [x], taken, groupIdentical))
            == multiset(GroupedWith(d, taken, groupIdentical))
               + if rep.Some? && rep.value.key in KeysOf(taken) then multiset{x} else multiset{}
    decreases |taken|
  {
    if taken != [] {
      hide KeysOf, FirstWith, FollowersOf, Leaders, RepresentativeOf, DistinctKeys;
      var front, last := taken[..|taken| - 1], taken[|taken| - 1];
      OneGroupGrows(d, x, front, groupIdentical);
      Appended(d, x, groupIdentical);
      LastKeyIsNew(taken);
    }
  }

  /** Leaders and the members of their groups are the fresh captures, each exactly once. */
  lemma {:induction false} LeadersAndGroups(d: seq<Item>, groupIdentical: bool)
    requires DistinctKeys(d)
    ensures var ls := Leaders(d, groupIdentical);
            multiset(ls) + multiset(GroupedWith(d, ls, groupIdentical)) == multiset(d)
  {
    if d != [] {
      var front, x := d[..|d| - 1], d[|d| - 1];
      assert d == front + [x];
      LeadersAndGroups(front, groupIdentical);
      LeadersAreItems(front, groupIdentical);
      Appended(front, x, groupIdentical);
      NextLeaderOrFollower(front, x, groupIdentical);
    }
  }

  lemma {:induction false} NextLeaderOrFollower(d: seq<Item>, x: Item, groupIdentical: bool)
    requires DistinctKeys(d) && x.key !in KeysOf(d) && DistinctKeys(Leaders(d, groupIdentical))
    ensures var ls, ls' := Leaders(d, groupIdentical), Leaders(d + [x], groupIdentical);
            multiset(ls') + multiset(GroupedWith(d + [x], ls', groupIdentical))
            == multiset(ls) + multiset(GroupedWith(d, ls, groupIdentical)) + multiset{x}
  {
    hide Leaders, GroupedWith, KeysOf;
    OneGroupGrows(d, x, Leaders(d, groupIdentical), groupIdentical);
    if RepresentativeOf(d, x, groupIdentical).Some? {
      NewFollower(d, x, groupIdentical);
    } else {
      NewLeader(d, x, groupIdentical);
    }
  }

  lemma {:induction false} NewFollower(d: seq<Item>, x: Item, groupIdentical: bool)
    requires RepresentativeOf(d, x, groupIdentical).Some?
    ensures Leaders(d + [x], groupIdentical) == Leaders(d, groupIdentical)
    ensures RepresentativeOf(d, x, groupIdentical).value.key in KeysOf(Leaders(d, groupIdentical))
  {
    Appended(d, x, groupIdentical);
    RepresentativesLead(d, x.content.value);
  }

  lemma {:induction false} NewLeader(d: seq<Item>, x: Item, groupIdentical: bool)
    requires x.key !in KeysOf(d) && RepresentativeOf(d, x, groupIdentical).None?
    ensures var ls := Leaders(d, groupIdentical);
            && Leaders(d + [x], groupIdentical) == ls + [x]
            && GroupedWith(d + [x], ls + [x], groupIdentical) == GroupedWith(d + [x], ls, groupIdentical)
  {
    var ls := Leaders(d, groupIdentical);
    Appended(d, x, groupIdentical);
    NoFollowersOfNewKey(d, x.key, groupIdentical);
    assert (ls + [x])[..|ls + [x]| - 1] == ls;
  }

  /** A full drain: what is offered and what is grouped with it are together the distinct
      unmarked captures, each exactly once. */
  lemma {:induction false} ExactlyOnce(items: seq<Item>, seen: set<Key>, groupIdentical: bool)
    requires InTiers(items)
    ensures var order := ReviewOrder(items, seen, groupIdentical);
            var d := Fresh(items, seen);
            && multiset(order) + multiset(GroupedWith(d, order, groupIdentical)) == multiset(d)
            && DistinctKeys(d) && KeysOf(d) == KeysOf(items) - seen
  {
    var order := ReviewOrder(items, seen, groupIdentical);
    var d := Fresh(items, seen);
    BuildFilled(items, seen, groupIdentical);
    OrderBag(BuildOf(items, seen, groupIdentical).tiers);
    BuildBag(items, seen, groupIdentical);
    FreshFacts(items, seen);
    LeadersAndGroups(d, groupIdentical);
    GroupedPermutes(d, order, Leaders(d, groupIdentical), groupIdentical);
  }

  // ------------------------------------------------------------------
  // Tiers, fairness inside a tier, first in first out inside a route.
  // ------------------------------------------------------------------

  function ItemTier(x: Item): nat { x.tier }

  lemma ServedItems(qs: seq<seq<Item>>, x: Item) returns (i: nat)
    requires AllNonEmpty(qs) && x in Serve(qs)
    ensures i < |qs| && x in qs[i]
  {
    ServeKeepsAll(qs);
    assert x in multiset(Serve(qs));
    i := InUnion(qs, x);
  }

  lemma InUnion(qs: seq<seq<Item>>, x: Item) returns (i: nat)
    requires x in Union(qs)
    ensures i < |qs| && x in qs[i]
  {
    if x in multiset(qs[0]) { return 0; }
    i := InUnion(qs[1..], x);
    i := i + 1;
  }

  /** The queues of a tier are owned by distinct families, those of a family by distinct routes. */
  lemma {:induction false} TurnsOwned(turns: seq<Turns>, tier: nat)
    requires TurnsOk(turns, tier)
    ensures Filled(turns) && Owned(Contents(turns), ItemFamily)
    ensures forall i :: 0 <= i < |turns| ==> turns[i].family in FamilyNames(turns)
    ensures forall i :: 0 <= i < |turns| ==> LanesOk(turns[i].lanes, tier, turns[i].family)
    ensures forall i, x :: 0 <= i < |turns| && x in Contents(turns)[i] ==> x.family == turns[i].family && x.tier == tier
  {
    TurnsOkIsFilled(turns, tier);
    if turns != [] {
      TurnsOwned(turns[1..], tier);
      assert Contents(turns)[1..] == Contents(turns[1..]);
      LanesOkIsOwned(turns[0].lanes, tier, turns[0].family);
      ServedByFamily(turns[0].lanes, tier, turns[0].family);
      ConsOwned(turns, tier);
    }
  }

  lemma {:induction false} ServedByFamily(lanes: seq<Lane>, tier: nat, family: FamilyId)
    requires LanesOk(lanes, tier, family)
    ensures AllNonEmpty(Queues(lanes))
    ensures forall x :: x in Serve(Queues(lanes)) ==> x.family == family && x.tier == tier
  {
    LanesOkIsOwned(lanes, tier, family);
    forall x | x in Serve(Queues(lanes)) ensures x.family == family && x.tier == tier {
      var k := ServedItems(Queues(lanes), x);
      assert LaneOk(lanes[k], tier, family);
    }
  }

  lemma {:induction false} ConsOwned(turns: seq<Turns>, tier: nat)
    requires TurnsOk(turns, tier) && Filled(turns) && turns != [] && Filled(turns[1..])
    requires Contents(turns)[1..] == Contents(turns[1..]) && Owned(Contents(turns[1..]), ItemFamily)
    requires forall i :: 0 <= i < |turns[1..]| ==> turns[1..][i].family in FamilyNames(turns[1..])
    requires forall i :: 0 <= i < |turns[1..]| ==> LanesOk(turns[1..][i].lanes, tier, turns[1..][i].family)
    requires forall i, x :: 0 <= i < |turns[1..]| && x in Contents(turns[1..])[i]
                            ==> x.family == turns[1..][i].family && x.tier == tier
    requires forall x :: x in Contents(turns)[0] ==> x.family == turns[0].family && x.tier == tier
    ensures Owned(Contents(turns), ItemFamily)
    ensures forall i :: 0 <= i < |turns| ==> turns[i].family in FamilyNames(turns)
    ensures forall i :: 0 <= i < |turns| ==> LanesOk(turns[i].lanes, tier, turns[i].family)
    ensures forall i, x :: 0 <= i < |turns| && x in Contents(turns)[i] ==> x.family == turns[i].family && x.tier == tier
  {
    hide LanesOk, Filled;
    var qs, rest := Contents(turns), Contents(turns[1..]);
    hide Contents, Owned;
    forall i | 0 <= i < |turns|
      ensures turns[i].family in FamilyNames(turns) && LanesOk(turns[i].lanes, tier, turns[i].family)
    {
      if i > 0 { assert turns[i] == turns[1..][i - 1]; }
    }
    forall i, x: Item | 0 <= i < |turns| && x in qs[i] ensures x.family == turns[i].family && x.tier == tier {
      if i > 0 { assert turns[i] == turns[1..][i - 1] && qs[i] == rest[i - 1]; }
    }
    forall i | 1 <= i < |qs| ensures qs[i][0].family != turns[0].family {
      assert qs[i][0] in qs[i] && turns[i] == turns[1..][i - 1] && turns[i].family in FamilyNames(turns[1..]);
    }
    OneMoreOwner(qs, turns[0].family);
  }

  /** A queue of a family no other queue belongs to may come first. */
  lemma OneMoreOwner(qs: seq<seq<Item>>, family: FamilyId)
    requires AllNonEmpty(qs) && qs != [] && Owned(qs[1..], ItemFamily)
    requires forall x :: x in qs[0] ==> x.family == family
    requires forall i :: 1 <= i < |qs| ==> qs[i][0].family != family
    ensures Owned(qs, ItemFamily)
  {
    assert qs[0][0] in qs[0];
    forall i, x | 0 <= i < |qs| && x in qs[i] ensures ItemFamily(x) == ItemFamily(qs[i][0]) {
      if i > 0 { assert qs[i] == qs[1..][i - 1]; }
    }
    forall i, j | 0 <= i < j < |qs| ensures ItemFamily(qs[i][0]) != ItemFamily(qs[j][0]) {
      if i > 0 { assert qs[i] == qs[1..][i - 1] && qs[j] == qs[1..][j - 1]; }
    }
  }

  lemma {:induction false} TierOrderItems(turns: seq<Turns>, tier: nat)
    requires TurnsOk(turns, tier)
    ensures Filled(turns)
    ensures forall x :: x in TierOrder(turns) ==> x.tier == tier
  {
    TurnsOwned(turns, tier);
    TierOrderIsTwoLevel(turns);
    forall x | x in TierOrder(turns) ensures x.tier == tier {
      var i := ServedItems(Contents(turns), x);
    }
  }

  lemma {:induction false} HeadSlice(s: seq<Item>, tier: nat, other: nat)
    requires forall x :: x in s ==> x.tier == tier
    ensures Filter(s, Of(ItemTier, other)) == if other == tier then s else []
  {
    if other == tier { FilterAll(s, Of(ItemTier, other)); } else { FilterNone(s, Of(ItemTier, other)); }
  }

  ghost predicate TiersOkFrom(tiers: seq<seq<Turns>>, first: nat) {
    forall t :: 0 <= t < |tiers| ==> TurnsOk(tiers[t], first + t)
  }

  lemma {:induction false} OrderRange(tiers: seq<seq<Turns>>, first: nat)
    requires TiersOkFrom(tiers, first) && TiersFilled(tiers)
    ensures forall x :: x in Order(tiers) ==> first <= x.tier < first + |tiers|
  {
    if tiers != [] {
      RestOk(tiers, first);
      OrderRange(tiers[1..], first + 1);
      TierOrderItems(tiers[0], first);
    }
  }

  lemma {:induction false} OrderSorted(tiers: seq<seq<Turns>>, first: nat)
    requires TiersOkFrom(tiers, first) && TiersFilled(tiers)
    ensures forall i, j :: 0 <= i < j < |Order(tiers)| ==> Order(tiers)[i].tier <= Order(tiers)[j].tier
  {
    if tiers != [] {
      RestOk(tiers, first);
      OrderSorted(tiers[1..], first + 1);
      OrderRange(tiers[1..], first + 1);
      TierOrderItems(tiers[0], first);
    }
  }

  lemma RestOk(tiers: seq<seq<Turns>>, first: nat)
    requires TiersOkFrom(tiers, first) && TiersFilled(tiers) && tiers != []
    ensures TiersOkFrom(tiers[1..], first + 1) && TiersFilled(tiers[1..])
  {
    forall t | 0 <= t < |tiers[1..]| ensures TurnsOk(tiers[1..][t], first + 1 + t) {
      assert tiers[1..][t] == tiers[t + 1];
    }
  }

  /** The slice of one tier in the scheduled order is that tier's drain. */
  lemma {:induction false} OrderSlice(tiers: seq<seq<Turns>>, first: nat, tier: nat)
    requires TiersOkFrom(tiers, first) && TiersFilled(tiers) && first <= tier < first + |tiers|
    ensures Filter(Order(tiers), Of(ItemTier, tier)) == TierOrder(tiers[tier - first])
    decreases |tiers|
  {
    hide TierOrder, Filled, TurnsOk, Filter;
    var head, rest := TierOrder(tiers[0]), tiers[1..];
    assert TurnsOk(tiers[0], first + 0) && Order(tiers) == head + Order(rest);
    hide Order;
    RestOk(tiers, first);
    TierOrderItems(tiers[0], first);
    FilterConcat(head, Order(rest), Of(ItemTier, tier));
    HeadSlice(head, first, tier);
    if tier == first {
      OrderRange(rest, first + 1);
      FilterNone(Order(rest), Of(ItemTier, tier));
    } else {
      OrderSlice(rest, first + 1, tier);
      assert rest[tier - (first + 1)] == tiers[tier - first];
    }
  }

  /** The captures of one tier, in the order they are offered. */
  ghost function TierSlice(items: seq<Item>, seen: set<Key>, groupIdentical: bool, tier: nat): seq<Item>
    requires InTiers(items)
  {
    Filter(ReviewOrder(items, seen, groupIdentical), Of(ItemTier, tier))
  }

  lemma {:induction false} SliceIsDrain(items: seq<Item>, seen: set<Key>, groupIdentical: bool, tier: nat)
    requires InTiers(items) && tier < TIERS
    ensures var turns := BuildOf(items, seen, groupIdentical).tiers[tier];
            && TurnsOk(turns, tier) && Filled(turns) && Owned(Contents(turns), ItemFamily)
            && TierSlice(items, seen, groupIdentical, tier) == TierOrder(turns) == Serve(Contents(turns))
  {
    hide BuildOf, TierOrder, Order, Serve, Contents, Filter, Filled;
    var tiers := BuildOf(items, seen, groupIdentical).tiers;
    BuildFilled(items, seen, groupIdentical);
    assert TiersOkFrom(tiers, 0);
    OrderSlice(tiers, 0, tier);
    TurnsOwned(tiers[tier], tier);
    TierOrderIsTwoLevel(tiers[tier]);
  }

  /** Higher-priority tiers are drained first. */
  lemma SortedByTier(items: seq<Item>, seen: set<Key>, groupIdentical: bool)
    requires InTiers(items)
    ensures var order := ReviewOrder(items, seen, groupIdentical);
            forall i, j :: 0 <= i < j < |order| ==> order[i].tier <= order[j].tier
  {
    var tiers := BuildOf(items, seen, groupIdentical).tiers;
    BuildFilled(items, seen, groupIdentical);
    assert TiersOkFrom(tiers, 0);
    OrderSorted(tiers, 0);
  }

  ghost function CountOf<K>(s: seq<Item>, owner: Item -> K, k: K): nat { |Filter(s, Of(owner, k))| }

  lemma OwnerPosition<T, K>(qs: seq<seq<T>>, owner: T -> K, k: K) returns (i: nat)
    requires Owned(qs, owner) && Filter(Serve(qs), Of(owner, k)) != []
    ensures i < |qs| && owner(qs[i][0]) == k
    ensures |Filter(Serve(qs), Of(owner, k))| == |qs[i]|
  {
    if forall i :: 0 <= i < |qs| ==> owner(qs[i][0]) != k {
      ServeSkips(qs, owner, k);
    }
    i :| 0 <= i < |qs| && owner(qs[i][0]) == k;
    ServeKeepsOrder(qs, owner, i);
  }

  /** At every moment two owners that both still have something pending differ by at most one turn. */
  lemma {:induction false} BalancedService<T, K>(qs: seq<seq<T>>, owner: T -> K, k: K, l: K, n: nat)
    requires Owned(qs, owner) && n <= Total(qs) && k != l
    requires |Filter(Serve(qs)[..n], Of(owner, k))| < |Filter(Serve(qs), Of(owner, k))|
    requires |Filter(Serve(qs)[..n], Of(owner, l))| < |Filter(Serve(qs), Of(owner, l))|
    ensures -1 <= |Filter(Serve(qs)[..n], Of(owner, k))| - |Filter(Serve(qs)[..n], Of(owner, l))| <= 1
  {
    var i := OwnerPosition(qs, owner, k);
    var j := OwnerPosition(qs, owner, l);
    if i < j {
      LeadAtMostOne(qs, owner, i, j, n);
    } else {
      LeadAtMostOne(qs, owner, j, i, n);
    }
  }

  /** Inside a tier, the turns of two unfinished families never differ by more than one. */
  lemma FamiliesBalanced(items: seq<Item>, seen: set<Key>, groupIdentical: bool, tier: nat,
                         f: FamilyId, g: FamilyId, n: nat)
    requires InTiers(items) && tier < TIERS && f != g
    requires n <= |TierSlice(items, seen, groupIdentical, tier)|
    requires var s := TierSlice(items, seen, groupIdentical, tier);
             && CountOf(s[..n], ItemFamily, f) < CountOf(s, ItemFamily, f)
             && CountOf(s[..n], ItemFamily, g) < CountOf(s, ItemFamily, g)
    ensures var s := TierSlice(items, seen, groupIdentical, tier);
            -1 <= CountOf(s[..n], ItemFamily, f) - CountOf(s[..n], ItemFamily, g) <= 1
  {
    SliceIsDrain(items, seen, groupIdentical, tier);
    BalancedService(Contents(BuildOf(items, seen, groupIdentical).tiers[tier]), ItemFamily, f, g, n);
  }

  /** Inside a tier, between two consecutive turns of one family every other family with a
      capture still pending gets exactly one. */
  lemma FamiliesTakeTurns(items: seq<Item>, seen: set<Key>, groupIdentical: bool, tier: nat,
                          i: nat, j: nat, m: nat)
    requires InTiers(items) && tier < TIERS
    requires var s := TierSlice(items, seen, groupIdentical, tier);
             && i < j < |s| && i < m < |s|
             && s[j].family == s[i].family != s[m].family
             && (forall k :: i < k < j ==> s[k].family != s[i].family)
    ensures var s := TierSlice(items, seen, groupIdentical, tier);
            && (exists k :: i < k < j && s[k].family == s[m].family)
            && (forall k, l :: i < k < l < j ==> s[k].family != s[l].family)
  {
    SliceIsDrain(items, seen, groupIdentical, tier);
    var qs := Contents(BuildOf(items, seen, groupIdentical).tiers[tier]);
    var s := Serve(qs);
    assert forall k :: i <= k < |s| ==> ItemFamily(s[k]) == s[k].family;
    OneTurnEach(qs, ItemFamily, i, j, m);
    var k :| i < k < j && ItemFamily(s[k]) == ItemFamily(s[m]);
    assert s[k].family == s[m].family;
    forall k, l | i < k < l < j ensures s[k].family != s[l].family {
      assert ItemFamily(s[k]) != ItemFamily(s[l]);
    }
  }

  /** The captures of one family of a tier are the round-robin service of its routes. */
  lemma FamilySlice(items: seq<Item>, seen: set<Key>, groupIdentical: bool, tier: nat, f: FamilyId)
    returns (lanes: seq<Lane>)
    requires InTiers(items) && tier < TIERS
    ensures LanesOk(lanes, tier, f) && Owned(Queues(lanes), ItemRoute)
    ensures Filter(TierSlice(items, seen, groupIdentical, tier), Of(ItemFamily, f)) == Serve(Queues(lanes))
    ensures forall r :: InLane(lanes, r) == InFamily(BuildOf(items, seen, groupIdentical).tiers[tier], f, r)
  {
    SliceIsDrain(items, seen, groupIdentical, tier);
    var turns := BuildOf(items, seen, groupIdentical).tiers[tier];
    lanes := LanesOfFamily(turns, tier, f);
  }

  lemma {:induction false} LanesOfFamily(turns: seq<Turns>, tier: nat, f: FamilyId) returns (lanes: seq<Lane>)
    requires TurnsOk(turns, tier)
    ensures Filled(turns) && Owned(Contents(turns), ItemFamily)
    ensures LanesOk(lanes, tier, f) && Owned(Queues(lanes), ItemRoute)
    ensures Filter(Serve(Contents(turns)), Of(ItemFamily, f)) == Serve(Queues(lanes))
    ensures forall r :: InLane(lanes, r) == InFamily(turns, f, r)
  {
    TurnsOwned(turns, tier);
    var qs := Contents(turns);
    if i :| 0 <= i < |turns| && turns[i].family == f {
      lanes := turns[i].lanes;
      LanesOkIsOwned(lanes, tier, f);
      assert qs[i][0] in qs[i];
      ServeKeepsOrder(qs, ItemFamily, i);
      forall r ensures InLane(lanes, r) == InFamily(turns, f, r) { FamilyLookup(turns, tier, i, r); }
    } else {
      lanes := [];
      forall i | 0 <= i < |qs| ensures ItemFamily(qs[i][0]) != f { assert qs[i][0] in qs[i]; }
      ServeSkips(qs, ItemFamily, f);
      forall r ensures InFamily(turns, f, r) == [] { NoFamilyLookup(turns, f, r); }
    }
  }

  lemma {:induction false} FamilyLookup(turns: seq<Turns>, tier: nat, i: nat, r: RouteId)
    requires TurnsOk(turns, tier) && i < |turns|
    ensures InFamily(turns, turns[i].family, r) == InLane(turns[i].lanes, r)
  {
    if i > 0 {
      FamilyLookup(turns[1..], tier, i - 1, r);
      TurnsOwned(turns[1..], tier);
      assert turns[1..][i - 1] == turns[i];
    }
  }

  lemma {:induction false} NoFamilyLookup(turns: seq<Turns>, f: FamilyId, r: RouteId)
    requires forall i :: 0 <= i < |turns| ==> turns[i].family != f
    ensures InFamily(turns, f, r) == []
  {
    if turns != [] {
      assert turns[0].family != f && forall i :: 0 <= i < |turns[1..]| ==> turns[1..][i] == turns[i + 1];
      NoFamilyLookup(turns[1..], f, r);
    }
  }

  /** Inside a family, the turns of two unfinished routes never differ by more than one. */
  lemma RoutesBalanced(items: seq<Item>, seen: set<Key>, groupIdentical: bool, tier: nat, f: FamilyId,
                       q: RouteId, r: RouteId, n: nat)
    requires InTiers(items) && tier < TIERS && q != r
    requires n <= |Filter(TierSlice(items, seen, groupIdentical, tier), Of(ItemFamily, f))|
    requires var s := Filter(TierSlice(items, seen, groupIdentical, tier), Of(ItemFamily, f));
             && CountOf(s[..n], ItemRoute, q) < CountOf(s, ItemRoute, q)
             && CountOf(s[..n], ItemRoute, r) < CountOf(s, ItemRoute, r)
    ensures var s := Filter(TierSlice(items, seen, groupIdentical, tier), Of(ItemFamily, f));
            -1 <= CountOf(s[..n], ItemRoute, q) - CountOf(s[..n], ItemRoute, r) <= 1
  {
    var lanes := FamilySlice(items, seen, groupIdentical, tier, f);
    BalancedService(Queues(lanes), ItemRoute, q, r, n);
  }

  /** Inside a family, between two consecutive turns of one route every other route with a
      capture still pending gets exactly one. */
  lemma RoutesTakeTurns(items: seq<Item>, seen: set<Key>, groupIdentical: bool, tier: nat, f: FamilyId,
                        i: nat, j: nat, m: nat)
    requires InTiers(items) && tier < TIERS
    requires var s := Filter(TierSlice(items, seen, groupIdentical, tier), Of(ItemFamily, f));
             && i < j < |s| && i < m < |s|
             && s[j].route == s[i].route != s[m].route
             && (forall k :: i < k < j ==> s[k].route != s[i].route)
    ensures var s := Filter(TierSlice(items, seen, groupIdentical, tier), Of(ItemFamily, f));
            && (exists k :: i < k < j && s[k].route == s[m].route)
            && (forall k, l :: i < k < l < j ==> s[k].route != s[l].route)
  {
    var lanes := FamilySlice(items, seen, groupIdentical, tier, f);
    var s := Serve(Queues(lanes));
    assert forall k :: i <= k < |s| ==> ItemRoute(s[k]) == s[k].route;
    OneTurnEach(Queues(lanes), ItemRoute, i, j, m);
    var k :| i < k < j && ItemRoute(s[k]) == ItemRoute(s[m]);
    assert s[k].route == s[m].route;
    forall k, l | i < k < l < j ensures s[k].route != s[l].route {
      assert ItemRoute(s[k]) != ItemRoute(s[l]);
    }
  }

  // ------------------------------------------------------------------
  // First in, first out on each route.
  // ------------------------------------------------------------------

  function OnRoute(tier: nat, f: FamilyId, r: RouteId): Item -> bool {
    (x: Item) => x.tier == tier && x.family == f && x.route == r
  }

  lemma {:induction false} BuildQueues(items: seq<Item>, seen: set<Key>, groupIdentical: bool,
                                       tier: nat, f: FamilyId, r: RouteId)
    requires InTiers(items) && tier < TIERS
    ensures InFamily(BuildOf(items, seen, groupIdentical).tiers[tier], f, r)
         == Filter(Leaders(Fresh(items, seen), groupIdentical), OnRoute(tier, f, r))
  {
    if items == [] {
      assert EMPTY_BUILD.tiers[tier] == [];
    } else {
      var front, last := items[..|items| - 1], items[|items| - 1];
      BuildQueues(front, seen, groupIdentical, tier, f, r);
      BuildAgrees(front, seen, groupIdentical);
      var b, d := BuildOf(front, seen, groupIdentical), Fresh(front, seen);
      if last.key !in seen && last.key !in KeysOf(d) {
        AdmitQueue(b, d, last, seen, groupIdentical, tier, f, r);
      }
    }
  }

  lemma {:induction false} AdmitQueue(b: Build, d: seq<Item>, x: Item, seen: set<Key>, groupIdentical: bool,
                   tier: nat, f: FamilyId, r: RouteId)
    requires |b.tiers| == TIERS && x.tier < TIERS && tier < TIERS && Agrees(b, d, groupIdentical)
    requires x.key !in seen && x.key !in b.queued
    requires InFamily(b.tiers[tier], f, r) == Filter(Leaders(d, groupIdentical), OnRoute(tier, f, r))
    ensures InFamily(Admit(b, x, seen, groupIdentical).tiers[tier], f, r)
         == Filter(Leaders(d + [x], groupIdentical), OnRoute(tier, f, r))
  {
    AdmittedTiers(b, d, x, seen, groupIdentical);
    if RepresentativeOf(d, x, groupIdentical).Some? {
      NewFollower(d, x, groupIdentical);
    } else {
      NewLeader(d, x, groupIdentical);
      FilterConcat(Leaders(d, groupIdentical), [x], OnRoute(tier, f, r));
      QueueAfter(b.tiers, x, tier, f, r);
    }
  }

  lemma {:induction false} QueueAfter(tiers: seq<seq<Turns>>, x: Item, tier: nat, f: FamilyId, r: RouteId)
    requires |tiers| == TIERS && x.tier < TIERS && tier < TIERS
    ensures InFamily(tiers[x.tier := AddToFamily(tiers[x.tier], x)][tier], f, r)
         == InFamily(tiers[tier], f, r) + Filter([x], OnRoute(tier, f, r))
  {
    AddToFamilyAppends(tiers[x.tier], x, f, r);
    assert Filter([x], OnRoute(tier, f, r)) == if OnRoute(tier, f, r)(x) then [x] else [];
  }

  lemma {:induction false} AdmittedTiers(b: Build, d: seq<Item>, x: Item, seen: set<Key>, groupIdentical: bool)
    requires |b.tiers| == TIERS && x.tier < TIERS && Agrees(b, d, groupIdentical)
    requires x.key !in seen && x.key !in b.queued
    ensures Admit(b, x, seen, groupIdentical).tiers
         == if RepresentativeOf(d, x, groupIdentical).Some? then b.tiers
            else b.tiers[x.tier := AddToFamily(b.tiers[x.tier], x)]
  {
    if groupIdentical && x.content.Some? {
      assert x.content.value in b.representatives <==> FirstWith(d, x.content.value).Some?;
    }
  }

  lemma {:induction false} FilterTwice<T>(s: seq<T>, p: T -> bool, q: T -> bool, both: T -> bool)
    requires forall x :: x in s ==> both(x) == (p(x) && q(x))
    ensures Filter(Filter(s, p), q) == Filter(s, both)
  {
    if s != [] {
      FilterTwice(s[1..], p, q, both);
      FilterConcat(if p(s[0]) then [s[0]] else [], Filter(s[1..], p), q);
    }
  }

  lemma {:induction false} FilterOnRoute(s: seq<Item>, tier: nat, f: FamilyId, r: RouteId)
    ensures Filter(Filter(Filter(s, Of(ItemTier, tier)), Of(ItemFamily, f)), Of(ItemRoute, r))
         == Filter(s, OnRoute(tier, f, r))
  {
    var ofFamily := (x: Item) => x.tier == tier && x.family == f;
    FilterTwice(s, Of(ItemTier, tier), Of(ItemFamily, f), ofFamily);
    FilterTwice(s, ofFamily, Of(ItemRoute, r), OnRoute(tier, f, r));
  }

  /** The captures of one route are offered in the order they were captured. */
  lemma {:induction false} FirstInFirstOut(items: seq<Item>, seen: set<Key>, groupIdentical: bool,
                        tier: nat, f: FamilyId, r: RouteId)
    requires InTiers(items) && tier < TIERS
    ensures Filter(ReviewOrder(items, seen, groupIdentical), OnRoute(tier, f, r))
         == Filter(Leaders(Fresh(items, seen), groupIdentical), OnRoute(tier, f, r))
  {
    var lanes := FamilySlice(items, seen, groupIdentical, tier, f);
    FilterOnRoute(ReviewOrder(items, seen, groupIdentical), tier, f, r);
    BuildQueues(items, seen, groupIdentical, tier, f, r);
    LaneLookup(lanes, tier, f, r);
  }

  lemma {:induction false} LaneLookup(lanes: seq<Lane>, tier: nat, f: FamilyId, r: RouteId)
    requires LanesOk(lanes, tier, f)
    ensures AllNonEmpty(Queues(lanes))
    ensures Filter(Serve(Queues(lanes)), Of(ItemRoute, r)) == InLane(lanes, r)
  {
    LanesOkIsOwned(lanes, tier, f);
    var qs := Queues(lanes);
    if i :| 0 <= i < |lanes| && lanes[i].route == r {
      assert qs[i][0] in qs[i];
      ServeKeepsOrder(qs, ItemRoute, i);
      LaneAt(lanes, tier, f, i);
    } else {
      forall i | 0 <= i < |qs| ensures ItemRoute(qs[i][0]) != r { assert qs[i][0] in qs[i]; }
      ServeSkips(qs, ItemRoute, r);
      NoLane(lanes, r);
    }
  }

  lemma {:induction false} LaneAt(lanes: seq<Lane>, tier: nat, f: FamilyId, i: nat)
    requires LanesOk(lanes, tier, f) && i < |lanes|
    ensures InLane(lanes, lanes[i].route) == lanes[i].queue
  {
    if i > 0 {
      LaneAt(lanes[1..], tier, f, i - 1);
      LanesOkIsOwned(lanes[1..], tier, f);
      assert lanes[1..][i - 1] == lanes[i];
    }
  }

  lemma {:induction false} NoLane(lanes: seq<Lane>, r: RouteId)
    requires forall i :: 0 <= i < |lanes| ==> lanes[i].route != r
    ensures InLane(lanes, r) == []
  {
    if lanes != [] {
      assert lanes[0].route != r && forall i :: 0 <= i < |lanes[1..]| ==> lanes[1..][i] == lanes[i + 1];
      NoLane(lanes[1..], r);
    }
  }

  // ------------------------------------------------------------------
  // Runs in which only the scheduler marks observations.
  // ------------------------------------------------------------------

  lemma {:induction false} MemberHasRepresentative(d: seq<Item>, x: Item, y: Item, groupIdentical: bool)
    requires y in FollowersOf(d, x.key, groupIdentical)
    ensures y in d && groupIdentical && y.content.Some?
    ensures exists r :: r in d && r.key == x.key && r.content == y.content
  {
    var front, last := d[..|d| - 1], d[|d| - 1];
    if y in FollowersOf(front, x.key, groupIdentical) {
      MemberHasRepresentative(front, x, y, groupIdentical);
      var r :| r in front && r.key == x.key && r.content == y.content;
      assert r in d;
    } else {
      FirstWithIsFirst(front, y.content.value);
      assert FirstWith(front, y.content.value).value in d;
    }
  }

  ghost predicate Classified(v: Vocabulary, items: seq<Item>) {
    forall x :: x in items ==> x == Classify(v, x.key.of)
  }

  /** Every capture grouped with a representative looks like it, answer bytes included, has its tier,
      was not marked before, and neither of the two carries input of its own. */
  lemma {:induction false} FollowersShareTier(
      v: Vocabulary, items: seq<Item>, seen: set<Key>, groupIdentical: bool, x: Item, y: Item)
    requires Classified(v, items) && x in items
    requires y in FollowersOf(Fresh(items, seen), x.key, groupIdentical)
    ensures LookAlike(v, x.key.of, y.key.of) && NoInput(v, x.key.of) && NoInput(v, y.key.of)
    ensures y.content == x.content && y.tier == x.tier && y.key !in seen
  {
    var d := Fresh(items, seen);
    FreshFacts(items, seen);
    MemberHasRepresentative(d, x, y, groupIdentical);
    var r :| r in d && r.key == x.key && r.content == y.content;
    assert y.key in KeysOf(d);
    assert r in items && y in items;
    ContentIff(v, x.key.of, y.key.of);
    GroupKeyFixesTier(v, x.key.of, y.key.of);
  }

  /** The two captures are in the same group: one stands for the other, or a third for both. */
  ghost predicate Together(d: seq<Item>, x: Item, y: Item, groupIdentical: bool) {
    exists r :: r in d && InGroup(d, x, r, groupIdentical) && InGroup(d, y, r, groupIdentical)
  }

  ghost predicate InGroup(d: seq<Item>, x: Item, r: Item, groupIdentical: bool) {
    x == r || x in FollowersOf(d, r.key, groupIdentical)
  }

  lemma {:induction false} FirstWithStays(d: seq<Item>, content: ContentKey, k: nat)
    requires k <= |d| && FirstWith(d[..k], content).Some?
    ensures FirstWith(d, content) == FirstWith(d[..k], content)
  {
    if k == |d| {
      assert d[..k] == d;
    } else {
      assert d[..|d| - 1][..k] == d[..k];
      FirstWithStays(d[..|d| - 1], content, k);
    }
  }

  lemma {:induction false} FollowerAt(d: seq<Item>, k: nat, rep: Item)
    requires k < |d| && RepresentativeOf(d[..k], d[k], true) == Some(rep)
    ensures d[k] in FollowersOf(d, rep.key, true)
  {
    if k < |d| - 1 {
      assert d[..|d| - 1][..k] == d[..k];
      FollowerAt(d[..|d| - 1], k, rep);
    }
  }

  /** A capture with a grouping identity is in the group of the first capture that has it. */
  lemma {:induction false} InGroupOfFirst(d: seq<Item>, k: nat, content: ContentKey)
    requires k < |d| && d[k].content == Some(content)
    ensures FirstWith(d, content).Some? && FirstWith(d, content).value in d
    ensures InGroup(d, d[k], FirstWith(d, content).value, true)
  {
    var upTo := d[..k + 1];
    assert upTo[..|upTo| - 1] == d[..k];
    FirstWithStays(d, content, k + 1);
    if FirstWith(d[..k], content).Some? { FollowerAt(d, k, FirstWith(d[..k], content).value); }
    FirstWithIsFirst(d, content);
  }

  lemma {:induction false} GroupsHaveOneContent(d: seq<Item>, x: Item, r: Item, groupIdentical: bool)
    requires DistinctKeys(d) && r in d && x in FollowersOf(d, r.key, groupIdentical)
    ensures groupIdentical && x.content.Some? && x.content == r.content
  {
    MemberHasRepresentative(d, r, x, groupIdentical);
  }

  /** Two of the captures let in are grouped if and only if grouping is asked for, they look alike and
      neither carries input of its own. */
  lemma {:induction false} GroupedIff(
      v: Vocabulary, items: seq<Item>, seen: set<Key>, groupIdentical: bool, i: nat, j: nat)
    requires Classified(v, items) && i < j < |Fresh(items, seen)|
    ensures var d := Fresh(items, seen);
            var a, b := d[i].key.of, d[j].key.of;
            Together(d, d[i], d[j], groupIdentical) <==>
              groupIdentical && LookAlike(v, a, b) && NoInput(v, a) && NoInput(v, b)
  {
    hide Fresh, FollowersOf, FirstWith, LookAlike, NoInput, Classify;
    var d := Fresh(items, seen);
    FreshFacts(items, seen);
    var x, y := d[i], d[j];
    assert x in d && y in d && x.key != y.key;
    ContentIff(v, x.key.of, y.key.of);
    if Together(d, x, y, groupIdentical) {
      var r :| r in d && InGroup(d, x, r, groupIdentical) && InGroup(d, y, r, groupIdentical);
      if x != r { GroupsHaveOneContent(d, x, r, groupIdentical); }
      if y != r { GroupsHaveOneContent(d, y, r, groupIdentical); }
    } else if groupIdentical && x.content.Some? && x.content == y.content {
      InGroupOfFirst(d, i, x.content.value);
      InGroupOfFirst(d, j, x.content.value);
      assert false;
    }
  }

  lemma OnceInDistinct(s: seq<Item>, x: Item)
    requires DistinctKeys(s)
    ensures multiset(s)[x] <= 1
  {
    if s != [] {
      assert s == [s[0]] + s[1..];
      OnceInDistinct(s[1..], x);
      if s[0] == x { assert x !in s[1..]; }
    }
  }

  lemma TwiceIn(s: seq<Item>, i: nat, j: nat)
    requires i < j < |s| && s[i] == s[j]
    ensures multiset(s)[s[i]] >= 2
  {
    assert s == s[..j] + [s[j]] + s[j + 1..];
    assert s[i] in s[..j];
  }

  lemma DistinctPermutes(a: seq<Item>, b: seq<Item>)
    requires DistinctKeys(a) && multiset(a) == multiset(b)
    ensures DistinctKeys(b)
  {
    forall i, j | 0 <= i < j < |b| ensures b[i].key != b[j].key {
      assert b[i] in multiset(b) && b[j] in multiset(b);
      if b[i].key == b[j].key {
        assert b[i] == b[j];
        TwiceIn(b, i, j);
        OnceInDistinct(a, b[i]);
      }
    }
  }

  lemma {:induction false} UnmarkedAll(items: seq<Item>, seen: set<Key>)
    requires DistinctKeys(items) && KeysOf(items) !! seen
    ensures Unmarked(items, seen) == items
  {
    if items != [] {
      assert items[0].key in KeysOf(items);
      forall x | x in items[1..] ensures x.key !in seen + {items[0].key} { assert x.key in KeysOf(items); }
      UnmarkedAll(items[1..], seen + {items[0].key});
    }
  }

  /** Marks after the first `n` selections of an undisturbed run. */
  ghost function MarksAfter(items: seq<Item>, seen: set<Key>, groupIdentical: bool, n: nat): set<Key>
    requires InTiers(items) && n <= |ReviewOrder(items, seen, groupIdentical)|
  {
    var taken := ReviewOrder(items, seen, groupIdentical)[..n];
    seen + KeysOf(taken) + KeysOf(GroupedWith(Fresh(items, seen), taken, groupIdentical))
  }

  /** No scheduled capture is ever found marked: each one is offered, with its whole group. */
  lemma {:induction false} NothingSkipped(items: seq<Item>, seen: set<Key>, groupIdentical: bool, n: nat)
    requires InTiers(items) && n < |ReviewOrder(items, seen, groupIdentical)|
    ensures var x := ReviewOrder(items, seen, groupIdentical)[n];
            var marks := MarksAfter(items, seen, groupIdentical, n);
            var members := FollowersOf(Fresh(items, seen), x.key, groupIdentical);
            && x.key !in marks
            && Unmarked(members, marks + {x.key}) == members
  {
    hide ReviewOrder, Fresh, GroupedWith, FollowersOf, KeysOf, Unmarked, DistinctKeys;
    var order, d := ReviewOrder(items, seen, groupIdentical), Fresh(items, seen);
    ExactlyOnce(items, seen, groupIdentical);
    var x, before, after := order[n], order[..n], order[n + 1..];
    var members := FollowersOf(d, x.key, groupIdentical);
    assert order == before + [x] + after;
    GroupedConcat(d, before + [x], after, groupIdentical);
    GroupedConcat(d, before, [x], groupIdentical);
    GroupedOne(d, x, groupIdentical);
    var g, g' := GroupedWith(d, before, groupIdentical), GroupedWith(d, after, groupIdentical);
    var all := (before + [x] + after) + (g + members + g');
    assert multiset(all) == multiset(order) + multiset(GroupedWith(d, order, groupIdentical));
    DistinctPermutes(d, all);
    KeysApart(d, all, before, x, after, g, members, g', seen);
    UnmarkedAll(members, MarksAfter(items, seen, groupIdentical, n) + {x.key});
  }

  lemma KeysConcat(a: seq<Item>, b: seq<Item>)
    ensures KeysOf(a + b) == KeysOf(a) + KeysOf(b)
  {
    assert forall x :: x in a + b <==> x in a || x in b;
  }

  lemma DistinctConcat(a: seq<Item>, b: seq<Item>)
    requires DistinctKeys(a + b)
    ensures DistinctKeys(a) && DistinctKeys(b) && KeysOf(a) !! KeysOf(b)
  {
    var s := a + b;
    forall i, j | 0 <= i < j < |a| ensures a[i].key != a[j].key { assert s[i] == a[i] && s[j] == a[j]; }
    forall i, j | 0 <= i < j < |b| ensures b[i].key != b[j].key {
      assert s[|a| + i] == b[i] && s[|a| + j] == b[j];
    }
    forall i, j | 0 <= i < |a| && 0 <= j < |b| ensures a[i].key != b[j].key {
      assert s[i] == a[i] && s[|a| + j] == b[j];
    }
  }

  lemma KeysApart(d: seq<Item>, all: seq<Item>, before: seq<Item>, x: Item, after: seq<Item>,
                  g: seq<Item>, members: seq<Item>, g': seq<Item>, seen: set<Key>)
    requires all == (before + [x] + after) + (g + members + g') && DistinctKeys(all)
    requires multiset(all) == multiset(d) && KeysOf(d) !! seen
    ensures x.key !in seen + KeysOf(before) + KeysOf(g)
    ensures DistinctKeys(members) && KeysOf(members) !! seen + KeysOf(before) + KeysOf(g) + {x.key}
  {
    DistinctConcat(before + [x] + after, g + members + g');
    DistinctConcat(before + [x], after);
    DistinctConcat(before, [x]);
    DistinctConcat(g + members, g');
    DistinctConcat(g, members);
    KeysConcat(before + [x], after);
    KeysConcat(before, [x]);
    KeysConcat(g + members, g');
    KeysConcat(g, members);
    assert x.key in KeysOf([x]);
    forall k | k in KeysOf(all) ensures k !in seen {
      var y :| y in all && y.key == k;
      assert y in multiset(d);
      assert y.key in KeysOf(d);
    }
    KeysConcat(before + [x] + after, g + members + g');
  }

  lemma {:induction false} MarksStep(items: seq<Item>, seen: set<Key>, groupIdentical: bool, n: nat)
    requires InTiers(items) && n < |ReviewOrder(items, seen, groupIdentical)|
    ensures var order, d := ReviewOrder(items, seen, groupIdentical), Fresh(items, seen);
            var members := FollowersOf(d, order[n].key, groupIdentical);
            && GroupedWith(d, order[..n + 1], groupIdentical)
               == GroupedWith(d, order[..n], groupIdentical) + members
            && MarksAfter(items, seen, groupIdentical, n + 1)
               == MarksAfter(items, seen, groupIdentical, n) + {order[n].key} + KeysOf(members)
  {
    var order, d := ReviewOrder(items, seen, groupIdentical), Fresh(items, seen);
    var taken, x := order[..n], order[n];
    assert order[..n + 1] == taken + [x];
    GroupedConcat(d, taken, [x], groupIdentical);
    GroupedOne(d, x, groupIdentical);
    KeysConcat(taken, [x]);
    KeysConcat(GroupedWith(d, taken, groupIdentical), FollowersOf(d, x.key, groupIdentical));
    assert KeysOf([x]) == {x.key};
  }

  /** The frontier after `n` selections of an undisturbed run. */
  ghost predicate AtStep(frontier: Frontier, items: seq<Item>, marked: set<Key>, groupIdentical: bool, n: nat)
    requires InTiers(items)
    reads frontier
  {
    var order := ReviewOrder(items, marked, groupIdentical);
    && frontier.Valid() && n <= |order|
    && Order(frontier.tiers) == order[n..]
    && frontier.followers == BuildOf(items, marked, groupIdentical).followers
    && frontier.seen == MarksAfter(items, marked, groupIdentical, n)
  }

  lemma FirstOffered(items: seq<Item>, marked: set<Key>, groupIdentical: bool, n: nat)
    requires InTiers(items) && n <= |ReviewOrder(items, marked, groupIdentical)|
    ensures var order := ReviewOrder(items, marked, groupIdentical);
            var marks := MarksAfter(items, marked, groupIdentical, n);
            FirstUnseen(order[n..], marks) == 0
  {
    var rest := ReviewOrder(items, marked, groupIdentical)[n..];
    if rest != [] { NothingSkipped(items, marked, groupIdentical, n); }
  }

  method Start(captured: seq<Option<Item>>, marked: set<Key>, groupIdentical: bool) returns (frontier: Frontier)
    requires InTiers(WellFormed(captured))
    ensures fresh(frontier) && AtStep(frontier, WellFormed(captured), marked, groupIdentical, 0)
  {
    frontier := new Frontier(captured, marked, groupIdentical);
    ghost var order := ReviewOrder(WellFormed(captured), marked, groupIdentical);
    assert order[..0] == [] && order[0..] == order;
  }

  /** One selection of an undisturbed run. */
  method Step(frontier: Frontier, ghost items: seq<Item>, ghost marked: set<Key>, ghost groupIdentical: bool,
              ghost n: nat) returns (next: Option<Item>, members: seq<Item>)
    requires InTiers(items) && AtStep(frontier, items, marked, groupIdentical, n)
    modifies frontier
    ensures var order := ReviewOrder(items, marked, groupIdentical);
            if n < |order| then
              && next == Some(order[n]) && AtStep(frontier, items, marked, groupIdentical, n + 1)
              && members == FollowersOf(Fresh(items, marked), order[n].key, groupIdentical)
            else
              next == None && members == [] && AtStep(frontier, items, marked, groupIdentical, n)
  {
    hide BuildOf, Order, ReviewOrder, Fresh, FirstUnseen, FollowersOf, KeysOf;
    hide Unmarked, GroupedWith, MarksAfter, Members;
    FirstOffered(items, marked, groupIdentical, n);
    BuildAgrees(items, marked, groupIdentical);
    ghost var order := ReviewOrder(items, marked, groupIdentical);
    next, members := frontier.Next();
    if n < |order| {
      NothingSkipped(items, marked, groupIdentical, n);
      MarksStep(items, marked, groupIdentical, n);
      assert order[n..][1..] == order[n + 1..];
    }
  }

  /** A consumer with a bound: stopping after any number of selections leaves marked exactly
      what was marked before, what it took, and the groups of what it took. */
  method Review(captured: seq<Option<Item>>, marked: set<Key>, groupIdentical: bool, budget: nat)
    returns (reviewed: seq<Item>, grouped: seq<Item>, seen: set<Key>)
    requires InTiers(WellFormed(captured))
    ensures var items := WellFormed(captured);
            var order := ReviewOrder(items, marked, groupIdentical);
            && reviewed == (if budget <= |order| then order[..budget] else order)
            && grouped == GroupedWith(Fresh(items, marked), reviewed, groupIdentical)
            && seen == marked + KeysOf(reviewed) + KeysOf(grouped)
  {
    ghost var items := WellFormed(captured);
    var frontier := Start(captured, marked, groupIdentical);
    reviewed, grouped, seen := ReviewUpTo(frontier, items, marked, groupIdentical, budget);
  }

  lemma {:induction false} StepBounds(
      frontier: Frontier, items: seq<Item>, marked: set<Key>, groupIdentical: bool, n: nat)
    requires InTiers(items) && AtStep(frontier, items, marked, groupIdentical, n)
    ensures n <= |ReviewOrder(items, marked, groupIdentical)|
    ensures var taken := ReviewOrder(items, marked, groupIdentical)[..n];
            frontier.seen == marked + KeysOf(taken) + KeysOf(GroupedWith(Fresh(items, marked), taken, groupIdentical))
  {}

  method ReviewUpTo(frontier: Frontier, ghost items: seq<Item>, ghost marked: set<Key>, ghost groupIdentical: bool,
                    budget: nat) returns (reviewed: seq<Item>, grouped: seq<Item>, seen: set<Key>)
    requires InTiers(items) && AtStep(frontier, items, marked, groupIdentical, 0)
    modifies frontier
    ensures var order := ReviewOrder(items, marked, groupIdentical);
            && reviewed == (if budget <= |order| then order[..budget] else order)
            && grouped == GroupedWith(Fresh(items, marked), reviewed, groupIdentical)
            && seen == marked + KeysOf(reviewed) + KeysOf(grouped)
  {
    hide BuildOf, Order, ReviewOrder, Fresh, FollowersOf, KeysOf, AtStep;
    ghost var order := ReviewOrder(items, marked, groupIdentical);
    StepBounds(frontier, items, marked, groupIdentical, 0);
    reviewed, grouped := [], [];
    while |reviewed| < budget
      invariant |reviewed| <= budget && |reviewed| <= |order|
      invariant AtStep(frontier, items, marked, groupIdentical, |reviewed|)
      invariant reviewed == order[..|reviewed|]
      invariant grouped == GroupedWith(Fresh(items, marked), reviewed, groupIdentical)
    {
      var next, members := Step(frontier, items, marked, groupIdentical, |reviewed|);
      if next.None? {
        break;
      }
      StepBounds(frontier, items, marked, groupIdentical, |reviewed| + 1);
      assert order[..|reviewed| + 1] == order[..|reviewed|] + [order[|reviewed|]];
      reviewed := reviewed + [next.value];
      grouped := grouped + members;
    }
    assert order[..|order|] == order;
    StepBounds(frontier, items, marked, groupIdentical, |reviewed|);
    seen := frontier.seen;
  }
}
