/** The review scheduler: exact observations are deduplicated, identical contents share one
    representative, and what is left is taken tier by tier, families and routes in turns. */
module ReviewFrontier {
  import opened Options
  import opened Captures
  import opened RoundRobin

  datatype Lane = Lane(route: RouteId, queue: seq<Item>)
  datatype Turns = Turns(family: FamilyId, lanes: seq<Lane>)

  const TIERS: nat := 4

  function Queues(lanes: seq<Lane>): (qs: seq<seq<Item>>)
    ensures |qs| == |lanes| && forall i :: 0 <= i < |qs| ==> qs[i] == lanes[i].queue
  {
    seq(|lanes|, i requires 0 <= i < |lanes| => lanes[i].queue)
  }

  // ------------------------------------------------------------------
  // Filling the nested queues (insertion-ordered dictionaries of deques).
  // ------------------------------------------------------------------

  function AddToLane(lanes: seq<Lane>, item: Item): seq<Lane> {
    if lanes == [] then [Lane(item.route, [item])]
    else if lanes[0].route == item.route then [lanes[0].(queue := lanes[0].queue + [item])] + lanes[1..]
    else [lanes[0]] + AddToLane(lanes[1..], item)
  }

  function AddToFamily(turns: seq<Turns>, item: Item): seq<Turns> {
    if turns == [] then [Turns(item.family, [Lane(item.route, [item])])]
    else if turns[0].family == item.family then
      [turns[0].(lanes := AddToLane(turns[0].lanes, item))] + turns[1..]
    else [turns[0]] + AddToFamily(turns[1..], item)
  }

  ghost function RouteNames(lanes: seq<Lane>): set<RouteId> {
    if lanes == [] then {} else {lanes[0].route} + RouteNames(lanes[1..])
  }

  ghost function FamilyNames(turns: seq<Turns>): set<FamilyId> {
    if turns == [] then {} else {turns[0].family} + FamilyNames(turns[1..])
  }

  ghost predicate LaneOk(lane: Lane, tier: nat, family: FamilyId) {
    lane.queue != [] && forall x :: x in lane.queue ==> x.route == lane.route && x.family == family && x.tier == tier
  }

  /** Distinct names, non-empty queues, every item filed under its own route, family and tier. */
  ghost predicate LanesOk(lanes: seq<Lane>, tier: nat, family: FamilyId) {
    lanes == [] || (&& LaneOk(lanes[0], tier, family)
                    && lanes[0].route !in RouteNames(lanes[1..])
                    && LanesOk(lanes[1..], tier, family))
  }

  ghost predicate TurnsOk(turns: seq<Turns>, tier: nat) {
    turns == [] || (&& turns[0].lanes != [] && LanesOk(turns[0].lanes, tier, turns[0].family)
                    && turns[0].family !in FamilyNames(turns[1..])
                    && TurnsOk(turns[1..], tier))
  }

  ghost predicate TiersOk(tiers: seq<seq<Turns>>) {
    |tiers| == TIERS && forall t :: 0 <= t < TIERS ==> TurnsOk(tiers[t], t)
  }

  function InLane(lanes: seq<Lane>, route: RouteId): seq<Item> {
    if lanes == [] then [] else if lanes[0].route == route then lanes[0].queue else InLane(lanes[1..], route)
  }

  function InFamily(turns: seq<Turns>, family: FamilyId, route: RouteId): seq<Item> {
    if turns == [] then []
    else if turns[0].family == family then InLane(turns[0].lanes, route)
    else InFamily(turns[1..], family, route)
  }

  lemma {:induction false} AddToLaneOk(lanes: seq<Lane>, item: Item)
    requires LanesOk(lanes, item.tier, item.family)
    ensures LanesOk(AddToLane(lanes, item), item.tier, item.family)
    ensures RouteNames(AddToLane(lanes, item)) == RouteNames(lanes) + {item.route}
  {
    if lanes != [] && lanes[0].route != item.route {
      AddToLaneOk(lanes[1..], item);
      assert AddToLane(lanes, item)[1..] == AddToLane(lanes[1..], item);
    } else if lanes != [] {
      assert AddToLane(lanes, item)[1..] == lanes[1..];
    }
  }

  lemma {:induction false} AddToLaneAppends(lanes: seq<Lane>, item: Item, route: RouteId)
    ensures InLane(AddToLane(lanes, item), route)
         == InLane(lanes, route) + if route == item.route then [item] else []
  {
    if lanes != [] {
      if lanes[0].route != item.route { AddToLaneAppends(lanes[1..], item, route); }
      assert AddToLane(lanes, item)[1..] == if lanes[0].route == item.route then lanes[1..]
                                            else AddToLane(lanes[1..], item);
    }
  }

  lemma {:induction false} AddToFamilyOk(turns: seq<Turns>, item: Item)
    requires TurnsOk(turns, item.tier)
    ensures TurnsOk(AddToFamily(turns, item), item.tier)
    ensures FamilyNames(AddToFamily(turns, item)) == FamilyNames(turns) + {item.family}
  {
    if turns == [] {
      assert LanesOk([Lane(item.route, [item])], item.tier, item.family);
    } else if turns[0].family == item.family {
      AddToLaneOk(turns[0].lanes, item);
      assert AddToFamily(turns, item)[1..] == turns[1..];
    } else {
      AddToFamilyOk(turns[1..], item);
      assert AddToFamily(turns, item)[1..] == AddToFamily(turns[1..], item);
    }
  }

  lemma {:induction false} AddToFamilyAppends(turns: seq<Turns>, item: Item, family: FamilyId, route: RouteId)
    ensures InFamily(AddToFamily(turns, item), family, route)
         == InFamily(turns, family, route) + if family == item.family && route == item.route then [item] else []
  {
    if turns == [] {
      assert InLane([Lane(item.route, [item])], route) == if route == item.route then [item] else [];
    } else if turns[0].family == item.family {
      AddToLaneAppends(turns[0].lanes, item, route);
      assert AddToFamily(turns, item)[1..] == turns[1..];
    } else {
      AddToFamilyAppends(turns[1..], item, family, route);
      assert AddToFamily(turns, item)[1..] == AddToFamily(turns[1..], item);
    }
  }

  // ------------------------------------------------------------------
  // Taking turns: the drain of one tier, and of all tiers.
  // ------------------------------------------------------------------

  ghost predicate Filled(turns: seq<Turns>) {
    forall i :: 0 <= i < |turns| ==> turns[i].lanes != [] && AllNonEmpty(Queues(turns[i].lanes))
  }

  /** The first route of a family loses its oldest capture and moves to the back unless emptied. */
  function LaneTurn(lanes: seq<Lane>): seq<Lane>
    requires lanes != [] && AllNonEmpty(Queues(lanes))
  {
    assert Queues(lanes)[0] == lanes[0].queue;
    lanes[1..] + if |lanes[0].queue| > 1 then [lanes[0].(queue := lanes[0].queue[1..])] else []
  }

  /** The first family does the same with its routes. */
  function FamilyTurn(turns: seq<Turns>): seq<Turns>
    requires Filled(turns) && turns != []
  {
    var lanes := LaneTurn(turns[0].lanes);
    turns[1..] + if lanes != [] then [turns[0].(lanes := lanes)] else []
  }

  function Front(turns: seq<Turns>): Item
    requires Filled(turns) && turns != []
  {
    assert Queues(turns[0].lanes)[0] == turns[0].lanes[0].queue;
    turns[0].lanes[0].queue[0]
  }

  /** What each family would serve on its own. */
  ghost function Contents(turns: seq<Turns>): (qs: seq<seq<Item>>)
    requires Filled(turns)
    ensures |qs| == |turns| && AllNonEmpty(qs)
    ensures forall i :: 0 <= i < |qs| ==> qs[i] == Serve(Queues(turns[i].lanes))
  {
    var qs := seq(|turns|, i requires 0 <= i < |turns| => Serve(Queues(turns[i].lanes)));
    assert forall i :: 0 <= i < |qs| ==> Queues(turns[i].lanes) != [];
    qs
  }

  lemma LaneTurnServes(lanes: seq<Lane>)
    requires lanes != [] && AllNonEmpty(Queues(lanes))
    ensures Queues(LaneTurn(lanes)) == Turn(Queues(lanes))
    ensures Serve(Queues(LaneTurn(lanes))) == Serve(Queues(lanes))[1..]
    ensures Serve(Queues(lanes))[0] == lanes[0].queue[0]
  {}

  lemma FamilyTurnServes(turns: seq<Turns>)
    requires Filled(turns) && turns != []
    ensures Filled(FamilyTurn(turns))
    ensures Contents(FamilyTurn(turns)) == Turn(Contents(turns))
    ensures Front(turns) == Contents(turns)[0][0]
  {
    LaneTurnServes(turns[0].lanes);
    var lanes, after := LaneTurn(turns[0].lanes), FamilyTurn(turns);
    forall i | 0 <= i < |after|
      ensures after[i].lanes != [] && AllNonEmpty(Queues(after[i].lanes))
    {
      if i < |turns| - 1 { assert after[i] == turns[i + 1]; } else { assert after[i].lanes == lanes; }
    }
  }

  ghost function TierOrder(turns: seq<Turns>): seq<Item>
    requires Filled(turns)
    decreases Total(Contents(turns))
  {
    if turns == [] then [] else
      FamilyTurnServes(turns);
      [Front(turns)] + TierOrder(FamilyTurn(turns))
  }

  /** The nested loop is two-level round robin: families in turns over what each family
      serves, and a family's services are its routes in turns. */
  lemma {:induction false} TierOrderIsTwoLevel(turns: seq<Turns>)
    requires Filled(turns)
    ensures TierOrder(turns) == Serve(Contents(turns))
    decreases Total(Contents(turns))
  {
    if turns != [] {
      FamilyTurnServes(turns);
      TierOrderIsTwoLevel(FamilyTurn(turns));
    }
  }

  ghost predicate TiersFilled(tiers: seq<seq<Turns>>) {
    forall t :: 0 <= t < |tiers| ==> Filled(tiers[t])
  }

  ghost function Order(tiers: seq<seq<Turns>>): seq<Item>
    requires TiersFilled(tiers)
  {
    if tiers == [] then [] else
      assert TiersFilled(tiers[1..]);
      TierOrder(tiers[0]) + Order(tiers[1..])
  }

  lemma {:induction false} OrderAt(tiers: seq<seq<Turns>>, t: nat, turns: seq<Turns>)
    requires TiersFilled(tiers) && t < |tiers| && Filled(turns)
    requires forall i :: 0 <= i < t ==> tiers[i] == []
    ensures TiersFilled(tiers[t := turns]) && TiersFilled(tiers[t + 1..])
    ensures Order(tiers[t := turns]) == TierOrder(turns) + Order(tiers[t + 1..])
  {
    if t == 0 {
      assert tiers[0 := turns][1..] == tiers[1..];
    } else {
      assert tiers[0] == [] && TierOrder(tiers[0]) == [];
      OrderAt(tiers[1..], t - 1, turns);
      assert tiers[t := turns][1..] == tiers[1..][t - 1 := turns];
      assert tiers[1..][t..] == tiers[t + 1..];
    }
  }

  lemma PopServes(tiers: seq<seq<Turns>>, t: nat)
    requires TiersFilled(tiers) && t < |tiers| && tiers[t] != []
    requires forall i :: 0 <= i < t ==> tiers[i] == []
    ensures TiersFilled(tiers[t := FamilyTurn(tiers[t])])
    ensures Order(tiers) == [Front(tiers[t])] + Order(tiers[t := FamilyTurn(tiers[t])])
  {
    var turns := tiers[t];
    FamilyTurnServes(turns);
    assert TierOrder(turns) == [Front(turns)] + TierOrder(FamilyTurn(turns));
    hide Order, TierOrder, FamilyTurn, Front, Contents;
    OrderAt(tiers, t, turns);
    OrderAt(tiers, t, FamilyTurn(turns));
    assert tiers[t := turns] == tiers;
    Reassociate([Front(turns)], TierOrder(FamilyTurn(turns)), Order(tiers[t + 1..]));
  }

  lemma {:induction false} OrderEmpty(tiers: seq<seq<Turns>>)
    requires TiersFilled(tiers) && forall t :: 0 <= t < |tiers| ==> tiers[t] == []
    ensures Order(tiers) == []
  {
    if tiers != [] { assert tiers[0] == []; OrderEmpty(tiers[1..]); }
  }

  // ------------------------------------------------------------------
  // The generator, suspended between two selections.
  // ------------------------------------------------------------------

  function KeysOf(items: seq<Item>): set<Key> { set x | x in items :: x.key }

  function Members(followers: map<Key, seq<Item>>, key: Key): seq<Item> {
    if key in followers then followers[key] else []
  }

  function MemberKeys(followers: map<Key, seq<Item>>, taken: seq<Item>): set<Key> {
    set x, y | x in taken && y in Members(followers, x.key) :: y.key
  }

  lemma MarksGrow(followers: map<Key, seq<Item>>, taken: seq<Item>, item: Item)
    ensures KeysOf(taken + [item]) == KeysOf(taken) + {item.key}
    ensures MemberKeys(followers, taken + [item])
         == MemberKeys(followers, taken) + KeysOf(Members(followers, item.key))
  {
    forall x | x in taken + [item] ensures x in taken || x == item {}
    forall k | k in MemberKeys(followers, taken) + KeysOf(Members(followers, item.key))
      ensures k in MemberKeys(followers, taken + [item])
    {
      if k in MemberKeys(followers, taken) {
        var x, y :| x in taken && y in Members(followers, x.key) && y.key == k;
        assert x in taken + [item];
      } else {
        assert item in taken + [item];
      }
    }
    forall k | k in KeysOf(taken) + {item.key} ensures k in KeysOf(taken + [item]) {
      if k != item.key {
        var x :| x in taken && x.key == k;
        assert x in taken + [item];
      } else {
        assert item in taken + [item];
      }
    }
  }

  /** The captures of `items` whose key is not marked yet, marking as it goes. */
  function Unmarked(items: seq<Item>, seen: set<Key>): seq<Item> {
    if items == [] then []
    else if items[0].key in seen then Unmarked(items[1..], seen)
    else [items[0]] + Unmarked(items[1..], seen + {items[0].key})
  }

  lemma {:induction false} UnmarkedStep(items: seq<Item>, i: nat, seen: set<Key>)
    requires i < |items|
    ensures Unmarked(items[i..], seen)
         == if items[i].key in seen then Unmarked(items[i + 1..], seen)
            else [items[i]] + Unmarked(items[i + 1..], seen + {items[i].key})
    ensures KeysOf(items[..i + 1]) == KeysOf(items[..i]) + {items[i].key}
  {
    assert items[i..][0] == items[i] && items[i..][1..] == items[i + 1..];
    assert items[..i + 1] == items[..i] + [items[i]];
  }

  lemma {:induction false} NothingMarked(items: seq<Item>, seen: set<Key>)
    ensures KeysOf(items[..0]) == {} && items[0..] == items && items[..|items|] == items
    ensures Unmarked(items[|items|..], seen) == []
  {}

  /** Index of the first capture not marked, or |order|. */
  function FirstUnseen(order: seq<Item>, seen: set<Key>): (n: nat)
    ensures n <= |order|
    ensures forall i :: 0 <= i < n ==> order[i].key in seen
    ensures n < |order| ==> order[n].key !in seen
  {
    if order == [] || order[0].key !in seen then 0 else 1 + FirstUnseen(order[1..], seen)
  }

  datatype Build = Build(
    tiers: seq<seq<Turns>>, queued: set<Key>, representatives: map<ContentKey, Key>,
    followers: map<Key, seq<Item>>)

  const EMPTY_BUILD: Build := Build([[], [], [], []], {}, map[], map[])

  /** One well-formed capture enters the queues, joins its representative, or is a duplicate. */
  function Admit(b: Build, item: Item, seen: set<Key>, groupIdentical: bool): Build
    requires |b.tiers| == TIERS && item.tier < TIERS
  {
    if item.key in seen || item.key in b.queued then b
    else
      var b := b.(queued := b.queued + {item.key});
      if groupIdentical && item.content.Some? && item.content.value in b.representatives then
        var rep := b.representatives[item.content.value];
        b.(followers := b.followers[rep := Members(b.followers, rep) + [item]])
      else
        var b := if groupIdentical && item.content.Some?
                 then b.(representatives := b.representatives[item.content.value := item.key]) else b;
        b.(tiers := b.tiers[item.tier := AddToFamily(b.tiers[item.tier], item)])
  }

  ghost predicate InTiers(items: seq<Item>) { forall x :: x in items ==> x.tier < TIERS }

  function BuildOf(items: seq<Item>, seen: set<Key>, groupIdentical: bool): (b: Build)
    requires InTiers(items)
    ensures |b.tiers| == TIERS
  {
    if items == [] then EMPTY_BUILD
    else Admit(BuildOf(items[..|items| - 1], seen, groupIdentical), items[|items| - 1], seen, groupIdentical)
  }

  function WellFormed(captured: seq<Option<Item>>): seq<Item> {
    if captured == [] then []
    else WellFormed(captured[..|captured| - 1])
         + match captured[|captured| - 1] { case None => [] case Some(item) => [item] }
  }

  class Frontier {
    var seen: set<Key>
    var tiers: seq<seq<Turns>>
    var followers: map<Key, seq<Item>>

    ghost var start: set<Key>      // marked before the scheduler ran
    ghost var added: set<Key>      // marked by the consumer since
    ghost var taken: seq<Item>     // handed to the consumer, in order

    ghost predicate Valid()
      reads this
    {
      && TiersFilled(tiers)
      && seen == start + added + KeysOf(taken) + MemberKeys(followers, taken)
    }

    constructor (captured: seq<Option<Item>>, marked: set<Key>, groupIdentical: bool)
      requires InTiers(WellFormed(captured))
      ensures var b := BuildOf(WellFormed(captured), marked, groupIdentical);
              tiers == b.tiers && followers == b.followers
      ensures Valid() && seen == start == marked && added == {} && taken == []
    {
      var b := EMPTY_BUILD;
      for i := 0 to |captured|
        invariant InTiers(WellFormed(captured[..i]))
        invariant b == BuildOf(WellFormed(captured[..i]), marked, groupIdentical)
      {
        BuildStep(captured, i, marked, groupIdentical);
        match captured[i]
        case None =>
        case Some(item) => b := Admit(b, item, marked, groupIdentical);
      }
      assert captured[..|captured|] == captured;
      BuildFilled(WellFormed(captured), marked, groupIdentical);
      seen, tiers, followers := marked, b.tiers, b.followers;
      start, added, taken := marked, {}, [];
    }

    /** The consumer marks observations of its own between selections. */
    method Mark(keys: set<Key>)
      requires Valid()
      modifies this
      ensures Valid() && seen == old(seen) + keys && added == old(added) + keys
      ensures tiers == old(tiers) && followers == old(followers) && taken == old(taken) && start == old(start)
    {
      seen, added := seen + keys, added + keys;
    }

    /** Selects the first unmarked capture of the drain order. It and the unmarked captures
        of its group are marked, nothing else is. */
    method Next() returns (next: Option<Item>, grouped: seq<Item>)
      requires Valid()
      modifies this
      ensures Valid() && followers == old(followers) && start == old(start) && added == old(added)
      ensures var order := old(Order(tiers)); var n := FirstUnseen(order, old(seen));
              if n == |order| then
                && next == None && grouped == [] && Order(tiers) == []
                && seen == old(seen) && taken == old(taken)
              else
                && next == Some(order[n]) && Order(tiers) == order[n + 1..]
                && grouped == Unmarked(Members(followers, order[n].key), old(seen) + {order[n].key})
                && seen == old(seen) + {order[n].key} + KeysOf(Members(followers, order[n].key))
                && taken == old(taken) + [order[n]]
    {
      hide Order, FirstUnseen, TiersFilled, KeysOf, MemberKeys, Members, Unmarked;
      next := Search();
      grouped := [];
      if next.Some? {
        grouped := Select(next.value);
      }
    }

    /** The drain loop up to the next unmarked capture: marked ones are dropped on the way. */
    method Search() returns (next: Option<Item>)
      requires TiersFilled(tiers)
      modifies this`tiers
      ensures TiersFilled(tiers)
      ensures var order := old(Order(tiers)); var n := FirstUnseen(order, seen);
              if n == |order| then next == None && Order(tiers) == []
              else next == Some(order[n]) && Order(tiers) == order[n + 1..]
    {
      hide Order, FirstUnseen, Filled;
      ghost var order := Order(tiers);
      ghost var skipped: nat := 0;
      assert order[0..] == order;
      next := None;
      var t := 0;
      while t < |tiers| && next.None?
        invariant t <= |tiers| && TiersFilled(tiers) && skipped <= |order|
        invariant next.None? ==> Searching(order, skipped, t)
        invariant next.Some? ==> Found(order, skipped, next.value)
        decreases |tiers| - t
      {
        next, skipped := SearchTier(order, skipped, t);
        t := t + 1;
      }
      if next.None? {
        OrderEmpty(tiers);
      }
    }

    /** The turns of one tier, up to an unmarked capture. */
    method SearchTier(ghost order: seq<Item>, ghost dropped: nat, t: nat)
      returns (next: Option<Item>, ghost skipped: nat)
      requires Searching(order, dropped, t) && t < |tiers|
      modifies this`tiers
      ensures |tiers| == old(|tiers|) && TiersFilled(tiers) && skipped <= |order|
      ensures next.None? ==> Searching(order, skipped, t + 1)
      ensures next.Some? ==> Found(order, skipped, next.value)
    {
      hide Order, Filled;
      skipped := dropped;
      while tiers[t] != []
        invariant t < |tiers| == old(|tiers|) && Searching(order, skipped, t)
        decreases |order| - skipped
      {
        var item := Pop(t);
        assert item == order[skipped] && Order(tiers) == order[skipped + 1..];
        if item.key !in seen {
          return Some(item), skipped;
        }
        skipped := skipped + 1;
      }
      return None, skipped;
    }

    /** The capture at `skipped` is the first unmarked one, and it has been taken. */
    ghost predicate Found(order: seq<Item>, skipped: nat, item: Item)
      reads this
    {
      && TiersFilled(tiers) && skipped < |order| && order[skipped] == item && item.key !in seen
      && Order(tiers) == order[skipped + 1..]
      && (forall i :: 0 <= i < skipped ==> order[i].key in seen)
    }

    /** Nothing but marked captures has been dropped so far, and the tiers before `t` are done. */
    ghost predicate Searching(order: seq<Item>, skipped: nat, t: nat)
      reads this
    {
      && TiersFilled(tiers) && t <= |tiers|
      && (forall i :: 0 <= i < t ==> tiers[i] == [])
      && skipped <= |order| && Order(tiers) == order[skipped..]
      && (forall i :: 0 <= i < skipped ==> order[i].key in seen)
    }

    /** One turn of the first unfinished tier. */
    method Pop(t: nat) returns (item: Item)
      requires t < |tiers| && TiersFilled(tiers) && tiers[t] != []
      requires forall i :: 0 <= i < t ==> tiers[i] == []
      modifies this`tiers
      ensures |tiers| == old(|tiers|) && TiersFilled(tiers)
      ensures forall i :: 0 <= i < t ==> tiers[i] == []
      ensures old(Order(tiers)) == [item] + Order(tiers)
    {
      ghost var before := tiers;
      item := Front(tiers[t]);
      tiers := tiers[t := FamilyTurn(tiers[t])];
      PopServes(before, t);
    }

    /** The selected capture is marked, then the members of its group. */
    method Select(item: Item) returns (grouped: seq<Item>)
      requires Valid() && item.key !in seen
      modifies this`seen, this`taken
      ensures Valid() && taken == old(taken) + [item]
      ensures grouped == Unmarked(Members(followers, item.key), old(seen) + {item.key})
      ensures seen == old(seen) + {item.key} + KeysOf(Members(followers, item.key))
    {
      hide TiersFilled, Members, KeysOf, MemberKeys, Unmarked;
      seen := seen + {item.key};
      grouped := MarkMembers(item);
      taken := taken + [item];
      MarksGrow(followers, old(taken), item);
    }

    method MarkMembers(item: Item) returns (grouped: seq<Item>)
      modifies this`seen
      ensures grouped == Unmarked(Members(followers, item.key), old(seen))
      ensures seen == old(seen) + KeysOf(Members(followers, item.key))
    {
      hide KeysOf, Unmarked, Members;
      var members := Members(followers, item.key);
      grouped := [];
      NothingMarked(members, seen);
      for i := 0 to |members|
        invariant seen == old(seen) + KeysOf(members[..i])
        invariant grouped + Unmarked(members[i..], seen) == Unmarked(members, old(seen))
      {
        UnmarkedStep(members, i, seen);
        if members[i].key !in seen {
          seen := seen + {members[i].key};
          grouped := grouped + [members[i]];
        }
      }
      NothingMarked(members, seen);
    }
  }

  lemma {:induction false} BuildStep(captured: seq<Option<Item>>, i: nat, marked: set<Key>, groupIdentical: bool)
    requires i < |captured| && InTiers(WellFormed(captured))
    ensures InTiers(WellFormed(captured[..i])) && InTiers(WellFormed(captured[..i + 1]))
    ensures captured[i].Some? ==> captured[i].value.tier < TIERS
    ensures BuildOf(WellFormed(captured[..i + 1]), marked, groupIdentical) ==
            match captured[i]
            case None => BuildOf(WellFormed(captured[..i]), marked, groupIdentical)
            case Some(item) =>
              Admit(BuildOf(WellFormed(captured[..i]), marked, groupIdentical), item, marked, groupIdentical)
  {
    TiersOfPrefix(captured, i);
    TiersOfPrefix(captured, i + 1);
    var before, upto := WellFormed(captured[..i]), captured[..i + 1];
    assert upto[..|upto| - 1] == captured[..i] && upto[|upto| - 1] == captured[i];
    if captured[i].Some? {
      var after := WellFormed(upto);
      assert after == before + [captured[i].value];
      assert after[..|after| - 1] == before && after[|after| - 1] == captured[i].value;
    } else {
      assert WellFormed(upto) == before + [] == before;
    }
  }

  lemma {:induction false} TiersOfPrefix(captured: seq<Option<Item>>, n: nat)
    requires n <= |captured| && InTiers(WellFormed(captured))
    ensures InTiers(WellFormed(captured[..n]))
    decreases |captured|
  {
    if n == |captured| {
      assert captured[..n] == captured;
    } else {
      var shorter := captured[..|captured| - 1];
      assert forall x :: x in WellFormed(shorter) ==> x in WellFormed(captured);
      TiersOfPrefix(shorter, n);
      assert shorter[..n] == captured[..n];
    }
  }

  lemma {:induction false} TurnsOkIsFilled(turns: seq<Turns>, tier: nat)
    requires TurnsOk(turns, tier)
    ensures Filled(turns)
  {
    if turns != [] {
      TurnsOkIsFilled(turns[1..], tier);
      LanesOkIsOwned(turns[0].lanes, tier, turns[0].family);
      forall i | 0 <= i < |turns| ensures turns[i].lanes != [] && AllNonEmpty(Queues(turns[i].lanes)) {
        if i > 0 { assert turns[i] == turns[1..][i - 1]; }
      }
    }
  }

  function ItemFamily(x: Item): FamilyId { x.family }
  function ItemRoute(x: Item): RouteId { x.route }

  lemma {:induction false} LanesOkIsOwned(lanes: seq<Lane>, tier: nat, family: FamilyId)
    requires LanesOk(lanes, tier, family)
    ensures Owned(Queues(lanes), ItemRoute)
    ensures forall i :: 0 <= i < |lanes| ==> LaneOk(lanes[i], tier, family) && lanes[i].route in RouteNames(lanes)
  {
    if lanes != [] {
      LanesOkIsOwned(lanes[1..], tier, family);
      var qs := Queues(lanes);
      forall i | 0 <= i < |lanes| ensures LaneOk(lanes[i], tier, family) && lanes[i].route in RouteNames(lanes) {
        if i > 0 { assert lanes[i] == lanes[1..][i - 1]; }
      }
      forall i, j | 0 <= i < j < |qs| ensures ItemRoute(qs[i][0]) != ItemRoute(qs[j][0]) {
        assert lanes[j] == lanes[1..][j - 1];
        assert lanes[j].route in RouteNames(lanes[1..]);
        if i > 0 {
          assert Queues(lanes[1..])[i - 1] == qs[i] && Queues(lanes[1..])[j - 1] == qs[j];
        } else {
          assert qs[0][0] in lanes[0].queue && qs[j][0] in lanes[j].queue;
        }
      }
    }
  }

  lemma AdmitOk(b: Build, item: Item, seen: set<Key>, groupIdentical: bool)
    requires TiersOk(b.tiers) && item.tier < TIERS
    ensures TiersOk(Admit(b, item, seen, groupIdentical).tiers)
  {
    AddToFamilyOk(b.tiers[item.tier], item);
  }

  lemma {:induction false} BuildFilled(items: seq<Item>, seen: set<Key>, groupIdentical: bool)
    requires InTiers(items)
    ensures TiersOk(BuildOf(items, seen, groupIdentical).tiers)
    ensures TiersFilled(BuildOf(items, seen, groupIdentical).tiers)
  {
    if items != [] {
      BuildFilled(items[..|items| - 1], seen, groupIdentical);
      AdmitOk(BuildOf(items[..|items| - 1], seen, groupIdentical), items[|items| - 1], seen, groupIdentical);
    }
    TiersOkAreFilled(BuildOf(items, seen, groupIdentical).tiers);
  }

  lemma TiersOkAreFilled(tiers: seq<seq<Turns>>)
    requires TiersOk(tiers)
    ensures TiersFilled(tiers)
  {
    forall t | 0 <= t < TIERS ensures Filled(tiers[t]) { TurnsOkIsFilled(tiers[t], t); }
  }
}
