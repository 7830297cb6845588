/** Round-robin service of a list of queues, the pattern the review scheduler uses twice:
    the front queue gives its head and moves to the back unless that emptied it. */
module RoundRobin {

  ghost predicate AllNonEmpty<T>(qs: seq<seq<T>>) {
    forall i :: 0 <= i < |qs| ==> qs[i] != []
  }

  function Total<T>(qs: seq<seq<T>>): nat {
    if qs == [] then 0 else |qs[0]| + Total(qs[1..])
  }

  lemma {:induction false} TotalConcat<T>(a: seq<seq<T>>, b: seq<seq<T>>)
    ensures Total(a + b) == Total(a) + Total(b)
  {
    if a == [] {
      assert a + b == b;
    } else {
      assert (a + b)[1..] == a[1..] + b;
      TotalConcat(a[1..], b);
    }
  }

  /** What is left of one queue after its turn: nothing, or its tail. */
  function Leftover<T>(q: seq<T>): seq<seq<T>>
    requires q != []
  {
    if |q| > 1 then [q[1..]] else []
  }

  function Turn<T>(qs: seq<seq<T>>): (r: seq<seq<T>>)
    requires AllNonEmpty(qs) && qs != []
    ensures AllNonEmpty(r)
    ensures Total(r) == Total(qs) - 1
  {
    TotalConcat(qs[1..], Leftover(qs[0]));
    qs[1..] + Leftover(qs[0])
  }

  /** The service order the scheduler's loop produces. */
  function Serve<T>(qs: seq<seq<T>>): (r: seq<T>)
    requires AllNonEmpty(qs)
    ensures |r| == Total(qs)
    decreases Total(qs)
  {
    if qs == [] then [] else [qs[0][0]] + Serve(Turn(qs))
  }

  // ------------------------------------------------------------------
  // Reference definition: whole rounds, one item from every pending queue.
  // ------------------------------------------------------------------

  function Heads<T>(qs: seq<seq<T>>): seq<T>
    requires AllNonEmpty(qs)
  {
    if qs == [] then [] else [qs[0][0]] + Heads(qs[1..])
  }

  function Rests<T>(qs: seq<seq<T>>): (r: seq<seq<T>>)
    requires AllNonEmpty(qs)
    ensures AllNonEmpty(r)
    ensures Total(r) == Total(qs) - |qs|
  {
    if qs == [] then [] else
      TotalConcat(Leftover(qs[0]), Rests(qs[1..]));
      Leftover(qs[0]) + Rests(qs[1..])
  }

  function Rounds<T>(qs: seq<seq<T>>): seq<T>
    requires AllNonEmpty(qs)
    decreases Total(qs)
  {
    if qs == [] then [] else Heads(qs) + Rounds(Rests(qs))
  }

  lemma {:induction false} ServeFront<T>(a: seq<seq<T>>, b: seq<seq<T>>)
    requires AllNonEmpty(a) && AllNonEmpty(b) && a != []
    ensures AllNonEmpty(a[1..] + (b + Leftover(a[0]))) && AllNonEmpty(a + b)
    ensures Serve(a + b) == [a[0][0]] + Serve(a[1..] + (b + Leftover(a[0])))
  {
    assert AllNonEmpty(a + b);
    assert Turn(a + b) == a[1..] + (b + Leftover(a[0]));
  }

  lemma {:induction false} RestsFront<T>(a: seq<seq<T>>, b: seq<seq<T>>)
    requires AllNonEmpty(a) && a != []
    ensures (b + Leftover(a[0])) + Rests(a[1..]) == b + Rests(a)
  {
    hide Leftover;
    assert Rests(a) == Leftover(a[0]) + Rests(a[1..]);
    Reassociate(b, Leftover(a[0]), Rests(a[1..]));
  }

  lemma Reassociate<T>(a: seq<T>, b: seq<T>, c: seq<T>)
    ensures (a + b) + c == a + (b + c)
  {}

  lemma {:induction false} ServePrefix<T>(a: seq<seq<T>>, b: seq<seq<T>>)
    requires AllNonEmpty(a) && AllNonEmpty(b)
    ensures AllNonEmpty(a + b) && AllNonEmpty(b + Rests(a))
    ensures Serve(a + b) == Heads(a) + Serve(b + Rests(a))
    decreases |a|
  {
    if a == [] {
      assert a + b == b;
      assert b + Rests(a) == b;
    } else {
      var a', b' := a[1..], b + Leftover(a[0]);
      ServePrefix(a', b');
      ServeFront(a, b);
      RestsFront(a, b);
      Reassociate([a[0][0]], Heads(a'), Serve(b + Rests(a)));
    }
  }

  /** The queue-rotating loop serves whole rounds. */
  lemma {:induction false} ServeIsRounds<T>(qs: seq<seq<T>>)
    requires AllNonEmpty(qs)
    ensures Serve(qs) == Rounds(qs)
    decreases Total(qs)
  {
    if qs != [] {
      ServePrefix(qs, []);
      assert qs + [] == qs && [] + Rests(qs) == Rests(qs);
      ServeIsRounds(Rests(qs));
    }
  }

  // ------------------------------------------------------------------
  // Fairness between the owners of the queues.
  // ------------------------------------------------------------------

  /** Every queue holds items of one owner, and no owner has two queues. */
  ghost predicate Owned<T, K>(qs: seq<seq<T>>, owner: T -> K) {
    && AllNonEmpty(qs)
    && (forall i, x :: 0 <= i < |qs| && x in qs[i] ==> owner(x) == owner(qs[i][0]))
    && (forall i, j :: 0 <= i < j < |qs| ==> owner(qs[i][0]) != owner(qs[j][0]))
  }

  function Filter<T>(s: seq<T>, p: T -> bool): seq<T> {
    if s == [] then [] else (if p(s[0]) then [s[0]] else []) + Filter(s[1..], p)
  }

  lemma {:induction false} FilterConcat<T>(a: seq<T>, b: seq<T>, p: T -> bool)
    ensures Filter(a + b, p) == Filter(a, p) + Filter(b, p)
  {
    if a == [] {
      assert a + b == b;
    } else {
      FilterConcat(a[1..], b, p);
      assert (a + b)[0] == a[0] && (a + b)[1..] == a[1..] + b;
    }
  }

  lemma {:induction false} FilterAll<T>(s: seq<T>, p: T -> bool)
    requires forall x :: x in s ==> p(x)
    ensures Filter(s, p) == s
  {
    if s != [] { FilterAll(s[1..], p); }
  }

  lemma {:induction false} FilterNone<T>(s: seq<T>, p: T -> bool)
    requires forall x :: x in s ==> !p(x)
    ensures Filter(s, p) == []
  {
    if s != [] { FilterNone(s[1..], p); }
  }

  lemma TurnOwned<T, K>(qs: seq<seq<T>>, owner: T -> K)
    requires Owned(qs, owner) && qs != []
    ensures Owned(Turn(qs), owner)
  {
    var r := Turn(qs);
    forall i | 0 <= i < |r|
      ensures exists j :: 0 <= j < |qs| && owner(r[i][0]) == owner(qs[j][0])
                          && (forall x :: x in r[i] ==> x in qs[j])
                          && j == if i < |qs| - 1 then i + 1 else 0
    {
      var j := if i < |qs| - 1 then i + 1 else 0;
      assert forall x :: x in r[i] ==> x in qs[j];
      assert r[i][0] in r[i];
    }
  }

  /** The items of owner `k`. */
  function Of<T, K(==)>(owner: T -> K, k: K): T -> bool {
    x => owner(x) == k
  }

  ghost function Served<T, K>(qs: seq<seq<T>>, owner: T -> K, k: K, n: nat): nat
    requires AllNonEmpty(qs) && n <= Total(qs)
  {
    |Filter(Serve(qs)[..n], Of(owner, k))|
  }

  lemma {:induction false} ServedStep<T, K>(qs: seq<seq<T>>, owner: T -> K, k: K, n: nat)
    requires AllNonEmpty(qs) && 0 < n <= Total(qs)
    ensures Served(qs, owner, k, n)
         == (if owner(qs[0][0]) == k then 1 else 0) + Served(Turn(qs), owner, k, n - 1)
  {
    assert Serve(qs)[..n] == [qs[0][0]] + Serve(Turn(qs))[..n - 1];
  }

  /** While queues i (in front) and j are both unfinished, the one in front leads by at most one. */
  lemma {:induction false} LeadAtMostOne<T, K>(qs: seq<seq<T>>, owner: T -> K, i: nat, j: nat, n: nat)
    requires Owned(qs, owner) && i < j < |qs| && n <= Total(qs)
    requires Served(qs, owner, owner(qs[i][0]), n) < |qs[i]|
    requires Served(qs, owner, owner(qs[j][0]), n) < |qs[j]|
    ensures 0 <= Served(qs, owner, owner(qs[i][0]), n) - Served(qs, owner, owner(qs[j][0]), n) <= 1
    decreases n
  {
    if n == 0 {
      assert Serve(qs)[..0] == [];
    } else {
      TurnOwned(qs, owner);
      ServedStep(qs, owner, owner(qs[i][0]), n);
      ServedStep(qs, owner, owner(qs[j][0]), n);
      var r := Turn(qs);
      if i == 0 {
        assert |qs[0]| > 1;
        assert r[|qs| - 1] == qs[0][1..] && r[j - 1] == qs[j];
        assert qs[0][1] in qs[0];
        LeadAtMostOne(r, owner, j - 1, |qs| - 1, n - 1);
      } else {
        assert r[i - 1] == qs[i] && r[j - 1] == qs[j];
        LeadAtMostOne(r, owner, i - 1, j - 1, n - 1);
      }
    }
  }

  ghost function AfterTurns<T>(qs: seq<seq<T>>, k: nat): (r: seq<seq<T>>)
    requires AllNonEmpty(qs) && k <= Total(qs)
    ensures AllNonEmpty(r) && Total(r) == Total(qs) - k
    decreases k
  {
    if k == 0 then qs else AfterTurns(Turn(qs), k - 1)
  }

  lemma {:induction false} AfterTurnsServes<T, K>(qs: seq<seq<T>>, owner: T -> K, k: nat)
    requires Owned(qs, owner) && k <= Total(qs)
    ensures Owned(AfterTurns(qs, k), owner)
    ensures Serve(qs)[k..] == Serve(AfterTurns(qs, k))
    decreases k
  {
    if k > 0 {
      TurnOwned(qs, owner);
      AfterTurnsServes(Turn(qs), owner, k - 1);
    } else {
      assert Serve(qs)[0..] == Serve(qs);
    }
  }

  lemma {:induction false} HeadsIndex<T>(qs: seq<seq<T>>)
    requires AllNonEmpty(qs)
    ensures |Heads(qs)| == |qs|
    ensures forall i :: 0 <= i < |qs| ==> Heads(qs)[i] == qs[i][0]
  {
    if qs != [] { HeadsIndex(qs[1..]); }
  }

  /** Between two consecutive turns of one owner, every other owner with pending items gets
      exactly one turn: the next |pending| + 1 services are one head of every pending queue
      (their owners pairwise distinct), then the first owner again. */
  lemma {:induction false} FairTurn<T, K>(qs: seq<seq<T>>, owner: T -> K, k: nat)
    requires Owned(qs, owner) && k <= Total(qs)
    requires AfterTurns(qs, k) != [] && |AfterTurns(qs, k)[0]| > 1
    ensures var pending := AfterTurns(qs, k);
            var served := Serve(qs)[k..];
            && Owned(pending, owner)
            && |served| > |pending|
            && (forall i :: 0 <= i < |pending| ==> served[i] == pending[i][0])
            && served[|pending|] == pending[0][1]
            && owner(served[|pending|]) == owner(served[0])
            && (forall i, j :: 0 <= i < j < |pending| ==> owner(served[i]) != owner(served[j]))
  {
    AfterTurnsServes(qs, owner, k);
    var pending := AfterTurns(qs, k);
    ServePrefix(pending, []);
    assert pending + [] == pending && [] + Rests(pending) == Rests(pending);
    HeadsIndex(pending);
    assert Rests(pending)[0] == pending[0][1..];
    assert Serve(Rests(pending))[0] == pending[0][1];
    assert pending[0][1] in pending[0];
  }

  lemma ServedHaveOwners<T, K>(qs: seq<seq<T>>, owner: T -> K, m: nat) returns (i: nat)
    requires Owned(qs, owner) && m < Total(qs)
    ensures i < |qs| && owner(qs[i][0]) == owner(Serve(qs)[m])
    decreases m
  {
    if m == 0 { return 0; }
    TurnOwned(qs, owner);
    var r := Turn(qs);
    i := ServedHaveOwners(r, owner, m - 1);
    assert Serve(qs)[m] == Serve(r)[m - 1];
    if i < |qs| - 1 {
      assert r[i] == qs[i + 1];
      i := i + 1;
    } else {
      assert qs[0][1] in qs[0];
      i := 0;
    }
  }

  /** A queue emptied by its turn never comes back. */
  lemma {:induction false} LastTurn<T, K>(qs: seq<seq<T>>, owner: T -> K, j: nat)
    requires Owned(qs, owner) && 0 < j < Total(qs) && |qs[0]| == 1
    ensures owner(Serve(qs)[j]) != owner(qs[0][0])
  {
    var r := Turn(qs);
    TurnOwned(qs, owner);
    var o := ServedHaveOwners(r, owner, j - 1);
    assert r[o] == qs[o + 1];
    assert Serve(qs)[j] == Serve(r)[j - 1];
  }

  lemma {:induction false} OneTurnEachFromFront<T, K>(qs: seq<seq<T>>, owner: T -> K, j: nat, m: nat)
    requires Owned(qs, owner) && 0 < j < Total(qs) && 0 < m < Total(qs)
    requires owner(Serve(qs)[j]) == owner(Serve(qs)[0]) != owner(Serve(qs)[m])
    requires forall k :: 0 < k < j ==> owner(Serve(qs)[k]) != owner(Serve(qs)[0])
    ensures exists k :: 0 < k < j && owner(Serve(qs)[k]) == owner(Serve(qs)[m])
    ensures forall k, l :: 0 < k < l < j ==> owner(Serve(qs)[k]) != owner(Serve(qs)[l])
  {
    var s := Serve(qs);
    if |qs[0]| == 1 { LastTurn(qs, owner, j); }
    assert AfterTurns(qs, 0) == qs && s[0..] == s;
    FairTurn(qs, owner, 0);
    assert j == |qs|;
    var h := ServedHaveOwners(qs, owner, m);
    assert owner(s[h]) == owner(s[m]);
  }

  /** Two consecutive turns `i` and `j` of one owner enclose exactly one turn of every other
      owner that still has something pending after `i`. */
  lemma {:induction false} OneTurnEach<T, K>(qs: seq<seq<T>>, owner: T -> K, i: nat, j: nat, m: nat)
    requires Owned(qs, owner) && i < j < Total(qs) && i < m < Total(qs)
    requires owner(Serve(qs)[j]) == owner(Serve(qs)[i]) != owner(Serve(qs)[m])
    requires forall k :: i < k < j ==> owner(Serve(qs)[k]) != owner(Serve(qs)[i])
    ensures exists k :: i < k < j && owner(Serve(qs)[k]) == owner(Serve(qs)[m])
    ensures forall k, l :: i < k < l < j ==> owner(Serve(qs)[k]) != owner(Serve(qs)[l])
  {
    hide Serve, AfterTurns;
    var s, pending := Serve(qs), AfterTurns(qs, i);
    AfterTurnsServes(qs, owner, i);
    var served := Serve(pending);
    assert forall k :: 0 <= k < |served| ==> served[k] == s[i + k];
    OneTurnEachFromFront(pending, owner, j - i, m - i);
    Shifted(s, served, owner, i, j, m);
  }

  lemma Shifted<T, K>(s: seq<T>, served: seq<T>, owner: T -> K, i: nat, j: nat, m: nat)
    requires i < j <= |s| && i < m < |s| && |served| == |s| - i
    requires forall k :: 0 <= k < |served| ==> served[k] == s[i + k]
    requires exists k :: 0 < k < j - i && owner(served[k]) == owner(served[m - i])
    requires forall k, l :: 0 < k < l < j - i ==> owner(served[k]) != owner(served[l])
    ensures exists k :: i < k < j && owner(s[k]) == owner(s[m])
    ensures forall k, l :: i < k < l < j ==> owner(s[k]) != owner(s[l])
  {
    var k :| 0 < k < j - i && owner(served[k]) == owner(served[m - i]);
    assert owner(s[i + k]) == owner(s[m]);
    forall k, l | i < k < l < j ensures owner(s[k]) != owner(s[l]) {
      assert s[k] == served[k - i] && s[l] == served[l - i];
    }
  }

  // ------------------------------------------------------------------
  // Nothing is lost, and each queue keeps its own order.
  // ------------------------------------------------------------------

  ghost function Union<T>(qs: seq<seq<T>>): multiset<T> {
    if qs == [] then multiset{} else multiset(qs[0]) + Union(qs[1..])
  }

  lemma {:induction false} UnionConcat<T>(a: seq<seq<T>>, b: seq<seq<T>>)
    ensures Union(a + b) == Union(a) + Union(b)
  {
    if a == [] {
      assert a + b == b;
    } else {
      assert (a + b)[1..] == a[1..] + b;
      UnionConcat(a[1..], b);
    }
  }

  lemma LeftoverUnion<T>(q: seq<T>)
    requires q != []
    ensures multiset(q) == multiset([q[0]]) + Union(Leftover(q))
  {
    assert q == [q[0]] + q[1..];
    if |q| > 1 { assert [q[1..]][1..] == []; }
  }

  lemma {:induction false} ServeKeepsAll<T>(qs: seq<seq<T>>)
    requires AllNonEmpty(qs)
    ensures multiset(Serve(qs)) == Union(qs)
    decreases Total(qs)
  {
    if qs != [] {
      ServeKeepsAll(Turn(qs));
      UnionConcat(qs[1..], Leftover(qs[0]));
      LeftoverUnion(qs[0]);
    }
  }

  lemma {:induction false} FilterServe<T>(qs: seq<seq<T>>, p: T -> bool)
    requires AllNonEmpty(qs) && qs != []
    ensures Filter(Serve(qs), p) == (if p(qs[0][0]) then [qs[0][0]] else []) + Filter(Serve(Turn(qs)), p)
  {
    assert Serve(qs)[1..] == Serve(Turn(qs));
  }

  lemma OtherOwner<T, K>(qs: seq<seq<T>>, owner: T -> K, i: nat)
    requires Owned(qs, owner) && 0 < i < |qs|
    ensures owner(qs[0][0]) != owner(qs[i][0])
  {}

  /** The services of one owner are that owner's queue, in order. */
  lemma {:induction false} ServeKeepsOrder<T, K>(qs: seq<seq<T>>, owner: T -> K, i: nat)
    requires Owned(qs, owner) && i < |qs|
    ensures Filter(Serve(qs), Of(owner, owner(qs[i][0]))) == qs[i]
    decreases Total(qs)
  {
    hide Filter;
    var k := owner(qs[i][0]);
    var r := Turn(qs);
    TurnOwned(qs, owner);
    FilterServe(qs, Of(owner, k));
    if i == 0 {
      if |qs[0]| > 1 {
        assert r[|r| - 1] == qs[0][1..] && qs[0][1] in qs[0];
        ServeKeepsOrder(r, owner, |r| - 1);
        assert qs[0] == [qs[0][0]] + qs[0][1..];
      } else {
        ServeSkips(r, owner, k);
      }
    } else {
      OtherOwner(qs, owner, i);
      assert r[i - 1] == qs[i];
      ServeKeepsOrder(r, owner, i - 1);
    }
  }

  lemma {:induction false} ServeSkips<T, K>(qs: seq<seq<T>>, owner: T -> K, k: K)
    requires Owned(qs, owner)
    requires forall i :: 0 <= i < |qs| ==> owner(qs[i][0]) != k
    ensures Filter(Serve(qs), Of(owner, k)) == []
    decreases Total(qs)
  {
    if qs != [] {
      TurnOwned(qs, owner);
      var r := Turn(qs);
      forall i | 0 <= i < |r| ensures owner(r[i][0]) != k {
        if i == |qs| - 1 { assert qs[0][1] in qs[0]; } else { assert r[i] == qs[i + 1]; }
      }
      ServeSkips(r, owner, k);
      assert Serve(qs)[1..] == Serve(r);
    }
  }
}
