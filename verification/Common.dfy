/** Shapes every part of the model uses. */
module Common {
  datatype Option<+T> = None | Some(value: T)

  /** A point where the process may die, if it can die at all. */
  method Dies(mortal: bool) returns (dies: bool)
    ensures dies ==> mortal
  {
    dies := *;
    dies := dies && mortal;
  }

  /** The last `n` elements, or all of them. */
  function Tail<T>(s: seq<T>, n: nat): (r: seq<T>)
    ensures |r| == if |s| <= n then |s| else n
    ensures r == s[|s| - |r|..]
  {
    if |s| <= n then s else s[|s| - n..]
  }

  /** Keeping the last `n` at every push is keeping the last `n` of all. */
  lemma TailOfTail<T>(s: seq<T>, x: T, n: nat)
    ensures Tail(Tail(s, n) + [x], n) == Tail(s + [x], n)
  {
  }

  ghost function Images<T, K>(s: seq<T>, key: T -> K): set<K> { set i | 0 <= i < |s| :: key(s[i]) }

  lemma ImagesGrow<T, K>(s: seq<T>, key: T -> K)
    requires s != []
    ensures Images(s, key) == Images(s[..|s| - 1], key) + {key(s[|s| - 1])}
  {
    var init := s[..|s| - 1];
    assert forall i :: 0 <= i < |init| ==> s[i] == init[i];
    forall x | x in Images(s, key) ensures x in Images(init, key) + {key(s[|s| - 1])} {
      var i :| 0 <= i < |s| && key(s[i]) == x;
      assert i < |init| ==> key(init[i]) == x;
    }
    forall x | x in Images(init, key) ensures x in Images(s, key) {
      var i :| 0 <= i < |init| && key(init[i]) == x;
      assert key(s[i]) == x;
    }
  }

  /** No two elements share a key exactly when there are as many keys as elements. */
  lemma {:induction false} DistinctIff<T, K>(s: seq<T>, key: T -> K)
    ensures |Images(s, key)| <= |s|
    ensures |Images(s, key)| == |s| <==> forall i, j :: 0 <= i < j < |s| ==> key(s[i]) != key(s[j])
  {
    if s != [] {
      var init, last := s[..|s| - 1], s[|s| - 1];
      DistinctIff(init, key);
      ImagesGrow(s, key);
      if key(last) in Images(init, key) {
        var i :| 0 <= i < |init| && key(init[i]) == key(last);
        assert s[i] == init[i] && Images(s, key) == Images(init, key);
      } else {
        forall i | 0 <= i < |init| ensures key(s[i]) != key(last) {
          assert key(init[i]) in Images(init, key);
        }
      }
    }
  }

  ghost predicate InOrderBy<T(!new)>(s: seq<T>, rank: T -> nat) {
    forall i, j :: 0 <= i < j < |s| ==> rank(s[i]) <= rank(s[j])
  }

  ghost predicate StrictlyBy<T(!new)>(s: seq<T>, rank: T -> nat) {
    forall i, j :: 0 <= i < j < |s| ==> rank(s[i]) < rank(s[j])
  }

  /** Stable insertion after every element of no greater rank: a push and a stable sort, on a sequence already in order. */
  function Placed<T(!new)>(s: seq<T>, x: T, rank: T -> nat): (r: seq<T>)
    ensures forall y :: y in r <==> y == x || y in s
    ensures |r| == |s| + 1
  {
    if s == [] || rank(s[|s| - 1]) <= rank(x) then s + [x]
    else Placed(s[..|s| - 1], x, rank) + [s[|s| - 1]]
  }

  lemma {:induction false} PlacedInOrder<T(!new)>(s: seq<T>, x: T, rank: T -> nat)
    requires InOrderBy(s, rank)
    ensures InOrderBy(Placed(s, x, rank), rank)
  {
    if s != [] && rank(s[|s| - 1]) > rank(x) {
      var init, last := s[..|s| - 1], s[|s| - 1];
      PlacedInOrder(init, x, rank);
      var front := Placed(init, x, rank);
      forall i | 0 <= i < |front| ensures rank(front[i]) <= rank(last) {
        assert front[i] in front;
      }
    }
  }

  lemma {:induction false} PlacedStrictly<T(!new)>(s: seq<T>, x: T, rank: T -> nat)
    requires StrictlyBy(s, rank) && forall y :: y in s ==> rank(y) != rank(x)
    ensures StrictlyBy(Placed(s, x, rank), rank)
  {
    if s != [] {
      var init, last := s[..|s| - 1], s[|s| - 1];
      assert last in s;
      if rank(last) > rank(x) {
        PlacedStrictly(init, x, rank);
        var front := Placed(init, x, rank);
        forall i | 0 <= i < |front| ensures rank(front[i]) < rank(last) {
          assert front[i] in front;
        }
      }
    }
  }
}
