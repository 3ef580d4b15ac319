/**
  The sorted set of Redis, as far as the queue scripts use it: members with scores, kept in the
  order of their scores, equal scores in an order of the members (Redis compares their bytes).
 */
module SortedSet {

  datatype Entry<M> = Entry(score: int, member: M)

  function Members<M>(z: seq<Entry<M>>): (r: seq<M>)
    ensures |r| == |z| && forall i :: 0 <= i < |z| ==> r[i] == z[i].member
  {
    if z == [] then [] else [z[0].member] + Members(z[1..])
  }

  predicate Sorted<M(==)>(z: seq<Entry<M>>) {
    z != [] ==> (forall e | e in z[1..] :: z[0].score <= e.score) && Sorted(z[1..])
  }

  predicate Unique<M(==)>(z: seq<Entry<M>>) {
    z != [] ==> z[0].member !in Members(z[1..]) && Unique(z[1..])
  }

  predicate Valid<M(==)>(z: seq<Entry<M>>) {
    Sorted(z) && Unique(z)
  }

  /** zrem */
  function Remove<M(==)>(z: seq<Entry<M>>, m: M): seq<Entry<M>> {
    if z == [] then []
    else if z[0].member == m then Remove(z[1..], m)
    else [z[0]] + Remove(z[1..], m)
  }

  /** The place of a new entry: behind lower scores and behind equal scores with an earlier member. */
  function Insert<M>(z: seq<Entry<M>>, e: Entry<M>, before: (M, M) -> bool): seq<Entry<M>> {
    if z == [] then [e]
    else if e.score < z[0].score || (e.score == z[0].score && before(e.member, z[0].member)) then [e] + z
    else [z[0]] + Insert(z[1..], e, before)
  }

  /** zadd: a member that is there already only gets the new score. */
  function Add<M(==)>(z: seq<Entry<M>>, e: Entry<M>, before: (M, M) -> bool): seq<Entry<M>> {
    Insert(Remove(z, e.member), e, before)
  }

  /** What zadd returns: the number of new members. */
  function Added<M(==)>(z: seq<Entry<M>>, m: M): nat {
    if m in Members(z) then 0 else 1
  }

  /** zrangebyscore from -inf to max */
  function RangeByScore<M>(z: seq<Entry<M>>, max: int): (r: seq<M>)
    ensures |r| <= |z|
  {
    if z == [] then []
    else (if z[0].score <= max then [z[0].member] else []) + RangeByScore(z[1..], max)
  }

  /** zremrangebyrank from 0 to n - 1 */
  function RemoveRanks<M>(z: seq<Entry<M>>, n: nat): seq<Entry<M>> {
    if n <= |z| then z[n..] else []
  }

  lemma {:induction false} MembersOf<M(!new)>(z: seq<Entry<M>>)
    ensures forall m :: m in Members(z) <==> exists e :: e in z && e.member == m
  {
    forall m ensures m in Members(z) <==> exists e :: e in z && e.member == m {
      if m in Members(z) {
        var i :| 0 <= i < |z| && Members(z)[i] == m;
        assert z[i] in z;
      }
      if e :| e in z && e.member == m {
        var i :| 0 <= i < |z| && z[i] == e;
        assert Members(z)[i] == m;
      }
    }
  }

  lemma {:induction false} RemoveContains<M(!new)>(z: seq<Entry<M>>, m: M)
    ensures forall x :: x in Remove(z, m) <==> x in z && x.member != m
  {
    if z != [] {
      RemoveContains(z[1..], m);
      assert z == [z[0]] + z[1..];
    }
  }

  lemma {:induction false} RemoveValid<M(!new)>(z: seq<Entry<M>>, m: M)
    requires Valid(z)
    ensures Valid(Remove(z, m))
  {
    if z != [] {
      RemoveValid(z[1..], m);
      RemoveContains(z[1..], m);
      if z[0].member != m {
        var r := Remove(z[1..], m);
        assert Remove(z, m) == [z[0]] + r && ([z[0]] + r)[1..] == r;
        hide Remove;
        MembersOf(z[1..]);
        MembersOf(r);
        hide Members;
      }
    }
  }

  lemma {:induction false} InsertContains<M(!new)>(z: seq<Entry<M>>, e: Entry<M>, before: (M, M) -> bool)
    ensures forall x :: x in Insert(z, e, before) <==> x == e || x in z
  {
    if z != [] {
      InsertContains(z[1..], e, before);
      assert z == [z[0]] + z[1..];
    }
  }

  lemma {:induction false} InsertValid<M(!new)>(z: seq<Entry<M>>, e: Entry<M>, before: (M, M) -> bool)
    requires Valid(z) && e.member !in Members(z)
    ensures Valid(Insert(z, e, before))
  {
    if z == [] || e.score < z[0].score || (e.score == z[0].score && before(e.member, z[0].member)) {
      assert Insert(z, e, before) == [e] + z && ([e] + z)[1..] == z;
      if z != [] { FirstIsLowest(z); }
      hide Insert;
    } else {
      var r := Insert(z[1..], e, before);
      assert Insert(z, e, before) == [z[0]] + r && ([z[0]] + r)[1..] == r;
      assert Members(z) == [z[0].member] + Members(z[1..]);
      InsertValid(z[1..], e, before);
      InsertContains(z[1..], e, before);
      hide Insert;
      MembersOf(z[1..]);
      MembersOf(r);
      hide Members;
    }
  }

  /** zadd keeps the set in order, with the new score for the member and the others as they were. */
  lemma AddValid<M(!new)>(z: seq<Entry<M>>, e: Entry<M>, before: (M, M) -> bool)
    requires Valid(z)
    ensures Valid(Add(z, e, before))
    ensures forall x :: x in Add(z, e, before) <==> x == e || (x in z && x.member != e.member)
  {
    RemoveValid(z, e.member);
    RemoveContains(z, e.member);
    MembersOf(Remove(z, e.member));
    InsertValid(Remove(z, e.member), e, before);
    InsertContains(Remove(z, e.member), e, before);
  }

  lemma MembersCons<M(!new)>(e: Entry<M>, z: seq<Entry<M>>)
    ensures Members([e] + z) == [e.member] + Members(z)
    ensures multiset(Members([e] + z)) == multiset{e.member} + multiset(Members(z))
  {
    assert ([e] + z)[1..] == z;
  }

  lemma ClearedCons<M(!new)>(a: multiset<M>, b: M, m: M)
    ensures (multiset{b} + a)[m := 0] == if b == m then a[m := 0] else multiset{b} + a[m := 0]
  {
  }

  lemma {:induction false} RemoveMembers<M(!new)>(z: seq<Entry<M>>, m: M)
    ensures multiset(Members(Remove(z, m))) == multiset(Members(z))[m := 0]
  {
    if z != [] {
      var t := z[1..];
      RemoveMembers(t, m);
      var r := Remove(t, m);
      assert z == [z[0]] + t;
      assert Remove(z, m) == if z[0].member == m then r else [z[0]] + r;
      hide Members, Remove;
      MembersCons(z[0], t);
      MembersCons(z[0], r);
      ClearedCons(multiset(Members(t)), z[0].member, m);
    }
  }

  lemma {:induction false} InsertMembers<M(!new)>(z: seq<Entry<M>>, e: Entry<M>, before: (M, M) -> bool)
    ensures multiset(Members(Insert(z, e, before))) == multiset(Members(z)) + multiset{e.member}
  {
    if z == [] || e.score < z[0].score || (e.score == z[0].score && before(e.member, z[0].member)) {
      assert ([e] + z)[1..] == z;
      assert Insert(z, e, before) == [e] + z;
    } else {
      InsertMembers(z[1..], e, before);
      var r := Insert(z[1..], e, before);
      assert ([z[0]] + r)[1..] == r;
      assert Members(z) == [z[0].member] + Members(z[1..]);
    }
  }

  lemma AddMembers<M(!new)>(z: seq<Entry<M>>, e: Entry<M>, before: (M, M) -> bool)
    requires Valid(z)
    ensures multiset(Members(Add(z, e, before))) == multiset(Members(z))[e.member := 1]
  {
    RemoveMembers(z, e.member);
    InsertMembers(Remove(z, e.member), e, before);
  }

  lemma AddContains<M(!new)>(z: seq<Entry<M>>, e: Entry<M>, before: (M, M) -> bool)
    requires Valid(z)
    ensures Valid(Add(z, e, before))
    ensures forall m :: m in Members(Add(z, e, before)) <==> m == e.member || m in Members(z)
  {
    AddValid(z, e, before);
    AddMembers(z, e, before);
    hide Valid, Members, Add;
    forall m ensures m in Members(Add(z, e, before)) <==> m == e.member || m in Members(z) {
      assert m in Members(Add(z, e, before)) <==> m in multiset(Members(Add(z, e, before)));
      assert m in Members(z) <==> m in multiset(Members(z));
    }
  }

  /** The number of entries at the front with a score up to max. */
  function Leading<M>(z: seq<Entry<M>>, max: int): (n: nat)
    ensures n <= |z|
    ensures forall i :: 0 <= i < n ==> z[i].score <= max
    ensures n < |z| ==> z[n].score > max
  {
    if z == [] || z[0].score > max then 0 else 1 + Leading(z[1..], max)
  }

  lemma {:induction false} MembersSplit<M(!new)>(z: seq<Entry<M>>, n: nat)
    requires n <= |z|
    ensures Members(z) == Members(z[..n]) + Members(z[n..])
  {
    assert forall i :: n <= i < |z| ==> z[n..][i - n] == z[i];
  }

  lemma {:induction false} SuffixValid<M(!new)>(z: seq<Entry<M>>, n: nat)
    requires Valid(z) && n <= |z|
    ensures Valid(z[n..])
    decreases n
  {
    if n == 0 {
      assert z[0..] == z;
    } else {
      SuffixValid(z[1..], n - 1);
      assert z[1..][n - 1..] == z[n..];
    }
  }

  lemma {:induction false} RangeIsLeading<M(!new)>(z: seq<Entry<M>>, max: int)
    requires Sorted(z)
    ensures RangeByScore(z, max) == Members(z[..Leading(z, max)])
  {
    if z == [] {
    } else if z[0].score <= max {
      RangeIsLeading(z[1..], max);
      hide Sorted;
      var n := Leading(z[1..], max);
      assert z[..n + 1] == [z[0]] + z[1..][..n];
      assert RangeByScore(z, max) == [z[0].member] + RangeByScore(z[1..], max);
      assert Leading(z, max) == n + 1;
      hide Leading, Members, RangeByScore;
      MembersCons(z[0], z[1..][..n]);
    } else {
      FirstIsLowest(z);
      hide Sorted;
      AboveAll(z, max);
      assert z[..0] == [];
    }
  }

  lemma FirstIsLowest<M(!new)>(z: seq<Entry<M>>)
    requires Sorted(z) && z != []
    ensures forall x :: x in z ==> z[0].score <= x.score
  {
    assert z == [z[0]] + z[1..];
  }

  /**
    The members up to a score are the first ones, so removing as many ranks from the bottom
    removes exactly these, and what stays is above the score.
   */
  lemma RangeIsPrefix<M(!new)>(z: seq<Entry<M>>, max: int)
    requires Valid(z)
    ensures var n := |RangeByScore(z, max)|;
      && RangeByScore(z, max) == Members(z[..n])
      && Members(z) == RangeByScore(z, max) + Members(RemoveRanks(z, n))
      && Valid(RemoveRanks(z, n))
      && (forall x :: x in z[..n] ==> x.score <= max)
      && (forall x :: x in RemoveRanks(z, n) ==> x.score > max)
  {
    var n := Leading(z, max);
    RangeIsLeading(z, max);
    SuffixValid(z, n);
    if n < |z| {
      FirstIsLowest(z[n..]);
    }
    hide Leading, RangeByScore, Members, Sorted, Unique, Valid;
    MembersSplit(z, n);
  }

  lemma {:induction false} AboveAll<M(!new)>(z: seq<Entry<M>>, max: int)
    requires forall x :: x in z ==> x.score > max
    ensures RangeByScore(z, max) == []
  {
    if z != [] {
      assert z[0] in z;
      AboveAll(z[1..], max);
    }
  }

  /** zremrangebyrank 0 0 takes the first member away, and that one only. */
  lemma FirstRemoved<M(!new)>(z: seq<Entry<M>>)
    requires Valid(z) && z != []
    ensures Valid(RemoveRanks(z, 1))
    ensures forall m :: m in Members(RemoveRanks(z, 1)) <==> m in Members(z) && m != z[0].member
    ensures forall x :: x in z ==> z[0].score <= x.score
  {
    FirstIsLowest(z);
  }

  // ---- Equal scores ----

  ghost predicate TotalOrder<M(!new)>(before: (M, M) -> bool) {
    && (forall a, b :: before(a, b) ==> !before(b, a))
    && (forall a, b :: a == b || before(a, b) || before(b, a))
    && (forall a, b, c :: before(a, b) && before(b, c) ==> before(a, c))
  }

  predicate Precedes<M(==)>(x: Entry<M>, y: Entry<M>, before: (M, M) -> bool) {
    x.score < y.score || (x.score == y.score && before(x.member, y.member))
  }

  predicate InOrder<M(==)>(z: seq<Entry<M>>, before: (M, M) -> bool) {
    forall i, k :: 0 <= i < k < |z| ==> Precedes(z[i], z[k], before)
  }

  lemma {:induction false} RemoveInOrder<M(!new)>(z: seq<Entry<M>>, m: M, before: (M, M) -> bool)
    requires InOrder(z, before)
    ensures InOrder(Remove(z, m), before)
  {
    hide Precedes;
    if z != [] {
      RemoveInOrder(z[1..], m, before);
      var r := Remove(z[1..], m);
      RemoveContains(z[1..], m);
      forall k | 0 <= k < |r| ensures Precedes(z[0], r[k], before) {
        assert r[k] in z[1..];
      }
    }
  }

  lemma ConsInOrder<M(!new)>(x: Entry<M>, r: seq<Entry<M>>, before: (M, M) -> bool)
    requires InOrder(r, before) && forall y :: y in r ==> Precedes(x, y, before)
    ensures InOrder([x] + r, before)
  {
    hide Precedes;
  }

  lemma Compared<M(!new)>(x: Entry<M>, y: Entry<M>, before: (M, M) -> bool)
    requires TotalOrder(before) && x.member != y.member
    ensures Precedes(x, y, before) || Precedes(y, x, before)
    ensures forall w :: Precedes(x, y, before) && Precedes(y, w, before) ==> Precedes(x, w, before)
  {
  }

  lemma {:induction false} InsertInOrder<M(!new)>(z: seq<Entry<M>>, e: Entry<M>, before: (M, M) -> bool)
    requires TotalOrder(before) && InOrder(z, before) && e.member !in Members(z)
    ensures InOrder(Insert(z, e, before), before)
  {
    if z == [] {
      return;
    }
    var t := z[1..];
    assert z == [z[0]] + t && Members(z) == [z[0].member] + Members(t);
    Compared(e, z[0], before);
    InsertInOrder(t, e, before);
    InsertContains(t, e, before);
    var r := Insert(t, e, before);
    assert forall y :: y in t ==> Precedes(z[0], y, before);
    if e.score < z[0].score || (e.score == z[0].score && before(e.member, z[0].member)) {
      assert Precedes(e, z[0], before) && Insert(z, e, before) == [e] + z;
      hide Insert, Members, TotalOrder, InOrder, Precedes;
      ConsInOrder(e, z, before);
    } else {
      assert Precedes(z[0], e, before) && Insert(z, e, before) == [z[0]] + r;
      hide Insert, Members, TotalOrder, InOrder, Precedes;
      ConsInOrder(z[0], r, before);
    }
  }

  /** zadd keeps members of equal scores in the order of the members. */
  lemma AddInOrder<M(!new)>(z: seq<Entry<M>>, e: Entry<M>, before: (M, M) -> bool)
    requires TotalOrder(before) && InOrder(z, before)
    ensures InOrder(Add(z, e, before), before)
  {
    RemoveInOrder(z, e.member, before);
    RemoveContains(z, e.member);
    MembersOf(Remove(z, e.member));
    InsertInOrder(Remove(z, e.member), e, before);
  }
}
