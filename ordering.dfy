/** The rotation order of billowRotate: degraded instances first, then each group's
    in-service instances interleaved round-robin (billowRotate.py:94-143). */
module Ordering {
  import opened Wrappers
  import opened Services
  import opened Snapshots

  // ---------------------------------------------------------------------------
  // roundrobin (billowRotate.py:94-106)

  function Concat<T>(q: seq<seq<T>>): seq<T>
    decreases |q|
  {
    if q == [] then [] else q[0] + Concat(q[1..])
  }

  lemma {:induction false} ConcatAppend<T>(a: seq<seq<T>>, b: seq<seq<T>>)
    ensures Concat(a + b) == Concat(a) + Concat(b)
    decreases |a|
  {
    if a == [] {
      assert a + b == b;
    } else {
      assert (a + b)[1..] == a[1..] + b;
      ConcatAppend(a[1..], b);
    }
  }

  /** The itertools recipe as a queue of the inputs' remaining parts: the input in front
      gives its next element and goes to the back, and an exhausted input leaves the
      queue, the cycle going on with the input after it. */
  function RoundRobin<T>(q: seq<seq<T>>): seq<T>
    decreases |Concat(q)|, |q|
  {
    if q == [] then []
    else if q[0] == [] then RoundRobin(q[1..])
    else
      ConcatAppend(q[1..], [q[0][1..]]);
      assert Concat([q[0][1..]]) == q[0][1..];
      [q[0][0]] + RoundRobin(q[1..] + [q[0][1..]])
  }

  /** The recipe's own example: roundrobin('ABC', 'D', 'EF') is A D E B F C. */
  lemma RoundRobinExample()
    ensures RoundRobin(["ABC", "D", "EF"]) == "ADEBFC"
  {
    var q0: seq<string> := ["ABC", "D", "EF"];
    var q1: seq<string> := ["D", "EF", "BC"];
    var q2: seq<string> := ["EF", "BC", ""];
    var q3: seq<string> := ["BC", "", "F"];
    var q4: seq<string> := ["", "F", "C"];
    var q5: seq<string> := ["F", "C"];
    var q6: seq<string> := ["C", ""];
    var q7: seq<string> := ["", ""];
    var q8: seq<string> := [""];
    assert q8[1..] == [];
    assert RoundRobin(q8) == [];
    assert q7[1..] == q8;
    assert RoundRobin(q7) == [];
    assert q6[0] == "C" && "C"[1..] == "";
    assert q6[1..] + [q6[0][1..]] == q7;
    assert RoundRobin(q6) == "C";
    assert q5[0] == "F" && "F"[1..] == "";
    assert q5[1..] + [q5[0][1..]] == q6;
    assert RoundRobin(q5) == "FC";
    assert q4[1..] == q5;
    assert RoundRobin(q4) == "FC";
    assert q3[0] == "BC" && "BC"[1..] == "C";
    assert q3[1..] + [q3[0][1..]] == q4;
    assert RoundRobin(q3) == "BFC";
    assert q2[0] == "EF" && "EF"[1..] == "F";
    assert q2[1..] + [q2[0][1..]] == q3;
    assert RoundRobin(q2) == "EBFC";
    assert q1[0] == "D" && "D"[1..] == "";
    assert q1[1..] + [q1[0][1..]] == q2;
    assert RoundRobin(q1) == "DEBFC";
    assert q0[0] == "ABC" && "ABC"[1..] == "BC";
    assert q0[1..] + [q0[0][1..]] == q1;
  }

  /** The output is a permutation of the inputs' elements. */
  lemma {:induction false} RoundRobinPermutes<T>(q: seq<seq<T>>)
    ensures multiset(RoundRobin(q)) == multiset(Concat(q))
    ensures |RoundRobin(q)| == |Concat(q)|
    decreases |Concat(q)|, |q|
  {
    if q != [] {
      if q[0] == [] {
        RoundRobinPermutes(q[1..]);
      } else {
        var next := q[1..] + [q[0][1..]];
        ConcatAppend(q[1..], [q[0][1..]]);
        assert Concat([q[0][1..]]) == q[0][1..];
        RoundRobinPermutes(next);
        assert q[0] == [q[0][0]] + q[0][1..];
        assert Concat(q) == [q[0][0]] + q[0][1..] + Concat(q[1..]);
      }
    }
  }

  /** An element tagged with the position of the input it came from. */
  function Tag<T>(xs: seq<T>, j: nat): (r: seq<(nat, T)>)
    ensures |r| == |xs| && forall p :: 0 <= p < |xs| ==> r[p] == (j, xs[p])
  {
    seq(|xs|, p requires 0 <= p < |xs| => (j, xs[p]))
  }

  /** Every input tagged with its position, counting from `from`. */
  function TaggedFrom<T>(q: seq<seq<T>>, from: nat): (r: seq<seq<(nat, T)>>)
    ensures |r| == |q|
    decreases |q|
  {
    if q == [] then [] else [Tag(q[0], from)] + TaggedFrom(q[1..], from + 1)
  }

  function Untag<T>(xs: seq<(nat, T)>): (r: seq<T>)
    ensures |r| == |xs| && forall p :: 0 <= p < |xs| ==> r[p] == xs[p].1
  {
    seq(|xs|, p requires 0 <= p < |xs| => xs[p].1)
  }

  /** The elements that came from input j, in the order they appear. */
  function FromInput<T>(xs: seq<(nat, T)>, j: nat): seq<(nat, T)>
    decreases |xs|
  {
    if xs == [] then [] else (if xs[0].0 == j then [xs[0]] else []) + FromInput(xs[1..], j)
  }

  lemma {:induction false} FromInputAppend<T>(a: seq<(nat, T)>, b: seq<(nat, T)>, j: nat)
    ensures FromInput(a + b, j) == FromInput(a, j) + FromInput(b, j)
    decreases |a|
  {
    if a == [] {
      assert a + b == b;
    } else {
      var h: seq<(nat, T)> := if a[0].0 == j then [a[0]] else [];
      assert (a + b)[0] == a[0];
      assert (a + b)[1..] == a[1..] + b;
      assert FromInput(a + b, j) == h + FromInput(a[1..] + b, j);
      FromInputAppend(a[1..], b, j);
      AppendAssoc(h, FromInput(a[1..], j), FromInput(b, j));
    }
  }

  predicate HasTag<T>(xs: seq<(nat, T)>, j: nat)
  {
    exists p :: 0 <= p < |xs| && xs[p].0 == j
  }

  lemma {:induction false} FromInputNone<T>(xs: seq<(nat, T)>, j: nat)
    requires !HasTag(xs, j)
    ensures FromInput(xs, j) == []
    decreases |xs|
  {
    if xs != [] {
      assert xs[0].0 != j;
      forall p | 0 <= p < |xs[1..]| ensures xs[1..][p].0 != j {
        assert xs[1..][p] == xs[p + 1];
      }
      FromInputNone(xs[1..], j);
    }
  }

  /** No two inputs of the queue hold elements tagged j. */
  predicate Separate<T>(q: seq<seq<(nat, T)>>, j: nat)
  {
    forall a, b :: 0 <= a < b < |q| ==> !(HasTag(q[a], j) && HasTag(q[b], j))
  }

  lemma {:induction false} ConcatNoTag<T>(q: seq<seq<(nat, T)>>, j: nat)
    requires forall a :: 0 <= a < |q| ==> !HasTag(q[a], j)
    ensures FromInput(Concat(q), j) == []
    decreases |q|
  {
    if q != [] {
      FromInputNone(q[0], j);
      forall a | 0 <= a < |q[1..]| ensures !HasTag(q[1..][a], j) {
        assert q[1..][a] == q[a + 1];
      }
      ConcatNoTag(q[1..], j);
      FromInputAppend(q[0], Concat(q[1..]), j);
    }
  }

  /** Dropping the first input keeps the queue separate. */
  lemma SeparateTail<T>(q: seq<seq<(nat, T)>>, j: nat)
    requires q != [] && Separate(q, j)
    ensures Separate(q[1..], j)
  {
    forall a, b | 0 <= a < b < |q[1..]| ensures !(HasTag(q[1..][a], j) && HasTag(q[1..][b], j)) {
      assert q[1..][a] == q[a + 1] && q[1..][b] == q[b + 1];
    }
  }

  /** Moving the front input's rest to the back keeps the queue separate. */
  lemma SeparateRotate<T>(q: seq<seq<(nat, T)>>, j: nat)
    requires q != [] && q[0] != [] && Separate(q, j)
    ensures HasTag(q[0][1..], j) ==> HasTag(q[0], j)
    ensures Separate(q[1..] + [q[0][1..]], j)
  {
    var t := q[0][1..];
    var next := q[1..] + [t];
    if HasTag(t, j) {
      var p :| 0 <= p < |t| && t[p].0 == j;
      assert q[0][p + 1] == t[p];
    }
    forall a, b | 0 <= a < b < |next| ensures !(HasTag(next[a], j) && HasTag(next[b], j)) {
      if b == |next| - 1 {
        assert next[b] == t && next[a] == q[a + 1];
      } else {
        assert next[a] == q[a + 1] && next[b] == q[b + 1];
      }
    }
  }

  /** With the front input's tag j, the other inputs hold none. */
  lemma OthersNoTag<T>(q: seq<seq<(nat, T)>>, j: nat)
    requires q != [] && Separate(q, j) && HasTag(q[0], j)
    ensures FromInput(Concat(q[1..]), j) == []
  {
    forall a | 0 <= a < |q[1..]| ensures !HasTag(q[1..][a], j) {
      assert q[1..][a] == q[a + 1];
    }
    ConcatNoTag(q[1..], j);
  }

  /** The concatenation before and after one rotation step. */
  lemma ConcatRotate<T>(q: seq<seq<T>>)
    requires q != [] && q[0] != []
    ensures Concat(q) == [q[0][0]] + (q[0][1..] + Concat(q[1..]))
    ensures Concat(q[1..] + [q[0][1..]]) == Concat(q[1..]) + q[0][1..]
  {
    var h := q[0][0];
    var t := q[0][1..];
    var rest := q[1..];
    assert q[0] == [h] + t;
    calc {
      Concat(q);
      q[0] + Concat(rest);
      ([h] + t) + Concat(rest);
      [h] + (t + Concat(rest));
    }
    ConcatAppend(rest, [t]);
    assert [t][1..] == [];
    assert Concat([t]) == t + Concat([t][1..]);
  }

  /** The front input's rest and the other inputs can swap places: at most one of them
      holds elements tagged j. */
  lemma SwapFromInput<T>(q: seq<seq<(nat, T)>>, j: nat)
    requires q != [] && q[0] != [] && Separate(q, j)
    ensures FromInput(q[0][1..] + Concat(q[1..]), j) == FromInput(Concat(q[1..]) + q[0][1..], j)
  {
    var t := q[0][1..];
    var rest := Concat(q[1..]);
    FromInputAppend(t, rest, j);
    FromInputAppend(rest, t, j);
    SeparateRotate(q, j);
    if HasTag(t, j) {
      OthersNoTag(q, j);
    } else {
      FromInputNone(t, j);
    }
  }

  /** One rotation step: the concatenation's elements tagged j are those of the front
      element, then of the rotated queue. */
  lemma RotateFromInput<T>(q: seq<seq<(nat, T)>>, j: nat)
    requires q != [] && q[0] != [] && Separate(q, j)
    ensures FromInput(Concat(q), j) == FromInput([q[0][0]], j) + FromInput(Concat(q[1..] + [q[0][1..]]), j)
  {
    ConcatRotate(q);
    FromInputAppend([q[0][0]], q[0][1..] + Concat(q[1..]), j);
    SwapFromInput(q, j);
  }

  /** When at most one input holds elements tagged j, the round-robin output lists them in
      the order of the inputs' concatenation. */
  lemma {:induction false} RoundRobinFromInput<T>(q: seq<seq<(nat, T)>>, j: nat)
    requires Separate(q, j)
    ensures FromInput(RoundRobin(q), j) == FromInput(Concat(q), j)
    decreases |Concat(q)|, |q|
  {
    if q != [] {
      if q[0] == [] {
        SeparateTail(q, j);
        RoundRobinFromInput(q[1..], j);
        assert Concat(q) == Concat(q[1..]);
      } else {
        var next := q[1..] + [q[0][1..]];
        ConcatAppend(q[1..], [q[0][1..]]);
        assert Concat([q[0][1..]]) == q[0][1..];
        SeparateRotate(q, j);
        RoundRobinFromInput(next, j);
        assert RoundRobin(q) == [q[0][0]] + RoundRobin(next);
        FromInputAppend([q[0][0]], RoundRobin(next), j);
        RotateFromInput(q, j);
      }
    }
  }

  /** Tagging does not change what roundrobin does with the values. */
  lemma {:induction false} RoundRobinUntag<T>(q: seq<seq<(nat, T)>>)
    ensures Untag(RoundRobin(q)) == RoundRobin(UntagAll(q))
    decreases |Concat(q)|, |q|
  {
    if q != [] {
      var u := UntagAll(q);
      assert u[1..] == UntagAll(q[1..]);
      if q[0] == [] {
        RoundRobinUntag(q[1..]);
      } else {
        var next := q[1..] + [q[0][1..]];
        ConcatAppend(q[1..], [q[0][1..]]);
        assert Concat([q[0][1..]]) == q[0][1..];
        RoundRobinUntag(next);
        UntagRotate(q);
        UntagCons(q[0][0], RoundRobin(next));
      }
    }
  }

  lemma UntagCons<T>(x: (nat, T), xs: seq<(nat, T)>)
    ensures Untag([x] + xs) == [x.1] + Untag(xs)
  {
  }

  /** Dropping the tags commutes with one rotation step of the queue. */
  lemma UntagRotate<T>(q: seq<seq<(nat, T)>>)
    requires q != [] && q[0] != []
    ensures UntagAll(q[1..] + [q[0][1..]]) == UntagAll(q)[1..] + [UntagAll(q)[0][1..]]
  {
    var u := UntagAll(q);
    var next := q[1..] + [q[0][1..]];
    assert Untag(q[0][1..]) == u[0][1..];
    forall a | 0 <= a < |next| ensures UntagAll(next)[a] == (u[1..] + [u[0][1..]])[a] {
      if a < |q| - 1 {
        assert next[a] == q[a + 1];
      }
    }
  }

  function UntagAll<T>(q: seq<seq<(nat, T)>>): (r: seq<seq<T>>)
    ensures |r| == |q| && forall a :: 0 <= a < |q| ==> r[a] == Untag(q[a])
  {
    seq(|q|, a requires 0 <= a < |q| => Untag(q[a]))
  }

  lemma TaggedFromFacts<T>(q: seq<seq<T>>, from: nat, j: nat)
    ensures UntagAll(TaggedFrom(q, from)) == q
    ensures Separate(TaggedFrom(q, from), j)
    ensures forall a :: 0 <= a < |q| ==> (HasTag(TaggedFrom(q, from)[a], j) ==> j == from + a)
    ensures FromInput(Concat(TaggedFrom(q, from)), j) == (if from <= j < from + |q| then Tag(q[j - from], j) else [])
  {
    TaggedUntag(q, from);
    TaggedWhere(q, from, j);
    TaggedFromInput(q, from, j);
  }

  lemma {:induction false} TaggedUntag<T>(q: seq<seq<T>>, from: nat)
    ensures UntagAll(TaggedFrom(q, from)) == q
    decreases |q|
  {
    if q != [] {
      var tq := TaggedFrom(q, from);
      TaggedUntag(q[1..], from + 1);
      assert tq[1..] == TaggedFrom(q[1..], from + 1);
      assert Untag(Tag(q[0], from)) == q[0];
      forall a | 0 <= a < |q| ensures UntagAll(tq)[a] == q[a] {
        if a > 0 {
          assert tq[a] == tq[1..][a - 1];
          assert UntagAll(tq[1..])[a - 1] == q[1..][a - 1];
        }
      }
    }
  }

  /** Input a of the tagged queue holds only tag from + a. */
  lemma {:induction false} TaggedWhere<T>(q: seq<seq<T>>, from: nat, j: nat)
    ensures forall a :: 0 <= a < |q| ==> (HasTag(TaggedFrom(q, from)[a], j) ==> j == from + a)
    ensures Separate(TaggedFrom(q, from), j)
    decreases |q|
  {
    if q != [] {
      var tq := TaggedFrom(q, from);
      TaggedWhere(q[1..], from + 1, j);
      assert tq[1..] == TaggedFrom(q[1..], from + 1);
      forall a | 0 <= a < |q| ensures HasTag(tq[a], j) ==> j == from + a {
        if a == 0 {
          if HasTag(tq[0], j) {
            var p :| 0 <= p < |tq[0]| && tq[0][p].0 == j;
          }
        } else {
          assert tq[a] == tq[1..][a - 1];
        }
      }
    }
  }

  lemma {:induction false} TaggedFromInput<T>(q: seq<seq<T>>, from: nat, j: nat)
    ensures FromInput(Concat(TaggedFrom(q, from)), j) == (if from <= j < from + |q| then Tag(q[j - from], j) else [])
    decreases |q|
  {
    if q != [] {
      var tq := TaggedFrom(q, from);
      var head := Tag(q[0], from);
      var rest := Concat(tq[1..]);
      TaggedFromInput(q[1..], from + 1, j);
      assert tq[1..] == TaggedFrom(q[1..], from + 1);
      assert Concat(tq) == head + rest;
      FromInputAppend(head, rest, j);
      if j == from {
        TagAllFrom(q[0], from);
        assert FromInput(rest, j) == [];
      } else {
        TagOther(q[0], from, j);
        if from < j < from + |q| {
          assert q[1..][j - (from + 1)] == q[j - from];
        }
      }
    }
  }

  /** An input tagged from holds nothing tagged with another j. */
  lemma TagOther<T>(xs: seq<T>, from: nat, j: nat)
    requires j != from
    ensures FromInput(Tag(xs, from), j) == []
  {
    forall p | 0 <= p < |Tag(xs, from)| ensures Tag(xs, from)[p].0 != j {
    }
    FromInputNone(Tag(xs, from), j);
  }

  lemma {:induction false} TagAllFrom<T>(xs: seq<T>, j: nat)
    ensures FromInput(Tag(xs, j), j) == Tag(xs, j)
    decreases |xs|
  {
    if xs != [] {
      assert Tag(xs, j)[1..] == Tag(xs[1..], j);
      TagAllFrom(xs[1..], j);
    }
  }

  /** roundrobin keeps each input's own order: tag every element with its input's
      position, and the output's elements from input j are exactly that input, in order,
      while dropping the tags gives the plain output. */
  lemma RoundRobinKeepsOrder<T>(q: seq<seq<T>>, j: nat)
    requires j < |q|
    ensures Untag(RoundRobin(TaggedFrom(q, 0))) == RoundRobin(q)
    ensures Untag(FromInput(RoundRobin(TaggedFrom(q, 0)), j)) == q[j]
  {
    TaggedFromFacts(q, 0, j);
    RoundRobinUntag(TaggedFrom(q, 0));
    RoundRobinFromInput(TaggedFrom(q, 0), j);
  }

  // ---------------------------------------------------------------------------
  // order (billowRotate.py:108-143)

  /** One group's degraded ids: those whose group health is not 'Healthy', in order. */
  function UnhealthyIds(members: seq<Member>): (r: seq<string>)
    ensures forall x :: x in r <==> exists i :: 0 <= i < |members| && members[i].id == x && members[i].groupHealth != "Healthy"
    decreases |members|
  {
    if members == [] then []
    else
      var rest := UnhealthyIds(members[1..]);
      assert forall i :: 1 <= i < |members| ==> members[1..][i - 1] == members[i];
      (if members[0].groupHealth != "Healthy" then [members[0].id] else []) + rest
  }

  /** One balancer's degraded ids: those whose balancer state is not 'InService'. */
  function OutOfServiceIds(members: seq<Registration>): (r: seq<string>)
    ensures forall x :: x in r <==> exists i :: 0 <= i < |members| && members[i].id == x && members[i].balancerState != "InService"
    decreases |members|
  {
    if members == [] then []
    else
      var rest := OutOfServiceIds(members[1..]);
      assert forall i :: 1 <= i < |members| ==> members[1..][i - 1] == members[i];
      (if members[0].balancerState != "InService" then [members[0].id] else []) + rest
  }

  function UnhealthyLists(groups: seq<GroupSnap>): (r: seq<seq<string>>)
    ensures |r| == |groups| && forall k :: 0 <= k < |groups| ==> r[k] == UnhealthyIds(groups[k].members)
  {
    seq(|groups|, k requires 0 <= k < |groups| => UnhealthyIds(groups[k].members))
  }

  function OutOfServiceLists(balancers: seq<BalancerSnap>): (r: seq<seq<string>>)
    ensures |r| == |balancers| && forall k :: 0 <= k < |balancers| ==> r[k] == OutOfServiceIds(balancers[k].members)
  {
    seq(|balancers|, k requires 0 <= k < |balancers| => OutOfServiceIds(balancers[k].members))
  }

  /** The degraded list: group instances first, then balancer instances, in discovery
      order, each id once. */
  function Degraded(view: ServiceView): seq<string>
  {
    UnionAll([], UnhealthyLists(view.groups) + OutOfServiceLists(view.balancers))
  }

  /** A group's in-service instances that are not degraded, in order. */
  function HealthyIds(members: seq<Member>, degraded: seq<string>): seq<string>
    decreases |members|
  {
    if members == [] then []
    else (if members[0].id !in degraded && members[0].groupState == "InService" then [members[0].id] else [])
         + HealthyIds(members[1..], degraded)
  }

  /** A member's id is in the group's healthy list exactly when some member with that id
      is 'InService' and the id is not degraded. */
  lemma {:induction false} HealthyIdsSpec(members: seq<Member>, degraded: seq<string>)
    ensures forall x :: x in HealthyIds(members, degraded) <==>
              (x !in degraded && exists i :: 0 <= i < |members| && members[i].id == x && members[i].groupState == "InService")
    decreases |members|
  {
    if members != [] {
      HealthyIdsSpec(members[1..], degraded);
      assert forall i :: 1 <= i < |members| ==> members[1..][i - 1] == members[i];
    }
  }

  function HealthyLists(groups: seq<GroupSnap>, degraded: seq<string>): (r: seq<seq<string>>)
    ensures |r| == |groups| && forall k :: 0 <= k < |groups| ==> r[k] == HealthyIds(groups[k].members, degraded)
  {
    seq(|groups|, k requires 0 <= k < |groups| => HealthyIds(groups[k].members, degraded))
  }

  /** The rotation order. */
  function Order(view: ServiceView): seq<string>
  {
    Degraded(view) + RoundRobin(HealthyLists(view.groups, Degraded(view)))
  }

  /** Membership in one of the lists of a + b. */
  predicate InSome(lists: seq<seq<string>>, x: string)
  {
    exists i :: 0 <= i < |lists| && x in lists[i]
  }

  lemma InSomeAppend(a: seq<seq<string>>, b: seq<seq<string>>, x: string)
    ensures InSome(a + b, x) <==> InSome(a, x) || InSome(b, x)
  {
    if InSome(a + b, x) {
      var i :| 0 <= i < |a + b| && x in (a + b)[i];
      if i >= |a| {
        assert (a + b)[i] == b[i - |a|];
      } else {
        assert (a + b)[i] == a[i];
      }
    }
    if InSome(b, x) {
      var i :| 0 <= i < |b| && x in b[i];
      assert (a + b)[|a| + i] == b[i];
    }
    if InSome(a, x) {
      var i :| 0 <= i < |a| && x in a[i];
      assert (a + b)[i] == a[i];
    }
  }

  /** The degraded ids are exactly the group instances not 'Healthy' and the balancer
      instances not 'InService', each listed once, the groups' before the balancers'. */
  lemma DegradedIds(view: ServiceView)
    ensures NoDup(Degraded(view))
    ensures forall x :: x in Degraded(view) <==> InSome(UnhealthyLists(view.groups), x) || InSome(OutOfServiceLists(view.balancers), x)
    ensures var fromGroups := UnionAll([], UnhealthyLists(view.groups));
            |fromGroups| <= |Degraded(view)| && Degraded(view)[..|fromGroups|] == fromGroups
  {
    var a := UnhealthyLists(view.groups);
    var b := OutOfServiceLists(view.balancers);
    OrderedUnion(a + b, |a|);
    assert (a + b)[..|a|] == a;
    forall x ensures InSome(a + b, x) <==> InSome(a, x) || InSome(b, x) {
      InSomeAppend(a, b, x);
    }
  }

  /** order lists every degraded id exactly once, all of them before any healthy id; the
      healthy part is a permutation of the groups' non-degraded in-service ids. */
  lemma OrderDegradedFirst(view: ServiceView)
    ensures var d := Degraded(view);
            var o := Order(view);
            |d| <= |o| && o[..|d|] == d
            && (forall x :: x in o[|d|..] ==> x !in d)
            && (forall x :: x in d ==> multiset(o)[x] == 1)
            && multiset(o[|d|..]) == multiset(Concat(HealthyLists(view.groups, d)))
  {
    var d := Degraded(view);
    var lists := HealthyLists(view.groups, d);
    var h := RoundRobin(lists);
    var o := Order(view);
    RoundRobinPermutes(lists);
    DegradedIds(view);
    assert o[..|d|] == d && o[|d|..] == h;
    forall k | 0 <= k < |lists| {
      HealthyIdsSpec(view.groups[k].members, d);
    }
    ConcatAvoids(lists, d);
    forall x | x in h ensures x !in d {
      assert x in multiset(h);
      assert x in multiset(Concat(lists));
    }
    forall x | x in d ensures multiset(o)[x] == 1 {
      assert multiset(o) == multiset(d) + multiset(h);
      NoDupOnce(d, x);
      assert x !in multiset(h);
    }
  }

  lemma {:induction false} ConcatAvoids(lists: seq<seq<string>>, d: seq<string>)
    requires forall k, x :: 0 <= k < |lists| && x in lists[k] ==> x !in d
    ensures forall x :: x in Concat(lists) ==> x !in d
    decreases |lists|
  {
    if lists != [] {
      forall k, x | 0 <= k < |lists[1..]| && x in lists[1..][k] ensures x !in d {
        assert lists[1..][k] == lists[k + 1];
      }
      ConcatAvoids(lists[1..], d);
    }
  }

  lemma {:induction false} NoDupOnce(xs: seq<string>, x: string)
    requires NoDup(xs) && x in xs
    ensures multiset(xs)[x] == 1
    decreases |xs|
  {
    assert xs == [xs[0]] + xs[1..];
    assert NoDup(xs[1..]) by {
      forall i, j | 0 <= i < j < |xs[1..]| ensures xs[1..][i] != xs[1..][j] {
        assert xs[1..][i] == xs[i + 1] && xs[1..][j] == xs[j + 1];
      }
    }
    if xs[0] == x {
      assert x !in xs[1..] by {
        forall j | 0 <= j < |xs[1..]| ensures xs[1..][j] != x {
          assert xs[1..][j] == xs[j + 1];
        }
      }
    } else {
      NoDupOnce(xs[1..], x);
    }
  }

  /** The healthy part holds one list per group, each of that group's non-degraded
      'InService' ids in member order. */
  lemma HealthyPart(view: ServiceView, k: nat)
    requires k < |view.groups|
    ensures var d := Degraded(view);
            var l := HealthyLists(view.groups, d);
            |l| == |view.groups|
            && forall x :: x in l[k] <==>
                 (x !in d && exists i :: 0 <= i < |view.groups[k].members|
                                         && view.groups[k].members[i].id == x
                                         && view.groups[k].members[i].groupState == "InService")
  {
    HealthyIdsSpec(view.groups[k].members, Degraded(view));
  }

  // ---------------------------------------------------------------------------
  // The loops of order, one method per pass

  /** roundrobin's loop: the iterator in front yields its next element and goes to the
      back of the cycle; an exhausted one leaves it and the cycle goes on after it. */
  method Interleave<T>(inputs: seq<seq<T>>) returns (out: seq<T>)
    ensures out == RoundRobin(inputs)
  {
    out := [];
    var q := inputs;
    while q != []
      invariant out + RoundRobin(q) == RoundRobin(inputs)
      decreases |Concat(q)|, |q|
    {
      if q[0] == [] {
        q := q[1..];
      } else {
        ConcatAppend(q[1..], [q[0][1..]]);
        assert Concat([q[0][1..]]) == q[0][1..];
        out := out + [q[0][0]];
        q := q[1..] + [q[0][1..]];
      }
    }
  }

  /** Pass 1 and 2's loops: append each listed id not yet present. */
  method CollectNew(acc: seq<string>, lists: seq<seq<string>>) returns (r: seq<string>)
    ensures r == UnionAll(acc, lists)
  {
    r := acc;
    for k := 0 to |lists|
      invariant UnionAll(r, lists[k..]) == UnionAll(acc, lists)
    {
      assert lists[k..][1..] == lists[k + 1..];
      var xs := lists[k];
      ghost var start := r;
      for j := 0 to |xs|
        invariant AddNew(r, xs[j..]) == AddNew(start, xs)
      {
        assert xs[j..][1..] == xs[j + 1..];
        if xs[j] !in r {
          r := r + [xs[j]];
        }
      }
      assert xs[|xs|..] == [];
    }
    assert lists[|lists|..] == [];
  }

  /** One group's pass-1 loop. */
  method UnhealthyOf(members: seq<Member>) returns (ids: seq<string>)
    ensures ids == UnhealthyIds(members)
  {
    ids := [];
    for i := 0 to |members|
      invariant ids + UnhealthyIds(members[i..]) == UnhealthyIds(members)
    {
      assert members[i..][1..] == members[i + 1..];
      if members[i].groupHealth != "Healthy" {
        ids := ids + [members[i].id];
      }
    }
    assert members[|members|..] == [];
  }

  /** One balancer's pass-2 loop. */
  method OutOfServiceOf(members: seq<Registration>) returns (ids: seq<string>)
    ensures ids == OutOfServiceIds(members)
  {
    ids := [];
    for i := 0 to |members|
      invariant ids + OutOfServiceIds(members[i..]) == OutOfServiceIds(members)
    {
      assert members[i..][1..] == members[i + 1..];
      if members[i].balancerState != "InService" {
        ids := ids + [members[i].id];
      }
    }
    assert members[|members|..] == [];
  }

  /** One group's pass-3 loop. */
  method HealthyOf(members: seq<Member>, degraded: seq<string>) returns (ids: seq<string>)
    ensures ids == HealthyIds(members, degraded)
  {
    ids := [];
    for i := 0 to |members|
      invariant ids + HealthyIds(members[i..], degraded) == HealthyIds(members, degraded)
    {
      assert members[i..][1..] == members[i + 1..];
      if members[i].id !in degraded && members[i].groupState == "InService" {
        ids := ids + [members[i].id];
      }
    }
    assert members[|members|..] == [];
  }

  /** Pass 1: the group instances whose health is not 'Healthy'. */
  method UnhealthyPass(groups: seq<GroupSnap>) returns (degraded: seq<string>)
    ensures degraded == UnionAll([], UnhealthyLists(groups))
  {
    var lists := [];
    for k := 0 to |groups|
      invariant |lists| == k && forall i :: 0 <= i < k ==> lists[i] == UnhealthyIds(groups[i].members)
    {
      var ids := UnhealthyOf(groups[k].members);
      lists := lists + [ids];
    }
    assert lists == UnhealthyLists(groups);
    degraded := CollectNew([], lists);
  }

  /** Pass 2: the balancer instances whose state is not 'InService'. */
  method OutOfServicePass(balancers: seq<BalancerSnap>, acc: seq<string>) returns (degraded: seq<string>)
    ensures degraded == UnionAll(acc, OutOfServiceLists(balancers))
  {
    var lists := [];
    for k := 0 to |balancers|
      invariant |lists| == k && forall i :: 0 <= i < k ==> lists[i] == OutOfServiceIds(balancers[i].members)
    {
      var ids := OutOfServiceOf(balancers[k].members);
      lists := lists + [ids];
    }
    assert lists == OutOfServiceLists(balancers);
    degraded := CollectNew(acc, lists);
  }

  /** Pass 3: each group's non-degraded 'InService' instances. */
  method HealthyPass(groups: seq<GroupSnap>, degraded: seq<string>) returns (lists: seq<seq<string>>)
    ensures lists == HealthyLists(groups, degraded)
  {
    lists := [];
    for k := 0 to |groups|
      invariant |lists| == k && forall i :: 0 <= i < k ==> lists[i] == HealthyIds(groups[i].members, degraded)
    {
      var ids := HealthyOf(groups[k].members, degraded);
      lists := lists + [ids];
    }
  }

  lemma UnionAllAppend(acc: seq<string>, a: seq<seq<string>>, b: seq<seq<string>>)
    ensures UnionAll(acc, a + b) == UnionAll(UnionAll(acc, a), b)
  {
    UnionSplit(acc, a + b, |a|);
    assert (a + b)[..|a|] == a && (a + b)[|a|..] == b;
  }
}
