/** Name-pattern selection shared by images and launch configurations:
    `sorted(xs, key=lambda x: x.name, reverse=True)` and `find_by_name`. */
module Naming {
  import opened Wrappers
  import opened Text

  /** Non-increasing by name. */
  ghost predicate SortedDesc<T>(xs: seq<T>, key: T -> string)
  {
    forall i, j :: 0 <= i < j < |xs| ==> !Less(key(xs[i]), key(xs[j]))
  }

  /** Puts x in front of the first element whose name is not greater than x's. */
  function Insert<T>(x: T, xs: seq<T>, key: T -> string): (r: seq<T>)
    ensures multiset(r) == multiset(xs) + multiset{x}
    ensures |r| == |xs| + 1
  {
    if xs == [] || !Less(key(x), key(xs[0])) then [x] + xs
    else
      assert xs == [xs[0]] + xs[1..];
      [xs[0]] + Insert(x, xs[1..], key)
  }

  /** Stable sort by name, descending (each element goes before the later ones of equal name). */
  function SortDesc<T>(xs: seq<T>, key: T -> string): (r: seq<T>)
    ensures multiset(r) == multiset(xs)
    ensures |r| == |xs|
  {
    if xs == [] then []
    else
      assert xs == [xs[0]] + xs[1..];
      Insert(xs[0], SortDesc(xs[1..], key), key)
  }

  lemma {:induction false} InsertSorted<T>(x: T, xs: seq<T>, key: T -> string)
    requires SortedDesc(xs, key)
    ensures SortedDesc(Insert(x, xs, key), key)
    decreases |xs|
  {
    var r := Insert(x, xs, key);
    if xs == [] || !Less(key(x), key(xs[0])) {
      forall j | 0 < j < |r|
        ensures !Less(key(r[0]), key(r[j]))
      {
        var k := j - 1;
        assert r[j] == xs[k];
        if k > 0 && Less(key(x), key(xs[k])) {
          if key(xs[0]) != key(x) {
            LessTotal(key(x), key(xs[0]));
            LessTransitive(key(xs[0]), key(x), key(xs[k]));
          }
          assert false;
        }
      }
    } else {
      var tail := xs[1..];
      assert SortedDesc(tail, key) by {
        forall i, j | 0 <= i < j < |tail| ensures !Less(key(tail[i]), key(tail[j])) {
          assert tail[i] == xs[i + 1] && tail[j] == xs[j + 1];
        }
      }
      InsertSorted(x, tail, key);
      var rest := Insert(x, tail, key);
      assert r == [xs[0]] + rest;
      forall j | 0 <= j < |rest|
        ensures !Less(key(xs[0]), key(rest[j]))
      {
        assert rest[j] in multiset(rest);
        assert rest[j] == x || rest[j] in multiset(tail);
        if rest[j] == x {
          LessAsymmetric(key(x), key(xs[0]));
        } else {
          var k :| 0 <= k < |tail| && tail[k] == rest[j];
          assert xs[k + 1] == rest[j];
        }
      }
      forall i, j | 0 <= i < j < |r|
        ensures !Less(key(r[i]), key(r[j]))
      {
        if i == 0 {
          assert r[j] == rest[j - 1];
        } else {
          assert r[i] == rest[i - 1] && r[j] == rest[j - 1];
        }
      }
    }
  }

  /** The sort's result is ordered by name, descending. */
  lemma {:induction false} SortDescSorted<T>(xs: seq<T>, key: T -> string)
    ensures SortedDesc(SortDesc(xs, key), key)
    decreases |xs|
  {
    if xs != [] {
      SortDescSorted(xs[1..], key);
      InsertSorted(xs[0], SortDesc(xs[1..], key), key);
    }
  }

  /** `re.match("%s-\d{14}" % name, candidate)`: name, a dash and fourteen digits
      at the start of candidate (the name taken literally). */
  predicate DatedName(candidate: string, name: string)
  {
    && |candidate| >= |name| + 15
    && candidate[..|name|] == name
    && candidate[|name|] == '-'
    && forall k :: |name| + 1 <= k < |name| + 15 ==> IsDigit(candidate[k])
  }

  /** What find_by_name accepts: the exact name, or name-<14 digits>... */
  predicate NameMatches(candidate: string, name: string)
  {
    candidate == name || DatedName(candidate, name)
  }

  /** find_by_name over the names of a list: the index of the first match. */
  function FindByName(name: string, names: seq<string>): (r: Option<nat>)
    ensures r.None? <==> forall i :: 0 <= i < |names| ==> !NameMatches(names[i], name)
    ensures r.Some? ==> r.value < |names| && NameMatches(names[r.value], name)
    ensures r.Some? ==> forall j :: 0 <= j < r.value ==> !NameMatches(names[j], name)
    decreases |names|
  {
    if names == [] then None
    else if NameMatches(names[0], name) then Some(0)
    else
      match FindByName(name, names[1..])
      case None => None
      case Some(k) => Some(k + 1)
  }

  /** The names of a list of records. */
  function Names<T>(xs: seq<T>, key: T -> string): (r: seq<string>)
    ensures |r| == |xs|
    ensures forall i :: 0 <= i < |xs| ==> r[i] == key(xs[i])
  {
    seq(|xs|, i requires 0 <= i < |xs| => key(xs[i]))
  }

  /** find_by_name over a list sorted by name, descending, finds the newest match: no
      matching record has a greater name. */
  lemma FindSortedNewest<T>(name: string, xs: seq<T>, key: T -> string)
    requires FindRecord(name, SortDesc(xs, key), key).Some?
    ensures forall x :: x in xs && NameMatches(key(x), name) ==>
              !Less(key(FindRecord(name, SortDesc(xs, key), key).value), key(x))
  {
    var sorted := SortDesc(xs, key);
    var a := FindRecord(name, sorted, key).value;
    SortDescSorted(xs, key);
    var k :| 0 <= k < |sorted| && sorted[k] == a
             && forall j :: 0 <= j < k ==> !NameMatches(key(sorted[j]), name);
    forall x | x in xs && NameMatches(key(x), name)
      ensures !Less(key(a), key(x))
    {
      assert x in multiset(sorted);
      var i :| 0 <= i < |sorted| && sorted[i] == x;
      assert i >= k;
      if i > k {
        assert !Less(key(sorted[k]), key(sorted[i]));
      } else {
        LessIrreflexive(key(x));
      }
    }
  }

  /** find_by_name(name, xs): the first record whose name matches, or None. */
  function FindRecord<T>(name: string, xs: seq<T>, key: T -> string): (r: Option<T>)
    ensures r.Some? ==> r.value in xs && NameMatches(key(r.value), name)
    ensures r.Some? ==> exists k :: 0 <= k < |xs| && xs[k] == r.value
                          && forall j :: 0 <= j < k ==> !NameMatches(key(xs[j]), name)
    ensures r.None? <==> forall i :: 0 <= i < |xs| ==> !NameMatches(key(xs[i]), name)
  {
    match FindByName(name, Names(xs, key))
    case None => None
    case Some(k) => Some(xs[k])
  }
}
