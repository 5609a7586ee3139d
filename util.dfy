/** util.common_args: choosing the region and expanding the regions list. The
    instance-metadata region (read only with --auto) is a parameter. */
module Util {
  import opened Wrappers
  import opened Text

  const DefaultRegion := "us-east-1"

  /** --region if given, else the auto-detected region, else us-east-1 (util.py:39-51).
      Python truthiness: an empty string counts as not given. */
  function ChooseRegion(region: Option<string>, detected: Option<string>): (r: string)
    ensures Truthy(region) ==> r == region.value
    ensures !Truthy(region) && Truthy(detected) ==> r == detected.value
    ensures !Truthy(region) && !Truthy(detected) ==> r == DefaultRegion
    ensures r != ""
  {
    if Truthy(region) then region.value
    else if Truthy(detected) then detected.value
    else DefaultRegion
  }

  /** The entries without a comma, in their order. */
  function Plain(rs: seq<string>): (r: seq<string>)
    ensures forall i :: 0 <= i < |r| ==> ',' !in r[i]
  {
    if rs == [] then []
    else (if ',' in rs[0] then [] else [rs[0]]) + Plain(rs[1..])
  }

  /** The comma-separated parts of the entries with a comma, in order. */
  function Parts(rs: seq<string>): (r: seq<string>)
    ensures forall i :: 0 <= i < |r| ==> ',' !in r[i]
  {
    if rs == [] then []
    else (if ',' in rs[0] then Split(rs[0], ',') else []) + Parts(rs[1..])
  }

  /** The regions list after expansion: plain entries kept in order, each comma entry
      replaced by its parts at the end. */
  function Expanded(rs: seq<string>): seq<string>
  {
    Plain(rs) + Parts(rs)
  }

  lemma {:induction false} PlainSnoc(rs: seq<string>, x: string)
    ensures Plain(rs + [x]) == Plain(rs) + (if ',' in x then [] else [x])
    decreases |rs|
  {
    if rs == [] {
      assert [] + [x] == [x];
    } else {
      assert (rs + [x])[1..] == rs[1..] + [x];
      PlainSnoc(rs[1..], x);
    }
  }

  lemma {:induction false} PartsSnoc(rs: seq<string>, x: string)
    ensures Parts(rs + [x]) == Parts(rs) + (if ',' in x then Split(x, ',') else [])
    decreases |rs|
  {
    if rs == [] {
      assert [] + [x] == [x];
    } else {
      assert (rs + [x])[1..] == rs[1..] + [x];
      PartsSnoc(rs[1..], x);
    }
  }

  /** list.remove(x): drop the first occurrence. */
  function RemoveFirst<T(==)>(xs: seq<T>, x: T): seq<T>
    decreases |xs|
  {
    if xs == [] then []
    else if xs[0] == x then xs[1..]
    else [xs[0]] + RemoveFirst(xs[1..], x)
  }

  /** Removing from `a + [x] + b` where a holds no x drops exactly that x. */
  lemma {:induction false} RemoveFirstAt<T>(a: seq<T>, x: T, b: seq<T>)
    requires x !in a
    ensures RemoveFirst(a + [x] + b, x) == a + b
    decreases |a|
  {
    if a == [] {
      assert [] + [x] + b == [x] + b;
    } else {
      assert (a + [x] + b)[1..] == a[1..] + [x] + b;
      RemoveFirstAt(a[1..], x, b);
    }
  }

  /** The list after the first k entries of copy were visited. */
  function Shape(copy: seq<string>, k: nat): seq<string>
    requires k <= |copy|
  {
    Plain(copy[..k]) + copy[k..] + Parts(copy[..k])
  }

  /** One visit: a comma entry's parts are appended and the entry itself removed. */
  function Step(rs: seq<string>, r: string): seq<string>
  {
    if ',' in r then RemoveFirst(rs + Split(r, ','), r) else rs
  }

  /** One iteration of the expansion loop keeps the loop's shape: expanded prefix, untouched
      rest, parts of the expanded comma entries. */
  lemma ExpandStep(copy: seq<string>, k: nat)
    requires k < |copy|
    ensures Step(Shape(copy, k), copy[k]) == Shape(copy, k + 1)
  {
    var r := copy[k];
    var done := copy[..k];
    var rest := copy[k + 1..];
    assert copy[..k + 1] == done + [r];
    assert copy[k..] == [r] + rest;
    PlainSnoc(done, r);
    PartsSnoc(done, r);
    if ',' in r {
      StepComma(Plain(done), r, rest, Parts(done));
    } else {
      assert Shape(copy, k) == Plain(done) + [r] + rest + Parts(done);
    }
  }

  lemma StepComma(plain: seq<string>, r: string, rest: seq<string>, parts: seq<string>)
    requires ',' in r
    requires forall i :: 0 <= i < |plain| ==> ',' !in plain[i]
    ensures Step(plain + ([r] + rest) + parts, r) == plain + rest + (parts + Split(r, ','))
  {
    var pieces := Split(r, ',');
    var tail := rest + parts + pieces;
    assert r !in plain by {
      forall i | 0 <= i < |plain| ensures plain[i] != r {
        assert ',' !in plain[i];
      }
    }
    assert plain + ([r] + rest) + parts + pieces == plain + [r] + tail;
    RemoveFirstAt(plain, r, tail);
    assert plain + tail == plain + rest + (parts + pieces);
  }

  /** common_args: the chosen region and the expanded regions list (util.py:33-64). */
  method CommonArgs(region: Option<string>, detected: Option<string>, regions: Option<seq<string>>)
    returns (outRegion: string, outRegions: seq<string>)
    ensures outRegion == ChooseRegion(region, detected)
    ensures outRegions == Expanded(if regions.None? || regions.value == [] then [outRegion] else regions.value)
  {
    outRegion := ChooseRegion(region, detected);
    var rs: seq<string>;
    if regions.None? || regions.value == [] {
      rs := [outRegion];
    } else {
      rs := regions.value;
    }
    var copy := rs;
    assert copy[..0] == [] && copy[0..] == copy;
    for k := 0 to |copy|
      invariant rs == Shape(copy, k)
    {
      var r := copy[k];
      ExpandStep(copy, k);
      if ',' in r {
        rs := rs + Split(r, ',');
        rs := RemoveFirst(rs, r);
      }
    }
    assert copy[..|copy|] == copy && copy[|copy|..] == [];
    outRegions := rs;
  }

  /** With no --regions (and a chosen region without a comma) the list is just the
      chosen region (util.py:57-60). */
  lemma DefaultRegions(region: string)
    requires ',' !in region
    ensures Expanded([region]) == [region]
  {
    NoCommaFixed([region]);
  }

  /** After expansion no entry holds a comma, so expanding again changes nothing. */
  lemma {:induction false} ExpandedIdempotent(rs: seq<string>)
    ensures forall i :: 0 <= i < |Expanded(rs)| ==> ',' !in Expanded(rs)[i]
    ensures Expanded(Expanded(rs)) == Expanded(rs)
  {
    NoCommaFixed(Expanded(rs));
  }

  lemma {:induction false} NoCommaFixed(rs: seq<string>)
    requires forall i :: 0 <= i < |rs| ==> ',' !in rs[i]
    ensures Plain(rs) == rs && Parts(rs) == []
    decreases |rs|
  {
    if rs != [] {
      NoCommaFixed(rs[1..]);
      assert rs == [rs[0]] + rs[1..];
    }
  }

  /** Every part of a comma entry appears in the expansion, and entries without a comma are
      kept in their relative order (as a prefix). */
  lemma {:induction false} ExpandedKeepsEntries(rs: seq<string>)
    ensures Expanded(rs)[..|Plain(rs)|] == Plain(rs)
    ensures forall i :: 0 <= i < |rs| && ',' !in rs[i] ==> rs[i] in Plain(rs)
    ensures forall i, p :: 0 <= i < |rs| && ',' in rs[i] && p in Split(rs[i], ',') ==> p in Parts(rs)
    decreases |rs|
  {
    if rs != [] {
      ExpandedKeepsEntries(rs[1..]);
      forall i | 1 <= i < |rs|
        ensures rs[i] == rs[1..][i - 1]
      {
      }
    }
  }
}
