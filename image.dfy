/** billowImage: choosing a machine image for a service by name pattern.
    The provider's name-filtered image lookup is a parameter, `lookup(filter)`. */
module Images {
  import opened Wrappers
  import opened Naming
  import opened Text

  datatype Image = Image(name: string, imageId: string)

  function ImageName(a: Image): string
  {
    a.name
  }

  /** One search format: the provider filter and the name find_by_name looks for. */
  datatype Format = Format(filter: string, wanted: string)

  /** environ-service-*, all-service-*, service-* (billowImage.py:40-44). */
  function Formats(service: string, environ: string): (fs: seq<Format>)
    ensures |fs| == 3
  {
    [ Format(environ + "-" + service + "-*", environ + "-" + service),
      Format("all-" + service + "-*", "all-" + service),
      Format(service + "-*", service) ]
  }

  /** A lookup's results, newest name first. */
  function Sorted(amis: seq<Image>): seq<Image>
  {
    SortDesc(amis, ImageName)
  }

  /** What one format yields in search: find_by_name over the sorted lookup, or nothing
      when the lookup is empty. */
  function FormatMatch(f: Format, lookup: string -> seq<Image>): Option<Image>
  {
    var amis := lookup(f.filter);
    if amis == [] then None else FindRecord(f.wanted, Sorted(amis), ImageName)
  }

  /** The first format that yields a match, tried in order. */
  function FirstMatch(fs: seq<Format>, lookup: string -> seq<Image>): (r: Option<Image>)
    ensures r.None? <==> forall k :: 0 <= k < |fs| ==> FormatMatch(fs[k], lookup).None?
    ensures r.Some? ==> exists k :: 0 <= k < |fs| && r == FormatMatch(fs[k], lookup)
                          && forall j :: 0 <= j < k ==> FormatMatch(fs[j], lookup).None?
  {
    if fs == [] then None
    else if FormatMatch(fs[0], lookup).Some? then FormatMatch(fs[0], lookup)
    else
      var r := FirstMatch(fs[1..], lookup);
      FirstMatchStep(fs, lookup, r);
      r
  }

  /** The contract of FirstMatch carries over from the formats after the first to all of
      them when the first finds nothing. */
  lemma FirstMatchStep(fs: seq<Format>, lookup: string -> seq<Image>, r: Option<Image>)
    requires fs != [] && FormatMatch(fs[0], lookup).None?
    requires r.None? <==> forall k :: 0 <= k < |fs[1..]| ==> FormatMatch(fs[1..][k], lookup).None?
    requires r.Some? ==> exists k :: 0 <= k < |fs[1..]| && r == FormatMatch(fs[1..][k], lookup)
                            && forall j :: 0 <= j < k ==> FormatMatch(fs[1..][j], lookup).None?
    ensures r.None? <==> forall k :: 0 <= k < |fs| ==> FormatMatch(fs[k], lookup).None?
    ensures r.Some? ==> exists k :: 0 <= k < |fs| && r == FormatMatch(fs[k], lookup)
                          && forall j :: 0 <= j < k ==> FormatMatch(fs[j], lookup).None?
  {
    assert forall k :: 1 <= k < |fs| ==> fs[k] == fs[1..][k - 1];
    if r.Some? {
      var k :| 0 <= k < |fs[1..]| && r == FormatMatch(fs[1..][k], lookup)
               && forall j :: 0 <= j < k ==> FormatMatch(fs[1..][j], lookup).None?;
      assert fs[k + 1] == fs[1..][k];
      forall j | 0 <= j < k + 1 ensures FormatMatch(fs[j], lookup).None? {
        if j > 0 {
          assert fs[j] == fs[1..][j - 1];
        }
      }
    }
  }

  /** search(service, environ): the first pattern match, else the first image of a
      plain service lookup, else None. */
  method Search(service: string, environ: string, lookup: string -> seq<Image>) returns (r: Option<Image>)
    ensures FirstMatch(Formats(service, environ), lookup).Some? ==> r == FirstMatch(Formats(service, environ), lookup)
    ensures FirstMatch(Formats(service, environ), lookup).None? ==>
              r == (if lookup(service) == [] then None else Some(lookup(service)[0]))
  {
    var formats := Formats(service, environ);
    var k := 0;
    while k < |formats|
      invariant 0 <= k <= |formats|
      invariant FirstMatch(formats, lookup) == FirstMatch(formats[k..], lookup)
    {
      var ami: Option<Image> := None;
      var amis := lookup(formats[k].filter);
      if amis != [] {
        amis := SortDesc(amis, ImageName);
        ami := FindRecord(formats[k].wanted, amis, ImageName);
      }
      if ami.Some? {
        return ami;
      }
      assert formats[k..][1..] == formats[k + 1..];
      k := k + 1;
    }
    var amis := lookup(service);
    if amis != [] {
      return Some(amis[0]);
    }
    return None;
  }

  /** a is what search returns through format k of fs: it was returned by that format's
      lookup, matches its wanted name, no matching image of that lookup has a greater
      (newer) name, and every earlier format found nothing. */
  ghost predicate PatternResult(fs: seq<Format>, k: nat, a: Image, lookup: string -> seq<Image>)
    requires k < |fs|
  {
    && a in lookup(fs[k].filter) && NameMatches(a.name, fs[k].wanted)
    && (forall x :: x in lookup(fs[k].filter) && NameMatches(x.name, fs[k].wanted) ==> !Less(a.name, x.name))
    && forall j :: 0 <= j < k ==> FormatMatch(fs[j], lookup).None?
  }

  /** A search result found by a pattern is that pattern's newest matching image, and
      every earlier pattern found nothing. */
  lemma SearchPatternResult(service: string, environ: string, lookup: string -> seq<Image>)
    requires FirstMatch(Formats(service, environ), lookup).Some?
    ensures exists k :: 0 <= k < 3
              && PatternResult(Formats(service, environ), k, FirstMatch(Formats(service, environ), lookup).value, lookup)
  {
    var fs := Formats(service, environ);
    var a := FirstMatch(fs, lookup).value;
    var k :| 0 <= k < |fs| && FirstMatch(fs, lookup) == FormatMatch(fs[k], lookup)
               && forall j :: 0 <= j < k ==> FormatMatch(fs[j], lookup).None?;
    FormatMatchFound(fs[k], lookup);
    assert PatternResult(fs, k, a, lookup);
  }

  /** A format's match was returned by its lookup, matches its wanted name, and is the
      newest matching image of that lookup. */
  lemma FormatMatchFound(f: Format, lookup: string -> seq<Image>)
    requires FormatMatch(f, lookup).Some?
    ensures FormatMatch(f, lookup).value in lookup(f.filter)
    ensures NameMatches(FormatMatch(f, lookup).value.name, f.wanted)
    ensures forall x :: x in lookup(f.filter) && NameMatches(x.name, f.wanted) ==>
              !Less(FormatMatch(f, lookup).value.name, x.name)
  {
    var amis := lookup(f.filter);
    var sorted := Sorted(amis);
    var a := FormatMatch(f, lookup).value;
    assert a in sorted;
    assert a in multiset(sorted);
    FindSortedNewest(f.wanted, amis, ImageName);
  }

  /** list(service, environ): the three pattern lookups, each sorted by name descending,
      then the plain service lookup as returned. */
  method List(service: string, environ: string, lookup: string -> seq<Image>) returns (amilist: seq<Image>)
    ensures amilist == ListPrefix(Formats(service, environ), 3, lookup) + lookup(service)
  {
    var formats := Formats(service, environ);
    amilist := [];
    for k := 0 to |formats|
      invariant amilist == ListPrefix(formats, k, lookup)
    {
      var amis := lookup(formats[k].filter);
      if amis != [] {
        amilist := amilist + SortDesc(amis, ImageName);
      }
    }
    var amis := lookup(service);
    if amis != [] {
      amilist := amilist + amis;
    }
  }

  /** The sorted results of the first n formats, concatenated. */
  function ListPrefix(fs: seq<Format>, n: nat, lookup: string -> seq<Image>): seq<Image>
    requires n <= |fs|
  {
    if n == 0 then [] else ListPrefix(fs, n - 1, lookup) + Sorted(lookup(fs[n - 1].filter))
  }

  /** The pattern part of the list is the three sorted lookups, in format order. */
  lemma ListPatternBlocks(fs: seq<Format>, lookup: string -> seq<Image>)
    requires |fs| == 3
    ensures ListPrefix(fs, 3, lookup)
            == Sorted(lookup(fs[0].filter)) + Sorted(lookup(fs[1].filter)) + Sorted(lookup(fs[2].filter))
  {
    assert ListPrefix(fs, 1, lookup) == Sorted(lookup(fs[0].filter));
  }

  /** Each block of the list is ordered newest name first and holds exactly its lookup's images. */
  lemma ListBlocksSorted(service: string, environ: string, lookup: string -> seq<Image>, k: nat)
    requires k < 3
    ensures SortedDesc(Sorted(lookup(Formats(service, environ)[k].filter)), ImageName)
    ensures multiset(Sorted(lookup(Formats(service, environ)[k].filter)))
            == multiset(lookup(Formats(service, environ)[k].filter))
  {
    SortDescSorted(lookup(Formats(service, environ)[k].filter), ImageName);
  }
}
