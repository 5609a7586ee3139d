/** billowEndpoint: a reverse index over the DNS records of some zones, answering which
    record names point at a destination. The provider's get_records(zone, role) is the
    parameter `fetch`. */
module Endpoints {
  import opened Wrappers
  import opened Text
  import opened Services

  /** The fields of a route53 record that the index reads. */
  datatype ZoneRecord = ZoneRecord(name: string, rtype: string, resourceRecords: seq<string>, aliasDnsName: Option<string>)

  /** The constructor's zones argument: a single zone or a list of them. */
  datatype ZonesArg = OneZone(zone: string) | ZoneList(zones: seq<string>)

  /** `if not isinstance(zones, list): zones = [zones]` */
  function ZonesOf(arg: ZonesArg): (r: seq<string>)
    ensures arg.OneZone? ==> r == [arg.zone]
    ensures arg.ZoneList? ==> r == arg.zones
  {
    match arg
    case OneZone(z) => [z]
    case ZoneList(zs) => zs
  }

  /** The reverse dict: destination to the names pointing at it. */
  type Reverse = map<string, seq<string>>

  predicate Has(rev: Reverse, dest: string, name: string)
  {
    dest in rev && name in rev[dest]
  }

  /** Every destination has at least one name and no name twice. */
  predicate WellFormed(rev: Reverse)
  {
    forall d :: d in rev ==> rev[d] != [] && NoDup(rev[d])
  }

  // ---------------------------------------------------------------------------
  // The index construction of __load (billowEndpoint.py:42-70)

  /** Record the name under the destination: a new list for a new destination, an append
      when the name is not there yet. */
  function AddName(rev: Reverse, dest: string, name: string): Reverse
  {
    if dest in rev then (if name in rev[dest] then rev else rev[dest := rev[dest] + [name]])
    else rev[dest := [name]]
  }

  lemma AddNameSpec(rev: Reverse, dest: string, name: string)
    ensures forall d, x :: Has(AddName(rev, dest, name), d, x) <==> Has(rev, d, x) || (d == dest && x == name)
    ensures AddName(rev, dest, name).Keys == rev.Keys + {dest}
    ensures WellFormed(rev) ==> WellFormed(AddName(rev, dest, name))
  {
    if WellFormed(rev) && dest in rev && name !in rev[dest] {
      var xs := rev[dest] + [name];
      forall i, j | 0 <= i < j < |xs| ensures xs[i] != xs[j] {
        assert xs[i] == rev[dest][i];
        if j < |rev[dest]| {
          assert xs[j] == rev[dest][j];
        }
      }
    }
  }

  /** Some destination of the list, stripped of a trailing dot, is `dest`. */
  predicate AmongDests(dests: seq<string>, dest: string)
  {
    exists j :: 0 <= j < |dests| && StripDot(dests[j]) == dest
  }

  /** The CNAME loop: the name under each resource record, stripped of a trailing dot. */
  function AddDests(rev: Reverse, dests: seq<string>, name: string): Reverse
    decreases |dests|
  {
    if dests == [] then rev
    else AddDests(AddName(rev, StripDot(dests[0]), name), dests[1..], name)
  }

  lemma {:induction false} AddDestsSpec(rev: Reverse, dests: seq<string>, name: string)
    ensures forall d, x :: Has(AddDests(rev, dests, name), d, x) <==>
              Has(rev, d, x) || (x == name && AmongDests(dests, d))
    ensures WellFormed(rev) ==> WellFormed(AddDests(rev, dests, name))
    decreases |dests|
  {
    if dests != [] {
      AddNameSpec(rev, StripDot(dests[0]), name);
      AddDestsSpec(AddName(rev, StripDot(dests[0]), name), dests[1..], name);
      forall d ensures AmongDests(dests, d) <==> StripDot(dests[0]) == d || AmongDests(dests[1..], d) {
        if AmongDests(dests, d) {
          var j :| 0 <= j < |dests| && StripDot(dests[j]) == d;
          if j > 0 {
            assert dests[1..][j - 1] == dests[j];
          }
        }
        if AmongDests(dests[1..], d) {
          var j :| 0 <= j < |dests[1..]| && StripDot(dests[1..][j]) == d;
          assert dests[j + 1] == dests[1..][j];
        }
      }
    }
  }

  /** One record: only CNAME records and aliased A records contribute. */
  function Indexed(rev: Reverse, zr: ZoneRecord): Reverse
  {
    if zr.rtype != "CNAME" && zr.rtype != "A" then rev
    else
      var name := StripDot(zr.name);
      var rev1 := if zr.rtype == "CNAME" then AddDests(rev, zr.resourceRecords, name) else rev;
      if zr.rtype == "A" && Truthy(zr.aliasDnsName) then AddName(rev1, StripDot(zr.aliasDnsName.value), name)
      else rev1
  }

  /** The record makes `name` point at `dest`: a CNAME through one of its resource records,
      an A record through its alias, each with one trailing dot stripped. */
  predicate Points(zr: ZoneRecord, dest: string, name: string)
  {
    name == StripDot(zr.name)
    && ((zr.rtype == "CNAME" && AmongDests(zr.resourceRecords, dest))
        || (zr.rtype == "A" && Truthy(zr.aliasDnsName) && StripDot(zr.aliasDnsName.value) == dest))
  }

  lemma IndexedSpec(rev: Reverse, zr: ZoneRecord)
    ensures forall d, x :: Has(Indexed(rev, zr), d, x) <==> Has(rev, d, x) || Points(zr, d, x)
    ensures WellFormed(rev) ==> WellFormed(Indexed(rev, zr))
  {
    if zr.rtype == "CNAME" {
      AddDestsSpec(rev, zr.resourceRecords, StripDot(zr.name));
    } else if zr.rtype == "A" && Truthy(zr.aliasDnsName) {
      AddNameSpec(rev, StripDot(zr.aliasDnsName.value), StripDot(zr.name));
    }
  }

  /** All records of one zone, in order. */
  function IndexedAll(rev: Reverse, recs: seq<ZoneRecord>): Reverse
    decreases |recs|
  {
    if recs == [] then rev else IndexedAll(Indexed(rev, recs[0]), recs[1..])
  }

  predicate PointsAny(recs: seq<ZoneRecord>, dest: string, name: string)
  {
    exists i :: 0 <= i < |recs| && Points(recs[i], dest, name)
  }

  lemma {:induction false} IndexedAllSpec(rev: Reverse, recs: seq<ZoneRecord>)
    ensures forall d, x :: Has(IndexedAll(rev, recs), d, x) <==> Has(rev, d, x) || PointsAny(recs, d, x)
    ensures WellFormed(rev) ==> WellFormed(IndexedAll(rev, recs))
    decreases |recs|
  {
    if recs != [] {
      IndexedSpec(rev, recs[0]);
      IndexedAllSpec(Indexed(rev, recs[0]), recs[1..]);
      forall d, x ensures PointsAny(recs, d, x) <==> Points(recs[0], d, x) || PointsAny(recs[1..], d, x) {
        if PointsAny(recs, d, x) {
          var i :| 0 <= i < |recs| && Points(recs[i], d, x);
          if i > 0 {
            assert recs[1..][i - 1] == recs[i];
          }
        }
        if PointsAny(recs[1..], d, x) {
          var i :| 0 <= i < |recs[1..]| && Points(recs[1..][i], d, x);
          assert recs[i + 1] == recs[1..][i];
        }
      }
    }
  }

  /** All zones, in the order the zones are listed. */
  function IndexedZones(rev: Reverse, zones: seq<string>, raw: map<string, seq<ZoneRecord>>): Reverse
    decreases |zones|
  {
    if zones == [] then rev
    else IndexedZones(IndexedAll(rev, if zones[0] in raw then raw[zones[0]] else []), zones[1..], raw)
  }

  predicate PointsIn(zones: seq<string>, raw: map<string, seq<ZoneRecord>>, dest: string, name: string)
  {
    exists k :: 0 <= k < |zones| && zones[k] in raw && PointsAny(raw[zones[k]], dest, name)
  }

  /** The index holds a name under a destination exactly when some record of some zone makes
      the name point there (or it was held before), and it holds no name twice. */
  lemma {:induction false} IndexedZonesSpec(rev: Reverse, zones: seq<string>, raw: map<string, seq<ZoneRecord>>)
    ensures forall d, x :: Has(IndexedZones(rev, zones, raw), d, x) <==> Has(rev, d, x) || PointsIn(zones, raw, d, x)
    ensures WellFormed(rev) ==> WellFormed(IndexedZones(rev, zones, raw))
    decreases |zones|
  {
    if zones != [] {
      var recs := if zones[0] in raw then raw[zones[0]] else [];
      IndexedAllSpec(rev, recs);
      IndexedZonesSpec(IndexedAll(rev, recs), zones[1..], raw);
      forall d, x ensures PointsIn(zones, raw, d, x) <==> PointsAny(recs, d, x) || PointsIn(zones[1..], raw, d, x) {
        if PointsIn(zones, raw, d, x) {
          var k :| 0 <= k < |zones| && zones[k] in raw && PointsAny(raw[zones[k]], d, x);
          if k > 0 {
            assert zones[1..][k - 1] == zones[k];
          }
        }
        if PointsIn(zones[1..], raw, d, x) {
          var k :| 0 <= k < |zones[1..]| && zones[1..][k] in raw && PointsAny(raw[zones[1..][k]], d, x);
          assert zones[k + 1] == zones[1..][k];
        }
      }
    }
  }

  // ---------------------------------------------------------------------------
  // Record fetching (billowEndpoint.py:34-40)

  /** The role kept for a zone, if any. */
  function RoleOf(roles: map<string, string>, zone: string): (r: Option<string>)
    ensures r.Some? <==> zone in roles
    ensures r.Some? ==> r.value == roles[zone]
  {
    if zone in roles then Some(roles[zone]) else None
  }

  /** The rawzones dict: each zone's records fetched with its role. */
  function Fetched(zones: seq<string>, roles: map<string, string>, fetch: (string, Option<string>) -> seq<ZoneRecord>)
    : map<string, seq<ZoneRecord>>
  {
    map z | z in zones :: fetch(z, RoleOf(roles, z))
  }

  // ---------------------------------------------------------------------------
  // find_destination, set_role and add_zone (billowEndpoint.py:72-93)

  /** The lookup of find_destination: one trailing dot stripped, [] for an unknown name. */
  function Lookup(rev: Reverse, name: string): seq<string>
  {
    var n := StripDot(name);
    if n in rev then rev[n] else []
  }

  /** Looking a destination up in an index built from nothing gives exactly the names that
      some record points at it (with the name's trailing dot stripped), each once. */
  lemma LookupSpec(zones: seq<string>, raw: map<string, seq<ZoneRecord>>, name: string)
    ensures forall x :: x in Lookup(IndexedZones(map[], zones, raw), name) <==> PointsIn(zones, raw, StripDot(name), x)
    ensures NoDup(Lookup(IndexedZones(map[], zones, raw), name))
  {
    IndexedZonesSpec(map[], zones, raw);
    var rev := IndexedZones(map[], zones, raw);
    forall x ensures x in Lookup(rev, name) <==> PointsIn(zones, raw, StripDot(name), x) {
      assert x in Lookup(rev, name) <==> Has(rev, StripDot(name), x);
    }
  }

  /** The zone list with the zone appended when it is not there yet. */
  function WithZone(zones: seq<string>, zone: string): seq<string>
  {
    if zone in zones then zones else zones + [zone]
  }

  /** The zone is then listed, the earlier zones keep their places, nothing is listed twice
      that was not before, and adding again changes nothing. */
  lemma WithZoneSpec(zones: seq<string>, zone: string)
    ensures zone in WithZone(zones, zone)
    ensures |WithZone(zones, zone)| >= |zones| && WithZone(zones, zone)[..|zones|] == zones
    ensures forall z :: z in WithZone(zones, zone) <==> z in zones || z == zone
    ensures NoDup(zones) ==> NoDup(WithZone(zones, zone))
    ensures WithZone(WithZone(zones, zone), zone) == WithZone(zones, zone)
  {
    if zone !in zones && NoDup(zones) {
      var r := zones + [zone];
      forall i, j | 0 <= i < j < |r| ensures r[i] != r[j] {
        assert r[i] == zones[i];
        if j < |zones| {
          assert r[j] == zones[j];
        }
      }
    }
  }

  /** After set_role the next load fetches the zone with that role; after add_zone with
      none. */
  lemma RolesAfter(roles: map<string, string>, zone: string, role: string)
    ensures RoleOf(roles[zone := role], zone) == Some(role)
    ensures RoleOf(roles - {zone}, zone) == None
    ensures forall z :: z != zone ==>
              RoleOf(roles[zone := role], z) == RoleOf(roles, z) && RoleOf(roles - {zone}, z) == RoleOf(roles, z)
  {
  }

  /** One zone's records into the index: the loops of __load over a zone's records and, for
      a CNAME, over its resource records. */
  method IndexRecords(rev: Reverse, recs: seq<ZoneRecord>) returns (r: Reverse)
    ensures r == IndexedAll(rev, recs)
  {
    r := rev;
    for i := 0 to |recs|
      invariant IndexedAll(r, recs[i..]) == IndexedAll(rev, recs)
    {
      assert recs[i..][1..] == recs[i + 1..];
      var zr := recs[i];
      if zr.rtype != "CNAME" && zr.rtype != "A" {
        continue;
      }
      var name := StripDot(zr.name);
      ghost var start := r;
      if zr.rtype == "CNAME" {
        var dests := zr.resourceRecords;
        for j := 0 to |dests|
          invariant AddDests(r, dests[j..], name) == AddDests(start, dests, name)
        {
          assert dests[j..][1..] == dests[j + 1..];
          var dest := StripDot(dests[j]);
          if dest in r {
            if name !in r[dest] {
              r := r[dest := r[dest] + [name]];
            }
          } else {
            r := r[dest := [name]];
          }
        }
        assert dests[|dests|..] == [];
      }
      if zr.rtype == "A" && Truthy(zr.aliasDnsName) {
        var dest := StripDot(zr.aliasDnsName.value);
        if dest in r {
          if name !in r[dest] {
            r := r[dest := r[dest] + [name]];
          }
        } else {
          r := r[dest := [name]];
        }
      }
    }
    assert recs[|recs|..] == [];
  }

  class Endpoint {
    var zones: seq<string>
    const region: string
    var roles: map<string, string>
    var reverse: Reverse
    var rawzones: Option<map<string, seq<ZoneRecord>>>

    /** The constructor's loop over the zones strips a trailing dot from a loop variable
        only, so the zones are kept as given (billowEndpoint.py:17-31). */
    constructor (arg: ZonesArg, region: string)
      ensures zones == ZonesOf(arg) && this.region == region
      ensures roles == map[] && reverse == map[] && rawzones == None
    {
      zones := ZonesOf(arg);
      this.region := region;
      roles := map[];
      reverse := map[];
      rawzones := None;
    }

    /** `self.rawzones` is truthy: loaded, and not an empty dict. */
    predicate Loaded()
      reads this`rawzones
    {
      rawzones.Some? && rawzones.value != map[]
    }

    /** __load: when nothing (or an empty dict) is loaded, fetch every zone's records with
        its role and add them to the index (billowEndpoint.py:33-70). */
    method Load(fetch: (string, Option<string>) -> seq<ZoneRecord>)
      modifies this`rawzones, this`reverse
      ensures old(Loaded()) ==> rawzones == old(rawzones) && reverse == old(reverse)
      ensures !old(Loaded()) ==> rawzones == Some(Fetched(zones, roles, fetch))
                                 && reverse == IndexedZones(old(reverse), zones, rawzones.value)
    {
      if Loaded() {
        return;
      }
      var raw: map<string, seq<ZoneRecord>> := map[];
      for k := 0 to |zones|
        modifies {}
        invariant raw == Fetched(zones[..k], roles, fetch)
      {
        var z := zones[k];
        assert zones[..k + 1] == zones[..k] + [z];
        raw := raw[z := fetch(z, RoleOf(roles, z))];
      }
      assert zones[..|zones|] == zones;
      var rev := reverse;
      for k := 0 to |zones|
        modifies {}
        invariant IndexedZones(rev, zones[k..], raw) == IndexedZones(reverse, zones, raw)
      {
        assert zones[k..][1..] == zones[k + 1..];
        var z := zones[k];
        rev := IndexRecords(rev, raw[z]);
      }
      assert zones[|zones|..] == [];
      rawzones := Some(raw);
      reverse := rev;
    }

    /** set_role: list the zone if new, keep its role, and drop the loaded records and the
        index so that the next lookup rebuilds them (billowEndpoint.py:72-77). */
    method SetRole(zone: string, role: string)
      modifies this`zones, this`roles, this`rawzones, this`reverse
      ensures zones == WithZone(old(zones), zone)
      ensures roles == old(roles)[zone := role]
      ensures rawzones == None && reverse == map[]
    {
      if zone !in zones {
        zones := zones + [zone];
      }
      roles := roles[zone := role];
      rawzones := None;
      reverse := map[];
    }

    /** add_zone: list the zone if new, drop any role kept for it, and drop the loaded
        records and the index (billowEndpoint.py:79-85). */
    method AddZone(zone: string)
      modifies this`zones, this`roles, this`rawzones, this`reverse
      ensures zones == WithZone(old(zones), zone)
      ensures roles == old(roles) - {zone}
      ensures rawzones == None && reverse == map[]
    {
      if zone !in zones {
        zones := zones + [zone];
      }
      if zone in roles {
        roles := roles - {zone};
      }
      rawzones := None;
      reverse := map[];
    }

    /** find_destination: load, then look the name up with one trailing dot stripped
        (billowEndpoint.py:87-93). */
    method FindDestination(name: string, fetch: (string, Option<string>) -> seq<ZoneRecord>) returns (names: seq<string>)
      modifies this`rawzones, this`reverse
      ensures old(Loaded()) ==> rawzones == old(rawzones) && reverse == old(reverse)
      ensures !old(Loaded()) ==> rawzones == Some(Fetched(zones, roles, fetch))
                                 && reverse == IndexedZones(old(reverse), zones, rawzones.value)
      ensures names == Lookup(reverse, name)
    {
      Load(fetch);
      var n := name;
      if |n| > 0 && n[|n| - 1] == '.' {
        n := n[..|n| - 1];
      }
      if n in reverse {
        return reverse[n];
      }
      return [];
    }
  }
}
