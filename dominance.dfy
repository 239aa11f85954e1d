/** The dominant zone of a session summary: the label counted most often,
    ties going to the label that was seen first. */
module Dominance {

  /** How many times `zone` occurs in `zones`. */
  function Count(zones: seq<string>, zone: string): nat
  {
    multiset(zones)[zone]
  }

  /** Position of the first occurrence of `zone`. */
  function FirstIndex(zones: seq<string>, zone: string): (i: nat)
    requires zone in zones
    ensures i < |zones| && zones[i] == zone
    ensures forall j :: 0 <= j < i ==> zones[j] != zone
  {
    if zones[0] == zone then 0 else 1 + FirstIndex(zones[1..], zone)
  }

  /** `d` occurs, no label occurs more often, and among the labels that occur
      as often, `d` is the one whose first occurrence is earliest. */
  predicate IsDominant(zones: seq<string>, d: string)
  {
    d in zones &&
    (forall zone :: zone in zones ==> Count(zones, zone) <= Count(zones, d)) &&
    (forall zone :: zone in zones && Count(zones, zone) == Count(zones, d) ==>
       FirstIndex(zones, d) <= FirstIndex(zones, zone))
  }

  /** The three conditions pin the dominant zone down uniquely. */
  lemma DominantUnique(zones: seq<string>, d1: string, d2: string)
    requires IsDominant(zones, d1) && IsDominant(zones, d2)
    ensures d1 == d2
  {
  }

  /** Two different labels together occur at most as often as there are points. */
  lemma {:induction false} CountsOfTwo(zones: seq<string>, a: string, b: string)
    requires a != b
    ensures Count(zones, a) + Count(zones, b) <= |zones|
  {
    if zones != [] {
      assert zones == [zones[0]] + zones[1..];
      assert multiset(zones) == multiset([zones[0]]) + multiset(zones[1..]);
      CountsOfTwo(zones[1..], a, b);
    }
  }

  /** A label that fills more than half of the trajectory is the dominant one. */
  lemma MajorityIsDominant(zones: seq<string>, d: string)
    requires 2 * Count(zones, d) > |zones|
    ensures IsDominant(zones, d)
  {
    forall zone | zone in zones && zone != d
      ensures Count(zones, zone) < Count(zones, d)
    {
      CountsOfTwo(zones, zone, d);
    }
  }

  /** After the first i labels: `counts` maps exactly the labels seen so far
      to their number of occurrences. */
  ghost predicate CountsTallied(zones: seq<string>, i: nat, counts: map<string, nat>)
    requires i <= |zones|
  {
    (forall zone :: zone in counts <==> zone in zones[..i]) &&
    (forall zone :: zone in counts ==> counts[zone] == Count(zones[..i], zone))
  }

  /** After the first i labels: `keys` lists the counted labels, each first
      seen before i, in order of first occurrence. */
  ghost predicate KeysOrdered(zones: seq<string>, i: nat, keys: seq<string>, counts: map<string, nat>)
  {
    (forall zone :: zone in keys <==> zone in counts) &&
    (forall k :: 0 <= k < |keys| ==> keys[k] in zones && FirstIndex(zones, keys[k]) < i) &&
    (forall k1, k2 :: 0 <= k1 < k2 < |keys| ==> FirstIndex(zones, keys[k1]) < FirstIndex(zones, keys[k2]))
  }

  /** One step of `zone_counts[z] = zone_counts.get(z, 0) + 1` keeps the tally. */
  lemma CountsStep(zones: seq<string>, i: nat, counts: map<string, nat>)
    requires i < |zones| && CountsTallied(zones, i, counts)
    ensures CountsTallied(zones, i + 1,
      counts[zones[i] := (if zones[i] in counts then counts[zones[i]] else 0) + 1])
  {
    assert zones[..i + 1] == zones[..i] + [zones[i]];
  }

  /** A label seen for the first time goes to the end of the key order. */
  lemma KeysStep(zones: seq<string>, i: nat, keys: seq<string>, counts: map<string, nat>)
    requires i < |zones| && CountsTallied(zones, i, counts) && KeysOrdered(zones, i, keys, counts)
    ensures KeysOrdered(zones, i + 1,
      if zones[i] in counts then keys else keys + [zones[i]],
      counts[zones[i] := (if zones[i] in counts then counts[zones[i]] else 0) + 1])
  {
  }

  /** Tallies the labels into an insertion-ordered dictionary: `keys` lists
      each distinct label once, in order of first occurrence, and `counts`
      maps each to its number of occurrences. */
  method CountZones(zones: seq<string>) returns (keys: seq<string>, counts: map<string, nat>)
    ensures forall zone :: zone in counts <==> zone in zones
    ensures forall zone :: zone in counts ==> counts[zone] == Count(zones, zone)
    ensures forall zone :: zone in keys <==> zone in counts
    ensures forall k1, k2 :: 0 <= k1 < k2 < |keys| ==>
      keys[k1] in zones && keys[k2] in zones &&
      FirstIndex(zones, keys[k1]) < FirstIndex(zones, keys[k2])
  {
    keys, counts := [], map[];
    for i := 0 to |zones|
      invariant CountsTallied(zones, i, counts)
      invariant KeysOrdered(zones, i, keys, counts)
    {
      var zone := zones[i];
      CountsStep(zones, i, counts);
      KeysStep(zones, i, keys, counts);
      if zone !in counts {
        // a new key goes to the end of the dictionary
        keys := keys + [zone];
      }
      counts := counts[zone := (if zone in counts then counts[zone] else 0) + 1];
    }
    assert zones[..|zones|] == zones;
  }

  /** `max` over the dictionary keyed by count: scans the keys in insertion
      order and replaces the best one only on a strictly larger count. */
  method DominantZone(zones: seq<string>) returns (dominant: string)
    requires |zones| > 0
    ensures IsDominant(zones, dominant)
  {
    var keys, counts := CountZones(zones);
    assert zones[0] in counts;
    dominant := keys[0];
    var best := 0;
    for k := 1 to |keys|
      invariant 0 <= best < |keys| && dominant == keys[best]
      invariant forall j :: 0 <= j < k ==> counts[keys[j]] <= counts[dominant]
      invariant forall j :: 0 <= j < best ==> counts[keys[j]] < counts[dominant]
    {
      if counts[keys[k]] > counts[dominant] {
        best, dominant := k, keys[k];
      }
    }
    forall zone | zone in zones
      ensures Count(zones, zone) <= Count(zones, dominant)
      ensures Count(zones, zone) == Count(zones, dominant) ==>
        FirstIndex(zones, dominant) <= FirstIndex(zones, zone)
    {
      var j :| 0 <= j < |keys| && keys[j] == zone;
      if j < best {
        assert counts[keys[j]] < counts[dominant];
      } else if j > best {
        assert FirstIndex(zones, dominant) < FirstIndex(zones, zone);
      }
    }
  }
}
