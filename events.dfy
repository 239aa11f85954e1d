/** The notable events of a session summary: one zone transition per pair
    of neighbouring points whose labels differ. */
module Events {
  import opened Points

  /** A change of label, reported at the turn of the later point; `turn` is
      counted from the position in the trajectory (index + 1), not read from
      the point. */
  datatype Transition = Transition(turn: int, from: string, to: string)

  /** The transitions among the first |zones| labels, in trajectory order. */
  function Transitions(zones: seq<string>): (ts: seq<Transition>)
    ensures |zones| < 2 ==> ts == []
    ensures forall k :: 0 <= k < |ts| ==> ts[k].from != ts[k].to
  {
    if |zones| < 2 then []
    else
      var n := |zones|;
      Transitions(zones[..n - 1]) +
      (if zones[n - 1] != zones[n - 2] then [Transition(n, zones[n - 2], zones[n - 1])] else [])
  }

  /** The property that defines an event: the labels at i - 1 and i differ. */
  predicate ChangeAt(zones: seq<string>, i: int)
  {
    1 <= i < |zones| && zones[i] != zones[i - 1]
  }

  /** A transition is listed exactly when it records a change of label at
      some position i, labelled with turn i + 1. */
  lemma {:induction false} TransitionsExact(zones: seq<string>, t: Transition)
    ensures t in Transitions(zones) <==>
      exists i :: ChangeAt(zones, i) && t == Transition(i + 1, zones[i - 1], zones[i])
  {
    if |zones| >= 2 {
      var n := |zones|;
      var prefix := zones[..n - 1];
      TransitionsExact(prefix, t);
      if t in Transitions(zones) && t !in Transitions(prefix) {
        assert ChangeAt(zones, n - 1) && t == Transition(n - 1 + 1, zones[n - 2], zones[n - 1]);
      }
      if exists i :: ChangeAt(zones, i) && t == Transition(i + 1, zones[i - 1], zones[i]) {
        var i :| ChangeAt(zones, i) && t == Transition(i + 1, zones[i - 1], zones[i]);
        if i < n - 1 {
          assert ChangeAt(prefix, i) && t == Transition(i + 1, prefix[i - 1], prefix[i]);
        }
      }
    }
  }

  /** Events are listed in trajectory order, every turn between 2 and |zones|. */
  lemma {:induction false} TransitionsOrdered(zones: seq<string>)
    ensures forall k :: 0 <= k < |Transitions(zones)| ==> 2 <= Transitions(zones)[k].turn <= |zones|
    ensures forall k1, k2 :: 0 <= k1 < k2 < |Transitions(zones)| ==>
      Transitions(zones)[k1].turn < Transitions(zones)[k2].turn
  {
    if |zones| >= 2 {
      TransitionsOrdered(zones[..|zones| - 1]);
    }
  }

  /** At most one event per neighbouring pair. */
  lemma {:induction false} TransitionsBound(zones: seq<string>)
    ensures |zones| >= 1 ==> |Transitions(zones)| <= |zones| - 1
    ensures |zones| <= 1 ==> Transitions(zones) == []
  {
    if |zones| >= 2 {
      TransitionsBound(zones[..|zones| - 1]);
    }
  }

  /** No events exactly when every point carries the same label. */
  lemma {:induction false} NoTransitionsIffConstant(zones: seq<string>)
    ensures Transitions(zones) == [] <==>
      forall i :: 0 <= i < |zones| ==> zones[i] == zones[0]
  {
    if |zones| >= 2 {
      var n := |zones|;
      var prefix := zones[..n - 1];
      NoTransitionsIffConstant(prefix);
      if Transitions(zones) == [] {
        assert Transitions(prefix) == [] && zones[n - 1] == zones[n - 2];
        assert forall i :: 0 <= i < n - 1 ==> zones[i] == prefix[i];
      }
    }
  }

  /** The events chain: each starts where the previous one ended, the first
      leaves the first label and the last reaches the last label. */
  lemma {:induction false} TransitionsChain(zones: seq<string>)
    ensures forall k :: 0 <= k < |Transitions(zones)| - 1 ==>
      Transitions(zones)[k].to == Transitions(zones)[k + 1].from
    ensures Transitions(zones) != [] ==>
      Transitions(zones)[0].from == zones[0] &&
      Transitions(zones)[|Transitions(zones)| - 1].to == zones[|zones| - 1]
  {
    if |zones| >= 2 {
      var n := |zones|;
      var prefix := zones[..n - 1];
      TransitionsChain(prefix);
      NoTransitionsIffConstant(prefix);
      var ts := Transitions(prefix);
      if ts != [] {
        assert ts[|ts| - 1].to == prefix[n - 2] == zones[n - 2];
      } else {
        assert zones[n - 2] == zones[0];
      }
    }
  }

  /** The summary's loop: walks the neighbouring pairs and appends an event
      for each change of zone. */
  method NotableEvents(points: seq<Point>) returns (events: seq<Transition>)
    ensures events == Transitions(ZoneLabels(points))
  {
    events := [];
    if |points| < 2 {
      return;
    }
    ghost var zones := ZoneLabels(points);
    var i := 1;
    while i < |points|
      invariant 1 <= i <= |points|
      invariant events == Transitions(zones[..i])
    {
      assert zones[..i + 1][..i] == zones[..i];
      if points[i].zone != points[i - 1].zone {
        events := events + [Transition(i + 1, points[i - 1].zone, points[i].zone)];
      }
      i := i + 1;
    }
    assert zones[..|points|] == zones;
  }
}
