/** The list-merge part of MainPageViewModel.UpdateSensors: the bound `Sensors` list is
    updated in place by Id from a fresh poll, then entries whose Id the poll no longer
    reports are removed. */
module SensorList {
  import opened Models

  type Reading = TemperatureReading

  /** The Ids occurring in a list. */
  function Ids(s: seq<Reading>): set<int> {
    set x | x in s :: x.id
  }

  lemma IdsSnoc(s: seq<Reading>, x: Reading)
    ensures Ids(s + [x]) == Ids(s) + {x.id}
  {
    assert forall y :: y in s + [x] <==> y in s || y == x;
  }

  lemma IdsCons(s: seq<Reading>)
    requires s != []
    ensures Ids(s) == {s[0].id} + Ids(s[1..])
  {
    assert s == [s[0]] + s[1..];
    assert forall y :: y in s <==> y == s[0] || y in s[1..];
  }

  /** Each Id of a list is the Id of one of its positions. */
  lemma IdsWitness(s: seq<Reading>, k: int) returns (i: nat)
    requires k in Ids(s)
    ensures i < |s| && s[i].id == k
  {
    var x :| x in s && x.id == k;
    i :| i < |s| && s[i] == x;
  }

  /** The Ids of a list, position by position. */
  function IdSeq(s: seq<Reading>): (r: seq<int>)
    ensures |r| == |s| && forall i :: 0 <= i < |s| ==> r[i] == s[i].id
  {
    seq(|s|, i requires 0 <= i < |s| => s[i].id)
  }

  /** No Id occurs twice. */
  predicate DistinctIds(s: seq<Reading>) {
    forall i, j :: 0 <= i < j < |s| ==> s[i].id != s[j].id
  }

  // ---------------------------------------------------------------------------
  // The first foreach: replace by Id, or append

  /** FirstOrDefault(s => s.Id == id) followed by IndexOf: the position of the first entry
      with that Id. */
  function FirstWithId(s: seq<Reading>, id: int): (r: Option<nat>)
    ensures r.None? <==> id !in Ids(s)
    ensures r.Some? ==> r.value < |s| && s[r.value].id == id &&
                        forall j :: 0 <= j < r.value ==> s[j].id != id
  {
    if s == [] then None
    else if s[0].id == id then Some(0)
    else
      var r := FirstWithId(s[1..], id);
      assert s == [s[0]] + s[1..];
      if r.Some? then Some(r.value + 1) else None
  }

  /** One iteration of the first foreach: overwrite the first entry with the reading's Id,
      or append the reading when there is none. */
  function Place(s: seq<Reading>, x: Reading): seq<Reading> {
    match FirstWithId(s, x.id)
    case Some(k) => s[k := x]
    case None => s + [x]
  }

  /** The whole first foreach, over the readings in order. */
  function Placed(s: seq<Reading>, news: seq<Reading>): seq<Reading>
    decreases |news|
  {
    if news == [] then s else Place(Placed(s, news[..|news| - 1]), news[|news| - 1])
  }

  lemma PlacedSnoc(s: seq<Reading>, news: seq<Reading>, j: nat)
    requires j < |news|
    ensures Placed(s, news[..j + 1]) == Place(Placed(s, news[..j]), news[j])
  {
    assert news[..j + 1][..j] == news[..j];
  }

  // ---------------------------------------------------------------------------
  // The removal: Where(...).ToList(), then Remove of each collected entry

  /** The entries whose Id is in `ids`, in order. */
  function Live(s: seq<Reading>, ids: set<int>): (r: seq<Reading>)
    ensures forall x :: x in r ==> x in s && x.id in ids
  {
    if s == [] then []
    else (if s[0].id in ids then [s[0]] else []) + Live(s[1..], ids)
  }

  /** The entries whose Id is not in `ids`, in order: `sensorsToRemove`. */
  function Stale(s: seq<Reading>, ids: set<int>): (r: seq<Reading>)
    ensures forall x :: x in r ==> x !in Live(s, ids) && x.id !in ids
  {
    if s == [] then []
    else (if s[0].id in ids then [] else [s[0]]) + Stale(s[1..], ids)
  }

  /** List.Remove: drop the first element equal to `x`, if any. */
  function RemoveFirst(s: seq<Reading>, x: Reading): (r: seq<Reading>)
    ensures x !in s ==> r == s
    ensures x in s ==> |r| == |s| - 1
  {
    if s == [] then []
    else if s[0] == x then s[1..]
    else [s[0]] + RemoveFirst(s[1..], x)
  }

  /** `s` with its first `n` stale entries removed: the list after `n` iterations of the
      removal foreach. */
  function Without(s: seq<Reading>, n: nat, ids: set<int>): seq<Reading> {
    if s == [] then []
    else if s[0].id !in ids && n > 0 then Without(s[1..], n - 1, ids)
    else [s[0]] + Without(s[1..], n, ids)
  }

  /** The merge UpdateSensors performs on the list. */
  function Merge(s: seq<Reading>, news: seq<Reading>): seq<Reading> {
    Live(Placed(s, news), Ids(news))
  }

  lemma {:induction false} WithoutNone(s: seq<Reading>, ids: set<int>)
    ensures Without(s, 0, ids) == s
  {
    if s != [] {
      WithoutNone(s[1..], ids);
    }
  }

  lemma {:induction false} WithoutAll(s: seq<Reading>, ids: set<int>)
    ensures Without(s, |Stale(s, ids)|, ids) == Live(s, ids)
  {
    if s != [] {
      WithoutAll(s[1..], ids);
    }
  }

  /** The (n+1)-th stale entry is still in the list after n removals, and removing its first
      occurrence removes exactly it: earlier equal values would have the same Id, so they
      would be stale and already gone. */
  lemma {:induction false} RemoveNext(s: seq<Reading>, n: nat, ids: set<int>)
    requires n < |Stale(s, ids)|
    ensures Stale(s, ids)[n] in Without(s, n, ids)
    ensures RemoveFirst(Without(s, n, ids), Stale(s, ids)[n]) == Without(s, n + 1, ids)
  {
    var t := s[1..];
    if s[0].id in ids {
      assert Stale(s, ids) == Stale(t, ids);
      RemoveNext(t, n, ids);
      assert Stale(t, ids)[n] in Stale(t, ids);
    } else if n == 0 {
      WithoutNone(s, ids);
      WithoutNone(t, ids);
    } else {
      assert Stale(s, ids) == [s[0]] + Stale(t, ids);
      RemoveNext(t, n - 1, ids);
    }
  }

  // ---------------------------------------------------------------------------
  // What the merge promises

  lemma PlaceIds(s: seq<Reading>, x: Reading)
    ensures Ids(Place(s, x)) == Ids(s) + {x.id}
    ensures IdSeq(Place(s, x)) == if x.id in Ids(s) then IdSeq(s) else IdSeq(s) + [x.id]
  {
    var p := Place(s, x);
    match FirstWithId(s, x.id)
    case Some(k) =>
      assert s[k] in s;
      forall y | y in Ids(s) ensures y in Ids(p) {
        var i := IdsWitness(s, y);
        assert p[i].id == y && p[i] in p;
      }
      forall y | y in Ids(p) ensures y in Ids(s) {
        var i := IdsWitness(p, y);
        assert s[i].id == y && s[i] in s;
      }
    case None =>
      IdsSnoc(s, x);
  }

  lemma {:induction false} PlacedIds(s: seq<Reading>, news: seq<Reading>)
    ensures Ids(Placed(s, news)) == Ids(s) + Ids(news)
    decreases |news|
  {
    if news != [] {
      var f, x := news[..|news| - 1], news[|news| - 1];
      PlacedIds(s, f);
      PlaceIds(Placed(s, f), x);
      TakeLast(news);
      IdsSnoc(f, x);
    }
  }

  lemma {:induction false} LiveIds(s: seq<Reading>, ids: set<int>)
    ensures Ids(Live(s, ids)) == Ids(s) * ids
  {
    if s != [] {
      var t := s[1..];
      LiveIds(t, ids);
      IdsCons(s);
      if s[0].id in ids {
        IdsCons(Live(s, ids));
        assert Live(s, ids)[1..] == Live(t, ids);
      } else {
        assert Live(s, ids) == Live(t, ids);
      }
    }
  }

  /** After the merge the list holds exactly the Ids of the poll. */
  lemma MergeIds(s: seq<Reading>, news: seq<Reading>)
    ensures Ids(Merge(s, news)) == Ids(news)
  {
    PlacedIds(s, news);
    LiveIds(Placed(s, news), Ids(news));
  }

  lemma PlaceDistinct(s: seq<Reading>, x: Reading)
    requires DistinctIds(s)
    ensures DistinctIds(Place(s, x))
  {
  }

  lemma {:induction false} PlacedDistinct(s: seq<Reading>, news: seq<Reading>)
    requires DistinctIds(s)
    ensures DistinctIds(Placed(s, news))
    decreases |news|
  {
    if news != [] {
      PlacedDistinct(s, news[..|news| - 1]);
      PlaceDistinct(Placed(s, news[..|news| - 1]), news[|news| - 1]);
    }
  }

  lemma {:induction false} LiveDistinct(s: seq<Reading>, ids: set<int>)
    requires DistinctIds(s)
    ensures DistinctIds(Live(s, ids))
  {
    if s != [] {
      LiveDistinct(s[1..], ids);
      if s[0].id in ids {
        var r := Live(s, ids);
        forall j | 1 <= j < |r| ensures r[0].id != r[j].id {
          assert r[j] in Live(s[1..], ids);
          var i :| 0 <= i < |s[1..]| && s[1..][i] == r[j];
        }
      }
    }
  }

  /** A list without repeated Ids keeps that property through the merge, even when the poll
      repeats an Id. */
  lemma MergeDistinct(s: seq<Reading>, news: seq<Reading>)
    requires DistinctIds(s)
    ensures DistinctIds(Merge(s, news))
  {
    PlacedDistinct(s, news);
    LiveDistinct(Placed(s, news), Ids(news));
  }

  /** The last reading with Id `k` in a poll that contains one. */
  function LatestWithId(news: seq<Reading>, k: int): (r: Reading)
    requires k in Ids(news)
    ensures r in news && r.id == k
    decreases |news|
  {
    var x := news[|news| - 1];
    if x.id == k then x
    else
      assert news == news[..|news| - 1] + [x];
      LatestWithId(news[..|news| - 1], k)
  }

  lemma {:induction false} PlacedLatest(s: seq<Reading>, news: seq<Reading>)
    requires DistinctIds(s)
    ensures forall y :: y in Placed(s, news) && y.id in Ids(news) ==> y == LatestWithId(news, y.id)
    decreases |news|
  {
    if news != [] {
      var f, x := news[..|news| - 1], news[|news| - 1];
      PlacedLatest(s, f);
      PlacedDistinct(s, f);
      var q := Placed(s, f);
      var p := Place(q, x);
      TakeLast(news);
      IdsSnoc(f, x);
      assert LatestWithId(news, x.id) == x;
      forall y | y in p && y.id in Ids(news) ensures y == LatestWithId(news, y.id) {
        var i :| 0 <= i < |p| && p[i] == y;
        if y.id != x.id {
          assert i < |q| && y == q[i] && y in q;
          assert LatestWithId(news, y.id) == LatestWithId(f, y.id);
        }
      }
    }
  }

  /** With no repeated Ids in the list beforehand, each entry afterwards is the latest reading
      the poll gave for its Id. */
  lemma MergeLatest(s: seq<Reading>, news: seq<Reading>)
    requires DistinctIds(s)
    ensures forall y :: y in Merge(s, news) ==> y.id in Ids(news) && y == LatestWithId(news, y.id)
  {
    PlacedLatest(s, news);
  }

  /** Why MergeLatest needs distinct Ids beforehand: with two entries of one Id, only the first
      is overwritten, and the stale second one survives because the poll still reports its
      Id. */
  lemma RepeatedIdKeepsStaleEntry()
    ensures var old1, old2, polled := TemperatureReading(1, "Kolv", 20.0, "", ""), TemperatureReading(1, "Kolv", 21.0, "", ""),
                                     TemperatureReading(1, "Kolv", 22.0, "", "");
            && Merge([old1, old2], [polled]) == [polled, old2]
            && old2 != LatestWithId([polled], 1)
  {
    var old1, old2, polled := TemperatureReading(1, "Kolv", 20.0, "", ""), TemperatureReading(1, "Kolv", 21.0, "", ""),
                             TemperatureReading(1, "Kolv", 22.0, "", "");
    assert [polled][..0] == [];
    assert Placed([old1, old2], [polled]) == [polled, old2];
    assert Ids([polled]) == {1} by { assert forall y :: y in [polled] <==> y == polled; }
    assert [polled, old2][1..] == [old2] && [old2][1..] == [];
    assert Live([old2], {1}) == [old2] + Live([], {1});
    assert Live([polled, old2], {1}) == [polled] + Live([old2], {1});
  }

  /** The Ids of the poll that are neither in the list nor earlier in the poll, in order of
      first appearance: the entries the first foreach appends. */
  function FreshIds(s: seq<Reading>, news: seq<Reading>): seq<int>
    decreases |news|
  {
    if news == [] then []
    else
      var f, x := news[..|news| - 1], news[|news| - 1];
      if x.id in Ids(s) + Ids(f) then FreshIds(s, f) else FreshIds(s, f) + [x.id]
  }

  lemma {:induction false} PlacedOrder(s: seq<Reading>, news: seq<Reading>)
    ensures IdSeq(Placed(s, news)) == IdSeq(s) + FreshIds(s, news)
    decreases |news|
  {
    if news != [] {
      var f, x := news[..|news| - 1], news[|news| - 1];
      PlacedOrder(s, f);
      PlacedIds(s, f);
      PlaceIds(Placed(s, f), x);
    }
  }

  /** Filtering a sequence of Ids. */
  function KeepIds(s: seq<int>, ids: set<int>): seq<int> {
    if s == [] then [] else (if s[0] in ids then [s[0]] else []) + KeepIds(s[1..], ids)
  }

  lemma {:induction false} LiveOrder(s: seq<Reading>, ids: set<int>)
    ensures IdSeq(Live(s, ids)) == KeepIds(IdSeq(s), ids)
  {
    if s != [] {
      LiveOrder(s[1..], ids);
      assert IdSeq(s)[1..] == IdSeq(s[1..]);
    }
  }

  lemma {:induction false} KeepIdsConcat(a: seq<int>, b: seq<int>, ids: set<int>)
    ensures KeepIds(a + b, ids) == KeepIds(a, ids) + KeepIds(b, ids)
  {
    if a == [] {
      assert a + b == b;
    } else {
      KeepIdsConcat(a[1..], b, ids);
      DropAppend(a, b);
      AppendAssoc(if a[0] in ids then [a[0]] else [], KeepIds(a[1..], ids), KeepIds(b, ids));
    }
  }

  lemma {:induction false} KeepIdsAll(a: seq<int>, ids: set<int>)
    requires forall i :: 0 <= i < |a| ==> a[i] in ids
    ensures KeepIds(a, ids) == a
  {
    if a != [] {
      KeepIdsAll(a[1..], ids);
    }
  }

  lemma {:induction false} FreshIdsInPoll(s: seq<Reading>, news: seq<Reading>)
    ensures forall i :: 0 <= i < |FreshIds(s, news)| ==> FreshIds(s, news)[i] in Ids(news)
    decreases |news|
  {
    if news != [] {
      var f, x := news[..|news| - 1], news[|news| - 1];
      FreshIdsInPoll(s, f);
      TakeLast(news);
      IdsSnoc(f, x);
    }
  }

  /** Entries that survive keep their order, and the poll's new Ids follow them in order of
      first appearance. */
  lemma MergeOrder(s: seq<Reading>, news: seq<Reading>)
    ensures IdSeq(Merge(s, news)) == KeepIds(IdSeq(s), Ids(news)) + FreshIds(s, news)
  {
    var ids := Ids(news);
    PlacedOrder(s, news);
    LiveOrder(Placed(s, news), ids);
    KeepIdsConcat(IdSeq(s), FreshIds(s, news), ids);
    FreshIdsInPoll(s, news);
    KeepIdsAll(FreshIds(s, news), ids);
  }

  class MainPageViewModel {
    /** The bound `Sensors` collection. */
    var sensors: seq<Reading>

    constructor ()
      ensures sensors == []
    {
      sensors := [];
    }

    /** The list part of UpdateSensors. `laterStepThrows` says that a step after the merge (the
        read of the notifications setting or the warnings check) throws; the catch then clears
        the list and adds the poll's readings as they are. */
    method UpdateSensors(newSensors: seq<Reading>, laterStepThrows: bool)
      modifies this
      ensures !laterStepThrows ==> sensors == Merge(old(sensors), newSensors)
      ensures laterStepThrows ==> sensors == newSensors
    {
      ghost var start := sensors;
      var j := 0;
      while j < |newSensors|
        invariant 0 <= j <= |newSensors|
        invariant sensors == Placed(start, newSensors[..j])
      {
        var newSensor := newSensors[j];
        var existing := FirstWithId(sensors, newSensor.id);
        if existing.Some? {
          sensors := sensors[existing.value := newSensor];
        } else {
          sensors := sensors + [newSensor];
        }
        PlacedSnoc(start, newSensors, j);
        j := j + 1;
      }
      assert newSensors[..j] == newSensors;

      ghost var placed := sensors;
      var ids := Ids(newSensors);
      var sensorsToRemove := Stale(sensors, ids);
      WithoutNone(placed, ids);
      var i := 0;
      while i < |sensorsToRemove|
        invariant 0 <= i <= |sensorsToRemove|
        invariant sensors == Without(placed, i, ids)
      {
        var sensorToRemove := sensorsToRemove[i];
        RemoveNext(placed, i, ids);
        if sensorToRemove in sensors {
          sensors := RemoveFirst(sensors, sensorToRemove);
        }
        i := i + 1;
      }
      WithoutAll(placed, ids);
      if laterStepThrows {
        sensors := [];
        var k := 0;
        while k < |newSensors|
          invariant 0 <= k <= |newSensors|
          invariant sensors == newSensors[..k]
        {
          sensors := sensors + [newSensors[k]];
          k := k + 1;
        }
        assert newSensors[..k] == newSensors;
      }
    }
  }
}
