/** FilterToInterval of MainPageViewModel: thinning stored temperature history to one point
    per interval and sensor. Interval and timestamps are whole seconds; a timestamp of 0 is
    DateTime.MinValue, which the thinning loop uses as its "nothing kept yet" marker. */
module HistoryFilter {
  import opened Models

  type Sample = TemperatureHistory

  function Last<T>(s: seq<T>): T
    requires |s| > 0
  {
    s[|s| - 1]
  }

  function Front<T>(s: seq<T>): seq<T>
    requires |s| > 0
  {
    s[..|s| - 1]
  }

  lemma FrontAppend<T>(a: seq<T>, b: seq<T>)
    requires b != []
    ensures Front(a + b) == a + Front(b) && Last(a + b) == Last(b)
  {
    assert (a + b)[..|a + b| - 1] == a + b[..|b| - 1];
  }

  lemma FrontSnoc<T>(s: seq<T>, x: T)
    ensures Front(s + [x]) == s && Last(s + [x]) == x
  {
    assert (s + [x])[..|s|] == s;
  }

  /** Ascending by timestamp. */
  predicate Sorted(s: seq<Sample>) {
    forall i, j :: 0 <= i < j < |s| ==> s[i].timestamp <= s[j].timestamp
  }

  lemma SortedSnoc(s: seq<Sample>, x: Sample)
    requires Sorted(s)
    requires forall y :: y in s ==> y.timestamp <= x.timestamp
    ensures Sorted(s + [x])
  {
    forall i, j | 0 <= i < j < |s + [x]|
      ensures (s + [x])[i].timestamp <= (s + [x])[j].timestamp
    {
      if j == |s| {
        assert (s + [x])[i] == s[i] && s[i] in s;
      }
    }
  }

  // ---------------------------------------------------------------------------
  // OrderBy(d => d.Timestamp): a stable sort

  /** The last step of a stable insertion sort: `x` goes after every element that is not later
      than it. */
  function Insert(s: seq<Sample>, x: Sample): (r: seq<Sample>)
    ensures multiset(r) == multiset(s) + multiset{x}
    ensures |r| == |s| + 1
    decreases |s|
  {
    if s == [] then [x]
    else
      FrontLast(s);
      if Last(s).timestamp <= x.timestamp then s + [x]
      else Insert(Front(s), x) + [Last(s)]
  }

  lemma {:induction false} InsertSorted(s: seq<Sample>, x: Sample)
    requires Sorted(s)
    ensures Sorted(Insert(s, x))
    decreases |s|
  {
    if s == [] {
    } else if Last(s).timestamp <= x.timestamp {
      forall y | y in s ensures y.timestamp <= x.timestamp {
        var i :| 0 <= i < |s| && s[i] == y;
        assert s[i].timestamp <= s[|s| - 1].timestamp;
      }
      SortedSnoc(s, x);
    } else {
      InsertSorted(Front(s), x);
      var a := Insert(Front(s), x);
      forall y | y in a ensures y.timestamp <= Last(s).timestamp {
        assert y in multiset(a);
        if y != x {
          assert y in multiset(Front(s));
          var i :| 0 <= i < |s| - 1 && s[i] == y;
          assert s[i].timestamp <= s[|s| - 1].timestamp;
        }
      }
      SortedSnoc(a, Last(s));
    }
  }

  /** The stable sort the history goes through, as insertion sort from the back. */
  function SortByTime(s: seq<Sample>): (r: seq<Sample>)
    ensures multiset(r) == multiset(s) && |r| == |s|
    decreases |s|
  {
    if s == [] then [] else
      FrontLast(s);
      Insert(SortByTime(Front(s)), Last(s))
  }

  lemma {:induction false} SortByTimeSorts(s: seq<Sample>)
    ensures Sorted(SortByTime(s))
    decreases |s|
  {
    if s != [] {
      SortByTimeSorts(Front(s));
      InsertSorted(SortByTime(Front(s)), Last(s));
    }
  }

  /** Sorting a sorted sequence changes nothing. */
  lemma {:induction false} SortByTimeOfSorted(s: seq<Sample>)
    requires Sorted(s)
    ensures SortByTime(s) == s
    decreases |s|
  {
    if s != [] {
      var f, x := Front(s), Last(s);
      FrontLast(s);
      SortedFront(s);
      SortByTimeOfSorted(f);
      InsertAfterLast(f, x);
    }
  }

  lemma FrontLast<T>(s: seq<T>)
    requires s != []
    ensures Front(s) + [Last(s)] == s
  {
  }

  lemma InSnoc<T>(s: seq<T>)
    requires s != []
    ensures forall x :: x in s <==> x in Front(s) || x == Last(s)
  {
    FrontLast(s);
  }

  lemma SortedFront(s: seq<Sample>)
    requires Sorted(s) && s != []
    ensures Sorted(Front(s))
    ensures Front(s) == [] || Last(Front(s)).timestamp <= Last(s).timestamp
  {
    var f := Front(s);
    forall i, j | 0 <= i < j < |f| ensures f[i].timestamp <= f[j].timestamp {
      assert f[i] == s[i] && f[j] == s[j];
    }
    if f != [] {
      assert Last(f) == s[|s| - 2];
    }
  }

  lemma InsertAfterLast(s: seq<Sample>, x: Sample)
    requires s == [] || Last(s).timestamp <= x.timestamp
    ensures Insert(s, x) == s + [x]
  {
  }

  // ---------------------------------------------------------------------------
  // GroupBy(d => d.SensorName)

  /** The samples of one sensor, in input order. */
  function Group(s: seq<Sample>, name: string): (r: seq<Sample>)
    ensures forall x :: x in r <==> x in s && x.sensorName == name
    ensures |r| <= |s|
    decreases |s|
  {
    if s == [] then []
    else
      var g := Group(Front(s), name);
      assert forall x :: x in s <==> x in Front(s) || x == Last(s) by {
        FrontLast(s);
      }
      if Last(s).sensorName == name then g + [Last(s)] else g
  }

  lemma {:induction false} GroupConcat(a: seq<Sample>, b: seq<Sample>, name: string)
    ensures Group(a + b, name) == Group(a, name) + Group(b, name)
    decreases |b|
  {
    if b == [] {
      assert a + b == a;
    } else {
      GroupConcat(a, Front(b), name);
      FrontAppend(a, b);
      AppendAssoc(Group(a, name), Group(Front(b), name), [Last(b)]);
    }
  }

  lemma {:induction false} GroupOfOneSensor(s: seq<Sample>, name: string)
    requires forall x :: x in s ==> x.sensorName == name
    ensures Group(s, name) == s
    decreases |s|
  {
    if s != [] {
      FrontLast(s);
      InSnoc(s);
      GroupOfOneSensor(Front(s), name);
    }
  }

  lemma GroupOfOtherSensors(s: seq<Sample>, name: string)
    requires forall x :: x in s ==> x.sensorName != name
    ensures Group(s, name) == []
  {
    if Group(s, name) != [] {
      assert Group(s, name)[0] in Group(s, name);
    }
  }

  lemma GroupSnoc(s: seq<Sample>, y: Sample, name: string)
    ensures Group(s + [y], name) == Group(s, name) + (if y.sensorName == name then [y] else [])
  {
    FrontSnoc(s, y);
  }

  lemma InsertSnoc(s: seq<Sample>, y: Sample, x: Sample)
    ensures Insert(s + [y], x) == if y.timestamp <= x.timestamp then s + [y] + [x] else Insert(s, x) + [y]
  {
    FrontSnoc(s, y);
  }

  /** Every element of a sorted sequence is no later than its last one. */
  lemma SortedBelowLast(t: seq<Sample>, y: Sample)
    requires Sorted(t) && y in t
    ensures y.timestamp <= Last(t).timestamp
  {
    var i :| 0 <= i < |t| && t[i] == y;
    assert t[i].timestamp <= t[|t| - 1].timestamp;
  }

  /** Inserting `x` that is not earlier than anything in `t` appends it. */
  lemma InsertAtEnd(t: seq<Sample>, x: Sample)
    requires forall y :: y in t ==> y.timestamp <= x.timestamp
    ensures Insert(t, x) == t + [x]
  {
    if t != [] {
      assert Last(t) in t;
    }
  }

  lemma GroupInsertAtEnd(t: seq<Sample>, x: Sample, name: string)
    requires Sorted(t) && t != [] && Last(t).timestamp <= x.timestamp
    ensures Group(Insert(t, x), name) == if x.sensorName == name then Insert(Group(t, name), x) else Group(t, name)
  {
    forall y | y in t ensures y.timestamp <= x.timestamp {
      SortedBelowLast(t, y);
    }
    InsertAtEnd(t, x);
    GroupSnoc(t, x, name);
    InsertAtEnd(Group(t, name), x);
  }

  /** A stable sort keeps every sensor's samples in their relative order: filtering one sensor
      out of the insertion result is inserting into the filtered sequence. */
  lemma {:induction false} GroupInsert(t: seq<Sample>, x: Sample, name: string)
    requires Sorted(t)
    ensures Group(Insert(t, x), name) == if x.sensorName == name then Insert(Group(t, name), x) else Group(t, name)
    decreases |t|
  {
    if t == [] {
    } else if Last(t).timestamp <= x.timestamp {
      GroupInsertAtEnd(t, x, name);
    } else {
      var y, f := Last(t), Front(t);
      assert t == f + [y];
      assert Sorted(f);
      GroupInsert(f, x, name);
      InsertSnoc(f, y, x);
      GroupSnoc(f, y, name);
      GroupSnoc(Insert(f, x), y, name);
      if x.sensorName == name && y.sensorName == name {
        InsertSnoc(Group(f, name), y, x);
      }
    }
  }

  /** Per sensor, sorting and grouping commute: OrderBy is stable. */
  lemma {:induction false} GroupSortCommute(s: seq<Sample>, name: string)
    ensures Group(SortByTime(s), name) == SortByTime(Group(s, name))
    decreases |s|
  {
    if s != [] {
      GroupSortCommute(Front(s), name);
      SortByTimeSorts(Front(s));
      GroupInsert(SortByTime(Front(s)), Last(s), name);
      var g := Group(Front(s), name);
      if Last(s).sensorName == name {
        FrontSnoc(g, Last(s));
      }
    }
  }

  /** Every sample of sensor `b` has a sample of sensor `a` before it: `a` appears first. */
  predicate AppearsBefore(s: seq<Sample>, a: string, b: string) {
    forall q :: 0 <= q < |s| && s[q].sensorName == b ==> exists p :: 0 <= p < q && s[p].sensorName == a
  }

  /** The group keys in order of first appearance, each once. */
  function GroupKeys(s: seq<Sample>): (r: seq<string>)
    ensures forall i, j :: 0 <= i < j < |r| ==> r[i] != r[j]
    ensures forall x :: x in s ==> x.sensorName in r
    ensures forall i :: 0 <= i < |r| ==> exists p :: 0 <= p < |s| && s[p].sensorName == r[i]
    decreases |s|
  {
    if s == [] then []
    else
      var k := GroupKeys(Front(s));
      FrontLast(s);
      if Last(s).sensorName in k then k else k + [Last(s).sensorName]
  }

  /** An earlier key's sensor appears in the samples before a later key's. */
  lemma {:induction false} GroupKeysInFirstAppearanceOrder(s: seq<Sample>)
    ensures var r := GroupKeys(s);
            forall i, j :: 0 <= i < j < |r| ==> AppearsBefore(s, r[i], r[j])
    decreases |s|
  {
    if s != [] {
      var f, x := Front(s), Last(s);
      GroupKeysInFirstAppearanceOrder(f);
      FrontLast(s);
      KeyOrderSnoc(f, x);
    }
  }

  /** The induction step: a sample added at the end keeps the keys in order. */
  lemma KeyOrderSnoc(f: seq<Sample>, x: Sample)
    requires var k := GroupKeys(f);
             forall i, j :: 0 <= i < j < |k| ==> AppearsBefore(f, k[i], k[j])
    ensures var r := GroupKeys(f + [x]);
            forall i, j :: 0 <= i < j < |r| ==> AppearsBefore(f + [x], r[i], r[j])
  {
    var k, r, s := GroupKeys(f), GroupKeys(f + [x]), f + [x];
    GroupKeysSnoc(f, x);
    forall i, j | 0 <= i < j < |r|
      ensures AppearsBefore(s, r[i], r[j])
    {
      forall q | 0 <= q < |s| && s[q].sensorName == r[j]
        ensures exists p :: 0 <= p < q && s[p].sensorName == r[i]
      {
        assert r[i] == k[i];
        var p: nat;
        if j < |k| {
          assert r[j] == k[j];
          p := OldKeyStep(f, x, k, i, j, q);
        } else {
          p := NewKeyStep(f, x, k, i, q);
        }
        assert s[p] == f[p];
      }
    }
  }

  /** The later key was already a key of the front. */
  lemma OldKeyStep(f: seq<Sample>, x: Sample, k: seq<string>, i: nat, j: nat, q: nat) returns (p: nat)
    requires k == GroupKeys(f) && forall i, j :: 0 <= i < j < |k| ==> AppearsBefore(f, k[i], k[j])
    requires i < j < |k| && q <= |f| && (f + [x])[q].sensorName == k[j]
    ensures p < q && p < |f| && f[p].sensorName == k[i]
  {
    var q' := q;
    if q == |f| {
      // The last sample's sensor is an old key: an earlier sample shows it.
      q' :| 0 <= q' < |f| && f[q'].sensorName == k[j];
    } else {
      assert (f + [x])[q] == f[q];
    }
    assert AppearsBefore(f, k[i], k[j]);
    p :| 0 <= p < q' && f[p].sensorName == k[i];
  }

  /** The later key is new: its only sample is the last one, and the older key shows up
      earlier. */
  lemma NewKeyStep(f: seq<Sample>, x: Sample, k: seq<string>, i: nat, q: nat) returns (p: nat)
    requires k == GroupKeys(f) && x.sensorName !in k
    requires i < |k| && q <= |f| && (f + [x])[q].sensorName == x.sensorName
    ensures p < q && p < |f| && f[p].sensorName == k[i]
  {
    assert q == |f|;
    p :| 0 <= p < |f| && f[p].sensorName == k[i];
  }

  // ---------------------------------------------------------------------------
  // Thinning one sensor's sorted samples

  /** The points kept so far and `lastAddedTime` (0 while nothing was kept). */
  datatype Thinned = Thinned(kept: seq<Sample>, last: nat)

  /** One iteration of the inner foreach: keep the first point, and later points at least
      `interval` after the last kept one. */
  function ThinStep(t: Thinned, x: Sample, interval: int): Thinned {
    if t.last == 0 || x.timestamp - t.last >= interval then Thinned(t.kept + [x], x.timestamp) else t
  }

  /** The inner foreach over a whole sequence. */
  function Thin(s: seq<Sample>, interval: int): Thinned
    decreases |s|
  {
    if s == [] then Thinned([], 0) else ThinStep(Thin(Front(s), interval), Last(s), interval)
  }

  /** Thinning keeps input points only, always the first one, and `last` is the timestamp of
      the last kept point (0 before any). */
  lemma {:induction false} ThinFacts(s: seq<Sample>, interval: int)
    ensures var r := Thin(s, interval);
            && multiset(r.kept) <= multiset(s)
            && (r.kept == [] ==> r.last == 0)
            && (r.kept != [] ==> Last(r.kept).timestamp == r.last)
            && (s != [] ==> r.kept != [] && r.kept[0] == s[0])
    decreases |s|
  {
    if s != [] {
      ThinFacts(Front(s), interval);
      FrontLast(s);
      assert Front(s) != [] ==> Front(s)[0] == s[0];
    }
  }

  lemma ThinSnoc(s: seq<Sample>, x: Sample, interval: int)
    ensures Thin(s + [x], interval) == ThinStep(Thin(s, interval), x, interval)
  {
    FrontSnoc(s, x);
  }

  lemma {:induction false} ThinSorted(s: seq<Sample>, interval: int)
    requires Sorted(s)
    ensures Sorted(Thin(s, interval).kept)
    decreases |s|
  {
    if s != [] {
      SortedFront(s);
      ThinSorted(Front(s), interval);
      ThinKeptBelowLast(s, interval);
      var p := Thin(Front(s), interval);
      if ThinStep(p, Last(s), interval) != p {
        SortedSnoc(p.kept, Last(s));
      }
    }
  }

  /** What thinning kept of all but the last point of a sorted sequence is not later than it. */
  lemma ThinKeptBelowLast(s: seq<Sample>, interval: int)
    requires Sorted(s) && s != []
    ensures forall y :: y in Thin(Front(s), interval).kept ==> y.timestamp <= Last(s).timestamp
  {
    ThinFacts(Front(s), interval);
    FrontLast(s);
    forall y | y in Thin(Front(s), interval).kept
      ensures y.timestamp <= Last(s).timestamp
    {
      assert y in multiset(Front(s));
      assert y in Front(s);
      SortedBelowLast(s, y);
    }
  }

  /** Successive points at least `interval` apart, except after a point at MinValue. */
  predicate Spaced(k: seq<Sample>, interval: int) {
    forall i :: 0 <= i < |k| - 1 && k[i].timestamp != 0 ==> k[i + 1].timestamp - k[i].timestamp >= interval
  }

  /** Successive points the interval rule kept are at least `interval` apart; only a point at
      MinValue restarts the rule. */
  lemma {:induction false} ThinSpacing(s: seq<Sample>, interval: int)
    ensures Spaced(Thin(s, interval).kept, interval)
    decreases |s|
  {
    if s != [] {
      ThinSpacing(Front(s), interval);
      ThinFacts(Front(s), interval);
      var p := Thin(Front(s), interval);
      var x := Last(s);
      assert Thin(s, interval) == ThinStep(p, x, interval);
      if p.last == 0 || x.timestamp - p.last >= interval {
        var k := p.kept + [x];
        assert Thin(s, interval).kept == k;
        forall i | 0 <= i < |k| - 1 && k[i].timestamp != 0
          ensures k[i + 1].timestamp - k[i].timestamp >= interval
        {
          if i == |p.kept| - 1 {
            assert k[i] == Last(p.kept) && k[i + 1] == x;
          } else {
            assert k[i] == p.kept[i] && k[i + 1] == p.kept[i + 1];
          }
        }
      }
    }
  }

  /** Thinning what was kept keeps all of it, in the same final state. */
  lemma {:induction false} ThinIdempotent(s: seq<Sample>, interval: int)
    ensures Thin(Thin(s, interval).kept, interval) == Thin(s, interval)
    decreases |s|
  {
    if s != [] {
      var p := Thin(Front(s), interval);
      ThinIdempotent(Front(s), interval);
      if ThinStep(p, Last(s), interval) != p {
        ThinSnoc(p.kept, Last(s), interval);
      }
    }
  }

  /** One sensor's contribution: the thinned points, and the last point when its timestamp is
      not the last kept one. */
  function KeepGroup(s: seq<Sample>, interval: int): seq<Sample> {
    if s == [] then []
    else
      var t := Thin(s, interval);
      if Last(s).timestamp != t.last then t.kept + [Last(s)] else t.kept
  }

  /** When the last point is force-added, the interval rule had left it out. */
  lemma ForcedLastWasSkipped(s: seq<Sample>, interval: int)
    requires s != [] && Last(s).timestamp != Thin(s, interval).last
    ensures Thin(s, interval) == Thin(Front(s), interval)
    ensures ThinStep(Thin(Front(s), interval), Last(s), interval) == Thin(Front(s), interval)
  {
  }

  lemma KeepGroupBounded(s: seq<Sample>, interval: int)
    ensures multiset(KeepGroup(s, interval)) <= multiset(s)
  {
    ThinFacts(s, interval);
    if s != [] && Last(s).timestamp != Thin(s, interval).last {
      ForcedLastWasSkipped(s, interval);
      var f, x := Front(s), Last(s);
      ThinFacts(f, interval);
      var t := Thin(f, interval).kept;
      assert KeepGroup(s, interval) == t + [x];
      calc {
        multiset(t + [x]);
        multiset(t) + multiset{x};
      <=
        multiset(f) + multiset{x};
        { FrontLast(s); }
        multiset(s);
      }
    }
  }

  lemma KeepGroupEnds(s: seq<Sample>, interval: int)
    requires s != []
    ensures var k := KeepGroup(s, interval);
            k != [] && k[0] == s[0] && Last(k).timestamp == Last(s).timestamp
  {
    ThinFacts(s, interval);
  }

  /** KeepGroup only picks input points, each at most as often as it occurs, and keeps the
      earliest point and one at the latest timestamp. */
  lemma KeepGroupFacts(s: seq<Sample>, interval: int)
    ensures multiset(KeepGroup(s, interval)) <= multiset(s)
    ensures s != [] ==> var k := KeepGroup(s, interval);
              k != [] && k[0] == s[0] && Last(k).timestamp == Last(s).timestamp
  {
    KeepGroupBounded(s, interval);
    if s != [] {
      KeepGroupEnds(s, interval);
    }
  }

  lemma KeepGroupSorted(s: seq<Sample>, interval: int)
    requires Sorted(s)
    ensures Sorted(KeepGroup(s, interval))
  {
    ThinSorted(s, interval);
    ThinFacts(s, interval);
    if s != [] && Last(s).timestamp != Thin(s, interval).last {
      var k := Thin(s, interval).kept;
      forall y | y in k ensures y.timestamp <= Last(s).timestamp {
        assert y in multiset(s);
        SortedBelowLast(s, y);
      }
      SortedSnoc(k, Last(s));
    }
  }

  /** A sensor with one point contributes it exactly once. */
  lemma KeepGroupSingle(x: Sample, interval: int)
    ensures KeepGroup([x], interval) == [x]
  {
    assert Front([x]) == [];
    assert Thin([x], interval) == Thinned([x], x.timestamp);
  }

  /** Thinning a sensor's output a second time changes nothing, for any interval. */
  lemma KeepGroupIdempotent(s: seq<Sample>, interval: int)
    ensures KeepGroup(KeepGroup(s, interval), interval) == KeepGroup(s, interval)
  {
    if s != [] {
      var t := Thin(s, interval);
      ThinIdempotent(s, interval);
      KeepGroupFacts(s, interval);
      if Last(s).timestamp != t.last {
        ForcedLastWasSkipped(s, interval);
        ThinSnoc(t.kept, Last(s), interval);
        FrontSnoc(t.kept, Last(s));
      }
    }
  }

  // ---------------------------------------------------------------------------
  // The whole filter

  /** The result list before the final OrderBy: each key's contribution, in key order. */
  function Kept(d: seq<Sample>, keys: seq<string>, interval: int): seq<Sample>
    decreases |keys|
  {
    if keys == [] then []
    else Kept(d, Front(keys), interval) + KeepGroup(SortByTime(Group(d, Last(keys))), interval)
  }

  lemma KeptSnoc(d: seq<Sample>, keys: seq<string>, k: string, interval: int)
    ensures Kept(d, keys + [k], interval) == Kept(d, keys, interval) + KeepGroup(SortByTime(Group(d, k)), interval)
  {
    FrontSnoc(keys, k);
  }

  /** FilterToInterval. */
  function Filter(d: seq<Sample>, interval: int): seq<Sample> {
    if d == [] then [] else SortByTime(Kept(d, GroupKeys(d), interval))
  }

  lemma FilterEmpty(interval: int)
    ensures Filter([], interval) == []
  {
  }

  lemma FilterSorted(d: seq<Sample>, interval: int)
    ensures Sorted(Filter(d, interval))
  {
    if d != [] {
      SortByTimeSorts(Kept(d, GroupKeys(d), interval));
    }
  }

  /** The samples of `d` whose sensor is in `names`. */
  function Among(d: seq<Sample>, names: set<string>): seq<Sample>
    decreases |d|
  {
    if d == [] then []
    else Among(Front(d), names) + (if Last(d).sensorName in names then [Last(d)] else [])
  }

  lemma {:induction false} AmongSplit(d: seq<Sample>, names: set<string>, k: string)
    requires k !in names
    ensures multiset(Among(d, names + {k})) == multiset(Among(d, names)) + multiset(Group(d, k))
    decreases |d|
  {
    if d != [] {
      var f, x := Front(d), Last(d);
      AmongSplit(f, names, k);
      assert Among(d, names + {k}) == Among(f, names + {k}) + (if x.sensorName in names + {k} then [x] else []);
      assert Among(d, names) == Among(f, names) + (if x.sensorName in names then [x] else []);
      assert Group(d, k) == Group(f, k) + (if x.sensorName == k then [x] else []);
    }
  }

  lemma {:induction false} AmongAll(d: seq<Sample>, names: set<string>)
    requires forall x :: x in d ==> x.sensorName in names
    ensures Among(d, names) == d
    decreases |d|
  {
    if d != [] {
      FrontLast(d);
      assert Last(d) in d;
      AmongAll(Front(d), names);
    }
  }

  function KeySet(keys: seq<string>): (r: set<string>)
    ensures forall n :: n in r <==> n in keys
    decreases |keys|
  {
    if keys == [] then {}
    else
      FrontLast(keys);
      KeySet(Front(keys)) + {Last(keys)}
  }

  predicate Distinct(keys: seq<string>) {
    forall i, j :: 0 <= i < j < |keys| ==> keys[i] != keys[j]
  }

  lemma {:induction false} KeptBounded(d: seq<Sample>, keys: seq<string>, interval: int)
    requires Distinct(keys)
    ensures multiset(Kept(d, keys, interval)) <= multiset(Among(d, KeySet(keys)))
    decreases |keys|
  {
    if keys != [] {
      var k := Last(keys);
      assert Distinct(Front(keys));
      KeptBounded(d, Front(keys), interval);
      assert k !in KeySet(Front(keys));
      AmongSplit(d, KeySet(Front(keys)), k);
      KeepGroupFacts(SortByTime(Group(d, k)), interval);
    }
  }

  lemma SubMultisetSmaller(a: multiset<Sample>, b: multiset<Sample>)
    requires a <= b
    ensures |a| <= |b|
  {
    assert b == a + (b - a);
  }

  /** Every output sample is an input sample, none more often than in the input, so the output is
      never longer than the input. */
  lemma FilterBounded(d: seq<Sample>, interval: int)
    ensures multiset(Filter(d, interval)) <= multiset(d)
    ensures |Filter(d, interval)| <= |d|
  {
    if d != [] {
      var keys := GroupKeys(d);
      var kept := Kept(d, keys, interval);
      assert Distinct(keys);
      KeptBounded(d, keys, interval);
      assert forall x :: x in d ==> x.sensorName in KeySet(keys);
      AmongAll(d, KeySet(keys));
      assert multiset(Filter(d, interval)) == multiset(kept);
      assert multiset(kept) <= multiset(d);
      SubMultisetSmaller(multiset(Filter(d, interval)), multiset(d));
      assert |Filter(d, interval)| == |multiset(Filter(d, interval))|;
      assert |d| == |multiset(d)|;
    }
  }

  /** A sensor's contribution holds only that sensor's samples. */
  lemma ContributionOfOneSensor(d: seq<Sample>, k: string, interval: int)
    ensures forall x :: x in KeepGroup(SortByTime(Group(d, k)), interval) ==> x.sensorName == k
  {
    var g := SortByTime(Group(d, k));
    KeepGroupBounded(g, interval);
    forall x | x in KeepGroup(g, interval) ensures x.sensorName == k {
      assert x in multiset(KeepGroup(g, interval));
      assert x in multiset(g);
    }
  }

  lemma LastKeyIsNew(keys: seq<string>)
    requires Distinct(keys) && keys != []
    ensures Last(keys) !in Front(keys) && Distinct(Front(keys))
  {
  }

  lemma {:induction false} GroupOfKept(d: seq<Sample>, keys: seq<string>, interval: int, name: string)
    requires Distinct(keys)
    ensures Group(Kept(d, keys, interval), name) ==
            if name in keys then KeepGroup(SortByTime(Group(d, name)), interval) else []
    decreases |keys|
  {
    if keys != [] {
      var k, f := Last(keys), Front(keys);
      var g := KeepGroup(SortByTime(Group(d, k)), interval);
      var mine := KeepGroup(SortByTime(Group(d, name)), interval);
      assert Group(Kept(d, keys, interval), name) == Group(Kept(d, f, interval), name) + Group(g, name) by {
        GroupConcat(Kept(d, f, interval), g, name);
      }
      assert Group(Kept(d, f, interval), name) == if name in f then mine else [] by {
        LastKeyIsNew(keys);
        GroupOfKept(d, f, interval, name);
      }
      assert Group(g, name) == if k == name then g else [] by {
        GroupOfContribution(d, k, interval, name);
      }
      assert name in keys <==> name in f || name == k by {
        InSnoc(keys);
      }
      assert k !in f by {
        LastKeyIsNew(keys);
      }
    }
  }

  /** One sensor's contribution, grouped by a name: all of it for its own name, else nothing. */
  lemma GroupOfContribution(d: seq<Sample>, k: string, interval: int, name: string)
    ensures var g := KeepGroup(SortByTime(Group(d, k)), interval);
            Group(g, name) == if k == name then g else []
  {
    var g := KeepGroup(SortByTime(Group(d, k)), interval);
    ContributionOfOneSensor(d, k, interval);
    if k == name {
      GroupOfOneSensor(g, name);
    } else {
      GroupOfOtherSensors(g, name);
    }
  }

  /** Per sensor, the output is exactly that sensor's samples in time order, thinned. */
  lemma FilterPerSensor(d: seq<Sample>, interval: int, name: string)
    ensures Group(Filter(d, interval), name) == KeepGroup(SortByTime(Group(d, name)), interval)
  {
    if d != [] {
      var keys := GroupKeys(d);
      GroupSortCommute(Kept(d, keys, interval), name);
      GroupOfKept(d, keys, interval, name);
      if name !in keys {
        GroupOfOtherSensors(d, name);
      }
      SortByTimeSorts(Group(d, name));
      KeepGroupSorted(SortByTime(Group(d, name)), interval);
      SortByTimeOfSorted(KeepGroup(SortByTime(Group(d, name)), interval));
    } else {
      assert Group(d, name) == [];
    }
  }

  /** Each sensor present in the input keeps its earliest sample and one at its latest timestamp. */
  lemma FilterKeepsEnds(d: seq<Sample>, interval: int, name: string)
    requires Group(d, name) != []
    ensures var g := SortByTime(Group(d, name));
            var out := Group(Filter(d, interval), name);
            out != [] && out[0] == g[0] && Last(out).timestamp == Last(g).timestamp
  {
    FilterPerSensor(d, interval, name);
    KeepGroupFacts(SortByTime(Group(d, name)), interval);
  }

  /** Filtering the output again gives every sensor the same samples in the same order. */
  lemma FilterIdempotentPerSensor(d: seq<Sample>, interval: int, name: string)
    ensures Group(Filter(Filter(d, interval), interval), name) == Group(Filter(d, interval), name)
  {
    var g := SortByTime(Group(d, name));
    FilterPerSensor(d, interval, name);
    FilterPerSensor(Filter(d, interval), interval, name);
    SortByTimeSorts(Group(d, name));
    KeepGroupSorted(g, interval);
    SortByTimeOfSorted(KeepGroup(g, interval));
    KeepGroupIdempotent(g, interval);
  }

  function At(name: string, timestamp: nat): Sample {
    TemperatureHistory(0, name, 0, 20.0, timestamp)
  }

  lemma GroupKeysSnoc(s: seq<Sample>, x: Sample)
    ensures GroupKeys(s + [x]) ==
            if x.sensorName in GroupKeys(s) then GroupKeys(s) else GroupKeys(s) + [x.sensorName]
  {
    FrontSnoc(s, x);
  }

  lemma GroupTriple(x: Sample, y: Sample, z: Sample, name: string)
    ensures Group([x, y, z], name) ==
            (if x.sensorName == name then [x] else []) + (if y.sensorName == name then [y] else []) +
            (if z.sensorName == name then [z] else [])
  {
    SnocThree(x, y, z);
    GroupSnoc([], x, name);
    GroupSnoc([x], y, name);
    GroupSnoc([x, y], z, name);
  }

  /** Three samples of two sensors have the two sensors as keys, in order of first appearance. */
  lemma KeysOfThree(x: Sample, y: Sample, z: Sample)
    requires x.sensorName != y.sensorName
    requires z.sensorName == x.sensorName || z.sensorName == y.sensorName
    ensures GroupKeys([x, y, z]) == [x.sensorName, y.sensorName]
  {
    SnocThree(x, y, z);
    GroupKeysSnoc([], x);
    GroupKeysSnoc([x], y);
    GroupKeysSnoc([x, y], z);
  }

  /** Group keys and groups of three samples where only the last two share a sensor. */
  lemma ThreeSamplesSplit(x: Sample, y: Sample, z: Sample)
    requires x.sensorName != y.sensorName && y.sensorName == z.sensorName
    ensures GroupKeys([x, y, z]) == [x.sensorName, y.sensorName]
    ensures Group([x, y, z], x.sensorName) == [x]
    ensures Group([x, y, z], y.sensorName) == [y, z]
  {
    KeysOfThree(x, y, z);
    GroupTriple(x, y, z, x.sensorName);
    GroupTriple(x, y, z, y.sensorName);
  }

  /** The same with the lone sensor in the middle. */
  lemma ThreeSamplesMiddle(x: Sample, y: Sample, z: Sample)
    requires x.sensorName != y.sensorName && x.sensorName == z.sensorName
    ensures GroupKeys([x, y, z]) == [x.sensorName, y.sensorName]
    ensures Group([x, y, z], x.sensorName) == [x, z]
    ensures Group([x, y, z], y.sensorName) == [y]
  {
    KeysOfThree(x, y, z);
    GroupTriple(x, y, z, x.sensorName);
    GroupTriple(x, y, z, y.sensorName);
  }

  /** Two points closer than the interval: the second is dropped by the interval rule and
      then force-added as the last point. */
  lemma ClosePair(x: Sample, y: Sample, interval: int)
    requires 0 < x.timestamp < y.timestamp && y.timestamp - x.timestamp < interval
    ensures KeepGroup([x, y], interval) == [x, y]
  {
    SnocThree(x, y, y);
    ThinSnoc([], x, interval);
    ThinSnoc([x], y, interval);
    assert Thin([x, y], interval) == Thinned([x], x.timestamp);
  }

  /** Two keys in order: their contributions one after the other. */
  lemma KeptTwo(d: seq<Sample>, k1: string, k2: string, interval: int)
    ensures Kept(d, [k1, k2], interval) ==
            KeepGroup(SortByTime(Group(d, k1)), interval) + KeepGroup(SortByTime(Group(d, k2)), interval)
  {
    assert Kept(d, [k1], interval) == KeepGroup(SortByTime(Group(d, k1)), interval) by {
      assert [k1] == [] + [k1];
      KeptSnoc(d, [], k1, interval);
    }
    assert [k1, k2] == [k1] + [k2];
    KeptSnoc(d, [k1], k2, interval);
  }

  /** Sorting three samples whose first one is later than the second. */
  lemma SortThree(x: Sample, y: Sample, z: Sample)
    requires y.timestamp < x.timestamp <= z.timestamp
    ensures SortByTime([x, y, z]) == [y, x, z]
  {
    assert SortByTime([x, y]) == [y, x] by {
      SnocThree(x, y, z);
      FrontSnoc([x], y);
      SortByTimeOfSorted([x]);
      InsertSnoc([], x, y);
    }
    SnocThree(x, y, z);
    FrontSnoc([x, y], z);
    SnocThree(y, x, z);
    InsertSnoc([y], x, z);
  }

  /** The situation of the counterexample: sensor `b` has two points closer than the interval,
      and sensor `a`'s only point shares its timestamp with `b`'s later one. */
  predicate Tied(a: Sample, b1: Sample, b2: Sample, interval: int) {
    a.sensorName != b1.sensorName == b2.sensorName &&
    0 < b1.timestamp < b2.timestamp == a.timestamp && b2.timestamp - b1.timestamp < interval
  }

  lemma KeptFirstPass(d: seq<Sample>, a: Sample, b1: Sample, b2: Sample, interval: int)
    requires Tied(a, b1, b2, interval)
    requires Group(d, a.sensorName) == [a] && Group(d, b1.sensorName) == [b1, b2]
    ensures Kept(d, [a.sensorName, b1.sensorName], interval) == [a, b1, b2]
  {
    TiedContributions(a, b1, b2, interval);
    KeptTwo(d, a.sensorName, b1.sensorName, interval);
  }

  /** First pass: `a` comes first in the input, so its group is appended first and the stable
      sort keeps it before `b2`. */
  lemma FirstPass(a: Sample, b1: Sample, b2: Sample, interval: int)
    requires Tied(a, b1, b2, interval)
    ensures Filter([a, b1, b2], interval) == [b1, a, b2]
  {
    ThreeSamplesSplit(a, b1, b2);
    KeptFirstPass([a, b1, b2], a, b1, b2, interval);
    SortThree(a, b1, b2);
    FilterVia([a, b1, b2], [a.sensorName, b1.sensorName], [a, b1, b2], interval);
  }

  /** What the two groups of the counterexample contribute. */
  lemma TiedContributions(a: Sample, b1: Sample, b2: Sample, interval: int)
    requires Tied(a, b1, b2, interval)
    ensures KeepGroup(SortByTime([b1, b2]), interval) == [b1, b2]
    ensures KeepGroup(SortByTime([a]), interval) == [a]
  {
    assert Sorted([b1, b2]);
    SortByTimeOfSorted([b1, b2]);
    ClosePair(b1, b2, interval);
    SortByTimeOfSorted([a]);
    KeepGroupSingle(a, interval);
  }

  lemma KeptSecondPass(e: seq<Sample>, a: Sample, b1: Sample, b2: Sample, interval: int)
    requires Tied(a, b1, b2, interval)
    requires Group(e, b1.sensorName) == [b1, b2] && Group(e, a.sensorName) == [a]
    ensures Kept(e, [b1.sensorName, a.sensorName], interval) == [b1, b2, a]
  {
    TiedContributions(a, b1, b2, interval);
    KeptTwo(e, b1.sensorName, a.sensorName, interval);
  }

  /** Second pass: now `b` comes first, so both of its points precede `a`. */
  lemma SecondPass(a: Sample, b1: Sample, b2: Sample, interval: int)
    requires Tied(a, b1, b2, interval)
    ensures Filter([b1, a, b2], interval) == [b1, b2, a]
  {
    ThreeSamplesMiddle(b1, a, b2);
    KeptSecondPass([b1, a, b2], a, b1, b2, interval);
    SortedTriple(b1, b2, a);
    FilterVia([b1, a, b2], [b1.sensorName, a.sensorName], [b1, b2, a], interval);
  }

  lemma SortedTriple(x: Sample, y: Sample, z: Sample)
    requires x.timestamp <= y.timestamp <= z.timestamp
    ensures SortByTime([x, y, z]) == [x, y, z]
  {
    assert Sorted([x, y, z]);
    SortByTimeOfSorted([x, y, z]);
  }

  lemma FilterVia(d: seq<Sample>, keys: seq<string>, kept: seq<Sample>, interval: int)
    requires d != [] && GroupKeys(d) == keys && Kept(d, keys, interval) == kept
    ensures Filter(d, interval) == SortByTime(kept)
  {
  }

  /** The whole sequence is not idempotent: two sensors with samples at the same second come
      out in the order of their groups, and the second pass meets the groups in another order. */
  lemma FilterNotIdempotent()
    ensures var d := [At("A", 5), At("B", 1), At("B", 5)];
            Filter(Filter(d, 10), 10) != Filter(d, 10)
  {
    var a5, b1, b5 := At("A", 5), At("B", 1), At("B", 5);
    assert Tied(a5, b1, b5, 10);
    FirstPass(a5, b1, b5, 10);
    SecondPass(a5, b1, b5, 10);
    assert [At("B", 1), At("A", 5), At("B", 5)][1] != [At("B", 1), At("B", 5), At("A", 5)][1];
  }

  // ---------------------------------------------------------------------------
  // The method

  lemma KeptAdvance(d: seq<Sample>, keys: seq<string>, g: nat, interval: int)
    requires g < |keys|
    ensures Kept(d, keys[..g + 1], interval) ==
            Kept(d, keys[..g], interval) + KeepGroup(SortByTime(Group(d, keys[g])), interval)
  {
    TakeSnoc(keys, g);
    FrontSnoc(keys[..g], keys[g]);
  }

  lemma ThinAdvance(s: seq<Sample>, j: nat, interval: int)
    requires j < |s|
    ensures Thin(s[..j + 1], interval) == ThinStep(Thin(s[..j], interval), s[j], interval)
  {
    TakeSnoc(s, j);
    ThinSnoc(s[..j], s[j], interval);
  }

  /** FilterToInterval as the nested loops fill the result list. */
  method FilterToInterval(data: seq<Sample>, interval: int) returns (result: seq<Sample>)
    ensures result == Filter(data, interval)
  {
    if |data| == 0 {
      return [];
    }
    var acc: seq<Sample> := [];
    var sensorGroups := GroupKeys(data);
    var g := 0;
    while g < |sensorGroups|
      invariant 0 <= g <= |sensorGroups|
      invariant acc == Kept(data, sensorGroups[..g], interval)
    {
      acc := AddSensorGroup(acc, data, sensorGroups[g], interval);
      KeptAdvance(data, sensorGroups, g, interval);
      g := g + 1;
    }
    assert sensorGroups[..g] == sensorGroups;
    FilterVia(data, sensorGroups, acc, interval);
    result := SortByTime(acc);
  }

  /** The body of the outer foreach for one sensor: order its samples by time and skip it
      when there are none. */
  method AddSensorGroup(result: seq<Sample>, data: seq<Sample>, name: string, interval: int) returns (acc: seq<Sample>)
    ensures acc == result + KeepGroup(SortByTime(Group(data, name)), interval)
  {
    var sensorData := SortByTime(Group(data, name));
    if |sensorData| == 0 {
      return result;
    }
    acc := AddSensorPoints(result, sensorData, interval);
  }

  /** The rest of that body for a non-empty group: the inner foreach and the force-added last
      point. */
  method AddSensorPoints(result: seq<Sample>, sensorData: seq<Sample>, interval: int) returns (acc: seq<Sample>)
    requires |sensorData| > 0
    ensures acc == result + KeepGroup(sensorData, interval)
  {
    acc := result;
    ghost var kept: seq<Sample> := [];
    var lastAddedTime: nat := 0;
    var j := 0;
    while j < |sensorData|
      invariant 0 <= j <= |sensorData|
      invariant Thinned(kept, lastAddedTime) == Thin(sensorData[..j], interval)
      invariant acc == result + kept
    {
      var item := sensorData[j];
      ThinAdvance(sensorData, j, interval);
      if lastAddedTime == 0 || item.timestamp - lastAddedTime >= interval {
        AppendAssoc(result, kept, [item]);
        acc, kept := acc + [item], kept + [item];
        lastAddedTime := item.timestamp;
      }
      j := j + 1;
    }
    assert sensorData[..j] == sensorData;
    var lastItem := sensorData[|sensorData| - 1];
    if lastItem.timestamp != lastAddedTime {
      AppendAssoc(result, kept, [lastItem]);
      acc := acc + [lastItem];
    }
  }
}
