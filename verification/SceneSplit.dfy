/** Splitting a frame range into scenes after each transition's anchor frame. */
module SceneSplit {
  import opened Prelude

  /** A `SceneInterval`; the scene id string is represented by its number. */
  datatype Scene = Scene(id: int, start: int, end: int) {
    predicate Valid() { 0 <= start <= end }

    predicate Covers(f: int) { start <= f <= end }
  }

  /** The scene that an anchor ends, if it is not empty. */
  function Ended(start: int, id: int, anchor: int): seq<Scene> {
    if anchor >= start then [Scene(id, start, anchor)] else []
  }

  /** The scenes of [start, end]: one ends at each anchor, and the last ends at `end`. */
  function Split(start: int, end: int, id: int, anchors: seq<int>): seq<Scene>
    decreases |anchors|
  {
    if anchors == [] then
      if start <= end then [Scene(id, start, end)] else []
    else
      Ended(start, id, anchors[0])
      + Split(Max(start, anchors[0] + 1), end, id + 1, anchors[1..])
  }

  /** Anchors in order that end scenes of [start, end], or lie on the frame just before it. */
  predicate Anchored(anchors: seq<int>, start: int, end: int)
    decreases |anchors|
  {
    anchors == []
    || (start - 1 <= anchors[0] <= end && Anchored(anchors[1..], anchors[0] + 1, end))
  }

  /** Ascending anchors of the right range are anchored. */
  lemma {:induction false} AscendingAreAnchored(anchors: seq<int>, start: int, end: int)
    requires forall i: nat, j: nat :: i < j < |anchors| ==> anchors[i] <= anchors[j]
    requires forall i: nat :: i < |anchors| ==> start - 1 <= anchors[i] <= end
    ensures Anchored(anchors, start, end)
    decreases |anchors|
  {
    if anchors != [] {
      AscendingAreAnchored(anchors[1..], anchors[0] + 1, end);
    }
  }

  /** The anchors of two adjacent ranges, joined, are anchored in their union. */
  lemma {:induction false} AnchoredJoin(start: int, mid: int, end: int, a: seq<int>, b: seq<int>)
    requires start <= mid + 1 <= end + 1
    requires Anchored(a, start, mid) && Anchored(b, mid + 1, end)
    ensures Anchored(a + b, start, end)
    decreases |a|
  {
    if a == [] {
      assert a + b == b;
    } else {
      AnchoredJoin(a[0] + 1, mid, end, a[1..], b);
      assert (a + b)[1..] == a[1..] + b;
    }
  }

  /** How many anchors lie strictly before frame f: the number of scene changes up to f. */
  function CountBelow(anchors: seq<int>, f: int): nat {
    if anchors == [] then 0 else (if anchors[0] < f then 1 else 0) + CountBelow(anchors[1..], f)
  }

  lemma {:induction false} CountBelowNone(anchors: seq<int>, start: int, end: int, f: int)
    requires Anchored(anchors, start, end) && f <= start - 1
    ensures CountBelow(anchors, f) == 0
    decreases |anchors|
  {
    if anchors != [] {
      CountBelowNone(anchors[1..], anchors[0] + 1, end, f);
    }
  }

  lemma {:induction false} CountBelowJoin(a: seq<int>, b: seq<int>, f: int)
    ensures CountBelow(a + b, f) == CountBelow(a, f) + CountBelow(b, f)
  {
    if a == [] {
      assert a + b == b;
    } else {
      CountBelowJoin(a[1..], b, f);
      assert (a + b)[1..] == a[1..] + b;
    }
  }

  /** Non-empty scenes in order, each starting right after the one before, that fill [start, end]. */
  ghost predicate Tiles(s: seq<Scene>, start: int, end: int) {
    if s == [] then start == end + 1
    else s[0].start == start && s[0].start <= s[0].end && Tiles(s[1..], s[0].end + 1, end)
  }

  ghost predicate IdsIncrease(s: seq<Scene>, low: int, high: int) {
    && (forall i: nat :: i < |s| ==> low <= s[i].id <= high)
    && (forall i: nat, j: nat :: i < j < |s| ==> s[i].id < s[j].id)
  }

  lemma {:induction false} SplitTiles(start: int, end: int, id: int, anchors: seq<int>)
    requires Anchored(anchors, start, end) && start <= end + 1
    ensures Tiles(Split(start, end, id, anchors), start, end)
    decreases |anchors|
  {
    if anchors != [] {
      SplitTiles(anchors[0] + 1, end, id + 1, anchors[1..]);
      var rest := Split(anchors[0] + 1, end, id + 1, anchors[1..]);
      if anchors[0] >= start {
        assert ([Scene(id, start, anchors[0])] + rest)[1..] == rest;
      } else {
        assert [] + rest == rest;
      }
    }
  }

  lemma {:induction false} SplitIds(start: int, end: int, id: int, anchors: seq<int>)
    ensures IdsIncrease(Split(start, end, id, anchors), id, id + |anchors|)
    decreases |anchors|
  {
    if anchors != [] {
      SplitIds(Max(start, anchors[0] + 1), end, id + 1, anchors[1..]);
    }
  }

  /** A scene covers a frame exactly when its id counts the anchors before that frame. */
  lemma {:induction false} SceneOfFrame(start: int, end: int, id: int, anchors: seq<int>, f: int, x: Scene)
    requires Anchored(anchors, start, end) && start <= f <= end
    requires x in Split(start, end, id, anchors)
    ensures start <= x.start <= x.end <= end
    ensures id <= x.id <= id + |anchors|
    ensures x.Covers(f) <==> x.id == id + CountBelow(anchors, f)
    decreases |anchors|
  {
    if anchors != [] {
      var a, rest := anchors[0], anchors[1..];
      if f <= a {
        CountBelowNone(rest, a + 1, end, f);
      }
      if x !in Ended(start, id, a) {
        assert x in Split(a + 1, end, id + 1, rest);
        SceneInside(a + 1, end, id + 1, rest, x);
        if f > a {
          SceneOfFrame(a + 1, end, id + 1, rest, f, x);
        }
      }
    }
  }

  lemma {:induction false} SceneInside(start: int, end: int, id: int, anchors: seq<int>, x: Scene)
    requires Anchored(anchors, start, end) && x in Split(start, end, id, anchors)
    ensures start <= x.start <= x.end <= end && id <= x.id <= id + |anchors|
    decreases |anchors|
  {
    if anchors != [] && x !in Ended(start, id, anchors[0]) {
      SceneInside(anchors[0] + 1, end, id + 1, anchors[1..], x);
    }
  }

  // ---------------------------------------------------------------- merging scenes by id

  /** The position of the scene with this id, or |s|. */
  function FindScene(s: seq<Scene>, id: int): (i: nat)
    ensures i <= |s|
    ensures i < |s| ==> s[i].id == id
    ensures forall j: nat :: j < i ==> s[j].id != id
  {
    if s == [] then 0
    else if s[0].id == id then 0
    else 1 + FindScene(s[1..], id)
  }

  /** One step of the aggregator: widen the known scene with this id, or remember a new one. */
  function Widen(s: seq<Scene>, x: Scene): seq<Scene> {
    var i := FindScene(s, x.id);
    if i == |s| then s + [x]
    else s[i := Scene(x.id, Min(s[i].start, x.start), Max(s[i].end, x.end))]
  }

  function WidenAll(s: seq<Scene>, xs: seq<Scene>): seq<Scene>
    decreases |xs|
  {
    if xs == [] then s else WidenAll(Widen(s, xs[0]), xs[1..])
  }

  lemma {:induction false} WidenAllJoin(s: seq<Scene>, xs: seq<Scene>, ys: seq<Scene>)
    ensures WidenAll(s, xs + ys) == WidenAll(WidenAll(s, xs), ys)
    decreases |xs|
  {
    if xs == [] {
      assert xs + ys == ys;
    } else {
      WidenAllJoin(Widen(s, xs[0]), xs[1..], ys);
      assert (xs + ys)[1..] == xs[1..] + ys;
    }
  }

  /** Scenes with new, increasing ids are simply appended. */
  lemma {:induction false} WidenAllFresh(s: seq<Scene>, xs: seq<Scene>, low: int, high: int)
    requires IdsIncrease(xs, low, high)
    requires forall i: nat :: i < |s| ==> s[i].id < low
    ensures WidenAll(s, xs) == s + xs
    decreases |xs|
  {
    if xs != [] {
      assert Widen(s, xs[0]) == s + [xs[0]];
      WidenAllFresh(s + [xs[0]], xs[1..], xs[0].id + 1, high);
      assert s + [xs[0]] + xs[1..] == s + xs;
    }
  }

  /** Scenes whose ids no later scene shares stay in front, untouched. */
  lemma {:induction false} WidenAllKeeps(h: seq<Scene>, s: seq<Scene>, xs: seq<Scene>)
    requires forall i: nat, j: nat :: i < |xs| && j < |h| ==> xs[i].id != h[j].id
    ensures WidenAll(h + s, xs) == h + WidenAll(s, xs)
    decreases |xs|
  {
    if xs != [] {
      FindBehind(h, s, xs[0].id);
      assert Widen(h + s, xs[0]) == h + Widen(s, xs[0]);
      WidenAllKeeps(h, Widen(s, xs[0]), xs[1..]);
    }
  }

  lemma {:induction false} FindBehind(h: seq<Scene>, s: seq<Scene>, id: int)
    requires forall j: nat :: j < |h| ==> h[j].id != id
    ensures FindScene(h + s, id) == |h| + FindScene(s, id)
  {
    if h == [] {
      assert h + s == s;
    } else {
      FindBehind(h[1..], s, id);
      assert (h + s)[1..] == h[1..] + s;
    }
  }

  lemma SplitHead(start: int, end: int, id: int, x: int, rest: seq<int>)
    requires start <= x + 1
    ensures Split(start, end, id, [x] + rest) == Ended(start, id, x) + Split(x + 1, end, id + 1, rest)
  {
    assert ([x] + rest)[1..] == rest;
  }

  /** An open scene [start, mid] is closed by an anchor at or after mid. */
  lemma CloseOpenScene(start: int, mid: int, end: int, id: int, x: int, rest: seq<int>)
    requires start <= mid <= x
    ensures WidenAll([Scene(id, start, mid)], Split(mid + 1, end, id, [x] + rest))
         == [Scene(id, start, x)] + Split(x + 1, end, id + 1, rest)
  {
    var tail := Split(x + 1, end, id + 1, rest);
    SplitHead(mid + 1, end, id, x, rest);
    SplitIds(x + 1, end, id + 1, rest);
    WidenAllJoin([Scene(id, start, mid)], Ended(mid + 1, id, x), tail);
    if x > mid {
      assert Ended(mid + 1, id, x)[1..] == [];
      assert Widen([Scene(id, start, mid)], Scene(id, mid + 1, x)) == [Scene(id, start, x)];
    }
    WidenAllFresh([Scene(id, start, x)], tail, id + 1, id + 1 + |rest|);
  }

  /** Widening the open scene [start, mid] with the split of [mid+1, end] is splitting [start, end]. */
  lemma JoinOpenScene(start: int, mid: int, end: int, id: int, anchors: seq<int>)
    requires start <= mid + 1 <= end + 1 && Anchored(anchors, mid + 1, end)
    ensures WidenAll(Split(start, mid, id, []), Split(mid + 1, end, id, anchors))
         == Split(start, end, id, anchors)
  {
    if start == mid + 1 {
      SplitIds(mid + 1, end, id, anchors);
      WidenAllFresh([], Split(mid + 1, end, id, anchors), id, id + |anchors|);
    } else if anchors == [] {
      if mid < end {
        assert Widen([Scene(id, start, mid)], Scene(id, mid + 1, end)) == [Scene(id, start, end)];
        assert [Scene(id, mid + 1, end)][1..] == [];
      }
    } else {
      var x, rest := anchors[0], anchors[1..];
      assert anchors == [x] + rest;
      CloseOpenScene(start, mid, end, id, x, rest);
      SplitHead(start, end, id, x, rest);
    }
  }

  lemma SplitOf(start: int, end: int, id: int, a: seq<int>)
    requires a != [] && start <= a[0] + 1
    ensures Split(start, end, id, a) == Ended(start, id, a[0]) + Split(a[0] + 1, end, id + 1, a[1..])
  {
  }

  lemma SplitOfJoin(start: int, end: int, id: int, a: seq<int>, b: seq<int>)
    requires a != [] && start <= a[0] + 1
    ensures Split(start, end, id, a + b) == Ended(start, id, a[0]) + Split(a[0] + 1, end, id + 1, a[1..] + b)
  {
    SplitOf(start, end, id, a + b);
    assert (a + b)[0] == a[0] && (a + b)[1..] == a[1..] + b;
  }

  lemma SplitJoinNone(start: int, mid: int, end: int, id: int, a: seq<int>, b: seq<int>)
    requires start <= mid + 1 <= end + 1 && a == [] && Anchored(b, mid + 1, end)
    ensures WidenAll(Split(start, mid, id, a), Split(mid + 1, end, id + |a|, b)) == Split(start, end, id, a + b)
  {
    assert a + b == b;
    JoinOpenScene(start, mid, end, id, b);
  }

  /** The scene that the first anchor ends stays as it is when later scenes are merged in. */
  lemma EndedStays(start: int, id: int, x: int, first: seq<Scene>, second: seq<Scene>, whole: seq<Scene>)
    requires WidenAll(first, second) == whole && forall i: nat :: i < |second| ==> second[i].id > id
    ensures WidenAll(Ended(start, id, x) + first, second) == Ended(start, id, x) + whole
  {
    WidenAllKeeps(Ended(start, id, x), first, second);
  }

  lemma SplitJoinHead(start: int, mid: int, end: int, id: int, a: seq<int>, b: seq<int>)
    requires a != [] && start <= a[0] + 1
    requires WidenAll(Split(a[0] + 1, mid, id + 1, a[1..]), Split(mid + 1, end, id + 1 + |a[1..]|, b))
          == Split(a[0] + 1, end, id + 1, a[1..] + b)
    ensures WidenAll(Split(start, mid, id, a), Split(mid + 1, end, id + |a|, b)) == Split(start, end, id, a + b)
  {
    SplitOf(start, mid, id, a);
    SplitOfJoin(start, end, id, a, b);
    SplitIds(mid + 1, end, id + |a|, b);
    EndedStays(start, id, a[0], Split(a[0] + 1, mid, id + 1, a[1..]), Split(mid + 1, end, id + |a|, b),
               Split(a[0] + 1, end, id + 1, a[1..] + b));
  }

  lemma AnchoredTail(a: seq<int>, start: int, mid: int)
    requires Anchored(a, start, mid) && a != []
    ensures start <= a[0] + 1 <= mid + 1 && Anchored(a[1..], a[0] + 1, mid)
  {
  }

  /** Splitting two adjacent ranges one after the other and merging by id is splitting their union. */
  lemma {:induction false} SplitJoin(start: int, mid: int, end: int, id: int, a: seq<int>, b: seq<int>)
    requires start <= mid + 1 <= end + 1
    requires Anchored(a, start, mid) && Anchored(b, mid + 1, end)
    ensures WidenAll(Split(start, mid, id, a), Split(mid + 1, end, id + |a|, b))
         == Split(start, end, id, a + b)
    decreases |a|
  {
    if a == [] {
      SplitJoinNone(start, mid, end, id, a, b);
    } else {
      AnchoredTail(a, start, mid);
      SplitJoin(a[0] + 1, mid, end, id + 1, a[1..], b);
      SplitJoinHead(start, mid, end, id, a, b);
    }
  }

  /** One more adjacent range: its scenes merged into the split of everything before it. */
  lemma SplitAppend(mid: int, end: int, a: seq<int>, b: seq<int>, known: seq<Scene>, scenes: seq<Scene>)
    requires 0 <= mid + 1 <= end + 1 && Anchored(a, 0, mid) && Anchored(b, mid + 1, end)
    requires WidenAll([], known) == Split(0, mid, 0, a)
    requires scenes == Split(mid + 1, end, |a|, b)
    ensures Anchored(a + b, 0, end)
    ensures WidenAll([], known + scenes) == Split(0, end, 0, a + b)
  {
    AnchoredJoin(0, mid, end, a, b);
    SplitJoin(0, mid, end, 0, a, b);
    WidenAllJoin([], known, scenes);
  }
}
