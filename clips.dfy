/** Toggle clips (`GenerateToggleClip`): constant curves on the active flag of scene objects. */
module Clips {
  import opened Hierarchy

  /** The animated property of a GameObject that switches it on and off. */
  const IsActiveProperty: string := "m_IsActive"
  /** The component type every toggle binding targets. */
  const GameObjectType: string := "GameObject"

  /** One curve of a clip: what it animates (path, component type, property) and the value of
      its single keyframe at time 0 (1 or 0 for the active flag). */
  datatype Binding = Binding(path: string, componentType: string, propertyName: string, value: int)

  /** An animation clip: its name and its curves, in the order they were first set. */
  datatype Clip = Clip(name: string, bindings: seq<Binding>)

  /** Two curves animate the same thing. */
  predicate SameTarget(x: Binding, y: Binding) {
    x.path == y.path && x.componentType == y.componentType && x.propertyName == y.propertyName
  }

  /** Setting a curve on a clip: a curve that already animates the same thing is replaced,
      otherwise the new curve is added after the existing ones. */
  function SetCurve(bs: seq<Binding>, b: Binding): (r: seq<Binding>)
    ensures (forall k :: 0 <= k < |bs| ==> !SameTarget(bs[k], b)) ==> r == bs + [b]
    ensures forall k :: 0 <= k < |bs| && SameTarget(bs[k], b) && (forall j :: 0 <= j < k ==> !SameTarget(bs[j], b))
              ==> r == bs[k := b]
    decreases |bs|
  {
    if bs == [] then [b]
    else if SameTarget(bs[0], b) then [b] + bs[1..]
    else [bs[0]] + SetCurve(bs[1..], b)
  }

  /** The curve value that holds the active flag at `enable`. */
  function ToggleValue(enable: bool): (v: int)
    ensures v == 1 <==> enable
    ensures v == 0 || v == 1
  {
    if enable then 1 else 0
  }

  /** Every live entry of a target list sits in a finite hierarchy. */
  ghost predicate AllInTree(ts: seq<GameObject?>) {
    forall k :: 0 <= k < |ts| && ts[k] != null ==> ts[k].InTree()
  }

  /** The non-null entries of a target list, in order. */
  function LiveTargets(ts: seq<GameObject?>): (live: seq<GameObject>)
    ensures forall k :: 0 <= k < |live| ==> live[k] in ts
    ensures forall k :: 0 <= k < |ts| && ts[k] != null ==> ts[k] in live
    ensures |live| <= |ts|
    decreases |ts|
  {
    if ts == [] then []
    else if ts[|ts| - 1] == null then LiveTargets(ts[..|ts| - 1])
    else LiveTargets(ts[..|ts| - 1]) + [ts[|ts| - 1]]
  }

  /** The number of non-null entries of a target list, counted from the front. */
  function NonNullCount(ts: seq<GameObject?>): (c: nat)
    ensures c <= |ts|
    decreases |ts|
  {
    if ts == [] then 0 else (if ts[0] == null then 0 else 1) + NonNullCount(ts[1..])
  }

  /** Counting over a list split at `k` adds the counts of both parts. */
  lemma {:induction false} NonNullCountSplit(ts: seq<GameObject?>, k: nat)
    requires k <= |ts|
    ensures NonNullCount(ts) == NonNullCount(ts[..k]) + NonNullCount(ts[k..])
    decreases k
  {
    if k == 0 {
      assert ts[..0] == [] && ts[0..] == ts;
    } else {
      assert ts[..k][1..] == ts[1..][..k - 1];
      assert ts[k..] == ts[1..][k - 1..];
      NonNullCountSplit(ts[1..], k - 1);
    }
  }

  /** The live targets are the non-null entries, each exactly once and in list order: a
      non-null entry sits at the position given by the number of non-null entries before it. */
  lemma {:induction false} LiveTargetsInOrder(ts: seq<GameObject?>)
    ensures |LiveTargets(ts)| == NonNullCount(ts)
    ensures forall k :: 0 <= k < |ts| && ts[k] != null ==>
              NonNullCount(ts[..k]) < |LiveTargets(ts)| && LiveTargets(ts)[NonNullCount(ts[..k])] == ts[k]
    decreases |ts|
  {
    if ts != [] {
      var n := |ts| - 1;
      var init, t := ts[..n], ts[n];
      LiveTargetsInOrder(init);
      NonNullCountSplit(ts, n);
      assert ts[n..] == [t] && [t][1..] == [];
      forall k | 0 <= k < |ts| && ts[k] != null
        ensures NonNullCount(ts[..k]) < |LiveTargets(ts)| && LiveTargets(ts)[NonNullCount(ts[..k])] == ts[k]
      {
        if k < n {
          assert ts[..k] == init[..k] && init[k] == ts[k];
        } else {
          assert ts[..k] == init;
        }
      }
    }
  }

  /** The resolved paths are the paths of the live targets, one for one and in the same order. */
  lemma {:induction false} LivePathsOfLiveTargets(ts: seq<GameObject?>)
    requires AllInTree(ts)
    ensures |LivePaths(ts)| == |LiveTargets(ts)|
    ensures forall k :: 0 <= k < |LiveTargets(ts)| ==>
              LiveTargets(ts)[k].InTree() && LivePaths(ts)[k] == AnimPath(LiveTargets(ts)[k])
    decreases |ts|
  {
    if ts != [] {
      LivePathsOfLiveTargets(ts[..|ts| - 1]);
    }
  }

  /** The animation paths of the live targets, in order. */
  function LivePaths(ts: seq<GameObject?>): (ps: seq<string>)
    requires AllInTree(ts)
    ensures forall k :: 0 <= k < |ts| && ts[k] != null ==> AnimPath(ts[k]) in ps
    ensures |ps| <= |ts|
    decreases |ts|
  {
    if ts == [] then []
    else if ts[|ts| - 1] == null then LivePaths(ts[..|ts| - 1])
    else LivePaths(ts[..|ts| - 1]) + [AnimPath(ts[|ts| - 1])]
  }

  /** The paths of a clip's curves, in order. */
  function Paths(bs: seq<Binding>): (ps: seq<string>)
    ensures |ps| == |bs|
    ensures forall k :: 0 <= k < |bs| ==> ps[k] == bs[k].path
    decreases |bs|
  {
    if bs == [] then [] else Paths(bs[..|bs| - 1]) + [bs[|bs| - 1].path]
  }

  /** No element occurs twice. */
  predicate Distinct(s: seq<string>) {
    forall i, j :: 0 <= i < j < |s| ==> s[i] != s[j]
  }

  /** The curve that toggles the object at `path` to `enable`. */
  function ToggleBinding(path: string, enable: bool): (b: Binding) {
    Binding(path, GameObjectType, IsActiveProperty, ToggleValue(enable))
  }

  /** The curves of a toggle clip over `ts`: for each live target in turn, set the curve
      holding its active flag at `enable`; null targets are skipped. */
  function ToggleBindings(ts: seq<GameObject?>, enable: bool): (bs: seq<Binding>)
    requires AllInTree(ts)
    decreases |ts|
  {
    if ts == [] then []
    else
      var prev := ToggleBindings(ts[..|ts| - 1], enable);
      var t := ts[|ts| - 1];
      if t == null then prev else SetCurve(prev, ToggleBinding(AnimPath(t), enable))
  }

  /** Setting a curve that is already on a clip whose paths are distinct leaves the clip as it is. */
  lemma SetCurveAlreadyThere(prev: seq<Binding>, b: Binding, k: nat)
    requires Distinct(Paths(prev)) && k < |prev| && prev[k] == b
    ensures SetCurve(prev, b) == prev
  {
    forall j | 0 <= j < k ensures !SameTarget(prev[j], b) {
      assert Paths(prev)[j] != Paths(prev)[k];
    }
    assert prev[k := b] == prev;
  }

  /** Setting one more toggle curve on a clip made only of toggle curves with distinct paths
      keeps it so, and adds exactly the new path to its paths. */
  lemma SetToggleCurve(prev: seq<Binding>, path: string, enable: bool)
    requires forall b :: b in prev ==> b == ToggleBinding(b.path, enable)
    requires Distinct(Paths(prev))
    ensures var r := SetCurve(prev, ToggleBinding(path, enable));
            && (forall b :: b in r ==> b == ToggleBinding(b.path, enable))
            && (forall p :: p in Paths(r) <==> p in Paths(prev) || p == path)
            && Distinct(Paths(r))
  {
    var b := ToggleBinding(path, enable);
    if k :| 0 <= k < |prev| && SameTarget(prev[k], b) {
      assert prev[k] in prev;
      SetCurveAlreadyThere(prev, b, k);
    } else {
      SetCurveNew(prev, b);
    }
  }

  /** Setting a curve on a clip with no curve on the same path appends it, and its path is new. */
  lemma SetCurveNew(prev: seq<Binding>, b: Binding)
    requires Distinct(Paths(prev))
    requires forall k :: 0 <= k < |prev| ==> prev[k].path != b.path
    ensures SetCurve(prev, b) == prev + [b]
    ensures Paths(prev + [b]) == Paths(prev) + [b.path]
    ensures Distinct(Paths(prev + [b]))
  {
    assert (prev + [b])[..|prev|] == prev;
  }

  /** Every curve of a toggle clip holds the active flag of a live target at `enable`; every
      live target's path is animated, and no path is animated twice. */
  lemma {:induction false} ToggleBindingsSound(ts: seq<GameObject?>, enable: bool)
    requires AllInTree(ts)
    ensures forall b :: b in ToggleBindings(ts, enable) ==> b == ToggleBinding(b.path, enable)
    ensures forall p :: p in Paths(ToggleBindings(ts, enable)) <==> p in LivePaths(ts)
    ensures Distinct(Paths(ToggleBindings(ts, enable)))
    decreases |ts|
  {
    if ts != [] {
      var init := ts[..|ts| - 1];
      ToggleBindingsSound(init, enable);
      var t := ts[|ts| - 1];
      if t != null {
        SetToggleCurve(ToggleBindings(init, enable), AnimPath(t), enable);
      }
    }
  }

  /** When the live targets resolve to distinct paths, the clip has exactly one curve per
      live target, in target order. */
  lemma {:induction false} ToggleBindingsOnePerTarget(ts: seq<GameObject?>, enable: bool)
    requires AllInTree(ts)
    requires Distinct(LivePaths(ts))
    ensures |ToggleBindings(ts, enable)| == |LivePaths(ts)| == |LiveTargets(ts)|
    ensures forall k :: 0 <= k < |LivePaths(ts)| ==> ToggleBindings(ts, enable)[k] == ToggleBinding(LivePaths(ts)[k], enable)
    decreases |ts|
  {
    if ts != [] {
      var init := ts[..|ts| - 1];
      var t := ts[|ts| - 1];
      assert Distinct(LivePaths(init)) by {
        assert LivePaths(init) == LivePaths(ts)[..|LivePaths(init)|];
      }
      ToggleBindingsOnePerTarget(init, enable);
      if t != null {
        var prev := ToggleBindings(init, enable);
        var b := ToggleBinding(AnimPath(t), enable);
        forall k | 0 <= k < |prev| ensures !SameTarget(prev[k], b) {
          assert LivePaths(ts)[k] != LivePaths(ts)[|prev|];
        }
      }
    }
  }

  /** Builds an unnamed toggle clip: one curve per live target, null targets skipped. */
  method GenerateToggleClip(gameObjects: seq<GameObject?>, enableToggle: bool) returns (clip: Clip)
    requires AllInTree(gameObjects)
    ensures clip.name == ""
    ensures clip.bindings == ToggleBindings(gameObjects, enableToggle)
  {
    clip := Clip("", []);
    for i := 0 to |gameObjects|
      invariant clip.name == ""
      invariant clip.bindings == ToggleBindings(gameObjects[..i], enableToggle)
    {
      assert gameObjects[..i + 1][..i] == gameObjects[..i];
      if gameObjects[i] != null {
        var path := GetGameObjectAnimPath(gameObjects[i]);
        clip := clip.(bindings := SetCurve(clip.bindings, ToggleBinding(path, enableToggle)));
      }
    }
    assert gameObjects[..|gameObjects|] == gameObjects;
  }
}
