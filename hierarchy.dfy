/** Scene objects and the animation path resolver (`GetGameObjectAnimPath`). */
module Hierarchy {

  /** A scene object: its name and parent transform are fixed during a generation run;
      only its active flag is changed by the pass. */
  class GameObject {
    const name: string
    const parent: GameObject?
    /** Distance from the topmost ancestor; witnesses that the parent chain is finite. */
    ghost const depth: nat
    var activeSelf: bool

    /** The parent chain is finite (every scene hierarchy is a tree). */
    ghost predicate InTree()
      decreases depth
    {
      parent != null ==> parent.depth < depth && parent.InTree()
    }

    constructor (name: string, parent: GameObject?, activeSelf: bool)
      requires parent != null ==> parent.InTree()
      ensures this.name == name && this.parent == parent && this.activeSelf == activeSelf
      ensures InTree()
    {
      this.name := name;
      this.parent := parent;
      this.depth := if parent == null then 0 else parent.depth + 1;
      this.activeSelf := activeSelf;
    }
  }

  /** The names of `t` and its ancestors, top-down, leaving out the topmost (parentless)
      ancestor; a parentless `t` (or null) contributes nothing. */
  function Upper(t: GameObject?): (names: seq<string>)
    requires t != null ==> t.InTree()
    decreases if t == null then 0 else t.depth + 1
  {
    if t == null || t.parent == null then [] else Upper(t.parent) + [t.name]
  }

  /** The components of the animation path of `o`: the names of its ancestors below the
      topmost one, top-down, followed by its own name. */
  function Components(o: GameObject): (names: seq<string>)
    requires o.InTree()
  {
    Upper(o.parent) + [o.name]
  }

  /** `/`-join of a non-empty list of names. */
  function Join(names: seq<string>): (path: string)
    requires |names| >= 1
    decreases |names|
  {
    if |names| == 1 then names[0] else names[0] + "/" + Join(names[1..])
  }

  /** The path an animation binding uses to reach `o` from its topmost ancestor. */
  function AnimPath(o: GameObject): (path: string)
    requires o.InTree()
  {
    Join(Components(o))
  }

  /** Joining one more name at the end adds it after a separator. */
  lemma {:induction false} JoinSnoc(names: seq<string>, last: string)
    requires |names| >= 1
    ensures Join(names + [last]) == Join(names) + "/" + last
    decreases |names|
  {
    if |names| == 1 {
      assert (names + [last])[1..] == [last];
    } else {
      assert (names + [last])[1..] == names[1..] + [last];
      JoinSnoc(names[1..], last);
    }
  }

  /** The topmost object and its direct children resolve to their own name. */
  lemma AnimPathNearRoot(o: GameObject)
    requires o.InTree()
    requires o.parent == null || o.parent.parent == null
    ensures AnimPath(o) == o.name
  {
  }

  /** Below the first level, the path of `o` is its parent's path, a `/`, and its own name. */
  lemma AnimPathOfChild(o: GameObject)
    requires o.InTree() && o.parent != null && o.parent.parent != null
    ensures AnimPath(o) == AnimPath(o.parent) + "/" + o.name
  {
    JoinSnoc(Components(o.parent), o.name);
  }

  /** A target three levels below the root resolves to `level1/level2/target`; the root
      contributes no component. */
  lemma AnimPathThreeLevels(target: GameObject, level2: GameObject, level1: GameObject, root: GameObject)
    requires target.InTree()
    requires target.parent == level2 && level2.parent == level1 && level1.parent == root && root.parent == null
    ensures AnimPath(target) == level1.name + "/" + level2.name + "/" + target.name
  {
    AnimPathOfChild(target);
    AnimPathOfChild(level2);
    AnimPathNearRoot(level1);
  }

  /** Resolves the animation path: walks up the parent chain, prefixing each ancestor's name,
      and stops before the ancestor that has no parent. */
  method GetGameObjectAnimPath(o: GameObject) returns (path: string)
    requires o.InTree()
    ensures path == AnimPath(o)
  {
    path := o.name;
    ghost var suffix: seq<string> := [o.name];
    var current := o.parent;
    while current != null && current.parent != null
      invariant current != null ==> current.InTree()
      invariant |suffix| >= 1 && path == Join(suffix)
      invariant Components(o) == Upper(current) + suffix
      decreases if current == null then 0 else current.depth + 1
    {
      assert ([current.name] + suffix)[1..] == suffix;
      path := current.name + "/" + path;
      suffix := [current.name] + suffix;
      current := current.parent;
    }
    assert Upper(current) == [];
    assert Components(o) == suffix;
  }
}
