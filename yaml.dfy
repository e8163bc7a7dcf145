/** Nested configuration values (the dictionaries, lists and scalars that `yaml.dump` serialises)
    and the two operations Python performs on them here: subscripting a path, and assigning at a path. */
module Yaml {
  import opened Base

  datatype Value =
    | Str(s: string)
    | Int(i: int)
    | Float(r: real)
    | Bool(b: bool)
    | List(items: seq<Value>)
    | Dict(entries: map<string, Value>)

  /** One subscript: `[k]` on a dictionary or `[i]` on a list. */
  datatype Step = Key(k: string) | At(i: nat)

  type Path = seq<Step>

  /** `v[s]`, or None where Python would raise KeyError, IndexError or TypeError. */
  function Child(v: Value, s: Step): Option<Value> {
    match s
    case Key(k) => if v.Dict? && k in v.entries then Some(v.entries[k]) else None
    case At(i) => if v.List? && i < |v.items| then Some(v.items[i]) else None
  }

  /** Whether `v[s] = x` succeeds: a dictionary takes any key, a list only an existing index. */
  predicate Assignable(v: Value, s: Step) {
    match s
    case Key(k) => v.Dict?
    case At(i) => v.List? && i < |v.items|
  }

  /** The value after `v[s] = x` (unchanged where the assignment would raise). */
  function Assign(v: Value, s: Step, x: Value): Value {
    match s
    case Key(k) => if v.Dict? then Dict(v.entries[k := x]) else v
    case At(i) => if v.List? && i < |v.items| then List(v.items[i := x]) else v
  }

  /** The value reached by following `p` from `v`. */
  function Get(v: Value, p: Path): Option<Value>
    decreases |p|
  {
    if p == [] then Some(v)
    else match Child(v, p[0])
      case Some(c) => Get(c, p[1..])
      case None => None
  }

  /** Python's `v[s0]...[sn] = x` succeeds: every subscript but the last exists and the last
      one is assignable. */
  predicate CanSet(v: Value, p: Path)
    decreases |p|
  {
    p != [] &&
    if |p| == 1 then Assignable(v, p[0])
    else Child(v, p[0]).Some? && CanSet(Child(v, p[0]).value, p[1..])
  }

  /** The value after the assignment `v[p] = x` (unchanged where it would raise). */
  function Set(v: Value, p: Path, x: Value): Value
    decreases |p|
  {
    if p == [] then x
    else if |p| == 1 then Assign(v, p[0], x)
    else match Child(v, p[0])
      case Some(c) => Assign(v, p[0], Set(c, p[1..], x))
      case None => v
  }

  // ---- one subscript ----

  lemma ChildAssignSame(v: Value, s: Step, x: Value)
    requires Assignable(v, s)
    ensures Child(Assign(v, s, x), s) == Some(x)
  {
  }

  lemma ChildAssignOther(v: Value, s: Step, x: Value, t: Step)
    requires s != t
    ensures Child(Assign(v, s, x), t) == Child(v, t)
  {
  }

  lemma AssignAssign(v: Value, s: Step, x: Value, y: Value)
    ensures Assign(Assign(v, s, x), s, y) == Assign(v, s, y)
  {
  }

  lemma AssignCommute(v: Value, s: Step, x: Value, t: Step, y: Value)
    requires s != t
    ensures Assign(Assign(v, s, x), t, y) == Assign(Assign(v, t, y), s, x)
  {
  }

  lemma AssignableAssign(v: Value, s: Step, x: Value, t: Step)
    ensures Assignable(Assign(v, s, x), t) == Assignable(v, t)
  {
  }

  // ---- paths ----

  predicate Prefix(p: Path, q: Path) {
    |p| <= |q| && q[..|p|] == p
  }

  /** Neither path leads into the other: assignments at one leave the other's entry alone. */
  predicate Disjoint(p: Path, q: Path) {
    !Prefix(p, q) && !Prefix(q, p)
  }

  lemma DisjointTails(p: Path, q: Path)
    requires p != [] && q != [] && p[0] == q[0]
    ensures Disjoint(p, q) == Disjoint(p[1..], q[1..])
  {
    if |p| <= |q| {
      assert q[..|p|] == [q[0]] + q[1..][..|p| - 1];
      assert p == [p[0]] + p[1..];
    }
    if |q| <= |p| {
      assert p[..|q|] == [p[0]] + p[1..][..|q| - 1];
      assert q == [q[0]] + q[1..];
    }
  }

  /** After `v[p] = x`, subscripting `p` yields `x`. */
  lemma {:induction false} GetSetSame(v: Value, p: Path, x: Value)
    requires CanSet(v, p)
    ensures Get(Set(v, p, x), p) == Some(x)
    decreases |p|
  {
    if |p| == 1 {
      ChildAssignSame(v, p[0], x);
    } else {
      var c := Child(v, p[0]).value;
      GetSetSame(c, p[1..], x);
      assert Assignable(v, p[0]);
      ChildAssignSame(v, p[0], Set(c, p[1..], x));
    }
  }

  /** After `v[p] = x`, every entry on a path disjoint from `p` is what it was. */
  lemma {:induction false} GetSetOther(v: Value, p: Path, x: Value, q: Path)
    requires Disjoint(p, q)
    ensures Get(Set(v, p, x), q) == Get(v, q)
    decreases |p|
  {
    assert p != [] && q != [];
    if p[0] != q[0] {
      if |p| == 1 {
        ChildAssignOther(v, p[0], x, q[0]);
      } else if Child(v, p[0]).Some? {
        ChildAssignOther(v, p[0], Set(Child(v, p[0]).value, p[1..], x), q[0]);
      }
    } else {
      DisjointTails(p, q);
      assert |p| > 1 && |q| > 1;
      match Child(v, p[0])
      case Some(c) =>
        GetSetOther(c, p[1..], x, q[1..]);
        assert Assignable(v, p[0]);
        ChildAssignSame(v, p[0], Set(c, p[1..], x));
      case None =>
    }
  }

  /** An assignment at a disjoint path keeps `q` assignable. */
  lemma {:induction false} CanSetOther(v: Value, p: Path, x: Value, q: Path)
    requires Disjoint(p, q) && CanSet(v, q)
    ensures CanSet(Set(v, p, x), q)
    decreases |p|
  {
    var v' := Set(v, p, x);
    if |p| == 1 {
      AssignableAssign(v, p[0], x, q[0]);
      if |q| > 1 {
        ChildAssignOther(v, p[0], x, q[0]);
      }
    } else if Child(v, p[0]).Some? {
      var c := Child(v, p[0]).value;
      var c' := Set(c, p[1..], x);
      AssignableAssign(v, p[0], c', q[0]);
      if |q| > 1 {
        if p[0] != q[0] {
          ChildAssignOther(v, p[0], c', q[0]);
        } else {
          DisjointTails(p, q);
          assert Assignable(v, p[0]);
          ChildAssignSame(v, p[0], c');
          CanSetOther(c, p[1..], x, q[1..]);
        }
      }
    }
  }

  /** A second assignment at the same path overrides the first. */
  lemma {:induction false} SetSet(v: Value, p: Path, x: Value, y: Value)
    ensures Set(Set(v, p, x), p, y) == Set(v, p, y)
    decreases |p|
  {
    if |p| == 1 {
      AssignAssign(v, p[0], x, y);
    } else if |p| > 1 {
      match Child(v, p[0])
      case Some(c) =>
        assert Assignable(v, p[0]);
        ChildAssignSame(v, p[0], Set(c, p[1..], x));
        SetSet(c, p[1..], x, y);
        AssignAssign(v, p[0], Set(c, p[1..], x), Set(Set(c, p[1..], x), p[1..], y));
      case None =>
    }
  }

  /** Assignments at disjoint paths can be made in either order. */
  lemma {:induction false} SetCommute(v: Value, p: Path, x: Value, q: Path, y: Value)
    requires Disjoint(p, q)
    ensures Set(Set(v, p, x), q, y) == Set(Set(v, q, y), p, x)
    decreases |p|
  {
    if p[0] != q[0] {
      SetCommuteHeads(v, p, x, q, y);
    } else {
      DisjointTails(p, q);
      assert |p| > 1 && |q| > 1;
      match Child(v, p[0])
      case Some(c) =>
        assert Assignable(v, p[0]);
        var cp := Set(c, p[1..], x);
        var cq := Set(c, q[1..], y);
        ChildAssignSame(v, p[0], cp);
        ChildAssignSame(v, p[0], cq);
        SetCommute(c, p[1..], x, q[1..], y);
        AssignAssign(v, p[0], cp, Set(cp, q[1..], y));
        AssignAssign(v, p[0], cq, Set(cq, p[1..], x));
      case None =>
    }
  }

  /** The new child `v[p] = x` writes at the first subscript of `p`, if the assignment goes ahead. */
  function NewChild(v: Value, p: Path, x: Value): Option<Value>
    requires p != []
  {
    if |p| == 1 then Some(x)
    else match Child(v, p[0])
      case Some(c) => Some(Set(c, p[1..], x))
      case None => None
  }

  lemma SetByHead(v: Value, p: Path, x: Value)
    requires p != []
    ensures Set(v, p, x) == if NewChild(v, p, x).Some? then Assign(v, p[0], NewChild(v, p, x).value) else v
  {
  }

  /** Assigning at another first subscript does not change the child written at `p[0]`. */
  lemma NewChildOther(v: Value, p: Path, x: Value, t: Step, z: Value)
    requires p != [] && t != p[0]
    ensures NewChild(Assign(v, t, z), p, x) == NewChild(v, p, x)
  {
    ChildAssignOther(v, t, z, p[0]);
  }

  lemma SetCommuteHeads(v: Value, p: Path, x: Value, q: Path, y: Value)
    requires p != [] && q != [] && p[0] != q[0]
    ensures Set(Set(v, p, x), q, y) == Set(Set(v, q, y), p, x)
  {
    var s, t := p[0], q[0];
    var xs, yt := NewChild(v, p, x), NewChild(v, q, y);
    SetByHead(v, p, x);
    SetByHead(v, q, y);
    var vp, vq := Set(v, p, x), Set(v, q, y);
    SetByHead(vp, q, y);
    SetByHead(vq, p, x);
    if xs.Some? {
      NewChildOther(v, q, y, s, xs.value);
    }
    if yt.Some? {
      NewChildOther(v, p, x, t, yt.value);
    }
    if xs.Some? && yt.Some? {
      AssignCommute(v, s, xs.value, t, yt.value);
    }
  }
}
