/**
  The walk both descriptor extractors perform over a struct type: every field
  in declaration order, descending into struct-typed fields with the prefix
  extended by the lower-cased field name and ".", and producing one leaf for
  every field that is not a struct. Each leaf records the index path that
  reaches it, so that the walk can be compared with a definition that does
  not walk: the leaf paths of a type, their dotted names and their order.
 */
module FieldWalk {
  import opened Reflect

  /** One leaf the walk reaches: the field indices from the walked type down
      to it, the dotted name the walk built for it, and the field itself. */
  datatype Leaf = Leaf(path: seq<nat>, name: string, field: Field)

  /** The leaves of t, in the order the walk appends them, each named with
      the given prefix in front. */
  function Leaves(t: Type, prefix: string): seq<Leaf>
    decreases t, |t.fields| + 1
  {
    LeavesUpTo(t, prefix, |t.fields|)
  }

  /** The leaves the walk has produced after the first n fields of t. */
  function LeavesUpTo(t: Type, prefix: string, n: nat): seq<Leaf>
    requires n <= |t.fields|
    decreases t, n
  {
    if n == 0 then []
    else
      var f := t.fields[n - 1];
      var name := ToLower(f.name);
      LeavesUpTo(t, prefix, n - 1) +
        if IsStruct(f.typ) then Under(n - 1, Leaves(f.typ, prefix + name + "."))
        else [Leaf([n - 1], prefix + name, f)]
  }

  /** Leaves of a nested struct, re-rooted under field i of its parent. */
  function Under(i: nat, ls: seq<Leaf>): seq<Leaf>
  {
    seq(|ls|, j requires 0 <= j < |ls| => ls[j].(path := [i] + ls[j].path))
  }

  // ---------------------------------------------------------------------------
  // The reference definitions: leaf paths, their fields, names and order

  /** p selects a field of t, then a field of that field's struct type, and
      so on, passing only through struct-typed fields and ending at a field
      whose type is not a struct. */
  predicate IsLeafPath(t: Type, p: seq<nat>)
    decreases t
  {
    && |p| > 0
    && p[0] < |t.fields|
    && var f := t.fields[p[0]];
       if |p| == 1 then !IsStruct(f.typ)
       else IsStruct(f.typ) && IsLeafPath(f.typ, p[1..])
  }

  /** The field a leaf path ends at. */
  function FieldAt(t: Type, p: seq<nat>): Field
    requires IsLeafPath(t, p)
    decreases t
  {
    var f := t.fields[p[0]];
    if |p| == 1 then f else FieldAt(f.typ, p[1..])
  }

  /** The lower-cased names of the fields along a leaf path, joined by ".". */
  function DottedName(t: Type, p: seq<nat>): string
    requires IsLeafPath(t, p)
    decreases t
  {
    var f := t.fields[p[0]];
    if |p| == 1 then ToLower(f.name) else ToLower(f.name) + "." + DottedName(f.typ, p[1..])
  }

  /** p comes strictly before q in declaration order: at the first index
      where they differ, p selects an earlier field. */
  predicate LexLess(p: seq<nat>, q: seq<nat>)
  {
    |p| > 0 && |q| > 0 && (p[0] < q[0] || (p[0] == q[0] && LexLess(p[1..], q[1..])))
  }

  /** The number of non-struct fields of t at any depth. */
  function LeafCount(t: Type): nat
    decreases t, |t.fields| + 1
  {
    LeafCountUpTo(t, |t.fields|)
  }

  function LeafCountUpTo(t: Type, n: nat): nat
    requires n <= |t.fields|
    decreases t, n
  {
    if n == 0 then 0
    else LeafCountUpTo(t, n - 1) + if IsStruct(t.fields[n - 1].typ) then LeafCount(t.fields[n - 1].typ) else 1
  }

  // ---------------------------------------------------------------------------
  // What the walk produces

  /** leaf sits at a leaf path of t, is named by the prefix followed by the
      dotted name of that path, and carries the field at that path. */
  predicate DescribesLeaf(t: Type, prefix: string, leaf: Leaf)
  {
    && IsLeafPath(t, leaf.path)
    && leaf.name == prefix + DottedName(t, leaf.path)
    && leaf.field == FieldAt(t, leaf.path)
  }

  /** A leaf of a nested struct, re-rooted under its field k, describes the
      same field of the parent, named through field k. */
  lemma DescribesUnder(t: Type, prefix: string, k: nat, leaf: Leaf)
    requires k < |t.fields| && IsStruct(t.fields[k].typ)
    requires DescribesLeaf(t.fields[k].typ, prefix + ToLower(t.fields[k].name) + ".", leaf)
    ensures DescribesLeaf(t, prefix, leaf.(path := [k] + leaf.path))
  {
    var f := t.fields[k];
    var p := [k] + leaf.path;
    assert p[1..] == leaf.path;
    assert DottedName(t, p) == ToLower(f.name) + "." + DottedName(f.typ, leaf.path);
  }

  /** The leaves of a nested struct, all re-rooted under field k, describe
      fields of the parent reached through field k. */
  lemma DescribesAllUnder(t: Type, prefix: string, k: nat, sub: seq<Leaf>)
    requires k < |t.fields| && IsStruct(t.fields[k].typ)
    requires forall j | 0 <= j < |sub| :: DescribesLeaf(t.fields[k].typ, prefix + ToLower(t.fields[k].name) + ".", sub[j])
    ensures forall j | 0 <= j < |Under(k, sub)| ::
      DescribesLeaf(t, prefix, Under(k, sub)[j]) && Under(k, sub)[j].path[0] == k
  {
    forall j | 0 <= j < |sub| ensures DescribesLeaf(t, prefix, Under(k, sub)[j]) && Under(k, sub)[j].path[0] == k {
      DescribesUnder(t, prefix, k, sub[j]);
    }
  }

  /** Every leaf of the walk sits at a leaf path (so only non-struct fields
      become leaves), with the name and field that path determines. */
  lemma {:induction false} LeavesSound(t: Type, prefix: string, n: nat)
    requires n <= |t.fields|
    ensures forall i | 0 <= i < |LeavesUpTo(t, prefix, n)| ::
      DescribesLeaf(t, prefix, LeavesUpTo(t, prefix, n)[i]) && LeavesUpTo(t, prefix, n)[i].path[0] < n
    decreases t, n
  {
    if n > 0 {
      LeavesSound(t, prefix, n - 1);
      var f := t.fields[n - 1];
      var name := ToLower(f.name);
      var before := LeavesUpTo(t, prefix, n - 1);
      var ls := LeavesUpTo(t, prefix, n);
      var added := ls[|before|..];
      assert ls == before + added;
      forall i | 0 <= i < |before| ensures DescribesLeaf(t, prefix, ls[i]) && ls[i].path[0] < n {
        assert ls[i] == before[i];
      }
      if IsStruct(f.typ) {
        var prefix' := prefix + name + ".";
        var sub := LeavesUpTo(f.typ, prefix', |f.typ.fields|);
        LeavesSound(f.typ, prefix', |f.typ.fields|);
        DescribesAllUnder(t, prefix, n - 1, sub);
        assert added == Under(n - 1, sub);
        forall i | |before| <= i < |ls| ensures DescribesLeaf(t, prefix, ls[i]) && ls[i].path[0] < n {
          assert ls[i] == added[i - |before|];
        }
      } else {
        assert added == [Leaf([n - 1], prefix + name, f)];
        assert DottedName(t, [n - 1]) == name;
      }
    }
  }

  /** Every leaf path of t is reached by the walk: i is where. */
  lemma {:induction false} LeavesComplete(t: Type, prefix: string, n: nat, p: seq<nat>) returns (i: nat)
    requires n <= |t.fields|
    requires IsLeafPath(t, p) && p[0] < n
    ensures i < |LeavesUpTo(t, prefix, n)| && LeavesUpTo(t, prefix, n)[i].path == p
    decreases t, n
  {
    var f := t.fields[n - 1];
    if p[0] < n - 1 {
      i := LeavesComplete(t, prefix, n - 1, p);
      LeavesUpToExtends(t, prefix, n, i);
    } else if |p| == 1 {
      i := |LeavesUpTo(t, prefix, n - 1)|;
      LeavesUpToScalar(t, prefix, n);
    } else {
      var j := LeavesComplete(f.typ, prefix + ToLower(f.name) + ".", |f.typ.fields|, p[1..]);
      i := |LeavesUpTo(t, prefix, n - 1)| + j;
      LeavesUpToNested(t, prefix, n, j);
      assert [n - 1] + p[1..] == p;
    }
  }

  /** The walk only appends: the first fields' leaves stay where they are. */
  lemma LeavesUpToExtends(t: Type, prefix: string, n: nat, i: nat)
    requires 0 < n <= |t.fields| && i < |LeavesUpTo(t, prefix, n - 1)|
    ensures i < |LeavesUpTo(t, prefix, n)| && LeavesUpTo(t, prefix, n)[i] == LeavesUpTo(t, prefix, n - 1)[i]
  {
  }

  /** A field n - 1 that is not a struct is the leaf after those of the
      fields before it, at path [n - 1]. */
  lemma LeavesUpToScalar(t: Type, prefix: string, n: nat)
    requires 0 < n <= |t.fields| && !IsStruct(t.fields[n - 1].typ)
    ensures |LeavesUpTo(t, prefix, n - 1)| < |LeavesUpTo(t, prefix, n)|
    ensures LeavesUpTo(t, prefix, n)[|LeavesUpTo(t, prefix, n - 1)|].path == [n - 1]
  {
  }

  /** The j-th leaf of a struct-typed field n - 1 follows the leaves of the
      fields before it, its path re-rooted under n - 1. */
  lemma LeavesUpToNested(t: Type, prefix: string, n: nat, j: nat)
    requires 0 < n <= |t.fields| && IsStruct(t.fields[n - 1].typ)
    requires j < |Leaves(t.fields[n - 1].typ, prefix + ToLower(t.fields[n - 1].name) + ".")|
    ensures |LeavesUpTo(t, prefix, n - 1)| + j < |LeavesUpTo(t, prefix, n)|
    ensures LeavesUpTo(t, prefix, n)[|LeavesUpTo(t, prefix, n - 1)| + j].path ==
      [n - 1] + Leaves(t.fields[n - 1].typ, prefix + ToLower(t.fields[n - 1].name) + ".")[j].path
  {
    var sub := Leaves(t.fields[n - 1].typ, prefix + ToLower(t.fields[n - 1].name) + ".");
    assert LeavesUpTo(t, prefix, n) == LeavesUpTo(t, prefix, n - 1) + Under(n - 1, sub);
  }

  lemma {:induction false} LexLessIrreflexive(p: seq<nat>)
    ensures !LexLess(p, p)
    decreases |p|
  {
    if |p| > 0 { LexLessIrreflexive(p[1..]); }
  }

  lemma LexLessUnder(k: nat, p: seq<nat>, q: seq<nat>)
    requires LexLess(p, q)
    ensures LexLess([k] + p, [k] + q)
  {
    assert ([k] + p)[1..] == p;
    assert ([k] + q)[1..] == q;
  }

  /** The walk lists leaves in declaration order, depth first: each leaf's
      path comes strictly before the path of every later leaf. */
  lemma {:induction false} LeavesOrdered(t: Type, prefix: string, n: nat)
    requires n <= |t.fields|
    ensures forall i, j | 0 <= i < j < |LeavesUpTo(t, prefix, n)| ::
      LexLess(LeavesUpTo(t, prefix, n)[i].path, LeavesUpTo(t, prefix, n)[j].path)
    decreases t, n
  {
    if n > 0 {
      LeavesOrdered(t, prefix, n - 1);
      LeavesSound(t, prefix, n - 1);
      var f := t.fields[n - 1];
      var name := ToLower(f.name);
      var before := LeavesUpTo(t, prefix, n - 1);
      var ls := LeavesUpTo(t, prefix, n);
      var added := ls[|before|..];
      assert ls == before + added;
      if IsStruct(f.typ) {
        var prefix' := prefix + name + ".";
        var sub := LeavesUpTo(f.typ, prefix', |f.typ.fields|);
        assert Leaves(f.typ, prefix') == sub;
        LeavesOrdered(f.typ, prefix', |f.typ.fields|);
        LeavesSound(f.typ, prefix', |f.typ.fields|);
        assert added == Under(n - 1, sub);
        forall i, j | 0 <= i < j < |added| ensures LexLess(added[i].path, added[j].path) {
          LexLessUnder(n - 1, sub[i].path, sub[j].path);
        }
        forall i | 0 <= i < |added| ensures |added[i].path| > 0 && added[i].path[0] == n - 1 {
          assert added[i].path == [n - 1] + sub[i].path;
        }
      } else {
        assert added == [Leaf([n - 1], prefix + name, f)];
      }
      forall i, j | 0 <= i < j < |ls| ensures LexLess(ls[i].path, ls[j].path) {
        if j >= |before| && i < |before| {
          assert ls[i] == before[i] && DescribesLeaf(t, prefix, before[i]);
          assert ls[j] == added[j - |before|];
        } else if j >= |before| {
          assert ls[i] == added[i - |before|] && ls[j] == added[j - |before|];
        } else {
          assert ls[i] == before[i] && ls[j] == before[j];
        }
      }
    }
  }

  /** The walk yields exactly LeafCount(t) leaves. */
  lemma {:induction false} LeavesCount(t: Type, prefix: string, n: nat)
    requires n <= |t.fields|
    ensures |LeavesUpTo(t, prefix, n)| == LeafCountUpTo(t, n)
    decreases t, n
  {
    if n > 0 {
      LeavesCount(t, prefix, n - 1);
      var f := t.fields[n - 1];
      if IsStruct(f.typ) {
        LeavesCount(f.typ, prefix + ToLower(f.name) + ".", |f.typ.fields|);
      }
    }
  }

  /** The whole of what the walk of a struct type produces: one leaf for each
      leaf path, listed once, in declaration order, named by the prefix and
      the dotted lower-cased path, and carrying the field at that path. */
  lemma WalkCharacterized(t: Type, prefix: string)
    ensures |Leaves(t, prefix)| == LeafCount(t)
    ensures forall i | 0 <= i < |Leaves(t, prefix)| :: DescribesLeaf(t, prefix, Leaves(t, prefix)[i])
    ensures forall p | IsLeafPath(t, p) ::
      exists i :: 0 <= i < |Leaves(t, prefix)| && Leaves(t, prefix)[i].path == p
    ensures forall i, j | 0 <= i < j < |Leaves(t, prefix)| ::
      LexLess(Leaves(t, prefix)[i].path, Leaves(t, prefix)[j].path) && Leaves(t, prefix)[i].path != Leaves(t, prefix)[j].path
  {
    var ls := Leaves(t, prefix);
    var n := |t.fields|;
    LeavesCount(t, prefix, n);
    LeavesSound(t, prefix, n);
    LeavesOrdered(t, prefix, n);
    forall p | IsLeafPath(t, p) ensures exists i :: 0 <= i < |ls| && ls[i].path == p {
      var i := LeavesComplete(t, prefix, n, p);
    }
    forall i, j | 0 <= i < j < |ls| ensures ls[i].path != ls[j].path {
      LexLessIrreflexive(ls[i].path);
    }
  }
}
