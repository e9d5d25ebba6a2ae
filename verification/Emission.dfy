/** generate_struct's recursion: nested classes first, each class once, through one shared `visited` set. */
module Emission {
  import opened Wrappers
  import opened Schema
  import opened Generator

  /** One class definition written to the output. */
  datatype Emitted = Emitted(layout: Layout, code: ClassDef)

  /** The struct a field nests by value, directly or as the element of an array. */
  function SubLayout(t: CType): Option<Layout> {
    match t
    case Class(l) => Some(l)
    case Array(elem, _, _) => if elem.Class? then Some(elem.layout) else None
    case _ => None
  }

  /** Every struct reachable by value from `t`. */
  ghost function Parts(t: CType): set<Layout>
    decreases t
  {
    match t
    case Class(l) => {l} + set k, p | 0 <= k < |l.fields| && p in Parts(l.fields[k].ty) :: p
    case Array(elem, _, _) => if elem.Class? then Parts(elem) else {}
    case _ => {}
  }

  function Max(a: nat, b: nat): nat { if a < b then b else a }

  /** Nesting depth; by-value nesting is acyclic, so a struct is deeper than what it contains. */
  function Depth(t: CType): nat
    decreases t
  {
    match t
    case Class(l) => 1 + FieldsDepth(l.fields)
    case Array(elem, _, _) => Depth(elem)
    case _ => 0
  }

  function FieldsDepth(fs: seq<Field>): nat
    decreases fs
  {
    if fs == [] then 0 else Max(Depth(fs[0].ty), FieldsDepth(fs[1..]))
  }

  lemma {:induction false} FieldDepth(fs: seq<Field>, k: nat)
    requires k < |fs|
    ensures Depth(fs[k].ty) <= FieldsDepth(fs)
    decreases k
  {
    if k > 0 {
      FieldDepth(fs[1..], k - 1);
    }
  }

  lemma SubIsShallower(l: Layout, k: nat)
    requires k < |l.fields| && SubLayout(l.fields[k].ty).Some?
    ensures Depth(Class(SubLayout(l.fields[k].ty).value)) < Depth(Class(l))
    ensures Parts(Class(SubLayout(l.fields[k].ty).value)) == Parts(l.fields[k].ty)
  {
    FieldDepth(l.fields, k);
  }

  ghost function Layouts(out: seq<Emitted>): set<Layout> {
    set i | 0 <= i < |out| :: out[i].layout
  }

  ghost function Names(ls: set<Layout>): set<string> {
    set l | l in ls :: l.name
  }

  ghost predicate DistinctNames(universe: set<Layout>) {
    forall a, b | a in universe && b in universe && a.name == b.name :: a == b
  }

  ghost predicate EachOnce(out: seq<Emitted>) {
    forall i, j | 0 <= i < j < |out| :: out[i].layout != out[j].layout
  }

  ghost predicate SubsBefore(out: seq<Emitted>, i: nat)
    requires i < |out|
  {
    forall k | 0 <= k < |out[i].layout.fields| ::
      SubLayout(out[i].layout.fields[k].ty).Some? ==> SubLayout(out[i].layout.fields[k].ty).value in Layouts(out[..i])
  }

  ghost predicate Topological(out: seq<Emitted>) {
    forall i | 0 <= i < |out| :: SubsBefore(out, i)
  }

  ghost predicate Translated(out: seq<Emitted>) {
    forall i | 0 <= i < |out| :: out[i].code == ClassOf(out[i].layout)
  }

  /** What holds whenever generate_struct is entered or left; `open` are the structs being generated. */
  ghost predicate Inv(visited: set<string>, out: seq<Emitted>, open: set<Layout>, universe: set<Layout>) {
    && visited == Names(Layouts(out) + open)
    && Layouts(out) + open <= universe
    && Layouts(out) !! open
    && EachOnce(out) && Topological(out) && Translated(out)
  }

  lemma LayoutsAppend(a: seq<Emitted>, b: seq<Emitted>)
    ensures Layouts(a + b) == Layouts(a) + Layouts(b)
  {
    forall l | l in Layouts(a) + Layouts(b) ensures l in Layouts(a + b) {
      if l in Layouts(a) {
        var i :| 0 <= i < |a| && a[i].layout == l;
        assert (a + b)[i].layout == l;
      } else {
        var i :| 0 <= i < |b| && b[i].layout == l;
        assert (a + b)[|a| + i].layout == l;
      }
    }
  }

  lemma LayoutsPrefix(out: seq<Emitted>, i: nat)
    requires i <= |out|
    ensures Layouts(out[..i]) <= Layouts(out)
  {
    LayoutsAppend(out[..i], out[i..]);
    assert out == out[..i] + out[i..];
  }

  /** Once a struct is out, so is everything it contains. */
  lemma {:induction false} PartsAreOut(out: seq<Emitted>, l: Layout)
    requires Topological(out) && l in Layouts(out)
    ensures Parts(Class(l)) <= Layouts(out)
    decreases Depth(Class(l))
  {
    var i :| 0 <= i < |out| && out[i].layout == l;
    forall p | p in Parts(Class(l)) ensures p in Layouts(out) {
      if p != l {
        var k :| 0 <= k < |l.fields| && p in Parts(l.fields[k].ty);
        var s := SubLayout(l.fields[k].ty).value;
        SubIsShallower(l, k);
        assert SubsBefore(out, i);
        LayoutsPrefix(out, i);
        PartsAreOut(out, s);
      }
    }
  }

  lemma TopologicalSnoc(out: seq<Emitted>, e: Emitted)
    requires Topological(out) && EachOnce(out) && e.layout !in Layouts(out)
    requires forall k | 0 <= k < |e.layout.fields| ::
               SubLayout(e.layout.fields[k].ty).Some? ==> SubLayout(e.layout.fields[k].ty).value in Layouts(out)
    ensures Topological(out + [e]) && EachOnce(out + [e]) && Layouts(out + [e]) == Layouts(out) + {e.layout}
  {
    var all := out + [e];
    LayoutsAppend(out, [e]);
    assert Layouts([e]) == {e.layout} by {
      assert [e][0].layout == e.layout;
    }
    forall i | 0 <= i < |all| ensures SubsBefore(all, i) {
      if i < |out| {
        assert SubsBefore(out, i) && all[..i] == out[..i];
      } else {
        assert all[..i] == out;
      }
    }
    forall i, j | 0 <= i < j < |all| ensures all[i].layout != all[j].layout {
      assert i < |out| && all[i].layout in Layouts(out);
    }
  }

  /** The structs nested in the first `k` fields. */
  ghost function FieldParts(l: Layout, k: nat): set<Layout>
    requires k <= |l.fields|
  {
    set j, p | 0 <= j < k && p in Parts(l.fields[j].ty) :: p
  }

  lemma FieldPartsSnoc(l: Layout, k: nat)
    requires k < |l.fields|
    ensures FieldParts(l, k + 1) == FieldParts(l, k) + Parts(l.fields[k].ty)
    ensures Parts(l.fields[k].ty) <= Parts(Class(l))
    ensures SubLayout(l.fields[k].ty).None? ==> Parts(l.fields[k].ty) == {}
    ensures SubLayout(l.fields[k].ty).Some? ==> SubLayout(l.fields[k].ty).value in Parts(l.fields[k].ty)
  {
  }

  ghost predicate SubsOut(l: Layout, k: nat, out: seq<Emitted>)
    requires k <= |l.fields|
  {
    forall j | 0 <= j < k :: SubLayout(l.fields[j].ty).Some? ==> SubLayout(l.fields[j].ty).value in Layouts(out)
  }

  /** A visited name belongs to a struct already out, never to one still being generated: those are deeper. */
  lemma VisitedIsOut(l: Layout, visited: set<string>, out: seq<Emitted>, open: set<Layout>, universe: set<Layout>)
    requires DistinctNames(universe) && l in universe && Inv(visited, out, open, universe)
    requires forall p | p in open :: Depth(Class(l)) < Depth(Class(p))
    requires l.name in visited
    ensures Layouts(out) == Layouts(out) + Parts(Class(l))
  {
    var m :| m in Layouts(out) + open && m.name == l.name;
    assert m == l;
    PartsAreOut(out, l);
  }

  lemma Open(l: Layout, visited: set<string>, out: seq<Emitted>, open: set<Layout>, universe: set<Layout>)
    requires l in universe && Inv(visited, out, open, universe) && l.name !in visited
    ensures Inv(visited + {l.name}, out, open + {l}, universe) && l !in open
  {
    assert l !in Layouts(out) + open;
  }

  lemma Close(l: Layout, visited: set<string>, out: seq<Emitted>, open: set<Layout>, universe: set<Layout>)
    requires Inv(visited, out, open + {l}, universe) && l !in open && SubsOut(l, |l.fields|, out)
    ensures Inv(visited, out + [Emitted(l, ClassOf(l))], open, universe)
    ensures Layouts(out + [Emitted(l, ClassOf(l))]) == Layouts(out) + {l}
  {
    TopologicalSnoc(out, Emitted(l, ClassOf(l)));
    assert Layouts(out) + {l} + open == Layouts(out) + (open + {l});
  }

  /**
    generate_struct<T>(visited): emits `l` and all it contains, unless the name was visited.
    `open` and `universe` only serve the proof.
   */
  method GenerateStruct(l: Layout, visited: set<string>, out: seq<Emitted>, ghost open: set<Layout>,
      ghost universe: set<Layout>)
    returns (visited': set<string>, out': seq<Emitted>)
    requires DistinctNames(universe) && Parts(Class(l)) <= universe
    requires Inv(visited, out, open, universe)
    requires forall p | p in open :: Depth(Class(l)) < Depth(Class(p))
    ensures Inv(visited', out', open, universe)
    ensures out <= out'
    ensures Layouts(out') == Layouts(out) + Parts(Class(l))
    decreases Depth(Class(l))
  {
    hide Inv, DistinctNames, Layouts;
    assert l in Parts(Class(l));
    if l.name in visited {
      VisitedIsOut(l, visited, out, open, universe);
      return visited, out;
    }
    visited', out' := visited + {l.name}, out;
    Open(l, visited, out, open, universe);
    assert FieldParts(l, 0) == {};
    for k := 0 to |l.fields|
      invariant Inv(visited', out', open + {l}, universe)
      invariant out <= out'
      invariant Layouts(out') == Layouts(out) + FieldParts(l, k)
      invariant SubsOut(l, k, out')
    {
      FieldPartsSnoc(l, k);
      var sub := SubLayout(l.fields[k].ty);
      if sub.Some? {
        SubIsShallower(l, k);
        visited', out' := GenerateStruct(sub.value, visited', out', open + {l}, universe);
      }
    }
    Close(l, visited', out', open, universe);
    var code := EmitClass(l);
    out' := out' + [Emitted(l, code)];
    assert Parts(Class(l)) == FieldParts(l, |l.fields|) + {l};
  }

  ghost function AllParts(roots: seq<Layout>): set<Layout> {
    set i, p | 0 <= i < |roots| && p in Parts(Class(roots[i])) :: p
  }

  lemma AllPartsSnoc(roots: seq<Layout>, k: nat)
    requires k < |roots|
    ensures AllParts(roots[..k + 1]) == AllParts(roots[..k]) + Parts(Class(roots[k]))
    ensures Parts(Class(roots[k])) <= AllParts(roots)
  {
    var before, after := roots[..k], roots[..k + 1];
    forall p | p in AllParts(before) + Parts(Class(roots[k])) ensures p in AllParts(after) {
      if p in AllParts(before) {
        var i :| 0 <= i < k && p in Parts(Class(before[i]));
        assert after[i] == before[i];
      } else {
        assert after[k] == roots[k];
      }
    }
    forall p | p in AllParts(after) ensures p in AllParts(before) + Parts(Class(roots[k])) {
      var i :| 0 <= i < k + 1 && p in Parts(Class(after[i]));
      assert i < k ==> before[i] == after[i];
    }
  }

  /**
    main(): all roots through one visited set. Exactly the reachable structs come out, once each, nested ones first.
   */
  method GenerateBindings(roots: seq<Layout>) returns (out: seq<Emitted>)
    requires DistinctNames(AllParts(roots))
    ensures Layouts(out) == AllParts(roots)
    ensures EachOnce(out) && Topological(out) && Translated(out)
  {
    hide DistinctNames, Layouts, AllParts;
    out := [];
    var visited: set<string> := {};
    Start(AllParts(roots));
    assert roots[..0] == [];
    for k := 0 to |roots|
      invariant Inv(visited, out, {}, AllParts(roots))
      invariant Layouts(out) == AllParts(roots[..k])
    {
      AllPartsSnoc(roots, k);
      visited, out := GenerateStruct(roots[k], visited, out, {}, AllParts(roots));
    }
    assert roots[..|roots|] == roots;
  }

  lemma Start(universe: set<Layout>)
    ensures Inv({}, [], {}, universe) && Layouts([]) == {} == AllParts([])
  {
  }
}
