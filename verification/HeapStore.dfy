/** Reading and writing at a location, through cells. */
module HeapStore {
  import opened Values
  import opened ByteCode
  import opened Cells
  import opened HeapEnv
  import Machine

  // ---------------------------------------------------------------- paths on values

  lemma {:induction false} ReadPathAppend(v: Value, a: seq<PathStep>, b: seq<PathStep>)
    ensures ReadPath(v, a + b) == (var r := ReadPath(v, a); if r.Failure? then r else ReadPath(r.value, b))
    decreases a
  {
    if a == [] {
      assert a + b == b;
    } else {
      assert (a + b)[1..] == a[1..] + b;
      var inner := ReadStep(v, a[0]);
      if inner.Success? {
        ReadPathAppend(inner.value, a[1..], b);
      }
    }
  }

  lemma {:induction false} ReadPathPanics(v: Value, steps: seq<PathStep>)
    ensures ReadPath(v, steps).Failure? ==> IsPanic(ReadPath(v, steps).error)
  {
    if steps != [] && ReadStep(v, steps[0]).Success? {
      ReadPathPanics(ReadStep(v, steps[0]).value, steps[1..]);
    }
  }

  lemma {:induction false} PathStepsPanics(e: Machine.Env, path: seq<FieldAccess>)
    ensures Machine.PathSteps(e, path).Failure? ==> IsPanic(Machine.PathSteps(e, path).error)
  {
    if path != [] {
      PathStepsPanics(e, path[1..]);
    }
  }

  lemma FetchPanics(e: Machine.Env, loc: Location)
    ensures Machine.Fetch(e, loc).Failure? ==> IsPanic(Machine.Fetch(e, loc).error)
  {
    hide Machine.PathSteps, ReadPath;
    if loc.Compound? && Machine.Get(e, loc.root).Some? {
      PathStepsPanics(e, loc.path);
      var steps := Machine.CompoundSteps(e, loc.rootIndex, loc.path);
      if steps.Success? {
        ReadPathPanics(Machine.Get(e, loc.root).value, steps.value);
      }
    }
  }

  /** The steps one path element takes. */
  function AccessSteps(e: Machine.Env, a: FieldAccess): Option<seq<PathStep>> {
    match a
    case Field(f) => Some([ToField(f)])
    case FieldIndex(f, x) =>
      var i := Machine.Get(e, x);
      if i.None? then None else Some([ToField(f), ToIndex(i.value)])
  }

  /** The steps of a path: those of its first access, then those of the rest. */
  lemma PathStepsFirst(e: Machine.Env, path: seq<FieldAccess>)
    requires path != []
    ensures var all, here, rest := Machine.PathSteps(e, path), AccessSteps(e, path[0]), Machine.PathSteps(e, path[1..]);
      && (all.Success? <==> here.Some? && rest.Success?)
      && (all.Success? ==> all.value == here.value + rest.value)
  {
  }

  lemma {:induction false} PathStepsSplit(e: Machine.Env, path: seq<FieldAccess>, k: nat)
    requires k < |path|
    ensures var all, before, here, after :=
        Machine.PathSteps(e, path), Machine.PathSteps(e, path[..k]), AccessSteps(e, path[k]), Machine.PathSteps(e, path[k + 1..]);
      && (all.Success? <==> before.Success? && here.Some? && after.Success?)
      && (all.Success? ==> all.value == before.value + here.value + after.value)
  {
    PathStepsFirst(e, path);
    if k == 0 {
      assert path[..0] == [];
      assert Machine.PathSteps(e, []) == Success([]);
    } else {
      hide Machine.PathSteps, AccessSteps;
      assert path[..k][0] == path[0] && path[..k][1..] == path[1..][..k - 1] && path[1..][k..] == path[k + 1..];
      PathStepsSplit(e, path[1..], k - 1);
      PathStepsFirst(e, path[..k]);
    }
  }

  lemma PathStepsNext(e: Machine.Env, path: seq<FieldAccess>, k: nat)
    requires k < |path| && Machine.PathSteps(e, path[..k]).Success? && AccessSteps(e, path[k]).Some?
    ensures Machine.PathSteps(e, path[..k + 1]) == Success(Machine.PathSteps(e, path[..k]).value + AccessSteps(e, path[k]).value)
  {
    assert path[..k + 1][..k] == path[..k] && path[..k + 1][k + 1..] == [];
    assert path[..k + 1][k] == path[k] && Machine.PathSteps(e, []) == Success([]);
    PathStepsSplit(e, path[..k + 1], k);
    var all := Machine.PathSteps(e, path[..k]).value + AccessSteps(e, path[k]).value;
    assert all + [] == all;
  }

  // ---------------------------------------------------------------- following one step in the heap

  lemma {:induction false} LeadsNext(h: Heap, c: Cell, steps: seq<PathStep>, d: Cell, s: PathStep)
    requires Leads(h, c, steps, d) && d in h && Child(h[d], s).Some? && Child(h[d], s).value in h
    ensures Leads(h, c, steps + [s], Child(h[d], s).value)
    decreases steps
  {
    if steps == [] {
      assert Leads(h, Child(h[d], s).value, [], Child(h[d], s).value);
      assert ([] + [s])[1..] == [];
    } else {
      assert (steps + [s])[1..] == steps[1..] + [s];
      LeadsNext(h, Child(h[c], steps[0]).value, steps[1..], d, s);
    }
  }

  /** A walk from the root of a location: where it is, and the steps it has taken. */
  ghost predicate Walked(h: Heap, root: Cell, v: Value, steps: seq<PathStep>, c: Cell) {
    CellTree(h, root, v) && Leads(h, root, steps, c)
  }

  lemma WalkedNext(h: Heap, root: Cell, v: Value, steps: seq<PathStep>, c: Cell, s: PathStep)
    requires Walked(h, root, v, steps, c)
    ensures c in h && ReadPath(v, steps).Success? && CellTree(h, c, ReadPath(v, steps).value)
    ensures Child(h[c], s).Some? ==> Walked(h, root, v, steps + [s], Child(h[c], s).value)
    ensures Child(h[c], s).None? ==> ReadPath(v, steps + [s]).Failure?
  {
    LeadsTree(h, root, v, steps, c);
    ChildTree(h, c, ReadPath(v, steps).value, s);
    ReadPathAppend(v, steps, [s]);
    if Child(h[c], s).Some? {
      LeadsNext(h, root, steps, c, s);
    }
  }

  /** A step that cannot be taken spoils every path through it. */
  lemma Spoiled(v: Value, steps: seq<PathStep>, more: seq<PathStep>)
    requires ReadPath(v, steps).Failure?
    ensures ReadPath(v, steps + more).Failure?
  {
    ReadPathAppend(v, steps, more);
  }

  datatype Fetched = Found(cell: Cell) | Lost(fault: Fault)

  /** The cell of a field. */
  method FieldCell(c: Cell, f: string, ghost h: Heap) returns (r: Fetched)
    requires Current(h) && c in h
    ensures match Child(h[c], ToField(f)) case Some(d) => r == Found(d) case None => r.Lost? && IsPanic(r.fault)
  {
    match c.value {
      case HStruct(fields) => r := if f in fields then Found(fields[f]) else Lost(FieldPanic);
      case _ => r := Lost(ShapePanic);
    }
  }

  /** The cell of an element; the index is cast to an unsigned one first. */
  method ElementCell(c: Cell, index: HeapValue, ghost h: Heap, ghost i: Value) returns (r: Fetched)
    requires Current(h) && c in h && AsIndex(index) == IndexOfValue(i)
    ensures match Child(h[c], ToIndex(i)) case Some(d) => r == Found(d) case None => r.Lost? && IsPanic(r.fault)
  {
    if !index.HInt? {
      return Lost(ShapePanic);
    }
    match c.value {
      case HArr(cells) => r := if 0 <= index.i < |cells| then Found(cells[index.i]) else Lost(IndexPanic);
      case _ => r := Lost(ShapePanic);
    }
  }

  /** Where a location's root index leads, and the ghost steps taken. */
  method FetchRoot(env: Env, root: Name, rootIndex: Option<Name>, ghost h: Heap, ghost e: Machine.Env)
    returns (r: Fetched, ghost steps: seq<PathStep>)
    requires Current(h) && env.Stands(h, e)
    ensures r.Found? ==>
      && RootCell(env.env, env.tmpStore, root).Some? && Machine.Get(e, root).Some?
      && Walked(h, RootCell(env.env, env.tmpStore, root).value, Machine.Get(e, root).value, steps, r.cell)
      && Machine.CompoundSteps(e, rootIndex, []) == Success(steps)
    ensures r.Lost? ==> IsPanic(r.fault) && forall path :: Machine.Fetch(e, Compound(root, rootIndex, path)).Failure?
  {
    hide ReadPath, CellTree, Machine.PathSteps, Family, FamilyFoot;
    steps := [];
    var c := env.GetRef(root, h, e);
    if c.None? {
      return Lost(UnboundPanic), [];
    }
    ghost var v := Machine.Get(e, root).value;
    NoSteps(h, c.value, v, e);
    r := Found(c.value);
    if rootIndex.Some? {
      var index := env.Get(rootIndex.value, h, e);
      if index.None? {
        return Lost(UnboundPanic), [];
      }
      ghost var i := Machine.Get(e, rootIndex.value).value;
      WalkedNext(h, c.value, v, [], c.value, ToIndex(i));
      assert [] + [ToIndex(i)] == [ToIndex(i)];
      r := ElementCell(c.value, index.value, h, i);
      steps := [ToIndex(i)];
      assert [ToIndex(i)] + [] == [ToIndex(i)];
      if r.Lost? {
        forall path ensures Machine.Fetch(e, Compound(root, rootIndex, path)).Failure? {
          var all := Machine.PathSteps(e, path);
          if all.Success? {
            Spoiled(v, [ToIndex(i)], all.value);
          }
        }
      }
    }
  }

  lemma NoSteps(h: Heap, c: Cell, v: Value, e: Machine.Env)
    requires CellTree(h, c, v)
    ensures Walked(h, c, v, [], c) && Machine.PathSteps(e, []) == Success([])
  {
  }

  /** The reference a location leads to. */
  method Fetch(env: Env, loc: Location, ghost h: Heap, ghost e: Machine.Env) returns (r: Fetched, ghost steps: seq<PathStep>)
    requires Current(h) && env.Stands(h, e)
    ensures r.Found? ==> Located(h, env.env, env.tmpStore, e, loc, steps, r.cell)
    ensures r.Lost? ==> IsPanic(r.fault) && Machine.Fetch(e, loc).Failure?
  {
    hide ReadPath, CellTree, CellFoot, Machine.PathSteps, FamilyFoot, Machine.CompoundSteps, Located;
    steps := [];
    match loc {
      case Compound(root, rootIndex, path) =>
        r, steps := FetchRoot(env, root, rootIndex, h, e);
        if r.Lost? {
          return;
        }
        r, steps := FetchPath(env, root, rootIndex, path, r.cell, steps, h, e);
      case Namespace(x) =>
        if x in env.env {
          NamedCell(h, env.env, e.vars, x);
          LocatedName(h, env.env, env.tmpStore, e, loc, env.env[x]);
          return Found(env.env[x]), [];
        }
        return Lost(UnboundPanic), [];
      case Tmp(x) =>
        if x in env.tmpStore {
          NamedCell(h, env.tmpStore, e.tmps, x);
          LocatedName(h, env.env, env.tmpStore, e, loc, env.tmpStore[x]);
          return Found(env.tmpStore[x]), [];
        }
        return Lost(UnboundPanic), [];
    }
  }

  /** The cell holds what the location reads, and lies below the cell of its root. */
  ghost predicate Located(h: Heap, vars: map<Name, Cell>, tmps: map<Name, Cell>, e: Machine.Env, loc: Location, steps: seq<PathStep>, c: Cell) {
    && Machine.Fetch(e, loc).Success? && CellTree(h, c, Machine.Fetch(e, loc).value)
    && (loc.Compound? ==>
          && RootCell(vars, tmps, loc.root).Some? && Machine.Get(e, loc.root).Some?
          && Walked(h, RootCell(vars, tmps, loc.root).value, Machine.Get(e, loc.root).value, steps, c)
          && Machine.CompoundSteps(e, loc.rootIndex, loc.path) == Success(steps))
  }

  lemma LocatedName(h: Heap, vars: map<Name, Cell>, tmps: map<Name, Cell>, e: Machine.Env, loc: Location, c: Cell)
    requires !loc.Compound? && Machine.Fetch(e, loc).Success? && CellTree(h, c, Machine.Fetch(e, loc).value)
    ensures Located(h, vars, tmps, e, loc, [], c)
  {
  }

  /** From the root on, one path element after another. */
  method FetchPath(env: Env, root: Name, rootIndex: Option<Name>, path: seq<FieldAccess>, rootRef: Cell, ghost rootSteps: seq<PathStep>,
                   ghost h: Heap, ghost e: Machine.Env) returns (r: Fetched, ghost steps: seq<PathStep>)
    requires Current(h) && env.Stands(h, e)
    requires RootCell(env.env, env.tmpStore, root).Some? && Machine.Get(e, root).Some?
    requires Walked(h, RootCell(env.env, env.tmpStore, root).value, Machine.Get(e, root).value, rootSteps, rootRef)
    requires Machine.CompoundSteps(e, rootIndex, []) == Success(rootSteps)
    ensures r.Found? ==> Located(h, env.env, env.tmpStore, e, Compound(root, rootIndex, path), steps, r.cell)
    ensures r.Lost? ==> IsPanic(r.fault) && Machine.Fetch(e, Compound(root, rootIndex, path)).Failure?
  {
    hide ReadPath, CellTree, CellFoot, Machine.PathSteps, Family, FamilyFoot, Walked, Machine.CompoundSteps;
    ghost var loc, top, v := Compound(root, rootIndex, path), RootCell(env.env, env.tmpStore, root).value, Machine.Get(e, root).value;
    var nextRef := rootRef;
    steps := rootSteps;
    ghost var taken: seq<PathStep> := [];
    assert Machine.PathSteps(e, path[..0]) == Success([]) by { NoPathSteps(e, path[..0]); }
    assert rootSteps + [] == rootSteps;
    for k := 0 to |path|
      invariant Walked(h, top, v, steps, nextRef) && steps == rootSteps + taken
      invariant Machine.PathSteps(e, path[..k]) == Success(taken)
    {
      ghost var before := steps;
      match path[k] {
        case Field(f) =>
          WalkedNext(h, top, v, steps, nextRef, ToField(f));
          var next := FieldCell(nextRef, f, h);
          if next.Lost? {
            FetchSpoiled(e, loc, rootSteps, taken, k, [ToField(f)], v);
            return next, steps;
          }
          nextRef := next.cell;
          steps := steps + [ToField(f)];
        case FieldIndex(f, x) =>
          WalkedNext(h, top, v, steps, nextRef, ToField(f));
          var field := FieldCell(nextRef, f, h);
          if field.Lost? {
            FetchSpoiled(e, loc, rootSteps, taken, k, [ToField(f)], v);
            return field, steps;
          }
          var index := env.Get(x, h, e);
          if index.None? {
            PathStepsSplit(e, path, k);
            FetchUnbound(e, loc);
            return Lost(UnboundPanic), steps;
          }
          ghost var i := Machine.Get(e, x).value;
          WalkedNext(h, top, v, steps + [ToField(f)], field.cell, ToIndex(i));
          var next := ElementCell(field.cell, index.value, h, i);
          if next.Lost? {
            assert steps + [ToField(f)] + [ToIndex(i)] == steps + [ToField(f), ToIndex(i)];
            FetchSpoiled(e, loc, rootSteps, taken, k, [ToField(f), ToIndex(i)], v);
            return next, steps;
          }
          nextRef := next.cell;
          steps := steps + [ToField(f)] + [ToIndex(i)];
      }
      PathStepsNext(e, path, k);
      taken := taken + AccessSteps(e, path[k]).value;
      assert steps == before + AccessSteps(e, path[k]).value;
    }
    assert path[..|path|] == path;
    FetchEnds(h, env.env, env.tmpStore, e, loc, rootSteps, taken, nextRef);
    r := Found(nextRef);
  }

  lemma NoPathSteps(e: Machine.Env, path: seq<FieldAccess>)
    requires path == []
    ensures Machine.PathSteps(e, path) == Success([])
  {
  }

  /** The steps of a location are those of its root index and those of its path. */
  lemma CompoundIs(e: Machine.Env, rootIndex: Option<Name>, path: seq<FieldAccess>, rootSteps: seq<PathStep>)
    requires Machine.CompoundSteps(e, rootIndex, []) == Success(rootSteps)
    ensures Machine.CompoundSteps(e, rootIndex, path)
         == if Machine.PathSteps(e, path).Failure? then Failure(Machine.PathSteps(e, path).error) else Success(rootSteps + Machine.PathSteps(e, path).value)
  {
    assert Machine.PathSteps(e, []) == Success([]);
    var all := Machine.PathSteps(e, path);
    if all.Success? {
      if rootIndex.Some? {
        var first := [ToIndex(Machine.Get(e, rootIndex.value).value)];
        assert first + [] == first;
      } else {
        assert [] + all.value == all.value;
      }
    }
  }

  lemma FetchUnbound(e: Machine.Env, loc: Location)
    requires loc.Compound? && Machine.PathSteps(e, loc.path).Failure?
    ensures Machine.Fetch(e, loc).Failure?
  {
  }

  /** A step that cannot be taken is where the read of the whole location fails. */
  lemma FetchSpoiled(e: Machine.Env, loc: Location, rootSteps: seq<PathStep>, taken: seq<PathStep>, k: nat, here: seq<PathStep>, v: Value)
    requires loc.Compound? && k < |loc.path| && Machine.Get(e, loc.root) == Some(v)
    requires Machine.CompoundSteps(e, loc.rootIndex, []) == Success(rootSteps) && Machine.PathSteps(e, loc.path[..k]) == Success(taken)
    requires AccessSteps(e, loc.path[k]).Some? ==> here <= AccessSteps(e, loc.path[k]).value
    requires ReadPath(v, rootSteps + taken + here).Failure?
    ensures Machine.Fetch(e, loc).Failure?
  {
    hide ReadPath, Machine.PathSteps, Machine.CompoundSteps;
    CompoundIs(e, loc.rootIndex, loc.path, rootSteps);
    PathStepsSplit(e, loc.path, k);
    var all := Machine.PathSteps(e, loc.path);
    if all.Success? {
      var full := AccessSteps(e, loc.path[k]).value;
      var rest := full[|here|..] + Machine.PathSteps(e, loc.path[k + 1..]).value;
      assert full == here + full[|here|..];
      assert rootSteps + all.value == rootSteps + taken + here + rest;
      Spoiled(v, rootSteps + taken + here, rest);
    }
  }

  lemma FetchEnds(h: Heap, vars: map<Name, Cell>, tmps: map<Name, Cell>, e: Machine.Env, loc: Location,
                  rootSteps: seq<PathStep>, taken: seq<PathStep>, c: Cell)
    requires loc.Compound? && RootCell(vars, tmps, loc.root).Some? && Machine.Get(e, loc.root).Some?
    requires Machine.CompoundSteps(e, loc.rootIndex, []) == Success(rootSteps) && Machine.PathSteps(e, loc.path) == Success(taken)
    requires Walked(h, RootCell(vars, tmps, loc.root).value, Machine.Get(e, loc.root).value, rootSteps + taken, c)
    ensures Located(h, vars, tmps, e, loc, rootSteps + taken, c)
  {
    hide ReadPath, Machine.PathSteps, Machine.CompoundSteps, CellTree;
    CompoundIs(e, loc.rootIndex, loc.path, rootSteps);
    LeadsTree(h, RootCell(vars, tmps, loc.root).value, Machine.Get(e, loc.root).value, rootSteps + taken, c);
  }

  // ---------------------------------------------------------------- writing

  /** Only what an environment owns may have changed, and what is new was not there before. */
  ghost predicate Beyond(h: Heap, h': Heap, owned: set<Cell>) {
    h.Keys <= h'.Keys && SameOn(h, h', h.Keys - owned)
  }

  /** The value moves into the location.  A store below a variable goes through the cell it is kept in. */
  method StoreTo(env: Env, loc: Location, x: HeapValue, ghost h: Heap, ghost e: Machine.Env, ghost v: Value)
    returns (r: Option<Fault>, ghost h': Heap, ghost e': Machine.Env)
    requires Current(h) && env.Stands(h, e) && Tree(h, x, v) && Foot(h, x, v) !! env.Owned(h, e)
    modifies env, env.Owned(h, e)
    ensures Current(h') && Beyond(h, h', old(env.Owned(h, e))) && fresh(New(h, h'))
    ensures r.Some? ==> IsPanic(r.value) && Machine.StoreAt(e, loc, v).Failure? && IsPanic(Machine.StoreAt(e, loc, v).error)
    ensures r.None? ==>
      && Machine.StoreAt(e, loc, v) == Success(e') && env.Stands(h', e')
      && env.Owned(h', e') <= old(env.Owned(h, e)) + Foot(h, x, v) + New(h, h')
  {
    hide Family, FamilyFoot, Tree, Foot, CellTree, CellFoot, WritePath, Machine.PathSteps, Machine.CompoundSteps, ReadPath;
    h', e' := h, e;
    match loc {
      case Compound(root, _, _) =>
        ghost var steps;
        var reference;
        reference, steps := Fetch(env, loc, h, e);
        StoreNeedsFetch(e, loc, v);
        if reference.Lost? {
          return Some(reference.fault), h, e;
        }
        EnvIn(h, env.env, env.tmpStore, e);
        StoredBelow(h, env.env, env.tmpStore, e, loc, steps, reference.cell, x, v);
        reference.cell.value := x;
        h' := h[reference.cell := x];
        e' := Machine.StoreAt(e, loc, v).value;
        r := None;
      case Namespace(name) =>
        h' := env.MapValue(name, x, h, e, v);
        e' := e.(vars := e.vars[name := v]);
        r := None;
      case Tmp(name) =>
        h' := env.MapTmp(name, x, h, e, v);
        e' := e.(tmps := e.tmps[name := v]);
        r := None;
    }
  }

  lemma {:induction false} WriteNeedsRead(v: Value, steps: seq<PathStep>, w: Value)
    ensures WritePath(v, steps, w).Success? <==> ReadPath(v, steps).Success?
    ensures WritePath(v, steps, w).Failure? ==> WritePath(v, steps, w).error == ReadPath(v, steps).error
  {
    if steps != [] && ReadStep(v, steps[0]).Success? {
      WriteNeedsRead(ReadStep(v, steps[0]).value, steps[1..], w);
    }
  }

  lemma StoreNeedsFetch(e: Machine.Env, loc: Location, v: Value)
    requires loc.Compound?
    ensures Machine.Fetch(e, loc).Failure? ==> Machine.StoreAt(e, loc, v).Failure? && IsPanic(Machine.StoreAt(e, loc, v).error)
  {
    hide Machine.PathSteps, ReadPath, WritePath;
    FetchPanics(e, loc);
    if Machine.Get(e, loc.root).Some? {
      var steps := Machine.CompoundSteps(e, loc.rootIndex, loc.path);
      if steps.Success? {
        WriteNeedsRead(Machine.Get(e, loc.root).value, steps.value, v);
      }
    }
  }

  /** After the store through the cell, the environment stands for the stored-to one. */
  lemma StoredBelow(h: Heap, vars: map<Name, Cell>, tmps: map<Name, Cell>, e: Machine.Env, loc: Location, steps: seq<PathStep>,
                    c: Cell, x: HeapValue, v: Value)
    requires EnvStands(h, vars, tmps, e) && loc.Compound? && Located(h, vars, tmps, e, loc, steps, c)
    requires Tree(h, x, v) && Foot(h, x, v) !! EnvFoot(h, vars, tmps, e)
    ensures var h' := h[c := x];
      && c in EnvFoot(h, vars, tmps, e) && Machine.StoreAt(e, loc, v).Success?
      && EnvStands(h', vars, tmps, Machine.StoreAt(e, loc, v).value)
      && EnvFoot(h', vars, tmps, Machine.StoreAt(e, loc, v).value) <= EnvFoot(h, vars, tmps, e) + Foot(h, x, v)
  {
    hide Tree, Foot, CellTree, CellFoot, WritePath, Machine.PathSteps, Machine.CompoundSteps, ReadPath, FamilyFoot;
    var h' := h[c := x];
    var root, rv := RootCell(vars, tmps, loc.root).value, Machine.Get(e, loc.root).value;
    EnvIn(h, vars, tmps, e);
    LeadsTree(h, root, rv, steps, c);
    if loc.root in vars {
      NamedCell(h, vars, e.vars, loc.root);
      CellReplaced(h, FamilyFoot(h, vars, e.vars), c, x, v);
      FamilyWrite(h, h', vars, e.vars, loc.root, steps, c, v, Foot(h, x, v));
      FamilyFrame(h, h', tmps, e.tmps);
    } else {
      NamedCell(h, tmps, e.tmps, loc.root);
      CellReplaced(h, FamilyFoot(h, tmps, e.tmps), c, x, v);
      FamilyWrite(h, h', tmps, e.tmps, loc.root, steps, c, v, Foot(h, x, v));
      FamilyFrame(h, h', vars, e.vars);
    }
  }

  lemma CellReplaced(h: Heap, foot: set<Cell>, c: Cell, x: HeapValue, v: Value)
    requires Tree(h, x, v) && foot <= h.Keys && c in foot && foot !! Foot(h, x, v)
    ensures Replaced(h, h[c := x], foot, c, v, Foot(h, x, v))
  {
    FootIn(h, x, v);
    Frame(h, h[c := x], x, v);
  }
}
