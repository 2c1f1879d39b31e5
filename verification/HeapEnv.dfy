/** The environment of a call over cells, and reading and writing at a location. */
module HeapEnv {
  import opened Values
  import opened ByteCode
  import opened Cells
  import Machine

  /** The faults that are panics; which one a run stops with is not told apart here. */
  predicate IsPanic(f: Fault) {
    f in {ArithPanic, IndexPanic, ShapePanic, FieldPanic, UnboundPanic, UnknownFnPanic}
  }

  predicate Alike(f: Fault, g: Fault) { f == g || (IsPanic(f) && IsPanic(g)) }

  // ---------------------------------------------------------------- environments as values

  ghost predicate EnvStands(h: Heap, vars: map<Name, Cell>, tmps: map<Name, Cell>, e: Machine.Env) {
    Family(h, vars, e.vars) && Family(h, tmps, e.tmps) && FamilyFoot(h, vars, e.vars) !! FamilyFoot(h, tmps, e.tmps)
  }

  ghost function EnvFoot(h: Heap, vars: map<Name, Cell>, tmps: map<Name, Cell>, e: Machine.Env): set<Cell> {
    FamilyFoot(h, vars, e.vars) + FamilyFoot(h, tmps, e.tmps)
  }

  lemma EnvIn(h: Heap, vars: map<Name, Cell>, tmps: map<Name, Cell>, e: Machine.Env)
    requires EnvStands(h, vars, tmps, e)
    ensures EnvFoot(h, vars, tmps, e) <= h.Keys
  {
    FamilyIn(h, vars, e.vars);
    FamilyIn(h, tmps, e.tmps);
  }

  lemma EnvFrame(h: Heap, h': Heap, vars: map<Name, Cell>, tmps: map<Name, Cell>, e: Machine.Env)
    requires EnvStands(h, vars, tmps, e) && SameOn(h, h', EnvFoot(h, vars, tmps, e))
    ensures EnvStands(h', vars, tmps, e) && EnvFoot(h', vars, tmps, e) == EnvFoot(h, vars, tmps, e)
  {
    hide Family, FamilyFoot;
    FamilyFrame(h, h', vars, e.vars);
    FamilyFrame(h, h', tmps, e.tmps);
  }

  /** A new cell around a value that belongs to nobody. */
  lemma Boxed(h: Heap, c: Cell, x: HeapValue, v: Value)
    requires Tree(h, x, v) && c !in h
    ensures CellTree(h[c := x], c, v) && CellFoot(h[c := x], c, v) == {c} + Foot(h, x, v)
    ensures Grown(h, h[c := x]) && New(h, h[c := x]) == {c}
  {
    FootIn(h, x, v);
    Frame(h, h[c := x], x, v);
  }

  lemma NamedCell<K(!new)>(h: Heap, cells: map<K, Cell>, vals: map<K, Value>, k: K)
    requires Family(h, cells, vals) && k in vals
    ensures k in cells && CellTree(h, cells[k], vals[k]) && CellFoot(h, cells[k], vals[k]) <= FamilyFoot(h, cells, vals)
  {
  }

  class Env {
    var env: map<Name, Cell>
    var tmpStore: map<Name, Cell>

    constructor ()
      ensures env == map[] && tmpStore == map[]
    {
      env, tmpStore := map[], map[];
    }

    /** An environment over cells of its own, holding the same values. */
    method Fork(ghost h: Heap, ghost e: Machine.Env) returns (copy: Env, ghost h': Heap)
      requires Current(h) && Stands(h, e)
      ensures Current(h') && Grown(h, h') && fresh(New(h, h')) && fresh(copy)
      ensures copy.Stands(h', e) && copy.Owned(h', e) <= New(h, h')
    {
      hide Family, FamilyFoot;
      FamilyIn(h, tmpStore, e.tmps);
      var vars, h1 := CopyNames(env, h, e.vars);
      FamilyFrame(h, h1, tmpStore, e.tmps);
      var tmps, h2 := CopyNames(tmpStore, h1, e.tmps);
      FamilyIn(h1, vars, e.vars);
      FamilyFrame(h1, h2, vars, e.vars);
      h' := h2;
      assert New(h, h') == New(h, h1) + New(h1, h');
      copy := new Env();
      copy.env, copy.tmpStore := vars, tmps;
    }

    ghost predicate Stands(h: Heap, e: Machine.Env)
      reads this
    {
      EnvStands(h, env, tmpStore, e)
    }

    ghost function Owned(h: Heap, e: Machine.Env): set<Cell>
      reads this
    {
      EnvFoot(h, env, tmpStore, e)
    }

    method MapValue(name: Name, x: HeapValue, ghost h: Heap, ghost e: Machine.Env, ghost v: Value) returns (ghost h': Heap)
      requires Current(h) && Stands(h, e) && Tree(h, x, v) && Foot(h, x, v) !! Owned(h, e)
      modifies this`env
      ensures Current(h') && Grown(h, h') && fresh(New(h, h')) && Stands(h', e.(vars := e.vars[name := v]))
      ensures Owned(h', e.(vars := e.vars[name := v])) <= old(Owned(h, e)) + Foot(h, x, v) + New(h, h')
    {
      hide Family, FamilyFoot, Tree, Foot, CellTree, CellFoot;
      EnvIn(h, env, tmpStore, e);
      var c := new Cell(x);
      h' := h[c := x];
      Boxed(h, c, x, v);
      EnvFrame(h, h', env, tmpStore, e);
      FamilySet(h', env, e.vars, name, c, v);
      env := env[name := c];
    }

    method MapTmp(name: Name, x: HeapValue, ghost h: Heap, ghost e: Machine.Env, ghost v: Value) returns (ghost h': Heap)
      requires Current(h) && Stands(h, e) && Tree(h, x, v) && Foot(h, x, v) !! Owned(h, e)
      modifies this`tmpStore
      ensures Current(h') && Grown(h, h') && fresh(New(h, h')) && Stands(h', e.(tmps := e.tmps[name := v]))
      ensures Owned(h', e.(tmps := e.tmps[name := v])) <= old(Owned(h, e)) + Foot(h, x, v) + New(h, h')
    {
      hide Family, FamilyFoot, Tree, Foot, CellTree, CellFoot;
      EnvIn(h, env, tmpStore, e);
      var c := new Cell(x);
      h' := h[c := x];
      Boxed(h, c, x, v);
      EnvFrame(h, h', env, tmpStore, e);
      FamilySet(h', tmpStore, e.tmps, name, c, v);
      tmpStore := tmpStore[name := c];
    }

    /** The cell of a name: variables first, then temporaries. */
    method GetRef(name: Name, ghost h: Heap, ghost e: Machine.Env) returns (r: Option<Cell>)
      requires Current(h) && Stands(h, e)
      ensures r.Some? <==> Machine.Get(e, name).Some?
      ensures r.Some? ==> r == RootCell(env, tmpStore, name) && CellTree(h, r.value, Machine.Get(e, name).value)
      ensures r.Some? ==> CellFoot(h, r.value, Machine.Get(e, name).value) <= Owned(h, e)
    {
      hide FamilyFoot, CellTree, CellFoot;
      if name in env {
        NamedCell(h, env, e.vars, name);
        return Some(env[name]);
      }
      if name in tmpStore {
        NamedCell(h, tmpStore, e.tmps, name);
        return Some(tmpStore[name]);
      }
      r := None;
    }

    /** A copy of what a name holds. */
    method Get(name: Name, ghost h: Heap, ghost e: Machine.Env) returns (r: Option<HeapValue>)
      requires Current(h) && Stands(h, e)
      ensures r.Some? <==> Machine.Get(e, name).Some?
      ensures r.Some? ==> AsIndex(r.value) == IndexOfValue(Machine.Get(e, name).value)
    {
      hide Family, FamilyFoot, CellFoot;
      var c := GetRef(name, h, e);
      if c.None? {
        return None;
      }
      ghost var v := Machine.Get(e, name).value;
      var x, _ := CloneValue(c.value.value, h, v);
      r := Some(x);
    }
  }

  /** Hard clones of all cells of a store. */
  method CopyNames(cells: map<Name, Cell>, ghost h: Heap, ghost vals: map<Name, Value>) returns (copy: map<Name, Cell>, ghost h': Heap)
    requires Current(h) && Family(h, cells, vals)
    ensures Current(h') && Grown(h, h') && fresh(New(h, h'))
    ensures Family(h', copy, vals) && FamilyFoot(h', copy, vals) <= New(h, h')
  {
    hide CellTree, CellFoot, Family, FamilyFoot;
    ghost var done: map<Name, Value> := map[];
    copy, h' := map[], h;
    FamilyKeys(h, cells, vals);
    var rest := cells.Keys;
    NoFamily(h, copy, done);
    while rest != {}
      invariant Current(h') && Grown(h, h') && fresh(New(h, h'))
      invariant Family(h', copy, done) && FamilyFoot(h', copy, done) <= New(h, h')
      invariant rest <= cells.Keys && done.Keys == cells.Keys - rest && forall k :: k in done ==> done[k] == vals[k]
    {
      var k :| k in rest;
      NamedCell(h, cells, vals, k);
      CellFootIn(h, cells[k], vals[k]);
      CellFrame(h, h', cells[k], vals[k]);
      ghost var h1 := h';
      var d;
      d, h' := HardClone(cells[k], h1, vals[k]);
      assert New(h, h') == New(h, h1) + New(h1, h');
      FamilyMore(h, h1, h', copy, done, k, d, vals[k]);
      copy, done, rest := copy[k := d], done[k := vals[k]], rest - {k};
    }
    assert done == vals;
  }

  lemma FamilyKeys(h: Heap, cells: map<Name, Cell>, vals: map<Name, Value>)
    requires Family(h, cells, vals)
    ensures cells.Keys == vals.Keys
  {
  }

  function RootCell(vars: map<Name, Cell>, tmps: map<Name, Cell>, name: Name): Option<Cell> {
    if name in vars then Some(vars[name]) else if name in tmps then Some(tmps[name]) else None
  }

  function AsIndex(x: HeapValue): Option<i64> { if x.HInt? then Some(x.i) else None }

  function IndexOfValue(v: Value): Option<i64> { if v.Int? then Some(v.i) else None }
}
