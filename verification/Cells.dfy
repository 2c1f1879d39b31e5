/** Reference-counted cells, and the value trees they stand for when nothing is shared. */
module Cells {
  import opened Values

  /** A value whose parts sit in cells of their own. */
  datatype HeapValue =
    | HInt(i: i64)
    | HFloat(f: FloatBits)
    | HBool(b: bool)
    | HStr(s: string)
    | HArr(cells: seq<Cell>)
    | HFn(id: FnId)
    | HStruct(fields: map<string, Cell>)
    | HUnit

  class Cell {
    var value: HeapValue

    constructor (value: HeapValue)
      ensures this.value == value
    {
      this.value := value;
    }
  }

  /** What some cells hold at one moment. */
  type Heap = map<Cell, HeapValue>

  ghost predicate Current(h: Heap)
    reads h.Keys
  {
    forall c :: c in h ==> c.value == h[c]
  }

  /** The cells below a value, and those of a cell with the value in it. */
  ghost function Foot(h: Heap, x: HeapValue, v: Value): set<Cell>
    decreases v, 0
  {
    match (x, v)
    case (HArr(cs), Arr(vs)) => set i, d | 0 <= i < |vs| && i < |cs| && d in CellFoot(h, cs[i], vs[i]) :: d
    case (HStruct(fs), Struct(m)) => set k, d | k in m && k in fs && d in CellFoot(h, fs[k], m[k]) :: d
    case _ => {}
  }

  ghost function CellFoot(h: Heap, c: Cell, v: Value): set<Cell>
    decreases v, 1
  {
    {c} + if c in h then Foot(h, h[c], v) else {}
  }

  /** The value stands for the tree `v`, and no cell below it is owned twice. */
  ghost predicate Tree(h: Heap, x: HeapValue, v: Value)
    decreases v, 0
  {
    match (x, v)
    case (HInt(a), Int(b)) => a == b
    case (HFloat(a), Float(b)) => a == b
    case (HBool(a), Bool(b)) => a == b
    case (HStr(a), Str(b)) => a == b
    case (HFn(a), Fn(b)) => a == b
    case (HUnit, Unit) => true
    case (HArr(cs), Arr(vs)) =>
      && |cs| == |vs| && (forall i :: 0 <= i < |vs| ==> CellTree(h, cs[i], vs[i]))
      && (forall i, j :: 0 <= i < j < |vs| ==> CellFoot(h, cs[i], vs[i]) !! CellFoot(h, cs[j], vs[j]))
    case (HStruct(fs), Struct(m)) =>
      && fs.Keys == m.Keys && (forall k :: k in m ==> CellTree(h, fs[k], m[k]))
      && (forall k, l :: k in m && l in m && k != l ==> CellFoot(h, fs[k], m[k]) !! CellFoot(h, fs[l], m[l]))
    case _ => false
  }

  ghost predicate CellTree(h: Heap, c: Cell, v: Value)
    decreases v, 1
  {
    c in h && c !in Foot(h, h[c], v) && Tree(h, h[c], v)
  }

  ghost predicate SameOn(h: Heap, h': Heap, cells: set<Cell>) {
    forall c :: c in cells ==> c in h && c in h' && h'[c] == h[c]
  }

  lemma {:induction false} FootIn(h: Heap, x: HeapValue, v: Value)
    requires Tree(h, x, v)
    ensures Foot(h, x, v) <= h.Keys
    decreases v, 0
  {
    forall d | d in Foot(h, x, v) ensures d in h {
      match (x, v) {
        case (HArr(cs), Arr(vs)) =>
          var i :| 0 <= i < |vs| && d in CellFoot(h, cs[i], vs[i]);
          CellFootIn(h, cs[i], vs[i]);
        case (HStruct(fs), Struct(m)) =>
          var k :| k in m && d in CellFoot(h, fs[k], m[k]);
          CellFootIn(h, fs[k], m[k]);
      }
    }
  }

  lemma {:induction false} CellFootIn(h: Heap, c: Cell, v: Value)
    requires CellTree(h, c, v)
    ensures CellFoot(h, c, v) <= h.Keys
    decreases v, 1
  {
    FootIn(h, h[c], v);
  }

  /** What happens elsewhere does not matter to a tree. */
  lemma {:induction false} Frame(h: Heap, h': Heap, x: HeapValue, v: Value)
    requires Tree(h, x, v) && SameOn(h, h', Foot(h, x, v))
    ensures Tree(h', x, v) && Foot(h', x, v) == Foot(h, x, v)
    decreases v, 0
  {
    match (x, v) {
      case (HArr(cs), Arr(vs)) =>
        forall i | 0 <= i < |vs| ensures CellTree(h', cs[i], vs[i]) && CellFoot(h', cs[i], vs[i]) == CellFoot(h, cs[i], vs[i]) {
          assert CellFoot(h, cs[i], vs[i]) <= Foot(h, x, v);
          CellFrame(h, h', cs[i], vs[i]);
        }
      case (HStruct(fs), Struct(m)) =>
        forall k | k in m ensures CellTree(h', fs[k], m[k]) && CellFoot(h', fs[k], m[k]) == CellFoot(h, fs[k], m[k]) {
          assert CellFoot(h, fs[k], m[k]) <= Foot(h, x, v);
          CellFrame(h, h', fs[k], m[k]);
        }
      case _ =>
    }
  }

  lemma {:induction false} CellFrame(h: Heap, h': Heap, c: Cell, v: Value)
    requires CellTree(h, c, v) && SameOn(h, h', CellFoot(h, c, v))
    ensures CellTree(h', c, v) && CellFoot(h', c, v) == CellFoot(h, c, v)
    decreases v, 1
  {
    assert c in CellFoot(h, c, v);
    Frame(h, h', h[c], v);
  }

  // ---------------------------------------------------------------- following a path

  /** The cell one step below a value. */
  function Child(x: HeapValue, s: PathStep): Option<Cell> {
    match (x, s)
    case (HStruct(fs), ToField(f)) => if f in fs then Some(fs[f]) else None
    case (HArr(cs), ToIndex(Int(i))) => if 0 <= i < |cs| then Some(cs[i]) else None
    case _ => None
  }

  /** Following the steps from cell `c` leads to cell `d`. */
  ghost predicate Leads(h: Heap, c: Cell, steps: seq<PathStep>, d: Cell)
    decreases steps
  {
    c in h &&
    if steps == [] then c == d
    else Child(h[c], steps[0]).Some? && Leads(h, Child(h[c], steps[0]).value, steps[1..], d)
  }

  lemma ChildTree(h: Heap, c: Cell, v: Value, s: PathStep)
    requires CellTree(h, c, v)
    ensures Child(h[c], s).Some? <==> ReadStep(v, s).Success?
    ensures Child(h[c], s).Some? ==>
      var d, w := Child(h[c], s).value, ReadStep(v, s).value;
      CellTree(h, d, w) && CellFoot(h, d, w) <= Foot(h, h[c], v)
  {
  }

  lemma {:induction false} LeadsTree(h: Heap, c: Cell, v: Value, steps: seq<PathStep>, d: Cell)
    requires CellTree(h, c, v) && Leads(h, c, steps, d)
    ensures ReadPath(v, steps).Success? && CellTree(h, d, ReadPath(v, steps).value)
    ensures d in CellFoot(h, c, v) && CellFoot(h, d, ReadPath(v, steps).value) <= CellFoot(h, c, v)
    decreases steps
  {
    if steps != [] {
      ChildTree(h, c, v, steps[0]);
      LeadsTree(h, Child(h[c], steps[0]).value, ReadStep(v, steps[0]).value, steps[1..], d);
    }
  }

  /** The heap after a cell below `c` has got a new value: that cell is the only old one to change, and what hangs
      below it now is new. */
  ghost predicate Replaced(h: Heap, h': Heap, foot: set<Cell>, d: Cell, w: Value, fresh_: set<Cell>) {
    && SameOn(h, h', foot - {d}) && CellTree(h', d, w) && CellFoot(h', d, w) <= {d} + fresh_ && fresh_ !! foot
  }

  /** A store through a cell changes the tree at its path, and nothing else. */
  lemma {:induction false} WriteThrough(h: Heap, h': Heap, c: Cell, v: Value, steps: seq<PathStep>, d: Cell, w: Value, more: set<Cell>)
    requires CellTree(h, c, v) && Leads(h, c, steps, d) && Replaced(h, h', CellFoot(h, c, v), d, w, more)
    ensures WritePath(v, steps, w).Success?
    ensures var v' := WritePath(v, steps, w).value;
      CellTree(h', c, v') && CellFoot(h', c, v') <= CellFoot(h, c, v) + more
    decreases steps
  {
    if steps != [] {
      var s := steps[0];
      ChildTree(h, c, v, s);
      var c1, v1 := Child(h[c], s).value, ReadStep(v, s).value;
      LeadsTree(h, c1, v1, steps[1..], d);
      WriteThrough(h, h', c1, v1, steps[1..], d, w, more);
      var v1' := WritePath(v1, steps[1..], w).value;
      assert c in CellFoot(h, c, v) && c != d;
      ChildReplaced(h, h', c, v, s, v1', more, d);
    }
  }

  /** The cell under one step of a cell has been replaced, within the cell's own region and new cells. */
  ghost predicate Below(h: Heap, h': Heap, c: Cell, v: Value, s: PathStep, w: Value, more: set<Cell>, d: Cell) {
    && CellTree(h, c, v) && c in h' && h'[c] == h[c] && Child(h[c], s).Some? && ReadStep(v, s).Success?
    && SameOn(h, h', CellFoot(h, c, v) - {d}) && more !! CellFoot(h, c, v)
    && var c1, v1 := Child(h[c], s).value, ReadStep(v, s).value;
       d in CellFoot(h, c1, v1) && CellTree(h', c1, w) && CellFoot(h', c1, w) <= CellFoot(h, c1, v1) + more
  }

  lemma ChildReplaced(h: Heap, h': Heap, c: Cell, v: Value, s: PathStep, w: Value, more: set<Cell>, d: Cell)
    requires Below(h, h', c, v, s, w, more, d)
    ensures var v' := WriteStep(v, s, w);
      CellTree(h', c, v') && CellFoot(h', c, v') <= CellFoot(h, c, v) + more
  {
    if v.Arr? {
      ElementReplaced(h, h', c, v, s, w, more, d);
    } else {
      FieldReplaced(h, h', c, v, s, w, more, d);
    }
  }

  lemma ElementReplaced(h: Heap, h': Heap, c: Cell, v: Value, s: PathStep, w: Value, more: set<Cell>, d: Cell)
    requires v.Arr? && Below(h, h', c, v, s, w, more, d)
    ensures var v' := WriteStep(v, s, w);
      CellTree(h', c, v') && CellFoot(h', c, v') <= CellFoot(h, c, v) + more
  {
    assert Tree(h, h[c], v) && Child(h[c], s).Some?;
    var cs, vs, n := h[c].cells, v.elems, s.index.i;
    forall i | 0 <= i < |vs| && i != n
      ensures CellTree(h', cs[i], vs[i]) && CellFoot(h', cs[i], vs[i]) == CellFoot(h, cs[i], vs[i])
    {
      assert CellFoot(h, cs[i], vs[i]) !! CellFoot(h, cs[n], vs[n]);
      assert CellFoot(h, cs[i], vs[i]) <= Foot(h, h[c], v);
      CellFrame(h, h', cs[i], vs[i]);
    }
    assert CellFoot(h, cs[n], vs[n]) <= Foot(h, h[c], v);
  }

  lemma FieldReplaced(h: Heap, h': Heap, c: Cell, v: Value, s: PathStep, w: Value, more: set<Cell>, d: Cell)
    requires v.Struct? && Below(h, h', c, v, s, w, more, d)
    ensures var v' := WriteStep(v, s, w);
      CellTree(h', c, v') && CellFoot(h', c, v') <= CellFoot(h, c, v) + more
  {
    assert Tree(h, h[c], v) && Child(h[c], s).Some?;
    var fs, m, f := h[c].fields, v.fields, s.field;
    StructIsFamily(h, fs, m);
    FamilyPatch(h, h', fs, m, f, w, more, d);
    StructIsFamily(h', fs, m[f := w]);
  }

  /** Nothing old has changed, and what is new was not there before. */
  ghost predicate Grown(h: Heap, h': Heap) { h.Keys <= h'.Keys && SameOn(h, h', h.Keys) }

  ghost function New(h: Heap, h': Heap): set<Cell> { h'.Keys - h.Keys }

  // ---------------------------------------------------------------- families of cells

  /** Cells under names, standing for the values under the same names, with nothing shared between them. */
  ghost predicate Family<K(!new)>(h: Heap, cells: map<K, Cell>, vals: map<K, Value>) {
    && cells.Keys == vals.Keys && (forall k :: k in vals ==> CellTree(h, cells[k], vals[k]))
    && (forall k, l :: k in vals && l in vals && k != l ==> CellFoot(h, cells[k], vals[k]) !! CellFoot(h, cells[l], vals[l]))
  }

  ghost function FamilyFoot<K(!new)>(h: Heap, cells: map<K, Cell>, vals: map<K, Value>): set<Cell> {
    set k, d | k in vals && k in cells && d in CellFoot(h, cells[k], vals[k]) :: d
  }

  lemma StructIsFamily(h: Heap, fields: map<string, Cell>, m: map<string, Value>)
    ensures Tree(h, HStruct(fields), Struct(m)) <==> Family(h, fields, m)
    ensures Foot(h, HStruct(fields), Struct(m)) == FamilyFoot(h, fields, m)
  {
  }

  lemma FamilyIn<K(!new)>(h: Heap, cells: map<K, Cell>, vals: map<K, Value>)
    requires Family(h, cells, vals)
    ensures FamilyFoot(h, cells, vals) <= h.Keys
  {
    forall k | k in vals ensures CellFoot(h, cells[k], vals[k]) <= h.Keys {
      CellFootIn(h, cells[k], vals[k]);
    }
  }

  lemma FamilyFrame<K(!new)>(h: Heap, h': Heap, cells: map<K, Cell>, vals: map<K, Value>)
    requires Family(h, cells, vals) && SameOn(h, h', FamilyFoot(h, cells, vals))
    ensures Family(h', cells, vals) && FamilyFoot(h', cells, vals) == FamilyFoot(h, cells, vals)
  {
    forall k | k in vals
      ensures CellTree(h', cells[k], vals[k]) && CellFoot(h', cells[k], vals[k]) == CellFoot(h, cells[k], vals[k])
    {
      assert CellFoot(h, cells[k], vals[k]) <= FamilyFoot(h, cells, vals);
      CellFrame(h, h', cells[k], vals[k]);
    }
  }

  /** A name gets a cell that has nothing to do with the others; what it named before is dropped. */
  lemma FamilySet<K(!new)>(h: Heap, cells: map<K, Cell>, vals: map<K, Value>, k: K, c: Cell, v: Value)
    requires Family(h, cells, vals) && CellTree(h, c, v) && CellFoot(h, c, v) !! FamilyFoot(h, cells, vals)
    ensures Family(h, cells[k := c], vals[k := v])
    ensures FamilyFoot(h, cells[k := c], vals[k := v]) <= FamilyFoot(h, cells, vals) + CellFoot(h, c, v)
  {
    var cells', vals' := cells[k := c], vals[k := v];
    forall l | l in vals && l != k ensures CellFoot(h, cells[l], vals[l]) <= FamilyFoot(h, cells, vals) {
    }
    forall i, j | i in vals' && j in vals' && i != j
      ensures CellFoot(h, cells'[i], vals'[i]) !! CellFoot(h, cells'[j], vals'[j])
    {
    }
  }

  /** One more name, for a cell made after the others. */
  lemma FamilyMore<K(!new)>(h0: Heap, h1: Heap, h: Heap, cells: map<K, Cell>, vals: map<K, Value>, k: K, c: Cell, v: Value)
    requires Family(h1, cells, vals) && FamilyFoot(h1, cells, vals) <= New(h0, h1) && Grown(h0, h1) && Grown(h1, h)
    requires CellTree(h, c, v) && CellFoot(h, c, v) <= New(h1, h)
    ensures Family(h, cells[k := c], vals[k := v]) && FamilyFoot(h, cells[k := c], vals[k := v]) <= New(h0, h)
  {
    hide Family, FamilyFoot, CellTree, CellFoot;
    FamilyIn(h1, cells, vals);
    FamilyFrame(h1, h, cells, vals);
    FamilySet(h, cells, vals, k, c, v);
  }

  /** The tree under one of the names changes, within its own cells and new ones. */
  lemma FamilyPatch<K(!new)>(h: Heap, h': Heap, cells: map<K, Cell>, vals: map<K, Value>, k: K, w: Value, more: set<Cell>, d: Cell)
    requires Family(h, cells, vals) && k in vals && d in CellFoot(h, cells[k], vals[k])
    requires SameOn(h, h', FamilyFoot(h, cells, vals) - {d}) && more !! FamilyFoot(h, cells, vals)
    requires CellTree(h', cells[k], w) && CellFoot(h', cells[k], w) <= CellFoot(h, cells[k], vals[k]) + more
    ensures Family(h', cells, vals[k := w]) && FamilyFoot(h', cells, vals[k := w]) <= FamilyFoot(h, cells, vals) + more
  {
    hide CellTree, CellFoot;
    forall l | l in vals ensures CellFoot(h, cells[l], vals[l]) <= FamilyFoot(h, cells, vals) {
    }
    forall l | l in vals && l != k
      ensures CellTree(h', cells[l], vals[l]) && CellFoot(h', cells[l], vals[l]) == CellFoot(h, cells[l], vals[l])
    {
      assert CellFoot(h, cells[l], vals[l]) !! CellFoot(h, cells[k], vals[k]);
      CellFrame(h, h', cells[l], vals[l]);
    }
  }

  /** A store below one of the names. */
  lemma FamilyWrite<K(!new)>(h: Heap, h': Heap, cells: map<K, Cell>, vals: map<K, Value>, k: K, steps: seq<PathStep>, d: Cell, w: Value, more: set<Cell>)
    requires Family(h, cells, vals) && k in vals && Leads(h, cells[k], steps, d)
    requires Replaced(h, h', FamilyFoot(h, cells, vals), d, w, more)
    ensures WritePath(vals[k], steps, w).Success?
    ensures var vals' := vals[k := WritePath(vals[k], steps, w).value];
      Family(h', cells, vals') && FamilyFoot(h', cells, vals') <= FamilyFoot(h, cells, vals) + more
  {
    hide CellTree, CellFoot, WritePath, ReadPath;
    var c, v := cells[k], vals[k];
    assert CellFoot(h, c, v) <= FamilyFoot(h, cells, vals);
    LeadsTree(h, c, v, steps, d);
    WriteThrough(h, h', c, v, steps, d, w, more);
    FamilyPatch(h, h', cells, vals, k, WritePath(v, steps, w).value, more, d);
  }

  // ---------------------------------------------------------------- deep copies

  /** A value and its copy share no cell. */
  method CloneValue(x: HeapValue, ghost h: Heap, ghost v: Value) returns (y: HeapValue, ghost h': Heap)
    requires Current(h) && Tree(h, x, v)
    ensures Current(h') && Grown(h, h') && fresh(New(h, h'))
    ensures Tree(h', y, v) && Foot(h', y, v) <= New(h, h')
    decreases v, 1
  {
    hide CellFoot, CellTree;
    h' := h;
    match x {
      case HInt(i) => y := HInt(i);
      case HFloat(f) => y := HFloat(f);
      case HBool(b) => y := HBool(b);
      case HStr(s) => y := HStr(s);
      case HFn(id) => y := HFn(id);
      case HUnit => y := HUnit;
      case HArr(cells) => y, h' := CloneArray(cells, h, v);
      case HStruct(fields) => y, h' := CloneStruct(fields, h, v);
    }
  }

  method HardClone(c: Cell, ghost h: Heap, ghost v: Value) returns (d: Cell, ghost h': Heap)
    requires Current(h) && CellTree(h, c, v)
    ensures Current(h') && Grown(h, h') && fresh(New(h, h'))
    ensures CellTree(h', d, v) && CellFoot(h', d, v) <= New(h, h')
    decreases v, 2
  {
    var y, h1 := CloneValue(c.value, h, v);
    d := new Cell(y);
    h' := h1[d := y];
    assert New(h, h') == New(h, h1) + {d};
    FootIn(h1, y, v);
    Frame(h1, h', y, v);
  }

  method CloneArray(cells: seq<Cell>, ghost h: Heap, ghost v: Value) returns (y: HeapValue, ghost h': Heap)
    requires Current(h) && Tree(h, HArr(cells), v)
    ensures Current(h') && Grown(h, h') && fresh(New(h, h'))
    ensures Tree(h', y, v) && Foot(h', y, v) <= New(h, h')
    decreases v, 0
  {
    hide CellTree, CellFoot;
    ghost var vs := v.elems;
    var out: seq<Cell> := [];
    h' := h;
    for i := 0 to |cells|
      invariant Current(h') && Grown(h, h') && fresh(New(h, h')) && |out| == i
      invariant forall j :: 0 <= j < i ==> CellTree(h', out[j], vs[j]) && CellFoot(h', out[j], vs[j]) <= New(h, h')
      invariant forall j, k :: 0 <= j < k < i ==> CellFoot(h', out[j], vs[j]) !! CellFoot(h', out[k], vs[k])
    {
      CellFootIn(h, cells[i], vs[i]);
      CellFrame(h, h', cells[i], vs[i]);
      ghost var h1 := h';
      var d;
      d, h' := HardClone(cells[i], h1, vs[i]);
      forall j | 0 <= j < i ensures CellTree(h', out[j], vs[j]) && CellFoot(h', out[j], vs[j]) == CellFoot(h1, out[j], vs[j]) {
        CellFootIn(h1, out[j], vs[j]);
        CellFrame(h1, h', out[j], vs[j]);
      }
      assert New(h, h') == New(h, h1) + New(h1, h');
      out := out + [d];
    }
    y := HArr(out);
  }

  method CloneStruct(fields: map<string, Cell>, ghost h: Heap, ghost v: Value) returns (y: HeapValue, ghost h': Heap)
    requires Current(h) && Tree(h, HStruct(fields), v)
    ensures Current(h') && Grown(h, h') && fresh(New(h, h'))
    ensures Tree(h', y, v) && Foot(h', y, v) <= New(h, h')
    decreases v, 0
  {
    hide CellTree, CellFoot, Foot, Family, FamilyFoot;
    ghost var m, vals: map<string, Value> := v.fields, map[];
    var copy: map<string, Cell> := map[];
    var rest := fields.Keys;
    h' := h;
    NoFamily(h, copy, vals);
    while rest != {}
      invariant Current(h') && Grown(h, h') && fresh(New(h, h'))
      invariant Family(h', copy, vals) && FamilyFoot(h', copy, vals) <= New(h, h')
      invariant rest <= fields.Keys && vals.Keys == fields.Keys - rest && forall k :: k in vals ==> vals[k] == m[k]
    {
      var k :| k in rest;
      CellFootIn(h, fields[k], m[k]);
      CellFrame(h, h', fields[k], m[k]);
      ghost var h1 := h';
      var d;
      d, h' := HardClone(fields[k], h1, m[k]);
      assert New(h, h') == New(h, h1) + New(h1, h');
      FamilyMore(h, h1, h', copy, vals, k, d, m[k]);
      copy, vals, rest := copy[k := d], vals[k := m[k]], rest - {k};
    }
    y := HStruct(copy);
    assert vals == m;
    StructIsFamily(h', copy, m);
  }

  lemma NoFamily<K(!new)>(h: Heap, cells: map<K, Cell>, vals: map<K, Value>)
    requires cells == map[] && vals == map[]
    ensures Family(h, cells, vals) && FamilyFoot(h, cells, vals) == {}
  {
  }
}
