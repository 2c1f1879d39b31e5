/** The walk over a function's graph that drives the first pass. */
module Traversal {
  import opened Values
  import opened ByteCode
  import opened ExprFlow
  import opened ByteExpr
  import opened Frames
  import opened FrameFacts
  import opened ControlFlow
  import opened Skeleton
  import opened CfgBuilder
  import opened Navigation
  import opened FirstPass

  // ---------------------------------------------------------------- what a stretch of the walk does to the pass

  ghost predicate Agreeing<T>(m: map<nat, T>, m': map<nat, T>, ids: set<nat>) {
    forall id :: id in ids && id in m ==> id in m' && m'[id] == m[id]
  }

  function Keys(s: Snapshot): set<nat> { s.loops.Keys + s.branches.Keys }

  /** The current frame has grown by `items`, their nested frames are in the tables, and all else is as it was. */
  ghost predicate Emits(s: Snapshot, s': Snapshot, items: seq<Item>) {
    && s.frames != [] && s'.frames == AddToFrame(s.frames, Entries(items))
    && s'.states == s.states && s'.instructions == s.instructions
    && Agreeing(s.loops, s'.loops, Keys(s)) && Agreeing(s.branches, s'.branches, Keys(s))
    && Keys(s') == Keys(s) + Ids(items)
    && Stored(s'.loops, s'.branches, items)
  }

  lemma {:induction false} IdsAt(items: seq<Item>, x: Item)
    requires x in items
    ensures ItemIds(x) <= Ids(items)
  {
    if x != items[0] {
      IdsAt(items[1..], x);
    }
  }

  /** Only the entries of its own loops and branches matter to a stored frame tree. */
  lemma {:induction false} StoredElsewhere(loops: map<nat, LoopFrame>, branches: map<nat, BranchFrame>,
                                           loops': map<nat, LoopFrame>, branches': map<nat, BranchFrame>,
                                           items: seq<Item>, ids: set<nat>)
    requires Stored(loops, branches, items) && Ids(items) <= ids
    requires Agreeing(loops, loops', ids) && Agreeing(branches, branches', ids)
    ensures Stored(loops', branches', items)
    decreases items
  {
    forall x | x in items ensures ItemStored(loops', branches', x) {
      assert ItemStored(loops, branches, x);
      IdsAt(items, x);
      match x {
        case Loop(_, _, _, body) => StoredElsewhere(loops, branches, loops', branches', body, ids);
        case Branch(_, _, _, thn, els) =>
          StoredElsewhere(loops, branches, loops', branches', thn, ids);
          StoredElsewhere(loops, branches, loops', branches', els, ids);
        case _ =>
      }
    }
  }

  lemma EmitsNothing(s: Snapshot)
    requires s.frames != []
    ensures Emits(s, s, [])
  {
    assert s.frames[|s.frames| - 1] + Entries([]) == s.frames[|s.frames| - 1];
  }

  lemma {:induction false} NoIds(items: seq<Item>)
    requires forall x :: x in items ==> !x.Loop? && !x.Branch?
    ensures Ids(items) == {}
  {
    if items != [] {
      NoIds(items[1..]);
    }
  }

  lemma EmitsPlain(s: Snapshot, items: seq<Item>)
    requires s.frames != [] && forall x :: x in items ==> !x.Loop? && !x.Branch?
    ensures Emits(s, Extend(s, items), items)
  {
    NoIds(items);
  }

  lemma EmitsThen(a: Snapshot, b: Snapshot, c: Snapshot, i: seq<Item>, j: seq<Item>)
    requires Emits(a, b, i) && Emits(b, c, j)
    ensures Emits(a, c, i + j)
  {
    hide Stored, Ids, Unique, HasBreak, HasContinue;
    EntriesAppend(i, j);
    FactsAppend(i, j);
    StoredElsewhere(b.loops, b.branches, c.loops, c.branches, i, Keys(b));
    StoredBoth(c.loops, c.branches, i, j);
    var k := |a.frames| - 1;
    assert a.frames[k] + Entries(i) + Entries(j) == a.frames[k] + Entries(i + j);
  }

  lemma StoredBoth(loops: map<nat, LoopFrame>, branches: map<nat, BranchFrame>, i: seq<Item>, j: seq<Item>)
    requires Stored(loops, branches, i) && Stored(loops, branches, j)
    ensures Stored(loops, branches, i + j)
  {
  }

  /** Head, body and foot of a loop together emit the loop. */
  lemma EmitsLoop(s: Snapshot, s': Snapshot, id: nat, cond: Flat, body: seq<Item>)
    requires s.frames != [] && id !in Keys(s) && id !in Ids(body)
    requires Emits(EnterLoop(s, id, cond), s', body)
    ensures s'.frames != [] && s'.states != [] && s'.states[|s'.states| - 1] == Looping(id)
    ensures id in s'.loops && s'.loops[id].body == None
    ensures Emits(s, LeaveLoop(s', id), [Loop(id, ExprCode(cond), TmpArg(ResultId(cond)), body)])
  {
    hide Stored, Ids, Unique, HasBreak, HasContinue, ExprCode;
    var s1 := EnterLoop(s, id, cond);
    var k := |s.frames| - 1;
    var x := Loop(id, ExprCode(cond), TmpArg(ResultId(cond)), body);
    assert id in Keys(s1);
    var s2 := LeaveLoop(s', id);
    EntriesOne(x);
    assert s1.frames[k + 1] + Entries(body) == Entries(body);
    assert s2.frames == AddToFrame(s.frames, [LoopEntry(id)]);
    StoredElsewhere(s'.loops, s'.branches, s2.loops, s2.branches, body, Ids(body));
    StoredOne(s2.loops, s2.branches, x);
    FactsOne(x);
    assert Keys(s2) == Keys(s) + Ids([x]);
  }

  lemma StoredOne(loops: map<nat, LoopFrame>, branches: map<nat, BranchFrame>, x: Item)
    requires ItemStored(loops, branches, x)
    ensures Stored(loops, branches, [x])
  {
  }

  function OpenPath(s: Snapshot): Snapshot { s.(frames := s.frames + [[]]) }

  function LeaveBranch(s: Snapshot): Snapshot
    requires s.states != []
  {
    s.(states := s.states[..|s.states| - 1])
  }

  /** The true path of a branch is set when its frame is popped. */
  lemma EmitsTrue(s: Snapshot, s': Snapshot, id: nat, cond: Flat, thn: seq<Item>)
    requires s.frames != [] && id !in Keys(s) && id !in Ids(thn)
    requires Emits(OpenPath(EnterBranch(s, id, cond)), s', thn)
    ensures AtBranch(s') && s'.states == s.states + [Branching(id)] && s'.branches[id].thn == None
    ensures HalfBranch(s, LeaveTrue(s'), id, cond, thn)
  {
    hide Stored, Ids, Unique, HasBreak, HasContinue, ExprCode;
    var s1 := OpenPath(EnterBranch(s, id, cond));
    var k := |s.frames| - 1;
    assert id in Keys(s1);
    var s2 := LeaveTrue(s');
    assert s1.frames[k + 1] + Entries(thn) == Entries(thn);
    assert s2.frames == AddToFrame(s.frames, [BranchEntry(id)]);
    StoredElsewhere(s'.loops, s'.branches, s2.loops, s2.branches, thn, Ids(thn));
  }

  /** Between the two paths of a branch. */
  ghost predicate HalfBranch(s: Snapshot, s': Snapshot, id: nat, cond: Flat, thn: seq<Item>) {
    && s.frames != [] && s'.frames == AddToFrame(s.frames, [BranchEntry(id)])
    && s'.states == s.states + [Branching(id)] && s'.instructions == s.instructions
    && Agreeing(s.loops, s'.loops, Keys(s)) && Agreeing(s.branches, s'.branches, Keys(s))
    && Keys(s') == Keys(s) + {id} + Ids(thn) && id in s'.branches
    && s'.branches[id] == BranchFrame(Some(TmpArg(ResultId(cond))), Some(Lift(ExprCode(cond))), Some(Entries(thn)), None)
    && Stored(s'.loops, s'.branches, thn)
  }

  /** And the false path completes it. */
  lemma EmitsBranch(s: Snapshot, half: Snapshot, s': Snapshot, id: nat, cond: Flat, thn: seq<Item>, els: seq<Item>)
    requires id !in Keys(s) && id !in Ids(thn) && id !in Ids(els)
    requires HalfBranch(s, half, id, cond, thn) && Emits(OpenPath(half), s', els)
    ensures AtBranch(s') && s'.states[|s'.states| - 1] == Branching(id) && s'.branches[id].els == None
    ensures Emits(s, LeaveBranch(LeaveFalse(s')), [Branch(id, ExprCode(cond), TmpArg(ResultId(cond)), thn, els)])
  {
    hide Stored, Ids, Unique, HasBreak, HasContinue, ExprCode;
    var s1 := OpenPath(half);
    var k := |s.frames| - 1;
    var x := Branch(id, ExprCode(cond), TmpArg(ResultId(cond)), thn, els);
    assert id in Keys(s1);
    var s2 := LeaveBranch(LeaveFalse(s'));
    EntriesOne(x);
    assert s1.frames[k + 1] + Entries(els) == Entries(els);
    assert s2.frames == AddToFrame(s.frames, [BranchEntry(id)]);
    StoredElsewhere(half.loops, half.branches, s'.loops, s'.branches, thn, Keys(half));
    StoredElsewhere(s'.loops, s'.branches, s2.loops, s2.branches, thn, Ids(thn));
    StoredElsewhere(s'.loops, s'.branches, s2.loops, s2.branches, els, Ids(els));
    StoredOne(s2.loops, s2.branches, x);
    FactsOne(x);
    assert Keys(s2) == Keys(s) + Ids([x]);
  }

  // ---------------------------------------------------------------- routes

  /** A node the walk stops at, with what hangs there. */
  datatype Visit = AtEnter(node: NodeId) | AtExit(node: NodeId) | AtFragment(fragment: Fragment, lo: NodeId)

  function At(v: Visit): NodeId {
    match v
    case AtFragment(f, lo) => ControlFlow.Entry(f, lo)
    case _ => v.node
  }

  function VisitItems(v: Visit): seq<Item> { if v.AtFragment? then FragmentItems(v.fragment) else [] }

  ghost predicate VisitOk(g: Graph, v: Visit, next: NodeId) {
    match v
    case AtEnter(n) => NodeIs(g, n, EnterScope, [Edge(Normal, next)])
    case AtExit(n) => NodeIs(g, n, ExitScope, [Edge(Normal, next)])
    case AtFragment(f, lo) => Placed(g, f, lo, Some(next))
  }

  function VisitSize(v: Visit): nat { if v.AtFragment? then Size(v.fragment) else 1 }

  function RouteSize(route: seq<Visit>): (n: nat)
    ensures n >= |route|
  {
    if route == [] then 0 else VisitSize(route[0]) + RouteSize(route[1..])
  }

  function RouteItems(route: seq<Visit>): seq<Item> {
    if route == [] then [] else VisitItems(route[0]) + RouteItems(route[1..])
  }

  function First(route: seq<Visit>, stop: NodeId): NodeId { if route == [] then stop else At(route[0]) }

  /** The visits follow one another and end at `stop`. */
  ghost predicate RouteOk(g: Graph, route: seq<Visit>, stop: NodeId) {
    stop < |g.nodes| &&
    (route == [] || (VisitOk(g, route[0], First(route[1..], stop)) && RouteOk(g, route[1..], stop)))
  }

  function FragmentsRoute(fs: seq<Fragment>, lo: NodeId): (r: seq<Visit>)
    ensures |r| == |fs|
  {
    if fs == [] then [] else [AtFragment(fs[0], lo)] + FragmentsRoute(fs[1..], lo + Size(fs[0]))
  }

  /** Through a block and its scope. */
  function ScopeRoute(fs: seq<Fragment>, lo: NodeId): seq<Visit> {
    [AtEnter(lo + Sizes(fs))] + FragmentsRoute(fs, lo) + [AtExit(lo + Sizes(fs) + 1)]
  }

  function LoopRoute(body: seq<Fragment>, lo: NodeId): seq<Visit> {
    if body == [] then [] else ScopeRoute(body, lo + 2)
  }

  function ElseRoute(e: Else, lo: NodeId): seq<Visit> {
    match e
    case NoElse => []
    case ElseBlock(b) => ScopeRoute(b, lo)
    case ElseIf(a) => [AtFragment(SIf(a), lo)]
  }

  lemma {:induction false} RouteAppend(g: Graph, a: seq<Visit>, b: seq<Visit>, stop: NodeId)
    requires RouteOk(g, b, stop) && RouteOk(g, a, First(b, stop))
    ensures RouteOk(g, a + b, stop) && First(a + b, stop) == First(a, First(b, stop))
    ensures RouteSize(a + b) == RouteSize(a) + RouteSize(b)
    ensures RouteItems(a + b) == RouteItems(a) + RouteItems(b)
  {
    hide VisitOk, VisitItems, VisitSize, At;
    if a == [] {
      assert a + b == b;
    } else {
      assert (a + b)[1..] == a[1..] + b;
      RouteAppend(g, a[1..], b, stop);
    }
  }

  /** Placed fragments are a route to whatever node follows them. */
  lemma {:induction false} FragmentsRouteOk(g: Graph, fs: seq<Fragment>, lo: NodeId, stop: NodeId)
    requires PlacedSeq(g, fs, lo, Some(stop)) && stop < |g.nodes|
    ensures var r := FragmentsRoute(fs, lo);
      && RouteOk(g, r, stop) && First(r, stop) == EntryOr(fs, lo, stop)
      && RouteSize(r) == Sizes(fs) && RouteItems(r) == FragmentsItems(fs)
    decreases fs
  {
    hide Placed, ControlFlow.Entry, Size, FragmentItems;
    if fs != [] {
      FragmentsRouteOk(g, fs[1..], lo + Size(fs[0]), stop);
    }
  }

  lemma ScopeRouteOk(g: Graph, fs: seq<Fragment>, lo: NodeId, stop: NodeId)
    requires ScopeOf(g, fs, lo, Some(stop)) && PlacedSeq(g, fs, lo, Some(lo + Sizes(fs) + 1)) && stop < |g.nodes|
    ensures var r := ScopeRoute(fs, lo);
      && RouteOk(g, r, stop) && First(r, stop) == lo + Sizes(fs)
      && RouteSize(r) == Sizes(fs) + 2 && RouteItems(r) == FragmentsItems(fs)
  {
    hide PlacedSeq, FragmentsItems, Sizes, EntryOr, ExitOr, FragmentsRoute, RouteOk, RouteSize, RouteItems;
    var enter, exit := AtEnter(lo + Sizes(fs)), AtExit(lo + Sizes(fs) + 1);
    FragmentsRouteOk(g, fs, lo, exit.node);
    EntryOrIs(fs, lo, exit.node);
    RouteOne(g, exit, stop);
    RouteAppend(g, FragmentsRoute(fs, lo), [exit], stop);
    var tail := FragmentsRoute(fs, lo) + [exit];
    assert ScopeRoute(fs, lo) == [enter] + tail;
    RouteFirst(g, tail, stop);
    RouteOne(g, enter, First(tail, stop));
    RouteAppend(g, [enter], tail, stop);
  }

  /** The node a visit stops at. */
  function VisitedNode(v: Visit): Node {
    match v
    case AtEnter(_) => EnterScope
    case AtExit(_) => ExitScope
    case AtFragment(SBlock(stmts), _) => Block(stmts)
    case AtFragment(SReturn(value), _) => ReturnNode(value)
    case AtFragment(SBreak(id), _) => BreakNode(id)
    case AtFragment(SContinue(id), _) => ContinueNode(id)
    case AtFragment(SWhile(id, cond, _), _) => LoopHead(id, cond)
    case AtFragment(SIf(arm), _) => BranchSplit(arm.id, arm.cond)
  }

  lemma VisitNodeIs(g: Graph, v: Visit, next: NodeId)
    requires VisitOk(g, v, next)
    ensures GraphOk(g) && At(v) < |g.nodes| && g.nodes[At(v)] == VisitedNode(v)
    ensures !g.nodes[At(v)].LoopHead? && !g.nodes[At(v)].BranchSplit? ==> g.out[At(v)] == [Edge(Normal, next)]
  {
    hide PlacedSeq, ScopeOf, PlacedElse;
    if v.AtFragment? && v.fragment.SIf? {
      assert PlacedArm(g, v.fragment.arm, v.lo, Some(next));
      assert ArmInside(g, v.fragment.arm, v.lo);
    }
  }

  lemma RouteFirst(g: Graph, route: seq<Visit>, stop: NodeId)
    requires RouteOk(g, route, stop)
    ensures First(route, stop) < |g.nodes|
  {
    if route != [] {
      VisitNodeIs(g, route[0], First(route[1..], stop));
    }
  }

  lemma EntryOrIs(fs: seq<Fragment>, lo: NodeId, a: NodeId)
    ensures EntryOr(fs, lo, a) == if fs == [] then a else ControlFlow.Entry(fs[0], lo)
  {
  }

  lemma RouteOne(g: Graph, v: Visit, stop: NodeId)
    requires VisitOk(g, v, stop) && stop < |g.nodes|
    ensures RouteOk(g, [v], stop) && RouteSize([v]) == VisitSize(v) && RouteItems([v]) == VisitItems(v)
    ensures First([v], stop) == At(v)
  {
    hide VisitOk, VisitSize, VisitItems, At;
    assert [v][1..] == [];
    assert RouteItems([v]) == VisitItems(v) + RouteItems([]);
  }

  // ---------------------------------------------------------------- the walk

  /** What a visit returns: where to go on, the end, or a panic. */
  datatype Visited = Onto(node: NodeId) | AtEnd | Panicked

  /** The pass can take in these items: there is a frame for them, and none of their identifiers is taken. */
  ghost predicate Ready(s: Snapshot, items: seq<Item>) {
    s.frames != [] && Unique(items) && Ids(items) !! Keys(s)
  }

  /** A visit or a walk ends in a panic exactly when there is a break on its way; otherwise it has emitted its items. */
  ghost predicate Takes(s: Snapshot, s': Snapshot, items: seq<Item>, r: Visited, next: NodeId) {
    if HasBreak(items) then r == Panicked else r == Onto(next) && Emits(s, s', items)
  }

  lemma {:induction false} NodesPlain(bs: seq<BlockNode>)
    ensures forall x :: x in NodesItems(bs) ==> x.Plain?
  {
    if bs != [] {
      NodesPlain(bs[1..]);
    }
  }

  lemma {:induction false} PlainQuiet(items: seq<Item>)
    requires forall x :: x in items ==> x.Plain?
    ensures !HasBreak(items)
  {
    if items != [] {
      PlainQuiet(items[1..]);
    }
  }

  lemma NodePlain(b: BlockNode)
    ensures forall x :: x in NodeItems(b) ==> x.Plain?
  {
  }

  lemma NodesSnoc(bs: seq<BlockNode>, i: nat)
    requires i < |bs|
    ensures NodesItems(bs[..i + 1]) == NodesItems(bs[..i]) + NodeItems(bs[i])
  {
    assert bs[..i + 1] == bs[..i] + [bs[i]];
    NodesItemsAppend(bs[..i], bs[i]);
  }

  class Traverser {
    const graph: Graph
    const passenger: FirstPass
    const nodeCount: nat

    constructor (graph: Graph, passenger: FirstPass)
      ensures this.graph == graph && this.passenger == passenger && nodeCount == |graph.nodes|
    {
      this.graph, this.passenger, nodeCount := graph, passenger, |graph.nodes|;
    }

    method VisitBlock(stmts: seq<BlockNode>)
      requires passenger.frames != []
      modifies passenger
      ensures Emits(old(passenger.Now()), passenger.Now(), NodesItems(stmts))
    {
      hide NodesItems, NodeItems, Emits;
      ghost var s := passenger.Now();
      EmitsNothing(s);
      NoNodes();
      for i := 0 to |stmts|
        invariant passenger.frames != [] && Emits(s, passenger.Now(), NodesItems(stmts[..i]))
      {
        ghost var s' := passenger.Now();
        match stmts[i] {
          case LocalNode(x, e) => passenger.OnLocal(x, e);
          case AssignNode(a, e) => passenger.OnAssignment(a, e);
          case ExprNode(e) => passenger.OnExpr(e);
        }
        NodesSnoc(stmts, i);
        NodePlain(stmts[i]);
        EmitsPlain(s', NodeItems(stmts[i]));
        EmitsThen(s, s', passenger.Now(), NodesItems(stmts[..i]), NodeItems(stmts[i]));
      }
      assert stmts[..|stmts|] == stmts;
    }

    /** One step along a route. */
    method Advance(current: NodeId, ghost s: Snapshot, ghost done: seq<Item>, ghost rest: seq<Visit>, ghost stop: NodeId, ghost items: seq<Item>)
      returns (r: Visited)
      requires nodeCount == |graph.nodes| && rest != [] && current == First(rest, stop)
      requires Midway(graph, s, passenger.Now(), done, rest, stop, items)
      modifies passenger
      ensures r.Panicked? ==> HasBreak(items)
      ensures !r.Panicked? ==>
        && r == Onto(First(rest[1..], stop))
        && Midway(graph, s, passenger.Now(), done + VisitItems(rest[0]), rest[1..], stop, items)
      decreases RouteSize(rest), 2
    {
      hide RouteItems, Emits, HasBreak, Unique, Ids, VisitOk, VisitItems;
      ghost var v, next := rest[0], First(rest[1..], stop);
      RouteSplit(rest);
      FactsAppend(VisitItems(v), RouteItems(rest[1..]));
      ghost var s' := passenger.Now();
      RouteFirst(graph, rest[1..], stop);
      FirstHead(graph, rest[1..], stop);
      r := VisitNode(current, v, next);
      FactsAppend(done, VisitItems(v));
      assert done + (VisitItems(v) + RouteItems(rest[1..])) == done + VisitItems(v) + RouteItems(rest[1..]);
      FactsAppend(done + VisitItems(v), RouteItems(rest[1..]));
      if r.Onto? {
        StaysReady(s', passenger.Now(), VisitItems(v), RouteItems(rest[1..]));
        EmitsThen(s, s', passenger.Now(), done, VisitItems(v));
      }
    }

    /** The loop all walks share: along a path until a merge, or until a loop's foot. */
    method Walk(from: NodeId, toMerge: bool, ghost route: seq<Visit>, ghost stop: NodeId) returns (r: Visited)
      requires nodeCount == |graph.nodes| && |route| < nodeCount
      requires RouteOk(graph, route, stop) && from == First(route, stop) && IsStop(graph.nodes[stop], toMerge)
      requires Ready(passenger.Now(), RouteItems(route))
      modifies passenger
      ensures Takes(old(passenger.Now()), passenger.Now(), RouteItems(route), r, stop)
      decreases RouteSize(route), 3
    {
      hide RouteItems, Emits, HasBreak, Unique, Ids, VisitOk, VisitItems;
      var current := from;
      ghost var s, items := passenger.Now(), RouteItems(route);
      ghost var done: seq<Item>, rest := [], route;
      EmitsNothing(s);
      NoJumps();
      for k := 0 to nodeCount
        invariant k + |rest| == |route| && current == First(rest, stop) && RouteSize(rest) <= RouteSize(route)
        invariant Midway(graph, s, passenger.Now(), done, rest, stop, items)
      {
        RouteFirst(graph, rest, stop);
        FirstIs(graph, rest, stop);
        if IsStop(graph.nodes[current], toMerge) {
          RouteNothing();
          assert done + [] == done;
          return Onto(current);
        }
        RouteSplit(rest);
        var visited := Advance(current, s, done, rest, stop, items);
        if !visited.Onto? {
          return visited;
        }
        done, rest := done + VisitItems(rest[0]), rest[1..];
        current := visited.node;
      }
      assert false;
    }

    /** One node, with everything between it and the node the walk goes on to. */
    method VisitNode(current: NodeId, ghost v: Visit, ghost next: NodeId) returns (r: Visited)
      requires nodeCount == |graph.nodes| && VisitOk(graph, v, next) && next < nodeCount && current == At(v)
      requires Ready(passenger.Now(), VisitItems(v)) && Beyond(graph, next, VisitItems(v))
      modifies passenger
      ensures Takes(old(passenger.Now()), passenger.Now(), VisitItems(v), r, next)
      decreases VisitSize(v), 1
    {
      hide NodesItems, Stored, PlacedSeq, Unique, Ids, ExprCode, ReturnCode, Emits;
      VisitNodeIs(graph, v, next);
      ghost var s := passenger.Now();
      match graph.nodes[current] {
        case EnterScope =>
          EmitsNothing(s);
          NoJumps();
          r := Onwards(current, next);
        case ExitScope =>
          EmitsNothing(s);
          NoJumps();
          r := Onwards(current, next);
        case Block(stmts) =>
          VisitBlock(stmts);
          NodesPlain(stmts);
          PlainQuiet(NodesItems(stmts));
          r := Onwards(current, next);
        case ReturnNode(value) =>
          passenger.OnReturn(value);
          ReturnQuiet(value);
          EmitsPlain(s, FragmentItems(SReturn(value)));
          var after := AfterReturn(graph, current);
          r := Onto(after.value);
        case ContinueNode(id) =>
          passenger.OnContinue(id);
          FactsOne(ContinueItem(id));
          EmitsPlain(s, [ContinueItem(id)]);
          var after := AfterContinue(graph, current);
          r := Onto(after.value);
        case BreakNode(id) =>
          passenger.OnBreak(id);
          FactsOne(BreakItem(id));
          var after := AfterBreak(graph, current);
          match after {
            case Some(n) => r := Onto(n);
            case None => r := Panicked;
          }
        case LoopHead(id, cond) =>
          r := VisitLoop(current, id, cond, v.fragment.body, next);
        case BranchSplit(id, cond) =>
          r := VisitBranch(current, id, cond, v.fragment.arm, v.lo, next);
        case _ =>
          assert false;
      }
    }

    method Onwards(current: NodeId, ghost next: NodeId) returns (r: Visited)
      requires GraphOk(graph) && current < |graph.nodes| && graph.out[current] == [Edge(Normal, next)] && next < |graph.nodes|
      ensures r == Onto(next)
    {
      var n := Next(graph, current);
      r := Onto(n.value);
    }

    method VisitLoop(current: NodeId, id: nat, cond: Flat, ghost body: seq<Fragment>, ghost next: NodeId) returns (r: Visited)
      requires nodeCount == |graph.nodes| && Placed(graph, SWhile(id, cond, body), current, Some(next)) && next < nodeCount
      requires Ready(passenger.Now(), FragmentItems(SWhile(id, cond, body)))
      requires Beyond(graph, next, FragmentItems(SWhile(id, cond, body)))
      modifies passenger
      ensures Takes(old(passenger.Now()), passenger.Now(), FragmentItems(SWhile(id, cond, body)), r, next)
      decreases Size(SWhile(id, cond, body)), 0
    {
      hide Emits, Stored, ExprCode, FragmentsItems, RouteOk, RouteItems, Placed, FragmentItems, RouteSize, Size, HasBreak, Ids, Unique, LoopRoute, First;
      ghost var s, items := passenger.Now(), FragmentsItems(body);
      LoopReady(s, id, cond, body);
      LoopRouteOk(graph, id, cond, body, current, next);
      passenger.OnLoopHead(id, cond);
      var paths := AfterConditional(graph, current);
      var truePath, falsePath := paths.value.0, paths.value.1;
      var walked := Walk(truePath, false, LoopRoute(body, current), current + 1);
      if !walked.Onto? {
        return walked;
      }
      EmitsLoop(s, passenger.Now(), id, cond, items);
      passenger.OnLoopFoot(graph.nodes[walked.node].loop);
      var after := AfterLoopFoot(graph, falsePath);
      r := Onto(after.value);
    }

    method VisitBranch(current: NodeId, id: nat, cond: Flat, ghost a: Arm, ghost lo: NodeId, ghost next: NodeId) returns (r: Visited)
      requires nodeCount == |graph.nodes| && PlacedArm(graph, a, lo, Some(next)) && next < nodeCount
      requires current == SplitOf(a, lo) && id == a.id && cond == a.cond
      requires Ready(passenger.Now(), FragmentItems(SIf(a)))
      modifies passenger
      ensures Takes(old(passenger.Now()), passenger.Now(), FragmentItems(SIf(a)), r, next)
      decreases ArmSize(a), 0
    {
      hide Emits, Stored, ExprCode, RouteOk, RouteItems, PlacedArm, FragmentItems, FragmentsItems, ElseItems, RouteSize, ArmSize, HasBreak, Ids, Unique;
      hide ScopeRoute, ElseRoute, First, HalfBranch;
      ghost var s, thn := passenger.Now(), FragmentsItems(a.thn);
      ghost var merge := MergeOf(a, lo);
      BranchReady(s, a);
      ArmNodes(graph, a, lo, next);
      TrueRouteOk(graph, a, lo, next);
      FalseRouteOk(graph, a, lo, next);
      passenger.OnBranchSplit(id, cond);
      var paths := AfterConditional(graph, current);
      var truePath, falsePath := paths.value.0, paths.value.1;
      passenger.OnStartPath();
      var walked := Walk(truePath, true, ScopeRoute(a.thn, lo), merge);
      if !walked.Onto? {
        return walked;
      }
      EmitsTrue(s, passenger.Now(), id, cond, thn);
      passenger.OnEndTruePath();
      r := VisitFalsePath(falsePath, s, a, lo, next);
    }

    /** The other half of a branch. */
    method VisitFalsePath(falsePath: NodeId, ghost s: Snapshot, ghost a: Arm, ghost lo: NodeId, ghost next: NodeId) returns (r: Visited)
      requires nodeCount == |graph.nodes| && PlacedArm(graph, a, lo, Some(next)) && next < nodeCount
      requires falsePath == ElseEntry(a.els, MergeOf(a, lo) + 1, MergeOf(a, lo))
      requires Ready(s, FragmentItems(SIf(a))) && HalfBranch(s, passenger.Now(), a.id, a.cond, FragmentsItems(a.thn))
      requires !HasBreak(FragmentsItems(a.thn))
      modifies passenger
      ensures Takes(s, passenger.Now(), FragmentItems(SIf(a)), r, next)
      decreases ArmSize(a) - 1, 4
    {
      hide Emits, Stored, ExprCode, RouteOk, RouteItems, PlacedArm, FragmentItems, FragmentsItems, ElseItems, RouteSize, ArmSize, HasBreak, Ids, Unique;
      hide ScopeRoute, ElseRoute, First, HalfBranch;
      ghost var thn, els := FragmentsItems(a.thn), ElseItems(a.els);
      ghost var merge := MergeOf(a, lo);
      BranchReady(s, a);
      ArmNodes(graph, a, lo, next);
      FalseRouteOk(graph, a, lo, next);
      ghost var half := passenger.Now();
      HalfReady(s, half, a);
      passenger.OnStartPath();
      var walked := Walk(falsePath, true, ElseRoute(a.els, merge + 1), merge);
      if !walked.Onto? {
        return walked;
      }
      EmitsBranch(s, half, passenger.Now(), a.id, a.cond, thn, els);
      passenger.OnEndFalsePath();
      passenger.OnBranchMerge(graph.nodes[walked.node].branch);
      r := Onwards(walked.node, next);
    }

    /** The whole walk; `false` is a panic.  It never runs out of its bound, and leaves no frame and no state behind. */
    method Traverse(ghost fs: seq<Fragment>, ghost returnsUnit: bool) returns (ok: bool)
      requires nodeCount == |graph.nodes| && WholeGraph(graph, fs, returnsUnit)
      requires passenger.Now() == Snapshot(None, map[], map[], [], []) && Unique(WholeItems(fs, returnsUnit))
      modifies passenger
      ensures ok <==> !HasBreak(WholeItems(fs, returnsUnit))
      ensures ok ==> Collected(passenger.Now(), WholeItems(fs, returnsUnit))
    {
      hide RouteItems, Emits, HasBreak, Unique, Ids, VisitOk, VisitItems, WholeItems, WholeRoute, WholeGraph, RouteOk, Midway, Collected;
      ghost var items, route := WholeItems(fs, returnsUnit), WholeRoute(fs, returnsUnit);
      ghost var done: seq<Item>, rest := [], route;
      WholeRouteOk(graph, fs, returnsUnit);
      var current: Option<NodeId> := Some(0);
      for k := 0 to nodeCount
        invariant current.Some? && k > 0 ==> k + |rest| == |route| + 1
        invariant k == 0 ==> current == Some(0) && passenger.Now() == Snapshot(None, map[], map[], [], []) && done == [] && rest == route
        invariant k > 0 && current.Some? ==>
          current.value == First(rest, 1) && Midway(graph, Opened(), passenger.Now(), done, rest, 1, items)
        invariant current.None? ==> Collected(passenger.Now(), items) && !HasBreak(items)
      {
        if current.None? {
          break;
        }
        if k > 0 {
          MidwayFirst(graph, Opened(), passenger.Now(), done, rest, 1, items);
        }
        match graph.nodes[current.value] {
          case Start =>
            passenger.OnStart();
            assert passenger.Now() == Opened();
            SetOut(graph, rest, 1, items);
            var next := Next(graph, current.value);
            current := Some(next.value);
          case End =>
            Finished(graph, passenger.Now(), done, 1, items);
            passenger.OnEnd();
            current := None;
          case _ =>
            var visited := Advance(current.value, Opened(), done, rest, 1, items);
            if !visited.Onto? {
              return false;
            }
            done, rest := done + VisitItems(rest[0]), rest[1..];
            current := Some(visited.node);
        }
      }
      ok := current.None?;
    }
  }

  function Opened(): Snapshot { Snapshot(None, map[], map[], [[]], [AtStart]) }

  /** The frame of a whole function. */
  function WholeItems(fs: seq<Fragment>, returnsUnit: bool): seq<Item> {
    FragmentsItems(fs) + if returnsUnit then [Plain(Instruction.Return(None))] else []
  }

  function WholeRoute(fs: seq<Fragment>, returnsUnit: bool): seq<Visit> {
    var enter := 2 + Sizes(fs);
    [AtEnter(enter)] + FragmentsRoute(fs, 2)
      + (if returnsUnit then [AtFragment(SReturn(None), enter + 1), AtExit(enter + 2)] else [AtExit(enter + 1)])
  }

  /** What the pass hands on: the function's frame, with every nested frame in its table. */
  ghost predicate Collected(s: Snapshot, items: seq<Item>) {
    s.instructions == Some(Entries(items)) && s.frames == [] && s.states == [] && Stored(s.loops, s.branches, items)
  }

  lemma SetOut(g: Graph, route: seq<Visit>, stop: NodeId, items: seq<Item>)
    requires RouteOk(g, route, stop) && !g.nodes[stop].LoopHead? && RouteItems(route) == items && Unique(items)
    ensures Midway(g, Opened(), Opened(), [], route, stop, items)
  {
    EmitsNothing(Opened());
  }

  /** At the end of the route everything has been emitted. */
  lemma Finished(g: Graph, s: Snapshot, done: seq<Item>, stop: NodeId, items: seq<Item>)
    requires Midway(g, Opened(), s, done, [], stop, items)
    ensures s.states == [AtStart] && |s.frames| == 1 && s.instructions == None && !HasBreak(items)
    ensures Collected(s.(states := [], frames := [], instructions := Some(s.frames[0])), items)
  {
    assert done + [] == done;
    assert [] + Entries(items) == Entries(items);
  }

  lemma MidwayFirst(g: Graph, s: Snapshot, s': Snapshot, done: seq<Item>, rest: seq<Visit>, stop: NodeId, items: seq<Item>)
    requires Midway(g, s, s', done, rest, stop, items) && g.nodes[stop].End?
    ensures var n := First(rest, stop); n < |g.nodes| && !g.nodes[n].Start? && (g.nodes[n].End? <==> rest == [])
  {
    FirstIs(g, rest, stop);
  }

  /** The next node of a route is that of a visit, or the stop. */
  lemma FirstIs(g: Graph, route: seq<Visit>, stop: NodeId)
    requires RouteOk(g, route, stop)
    ensures route != [] ==> VisitOk(g, route[0], First(route[1..], stop)) && RouteOk(g, route[1..], stop)
    ensures First(route, stop) < |g.nodes|
    ensures route != [] ==> var node := g.nodes[First(route, stop)];
      !node.Start? && !node.End? && !node.BranchMerge? && !node.LoopFoot?
  {
    RouteFirst(g, route, stop);
    if route != [] {
      VisitNodeIs(g, route[0], First(route[1..], stop));
    }
  }

  lemma WholeRouteOk(g: Graph, fs: seq<Fragment>, returnsUnit: bool)
    requires WholeGraph(g, fs, returnsUnit)
    ensures var r := WholeRoute(fs, returnsUnit);
      && RouteOk(g, r, 1) && RouteItems(r) == WholeItems(fs, returnsUnit) && |r| + 2 <= |g.nodes|
      && EdgesIn(g, 0) && g.nodes[0].Start? && g.out[0] == [Edge(Normal, First(r, 1))] && g.nodes[1].End?
  {
    hide PlacedSeq, FragmentsItems, Sizes, EntryOr, ExitOr, FragmentsRoute, RouteOk, RouteSize, RouteItems;
    var enter := 2 + Sizes(fs);
    var after := enter + 1;
    var exit := if returnsUnit then after + 1 else after;
    var ret := AtFragment(SReturn(None), after);
    RouteOne(g, AtExit(exit), 1);
    var tail := [AtExit(exit)];
    if returnsUnit {
      RouteOne(g, ret, exit);
      RouteAppend(g, [ret], tail, 1);
      tail := [ret] + tail;
    }
    FragmentsRouteOk(g, fs, 2, after);
    RouteAppend(g, FragmentsRoute(fs, 2), tail, 1);
    EntryOrIs(fs, 2, after);
    var middle := FragmentsRoute(fs, 2) + tail;
    RouteFirst(g, middle, 1);
    RouteOne(g, AtEnter(enter), First(middle, 1));
    RouteAppend(g, [AtEnter(enter)], middle, 1);
    assert WholeRoute(fs, returnsUnit) == [AtEnter(enter)] + middle;
    assert RouteItems(tail) == if returnsUnit then [Plain(Instruction.Return(None))] else [];
  }

  /** The walk goes on outside: not at the head of one of the loops just passed. */
  ghost predicate Beyond(g: Graph, next: NodeId, items: seq<Item>) {
    next < |g.nodes| && (g.nodes[next].LoopHead? ==> g.nodes[next].loop !in Ids(items))
  }

  lemma FirstHead(g: Graph, route: seq<Visit>, stop: NodeId)
    requires RouteOk(g, route, stop) && !g.nodes[stop].LoopHead?
    ensures var n := First(route, stop); n < |g.nodes| && (g.nodes[n].LoopHead? ==> g.nodes[n].loop in Ids(RouteItems(route)))
  {
    hide Placed, FragmentsItems, Ids, ExprCode;
    RouteFirst(g, route, stop);
    if route != [] {
      var v := route[0];
      VisitNodeIs(g, v, First(route[1..], stop));
      if v.AtFragment? && v.fragment.SWhile? {
        FactsOne(FragmentItems(v.fragment)[0]);
      }
      FactsAppend(VisitItems(route[0]), RouteItems(route[1..]));
    }
  }

  lemma ReturnQuiet(value: Option<Flat>)
    ensures var items := FragmentItems(SReturn(value)); !HasBreak(items) && forall x :: x in items ==> x.Plain?
  {
    hide TranslateExpr;
    if value.Some? {
      FactsPlain(ReturnCode(value.value));
    } else {
      FactsOne(Plain(Instruction.Return(None)));
    }
  }

  /** A loop the pass can take in leaves room for its body. */
  lemma LoopReady(s: Snapshot, id: nat, cond: Flat, body: seq<Fragment>)
    requires Ready(s, FragmentItems(SWhile(id, cond, body)))
    ensures var items := FragmentsItems(body);
      && id !in Keys(s) && id !in Ids(items) && Ready(EnterLoop(s, id, cond), items)
      && (HasBreak(FragmentItems(SWhile(id, cond, body))) <==> HasBreak(items))
    ensures id in Ids(FragmentItems(SWhile(id, cond, body)))
    ensures FragmentItems(SWhile(id, cond, body)) == [Loop(id, ExprCode(cond), TmpArg(ResultId(cond)), FragmentsItems(body))]
  {
    hide FragmentsItems, ExprCode, Ids, Unique, HasBreak;
    FactsOne(FragmentItems(SWhile(id, cond, body))[0]);
  }

  /** A branch the pass can take in leaves room for its true path, and then for its false path. */
  lemma BranchReady(s: Snapshot, a: Arm)
    requires Ready(s, FragmentItems(SIf(a)))
    ensures var thn, els := FragmentsItems(a.thn), ElseItems(a.els);
      && a.id !in Keys(s) && a.id !in Ids(thn) && a.id !in Ids(els)
      && Ready(OpenPath(EnterBranch(s, a.id, a.cond)), thn)
      && (HasBreak(FragmentItems(SIf(a))) <==> HasBreak(thn) || HasBreak(els))
      && FragmentItems(SIf(a)) == [Branch(a.id, ExprCode(a.cond), TmpArg(ResultId(a.cond)), thn, els)]
  {
    hide FragmentsItems, ElseItems, ExprCode, Ids, Unique, HasBreak;
    FactsOne(FragmentItems(SIf(a))[0]);
  }

  lemma HalfReady(s: Snapshot, half: Snapshot, a: Arm)
    requires Ready(s, FragmentItems(SIf(a))) && HalfBranch(s, half, a.id, a.cond, FragmentsItems(a.thn))
    ensures Ready(OpenPath(half), ElseItems(a.els))
  {
    hide FragmentsItems, ElseItems, ExprCode, Ids, Unique, HasBreak, Stored;
    FactsOne(FragmentItems(SIf(a))[0]);
  }

  /** A split with its two ways on, and the merge behind it. */
  lemma ArmNodes(g: Graph, a: Arm, lo: NodeId, next: NodeId)
    requires PlacedArm(g, a, lo, Some(next)) && next < |g.nodes|
    ensures var sp, mg := SplitOf(a, lo), MergeOf(a, lo);
      && GraphOk(g) && sp < mg < |g.nodes| && g.nodes[sp].BranchSplit?
      && g.out[sp] == [Edge(FalseEdge, ElseEntry(a.els, mg + 1, mg)), Edge(TrueEdge, lo + Sizes(a.thn))]
      && g.nodes[mg] == BranchMerge(a.id) && g.out[mg] == [Edge(Normal, next)]
    ensures ArmInside(g, a, lo) && PlacedElse(g, a.els, MergeOf(a, lo) + 1, MergeOf(a, lo))
  {
    hide PlacedSeq, ScopeOf;
  }

  lemma TrueRouteOk(g: Graph, a: Arm, lo: NodeId, next: NodeId)
    requires PlacedArm(g, a, lo, Some(next)) && next < |g.nodes|
    ensures var t, mg := ScopeRoute(a.thn, lo), MergeOf(a, lo);
      && RouteOk(g, t, mg) && First(t, mg) == lo + Sizes(a.thn) < |g.nodes| && RouteItems(t) == FragmentsItems(a.thn)
      && RouteSize(t) < ArmSize(a) && |t| < |g.nodes|
  {
    hide PlacedSeq, ScopeOf, RouteOk, RouteItems, RouteSize, FragmentsItems, PlacedElse;
    ArmNodes(g, a, lo, next);
    ScopeRouteOk(g, a.thn, lo, MergeOf(a, lo));
    RouteFirst(g, ScopeRoute(a.thn, lo), MergeOf(a, lo));
  }

  lemma FalseRouteOk(g: Graph, a: Arm, lo: NodeId, next: NodeId)
    requires PlacedArm(g, a, lo, Some(next)) && next < |g.nodes|
    ensures var mg := MergeOf(a, lo);
      var f := ElseRoute(a.els, mg + 1);
      && RouteOk(g, f, mg) && First(f, mg) == ElseEntry(a.els, mg + 1, mg) < |g.nodes| && RouteItems(f) == ElseItems(a.els)
      && RouteSize(f) < ArmSize(a) && |f| < |g.nodes|
  {
    hide PlacedSeq, ScopeOf, RouteOk, RouteItems, RouteSize, FragmentsItems, ArmItem, PlacedArm, ArmInside;
    var mg := MergeOf(a, lo);
    ArmNodes(g, a, lo, next);
    match a.els {
      case NoElse => EmptyRoute(g, mg);
      case ElseBlock(b) => ScopeRouteOk(g, b, mg + 1, mg);
      case ElseIf(inner) => RouteOne(g, AtFragment(SIf(inner), mg + 1), mg);
    }
    RouteFirst(g, ElseRoute(a.els, mg + 1), mg);
  }

  lemma EmptyRoute(g: Graph, stop: NodeId)
    requires stop < |g.nodes|
    ensures RouteOk(g, [], stop) && RouteItems([]) == [] && RouteSize([]) == 0
  {
  }

  lemma LoopRouteOk(g: Graph, id: nat, cond: Flat, body: seq<Fragment>, lo: NodeId, next: NodeId)
    requires Placed(g, SWhile(id, cond, body), lo, Some(next)) && next < |g.nodes|
    ensures var r := LoopRoute(body, lo);
      && RouteOk(g, r, lo + 1) && First(r, lo + 1) == LoopTarget(body, lo) && RouteItems(r) == FragmentsItems(body)
      && RouteSize(r) + 1 < Size(SWhile(id, cond, body)) && |r| < |g.nodes|
    ensures EdgesIn(g, lo) && g.nodes[lo].LoopHead? && g.out[lo] == [Edge(TrueEdge, LoopTarget(body, lo)), Edge(FalseEdge, lo + 1)]
    ensures EdgesIn(g, lo + 1) && g.nodes[lo + 1] == LoopFoot(id) && g.out[lo + 1] == [Edge(Normal, next), Edge(BackEdge, lo)]
  {
    hide PlacedSeq;
    if body != [] {
      ScopeRouteOk(g, body, lo + 2, lo + 1);
    }
  }

  /** Somewhere along a route: the first visits have emitted `done`, without a break; the others still fit. */
  ghost predicate Midway(g: Graph, s: Snapshot, s': Snapshot, done: seq<Item>, rest: seq<Visit>, stop: NodeId, items: seq<Item>) {
    && RouteOk(g, rest, stop) && !g.nodes[stop].LoopHead?
    && Emits(s, s', done) && Ready(s', RouteItems(rest)) && done + RouteItems(rest) == items && !HasBreak(done)
  }

  predicate IsStop(node: Node, toMerge: bool) { if toMerge then node.BranchMerge? else node.LoopFoot? }

  lemma RouteNothing()
    ensures RouteItems([]) == []
  {
  }

  lemma RouteSplit(route: seq<Visit>)
    requires route != []
    ensures RouteItems(route) == VisitItems(route[0]) + RouteItems(route[1..])
    ensures RouteSize(route) == VisitSize(route[0]) + RouteSize(route[1..])
  {
  }

  /** After one visit the rest of the route still fits. */
  lemma StaysReady(s: Snapshot, s': Snapshot, i: seq<Item>, j: seq<Item>)
    requires Ready(s, i + j) && Emits(s, s', i)
    ensures Ready(s', j)
  {
    hide Ids, Unique, Stored;
    FactsAppend(i, j);
  }
}
