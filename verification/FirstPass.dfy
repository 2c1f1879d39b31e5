/** The first pass: a stack of frames and a stack of states, driven by the walk over the graph. */
module FirstPass {
  import opened Values
  import opened ByteCode
  import opened ExprFlow
  import opened ByteExpr
  import opened Frames
  import opened ControlFlow
  import opened Skeleton

  datatype PassState = AtStart | Branching(branch: nat) | Looping(loop: nat)

  /** Everything the pass holds. */
  datatype Snapshot = Snapshot(
    instructions: Option<seq<Entry>>,
    loops: map<nat, LoopFrame>,
    branches: map<nat, BranchFrame>,
    frames: seq<seq<Entry>>,
    states: seq<PassState>)

  function AddToFrame(frames: seq<seq<Entry>>, es: seq<Entry>): (r: seq<seq<Entry>>)
    requires frames != []
    ensures |r| == |frames|
  {
    frames[|frames| - 1 := frames[|frames| - 1] + es]
  }

  function Lift(code: seq<Instruction>): seq<Entry> { Entries(PlainItems(code)) }

  class FirstPass {
    var instructions: Option<seq<Entry>>
    var loops: map<nat, LoopFrame>
    var branches: map<nat, BranchFrame>
    var frames: seq<seq<Entry>>
    var states: seq<PassState>

    constructor ()
      ensures Now() == Snapshot(None, map[], map[], [], [])
    {
      instructions, loops, branches, frames, states := None, map[], map[], [], [];
    }

    ghost function Now(): Snapshot
      reads this
    {
      Snapshot(instructions, loops, branches, frames, states)
    }

    method ExtendCurrentFrame(code: seq<Instruction>)
      requires frames != []
      modifies this`frames
      ensures frames == AddToFrame(old(frames), Lift(code))
    {
      frames := AddToFrame(frames, Lift(code));
    }

    method PushToCurrentFrame(e: Entry)
      requires frames != []
      modifies this`frames
      ensures frames == AddToFrame(old(frames), [e])
    {
      frames := AddToFrame(frames, [e]);
    }

    method NewFrame()
      modifies this`frames
      ensures frames == old(frames) + [[]]
    {
      frames := frames + [[]];
    }

    method PopCurrentFrame() returns (frame: seq<Entry>)
      requires frames != []
      modifies this`frames
      ensures frames == old(frames)[..|old(frames)| - 1] && frame == old(frames)[|old(frames)| - 1]
    {
      frame := frames[|frames| - 1];
      frames := frames[..|frames| - 1];
    }

    method PushState(s: PassState)
      modifies this`states
      ensures states == old(states) + [s]
    {
      states := states + [s];
    }

    method PopState() returns (s: PassState)
      requires states != []
      modifies this`states
      ensures states == old(states)[..|old(states)| - 1] && s == old(states)[|old(states)| - 1]
    {
      s := states[|states| - 1];
      states := states[..|states| - 1];
    }

    // ---------------------------------------------------------------- callbacks of the walk

    method OnStart()
      modifies this
      ensures Now() == old(Now()).(states := old(states) + [AtStart], frames := old(frames) + [[]])
    {
      PushState(AtStart);
      NewFrame();
    }

    method OnEnd()
      requires states == [AtStart] && |frames| == 1 && instructions == None
      modifies this
      ensures Now() == old(Now()).(states := [], frames := [], instructions := Some(old(frames)[0]))
    {
      var oldState := PopState();
      assert oldState == AtStart;
      var functionBody := PopCurrentFrame();
      instructions := Some(functionBody);
    }

    method OnLoopHead(id: nat, condition: Flat)
      requires frames != [] && id !in loops
      modifies this
      ensures Now() == EnterLoop(old(Now()), id, condition)
    {
      PushToCurrentFrame(LoopEntry(id));
      NewFrame();
      loops := loops[id := LoopFrame(None, None, None)];
      var code := Translate(condition.tmps);
      loops := loops[id := loops[id].(condition := Some(Lift(code)))];
      loops := loops[id := loops[id].(result := Some(TmpArg(LastTmp(condition.tmps))))];
      PushState(Looping(id));
    }

    method OnLoopFoot(id: nat)
      requires states != [] && states[|states| - 1] == Looping(id) && frames != [] && id in loops && loops[id].body == None
      modifies this
      ensures Now() == LeaveLoop(old(Now()), id)
    {
      var oldState := PopState();
      assert oldState == Looping(id);
      var loopBody := PopCurrentFrame();
      loops := loops[id := loops[id].(body := Some(loopBody))];
    }

    method OnContinue(id: nat)
      requires frames != []
      modifies this
      ensures Now() == Extend(old(Now()), [ContinueItem(id)])
    {
      PushToCurrentFrame(ContinueEntry(id));
      EntriesOne(ContinueItem(id));
    }

    method OnBreak(id: nat)
      requires frames != []
      modifies this
      ensures Now() == Extend(old(Now()), [BreakItem(id)])
    {
      PushToCurrentFrame(BreakEntry(id));
      EntriesOne(BreakItem(id));
    }

    method OnLocal(name: string, init: Flat)
      requires frames != []
      modifies this
      ensures Now() == Extend(old(Now()), NodeItems(LocalNode(name, init)))
    {
      var code := Translate(init.tmps);
      ExtendCurrentFrame(code);
      PushToCurrentFrame(PlainEntry(Store(Namespace(User(name)), TmpArg(LastTmp(init.tmps)))));
      AddTwice(old(frames), code, Store(Namespace(User(name)), TmpArg(LastTmp(init.tmps))));
    }

    method OnExpr(e: Flat)
      requires frames != []
      modifies this
      ensures Now() == Extend(old(Now()), NodeItems(ExprNode(e)))
    {
      var code := Translate(e.tmps);
      ExtendCurrentFrame(code);
    }

    method OnReturn(value: Option<Flat>)
      requires frames != []
      modifies this
      ensures Now() == Extend(old(Now()), FragmentItems(SReturn(value)))
    {
      if value.Some? {
        var code := Translate(value.value.tmps);
        ExtendCurrentFrame(code);
        PushToCurrentFrame(PlainEntry(Instruction.Return(Some(TmpArg(LastTmp(value.value.tmps))))));
        AddTwice(old(frames), code, Instruction.Return(Some(TmpArg(LastTmp(value.value.tmps)))));
      } else {
        PushToCurrentFrame(PlainEntry(Instruction.Return(None)));
        EntriesOne(Plain(Instruction.Return(None)));
      }
    }

    method OnBranchSplit(id: nat, condition: Flat)
      requires frames != [] && id !in branches
      modifies this
      ensures Now() == EnterBranch(old(Now()), id, condition)
    {
      PushToCurrentFrame(BranchEntry(id));
      branches := branches[id := BranchFrame(None, None, None, None)];
      var code := Translate(condition.tmps);
      branches := branches[id := branches[id].(condition := Some(Lift(code)))];
      branches := branches[id := branches[id].(result := Some(TmpArg(LastTmp(condition.tmps))))];
      PushState(Branching(id));
    }

    method OnBranchMerge(id: nat)
      requires states != [] && states[|states| - 1] == Branching(id)
      modifies this`states
      ensures states == old(states)[..|old(states)| - 1]
    {
      var oldState := PopState();
      assert oldState == Branching(id);
    }

    method OnStartPath()
      modifies this`frames
      ensures frames == old(frames) + [[]]
    {
      NewFrame();
    }

    method OnEndTruePath()
      requires frames != [] && states != [] && states[|states| - 1].Branching?
      requires var id := states[|states| - 1].branch; id in branches && branches[id].thn == None
      modifies this
      ensures Now() == LeaveTrue(old(Now()))
    {
      var trueInstructions := PopCurrentFrame();
      var id := states[|states| - 1].branch;
      branches := branches[id := branches[id].(thn := Some(trueInstructions))];
    }

    method OnEndFalsePath()
      requires frames != [] && states != [] && states[|states| - 1].Branching?
      requires var id := states[|states| - 1].branch; id in branches && branches[id].els == None
      modifies this
      ensures Now() == LeaveFalse(old(Now()))
    {
      var falseInstructions := PopCurrentFrame();
      var id := states[|states| - 1].branch;
      branches := branches[id := branches[id].(els := Some(falseInstructions))];
    }

    /** The stored value comes first, then the index expressions from left to right, then the store. */
    method OnAssignment(access: TmpAccess, value: Flat)
      requires frames != []
      modifies this
      ensures Now() == Extend(old(Now()), NodeItems(AssignNode(access, value)))
    {
      hide TranslateExpr, PathCode, PathAccess;
      var valueTmps := Translate(value.tmps);
      var accessTmps: seq<Instruction> := [];
      if access.rootIndex.Index? {
        accessTmps := Translate(access.rootIndex.order);
      }
      var pathTmps, path := TranslatePath(access.path);
      accessTmps := accessTmps + pathTmps;
      PathLength(access.path);
      var location := if |path| > 0 || access.rootIndex.Index?
        then Compound(User(access.root), if access.rootIndex.Index? then Some(TmpName(LastTmp(access.rootIndex.order))) else None, path)
        else Namespace(User(access.root));
      assert location == AccessLocation(access) && accessTmps == AccessCode(access);
      ExtendCurrentFrame(valueTmps);
      ExtendCurrentFrame(accessTmps);
      PushToCurrentFrame(PlainEntry(Store(location, TmpArg(LastTmp(value.tmps)))));
      AddThrice(old(frames), valueTmps, accessTmps, Store(location, TmpArg(LastTmp(value.tmps))));
    }
  }

  /** The index computations of a path and the path they leave, in one sweep. */
  method TranslatePath(segs: seq<TmpSeg>) returns (code: seq<Instruction>, path: seq<FieldAccess>)
    ensures code == PathCode(segs) && path == PathAccess(segs)
  {
    hide TranslateExpr, PathCode, PathAccess;
    code, path := [], [];
    PathNothing();
    for i := 0 to |segs|
      invariant code == PathCode(segs[..i]) && path == PathAccess(segs[..i])
    {
      PathSnoc(segs[..i], segs[i]);
      assert segs[..i + 1] == segs[..i] + [segs[i]];
      match segs[i] {
        case TField(x) => path := path + [Field(x)];
        case TFieldIndex(x, index) =>
          var indexCode := Translate(index);
          code := code + indexCode;
          path := path + [FieldIndex(x, TmpName(LastTmp(index)))];
      }
    }
    assert segs[..|segs|] == segs;
  }

  // ---------------------------------------------------------------- what the callbacks do

  function Extend(s: Snapshot, items: seq<Item>): Snapshot
    requires s.frames != []
  {
    s.(frames := AddToFrame(s.frames, Entries(items)))
  }

  function EnterLoop(s: Snapshot, id: nat, cond: Flat): Snapshot
    requires s.frames != []
  {
    s.(frames := AddToFrame(s.frames, [LoopEntry(id)]) + [[]], states := s.states + [Looping(id)],
       loops := s.loops[id := LoopFrame(Some(TmpArg(ResultId(cond))), Some(Lift(ExprCode(cond))), None)])
  }

  function LeaveLoop(s: Snapshot, id: nat): Snapshot
    requires s.frames != [] && s.states != [] && id in s.loops
  {
    s.(frames := s.frames[..|s.frames| - 1], states := s.states[..|s.states| - 1],
       loops := s.loops[id := s.loops[id].(body := Some(s.frames[|s.frames| - 1]))])
  }

  function EnterBranch(s: Snapshot, id: nat, cond: Flat): Snapshot
    requires s.frames != []
  {
    s.(frames := AddToFrame(s.frames, [BranchEntry(id)]), states := s.states + [Branching(id)],
       branches := s.branches[id := BranchFrame(Some(TmpArg(ResultId(cond))), Some(Lift(ExprCode(cond))), None, None)])
  }

  predicate AtBranch(s: Snapshot) {
    && s.frames != [] && s.states != [] && s.states[|s.states| - 1].Branching?
    && s.states[|s.states| - 1].branch in s.branches
  }

  function LeaveTrue(s: Snapshot): Snapshot
    requires AtBranch(s)
  {
    var id := s.states[|s.states| - 1].branch;
    s.(frames := s.frames[..|s.frames| - 1],
       branches := s.branches[id := s.branches[id].(thn := Some(s.frames[|s.frames| - 1]))])
  }

  function LeaveFalse(s: Snapshot): Snapshot
    requires AtBranch(s)
  {
    var id := s.states[|s.states| - 1].branch;
    s.(frames := s.frames[..|s.frames| - 1],
       branches := s.branches[id := s.branches[id].(els := Some(s.frames[|s.frames| - 1]))])
  }

  lemma EntriesAppend(a: seq<Item>, b: seq<Item>)
    ensures Entries(a + b) == Entries(a) + Entries(b)
  {
  }

  lemma EntriesPlain(a: seq<Instruction>, b: seq<Instruction>)
    ensures PlainItems(a + b) == PlainItems(a) + PlainItems(b)
    ensures Entries(PlainItems(a + b)) == Lift(a) + Lift(b)
    ensures |b| == 1 ==> Lift(b) == [PlainEntry(b[0])]
  {
  }

  lemma EntriesOne(x: Item)
    ensures Entries([x]) == [EntryOf(x)]
  {
  }

  lemma AddTwice(frames: seq<seq<Entry>>, code: seq<Instruction>, last: Instruction)
    requires frames != []
    ensures AddToFrame(AddToFrame(frames, Lift(code)), [PlainEntry(last)]) == AddToFrame(frames, Lift(code + [last]))
  {
    EntriesPlain(code, [last]);
    assert frames[|frames| - 1] + Lift(code) + [PlainEntry(last)] == frames[|frames| - 1] + Lift(code + [last]);
  }

  lemma AddThrice(frames: seq<seq<Entry>>, a: seq<Instruction>, b: seq<Instruction>, last: Instruction)
    requires frames != []
    ensures AddToFrame(AddToFrame(AddToFrame(frames, Lift(a)), Lift(b)), [PlainEntry(last)]) == AddToFrame(frames, Lift(a + b + [last]))
  {
    EntriesPlain(a, b);
    assert frames[|frames| - 1] + Lift(a) + Lift(b) == frames[|frames| - 1] + Lift(a + b);
    AddTwice(frames, a + b, last);
  }

  lemma PathNothing()
    ensures PathCode([]) == [] && PathAccess([]) == []
  {
  }

  lemma {:induction false} PathLength(path: seq<TmpSeg>)
    ensures |PathAccess(path)| == |path|
  {
    if path != [] {
      PathLength(path[1..]);
    }
  }

  lemma {:induction false} PathSnoc(path: seq<TmpSeg>, s: TmpSeg)
    ensures PathCode(path + [s]) == PathCode(path) + if s.TField? then [] else TranslateExpr(s.index)
    ensures PathAccess(path + [s]) == PathAccess(path)
      + [if s.TField? then FieldAccess.Field(s.name) else FieldAccess.FieldIndex(s.name, TmpName(LastTmp(s.index)))]
  {
    hide TranslateExpr;
    if path == [] {
      assert path + [s] == [s] && [s][1..] == [];
      PathNothing();
    } else {
      assert (path + [s])[1..] == path[1..] + [s];
      PathSnoc(path[1..], s);
    }
  }
}
