/** From a function's body to its bytecode: graph, walk, inlining, resolution. */
module Pipeline {
  import opened Values
  import opened Syntax
  import opened ByteCode
  import opened ExprFlow
  import opened ExprBuilder
  import opened Frames
  import opened FrameFacts
  import opened ControlFlow
  import opened Skeleton
  import opened CfgBuilder
  import opened FirstPass
  import opened Traversal
  import opened SecondPass
  import opened ThirdPass
  import opened Layout
  import opened JumpResolution
  import opened Compiler

  datatype Output = Emitted(code: seq<Instruction>) | Refused(error: JumpError) | Panic

  lemma {:induction false} StrayIsOutside(stmts: seq<Stmt>, inLoop: bool)
    ensures FirstStray(stmts, inLoop).None? <==> JumpsInLoops(stmts, inLoop)
    decreases stmts
  {
    if stmts != [] {
      StmtStrayIsOutside(stmts[0], inLoop);
      StrayIsOutside(stmts[1..], inLoop);
    }
  }

  lemma {:induction false} StmtStrayIsOutside(s: Stmt, inLoop: bool)
    ensures StmtStray(s, inLoop).None? <==> StmtJumpsInLoops(s, inLoop)
    decreases s
  {
    match s {
      case While(_, body) => StrayIsOutside(body, true);
      case If(_, body, rest) =>
        StrayIsOutside(body, inLoop);
        ArmsStrayIsOutside(rest, inLoop);
      case _ =>
    }
  }

  lemma {:induction false} ArmsStrayIsOutside(a: Arms, inLoop: bool)
    ensures ArmsStray(a, inLoop).None? <==> ArmsJumpsInLoops(a, inLoop)
    decreases a
  {
    match a {
      case NoMore =>
      case Default(b) => StrayIsOutside(b, inLoop);
      case Elif(_, b, rest) =>
        StrayIsOutside(b, inLoop);
        ArmsStrayIsOutside(rest, inLoop);
    }
  }

  /** What holds of the frame tree of every body the graph builder accepts. */
  lemma FunctionFrames(d: FnDef)
    ensures var fs := SkelOf(d.body, [], d.firstId, 0).fragments;
      && WholeItems(fs, d.returnsUnit) == FunctionItems(d) && Unique(FunctionItems(d))
      && UniqueMarkers(Inline(FunctionItems(d)))
      && (HasBreak(FunctionItems(d)) <==> Breaks(d.body))
      && (HasContinue(FunctionItems(d)) <==> Continues(d.body))
      && (JumpsInLoops(d.body, false) ==> Enclosed(FunctionItems(d), {}))
  {
    hide SkelOf, BlockCode, Inline, UniqueMarkers, FragmentsItems, Unique, Ids, HasBreak, HasContinue, Enclosed, Breaks, Continues, JumpsInLoops;
    var c := BlockCode(d.body, d.firstId, 0);
    var tail := if d.returnsUnit then [Plain(Instruction.Return(None))] else [];
    SkelBody(d.body, d.firstId, 0);
    BlockDrawn(d.body, d.firstId, 0);
    BlockJumps(d.body, d.firstId, 0);
    FunctionMarkers(d);
    TailFacts(d.returnsUnit);
    FactsAppend(c.items, tail);
    EnclosedAppend(c.items, tail, {});
    if JumpsInLoops(d.body, false) {
      BlockEnclosed(d.body, d.firstId, 0, false);
    }
  }

  lemma TailFacts(returnsUnit: bool)
    ensures var tail := if returnsUnit then [Plain(Instruction.Return(None))] else [];
      Unique(tail) && Ids(tail) == {} && !HasBreak(tail) && !HasContinue(tail) && Enclosed(tail, {})
  {
    var x := Plain(Instruction.Return(None));
    FactsOne(x);
    EnclosedOne(x, {});
  }

  /** The whole pipeline.  It refuses exactly the bodies with a jump outside any loop, panics exactly on those with
      a break, and emits what is meant exactly when there is no continue. */
  method CompileToByteCode(d: FnDef) returns (r: Output)
    ensures FirstStray(d.body, false).Some? ==> r == Refused(FirstStray(d.body, false).value)
    ensures FirstStray(d.body, false).None? ==>
      && (r.Panic? <==> Breaks(d.body)) && (r.Emitted? <==> !Breaks(d.body))
      && (r == Emitted(CompileFn(d).code) <==> !Breaks(d.body) && !Continues(d.body))
    ensures r.Emitted? ==> var xs := Inline(FunctionItems(d)); WrittenPrefix(xs, |xs|) == Some(r.code)
  {
    hide SkelOf, FunctionItems, Inline, UniqueMarkers, Unique, HasBreak, HasContinue, Enclosed, Breaks, Continues, JumpsInLoops;
    hide WholeItems, WholeGraph, FirstStray, Resolve, WrittenPrefix, Stored;
    FunctionFrames(d);
    StrayIsOutside(d.body, false);
    ghost var fs, items := SkelOf(d.body, [], d.firstId, 0).fragments, FunctionItems(d);

    var local := new LocalData(d.firstId);
    var cfg := new Cfg();
    var generated := cfg.Generate(local, d.body, d.returnsUnit);
    if generated.Rejected? {
      return Refused(generated.error);
    }

    var firstPass := new FirstPass();
    var traverser := new Traverser(cfg.graph, firstPass);
    var walked := traverser.Traverse(fs, d.returnsUnit);
    if !walked {
      return Panic;
    }

    var secondPass := new Inliner(firstPass.loops, firstPass.branches);
    var partial := secondPass.Flatten(firstPass.instructions.value, items);

    JumpsAsWritten(items);
    var thirdPass := new Pass(partial);
    var code := thirdPass.Run();
    r := match code case Some(c) => Emitted(c) case None => Panic;
  }

  // ---------------------------------------------------------------- the jumps, seen on two bodies

  function Forever(body: seq<Stmt>): FnDef {
    FnDef([], [While(Lit(LBool(true)), body)], true, 0)
  }

  /** What the last pass makes of a function whose jumps are in loops. */
  lemma WrittenOf(d: FnDef)
    requires JumpsInLoops(d.body, false)
    ensures var xs := Inline(FunctionItems(d));
      && (WrittenPrefix(xs, |xs|).None? <==> Breaks(d.body))
      && (WrittenPrefix(xs, |xs|) == Some(Resolve(xs)) <==> !Breaks(d.body) && !Continues(d.body))
  {
    hide FunctionItems, Inline, HasBreak, HasContinue, Enclosed, WrittenPrefix, Resolve, Breaks, Continues, JumpsInLoops, UniqueMarkers, Unique;
    FunctionFrames(d);
    JumpsAsWritten(FunctionItems(d));
  }

  lemma OnlyJump(s: Stmt)
    requires s.Break? || s.Continue?
    ensures JumpsInLoops([s], true) && (Breaks([s]) <==> s.Break?) && (Continues([s]) <==> s.Continue?)
  {
    var one := [s];
    assert one[0] == s && one[1..] == [];
    assert JumpsInLoops(one[1..], true) && !Breaks(one[1..]) && !Continues(one[1..]);
  }

  lemma OnlyLoop(s: Stmt, body: seq<Stmt>)
    requires s.While? && s.body == body && JumpsInLoops(body, true)
    ensures JumpsInLoops([s], false) && (Breaks([s]) <==> Breaks(body)) && (Continues([s]) <==> Continues(body))
  {
    var one := [s];
    assert one[0] == s && one[1..] == [];
    assert JumpsInLoops(one[1..], false) && !Breaks(one[1..]) && !Continues(one[1..]);
  }

  lemma ForeverJumps(s: Stmt)
    requires s.Break? || s.Continue?
    ensures var body := Forever([s]).body;
      JumpsInLoops(body, false) && (Breaks(body) <==> s.Break?) && (Continues(body) <==> s.Continue?)
  {
    OnlyJump(s);
    OnlyLoop(While(Lit(LBool(true)), [s]), [s]);
  }

  /** `while true { break; }` makes the last pass panic. */
  lemma BreakInALoop()
    ensures var xs := Inline(FunctionItems(Forever([Break]))); WrittenPrefix(xs, |xs|).None?
  {
    hide FunctionItems, Inline, WrittenPrefix, Resolve, Breaks, Continues, JumpsInLoops, Forever;
    ForeverJumps(Break);
    WrittenOf(Forever([Break]));
  }

  /** `while true { continue; }` goes through, as code that is not what is meant. */
  lemma ContinueInALoop()
    ensures var xs := Inline(FunctionItems(Forever([Continue]))); WrittenPrefix(xs, |xs|).Some? && WrittenPrefix(xs, |xs|).value != Resolve(xs)
  {
    hide FunctionItems, Inline, WrittenPrefix, Resolve, Breaks, Continues, JumpsInLoops, Forever;
    ForeverJumps(Continue);
    WrittenOf(Forever([Continue]));
  }
}
