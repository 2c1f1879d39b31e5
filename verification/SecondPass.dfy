/** Inlining of loop and branch frames with computed relative jumps. */
module SecondPass {
  import opened Values
  import opened ByteCode
  import opened Frames

  datatype Partial =
    | Instr(instr: Instruction)
    | LoopBegin(id: nat)    // marker before the loop condition
    | LoopEnd(id: nat)      // marker after the looper instruction
    | ContinueTo(id: nat)
    | BreakTo(id: nat)

  predicate IsMarker(x: Partial) { x.LoopBegin? || x.LoopEnd? }

  /** The number of instructions a sequence stands for: markers do not count. */
  function Len(xs: seq<Partial>): (n: nat)
    ensures n <= |xs|
  {
    if xs == [] then 0 else Len(xs[..|xs| - 1]) + if IsMarker(xs[|xs| - 1]) then 0 else 1
  }

  function Instrs(code: seq<Instruction>): seq<Partial> {
    seq(|code|, i requires 0 <= i < |code| => Instr(code[i]))
  }

  function InlineItem(x: Item): seq<Partial> {
    match x
    case Plain(i) => [Instr(i)]
    case Loop(id, cond, result, body) => LoopShape(id, cond, result, Inline(body))
    case Branch(id, cond, result, thn, els) => BranchShape(cond, result, Inline(thn), Inline(els))
    case ContinueItem(id) => [ContinueTo(id)]
    case BreakItem(id) => [BreakTo(id)]
  }

  function Inline(items: seq<Item>): seq<Partial> {
    if items == [] then [] else InlineItem(items[0]) + Inline(items[1..])
  }

  function LoopShape(id: nat, cond: seq<Instruction>, result: Arg, body: seq<Partial>): seq<Partial> {
    [LoopBegin(id)] + Instrs(cond)
      + [Instr(RelJumpNegateCondition(Len(body) + 2, result))]
      + body
      + [Instr(RelJump(-(Len(body) + |cond|) - 1))]
      + [LoopEnd(id)]
  }

  function BranchShape(cond: seq<Instruction>, result: Arg, thn: seq<Partial>, els: seq<Partial>): seq<Partial> {
    Instrs(cond)
      + [Instr(RelJumpCondition(Len(els) + 2, result))]
      + els
      + [Instr(RelJump(Len(thn) + 1))]
      + thn
  }

  lemma {:induction false} LenAppend(a: seq<Partial>, b: seq<Partial>)
    ensures Len(a + b) == Len(a) + Len(b)
  {
    if b == [] {
      assert a + b == a;
    } else {
      assert (a + b)[..|a + b| - 1] == a + b[..|b| - 1];
      LenAppend(a, b[..|b| - 1]);
    }
  }

  lemma {:induction false} LenInstrs(code: seq<Instruction>)
    ensures Len(Instrs(code)) == |code|
  {
    if code != [] {
      assert Instrs(code)[..|code| - 1] == Instrs(code[..|code| - 1]);
      LenInstrs(code[..|code| - 1]);
    }
  }

  lemma {:induction false} InlineAppend(a: seq<Item>, b: seq<Item>)
    ensures Inline(a + b) == Inline(a) + Inline(b)
  {
    if a == [] {
      assert a + b == b;
    } else {
      assert (a + b)[1..] == a[1..] + b;
      InlineAppend(a[1..], b);
    }
  }

  lemma {:induction false} InlinePlain(code: seq<Instruction>)
    ensures Inline(PlainItems(code)) == Instrs(code)
  {
    if code != [] {
      assert PlainItems(code)[1..] == PlainItems(code[1..]);
      InlinePlain(code[1..]);
      assert Instrs(code) == [Instr(code[0])] + Instrs(code[1..]);
    }
  }

  // ---------------------------------------------------------------- the pass over the frame tables

  /** The length that decides jump distances. */
  method FlattenedLen(xs: seq<Partial>) returns (size: nat)
    ensures size == Len(xs)
  {
    size := 0;
    for i := 0 to |xs|
      invariant size == Len(xs[..i])
    {
      assert xs[..i + 1][..i] == xs[..i];
      if !IsMarker(xs[i]) {
        size := size + 1;
      }
    }
    assert xs[..|xs|] == xs;
  }

  /** How much there is to inline. */
  ghost function Weight(items: seq<Item>): nat {
    if items == [] then 0 else ItemWeight(items[0]) + Weight(items[1..])
  }

  ghost function ItemWeight(x: Item): nat {
    match x
    case Loop(_, cond, _, body) => 1 + |cond| + Weight(body)
    case Branch(_, cond, _, thn, els) => 1 + |cond| + Weight(thn) + Weight(els)
    case _ => 1
  }

  lemma {:induction false} WeightAt(items: seq<Item>, i: nat)
    requires i < |items|
    ensures ItemWeight(items[i]) <= Weight(items)
  {
    if i > 0 {
      WeightAt(items[1..], i - 1);
    }
  }

  lemma {:induction false} WeightPlain(code: seq<Instruction>)
    ensures Weight(PlainItems(code)) == |code|
  {
    if code != [] {
      assert PlainItems(code)[1..] == PlainItems(code[1..]);
      WeightPlain(code[1..]);
    }
  }

  lemma InlineNext(items: seq<Item>, i: nat)
    requires i < |items|
    ensures Inline(items[..i + 1]) == Inline(items[..i]) + InlineItem(items[i])
  {
    assert items[..i + 1] == items[..i] + [items[i]];
    InlineAppend(items[..i], [items[i]]);
    assert Inline([items[i]]) == InlineItem(items[i]) + Inline([]);
  }

  lemma InlineNothing()
    ensures Inline([]) == []
  {
  }

  class Inliner {
    const loops: map<nat, LoopFrame>
    const branches: map<nat, BranchFrame>

    constructor (loops: map<nat, LoopFrame>, branches: map<nat, BranchFrame>)
      ensures this.loops == loops && this.branches == branches
    {
      this.loops, this.branches := loops, branches;
    }

    /** Inlines the frames a frame names.  The tree they form is what makes the recursion end; that every frame
        is found, and found complete, is the precondition the panics of the original stand for. */
    method Flatten(entries: seq<Entry>, ghost items: seq<Item>) returns (instructions: seq<Partial>)
      requires entries == Entries(items) && Stored(loops, branches, items)
      ensures instructions == Inline(items)
      decreases Weight(items)
    {
      hide Inline, Len, Weight, Instrs;
      instructions := [];
      InlineNothing();
      for i := 0 to |entries|
        invariant instructions == Inline(items[..i])
      {
        ghost var item := items[i];
        ghost var before := instructions;
        InlineNext(items, i);
        WeightAt(items, i);
        assert ItemStored(loops, branches, item);
        match entries[i] {
          case PlainEntry(instr) =>
            instructions := instructions + [Instr(instr)];

          case LoopEntry(id) =>
            var frame := loops[id];
            WeightPlain(item.cond);
            InlinePlain(item.cond);
            LenInstrs(item.cond);
            var condition := Flatten(frame.condition.value, PlainItems(item.cond));
            var conditionLen := FlattenedLen(condition);
            var body := Flatten(frame.body.value, item.body);
            var bodyLen := FlattenedLen(body);
            instructions := instructions + [LoopBegin(id)];
            instructions := instructions + condition;
            instructions := instructions + [Instr(RelJumpNegateCondition(bodyLen + 2, frame.result.value))];
            instructions := instructions + body;
            var back: int := bodyLen + conditionLen;
            instructions := instructions + [Instr(RelJump(-back - 1))];
            instructions := instructions + [LoopEnd(id)];
            assert instructions == before + LoopShape(id, item.cond, item.result, body);

          case BranchEntry(id) =>
            var frame := branches[id];
            WeightPlain(item.cond);
            InlinePlain(item.cond);
            var condition := Flatten(frame.condition.value, PlainItems(item.cond));
            var trueBranch := Flatten(frame.thn.value, item.thn);
            var trueLen := FlattenedLen(trueBranch);
            var falseBranch := Flatten(frame.els.value, item.els);
            var falseLen := FlattenedLen(falseBranch);
            instructions := instructions + condition;
            instructions := instructions + [Instr(RelJumpCondition(falseLen + 2, frame.result.value))];
            instructions := instructions + falseBranch;
            instructions := instructions + [Instr(RelJump(trueLen + 1))];
            instructions := instructions + trueBranch;
            assert instructions == before + BranchShape(item.cond, item.result, trueBranch, falseBranch);

          case ContinueEntry(id) =>
            instructions := instructions + [ContinueTo(id)];

          case BreakEntry(id) =>
            instructions := instructions + [BreakTo(id)];
        }
      }
      assert items[..|items|] == items;
    }
  }
}
