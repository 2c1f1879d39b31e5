/** Removal of loop markers and resolution of break and continue. */
module ThirdPass {
  import opened Values
  import opened ByteCode
  import opened SecondPass

  /** The instruction index at which position `i` of partial code starts. */
  function Pos(xs: seq<Partial>, i: nat): nat
    requires i <= |xs|
  {
    Len(xs[..i])
  }

  /** The first position holding `x`. */
  function IndexOf(xs: seq<Partial>, x: Partial): (i: nat)
    ensures i <= |xs| && (i < |xs| ==> xs[i] == x)
    ensures forall j :: 0 <= j < i ==> xs[j] != x
  {
    if xs == [] then 0
    else if xs[0] == x then 0
    else 1 + IndexOf(xs[1..], x)
  }

  /** What break and continue are meant to become: jumps, counted in emitted instructions, to the
      begin marker and to the end marker of their loop. */
  function Meant(xs: seq<Partial>, i: nat): Instruction
    requires i < |xs| && !IsMarker(xs[i])
  {
    match xs[i]
    case Instr(instr) => instr
    case ContinueTo(id) => RelJump(Pos(xs, IndexOf(xs, LoopBegin(id))) - Pos(xs, i))
    case BreakTo(id) => RelJump(Pos(xs, IndexOf(xs, LoopEnd(id))) - Pos(xs, i))
  }

  function ResolvePrefix(xs: seq<Partial>, n: nat): (code: seq<Instruction>)
    requires n <= |xs|
  {
    if n == 0 then []
    else ResolvePrefix(xs, n - 1) + if IsMarker(xs[n - 1]) then [] else [Meant(xs, n - 1)]
  }

  function Resolve(xs: seq<Partial>): seq<Instruction> { ResolvePrefix(xs, |xs|) }

  lemma PosStep(xs: seq<Partial>, i: nat)
    requires i < |xs|
    ensures Pos(xs, i + 1) == Pos(xs, i) + if IsMarker(xs[i]) then 0 else 1
  {
    assert xs[..i + 1][..i] == xs[..i];
  }

  lemma PosSlice(xs: seq<Partial>, i: nat, seg: seq<Partial>)
    requires i + |seg| <= |xs| && xs[i..i + |seg|] == seg
    ensures Pos(xs, i + |seg|) == Pos(xs, i) + Len(seg)
  {
    assert xs[..i + |seg|] == xs[..i] + seg;
    LenAppend(xs[..i], seg);
  }

  lemma {:induction false} ResolvePrefixLength(xs: seq<Partial>, n: nat)
    requires n <= |xs|
    ensures |ResolvePrefix(xs, n)| == Pos(xs, n)
  {
    if n > 0 {
      ResolvePrefixLength(xs, n - 1);
      PosStep(xs, n - 1);
    }
  }

  lemma {:induction false} ResolvePrefixExtends(xs: seq<Partial>, m: nat, n: nat)
    requires m <= n <= |xs|
    ensures ResolvePrefix(xs, m) <= ResolvePrefix(xs, n)
    decreases n
  {
    if m < n {
      ResolvePrefixExtends(xs, m, n - 1);
    }
  }

  /** Where a non-marker ends up: at its own position, as its meant instruction. */
  lemma ResolveAt(xs: seq<Partial>, i: nat)
    requires i < |xs| && !IsMarker(xs[i])
    ensures Pos(xs, i) < |Resolve(xs)| && Resolve(xs)[Pos(xs, i)] == Meant(xs, i)
  {
    ResolvePrefixLength(xs, i);
    ResolvePrefixExtends(xs, i + 1, |xs|);
  }

  // ---------------------------------------------------------------- the pass as it is written

  /** No loop marker stands twice. */
  ghost predicate UniqueMarkers(xs: seq<Partial>) {
    forall i, j :: 0 <= i < j < |xs| && IsMarker(xs[i]) ==> xs[i] != xs[j]
  }

  /** What the pass makes of position `i`; `None` is a panic.  Break is looked up among the begin markers,
      and both distances are taken in marker-counting positions, without a sign. */
  function Written(xs: seq<Partial>, i: nat): Option<Instruction>
    requires i < |xs| && !IsMarker(xs[i])
  {
    match xs[i]
    case Instr(instr) => Some(instr)
    case ContinueTo(id) =>
      var begin := IndexOf(xs, LoopBegin(id));
      if begin == |xs| || begin > i then None else Some(RelJump(i - begin))
    case BreakTo(id) =>
      var begin := IndexOf(xs, LoopBegin(id));
      if begin == |xs| || begin < i then None else Some(RelJump(begin - i))
  }

  function WrittenPrefix(xs: seq<Partial>, n: nat): Option<seq<Instruction>>
    requires n <= |xs|
  {
    if n == 0 then Some([])
    else
      var before := WrittenPrefix(xs, n - 1);
      if before.None? || IsMarker(xs[n - 1]) then before
      else
        var instr := Written(xs, n - 1);
        if instr.None? then None else Some(before.value + [instr.value])
  }

  lemma {:induction false} WrittenStaysNone(xs: seq<Partial>, m: nat, n: nat)
    requires m <= n <= |xs| && WrittenPrefix(xs, m).None?
    ensures WrittenPrefix(xs, n).None?
    decreases n
  {
    if m < n {
      WrittenStaysNone(xs, m, n - 1);
    }
  }

  /** The pass as an object: the partial code and the two tables of marker positions. */
  class Pass {
    const mainBody: seq<Partial>
    var loopBegins: map<nat, nat>
    var loopEnds: map<nat, nat>

    constructor (body: seq<Partial>)
      ensures mainBody == body && loopBegins == map[] && loopEnds == map[]
    {
      mainBody := body;
      loopBegins, loopEnds := map[], map[];
    }

    /** The tables hold exactly the markers of the first `n` positions. */
    ghost predicate Gathered(n: nat)
      reads this
      requires n <= |mainBody|
    {
      && (forall i :: 0 <= i < n && mainBody[i].LoopBegin? ==> mainBody[i].id in loopBegins && loopBegins[mainBody[i].id] == i)
      && (forall i :: 0 <= i < n && mainBody[i].LoopEnd? ==> mainBody[i].id in loopEnds && loopEnds[mainBody[i].id] == i)
      && (forall id :: id in loopBegins ==> loopBegins[id] < n && mainBody[loopBegins[id]] == LoopBegin(id))
      && (forall id :: id in loopEnds ==> loopEnds[id] < n && mainBody[loopEnds[id]] == LoopEnd(id))
    }

    /** `false` is the panic on a marker that stands twice. */
    method GatherLoopIndexes() returns (ok: bool)
      requires loopBegins == map[] && loopEnds == map[]
      modifies this
      ensures ok <==> UniqueMarkers(mainBody)
      ensures ok ==> Gathered(|mainBody|)
    {
      for index := 0 to |mainBody|
        invariant Gathered(index) && UniqueMarkers(mainBody[..index])
      {
        match mainBody[index] {
          case LoopBegin(id) =>
            if id in loopBegins {
              assert mainBody[loopBegins[id]] == mainBody[index];
              return false;
            }
            loopBegins := loopBegins[id := index];
          case LoopEnd(id) =>
            if id in loopEnds {
              assert mainBody[loopEnds[id]] == mainBody[index];
              return false;
            }
            loopEnds := loopEnds[id := index];
          case _ =>
        }
      }
      assert mainBody[..|mainBody|] == mainBody;
      ok := true;
    }

    lemma FindBegin(id: nat)
      requires Gathered(|mainBody|) && UniqueMarkers(mainBody)
      ensures IndexOf(mainBody, LoopBegin(id)) == if id in loopBegins then loopBegins[id] else |mainBody|
      ensures id in loopBegins ==> loopBegins[id] < |mainBody|
    {
    }

    /** The whole pass; `None` is a panic. */
    method Run() returns (r: Option<seq<Instruction>>)
      requires loopBegins == map[] && loopEnds == map[]
      modifies this
      ensures r == if UniqueMarkers(mainBody) then WrittenPrefix(mainBody, |mainBody|) else None
    {
      hide Gathered, UniqueMarkers, IndexOf;
      var ok := GatherLoopIndexes();
      if !ok {
        return None;
      }
      var instructions: seq<Instruction> := [];
      for index := 0 to |mainBody|
        invariant Gathered(|mainBody|) && WrittenPrefix(mainBody, index) == Some(instructions)
      {
        match mainBody[index] {
          case Instr(instr) =>
            instructions := instructions + [instr];
          case ContinueTo(id) =>
            FindBegin(id);
            if id !in loopBegins || loopBegins[id] > index {
              WrittenStaysNone(mainBody, index + 1, |mainBody|);
              return None;
            }
            instructions := instructions + [RelJump(index - loopBegins[id])];
          case BreakTo(id) =>
            FindBegin(id);
            if id !in loopBegins || loopBegins[id] < index {
              WrittenStaysNone(mainBody, index + 1, |mainBody|);
              return None;
            }
            instructions := instructions + [RelJump(loopBegins[id] - index)];
          case _ =>
        }
      }
      r := Some(instructions);
    }
  }
}
