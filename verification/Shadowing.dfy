/** The condition under which names are enough, said on the text: no declaration of a name that is visible outside the
    block the declaration stands in. */
module Shadowing {
  import opened Values
  import opened Syntax
  import opened ResolveScope
  import opened Binding
  import opened Lexical

  /** Whether `x` is visible outside the innermost block that is still open behind this text: walk back to where the
      block opens, and ask there. */
  function VisibleOutside(text: seq<Event>, x: string, depth: nat): bool {
    if text == [] then false
    else
      var before, last := text[..|text| - 1], text[|text| - 1];
      if last.Close? then VisibleOutside(before, x, depth + 1)
      else if last.Open? && depth == 0 then Nearest(before, x, 0).Some?
      else if last.Open? then VisibleOutside(before, x, depth - 1)
      else VisibleOutside(before, x, depth)
  }

  /** No event of the text declares what is visible outside its block. */
  predicate NoneShadows(before: seq<Event>, text: seq<Event>)
    decreases |text|
  {
    text == []
    || ((text[0].Decl? ==> !VisibleOutside(before, text[0].x, 0)) && NoneShadows(before + [text[0]], text[1..]))
  }

  /** Position by position. */
  lemma {:induction false} NoneShadowsAt(before: seq<Event>, text: seq<Event>, i: nat)
    requires NoneShadows(before, text) && i < |text| && text[i].Decl?
    ensures !VisibleOutside(before + text[..i], text[i].x, 0)
    decreases i
  {
    if i == 0 {
      assert before + text[..0] == before;
    } else {
      NoneShadowsAt(before + [text[0]], text[1..], i - 1);
      assert before + [text[0]] + text[1..][..i - 1] == before + text[..i];
    }
  }

  lemma {:induction false} NoneBoth(before: seq<Event>, a: seq<Event>, b: seq<Event>)
    ensures NoneShadows(before, a + b) <==> NoneShadows(before, a) && NoneShadows(before + a, b)
    decreases |a|
  {
    hide VisibleOutside;
    if a == [] {
      assert a + b == b && before + a == before;
    } else {
      NoneBoth(before + [a[0]], a[1..], b);
      assert (a + b)[1..] == a[1..] + b && (a + b)[0] == a[0];
      assert before + [a[0]] + a[1..] == before + a;
    }
  }

  lemma {:induction false} QuietNone(before: seq<Event>, text: seq<Event>)
    requires forall e :: e in text ==> Quiet(e)
    ensures NoneShadows(before, text)
    decreases |text|
  {
    if text != [] {
      assert text[0] in text && forall e :: e in text[1..] ==> e in text;
      QuietNone(before + [text[0]], text[1..]);
    }
  }

  // ---------------------------------------------------------------- what does not change what is visible outside

  lemma {:induction false} OutsideQuiet(before: seq<Event>, text: seq<Event>, x: string, depth: nat)
    requires forall e :: e in text ==> Quiet(e)
    ensures VisibleOutside(before + text, x, depth) == VisibleOutside(before, x, depth)
    decreases |text|
  {
    if text == [] {
      assert before + text == before;
    } else {
      var front, last := text[..|text| - 1], text[|text| - 1];
      assert before + text == before + front + [last];
      assert last in text && forall e :: e in front ==> e in text;
      Last(before + front, last);
      OutsideQuiet(before, front, x, depth);
    }
  }

  lemma OutsideDecl(before: seq<Event>, y: string, x: string, depth: nat)
    ensures VisibleOutside(before + [Decl(y)], x, depth) == VisibleOutside(before, x, depth)
  {
    Last(before, Decl(y));
  }

  /** Over a block that is closed again one walks as over nothing. */
  lemma {:induction false} OutsideBlock(before: seq<Event>, stmts: seq<Stmt>, x: string, depth: nat)
    ensures VisibleOutside(before + BlockText(stmts), x, depth) == VisibleOutside(before, x, depth)
    decreases stmts, 0
  {
    hide StmtText, VisibleOutside;
    if stmts == [] {
      assert before + [] == before;
    } else {
      assert before + (StmtText(stmts[0]) + BlockText(stmts[1..])) == before + StmtText(stmts[0]) + BlockText(stmts[1..]);
      OutsideBlock(before + StmtText(stmts[0]), stmts[1..], x, depth);
      OutsideStmt(before, stmts[0], x, depth);
    }
  }

  lemma {:induction false} OutsideStmt(before: seq<Event>, s: Stmt, x: string, depth: nat)
    ensures VisibleOutside(before + StmtText(s), x, depth) == VisibleOutside(before, x, depth)
    decreases s
  {
    hide BlockText, ArmsText, ExprText, VisibleOutside;
    if Simple(s) {
      SimpleQuiet(s);
      OutsideQuiet(before, StmtText(s), x, depth);
    } else if s.Local? {
      ExprQuiet(s.init);
      OutsideQuiet(before, ExprText(s.init), x, depth);
      assert before + (ExprText(s.init) + [Decl(s.name)]) == before + ExprText(s.init) + [Decl(s.name)];
      OutsideDecl(before + ExprText(s.init), s.name, x, depth);
    } else if s.While? {
      ExprQuiet(s.cond);
      OutsideQuiet(before, ExprText(s.cond), x, depth);
      assert before + (ExprText(s.cond) + Enclosed(BlockText(s.body))) == before + ExprText(s.cond) + Enclosed(BlockText(s.body));
      OutsideEnclosed(before + ExprText(s.cond), s.body, x, depth);
    } else {
      ExprQuiet(s.cond);
      OutsideQuiet(before, ExprText(s.cond), x, depth);
      var b := before + ExprText(s.cond);
      assert before + (ExprText(s.cond) + Enclosed(BlockText(s.body)) + ArmsText(s.rest)) == b + Enclosed(BlockText(s.body)) + ArmsText(s.rest);
      OutsideEnclosed(b, s.body, x, depth);
      OutsideArms(b + Enclosed(BlockText(s.body)), s.rest, x, depth);
    }
  }

  lemma {:induction false} OutsideEnclosed(before: seq<Event>, body: seq<Stmt>, x: string, depth: nat)
    ensures VisibleOutside(before + Enclosed(BlockText(body)), x, depth) == VisibleOutside(before, x, depth)
    decreases body, 1
  {
    hide BlockText;
    var text, inside := BlockText(body), before + [Open];
    assert before + Enclosed(text) == inside + text + [Close];
    Last(inside + text, Close);
    OutsideBlock(inside, body, x, depth + 1);
    Last(before, Open);
  }

  lemma {:induction false} OutsideArms(before: seq<Event>, a: Arms, x: string, depth: nat)
    ensures VisibleOutside(before + ArmsText(a), x, depth) == VisibleOutside(before, x, depth)
    decreases a
  {
    hide BlockText, ExprText, VisibleOutside;
    match a {
      case NoMore => assert before + [] == before;
      case Default(b) => OutsideEnclosed(before, b, x, depth);
      case Elif(cond, b, rest) =>
        ExprQuiet(cond);
        OutsideQuiet(before, ExprText(cond), x, depth);
        var c := before + ExprText(cond);
        assert before + (ExprText(cond) + Enclosed(BlockText(b)) + ArmsText(rest)) == c + Enclosed(BlockText(b)) + ArmsText(rest);
        OutsideEnclosed(c, b, x, depth);
        OutsideArms(c + Enclosed(BlockText(b)), rest, x, depth);
    }
  }

  // ---------------------------------------------------------------- the condition, on the syntax and on the text

  /** The two sets the condition carries are what they are meant to be. */
  ghost predicate Tracks(outer: set<string>, visible: set<string>, text: seq<Event>) {
    forall x :: (x in visible <==> Nearest(text, x, 0).Some?) && (x in outer <==> VisibleOutside(text, x, 0))
  }

  lemma TracksQuiet(outer: set<string>, visible: set<string>, before: seq<Event>, text: seq<Event>)
    requires Tracks(outer, visible, before) && forall e :: e in text ==> Quiet(e)
    ensures Tracks(outer, visible, before + text)
  {
    hide Nearest, VisibleOutside;
    forall x ensures Nearest(before + text, x, 0) == Nearest(before, x, 0) && VisibleOutside(before + text, x, 0) == VisibleOutside(before, x, 0) {
      NearestQuiet(before, text, x, 0);
      OutsideQuiet(before, text, x, 0);
    }
  }

  lemma TracksOpen(outer: set<string>, visible: set<string>, before: seq<Event>)
    requires Tracks(outer, visible, before)
    ensures Tracks(visible, visible, before + [Open])
  {
    Last(before, Open);
  }

  lemma TracksEnclosed(outer: set<string>, visible: set<string>, before: seq<Event>, body: seq<Stmt>)
    requires Tracks(outer, visible, before)
    ensures Tracks(outer, visible, before + Enclosed(BlockText(body)))
  {
    hide Nearest, VisibleOutside, BlockText;
    var after := before + Enclosed(BlockText(body));
    forall x ensures Nearest(after, x, 0) == Nearest(before, x, 0) && VisibleOutside(after, x, 0) == VisibleOutside(before, x, 0) {
      EnclosedSkipped(before, body, x, 0);
      OutsideEnclosed(before, body, x, 0);
    }
  }

  lemma TracksArms(outer: set<string>, visible: set<string>, before: seq<Event>, a: Arms)
    requires Tracks(outer, visible, before)
    ensures Tracks(outer, visible, before + ArmsText(a))
  {
    hide Nearest, VisibleOutside, ArmsText;
    var after := before + ArmsText(a);
    forall x ensures Nearest(after, x, 0) == Nearest(before, x, 0) && VisibleOutside(after, x, 0) == VisibleOutside(before, x, 0) {
      ArmsSkipped(before, a, x, 0);
      OutsideArms(before, a, x, 0);
    }
  }

  lemma TracksDecl(outer: set<string>, visible: set<string>, before: seq<Event>, y: string)
    requires Tracks(outer, visible, before)
    ensures Tracks(outer, visible + {y}, before + [Decl(y)])
  {
    hide VisibleOutside;
    Last(before, Decl(y));
    forall x ensures VisibleOutside(before + [Decl(y)], x, 0) == VisibleOutside(before, x, 0) {
      OutsideDecl(before, y, x, 0);
    }
  }

  function VisibleBehind(visible: set<string>, s: Stmt): set<string> {
    if s.Local? then visible + {s.name} else visible
  }

  lemma {:induction false} StmtShadows(s: Stmt, outer: set<string>, visible: set<string>, before: seq<Event>)
    requires Tracks(outer, visible, before)
    ensures StmtNoShadowing(s, outer, visible) <==> NoneShadows(before, StmtText(s))
    ensures Tracks(outer, VisibleBehind(visible, s), before + StmtText(s))
    decreases s
  {
    hide Tracks, BlockText, ArmsText, ExprText, VisibleOutside, NoneShadows, NoShadowing, ArmsNoShadowing, Enclosed;
    if Simple(s) {
      SimpleQuiet(s);
      QuietNone(before, StmtText(s));
      TracksQuiet(outer, visible, before, StmtText(s));
    } else if s.Local? {
      LocalShadows(s, outer, visible, before);
    } else {
      var c := ExprText(s.cond);
      ExprQuiet(s.cond);
      QuietNone(before, c);
      TracksQuiet(outer, visible, before, c);
      var e := Enclosed(BlockText(s.body));
      EnclosedShadows(s.body, outer, visible, before + c);
      NoneBoth(before, c, e);
      assert before + (c + e) == before + c + e;
      if s.If? {
        ArmsShadow(s.rest, outer, visible, before + c + e);
        NoneBoth(before, c + e, ArmsText(s.rest));
        assert before + (c + e + ArmsText(s.rest)) == before + c + e + ArmsText(s.rest);
        TracksArms(outer, visible, before + c + e, s.rest);
      }
    }
  }

  lemma LocalShadows(s: Stmt, outer: set<string>, visible: set<string>, before: seq<Event>)
    requires s.Local? && Tracks(outer, visible, before)
    ensures StmtNoShadowing(s, outer, visible) <==> NoneShadows(before, StmtText(s))
    ensures Tracks(outer, visible + {s.name}, before + StmtText(s))
  {
    hide ExprText, VisibleOutside, Nearest;
    var e, d := ExprText(s.init), [Decl(s.name)];
    ExprQuiet(s.init);
    QuietNone(before, e);
    TracksQuiet(outer, visible, before, e);
    TracksDecl(outer, visible, before + e, s.name);
    NoneBoth(before, e, d);
    assert d[0] == Decl(s.name) && d[1..] == [];
    assert NoneShadows(before + e + [d[0]], d[1..]);
    assert before + (e + d) == before + e + d;
  }

  lemma {:induction false} EnclosedShadows(body: seq<Stmt>, outer: set<string>, visible: set<string>, before: seq<Event>)
    requires Tracks(outer, visible, before)
    ensures NoShadowing(body, visible, visible) <==> NoneShadows(before, Enclosed(BlockText(body)))
    ensures Tracks(outer, visible, before + Enclosed(BlockText(body)))
    decreases body, 1
  {
    hide Tracks, BlockText, VisibleOutside, NoShadowing;
    var text := BlockText(body);
    TracksOpen(outer, visible, before);
    BlockShadows(body, visible, visible, before + [Open]);
    NoneBoth(before, [Open], text);
    NoneBoth(before, [Open] + text, [Close]);
    OneNone(before, Open);
    OneNone(before + ([Open] + text), Close);
    TracksEnclosed(outer, visible, before, body);
  }

  lemma OneNone(before: seq<Event>, e: Event)
    requires !e.Decl?
    ensures NoneShadows(before, [e])
  {
    var one := [e];
    assert one[1..] == [];
    assert NoneShadows(before + [e], one[1..]);
  }

  lemma {:induction false} BlockShadows(stmts: seq<Stmt>, outer: set<string>, visible: set<string>, before: seq<Event>)
    requires Tracks(outer, visible, before)
    ensures NoShadowing(stmts, outer, visible) <==> NoneShadows(before, BlockText(stmts))
    decreases stmts, 0
  {
    hide Tracks, StmtText, VisibleOutside, StmtNoShadowing;
    if stmts != [] {
      StmtShadows(stmts[0], outer, visible, before);
      BlockShadows(stmts[1..], outer, VisibleBehind(visible, stmts[0]), before + StmtText(stmts[0]));
      NoneBoth(before, StmtText(stmts[0]), BlockText(stmts[1..]));
    }
  }

  lemma {:induction false} ArmsShadow(a: Arms, outer: set<string>, visible: set<string>, before: seq<Event>)
    requires Tracks(outer, visible, before)
    ensures ArmsNoShadowing(a, visible) <==> NoneShadows(before, ArmsText(a))
    decreases a
  {
    hide Tracks, BlockText, ExprText, VisibleOutside, NoShadowing, Enclosed;
    match a {
      case NoMore => QuietNone(before, []);
      case Default(b) => EnclosedShadows(b, outer, visible, before);
      case Elif(cond, b, rest) =>
        var c, e := ExprText(cond), Enclosed(BlockText(b));
        ExprQuiet(cond);
        QuietNone(before, c);
        TracksQuiet(outer, visible, before, c);
        EnclosedShadows(b, outer, visible, before + c);
        NoneBoth(before, c, e);
        assert before + (c + e) == before + c + e;
        ArmsShadow(rest, outer, visible, before + c + e);
        NoneBoth(before, c + e, ArmsText(rest));
    }
  }

  lemma {:induction false} ParamsTrack(params: seq<string>, next: VarId, scope: Scope, before: seq<Event>)
    requires Tracks({}, scope.Keys, before)
    ensures Tracks({}, ParamScope(scope, params, next).Keys, before + ParamText(params))
    decreases params
  {
    hide Tracks;
    if params == [] {
      assert before + [] == before;
    } else {
      TracksDecl({}, scope.Keys, before, params[0]);
      assert scope[params[0] := next].Keys == scope.Keys + {params[0]};
      ParamsTrack(params[1..], next + 1, scope[params[0] := next], before + [Decl(params[0])]);
      assert before + [Decl(params[0])] + ParamText(params[1..]) == before + ParamText(params);
    }
  }

  /** The condition on a function's body is this one on its text, and nothing more. */
  lemma ConditionIsOnText(d: FnDef)
    ensures NoShadowing(d.body, {}, ParamScope(map[], d.params, 0).Keys) <==> NoneShadows(ParamText(d.params), BlockText(d.body))
  {
    hide NoShadowing, NoneShadows, BlockText, Nearest, VisibleOutside;
    var none: Scope := map[];
    assert none.Keys == {};
    assert Tracks({}, none.Keys, []) by {
      NothingOutside();
    }
    ParamsTrack(d.params, 0, none, []);
    assert [] + ParamText(d.params) == ParamText(d.params);
    BlockShadows(d.body, {}, ParamScope(none, d.params, 0).Keys, ParamText(d.params));
  }

  lemma NothingOutside()
    ensures forall x :: Nearest([], x, 0).None? && !VisibleOutside([], x, 0)
  {
  }
}
