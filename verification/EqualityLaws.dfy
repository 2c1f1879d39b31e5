/** What equality on values decides. */
module EqualityLaws {
  import opened Values

  predicate FloatFree(v: Value)
    decreases v
  {
    match v
    case Float(_) => false
    case Arr(vs) => forall i :: 0 <= i < |vs| ==> FloatFree(vs[i])
    case Struct(m) => forall k :: k in m ==> FloatFree(m[k])
    case _ => true
  }

  /** Without floats, equal means the same value: no host rule has a say. */
  lemma {:induction false} EqualityIsIdentity(fl: Floats, v: Value, w: Value)
    requires FloatFree(v) || FloatFree(w)
    ensures ValueEq(fl, v, w) <==> v == w
    decreases v
  {
    if v.Arr? && w.Arr? && |v.elems| == |w.elems| {
      forall i | 0 <= i < |v.elems| ensures ValueEq(fl, v.elems[i], w.elems[i]) <==> v.elems[i] == w.elems[i] {
        EqualityIsIdentity(fl, v.elems[i], w.elems[i]);
      }
    } else if v.Struct? && w.Struct? && v.fields.Keys == w.fields.Keys {
      forall k | k in v.fields ensures ValueEq(fl, v.fields[k], w.fields[k]) <==> v.fields[k] == w.fields[k] {
        EqualityIsIdentity(fl, v.fields[k], w.fields[k]);
      }
      assert (forall k :: k in v.fields ==> v.fields[k] == w.fields[k]) <==> v.fields == w.fields;
    }
  }

  ghost predicate Reflexive(fl: Floats) { forall x :: fl.equal(x, x) }

  ghost predicate Symmetric(fl: Floats) { forall x, y :: fl.equal(x, y) ==> fl.equal(y, x) }

  ghost predicate Transitive(fl: Floats) { forall x, y, z :: fl.equal(x, y) && fl.equal(y, z) ==> fl.equal(x, z) }

  /** With floats it is as much of an equivalence as the host's rule is. */
  lemma {:induction false} EqualityReflexive(fl: Floats, v: Value)
    requires Reflexive(fl)
    ensures ValueEq(fl, v, v)
    decreases v
  {
    if v.Arr? {
      forall i | 0 <= i < |v.elems| ensures ValueEq(fl, v.elems[i], v.elems[i]) {
        EqualityReflexive(fl, v.elems[i]);
      }
    } else if v.Struct? {
      forall k | k in v.fields ensures ValueEq(fl, v.fields[k], v.fields[k]) {
        EqualityReflexive(fl, v.fields[k]);
      }
    }
  }

  lemma {:induction false} EqualitySymmetric(fl: Floats, v: Value, w: Value)
    requires Symmetric(fl) && ValueEq(fl, v, w)
    ensures ValueEq(fl, w, v)
    decreases v
  {
    if v.Arr? {
      forall i | 0 <= i < |v.elems| ensures ValueEq(fl, w.elems[i], v.elems[i]) {
        EqualitySymmetric(fl, v.elems[i], w.elems[i]);
      }
    } else if v.Struct? {
      forall k | k in v.fields ensures ValueEq(fl, w.fields[k], v.fields[k]) {
        EqualitySymmetric(fl, v.fields[k], w.fields[k]);
      }
    }
  }

  lemma {:induction false} EqualityTransitive(fl: Floats, u: Value, v: Value, w: Value)
    requires Transitive(fl) && ValueEq(fl, u, v) && ValueEq(fl, v, w)
    ensures ValueEq(fl, u, w)
    decreases u
  {
    if u.Arr? {
      forall i | 0 <= i < |u.elems| ensures ValueEq(fl, u.elems[i], w.elems[i]) {
        EqualityTransitive(fl, u.elems[i], v.elems[i], w.elems[i]);
      }
    } else if u.Struct? {
      forall k | k in u.fields ensures ValueEq(fl, u.fields[k], w.fields[k]) {
        EqualityTransitive(fl, u.fields[k], v.fields[k], w.fields[k]);
      }
    }
  }

  /** Replacing a part by an equal one gives an equal whole, and by an unequal one an unequal whole. */
  lemma {:induction false} EqualityOfParts(fl: Floats, v: Value, steps: seq<PathStep>, x: Value, y: Value)
    requires Reflexive(fl) && WritePath(v, steps, x).Success? && WritePath(v, steps, y).Success?
    ensures ValueEq(fl, WritePath(v, steps, x).value, WritePath(v, steps, y).value) <==> ValueEq(fl, x, y)
    decreases steps
  {
    if steps != [] {
      var inner := ReadStep(v, steps[0]).value;
      EqualityOfParts(fl, inner, steps[1..], x, y);
      var a, b := WritePath(inner, steps[1..], x).value, WritePath(inner, steps[1..], y).value;
      if steps[0].ToField? {
        FieldReplaced(fl, v.fields, steps[0].field, a, b);
      } else {
        ElementReplaced(fl, v.elems, steps[0].index.i, a, b);
      }
    }
  }

  lemma FieldReplaced(fl: Floats, m: map<string, Value>, f: string, a: Value, b: Value)
    requires Reflexive(fl) && f in m
    ensures ValueEq(fl, Struct(m[f := a]), Struct(m[f := b])) <==> ValueEq(fl, a, b)
  {
    forall k | k in m ensures ValueEq(fl, m[k], m[k]) {
      EqualityReflexive(fl, m[k]);
    }
    assert m[f := a][f] == a && m[f := b][f] == b && m[f := a].Keys == m.Keys == m[f := b].Keys;
  }

  lemma ElementReplaced(fl: Floats, vs: seq<Value>, i: nat, a: Value, b: Value)
    requires Reflexive(fl) && i < |vs|
    ensures ValueEq(fl, Arr(vs[i := a]), Arr(vs[i := b])) <==> ValueEq(fl, a, b)
  {
    forall k | 0 <= k < |vs| ensures ValueEq(fl, vs[k], vs[k]) {
      EqualityReflexive(fl, vs[k]);
    }
    assert vs[i := a][i] == a && vs[i := b][i] == b;
  }
}
