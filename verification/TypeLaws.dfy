/** What the type check accepts, in terms of values: it is inclusion, except where names of declared structures or empty
    arrays make it stricter. */
module TypeLaws {
  import opened Values
  import opened Types

  /** Every value of the one type is a value of the other. */
  ghost predicate Included(s: Type, c: Type) { forall v :: Inhabits(v, s) ==> Inhabits(v, c) }

  /** Where a declared structure is asked for, the very same one is offered; and elements fit even where there are none. */
  ghost predicate Nominal(s: Type, c: Type)
    decreases s
  {
    match c
    case RecordT(id, fields) =>
      s.RecordT? && s.typeId == id && forall f :: f in s.fields && f in fields ==> Nominal(s.fields[f], fields[f])
    case WidthT(fields) =>
      match s {
        case RecordT(_, offered) => forall f :: f in offered && f in fields ==> Nominal(offered[f], fields[f])
        case WidthT(offered) => forall f :: f in offered && f in fields ==> Nominal(offered[f], fields[f])
        case _ => true
      }
    case ArrayT(elem, _) => s.ArrayT? ==> Nominal(s.elem, elem) && (s.size == 0 ==> Included(s.elem, elem))
    case _ => true
  }

  /** A value of the type, with no more fields than it has. */
  function Sample(t: Type): (v: Value)
    decreases t
  {
    match t
    case IntT => Int(0)
    case FloatT => Float(0)
    case StringT => Str("")
    case BoolT => Bool(false)
    case UnitT => Unit
    case AnyT => Unit
    case ArrayT(elem, size) => var e := Sample(elem); Arr(seq(size, _ => e))
    case RecordT(_, fields) => Struct(map f | f in fields :: Sample(fields[f]))
    case WidthT(fields) => Struct(map f | f in fields :: Sample(fields[f]))
  }

  lemma {:induction false} SampleInhabits(t: Type)
    ensures Inhabits(Sample(t), t)
    decreases t
  {
    match t {
      case ArrayT(elem, _) => SampleInhabits(elem);
      case RecordT(_, fields) =>
        forall f | f in fields ensures Inhabits(Sample(fields[f]), fields[f]) {
          SampleInhabits(fields[f]);
        }
      case WidthT(fields) =>
        forall f | f in fields ensures Inhabits(Sample(fields[f]), fields[f]) {
          SampleInhabits(fields[f]);
        }
      case _ =>
    }
  }

  predicate HasFields(t: Type) { t.RecordT? || t.WidthT? }

  /** A field of an included structure is included. */
  lemma FieldIncluded(s: Type, c: Type, f: string)
    requires HasFields(s) && HasFields(c) && Included(s, c) && f in c.fields
    ensures f in s.fields && Included(s.fields[f], c.fields[f])
  {
    SampleInhabits(s);
    assert Inhabits(Sample(s), c);
    forall v | Inhabits(v, s.fields[f]) ensures Inhabits(v, c.fields[f]) {
      var whole := Struct(Sample(s).fields[f := v]);
      assert Inhabits(whole, s);
      assert Inhabits(whole, c);
    }
  }

  /** So is an element, where there is one. */
  lemma ElementIncluded(s: Type, c: Type)
    requires s.ArrayT? && c.ArrayT? && Included(s, c)
    ensures s.size == c.size && (s.size > 0 ==> Included(s.elem, c.elem))
  {
    SampleInhabits(s);
    assert Inhabits(Sample(s), c);
    if s.size > 0 {
      forall v | Inhabits(v, s.elem) ensures Inhabits(v, c.elem) {
        var whole := Arr(seq(s.size, _ => v));
        assert Inhabits(whole, s);
        assert Inhabits(whole, c) && whole.elems[0] == v;
      }
    }
  }

  lemma {:induction false} AcceptedIsNominal(shapes: Shapes, s: Type, c: Type)
    requires Formed(shapes, s) && Formed(shapes, c) && ResolveTypes(s, c)
    ensures Nominal(s, c)
    decreases s
  {
    if s.ArrayT? && c.ArrayT? {
      AcceptedIsNominal(shapes, s.elem, c.elem);
      AcceptedIsIncluded(shapes, s.elem, c.elem);
    } else if HasFields(s) && HasFields(c) {
      forall f | f in s.fields && f in c.fields ensures Nominal(s.fields[f], c.fields[f]) {
        AcceptedIsNominal(shapes, s.fields[f], c.fields[f]);
      }
    }
  }

  lemma AcceptedIsIncluded(shapes: Shapes, s: Type, c: Type)
    requires Formed(shapes, s) && Formed(shapes, c) && ResolveTypes(s, c)
    ensures Included(s, c)
  {
    forall v | Inhabits(v, s) ensures Inhabits(v, c) {
      ResolveSound(shapes, v, s, c);
    }
  }

  /** Only one type has all values. */
  lemma NotEverything(c: Type)
    requires !c.AnyT?
    ensures !Included(AnyT, c)
  {
    var v := if c.UnitT? then Int(0) else Unit;
    assert Inhabits(v, AnyT) && !Inhabits(v, c);
  }

  lemma {:induction false} IncludedIsAccepted(shapes: Shapes, s: Type, c: Type)
    requires Formed(shapes, s) && Formed(shapes, c) && Included(s, c) && Nominal(s, c)
    ensures ResolveTypes(s, c)
    decreases s
  {
    if c.AnyT? {
    } else if s.AnyT? {
      NotEverything(c);
    } else {
      SampleInhabits(s);
      assert Inhabits(Sample(s), c);
      if s.ArrayT? {
        ElementIncluded(s, c);
        IncludedIsAccepted(shapes, s.elem, c.elem);
      } else if HasFields(s) {
        forall f | f in c.fields ensures f in s.fields && ResolveTypes(s.fields[f], c.fields[f]) {
          FieldIncluded(s, c, f);
          IncludedIsAccepted(shapes, s.fields[f], c.fields[f]);
        }
      }
    }
  }

  /** The check is exact: it accepts what is included, name by name. */
  lemma ResolveIsInclusion(shapes: Shapes, s: Type, c: Type)
    requires Formed(shapes, s) && Formed(shapes, c)
    ensures ResolveTypes(s, c) <==> Included(s, c) && Nominal(s, c)
  {
    hide ResolveTypes, Included, Nominal, Formed;
    if ResolveTypes(s, c) {
      AcceptedIsIncluded(shapes, s, c);
      AcceptedIsNominal(shapes, s, c);
    }
    if Included(s, c) && Nominal(s, c) {
      IncludedIsAccepted(shapes, s, c);
    }
  }

  // ---------------------------------------------------------------- width, and what the side condition is about

  /** What meets a width meets every smaller one; and every structure meets the width of its own fields. */
  lemma WidthLaws(s: Type, wide: map<string, Type>, narrow: map<string, Type>)
    requires forall f :: f in narrow ==> f in wide && narrow[f] == wide[f]
    ensures ResolveTypes(s, WidthT(wide)) ==> ResolveTypes(s, WidthT(narrow))
    ensures ResolveTypes(WidthT(wide), WidthT(narrow))
    ensures forall id :: ResolveTypes(RecordT(id, wide), WidthT(narrow))
  {
    forall f | f in narrow ensures ResolveTypes(wide[f], narrow[f]) {
      ResolveReflexive(wide[f]);
    }
  }

  /** Two declared structures with the same fields have the same values, and so has the width of these fields; the check
      keeps them apart. */
  lemma NamesMatter(fields: map<string, Type>, id: nat, other: nat)
    requires id != other
    ensures Included(RecordT(id, fields), RecordT(other, fields)) && !ResolveTypes(RecordT(id, fields), RecordT(other, fields))
    ensures Included(WidthT(fields), RecordT(id, fields)) && !ResolveTypes(WidthT(fields), RecordT(id, fields))
  {
  }

  /** Empty arrays are all alike; the check compares the types of elements they do not have. */
  lemma EmptyArraysDiffer()
    ensures Included(ArrayT(IntT, 0), ArrayT(BoolT, 0)) && !ResolveTypes(ArrayT(IntT, 0), ArrayT(BoolT, 0))
  {
  }
}
