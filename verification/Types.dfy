/** Ground types and the check that a synthesized type meets a constraint. */
module Types {
  import opened Values

  datatype Type =
    | IntT | FloatT | StringT | BoolT | UnitT | AnyT
    | ArrayT(elem: Type, size: nat)
    | RecordT(typeId: nat, fields: map<string, Type>) // a declared structure, named by its type identifier
    | WidthT(fields: map<string, Type>)               // at least these fields

  /** Whether a value of type `synth` may be used where `constraint` is asked for. */
  predicate ResolveTypes(synth: Type, constraint: Type)
    decreases synth
  {
    if constraint.AnyT? then true
    else match synth {
      case RecordT(id, fields) =>
        if constraint.RecordT? then
          id == constraint.typeId
          && forall f :: f in fields ==> f in constraint.fields && ResolveTypes(fields[f], constraint.fields[f])
        else constraint.WidthT? && forall f :: f in constraint.fields ==> f in fields && ResolveTypes(fields[f], constraint.fields[f])
      case WidthT(fields) =>
        constraint.WidthT? && forall f :: f in constraint.fields ==> f in fields && ResolveTypes(fields[f], constraint.fields[f])
      case ArrayT(elem, size) => constraint.ArrayT? && size == constraint.size && ResolveTypes(elem, constraint.elem)
      case AnyT => false
      case _ => synth == constraint
    }
  }

  /** One type identifier, one set of fields: what the declarations of a program guarantee. */
  type Shapes = map<nat, set<string>>

  predicate Formed(shapes: Shapes, t: Type)
    decreases t
  {
    match t
    case ArrayT(elem, _) => Formed(shapes, elem)
    case RecordT(id, fields) => id in shapes && fields.Keys == shapes[id] && forall f :: f in fields ==> Formed(shapes, fields[f])
    case WidthT(fields) => forall f :: f in fields ==> Formed(shapes, fields[f])
    case _ => true
  }

  ghost predicate Inhabits(v: Value, t: Type)
    decreases t
  {
    match t
    case IntT => v.Int?
    case FloatT => v.Float?
    case StringT => v.Str?
    case BoolT => v.Bool?
    case UnitT => v.Unit?
    case AnyT => true
    case ArrayT(elem, size) => v.Arr? && |v.elems| == size && forall i :: 0 <= i < size ==> Inhabits(v.elems[i], elem)
    case RecordT(_, fields) => v.Struct? && forall f :: f in fields ==> f in v.fields && Inhabits(v.fields[f], fields[f])
    case WidthT(fields) => v.Struct? && forall f :: f in fields ==> f in v.fields && Inhabits(v.fields[f], fields[f])
  }

  // ---------------------------------------------------------------- a preorder that is sound

  lemma {:induction false} ResolveReflexive(t: Type)
    ensures ResolveTypes(t, t)
    decreases t
  {
    match t {
      case ArrayT(elem, _) => ResolveReflexive(elem);
      case RecordT(_, fields) =>
        forall f | f in fields ensures ResolveTypes(fields[f], fields[f]) {
          ResolveReflexive(fields[f]);
        }
      case WidthT(fields) =>
        forall f | f in fields ensures ResolveTypes(fields[f], fields[f]) {
          ResolveReflexive(fields[f]);
        }
      case _ =>
    }
  }

  lemma {:induction false} ResolveTransitive(shapes: Shapes, a: Type, b: Type, c: Type)
    requires Formed(shapes, a) && Formed(shapes, b) && Formed(shapes, c)
    requires ResolveTypes(a, b) && ResolveTypes(b, c)
    ensures ResolveTypes(a, c)
    decreases a
  {
    if c.AnyT? {
    } else if a.ArrayT? {
      ResolveTransitive(shapes, a.elem, b.elem, c.elem);
    } else if a.RecordT? || a.WidthT? {
      forall f | f in a.fields && f in b.fields && f in c.fields
        && ResolveTypes(a.fields[f], b.fields[f]) && ResolveTypes(b.fields[f], c.fields[f])
        ensures ResolveTypes(a.fields[f], c.fields[f])
      {
        ResolveTransitive(shapes, a.fields[f], b.fields[f], c.fields[f]);
      }
    }
  }

  /** A value of the synthesized type is a value of the constraint. */
  lemma {:induction false} ResolveSound(shapes: Shapes, v: Value, synth: Type, constraint: Type)
    requires Formed(shapes, synth) && Formed(shapes, constraint)
    requires ResolveTypes(synth, constraint) && Inhabits(v, synth)
    ensures Inhabits(v, constraint)
    decreases synth
  {
    if constraint.AnyT? {
    } else if synth.ArrayT? {
      forall i | 0 <= i < synth.size ensures Inhabits(v.elems[i], constraint.elem) {
        ResolveSound(shapes, v.elems[i], synth.elem, constraint.elem);
      }
    } else if synth.RecordT? || synth.WidthT? {
      forall f | f in constraint.fields ensures f in v.fields && Inhabits(v.fields[f], constraint.fields[f]) {
        ResolveSound(shapes, v.fields[f], synth.fields[f], constraint.fields[f]);
      }
    }
  }
}
