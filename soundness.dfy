/// Every converter except `ToNand` returns a formula with the same truth
/// table as its input. (`ToNand` is treated in module NandSoundness.)

module Soundness {
  import opened Syntax
  import opened Semantics
  import opened Operators

  lemma {:induction false} ToNotAndOrSound(f: Formula, v: Assignment)
    ensures Eval(ToNotAndOr(f), v) == Eval(f, v)
  {
    match f
    case Var(_) =>
    case T =>
    case F =>
    case Not(a) => ToNotAndOrSound(a, v);
    case Bin(op, a, b) =>
      ToNotAndOrSound(a, v);
      ToNotAndOrSound(b, v);
      var left, right := ToNotAndOr(a), ToNotAndOr(b);
      match op
      case And | Or | Implies | Nand | Nor =>
      case Xor =>
        assert Eval(Bin(And, left, Not(right)), v) == (Eval(a, v) && !Eval(b, v));
        assert Eval(Bin(And, Not(left), right), v) == (!Eval(a, v) && Eval(b, v));
      case Iff =>
        assert Eval(Bin(And, Not(left), Not(right)), v) == (!Eval(a, v) && !Eval(b, v));
  }

  lemma {:induction false} ToNotAndSound(f: Formula, v: Assignment)
    ensures Eval(ToNotAnd(f), v) == Eval(f, v)
    decreases Weight(f)
  {
    match f
    case Var(_) =>
    case T =>
    case F =>
    case Not(a) => ToNotAndSound(a, v);
    case Bin(op, a, b) =>
      match op
      case And | Nand =>
        ToNotAndSound(a, v);
        ToNotAndSound(b, v);
      case Or =>
        ToNotAndSound(a, v);
        ToNotAndSound(b, v);
        assert Eval(Bin(And, Not(ToNotAnd(a)), Not(ToNotAnd(b))), v) == (!Eval(a, v) && !Eval(b, v));
      case Implies => ToNotAndSound(ImpliesDetour(a, b), v);
      case Xor => ToNotAndSound(XorDetour(a, b), v);
      case Iff => ToNotAndSound(IffDetour(a, b), v);
      case Nor => ToNotAndSound(NorDetour(a, b), v);
  }

  lemma {:induction false} ToImpliesNotSound(f: Formula, v: Assignment)
    ensures Eval(ToImpliesNot(f), v) == Eval(f, v)
    decreases Weight(f)
  {
    match f
    case Var(_) =>
    case T =>
    case F =>
    case Not(a) => ToImpliesNotSound(a, v);
    case Bin(op, a, b) =>
      match op
      case Implies | Or =>
        ToImpliesNotSound(a, v);
        ToImpliesNotSound(b, v);
      case And =>
        ToImpliesNotSound(a, v);
        ToImpliesNotSound(b, v);
        assert Eval(Bin(Implies, ToImpliesNot(a), Not(ToImpliesNot(b))), v) == (Eval(a, v) ==> !Eval(b, v));
      case Xor => ToImpliesNotSound(XorDetour(a, b), v);
      case Iff => ToImpliesNotSound(IffDetour(a, b), v);
      case Nand => ToImpliesNotSound(NandDetour(a, b), v);
      case Nor => ToImpliesNotSound(NorDetour(a, b), v);
  }

  lemma {:induction false} ToImpliesFalseSound(f: Formula, v: Assignment)
    ensures Eval(ToImpliesFalse(f), v) == Eval(f, v)
    decreases Weight(f)
  {
    match f
    case Var(_) =>
    case T =>
    case F =>
    case Not(a) => ToImpliesFalseSound(a, v);
    case Bin(op, a, b) =>
      match op
      case Implies =>
        ToImpliesFalseSound(a, v);
        ToImpliesFalseSound(b, v);
      case Or =>
        ToImpliesFalseSound(a, v);
        ToImpliesFalseSound(b, v);
        assert Eval(Bin(Implies, ToImpliesFalse(a), F), v) == !Eval(a, v);
      case And =>
        ToImpliesFalseSound(a, v);
        ToImpliesFalseSound(b, v);
        assert Eval(Bin(Implies, ToImpliesFalse(b), F), v) == !Eval(b, v);
      case Xor => ToImpliesFalseSound(XorDetour(a, b), v);
      case Iff => ToImpliesFalseSound(IffDetour(a, b), v);
      case Nand => ToImpliesFalseSound(NandDetour(a, b), v);
      case Nor => ToImpliesFalseSound(NorDetour(a, b), v);
  }
}
