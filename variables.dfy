/// The variables of a converted formula are exactly those of its input, plus
/// the placeholder `p` when (and only when) the input mentions a constant;
/// `ToImpliesFalse` spells constants with `F` and introduces no variable.

module Variables {
  import opened Syntax
  import opened Operators
  import Identity

  /// The variable a converter adds to spell the constants of `f`.
  function Introduced(f: Formula): set<string> {
    if HasConstant(f) then {Placeholder} else {}
  }

  lemma {:induction false} ToNotAndOrVars(f: Formula)
    ensures Vars(ToNotAndOr(f)) == Vars(f) + Introduced(f)
  {
    match f
    case Var(_) =>
    case T =>
    case F =>
    case Not(a) => ToNotAndOrVars(a);
    case Bin(op, a, b) =>
      ToNotAndOrVars(a);
      ToNotAndOrVars(b);
      var left, right := ToNotAndOr(a), ToNotAndOr(b);
      assert Vars(Bin(And, left, Not(right))) == Vars(left) + Vars(right);
      assert Vars(Bin(And, Not(left), Not(right))) == Vars(left) + Vars(right);
  }

  lemma {:induction false} ToNotAndVars(f: Formula)
    ensures Vars(ToNotAnd(f)) == Vars(f) + Introduced(f)
    decreases Weight(f)
  {
    match f
    case Var(_) =>
    case T =>
    case F =>
    case Not(a) => ToNotAndVars(a);
    case Bin(op, a, b) =>
      match op
      case And | Or | Nand =>
        ToNotAndVars(a);
        ToNotAndVars(b);
        assert Vars(Bin(And, Not(ToNotAnd(a)), Not(ToNotAnd(b)))) == Vars(ToNotAnd(a)) + Vars(ToNotAnd(b));
      case Implies => ToNotAndVars(ImpliesDetour(a, b));
      case Xor => ToNotAndVars(XorDetour(a, b));
      case Iff => ToNotAndVars(IffDetour(a, b));
      case Nor => ToNotAndVars(NorDetour(a, b));
  }

  lemma {:induction false} ToNandVars(f: Formula)
    ensures Vars(ToNand(f)) == Vars(f) + Introduced(f)
    decreases Detours(f), f
  {
    match f
    case Var(_) =>
    case T =>
    case F =>
    case Not(a) => ToNandVars(a);
    case Bin(op, a, b) =>
      match op
      case And | Or | Implies | Nand =>
        ToNandVars(a);
        ToNandVars(b);
      case Xor =>
        var aOrB, aAndB := ToNand(Bin(Or, a, b)), ToNand(Bin(And, a, b));
        ToNandVars(Bin(Or, a, b));
        ToNandVars(Bin(And, a, b));
        var notAnd := Bin(Nand, aAndB, aAndB);
        Identity.ToNandIdentity(aOrB);
        Identity.ToNandIdentity(notAnd);
        assert ToNand(f) == ToNand(Bin(And, aOrB, notAnd));
        assert Vars(ToNand(f)) == Vars(aOrB) + Vars(notAnd);
      case Iff => ToNandVars(Bin(Xor, a, b));
      case Nor => ToNandVars(Bin(Or, a, b));
  }

  lemma {:induction false} ToImpliesNotVars(f: Formula)
    ensures Vars(ToImpliesNot(f)) == Vars(f) + Introduced(f)
    decreases Weight(f)
  {
    match f
    case Var(_) =>
    case T =>
    case F =>
    case Not(a) => ToImpliesNotVars(a);
    case Bin(op, a, b) =>
      match op
      case Implies | And | Or =>
        ToImpliesNotVars(a);
        ToImpliesNotVars(b);
        assert Vars(Bin(Implies, ToImpliesNot(a), Not(ToImpliesNot(b)))) == Vars(ToImpliesNot(a)) + Vars(ToImpliesNot(b));
      case Xor => ToImpliesNotVars(XorDetour(a, b));
      case Iff => ToImpliesNotVars(IffDetour(a, b));
      case Nand => ToImpliesNotVars(NandDetour(a, b));
      case Nor => ToImpliesNotVars(NorDetour(a, b));
  }

  lemma {:induction false} ToImpliesFalseVars(f: Formula)
    ensures Vars(ToImpliesFalse(f)) == Vars(f)
    decreases Weight(f)
  {
    match f
    case Var(_) =>
    case T =>
    case F =>
    case Not(a) => ToImpliesFalseVars(a);
    case Bin(op, a, b) =>
      match op
      case Implies | And | Or =>
        ToImpliesFalseVars(a);
        ToImpliesFalseVars(b);
        assert Vars(Bin(Implies, ToImpliesFalse(a), F)) == Vars(a);
        assert Vars(Bin(Implies, ToImpliesFalse(b), F)) == Vars(b);
      case Xor => ToImpliesFalseVars(XorDetour(a, b));
      case Iff => ToImpliesFalseVars(IffDetour(a, b));
      case Nand => ToImpliesFalseVars(NandDetour(a, b));
      case Nor => ToImpliesFalseVars(NorDetour(a, b));
  }
}
