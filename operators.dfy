/// The five operator-basis converters of `propositions/operators.py`.
///
/// Each converter is a total function over every formula and promises, in its
/// contract, that its result uses only the operators of its basis. Several
/// cases rewrite the node into an intermediate formula over the ORIGINAL
/// children and convert that again ("detours"); their termination rests on
/// the measures `Weight` and `Detours` below.

module Operators {
  import opened Syntax
  import opened Semantics

  // ---------------------------------------------------------------------------
  // Operator bases
  // ---------------------------------------------------------------------------

  /// Only variables, `~`, `&` and `|`.
  predicate InNotAndOr(f: Formula) {
    match f
    case Var(_) => true
    case T | F => false
    case Not(a) => InNotAndOr(a)
    case Bin(op, a, b) => (op == And || op == Or) && InNotAndOr(a) && InNotAndOr(b)
  }

  /// Only variables, `~` and `&`.
  predicate InNotAnd(f: Formula) {
    match f
    case Var(_) => true
    case T | F => false
    case Not(a) => InNotAnd(a)
    case Bin(op, a, b) => op == And && InNotAnd(a) && InNotAnd(b)
  }

  /// Only variables and `-&`.
  predicate InNand(f: Formula) {
    match f
    case Var(_) => true
    case T | F => false
    case Not(_) => false
    case Bin(op, a, b) => op == Nand && InNand(a) && InNand(b)
  }

  /// Only variables, `->` and `~`.
  predicate InImpliesNot(f: Formula) {
    match f
    case Var(_) => true
    case T | F => false
    case Not(a) => InImpliesNot(a)
    case Bin(op, a, b) => op == Implies && InImpliesNot(a) && InImpliesNot(b)
  }

  /// Only variables, `->` and the constant `F`.
  predicate InImpliesFalse(f: Formula) {
    match f
    case Var(_) => true
    case T => false
    case F => true
    case Not(_) => false
    case Bin(op, a, b) => op == Implies && InImpliesFalse(a) && InImpliesFalse(b)
  }

  // ---------------------------------------------------------------------------
  // Termination measures
  // ---------------------------------------------------------------------------

  /// A size in which every operator that some converter eliminates by a
  /// detour outweighs that detour's intermediate formula: `->`, `-&` and `-|`
  /// add 3 (their detours add 2), `+` and `<->` count both children twice
  /// (their detours mention each child twice).
  function Weight(f: Formula): nat {
    match f
    case Var(_) | T | F => 1
    case Not(a) => Weight(a) + 1
    case Bin(op, a, b) =>
      match op
      case And | Or => Weight(a) + Weight(b) + 1
      case Implies | Nand | Nor => Weight(a) + Weight(b) + 3
      case Xor | Iff => 2 * (Weight(a) + Weight(b)) + 6
  }

  /// The detour budget of `ToNand`: only `+`, `<->` and `-|` count, so a
  /// formula already made of `-&` has none, which is what lets `ToNand`
  /// re-convert its own results in the `+` case.
  function Detours(f: Formula): nat {
    match f
    case Var(_) | T | F => 0
    case Not(a) => Detours(a)
    case Bin(op, a, b) =>
      match op
      case And | Or | Implies | Nand => Detours(a) + Detours(b)
      case Xor => Detours(a) + Detours(b) + 2
      case Iff => Detours(a) + Detours(b) + 3
      case Nor => Detours(a) + Detours(b) + 1
  }

  lemma {:induction false} NandOnlyHasNoDetours(f: Formula)
    requires InNand(f)
    ensures Detours(f) == 0
  {
    match f
    case Var(_) =>
    case Bin(_, a, b) =>
      NandOnlyHasNoDetours(a);
      NandOnlyHasNoDetours(b);
  }

  // ---------------------------------------------------------------------------
  // Detours: the intermediate formulas over the original children
  // ---------------------------------------------------------------------------

  /// `a -> b` as `~a | b`.
  function ImpliesDetour(a: Formula, b: Formula): (g: Formula)
    ensures Weight(g) < Weight(Bin(Implies, a, b))
    ensures forall v :: Eval(g, v) == Eval(Bin(Implies, a, b), v)
    ensures Vars(g) == Vars(a) + Vars(b)
    ensures HasConstant(g) == (HasConstant(a) || HasConstant(b))
  {
    Bin(Or, Not(a), b)
  }

  /// `a + b` as `(a & ~b) | (~a & b)`.
  function XorDetour(a: Formula, b: Formula): (g: Formula)
    ensures Weight(g) < Weight(Bin(Xor, a, b))
    ensures forall v :: Eval(g, v) == Eval(Bin(Xor, a, b), v)
    ensures Vars(g) == Vars(a) + Vars(b)
    ensures HasConstant(g) == (HasConstant(a) || HasConstant(b))
  {
    var l, r := Bin(And, a, Not(b)), Bin(And, Not(a), b);
    assert Weight(l) == Weight(a) + Weight(b) + 2;
    assert Weight(r) == Weight(a) + Weight(b) + 2;
    assert forall v :: Eval(l, v) == (Eval(a, v) && !Eval(b, v));
    assert forall v :: Eval(r, v) == (!Eval(a, v) && Eval(b, v));
    assert Vars(l) == Vars(r) == Vars(a) + Vars(b);
    assert HasConstant(l) == HasConstant(r) == (HasConstant(a) || HasConstant(b));
    Bin(Or, l, r)
  }

  /// `a <-> b` as `(a & b) | (~a & ~b)`.
  function IffDetour(a: Formula, b: Formula): (g: Formula)
    ensures Weight(g) < Weight(Bin(Iff, a, b))
    ensures forall v :: Eval(g, v) == Eval(Bin(Iff, a, b), v)
    ensures Vars(g) == Vars(a) + Vars(b)
    ensures HasConstant(g) == (HasConstant(a) || HasConstant(b))
  {
    var l, r := Bin(And, a, b), Bin(And, Not(a), Not(b));
    assert Weight(r) == Weight(a) + Weight(b) + 3;
    assert forall v :: Eval(r, v) == (!Eval(a, v) && !Eval(b, v));
    assert Vars(r) == Vars(a) + Vars(b);
    assert HasConstant(r) == (HasConstant(a) || HasConstant(b));
    Bin(Or, l, r)
  }

  /// `a -& b` as `~(a & b)`.
  function NandDetour(a: Formula, b: Formula): (g: Formula)
    ensures Weight(g) < Weight(Bin(Nand, a, b))
    ensures forall v :: Eval(g, v) == Eval(Bin(Nand, a, b), v)
    ensures Vars(g) == Vars(a) + Vars(b)
    ensures HasConstant(g) == (HasConstant(a) || HasConstant(b))
  {
    Not(Bin(And, a, b))
  }

  /// `a -| b` as `~(a | b)`.
  function NorDetour(a: Formula, b: Formula): (g: Formula)
    ensures Weight(g) < Weight(Bin(Nor, a, b))
    ensures forall v :: Eval(g, v) == Eval(Bin(Nor, a, b), v)
    ensures Vars(g) == Vars(a) + Vars(b)
    ensures HasConstant(g) == (HasConstant(a) || HasConstant(b))
  {
    Not(Bin(Or, a, b))
  }

  // ---------------------------------------------------------------------------
  // The converters
  // ---------------------------------------------------------------------------

  function ToNotAndOr(f: Formula): (r: Formula)
    ensures InNotAndOr(r)
  {
    match f
    case Var(_) => f
    case T => Bin(Or, Var(Placeholder), Not(Var(Placeholder)))
    case F => Bin(And, Var(Placeholder), Not(Var(Placeholder)))
    case Not(a) => Not(ToNotAndOr(a))
    case Bin(op, a, b) =>
      var left, right := ToNotAndOr(a), ToNotAndOr(b);
      match op
      case And | Or => Bin(op, left, right)
      case Implies => Bin(Or, Not(left), right)
      case Xor => Bin(Or, Bin(And, left, Not(right)), Bin(And, Not(left), right))
      case Iff => Bin(Or, Bin(And, left, right), Bin(And, Not(left), Not(right)))
      case Nand => Not(Bin(And, left, right))
      case Nor => Not(Bin(Or, left, right))
  }

  function ToNotAnd(f: Formula): (r: Formula)
    ensures InNotAnd(r)
    decreases Weight(f)
  {
    match f
    case Var(_) => f
    case T => Not(Bin(And, Var(Placeholder), Not(Var(Placeholder))))
    case F => Bin(And, Var(Placeholder), Not(Var(Placeholder)))
    case Not(a) => Not(ToNotAnd(a))
    case Bin(op, a, b) =>
      match op
      case And => Bin(And, ToNotAnd(a), ToNotAnd(b))
      case Or => Not(Bin(And, Not(ToNotAnd(a)), Not(ToNotAnd(b))))
      case Implies => ToNotAnd(ImpliesDetour(a, b))
      case Xor => ToNotAnd(XorDetour(a, b))
      case Iff => ToNotAnd(IffDetour(a, b))
      case Nand => Not(Bin(And, ToNotAnd(a), ToNotAnd(b)))
      case Nor => ToNotAnd(NorDetour(a, b))
  }

  /// `to_nand`, as written: the encodings of `T`, `F` and `->` are not
  /// equivalences (see module NandSoundness).
  function ToNand(f: Formula): (r: Formula)
    ensures InNand(r)
    decreases Detours(f), f
  {
    match f
    case Var(_) => f
    case T =>
      var p := Var(Placeholder);
      Bin(Nand, Bin(Nand, p, p), Bin(Nand, p, p))
    case F =>
      var p := Var(Placeholder);
      Bin(Nand, p, Bin(Nand, p, p))
    case Not(a) =>
      var inner := ToNand(a);
      Bin(Nand, inner, inner)
    case Bin(op, a, b) =>
      match op
      case And =>
        var nand := Bin(Nand, ToNand(a), ToNand(b));
        Bin(Nand, nand, nand)
      case Or =>
        var left, right := ToNand(a), ToNand(b);
        Bin(Nand, Bin(Nand, left, left), Bin(Nand, right, right))
      case Implies =>
        var left := ToNand(a);
        Bin(Nand, Bin(Nand, left, left), ToNand(b))
      case Xor =>
        var aOrB := ToNand(Bin(Or, a, b));
        var aAndB := ToNand(Bin(And, a, b));
        var notAnd := Bin(Nand, aAndB, aAndB);
        NandOnlyHasNoDetours(aOrB);
        NandOnlyHasNoDetours(notAnd);
        ToNand(Bin(And, aOrB, notAnd))
      case Iff =>
        var xor := ToNand(Bin(Xor, a, b));
        Bin(Nand, xor, xor)
      case Nand => Bin(Nand, ToNand(a), ToNand(b))
      case Nor =>
        var orFormula := ToNand(Bin(Or, a, b));
        Bin(Nand, orFormula, orFormula)
  }

  function ToImpliesNot(f: Formula): (r: Formula)
    ensures InImpliesNot(r)
    decreases Weight(f)
  {
    match f
    case Var(_) => f
    case T => Bin(Implies, Var(Placeholder), Var(Placeholder))
    case F => Not(Bin(Implies, Var(Placeholder), Var(Placeholder)))
    case Not(a) => Not(ToImpliesNot(a))
    case Bin(op, a, b) =>
      match op
      case Implies => Bin(Implies, ToImpliesNot(a), ToImpliesNot(b))
      case And => Not(Bin(Implies, ToImpliesNot(a), Not(ToImpliesNot(b))))
      case Or => Bin(Implies, Not(ToImpliesNot(a)), ToImpliesNot(b))
      case Xor => ToImpliesNot(XorDetour(a, b))
      case Iff => ToImpliesNot(IffDetour(a, b))
      case Nand => ToImpliesNot(NandDetour(a, b))
      case Nor => ToImpliesNot(NorDetour(a, b))
  }

  function ToImpliesFalse(f: Formula): (r: Formula)
    ensures InImpliesFalse(r)
    decreases Weight(f)
  {
    match f
    case Var(_) => f
    case F => F
    case T => Bin(Implies, F, F)
    case Not(a) => Bin(Implies, ToImpliesFalse(a), F)
    case Bin(op, a, b) =>
      match op
      case Implies => Bin(Implies, ToImpliesFalse(a), ToImpliesFalse(b))
      case And =>
        var notRight := Bin(Implies, ToImpliesFalse(b), F);
        assert InImpliesFalse(notRight);
        Bin(Implies, Bin(Implies, ToImpliesFalse(a), notRight), F)
      case Or => Bin(Implies, Bin(Implies, ToImpliesFalse(a), F), ToImpliesFalse(b))
      case Xor => ToImpliesFalse(XorDetour(a, b))
      case Iff => ToImpliesFalse(IffDetour(a, b))
      case Nand => ToImpliesFalse(NandDetour(a, b))
      case Nor => ToImpliesFalse(NorDetour(a, b))
  }
}
