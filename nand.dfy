/// What `ToNand` computes as written, where it disagrees with its documented
/// promise of an equivalent formula, and a corrected converter that keeps
/// the promise.
///
/// As written, `T` becomes `(p -& p) -& (p -& p)`, which evaluates to `p`; `F` becomes
/// `p -& (p -& p)`, which is always true; and `a -> b` becomes
/// `(a -& a) -& b`, which is `b -> a`. Every other case is sound, so the
/// converter keeps the truth table on formulas without `T`, `F` and `->`.

module NandSoundness {
  import opened Syntax
  import opened Semantics
  import opened Operators
  import Identity

  /// The truth function `ToNand` realises: `Eval` except that `T` reads as
  /// the placeholder, `F` as true, and `a -> b` as `b -> a`.
  function AsWrittenEval(f: Formula, v: Assignment): bool {
    match f
    case Var(x) => v(x)
    case T => v(Placeholder)
    case F => true
    case Not(a) => !AsWrittenEval(a, v)
    case Bin(Implies, a, b) => AsWrittenEval(b, v) ==> AsWrittenEval(a, v)
    case Bin(op, a, b) => EvalBin(op, AsWrittenEval(a, v), AsWrittenEval(b, v))
  }

  /// Formulas without `T`, `F` and `->`: a sufficient condition for `ToNand`
  /// to keep the truth table.
  predicate NoConstantsOrImplies(f: Formula) {
    match f
    case Var(_) => true
    case T | F => false
    case Not(a) => NoConstantsOrImplies(a)
    case Bin(op, a, b) => op != Implies && NoConstantsOrImplies(a) && NoConstantsOrImplies(b)
  }

  lemma {:induction false} ToNandComputes(f: Formula, v: Assignment)
    ensures Eval(ToNand(f), v) == AsWrittenEval(f, v)
    decreases Detours(f), f
  {
    match f
    case Var(_) =>
    case T =>
    case F =>
    case Not(a) => ToNandComputes(a, v);
    case Bin(op, a, b) =>
      match op
      case And | Or | Implies | Nand =>
        ToNandComputes(a, v);
        ToNandComputes(b, v);
      case Xor =>
        var aOrB, aAndB := ToNand(Bin(Or, a, b)), ToNand(Bin(And, a, b));
        var notAnd := Bin(Nand, aAndB, aAndB);
        ToNandComputes(Bin(Or, a, b), v);
        ToNandComputes(Bin(And, a, b), v);
        Identity.ToNandIdentity(aOrB);
        Identity.ToNandIdentity(notAnd);
        var both := Bin(Nand, aOrB, notAnd);
        assert ToNand(f) == ToNand(Bin(And, aOrB, notAnd)) == Bin(Nand, both, both);
        assert Eval(notAnd, v) == !Eval(aAndB, v);
        assert Eval(both, v) == !(Eval(aOrB, v) && Eval(notAnd, v));
        assert Eval(ToNand(f), v) == (Eval(aOrB, v) && !Eval(aAndB, v));
      case Iff => ToNandComputes(Bin(Xor, a, b), v);
      case Nor => ToNandComputes(Bin(Or, a, b), v);
  }

  lemma {:induction false} AsWrittenEvalAgrees(f: Formula, v: Assignment)
    requires NoConstantsOrImplies(f)
    ensures AsWrittenEval(f, v) == Eval(f, v)
  {
    match f
    case Var(_) =>
    case Not(a) => AsWrittenEvalAgrees(a, v);
    case Bin(_, a, b) =>
      AsWrittenEvalAgrees(a, v);
      AsWrittenEvalAgrees(b, v);
  }

  /// The `+`, `<->` and `-|` detours and the direct cases are sound.
  lemma ToNandSound(f: Formula, v: Assignment)
    requires NoConstantsOrImplies(f)
    ensures Eval(ToNand(f), v) == Eval(f, v)
  {
    ToNandComputes(f, v);
    AsWrittenEvalAgrees(f, v);
  }

  // ---------------------------------------------------------------------------
  // Counterexamples to the documented promise
  // ---------------------------------------------------------------------------

  /// `T` converts to a formula that evaluates to `p`: false wherever `p` is
  /// false.
  lemma ToNandTrueIsPlaceholder(v: Assignment)
    ensures Eval(ToNand(T), v) == v(Placeholder)
    ensures !v(Placeholder) ==> Eval(ToNand(T), v) != Eval(T, v)
  {
  }

  /// `F` converts to a tautology: it differs from `F` under every assignment.
  lemma ToNandFalseIsTautology(v: Assignment)
    ensures Eval(ToNand(F), v)
    ensures Eval(ToNand(F), v) != Eval(F, v)
  {
  }

  /// `p -> q` converts to `q -> p`: at p = true, q = false the input is false
  /// and the output true.
  lemma ToNandReversesImplies(v: Assignment)
    requires v("p") && !v("q")
    ensures !Eval(Bin(Implies, Var("p"), Var("q")), v)
    ensures Eval(ToNand(Bin(Implies, Var("p"), Var("q"))), v)
  {
  }

  // ---------------------------------------------------------------------------
  // The corrected converter
  // ---------------------------------------------------------------------------

  /// `ToNand` with the three faulty encodings replaced: `T` as
  /// `p -& (p -& p)`, `F` as the nand of that with itself, and `a -> b` as
  /// `a -& (b -& b)`.
  function ToNandCorrected(f: Formula): (r: Formula)
    ensures InNand(r)
    decreases Detours(f), f
  {
    match f
    case Var(_) => f
    case T =>
      var p := Var(Placeholder);
      Bin(Nand, p, Bin(Nand, p, p))
    case F =>
      var p := Var(Placeholder);
      var truth := Bin(Nand, p, Bin(Nand, p, p));
      Bin(Nand, truth, truth)
    case Not(a) =>
      var inner := ToNandCorrected(a);
      Bin(Nand, inner, inner)
    case Bin(op, a, b) =>
      match op
      case And =>
        var nand := Bin(Nand, ToNandCorrected(a), ToNandCorrected(b));
        Bin(Nand, nand, nand)
      case Or =>
        var left, right := ToNandCorrected(a), ToNandCorrected(b);
        Bin(Nand, Bin(Nand, left, left), Bin(Nand, right, right))
      case Implies =>
        var right := ToNandCorrected(b);
        Bin(Nand, ToNandCorrected(a), Bin(Nand, right, right))
      case Xor =>
        var aOrB := ToNandCorrected(Bin(Or, a, b));
        var aAndB := ToNandCorrected(Bin(And, a, b));
        var notAnd := Bin(Nand, aAndB, aAndB);
        NandOnlyHasNoDetours(aOrB);
        NandOnlyHasNoDetours(notAnd);
        ToNandCorrected(Bin(And, aOrB, notAnd))
      case Iff =>
        var xor := ToNandCorrected(Bin(Xor, a, b));
        Bin(Nand, xor, xor)
      case Nand => Bin(Nand, ToNandCorrected(a), ToNandCorrected(b))
      case Nor =>
        var orFormula := ToNandCorrected(Bin(Or, a, b));
        Bin(Nand, orFormula, orFormula)
  }

  lemma {:induction false} ToNandCorrectedIdentity(f: Formula)
    requires InNand(f)
    ensures ToNandCorrected(f) == f
  {
    match f
    case Var(_) =>
    case Bin(_, a, b) =>
      ToNandCorrectedIdentity(a);
      ToNandCorrectedIdentity(b);
  }

  lemma {:induction false} ToNandCorrectedSound(f: Formula, v: Assignment)
    ensures Eval(ToNandCorrected(f), v) == Eval(f, v)
    decreases Detours(f), f
  {
    match f
    case Var(_) =>
    case T =>
    case F =>
    case Not(a) => ToNandCorrectedSound(a, v);
    case Bin(op, a, b) =>
      match op
      case And | Or | Implies | Nand =>
        ToNandCorrectedSound(a, v);
        ToNandCorrectedSound(b, v);
      case Xor =>
        var aOrB, aAndB := ToNandCorrected(Bin(Or, a, b)), ToNandCorrected(Bin(And, a, b));
        var notAnd := Bin(Nand, aAndB, aAndB);
        ToNandCorrectedSound(Bin(Or, a, b), v);
        ToNandCorrectedSound(Bin(And, a, b), v);
        ToNandCorrectedIdentity(aOrB);
        ToNandCorrectedIdentity(notAnd);
        var both := Bin(Nand, aOrB, notAnd);
        assert ToNandCorrected(f) == ToNandCorrected(Bin(And, aOrB, notAnd)) == Bin(Nand, both, both);
        assert Eval(notAnd, v) == !Eval(aAndB, v);
        assert Eval(both, v) == !(Eval(aOrB, v) && Eval(notAnd, v));
        assert Eval(ToNandCorrected(f), v) == (Eval(aOrB, v) && !Eval(aAndB, v));
      case Iff => ToNandCorrectedSound(Bin(Xor, a, b), v);
      case Nor => ToNandCorrectedSound(Bin(Or, a, b), v);
  }

  /// On formulas without `T`, `F` and `->` the correction returns exactly
  /// what `to_nand`, as written, returns.
  lemma {:induction false} ToNandCorrectedAgrees(f: Formula)
    requires NoConstantsOrImplies(f)
    ensures ToNandCorrected(f) == ToNand(f)
    decreases Detours(f), f
  {
    match f
    case Var(_) =>
    case Not(a) => ToNandCorrectedAgrees(a);
    case Bin(op, a, b) =>
      match op
      case And | Or | Nand =>
        ToNandCorrectedAgrees(a);
        ToNandCorrectedAgrees(b);
      case Xor =>
        ToNandCorrectedAgrees(Bin(Or, a, b));
        ToNandCorrectedAgrees(Bin(And, a, b));
        var aOrB, aAndB := ToNand(Bin(Or, a, b)), ToNand(Bin(And, a, b));
        var notAnd := Bin(Nand, aAndB, aAndB);
        Identity.ToNandIdentity(aOrB);
        Identity.ToNandIdentity(notAnd);
        ToNandCorrectedIdentity(aOrB);
        ToNandCorrectedIdentity(notAnd);
      case Iff => ToNandCorrectedAgrees(Bin(Xor, a, b));
      case Nor => ToNandCorrectedAgrees(Bin(Or, a, b));
  }
}
