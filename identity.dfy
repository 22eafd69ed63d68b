/// Every converter leaves a formula that is already in its basis unchanged
/// (in particular a lone variable), and so converting twice is converting once.

module Identity {
  import opened Syntax
  import opened Operators

  lemma {:induction false} ToNotAndOrIdentity(f: Formula)
    requires InNotAndOr(f)
    ensures ToNotAndOr(f) == f
  {
    match f
    case Var(_) =>
    case Not(a) => ToNotAndOrIdentity(a);
    case Bin(_, a, b) =>
      ToNotAndOrIdentity(a);
      ToNotAndOrIdentity(b);
  }

  lemma {:induction false} ToNotAndIdentity(f: Formula)
    requires InNotAnd(f)
    ensures ToNotAnd(f) == f
  {
    match f
    case Var(_) =>
    case Not(a) => ToNotAndIdentity(a);
    case Bin(_, a, b) =>
      ToNotAndIdentity(a);
      ToNotAndIdentity(b);
  }

  lemma {:induction false} ToNandIdentity(f: Formula)
    requires InNand(f)
    ensures ToNand(f) == f
  {
    match f
    case Var(_) =>
    case Bin(_, a, b) =>
      ToNandIdentity(a);
      ToNandIdentity(b);
  }

  lemma {:induction false} ToImpliesNotIdentity(f: Formula)
    requires InImpliesNot(f)
    ensures ToImpliesNot(f) == f
  {
    match f
    case Var(_) =>
    case Not(a) => ToImpliesNotIdentity(a);
    case Bin(_, a, b) =>
      ToImpliesNotIdentity(a);
      ToImpliesNotIdentity(b);
  }

  lemma {:induction false} ToImpliesFalseIdentity(f: Formula)
    requires InImpliesFalse(f)
    ensures ToImpliesFalse(f) == f
  {
    match f
    case Var(_) =>
    case F =>
    case Bin(_, a, b) =>
      ToImpliesFalseIdentity(a);
      ToImpliesFalseIdentity(b);
  }

  lemma ToNotAndOrIdempotent(f: Formula)
    ensures ToNotAndOr(ToNotAndOr(f)) == ToNotAndOr(f)
  {
    ToNotAndOrIdentity(ToNotAndOr(f));
  }

  lemma ToNotAndIdempotent(f: Formula)
    ensures ToNotAnd(ToNotAnd(f)) == ToNotAnd(f)
  {
    ToNotAndIdentity(ToNotAnd(f));
  }

  lemma ToNandIdempotent(f: Formula)
    ensures ToNand(ToNand(f)) == ToNand(f)
  {
    ToNandIdentity(ToNand(f));
  }

  lemma ToImpliesNotIdempotent(f: Formula)
    ensures ToImpliesNot(ToImpliesNot(f)) == ToImpliesNot(f)
  {
    ToImpliesNotIdentity(ToImpliesNot(f));
  }

  lemma ToImpliesFalseIdempotent(f: Formula)
    ensures ToImpliesFalse(ToImpliesFalse(f)) == ToImpliesFalse(f)
  {
    ToImpliesFalseIdentity(ToImpliesFalse(f));
  }
}
