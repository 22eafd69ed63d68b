/// Propositional formulas: the tree every converter consumes and produces.
///
/// The root kinds of `propositions/syntax.py` (`is_variable`, `is_constant`, `is_unary`,
/// and the binary operator strings) become the constructors of a closed
/// datatype, so every converter is an exhaustive match.

module Syntax {

  /// The seven binary operators: `&`, `|`, `->`, `+`, `<->`, `-&`, `-|`.
  datatype BinOp =
    | And
    | Or
    | Implies
    | Xor
    | Iff
    | Nand
    | Nor

  datatype Formula =
    | Var(name: string)
    | T
    | F
    | Not(arg: Formula)
    | Bin(op: BinOp, left: Formula, right: Formula)

  /// The variable every converter but the implies/false one uses to spell a
  /// constant.
  const Placeholder: string := "p"

  /// The variables that occur in a formula.
  function Vars(f: Formula): set<string> {
    match f
    case Var(x) => {x}
    case T | F => {}
    case Not(a) => Vars(a)
    case Bin(_, a, b) => Vars(a) + Vars(b)
  }

  /// Whether the constant `T` or `F` occurs in a formula.
  predicate HasConstant(f: Formula) {
    match f
    case Var(_) => false
    case T | F => true
    case Not(a) => HasConstant(a)
    case Bin(_, a, b) => HasConstant(a) || HasConstant(b)
  }
}
