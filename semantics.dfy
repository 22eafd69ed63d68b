/// The truth value of a formula under an assignment. Assignments are total,
/// so the placeholder variable introduced by the converters always has a value.

module Semantics {
  import opened Syntax

  type Assignment = string -> bool

  function EvalBin(op: BinOp, a: bool, b: bool): bool {
    match op
    case And => a && b
    case Or => a || b
    case Implies => a ==> b
    case Xor => a != b
    case Iff => a == b
    case Nand => !(a && b)
    case Nor => !(a || b)
  }

  function Eval(f: Formula, v: Assignment): bool {
    match f
    case Var(x) => v(x)
    case T => true
    case F => false
    case Not(a) => !Eval(a, v)
    case Bin(op, a, b) => EvalBin(op, Eval(a, v), Eval(b, v))
  }
}
