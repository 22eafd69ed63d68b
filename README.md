# Operator-basis conversion of propositional formulas

A Dafny model of `propositions/operators.py`: five pure converters that rewrite a
propositional formula (variables, the constants `T` and `F`, `~`, and the binary
operators `&`, `|`, `->`, `+`, `<->`, `-&`, `-|`) into a formula over one operator
basis:

| converter | basis |
|---|---|
| `ToNotAndOr` (`to_not_and_or`) | `~`, `&`, `\|` |
| `ToNotAnd` (`to_not_and`) | `~`, `&` |
| `ToNand` (`to_nand`) | `-&` |
| `ToImpliesNot` (`to_implies_not`) | `->`, `~` |
| `ToImpliesFalse` (`to_implies_false`) | `->`, `F` |

Files and modules:

- `syntax.dfy`, module `Syntax`: the `Formula` datatype. Its constructors stand in
  for the root-kind tests `is_variable`, `is_constant` and `is_unary` and for the
  operator strings. It also defines the variables of a formula (`Vars`), whether a
  constant occurs in it (`HasConstant`) and the placeholder variable `p`.
- `semantics.dfy`, module `Semantics`: `Eval`, the truth value of a formula under
  a total assignment `string -> bool`. It exists only to state the properties.
- `operators.dfy`, module `Operators`: the five basis predicates and the five
  converters. Each converter's contract states that its result lies in its basis.
  The module also holds the detour builders and the termination measures.
  A detour builder makes the intermediate formula over the original children that
  a converter converts again. Its contract says it is lighter than the node it
  replaces, has the same truth table, and mentions the same variables and constants.
- `soundness.dfy`, module `Soundness`: four converters keep the truth table.
- `identity.dfy`, module `Identity`: each converter is the identity on its own
  basis (in particular on a lone variable), hence idempotent.
- `variables.dfy`, module `Variables`: the exact variable set of each output.
- `nand.dfy`, module `NandSoundness`: what `ToNand` computes as written, where
  that breaks its documented promise, and a corrected converter.

Termination is not plain structural recursion. Several cases convert a new
formula built over the original children.

- `ToNotAnd`, `ToImpliesNot` and `ToImpliesFalse` decrease `Weight`. `Weight` charges
  `->`, `-&` and `-|` three and counts both children of `+` and `<->` twice.
- `ToNand` re-converts the `&` of two formulas it has already converted (line 168).
  It decreases the pair (`Detours`, formula). `Detours` counts only `+`, `<->` and
  `-|`. The lemma `NandOnlyHasNoDetours` shows that a nand-only formula has no
  detours.

The docstring of `to_nand` (lines 126-128) promises a formula with the same truth
table. The code does not keep that promise for `T`, `F` and `->`. The model
follows the code and proves the exact truth function it computes (see Findings).

## Model

| member | source | states |
|---|---|---|
| Operators.ToNotAndOr | propositions/operators.py:13-61 | the result contains no constants and no operators other than `~`, `&`, `\|` |
| Operators.ToNotAnd | propositions/operators.py:64-115 | the result contains no constants and no operators other than `~`, `&`, including after the detours for `->`, `+`, `<->`, `-\|` |
| Operators.ToNand | propositions/operators.py:118-181 | the result contains only variables and `-&`, including for `T`, `F`, `->` and the `+`, `<->`, `-\|` detours |
| Operators.ToImpliesNot | propositions/operators.py:184-236 | the result contains no constants and no operators other than `->`, `~` |
| Operators.ToImpliesFalse | propositions/operators.py:239-292 | the result contains only variables, `->` and `F`; the constant `T` never occurs in it |
| Operators.ImpliesDetour | propositions/operators.py:100-101 | `~a \| b` is lighter than `a -> b`, has the same truth table and the same variables and constants |
| Operators.XorDetour | propositions/operators.py:103-104 | `(a & ~b) \| (~a & b)` is lighter than `a + b`, has the same truth table and the same variables and constants (also used at 223-225 and 278-280) |
| Operators.IffDetour | propositions/operators.py:106-108 | `(a & b) \| (~a & ~b)` is lighter than `a <-> b`, has the same truth table and the same variables and constants (also used at 227-228 and 282-284) |
| Operators.NandDetour | propositions/operators.py:230-231 | `~(a & b)` is lighter than `a -& b`, has the same truth table and the same variables and constants (also used at 286-287) |
| Operators.NorDetour | propositions/operators.py:113-114 | `~(a \| b)` is lighter than `a -\| b`, has the same truth table and the same variables and constants (also used at 233-234 and 289-290) |
| Operators.NandOnlyHasNoDetours | propositions/operators.py:164-168 | a nand-only formula, such as the results re-converted at line 168, carries no `+`, `<->` or `-\|` |
| Soundness.ToNotAndOrSound | propositions/operators.py:20-61 | `to_not_and_or` gives the input's truth value under every assignment |
| Soundness.ToNotAndSound | propositions/operators.py:70-115 | `to_not_and` gives the input's truth value under every assignment |
| Soundness.ToImpliesNotSound | propositions/operators.py:190-236 | `to_implies_not` gives the input's truth value under every assignment |
| Soundness.ToImpliesFalseSound | propositions/operators.py:245-292 | `to_implies_false` gives the input's truth value under every assignment |
| Identity.ToNotAndOrIdentity | propositions/operators.py:29-46 | a formula over `~`, `&`, `\|` (a lone variable in particular) is returned unchanged |
| Identity.ToNotAndIdentity | propositions/operators.py:79-95 | a formula over `~`, `&` (a lone variable in particular) is returned unchanged |
| Identity.ToNandIdentity | propositions/operators.py:133-175 | a nand-only formula (a lone variable in particular) is rebuilt unchanged; in particular the two parts already converted before line 168, `a_or_b` and `not_and`, come back unchanged from the re-conversion, which only adds the two `-&` nodes of the `&` encoding |
| Identity.ToImpliesNotIdentity | propositions/operators.py:199-215 | a formula over `->`, `~` (a lone variable in particular) is returned unchanged |
| Identity.ToImpliesFalseIdentity | propositions/operators.py:254-270 | a formula over `->`, `F` (a lone variable in particular) is returned unchanged; `F` and `->` are kept |
| Identity.ToNotAndOrIdempotent | propositions/operators.py:13-61 | converting twice to `~`, `&`, `\|` is converting once |
| Identity.ToNotAndIdempotent | propositions/operators.py:64-115 | converting twice to `~`, `&` is converting once |
| Identity.ToNandIdempotent | propositions/operators.py:118-181 | converting twice to `-&` is converting once |
| Identity.ToImpliesNotIdempotent | propositions/operators.py:184-236 | converting twice to `->`, `~` is converting once |
| Identity.ToImpliesFalseIdempotent | propositions/operators.py:239-292 | converting twice to `->`, `F` is converting once |
| Variables.ToNotAndOrVars | propositions/operators.py:29-37 | the output's variables are the input's, plus `p` exactly when the input contains a constant |
| Variables.ToNotAndVars | propositions/operators.py:79-86 | the output's variables are the input's, plus `p` exactly when the input contains a constant |
| Variables.ToNandVars | propositions/operators.py:133-142 | the output's variables are the input's, plus `p` exactly when the input contains a constant |
| Variables.ToImpliesNotVars | propositions/operators.py:199-206 | the output's variables are the input's, plus `p` exactly when the input contains a constant |
| Variables.ToImpliesFalseVars | propositions/operators.py:254-260 | the output's variables are exactly the input's; no placeholder is introduced |
| NandSoundness.ToNandComputes | propositions/operators.py:131-179 | under every assignment the output evaluates to the input read with `T` as `p`, `F` as true and `a -> b` as `b -> a`, all other operators as usual |
| NandSoundness.ToNandSound | propositions/operators.py:144-179 | on formulas without `T`, `F` and `->` the output has the input's truth value under every assignment; the `+`, `<->` and `-\|` detours are sound |
| NandSoundness.ToNandTrueIsPlaceholder | propositions/operators.py:139-141 | `T` converts to a formula that evaluates to `p`, so it is false wherever `p` is false |
| NandSoundness.ToNandFalseIsTautology | propositions/operators.py:142 | `F` converts to a formula that is true under every assignment |
| NandSoundness.ToNandReversesImplies | propositions/operators.py:160-162 | at p = true, q = false, `p -> q` is false but its conversion is true |
| NandSoundness.ToNandCorrected | propositions/operators.py:126-128 | a nand-only converter with `T`, `F` and `->` encoded correctly; its result contains only variables and `-&` |
| NandSoundness.ToNandCorrectedSound | propositions/operators.py:126-128 | the corrected converter gives the input's truth value for every formula and assignment, as the docstring promises |
| NandSoundness.ToNandCorrectedAgrees | propositions/operators.py:144-179 | on formulas without `T`, `F` and `->` the corrected converter returns exactly what `to_nand` returns |
| NandSoundness.ToNandCorrectedIdentity | propositions/operators.py:133-175 | the corrected converter also rebuilds a nand-only formula unchanged |

## Findings

| source | as written | input that shows it | evidently intended | confidence | as-written member | corrected member |
|---|---|---|---|---|---|---|
| propositions/operators.py:139-141 | `T` becomes `(p -& p) -& (p -& p)`, which evaluates to `p` | `T` with p = false: input true, output false | a tautology, e.g. `p -& (p -& p)` | high; proved, not executed | NandSoundness.ToNandTrueIsPlaceholder | NandSoundness.ToNandCorrectedSound |
| propositions/operators.py:142 | `F` becomes `p -& (p -& p)`, which is always true | `F` under any assignment: input false, output true | a contradiction, e.g. the nand of that tautology with itself | high; proved, not executed | NandSoundness.ToNandFalseIsTautology | NandSoundness.ToNandCorrectedSound |
| propositions/operators.py:160-162 | `a -> b` becomes `(a -& a) -& b`, which is `b -> a` | `p -> q` with p = true, q = false: input false, output true | `a -& (b -& b)` | high; proved, not executed | NandSoundness.ToNandReversesImplies | NandSoundness.ToNandCorrectedSound |

`NandSoundness.ToNandComputes` gives the exact truth function of `to_nand` as written.
`ToNand` in the model is the code as written. `ToNandCorrected` differs only in
these three encodings. `ToNandCorrectedAgrees` shows it returns the same formula
as `to_nand` on every formula without `T`, `F` and `->`.

## Left out

- Formula parsing, printing and the variable-name syntax check: `propositions/syntax.py` is not part of this model. Its root-kind tests become constructor tests of `Formula`.
- The truth-table code in `propositions/semantics.py` (imported but unused by the converters) is not part of this model. `Eval` is written here only as the specification.
- The fall-through of `to_not_and_or` after line 61, which returns `None`, and the final `return formula` of the other four converters (lines 115, 181, 236, 292): with a closed datatype and exhaustive matches no root reaches them.
- The `left`/`right` conversions that `to_not_and`, `to_nand`, `to_implies_not` and `to_implies_false` compute before taking a detour (for example lines 91-92 before 101-114): their results are discarded, so the model converts children only in the cases that use them.
- Sharing of duplicated subtrees, running time and recursion depth: formulas are values, and only results are modelled.
- A clash between the placeholder `p` and a variable `p` already in the input is not guarded against, as in the source. In `to_not_and_or`, `to_not_and` and `to_implies_not` it does not affect truth values, because their encodings of `T` and `F` (`p | ~p`, `p & ~p`, `~(p & ~p)`, `p -> p`, `~(p -> p)`) do not depend on `p`; `to_implies_false` uses no placeholder. In `to_nand` the encoding of `T` evaluates to `p`, so there a clash does change whether the output agrees with the input (see Findings). `Variables` states exactly when `p` is added.
