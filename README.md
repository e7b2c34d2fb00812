# Calculator brain

A Dafny model of `CalculatorBrain`, the evaluation engine of the Calculator2016
app. The brain holds a numeric accumulator and an optional pending binary
operation. It dispatches each button symbol through a fixed table of ten
operations: the constants π and e, the unary operations √, ᐩ/- (negate) and cos,
the binary operations ×, ÷, + and −, and `=`.

- `brain.dfy`, module `Brain`. It holds the data model: `Operation`,
  `PendingBinaryOperationInfo`, the table `Operations`, and `BrainState`, the
  pair of accumulator and pending operation. It gives the reference semantics on
  values: `ExecutePending`, `Perform`, `Step`, and `Run`, which folds a sequence
  of calls into a state. It also holds the class `CalculatorBrain`. The class has
  the source's two mutable fields and the methods `SetOperand`,
  `PerformOperation` and `ExecutePendingBinaryOperation`, which assign those
  fields step by step. A ghost field `Inputs` records every call made on the
  object. The invariant `Valid()` states that the fields equal `Run` applied to
  `Inputs` from a fresh state. The constructor establishes this invariant, and
  `SetOperand` and `PerformOperation`, the two public operations, keep it, so
  they are proved to agree with the fold. `ExecutePendingBinaryOperation` is
  `PerformOperation`'s private helper; it is proved equal to `ExecutePending`
  on the fields and is not meant to be called on its own.
- Three reference definitions in `brain.dfy` carry the source's logic and are
  used by every lemma: `Operations` is the table at
  Calculator2016/CalculatorBrain.swift lines 19-30, `Perform` is the dispatch of
  `performOperation` at lines 39-53, and `ExecutePending` is
  `executePendingBinaryOperation` at lines 55-60.
- `properties.dfy`, module `BrainProperties`. It holds lemmas about the reference
  semantics: the effect of each kind of table entry, the idempotence of `=`, and
  strict left-to-right evaluation of operator chains, which makes `2 + 3 × 4 =`
  give 20. Two client methods drive the class through the same scenarios.

Numbers are modelled as `real`. ×, +, − and negation are exact. The values of π,
e, √, cos and ÷ are fields of a `Numerics` record that the constructor receives.
Every property is proved for every choice of them, so they act as uninterpreted
constants and functions. The properties concern control flow, not numerics.

The Swift closures stored in the table are modelled as the enumerations
`UnaryOp` and `BinaryOp`, interpreted by `ApplyUnary` and `ApplyBinary`. This
lets a pending operation be compared and named in lemmas.

The view controller in the same app calls a richer engine: a description
string, a pending indicator, variables, undo and thrown errors. The brain in
`Calculator2016/CalculatorBrain.swift` defines none of these, so the model
follows the brain: for example, a symbol missing from the table is silently
ignored rather than read as a variable.

## Model

| member | source | states |
|---|---|---|
| `Brain.CalculatorBrain.constructor` | Calculator2016/CalculatorBrain.swift:11-62 | a new brain has accumulator 0, nothing pending, the fixed operation table, and an empty call history |
| `Brain.CalculatorBrain.SetOperand` | Calculator2016/CalculatorBrain.swift:15-17 | the accumulator becomes the operand and the pending operation is unchanged; the new fields are still the fold of all calls made |
| `Brain.CalculatorBrain.PerformOperation` | Calculator2016/CalculatorBrain.swift:39-53 | the in-place update of accumulator and pending equals the reference step `Perform` on the old state; the invariant tying the fields to the fold of all calls is kept |
| `Brain.CalculatorBrain.ExecutePendingBinaryOperation` | Calculator2016/CalculatorBrain.swift:55-60 | the fields afterwards equal `ExecutePending` of the old fields: the pending first operand is combined with the accumulator and cleared, or nothing happens if nothing is pending |
| `Brain.CalculatorBrain.Result` | Calculator2016/CalculatorBrain.swift:69-73 | the displayed result is the accumulator that the whole sequence of calls since creation evaluates to |
| `BrainProperties.SetOperandLoads` | Calculator2016/CalculatorBrain.swift:15-17 | setting an operand makes the result that operand and leaves the pending operation untouched |
| `BrainProperties.UnknownSymbolIgnored` | Calculator2016/CalculatorBrain.swift:39-40 | a symbol that is not in the table leaves accumulator and pending operation unchanged |
| `BrainProperties.ConstantAndUnaryKeepPending` | Calculator2016/CalculatorBrain.swift:42-45 | a constant entry loads its value, a unary entry applies its function to the accumulator, and neither changes the pending operation |
| `BrainProperties.ConstantAndUnarySymbols` | Calculator2016/CalculatorBrain.swift:20-24 | π and e load their constants; √ and cos apply their functions; ᐩ/- negates; none of them changes the pending operation |
| `BrainProperties.BinarySymbolInTable` | Calculator2016/CalculatorBrain.swift:25-28 | ×, ÷, + and − are in the table, each bound to its own binary operation, and every binary entry of the table is one of these four |
| `BrainProperties.BinaryResolvesThenPends` | Calculator2016/CalculatorBrain.swift:46-48 | a binary symbol first resolves any pending operation, then leaves itself pending with the resulting accumulator as first operand; with nothing pending the accumulator is unchanged |
| `BrainProperties.EqualsResolves` | Calculator2016/CalculatorBrain.swift:49-59 | `=` with a pending (f, a) sets the accumulator to f(a, accumulator) and clears the pending operation; with nothing pending it changes nothing |
| `BrainProperties.EqualsIdempotent` | Calculator2016/CalculatorBrain.swift:55-59 | performing `=` twice in a row gives the same state as performing it once |
| `BrainProperties.EqualsIdempotentAfterRun` | Calculator2016/CalculatorBrain.swift:49-59 | after any history of calls, a second `=` directly after a first changes nothing |
| `BrainProperties.KeepingCallsKeepPending` | Calculator2016/CalculatorBrain.swift:39-45 | any run of operands, constants, unary operations and unknown symbols leaves the pending operation exactly as it was |
| `BrainProperties.ChainThenEquals` | Calculator2016/CalculatorBrain.swift:46-59 | from any state, a chain of binary symbols and operands followed by `=` yields the left-to-right fold of the chain, starting from the resolved accumulator, with nothing left pending |
| `BrainProperties.LeftToRightEvaluation` | Calculator2016/CalculatorBrain.swift:46-59 | from a fresh brain, `a op1 b op2 c … =` evaluates to ((a op1 b) op2 c) … in call order, with no operator precedence |
| `BrainProperties.FourPlusFive` | Calculator2016/CalculatorBrain.swift:46-59 | operand 4, `+`, operand 5, `=` gives result 9 |
| `BrainProperties.NoPrecedence` | Calculator2016/CalculatorBrain.swift:46-59 | `2 + 3 × 4 =` gives 20, not 14 |
| `BrainProperties.AddFourAndFive` | Calculator2016/CalculatorBrain.swift:15-59 | a new brain object driven by setOperand(4), `+`, setOperand(5), `=` reports result 9 |
| `BrainProperties.TwoPlusThreeTimesFour` | Calculator2016/CalculatorBrain.swift:15-59 | a new brain object driven by 2, `+`, 3, `×`, 4, `=` reports result 20 |

## Left out

- IEEE-754 `Double` arithmetic: rounding, and the exact values of `sqrt`, `cos`, `M_PI` and `M_E`. Division, including division by zero yielding inf or NaN, is not modelled either. These are left as parameters because their values are not observable from the brain's control flow.
- ApplyBinary, ApplyUnary: ×, +, − and negation are exact on reals, so overflow to ±inf, NaN propagation and signed zero are not modelled; for example `ᐩ/-` on 0.0 gives -0.0 in Swift and 0 in the model.
- Calculator2016/CalculatorViewController.swift: UIKit event handlers, label text and `NumberFormatter` display formatting. It also calls a brain API (description, pending indicator, variables, undo, clear, thrown errors) that the brain in CalculatorBrain.swift does not define.
- Calculator2016/ViewController.swift: an earlier user-interface shell that appends digit text to a label and shows `String(M_PI)` for π.
- The Swift closures in the operation table are represented by the enumerations `UnaryOp` and `BinaryOp`. The table is modelled as a constant, since the source never reassigns its `var`.
