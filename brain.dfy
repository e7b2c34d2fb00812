/** The evaluation engine of the calculator: an accumulator, an optional
    pending binary operation and a fixed table from button symbols to
    operations.  The reference semantics is given on values (BrainState,
    Perform, Step, Run); the class CalculatorBrain keeps the same two fields
    and updates them in place, and each of its methods is proved to agree
    with that reference semantics. */
module Brain {

  datatype Option<T> = None | Some(value: T)

  /** The numeric primitives whose floating-point values the model leaves
      open.  Every property below holds for every choice of them, so they
      behave as uninterpreted constants and functions. */
  datatype Numerics = Numerics(
    pi: real,
    e: real,
    sqrt: real -> real,
    cos: real -> real,
    divide: (real, real) -> real)

  datatype UnaryOp = SquareRoot | Negate | Cosine

  datatype BinaryOp = Multiply | Divide | Add | Subtract

  /** The four kinds of entry in the operation table. */
  datatype Operation =
    | Constant(value: real)
    | UnaryOperation(unary: UnaryOp)
    | BinaryOperation(binary: BinaryOp)
    | Equals

  function ApplyUnary(num: Numerics, op: UnaryOp, x: real): (r: real) {
    match op
    case SquareRoot => num.sqrt(x)
    case Negate => -x
    case Cosine => num.cos(x)
  }

  /** Exact arithmetic for ×, + and −; ÷ is left to the numeric library. */
  function ApplyBinary(num: Numerics, op: BinaryOp, x: real, y: real): (r: real) {
    match op
    case Multiply => x * y
    case Divide => num.divide(x, y)
    case Add => x + y
    case Subtract => x - y
  }

  /** The fixed symbol table of the brain. */
  function Operations(num: Numerics): (table: map<string, Operation>) {
    map[
      "π" := Constant(num.pi),
      "e" := Constant(num.e),
      "√" := UnaryOperation(SquareRoot),
      "ᐩ/-" := UnaryOperation(Negate),
      "cos" := UnaryOperation(Cosine),
      "×" := BinaryOperation(Multiply),
      "÷" := BinaryOperation(Divide),
      "+" := BinaryOperation(Add),
      "−" := BinaryOperation(Subtract),
      "=" := Equals
    ]
  }

  /** The symbol under which each binary operation appears in the table. */
  function BinarySymbol(op: BinaryOp): (symbol: string) {
    match op
    case Multiply => "×"
    case Divide => "÷"
    case Add => "+"
    case Subtract => "−"
  }

  /** A binary operation that has been entered but not yet resolved. */
  datatype PendingBinaryOperationInfo =
    PendingBinaryOperationInfo(binaryFunction: BinaryOp, firstOperand: real)

  /** The whole observable state of a brain. */
  datatype BrainState =
    BrainState(accumulator: real, pending: Option<PendingBinaryOperationInfo>)

  /** The state of a newly created brain. */
  const Fresh: BrainState := BrainState(0.0, None)

  /** One call on the brain: setOperand(value) or performOperation(symbol). */
  datatype Token = Operand(value: real) | Symbol(symbol: string)

  /** Resolves the pending binary operation, if any. */
  function ExecutePending(num: Numerics, s: BrainState): (r: BrainState) {
    match s.pending
    case None => s
    case Some(p) =>
      BrainState(ApplyBinary(num, p.binaryFunction, p.firstOperand, s.accumulator), None)
  }

  /** The effect of performOperation(symbol). */
  function Perform(num: Numerics, s: BrainState, symbol: string): (r: BrainState) {
    if symbol !in Operations(num) then s
    else
      match Operations(num)[symbol]
      case Constant(v) => s.(accumulator := v)
      case UnaryOperation(f) => s.(accumulator := ApplyUnary(num, f, s.accumulator))
      case BinaryOperation(f) =>
        var r := ExecutePending(num, s);
        BrainState(r.accumulator, Some(PendingBinaryOperationInfo(f, r.accumulator)))
      case Equals => ExecutePending(num, s)
  }

  function Step(num: Numerics, s: BrainState, t: Token): (r: BrainState) {
    match t
    case Operand(x) => s.(accumulator := x)
    case Symbol(symbol) => Perform(num, s, symbol)
  }

  /** The reference semantics: the state reached from s by the calls ts, in order. */
  function Run(num: Numerics, s: BrainState, ts: seq<Token>): (r: BrainState)
    decreases |ts|
  {
    if ts == [] then s else Run(num, Step(num, s, ts[0]), ts[1..])
  }

  /** Running ts and then ts' is running their concatenation. */
  lemma {:induction false} RunAppend(num: Numerics, s: BrainState, ts: seq<Token>, ts': seq<Token>)
    ensures Run(num, s, ts + ts') == Run(num, Run(num, s, ts), ts')
    decreases |ts|
  {
    if ts == [] {
      assert ts + ts' == ts';
    } else {
      assert (ts + ts')[0] == ts[0];
      assert (ts + ts')[1..] == ts[1..] + ts';
      RunAppend(num, Step(num, s, ts[0]), ts[1..], ts');
    }
  }

  /** One more call extends the run by one step. */
  lemma RunSnoc(num: Numerics, s: BrainState, ts: seq<Token>, t: Token)
    ensures Run(num, s, ts + [t]) == Step(num, Run(num, s, ts), t)
  {
    RunAppend(num, s, ts, [t]);
  }

  class CalculatorBrain {
    const num: Numerics
    const operations: map<string, Operation>
    var accumulator: real
    var pending: Option<PendingBinaryOperationInfo>

    /** Every call made on this brain since it was created, in order. */
    ghost var Inputs: seq<Token>

    ghost function Snapshot(): BrainState
      reads this
    {
      BrainState(accumulator, pending)
    }

    /** The fields are exactly what the reference semantics computes from the calls made. */
    ghost predicate Valid()
      reads this
    {
      operations == Operations(num) && Snapshot() == Run(num, Fresh, Inputs)
    }

    constructor (num: Numerics)
      ensures Valid() && this.num == num && Inputs == []
      ensures accumulator == 0.0 && pending == None
    {
      this.num := num;
      operations := Operations(num);
      accumulator := 0.0;
      pending := None;
      Inputs := [];
    }

    method SetOperand(operand: real)
      requires Valid()
      modifies this
      ensures Valid() && Inputs == old(Inputs) + [Operand(operand)]
      ensures accumulator == operand && pending == old(pending)
    {
      accumulator := operand;
      RunSnoc(num, Fresh, Inputs, Operand(operand));
      Inputs := Inputs + [Operand(operand)];
    }

    method PerformOperation(symbol: string)
      requires Valid()
      modifies this
      ensures Valid() && Inputs == old(Inputs) + [Symbol(symbol)]
      ensures Snapshot() == Perform(num, old(Snapshot()), symbol)
    {
      if symbol in operations {
        match operations[symbol]
        case Constant(value) =>
          accumulator := value;
        case UnaryOperation(f) =>
          accumulator := ApplyUnary(num, f, accumulator);
        case BinaryOperation(f) =>
          ExecutePendingBinaryOperation();
          pending := Some(PendingBinaryOperationInfo(f, accumulator));
        case Equals =>
          ExecutePendingBinaryOperation();
      }
      RunSnoc(num, Fresh, Inputs, Symbol(symbol));
      Inputs := Inputs + [Symbol(symbol)];
    }

    /** The private helper of PerformOperation that resolves the pending
        operation.  It does not record a call, so on its own it does not keep
        Valid(); only PerformOperation calls it, before recording the symbol. */
    method ExecutePendingBinaryOperation()
      modifies this`accumulator, this`pending
      ensures Snapshot() == ExecutePending(num, old(Snapshot()))
    {
      if pending.Some? {
        accumulator := ApplyBinary(num, pending.value.binaryFunction, pending.value.firstOperand, accumulator);
        pending := None;
      }
    }

    /** The value to display: the accumulator reached by all calls so far. */
    function Result(): (r: real)
      reads this
      requires Valid()
      ensures r == Run(num, Fresh, Inputs).accumulator
    {
      accumulator
    }
  }
}
