/** What the brain promises about its control flow: the effect of each kind of
    table entry, the idempotence of `=`, and strict left-to-right evaluation
    of a chain of binary operations.  None of it depends on the values of
    π, e, √, cos or ÷. */
module BrainProperties {
  import opened Brain

  /** setOperand loads the operand and leaves the pending operation alone. */
  lemma SetOperandLoads(num: Numerics, s: BrainState, x: real)
    ensures Step(num, s, Operand(x)) == BrainState(x, s.pending)
  {
  }

  /** A symbol that is not in the table changes nothing. */
  lemma UnknownSymbolIgnored(num: Numerics, s: BrainState, symbol: string)
    requires symbol !in Operations(num)
    ensures Perform(num, s, symbol) == s
  {
  }

  /** A constant loads its value; a unary operation transforms the accumulator;
      neither touches the pending operation. */
  lemma ConstantAndUnaryKeepPending(num: Numerics, s: BrainState, symbol: string)
    requires symbol in Operations(num)
    requires Operations(num)[symbol].Constant? || Operations(num)[symbol].UnaryOperation?
    ensures Perform(num, s, symbol).pending == s.pending
    ensures Operations(num)[symbol].Constant? ==>
      Perform(num, s, symbol).accumulator == Operations(num)[symbol].value
    ensures Operations(num)[symbol].UnaryOperation? ==>
      Perform(num, s, symbol).accumulator == ApplyUnary(num, Operations(num)[symbol].unary, s.accumulator)
  {
  }

  /** The table entries for the constants and the unary operations. */
  lemma ConstantAndUnarySymbols(num: Numerics, s: BrainState)
    ensures Perform(num, s, "π") == BrainState(num.pi, s.pending)
    ensures Perform(num, s, "e") == BrainState(num.e, s.pending)
    ensures Perform(num, s, "√") == BrainState(num.sqrt(s.accumulator), s.pending)
    ensures Perform(num, s, "ᐩ/-") == BrainState(-s.accumulator, s.pending)
    ensures Perform(num, s, "cos") == BrainState(num.cos(s.accumulator), s.pending)
  {
  }

  /** Each binary operation is reached through its own symbol, and these are
      the only binary entries of the table. */
  lemma BinarySymbolInTable(num: Numerics, op: BinaryOp)
    ensures BinarySymbol(op) in Operations(num)
    ensures Operations(num)[BinarySymbol(op)] == BinaryOperation(op)
    ensures forall symbol :: symbol in Operations(num) && Operations(num)[symbol].BinaryOperation? ==>
      symbol == BinarySymbol(Operations(num)[symbol].binary)
  {
  }

  /** A binary symbol first resolves what is pending, then leaves itself
      pending with the resulting accumulator as first operand; with nothing
      pending the accumulator is unchanged. */
  lemma BinaryResolvesThenPends(num: Numerics, s: BrainState, op: BinaryOp)
    ensures Perform(num, s, BinarySymbol(op)).accumulator == ExecutePending(num, s).accumulator
    ensures Perform(num, s, BinarySymbol(op)).pending ==
      Some(PendingBinaryOperationInfo(op, ExecutePending(num, s).accumulator))
    ensures s.pending == None ==> Perform(num, s, BinarySymbol(op)).accumulator == s.accumulator
    ensures s.pending.Some? ==>
      Perform(num, s, BinarySymbol(op)).accumulator ==
      ApplyBinary(num, s.pending.value.binaryFunction, s.pending.value.firstOperand, s.accumulator)
  {
    BinarySymbolInTable(num, op);
  }

  /** `=` combines the pending first operand with the accumulator and clears
      the pending operation; with nothing pending it changes nothing. */
  lemma EqualsResolves(num: Numerics, s: BrainState)
    ensures Perform(num, s, "=").pending == None
    ensures s.pending == None ==> Perform(num, s, "=") == s
    ensures s.pending.Some? ==>
      Perform(num, s, "=").accumulator ==
      ApplyBinary(num, s.pending.value.binaryFunction, s.pending.value.firstOperand, s.accumulator)
  {
  }

  /** Performing `=` twice in a row is performing it once. */
  lemma EqualsIdempotent(num: Numerics, s: BrainState)
    ensures Perform(num, Perform(num, s, "="), "=") == Perform(num, s, "=")
  {
  }

  /** The same, after any history of calls. */
  lemma EqualsIdempotentAfterRun(num: Numerics, ts: seq<Token>)
    ensures Run(num, Fresh, ts + [Symbol("="), Symbol("=")]) == Run(num, Fresh, ts + [Symbol("=")])
  {
    var s := Run(num, Fresh, ts);
    RunAppend(num, Fresh, ts, [Symbol("="), Symbol("=")]);
    RunAppend(num, Fresh, ts, [Symbol("=")]);
    EqualsIdempotent(num, s);
  }

  /** Calls that are operands, constants, unary operations or unknown symbols. */
  predicate KeepsPending(num: Numerics, t: Token) {
    match t
    case Operand(_) => true
    case Symbol(symbol) =>
      symbol !in Operations(num) || Operations(num)[symbol].Constant? ||
      Operations(num)[symbol].UnaryOperation?
  }

  /** No run of such calls ever touches the pending operation. */
  lemma {:induction false} KeepingCallsKeepPending(num: Numerics, s: BrainState, ts: seq<Token>)
    requires forall i :: 0 <= i < |ts| ==> KeepsPending(num, ts[i])
    ensures Run(num, s, ts).pending == s.pending
    decreases |ts|
  {
    if ts != [] {
      KeepingCallsKeepPending(num, Step(num, s, ts[0]), ts[1..]);
    }
  }

  /** One link of a chain `op operand`. */
  datatype Link = Link(op: BinaryOp, operand: real)

  /** The calls that enter a chain: the symbol of each link, then its operand. */
  function ChainTokens(chain: seq<Link>): (ts: seq<Token>) {
    if chain == [] then []
    else [Symbol(BinarySymbol(chain[0].op)), Operand(chain[0].operand)] + ChainTokens(chain[1..])
  }

  /** Strict left-to-right evaluation of a chain, with no operator precedence. */
  function LeftToRight(num: Numerics, acc: real, chain: seq<Link>): (r: real)
    decreases |chain|
  {
    if chain == [] then acc
    else LeftToRight(num, ApplyBinary(num, chain[0].op, acc, chain[0].operand), chain[1..])
  }

  /** From any state, a chain followed by `=` yields the left-to-right value of
      the chain started from the resolved accumulator, and leaves nothing pending. */
  lemma {:induction false} ChainThenEquals(num: Numerics, s: BrainState, chain: seq<Link>)
    ensures Run(num, s, ChainTokens(chain) + [Symbol("=")]) ==
      BrainState(LeftToRight(num, ExecutePending(num, s).accumulator, chain), None)
    decreases |chain|
  {
    if chain == [] {
      assert ChainTokens(chain) + [Symbol("=")] == [Symbol("=")];
    } else {
      var l := chain[0];
      var head := [Symbol(BinarySymbol(l.op)), Operand(l.operand)];
      var rest := ChainTokens(chain[1..]) + [Symbol("=")];
      assert ChainTokens(chain) + [Symbol("=")] == head + rest;
      RunAppend(num, s, head, rest);
      BinaryResolvesThenPends(num, s, l.op);
      var s1 := Step(num, s, head[0]);
      var s' := Run(num, s, head);
      assert s' == Run(num, Step(num, s1, head[1]), []) by {
        assert head[1..][1..] == [];
      }
      assert s' == BrainState(l.operand, Some(PendingBinaryOperationInfo(l.op, ExecutePending(num, s).accumulator)));
      ChainThenEquals(num, s', chain[1..]);
    }
  }

  /** Evaluation follows call order: `a op1 b op2 c … =` from a fresh brain
      yields ((a op1 b) op2 c) …, whatever the operators. */
  lemma LeftToRightEvaluation(num: Numerics, first: real, chain: seq<Link>)
    ensures Run(num, Fresh, [Operand(first)] + ChainTokens(chain) + [Symbol("=")]) ==
      BrainState(LeftToRight(num, first, chain), None)
  {
    var s := BrainState(first, None);
    assert [Operand(first)] + ChainTokens(chain) + [Symbol("=")] ==
      [Operand(first)] + (ChainTokens(chain) + [Symbol("=")]);
    RunAppend(num, Fresh, [Operand(first)], ChainTokens(chain) + [Symbol("=")]);
    ChainThenEquals(num, s, chain);
  }

  /** `4 + 5 =` gives 9. */
  lemma FourPlusFive(num: Numerics)
    ensures Run(num, Fresh, [Operand(4.0), Symbol("+"), Operand(5.0), Symbol("=")]).accumulator == 9.0
  {
    var chain := [Link(Add, 5.0)];
    assert ChainTokens(chain) == [Symbol("+"), Operand(5.0)];
    LeftToRightEvaluation(num, 4.0, chain);
    assert [Operand(4.0)] + ChainTokens(chain) + [Symbol("=")] ==
      [Operand(4.0), Symbol("+"), Operand(5.0), Symbol("=")];
  }

  /** `2 + 3 × 4 =` gives 20, not 14: the × does not bind tighter. */
  lemma NoPrecedence(num: Numerics)
    ensures Run(num, Fresh,
      [Operand(2.0), Symbol("+"), Operand(3.0), Symbol("×"), Operand(4.0), Symbol("=")]).accumulator == 20.0
  {
    var chain := [Link(Add, 3.0), Link(Multiply, 4.0)];
    assert ChainTokens(chain[1..]) == [Symbol("×"), Operand(4.0)];
    assert ChainTokens(chain) == [Symbol("+"), Operand(3.0), Symbol("×"), Operand(4.0)];
    LeftToRightEvaluation(num, 2.0, chain);
    assert [Operand(2.0)] + ChainTokens(chain) + [Symbol("=")] ==
      [Operand(2.0), Symbol("+"), Operand(3.0), Symbol("×"), Operand(4.0), Symbol("=")];
  }

  /** A client of the class: 4 + 5 = on a new brain displays 9. */
  method AddFourAndFive(num: Numerics) returns (r: real)
    ensures r == 9.0
  {
    var brain := new CalculatorBrain(num);
    brain.SetOperand(4.0);
    brain.PerformOperation("+");
    brain.SetOperand(5.0);
    brain.PerformOperation("=");
    r := brain.Result();
    FourPlusFive(num);
  }

  /** A client of the class: 2 + 3 × 4 = on a new brain displays 20. */
  method TwoPlusThreeTimesFour(num: Numerics) returns (r: real)
    ensures r == 20.0
  {
    var brain := new CalculatorBrain(num);
    brain.SetOperand(2.0);
    brain.PerformOperation("+");
    brain.SetOperand(3.0);
    brain.PerformOperation("×");
    brain.SetOperand(4.0);
    brain.PerformOperation("=");
    r := brain.Result();
    NoPrecedence(num);
  }
}
