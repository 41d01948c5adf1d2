/** The line calculator of 5-midterm-project/advanced.cpp: it reads characters
    until end of input, builds an expression tree per line with an operator
    stack and an operand stack, and at each newline prints the value of the
    line or a message.

    `StepChar` is one iteration of the character loop of `main` on the whole
    state (`Calc`), `Process` folds it over the input, and the class
    `Calculator` is the imperative loop over the stacks, proved to compute
    exactly `Process`. The pop loops use the same guard as the interpreters'
    parser, so `Pops`, `BinaryCount` and the stack helpers are shared. */
module Midterm {
  import opened Results
  import opened Numeric
  import opened ArithExpr
  import opened ArithParser

  // ----- Expression trees -----

  /** `Num`, the five binary node classes and `WavExpr`. */
  datatype CalcExpr =
    | Number(value: real)
    | Binary(op: BinOp, left: CalcExpr, right: CalcExpr)
    | Wave(operand: CalcExpr)

  /** The two exceptions `evaluate` may throw. */
  datatype Exception = OverflowError(what: string) | RangeError(what: string)

  /** A double, or an exception thrown while computing it. */
  datatype Evaluation = Value(value: real) | Thrown(exn: Exception) {
    predicate IsFailure() {
      Thrown?
    }

    function PropagateFailure(): Evaluation
      requires Thrown?
    {
      this
    }

    function Extract(): real
      requires Value?
    {
      value
    }
  }

  const DivideMessage := "Divded by zero"
  const PowerMessage := "Cannot calculate non-integer power of negative value"

  /** `evaluate` of each node class, on doubles only: `*` does not evaluate
      its right operand when the left one is zero, `/` evaluates both before
      the zero test, `^` refuses a negative base with a non-integral exponent,
      and `~` rounds. The only exceptions are the two `main` catches. */
  function Evaluate(e: CalcExpr, pow: PowFn): (r: Evaluation)
    ensures r.Thrown? ==> r.exn == OverflowError(DivideMessage) || r.exn == RangeError(PowerMessage)
  {
    match e
    case Number(v) => Value(v)
    case Binary(op, left, right) =>
      (match op
       case Add =>
         var a :- Evaluate(left, pow);
         var b :- Evaluate(right, pow);
         Value(a + b)
       case Sub =>
         var a :- Evaluate(left, pow);
         var b :- Evaluate(right, pow);
         Value(a - b)
       case Mul =>
         var a :- Evaluate(left, pow);
         if IsZero(a) then Value(0.0)
         else
           var b :- Evaluate(right, pow);
           Value(a * b)
       case Div =>
         var a :- Evaluate(left, pow);
         var b :- Evaluate(right, pow);
         if IsZero(b) then Thrown(OverflowError(DivideMessage))
         else Value(a / b)
       case Pow =>
         var a :- Evaluate(left, pow);
         var b :- Evaluate(right, pow);
         if a < 0.0 && !IsZero(b - Round(b) as real) then Thrown(RangeError(PowerMessage))
         else Value(pow(a, b)))
    case Wave(x) =>
      var a :- Evaluate(x, pow);
      Value(Round(a) as real)
  }

  predicate WaveFree(e: CalcExpr) {
    match e
    case Number(_) => true
    case Binary(_, l, r) => WaveFree(l) && WaveFree(r)
    case Wave(_) => false
  }

  /** The same tree built by the 8-interpreter node constructors. */
  function ToTree(e: CalcExpr): Expr
    requires WaveFree(e)
  {
    match e
    case Number(v) => Num(v)
    case Binary(op, l, r) => NewBinary(op, ToTree(l), ToTree(r))
  }

  /** An exception as the 8-interpreter reports the same failure. */
  function AsResult(ev: Evaluation): Result<real> {
    match ev
    case Value(v) => Ok(v)
    case Thrown(exn) => Err(RuntimeError(exn.what))
  }

  /** Without `~` every node of the 8-interpreter tree is Double, and its
      double evaluation agrees with the calculator's, value for value and
      message for message. */
  lemma {:induction false} AgreesWithTypedEvaluator(e: CalcExpr, pow: PowFn)
    requires WaveFree(e)
    ensures TypeOf(ToTree(e)) == Double
    ensures EvalAsDouble(ToTree(e), pow) == AsResult(Evaluate(e, pow))
  {
    match e
    case Number(_) =>
    case Binary(op, l, r) =>
      AgreesWithTypedEvaluator(l, pow);
      AgreesWithTypedEvaluator(r, pow);
      BinaryAgrees(op, l, r, pow);
  }

  /** One node of `AgreesWithTypedEvaluator`, given that its operands agree. */
  lemma BinaryAgrees(op: BinOp, l: CalcExpr, r: CalcExpr, pow: PowFn)
    requires WaveFree(l) && WaveFree(r)
    requires TypeOf(ToTree(l)) == Double && TypeOf(ToTree(r)) == Double
    requires EvalAsDouble(ToTree(l), pow) == AsResult(Evaluate(l, pow))
    requires EvalAsDouble(ToTree(r), pow) == AsResult(Evaluate(r, pow))
    ensures TypeOf(ToTree(Binary(op, l, r))) == Double
    ensures EvalAsDouble(ToTree(Binary(op, l, r)), pow) == AsResult(Evaluate(Binary(op, l, r), pow))
  {
    var left, right := ToTree(l), ToTree(r);
    assert ToTree(Binary(op, l, r)) == Bin(op, left, right, Double);
    assert Promote(left, pow) == AsResult(Evaluate(l, pow));
    assert Promote(right, pow) == AsResult(Evaluate(r, pow));
    match op
    case Add => AddAgrees(left, right, l, r, pow);
    case Sub => SubAgrees(left, right, l, r, pow);
    case Mul => MulAgrees(left, right, l, r, pow);
    case Div => DivAgrees(left, right, l, r, pow);
    case Pow => PowAgrees(left, right, l, r, pow);
  }

  /** The 8-interpreter node over operands whose promoted values are the
      calculator's values of `l` and `r` agrees with the calculator's node. */
  predicate OperandsAgree(left: Expr, right: Expr, l: CalcExpr, r: CalcExpr, pow: PowFn) {
    Promote(left, pow) == AsResult(Evaluate(l, pow)) && Promote(right, pow) == AsResult(Evaluate(r, pow))
  }

  lemma AddAgrees(left: Expr, right: Expr, l: CalcExpr, r: CalcExpr, pow: PowFn)
    requires OperandsAgree(left, right, l, r, pow)
    ensures EvalAsDouble(Bin(Add, left, right, Double), pow) == AsResult(Evaluate(Binary(Add, l, r), pow))
  {
  }

  lemma SubAgrees(left: Expr, right: Expr, l: CalcExpr, r: CalcExpr, pow: PowFn)
    requires OperandsAgree(left, right, l, r, pow)
    ensures EvalAsDouble(Bin(Sub, left, right, Double), pow) == AsResult(Evaluate(Binary(Sub, l, r), pow))
  {
  }

  lemma MulAgrees(left: Expr, right: Expr, l: CalcExpr, r: CalcExpr, pow: PowFn)
    requires OperandsAgree(left, right, l, r, pow)
    ensures EvalAsDouble(Bin(Mul, left, right, Double), pow) == AsResult(Evaluate(Binary(Mul, l, r), pow))
  {
    if Evaluate(l, pow).Value? && !IsZero(Evaluate(l, pow).value) && Evaluate(r, pow).Value? {
      var a, b := Evaluate(l, pow).value, Evaluate(r, pow).value;
      assert Evaluate(Binary(Mul, l, r), pow) == Value(a * b);
      MulProduct(left, right, a, b, pow);
    }
  }

  /** The product case of the 8-interpreter's Mul, on known operand values. */
  lemma MulProduct(left: Expr, right: Expr, a: real, b: real, pow: PowFn)
    requires Promote(left, pow) == Ok(a) && Promote(right, pow) == Ok(b) && !IsZero(a)
    ensures EvalAsDouble(Bin(Mul, left, right, Double), pow) == Ok(a * b)
  {
    var x, y := Promote(left, pow).value, Promote(right, pow).value;
    assert x == a && y == b && !IsZero(x);
    assert EvalAsDouble(Bin(Mul, left, right, Double), pow).Ok?;
    assert EvalAsDouble(Bin(Mul, left, right, Double), pow).value == x * y;
    assert x * y == a * b;
  }

  lemma DivAgrees(left: Expr, right: Expr, l: CalcExpr, r: CalcExpr, pow: PowFn)
    requires OperandsAgree(left, right, l, r, pow)
    ensures EvalAsDouble(Bin(Div, left, right, Double), pow) == AsResult(Evaluate(Binary(Div, l, r), pow))
  {
  }

  lemma PowAgrees(left: Expr, right: Expr, l: CalcExpr, r: CalcExpr, pow: PowFn)
    requires OperandsAgree(left, right, l, r, pow)
    ensures EvalAsDouble(Bin(Pow, left, right, Double), pow) == AsResult(Evaluate(Binary(Pow, l, r), pow))
  {
  }

  /** Once the left operand of `*` is zero, the right one is never looked at,
      even when evaluating it would throw. */
  lemma MulShortCircuit(l: CalcExpr, r: CalcExpr, pow: PowFn)
    requires Evaluate(l, pow).Value? && IsZero(Evaluate(l, pow).value)
    ensures Evaluate(Binary(Mul, l, r), pow) == Value(0.0)
  {
  }

  // ----- The stacks -----

  /** `process_last_operator`: `~` wraps the top operand, a binary operator
      combines the two top operands. Popping a missing operand is undefined
      behaviour; any other operator would push a null tree, which is
      undefined as soon as it is evaluated. */
  function CalcReduce(ops: seq<char>, nums: seq<CalcExpr>): (r: Result<(seq<char>, seq<CalcExpr>)>)
    requires |ops| > 0
    ensures r.Ok? <==> (Last(ops) == '~' && |nums| >= 1) || (IsBinaryOperator(Last(ops)) && |nums| >= 2)
    ensures r.Ok? && Last(ops) == '~' ==>
      r.value == (DropLast(ops), DropLast(nums) + [Wave(Last(nums))])
    ensures r.Ok? && Last(ops) != '~' ==>
      r.value == (DropLast(ops), nums[..|nums| - 2] + [Binary(BinOpOf(Last(ops)), nums[|nums| - 2], Last(nums))])
    ensures r.Err? ==> r.error.Undefined?
  {
    if Last(ops) == '~' then
      if |nums| == 0 then Err(OperandUnderrun)
      else Ok((DropLast(ops), DropLast(nums) + [Wave(Last(nums))]))
    else if |nums| < 2 then Err(OperandUnderrun)
    else if !IsBinaryOperator(Last(ops)) then Err(Undefined("null expression pushed"))
    else Ok((DropLast(ops), nums[..|nums| - 2] + [Binary(BinOpOf(Last(ops)), nums[|nums| - 2], Last(nums))]))
  }

  /** The pop loop run before the operator `incoming` is handled. */
  function CalcReduceWhile(incoming: char, ops: seq<char>, nums: seq<CalcExpr>): Result<(seq<char>, seq<CalcExpr>)>
    decreases |ops|
  {
    if |ops| == 0 || !Pops(incoming, Last(ops)) then Ok((ops, nums))
    else
      var p :- CalcReduce(ops, nums);
      CalcReduceWhile(incoming, p.0, p.1)
  }

  /** The pop loop at a newline: everything down to the first `(`, which
      stops it with `None`; otherwise the operand stack left behind. */
  function ReduceAll(ops: seq<char>, nums: seq<CalcExpr>): Result<Option<seq<CalcExpr>>>
    decreases |ops|
  {
    if |ops| == 0 then Ok(Some(nums))
    else if Last(ops) == '(' then Ok(None)
    else
      var p :- CalcReduce(ops, nums);
      ReduceAll(p.0, p.1)
  }

  // ----- The character loop -----

  /** The lines `main` prints, by the format that prints them. */
  datatype Line =
    | DigitAfterParen(digit: char)
    | UnexpectedOperator(op: char, after: char)
    | UnmatchedRightParen
    | ExpectingLastOperand
    | UnmatchedLeftParen
    | Printed(value: real)
    | CaughtOverflow(what: string)
    | CaughtRange(what: string)

  /** The locals of `main`, the two global stacks, and what was printed. */
  datatype Calc = Calc(ops: seq<char>, nums: seq<CalcExpr>, lastCh: char, operand: real,
                       errorMode: bool, output: seq<Line>)

  const Start: Calc := Calc([], [], '\0', 0.0, false, [])

  predicate IsDigit(c: char) {
    '0' <= c <= '9'
  }

  function DigitValue(c: char): (d: real)
    requires IsDigit(c)
    ensures 0.0 <= d <= 9.0
  {
    (c as int - '0' as int) as real
  }

  /** The eight characters the calculator treats as operators. */
  predicate IsCalcOperator(c: char) {
    IsStackOperator(c) || c == ')'
  }

  /** The characters after which an operator, and not an operand, is due. */
  predicate FollowsOperand(c: char) {
    IsDigit(c) || c == ')'
  }

  /** A message, then error mode until the next newline; `last_ch` is not
      updated. */
  function EnterErrorMode(s: Calc, line: Line): Calc {
    s.(errorMode := true, output := s.output + [line])
  }

  /** The printed line for the value, or the caught exception, of a tree. */
  function Report(ev: Evaluation): Line {
    match ev
    case Value(v) => Printed(v)
    case Thrown(OverflowError(what)) => CaughtOverflow(what)
    case Thrown(RangeError(what)) => CaughtRange(what)
  }

  /** One of the eight operator characters outside error mode. `(` and `~`
      must not follow an operand, the others must; a pending number is
      pushed first; `)` without a matching `(` enters error mode after the
      pop loop has run. */
  function StepOperator(s: Calc, ch: char): Result<Calc>
    requires IsCalcOperator(ch)
  {
    var opensOperand := ch == '(' || ch == '~';
    if opensOperand == FollowsOperand(s.lastCh) then Ok(EnterErrorMode(s, UnexpectedOperator(ch, s.lastCh)))
    else
      var nums := if IsDigit(s.lastCh) then s.nums + [Number(s.operand)] else s.nums;
      var operand := if IsDigit(s.lastCh) then 0.0 else s.operand;
      if opensOperand then Ok(s.(ops := s.ops + [ch], nums := nums, operand := operand, lastCh := ch))
      else
        var p :- CalcReduceWhile(ch, s.ops, nums);
        if ch != ')' then Ok(s.(ops := p.0 + [ch], nums := p.1, operand := operand, lastCh := ch))
        else if |p.0| == 0 then Ok(EnterErrorMode(s.(ops := p.0, nums := p.1, operand := operand), UnmatchedRightParen))
        else Ok(s.(ops := DropLast(p.0), nums := p.1, operand := operand, lastCh := ch))
  }

  /** A newline outside error mode. Both stacks are emptied on every path.
      Without a final operand nothing is reduced and `operand` is kept; an
      open `(` stops the reduction; an empty operand stack prints nothing and
      leaves `last_ch` alone; otherwise the top tree is evaluated. */
  function StepNewline(s: Calc, pow: PowFn): Result<Calc> {
    if !FollowsOperand(s.lastCh) then
      Ok(s.(ops := [], nums := [], lastCh := '\n', output := s.output + [ExpectingLastOperand]))
    else
      var nums := if IsDigit(s.lastCh) then s.nums + [Number(s.operand)] else s.nums;
      var cleared := s.(ops := [], nums := [], operand := 0.0);
      var closed :- ReduceAll(s.ops, nums);
      if closed.None? then Ok(cleared.(lastCh := '\n', output := s.output + [UnmatchedLeftParen]))
      else if closed.value == [] then Ok(cleared)
      else Ok(cleared.(lastCh := '\n', output := s.output + [Report(Evaluate(Last(closed.value), pow))]))
  }

  /** One iteration of the `while (getchar() != EOF)` loop of `main`. In
      error mode everything up to the newline is skipped, and the newline
      empties the stacks and clears `last_ch` but keeps `operand`. A digit
      extends `operand`; any other character is ignored and keeps
      `last_ch`. */
  function StepChar(s: Calc, ch: char, pow: PowFn): Result<Calc> {
    if s.errorMode then
      Ok(if ch == '\n' then s.(ops := [], nums := [], errorMode := false, lastCh := '\0') else s)
    else if IsDigit(ch) then
      Ok(if s.lastCh == ')' then EnterErrorMode(s, DigitAfterParen(ch))
         else s.(operand := s.operand * 10.0 + DigitValue(ch), lastCh := ch))
    else if IsCalcOperator(ch) then StepOperator(s, ch)
    else if ch == '\n' then StepNewline(s, pow)
    else Ok(s)
  }

  /** The character loop over the whole input. */
  function Process(s: Calc, input: seq<char>, pow: PowFn): Result<Calc>
    decreases |input|
  {
    if input == [] then Ok(s)
    else
      var t :- StepChar(s, input[0], pow);
      Process(t, input[1..], pow)
  }

  // ----- The stack invariant -----

  /** Outside error mode there is one operand per binary operator, plus one
      more once an operand is complete, counting a pending number. */
  predicate Consistent(s: Calc) {
    && OpsValid(s.ops)
    && (!s.errorMode ==>
          |s.nums| + (if IsDigit(s.lastCh) then 1 else 0)
          == BinaryCount(s.ops) + (if FollowsOperand(s.lastCh) then 1 else 0))
  }

  lemma CalcReduceKeeps(ops: seq<char>, nums: seq<CalcExpr>)
    requires |ops| > 0 && Last(ops) != '(' && OpsValid(ops)
    requires |nums| == BinaryCount(ops) + 1
    ensures CalcReduce(ops, nums).Ok?
    ensures var p := CalcReduce(ops, nums).value;
      OpsValid(p.0) && |p.1| == BinaryCount(p.0) + 1 && p.0 == DropLast(ops)
  {
    assert IsStackOperator(Last(ops));
  }

  /** A pop loop run on a complete operand never under-runs, keeps the count
      and stops at an operator it does not pop, or an empty stack. */
  lemma {:induction false} CalcReduceWhileKeeps(c: char, ops: seq<char>, nums: seq<CalcExpr>)
    requires OpsValid(ops) && |nums| == BinaryCount(ops) + 1
    ensures CalcReduceWhile(c, ops, nums).Ok?
    ensures var p := CalcReduceWhile(c, ops, nums).value;
      && OpsValid(p.0) && |p.1| == BinaryCount(p.0) + 1
      && (|p.0| == 0 || !Pops(c, Last(p.0)))
    decreases |ops|
  {
    if |ops| > 0 && Pops(c, Last(ops)) {
      CalcReduceKeeps(ops, nums);
      var p := CalcReduce(ops, nums).value;
      CalcReduceWhileKeeps(c, p.0, p.1);
    }
  }

  /** The reduction at a newline never under-runs, and when it meets no `(`
      it leaves exactly one tree. */
  lemma {:induction false} ReduceAllKeeps(ops: seq<char>, nums: seq<CalcExpr>)
    requires OpsValid(ops) && |nums| == BinaryCount(ops) + 1
    ensures ReduceAll(ops, nums).Ok?
    ensures ReduceAll(ops, nums).value.Some? ==> |ReduceAll(ops, nums).value.value| == 1
    decreases |ops|
  {
    if |ops| > 0 && Last(ops) != '(' {
      CalcReduceKeeps(ops, nums);
      var p := CalcReduce(ops, nums).value;
      ReduceAllKeeps(p.0, p.1);
    }
  }

  lemma OperatorKeeps(s: Calc, ch: char)
    requires Consistent(s) && !s.errorMode && IsCalcOperator(ch)
    ensures StepOperator(s, ch).Ok? && Consistent(StepOperator(s, ch).value)
  {
    var opensOperand := ch == '(' || ch == '~';
    if opensOperand == FollowsOperand(s.lastCh) {
      assert StepOperator(s, ch) == Ok(EnterErrorMode(s, UnexpectedOperator(ch, s.lastCh)));
    } else {
      var nums := if IsDigit(s.lastCh) then s.nums + [Number(s.operand)] else s.nums;
      var operand := if IsDigit(s.lastCh) then 0.0 else s.operand;
      if opensOperand {
        PushOperator(s.ops, ch);
        var t := s.(ops := s.ops + [ch], nums := nums, operand := operand, lastCh := ch);
        assert StepOperator(s, ch) == Ok(t);
      } else {
        assert |nums| == BinaryCount(s.ops) + 1;
        CalcReduceWhileKeeps(ch, s.ops, nums);
        var p := CalcReduceWhile(ch, s.ops, nums).value;
        if ch != ')' {
          PushOperator(p.0, ch);
          var t := s.(ops := p.0 + [ch], nums := p.1, operand := operand, lastCh := ch);
          assert StepOperator(s, ch) == Ok(t);
        } else if |p.0| == 0 {
          var t := EnterErrorMode(s.(ops := p.0, nums := p.1, operand := operand), UnmatchedRightParen);
          assert StepOperator(s, ch) == Ok(t);
        } else {
          OpenerDropped(p.0, p.1);
          var t := s.(ops := DropLast(p.0), nums := p.1, operand := operand, lastCh := ch);
          assert StepOperator(s, ch) == Ok(t);
        }
      }
    }
  }

  /** Dropping the `(` a `)` pop loop stops at keeps the count. */
  lemma OpenerDropped(ops: seq<char>, nums: seq<CalcExpr>)
    requires |ops| > 0 && OpsValid(ops) && |nums| == BinaryCount(ops) + 1
    requires !Pops(')', Last(ops))
    ensures OpsValid(DropLast(ops)) && |nums| == BinaryCount(DropLast(ops)) + 1
  {
    assert Last(ops) == '(';
  }

  /** Outside error mode a newline prints exactly one line, empties both
      stacks and sets `last_ch` to the newline: the branch for an empty
      operand stack is never taken. */
  lemma NewlineReports(s: Calc, pow: PowFn)
    requires Consistent(s) && !s.errorMode
    ensures StepNewline(s, pow).Ok?
    ensures var t := StepNewline(s, pow).value;
      && t.ops == [] && t.nums == [] && !t.errorMode && t.lastCh == '\n'
      && |t.output| == |s.output| + 1 && t.output[..|s.output|] == s.output
  {
    if FollowsOperand(s.lastCh) {
      var nums := if IsDigit(s.lastCh) then s.nums + [Number(s.operand)] else s.nums;
      ReduceAllKeeps(s.ops, nums);
    }
  }

  lemma StepKeeps(s: Calc, ch: char, pow: PowFn)
    requires Consistent(s)
    ensures StepChar(s, ch, pow).Ok? && Consistent(StepChar(s, ch, pow).value)
  {
    if !s.errorMode {
      if IsDigit(ch) {
      } else if IsCalcOperator(ch) {
        OperatorKeeps(s, ch);
      } else if ch == '\n' {
        NewlineReports(s, pow);
      }
    }
  }

  /** The calculator never reaches undefined behaviour, whatever the input:
      no reduction pops a missing operand and no null tree is built. */
  lemma {:induction false} ProcessKeeps(s: Calc, input: seq<char>, pow: PowFn)
    requires Consistent(s)
    ensures Process(s, input, pow).Ok? && Consistent(Process(s, input, pow).value)
    decreases |input|
  {
    if input != [] {
      StepKeeps(s, input[0], pow);
      ProcessKeeps(StepChar(s, input[0], pow).value, input[1..], pow);
    }
  }

  lemma NeverUndefined(input: seq<char>, pow: PowFn)
    ensures Process(Start, input, pow).Ok?
  {
    ProcessKeeps(Start, input, pow);
  }

  /** In error mode nothing is printed, and only a newline changes the
      state. */
  lemma ErrorModeSilent(s: Calc, ch: char, pow: PowFn)
    requires s.errorMode
    ensures StepChar(s, ch, pow).Ok?
    ensures StepChar(s, ch, pow).value.output == s.output
    ensures ch != '\n' ==> StepChar(s, ch, pow).value == s
    ensures ch == '\n' ==> !StepChar(s, ch, pow).value.errorMode && StepChar(s, ch, pow).value.ops == []
  {
  }

  // ----- Examples -----

  /** `Process` reads the first character, then the rest. */
  lemma ProcessFirst(s: Calc, input: seq<char>, pow: PowFn, t: Calc)
    requires |input| > 0 && StepChar(s, input[0], pow) == Ok(t)
    ensures Process(s, input, pow) == Process(t, input[1..], pow)
  {
  }

  lemma ProcessEnd(s: Calc, input: seq<char>, pow: PowFn)
    requires input == []
    ensures Process(s, input, pow) == Ok(s)
  {
  }

  lemma DigitStep(s: Calc, c: char, pow: PowFn)
    requires !s.errorMode && IsDigit(c) && s.lastCh != ')'
    ensures StepChar(s, c, pow) == Ok(s.(operand := s.operand * 10.0 + DigitValue(c), lastCh := c))
  {
  }

  lemma IgnoredStep(s: Calc, c: char, pow: PowFn)
    requires !s.errorMode && !IsDigit(c) && !IsCalcOperator(c) && c != '\n'
    ensures StepChar(s, c, pow) == Ok(s)
  {
  }

  lemma RefusedStep(s: Calc, c: char, pow: PowFn)
    requires !s.errorMode && IsCalcOperator(c) && ((c == '(' || c == '~') == FollowsOperand(s.lastCh))
    ensures StepChar(s, c, pow) == Ok(s.(errorMode := true, output := s.output + [UnexpectedOperator(c, s.lastCh)]))
  {
  }

  lemma ErrorNewlineStep(s: Calc, pow: PowFn)
    requires s.errorMode
    ensures StepChar(s, '\n', pow) == Ok(s.(ops := [], nums := [], errorMode := false, lastCh := '\0'))
  {
  }

  /** A line holding one number prints it. */
  lemma NumberLineStep(s: Calc, pow: PowFn)
    requires !s.errorMode && IsDigit(s.lastCh) && s.ops == [] && s.nums == []
    ensures StepChar(s, '\n', pow)
      == Ok(s.(operand := 0.0, lastCh := '\n', output := s.output + [Printed(s.operand)]))
  {
    assert ReduceAll([], [Number(s.operand)]) == Ok(Some([Number(s.operand)]));
  }

  /** Characters other than digits, operators and newlines are skipped
      without ending the number: "1 2" is twelve. */
  lemma SpacesJoinDigits(input: seq<char>, pow: PowFn)
    requires input == "1 2\n"
    ensures Process(Start, input, pow) == Ok(Calc([], [], '\n', 0.0, false, [Printed(12.0)]))
  {
    var s1 := Start.(operand := 1.0, lastCh := '1');
    var s3 := s1.(operand := 12.0, lastCh := '2');
    var s4 := s3.(operand := 0.0, lastCh := '\n', output := s3.output + [Printed(s3.operand)]);
    assert s4.output == [Printed(12.0)];
    assert input[0] == '1' && input[1] == ' ' && input[2] == '2' && input[3] == '\n';
    DigitStep(Start, '1', pow);
    ProcessFirst(Start, input, pow, s1);
    IgnoredStep(s1, ' ', pow);
    ProcessFirst(s1, input[1..], pow, s1);
    DigitStep(s1, '2', pow);
    ProcessFirst(s1, input[2..], pow, s3);
    NumberLineStep(s3, pow);
    ProcessFirst(s3, input[3..], pow, s4);
    ProcessEnd(s4, input[4..], pow);
  }

  // ----- The number left over by an error line -----

  /** Leaving error mode at a newline empties the stacks but not `operand`:
      after "1(" is refused, the 1 is still pending and the next line "2" is
      read as 12. */
  lemma OperandSurvivesErrorLine(input: seq<char>, pow: PowFn)
    requires input == "1(\n2\n"
    ensures Process(Start, input, pow)
      == Ok(Calc([], [], '\n', 0.0, false, [UnexpectedOperator('(', '1'), Printed(12.0)]))
  {
    var s1 := Start.(operand := 1.0, lastCh := '1');
    var s2 := s1.(errorMode := true, output := s1.output + [UnexpectedOperator('(', s1.lastCh)]);
    var s3 := s2.(errorMode := false, lastCh := '\0');
    var s4 := s3.(operand := 12.0, lastCh := '2');
    var s5 := s4.(operand := 0.0, lastCh := '\n', output := s4.output + [Printed(s4.operand)]);
    assert s5.output == [UnexpectedOperator('(', '1'), Printed(12.0)];
    assert input[0] == '1' && input[1] == '(' && input[2] == '\n' && input[3] == '2' && input[4] == '\n';
    DigitStep(Start, '1', pow);
    ProcessFirst(Start, input, pow, s1);
    RefusedStep(s1, '(', pow);
    ProcessFirst(s1, input[1..], pow, s2);
    ErrorNewlineStep(s2, pow);
    ProcessFirst(s2, input[2..], pow, s3);
    DigitStep(s3, '2', pow);
    ProcessFirst(s3, input[3..], pow, s4);
    NumberLineStep(s4, pow);
    ProcessFirst(s4, input[4..], pow, s5);
    ProcessEnd(s5, input[5..], pow);
  }

  /** The state every line should start from. */
  predicate AtLineStart(s: Calc) {
    s.ops == [] && s.nums == [] && s.operand == 0.0 && !s.errorMode && !FollowsOperand(s.lastCh)
  }

  /** `StepChar` with the newline that ends error mode also clearing `operand`,
      as the other newline paths do. */
  function StepCharFixed(s: Calc, ch: char, pow: PowFn): Result<Calc> {
    if s.errorMode && ch == '\n' then Ok(s.(ops := [], nums := [], errorMode := false, lastCh := '\0', operand := 0.0))
    else StepChar(s, ch, pow)
  }

  function ProcessFixed(s: Calc, input: seq<char>, pow: PowFn): Result<Calc>
    decreases |input|
  {
    if input == [] then Ok(s)
    else
      var t :- StepCharFixed(s, input[0], pow);
      ProcessFixed(t, input[1..], pow)
  }

  /** With the correction, a number is pending only right after a digit. */
  predicate ConsistentFixed(s: Calc) {
    Consistent(s) && (!s.errorMode ==> s.operand == 0.0 || IsDigit(s.lastCh))
  }

  lemma StepFixedKeeps(s: Calc, ch: char, pow: PowFn)
    requires ConsistentFixed(s)
    ensures StepCharFixed(s, ch, pow).Ok? && ConsistentFixed(StepCharFixed(s, ch, pow).value)
    ensures ch == '\n' ==> AtLineStart(StepCharFixed(s, ch, pow).value)
  {
    if !s.errorMode {
      StepKeeps(s, ch, pow);
      if ch == '\n' {
        NewlineReports(s, pow);
      }
    }
  }

  /** The corrected calculator starts every line afresh: after any input
      that ends with a newline nothing of the earlier lines is left. */
  lemma {:induction false} FixedLinesStartAfresh(s: Calc, input: seq<char>, pow: PowFn)
    requires ConsistentFixed(s)
    ensures ProcessFixed(s, input, pow).Ok?
    ensures ConsistentFixed(ProcessFixed(s, input, pow).value)
    ensures input != [] && input[|input| - 1] == '\n' ==> AtLineStart(ProcessFixed(s, input, pow).value)
    decreases |input|
  {
    if input != [] {
      StepFixedKeeps(s, input[0], pow);
      FixedLinesStartAfresh(StepCharFixed(s, input[0], pow).value, input[1..], pow);
    }
  }

  /** `ProcessFixed` reads the first character, then the rest. */
  lemma ProcessFixedFirst(s: Calc, input: seq<char>, pow: PowFn, t: Calc)
    requires |input| > 0 && StepCharFixed(s, input[0], pow) == Ok(t)
    ensures ProcessFixed(s, input, pow) == ProcessFixed(t, input[1..], pow)
  {
  }

  lemma ProcessFixedEnd(s: Calc, input: seq<char>, pow: PowFn)
    requires input == []
    ensures ProcessFixed(s, input, pow) == Ok(s)
  {
  }

  /** With the correction, the line after a refused one is read on its own. */
  lemma FixedReadsLineAlone(input: seq<char>, pow: PowFn)
    requires input == "1(\n2\n"
    ensures ProcessFixed(Start, input, pow)
      == Ok(Calc([], [], '\n', 0.0, false, [UnexpectedOperator('(', '1'), Printed(2.0)]))
  {
    var s1 := Start.(operand := 1.0, lastCh := '1');
    var s2 := s1.(errorMode := true, output := s1.output + [UnexpectedOperator('(', s1.lastCh)]);
    var s3 := s2.(errorMode := false, lastCh := '\0', operand := 0.0);
    var s4 := s3.(operand := 2.0, lastCh := '2');
    var s5 := s4.(operand := 0.0, lastCh := '\n', output := s4.output + [Printed(s4.operand)]);
    assert s5.output == [UnexpectedOperator('(', '1'), Printed(2.0)];
    assert input[0] == '1' && input[1] == '(' && input[2] == '\n' && input[3] == '2' && input[4] == '\n';
    DigitStep(Start, '1', pow);
    ProcessFixedFirst(Start, input, pow, s1);
    RefusedStep(s1, '(', pow);
    ProcessFixedFirst(s1, input[1..], pow, s2);
    ProcessFixedFirst(s2, input[2..], pow, s3);
    DigitStep(s3, '2', pow);
    ProcessFixedFirst(s3, input[3..], pow, s4);
    NumberLineStep(s4, pow);
    ProcessFixedFirst(s4, input[4..], pow, s5);
    ProcessFixedEnd(s5, input[5..], pow);
  }

  // ----- The imperative calculator -----

  /** `main` and `process_last_operator` over the two global stacks and the
      locals of `main`, with the printed lines collected in `output`. */
  class Calculator {
    var opStack: seq<char>
    var numStack: seq<CalcExpr>
    var lastCh: char
    var operand: real
    var errorMode: bool
    var output: seq<Line>

    constructor()
      ensures State() == Start
    {
      opStack := [];
      numStack := [];
      lastCh := '\0';
      operand := 0.0;
      errorMode := false;
      output := [];
    }

    function State(): Calc
      reads this
    {
      Calc(opStack, numStack, lastCh, operand, errorMode, output)
    }

    /** `process_last_operator`: the stacks `CalcReduce` gives; undefined
        behaviour stops the model. */
    method ProcessLastOperator() returns (status: Outcome)
      requires |opStack| > 0
      modifies this
      ensures var r := CalcReduce(old(opStack), old(numStack));
        && (status.Pass? <==> r.Ok?)
        && (r.Ok? ==> opStack == r.value.0 && numStack == r.value.1)
        && (r.Err? ==> status.error == r.error)
      ensures lastCh == old(lastCh) && operand == old(operand)
      ensures errorMode == old(errorMode) && output == old(output)
    {
      if opStack[|opStack| - 1] == '~' {
        if |numStack| == 0 {
          return Fail(OperandUnderrun);
        }
        var x := numStack[|numStack| - 1];
        opStack := opStack[..|opStack| - 1];
        numStack := numStack[..|numStack| - 1] + [Wave(x)];
        return Pass;
      }
      if |numStack| < 2 {
        return Fail(OperandUnderrun);
      }
      var right := numStack[|numStack| - 1];
      numStack := numStack[..|numStack| - 1];
      var left := numStack[|numStack| - 1];
      numStack := numStack[..|numStack| - 1];
      var result: CalcExpr;
      match opStack[|opStack| - 1] {
        case '+' => result := Binary(Add, left, right);
        case '-' => result := Binary(Sub, left, right);
        case '*' => result := Binary(Mul, left, right);
        case '/' => result := Binary(Div, left, right);
        case '^' => result := Binary(Pow, left, right);
        case _ => return Fail(Undefined("null expression pushed"));
      }
      opStack := opStack[..|opStack| - 1];
      numStack := numStack + [result];
      status := Pass;
    }

    /** The pop loop run before the operator `c` is handled. */
    method PopWhile(c: char) returns (status: Outcome)
      modifies this
      ensures var r := CalcReduceWhile(c, old(opStack), old(numStack));
        && (status.Pass? <==> r.Ok?)
        && (r.Ok? ==> opStack == r.value.0 && numStack == r.value.1)
        && (r.Err? ==> status.error == r.error)
      ensures lastCh == old(lastCh) && operand == old(operand)
      ensures errorMode == old(errorMode) && output == old(output)
    {
      ghost var goal := CalcReduceWhile(c, opStack, numStack);
      while |opStack| > 0 && Pops(c, opStack[|opStack| - 1])
        invariant CalcReduceWhile(c, opStack, numStack) == goal
        invariant lastCh == old(lastCh) && operand == old(operand)
        invariant errorMode == old(errorMode) && output == old(output)
        decreases |opStack|
      {
        status := ProcessLastOperator();
        if status.Fail? {
          return;
        }
      }
      status := Pass;
    }

    /** The operator branch of the character loop. */
    method ReadOperator(ch: char) returns (status: Outcome)
      requires IsCalcOperator(ch)
      modifies this
      ensures var r := StepOperator(old(State()), ch);
        && (status.Pass? <==> r.Ok?)
        && (r.Ok? ==> State() == r.value)
        && (r.Err? ==> status.error == r.error)
    {
      if ch == '(' || ch == '~' {
        if IsDigit(lastCh) || lastCh == ')' {
          output := output + [UnexpectedOperator(ch, lastCh)];
          errorMode := true;
          return Pass;
        }
      } else {
        if !IsDigit(lastCh) && lastCh != ')' {
          output := output + [UnexpectedOperator(ch, lastCh)];
          errorMode := true;
          return Pass;
        }
      }
      if IsDigit(lastCh) {
        numStack := numStack + [Number(operand)];
        operand := 0.0;
      }
      if ch == '(' || ch == '~' {
        opStack := opStack + [ch];
      } else {
        status := PopWhile(ch);
        if status.Fail? {
          return;
        }
        if ch != ')' {
          opStack := opStack + [ch];
        } else if |opStack| == 0 {
          output := output + [UnmatchedRightParen];
          errorMode := true;
          return Pass;
        } else {
          opStack := opStack[..|opStack| - 1];
        }
      }
      lastCh := ch;
      status := Pass;
    }

    /** The newline branch of the character loop; the stack releaser
        empties both stacks on every path. */
    method ReadNewline(pow: PowFn) returns (status: Outcome)
      modifies this
      ensures var r := StepNewline(old(State()), pow);
        && (status.Pass? <==> r.Ok?)
        && (r.Ok? ==> State() == r.value)
        && (r.Err? ==> status.error == r.error)
    {
      if IsDigit(lastCh) {
        numStack := numStack + [Number(operand)];
      } else if lastCh != ')' {
        output := output + [ExpectingLastOperand];
        lastCh := '\n';
        opStack := [];
        numStack := [];
        return Pass;
      }
      operand := 0.0;
      ghost var goal := ReduceAll(opStack, numStack);
      while |opStack| > 0
        invariant ReduceAll(opStack, numStack) == goal
        invariant lastCh == old(lastCh) && operand == 0.0
        invariant errorMode == old(errorMode) && output == old(output)
        decreases |opStack|
      {
        if opStack[|opStack| - 1] == '(' {
          output := output + [UnmatchedLeftParen];
          lastCh := '\n';
          opStack := [];
          numStack := [];
          return Pass;
        }
        status := ProcessLastOperator();
        if status.Fail? {
          return;
        }
      }
      if |numStack| == 0 {
        opStack := [];
        numStack := [];
        return Pass;
      }
      output := output + [Report(Evaluate(numStack[|numStack| - 1], pow))];
      lastCh := '\n';
      opStack := [];
      numStack := [];
      status := Pass;
    }

    /** One iteration of the character loop of `main`. */
    method ReadChar(ch: char, pow: PowFn) returns (status: Outcome)
      modifies this
      ensures var r := StepChar(old(State()), ch, pow);
        && (status.Pass? <==> r.Ok?)
        && (r.Ok? ==> State() == r.value)
        && (r.Err? ==> status.error == r.error)
    {
      if errorMode {
        if ch == '\n' {
          opStack := [];
          numStack := [];
          errorMode := false;
          lastCh := '\0';
        }
        return Pass;
      }
      if IsDigit(ch) {
        if lastCh == ')' {
          output := output + [DigitAfterParen(ch)];
          errorMode := true;
          return Pass;
        }
        operand := operand * 10.0 + (ch as int - '0' as int) as real;
        lastCh := ch;
        status := Pass;
      } else if IsCalcOperator(ch) {
        status := ReadOperator(ch);
      } else if ch == '\n' {
        status := ReadNewline(pow);
      } else {
        status := Pass;
      }
    }

    /** The `while ((ch = getchar()) != EOF)` loop of `main`, over the whole
        input. */
    method ReadInput(input: seq<char>, pow: PowFn) returns (status: Outcome)
      modifies this
      ensures var r := Process(old(State()), input, pow);
        && (status.Pass? <==> r.Ok?)
        && (r.Ok? ==> State() == r.value)
        && (r.Err? ==> status.error == r.error)
    {
      var i := 0;
      while i < |input|
        invariant 0 <= i <= |input|
        invariant Process(old(State()), input, pow) == Process(State(), input[i..], pow)
      {
        assert input[i..][1..] == input[i + 1..];
        status := ReadChar(input[i], pow);
        if status.Fail? {
          return;
        }
        i := i + 1;
      }
      status := Pass;
    }
  }

  /** Running the calculator from its initial state prints what `Process`
      prints, and never stops on undefined behaviour. */
  method Calculate(input: seq<char>, pow: PowFn) returns (output: seq<Line>)
    ensures Process(Start, input, pow).Ok? && output == Process(Start, input, pow).value.output
  {
    var c := new Calculator();
    var status := c.ReadInput(input, pow);
    NeverUndefined(input, pow);
    output := c.output;
  }
}
