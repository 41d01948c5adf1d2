/** `parse_arith_expr` and `process_last_operator` of 8-interpreter/arith_expr.cpp
    and of 7-interpreter/arith_expr.cpp, which differ only in identifiers.

    The scan is stated as a state machine over `ParseState` (the operator
    stack, the operand stack and `expecting_number`): `Step` handles one token,
    `Run` folds it over a token sequence and `Finish` is the code after the
    loop. The class `ExprBuilder` at the end is the imperative version over the
    two global stacks and is proved to compute exactly `Parse`. */
module ArithParser {
  import opened Results
  import opened Lexer
  import opened ArithExpr

  /** 7-interpreter has no identifiers; in 8-interpreter an identifier starts
      an operand, but the case that should push it is an empty stub. */
  datatype Version = Interpreter7 | Interpreter8

  datatype ParseState = ParseState(ops: seq<char>, nums: seq<Expr>, expecting: bool)

  const Initial: ParseState := ParseState([], [], true)

  /** A token that ends the expression: `;` or end of input. */
  predicate IsTerminator(t: Token) {
    t == Char(';') || t.End?
  }

  /** The tokens that may appear where an operand is expected. */
  predicate StartsOperand(v: Version, t: Token) {
    t.IntegerLiteral? || (v == Interpreter8 && t.Identifier?) || t == Char('(') || t == Char('~')
  }

  /** The tokens after which an operator is expected. */
  predicate EndsOperand(v: Version, t: Token) {
    t.IntegerLiteral? || (v == Interpreter8 && t.Identifier?) || t == Char(')')
  }

  predicate IsBinaryOperator(c: char) {
    c == '+' || c == '-' || c == '*' || c == '/' || c == '^'
  }

  /** What may sit on the operator stack. */
  predicate IsStackOperator(c: char) {
    c == '(' || c == '~' || IsBinaryOperator(c)
  }

  function BinOpOf(c: char): BinOp
    requires IsBinaryOperator(c)
  {
    match c
    case '+' => Add
    case '-' => Sub
    case '*' => Mul
    case '/' => Div
    case '^' => Pow
  }

  function Last<T>(s: seq<T>): T
    requires |s| > 0
  {
    s[|s| - 1]
  }

  function DropLast<T>(s: seq<T>): seq<T>
    requires |s| > 0
  {
    s[..|s| - 1]
  }

  const OperandUnderrun := Undefined("back() of an empty operand stack")

  /** `process_last_operator`: pops the top operator; `~` wraps the top operand
      in Wav, a binary operator pops the right and then the left operand and
      pushes the node built from them. Nothing else on either stack changes. */
  function Reduce(ops: seq<char>, nums: seq<Expr>): (r: Result<(seq<char>, seq<Expr>)>)
    requires |ops| > 0
    ensures r.Ok? <==> (Last(ops) == '~' && |nums| >= 1) || (IsBinaryOperator(Last(ops)) && |nums| >= 2)
    ensures r.Ok? && Last(ops) == '~' ==>
      r.value == (DropLast(ops), DropLast(nums) + [Wav(Last(nums))])
    ensures r.Ok? && Last(ops) != '~' ==>
      r.value == (DropLast(ops), nums[..|nums| - 2] + [NewBinary(BinOpOf(Last(ops)), nums[|nums| - 2], Last(nums))])
    ensures r.Err? ==> r.error == OperandUnderrun || r.error == LogicError("Unexpected operator")
  {
    if Last(ops) == '~' then
      if |nums| == 0 then Err(OperandUnderrun)
      else Ok((DropLast(ops), DropLast(nums) + [Wav(Last(nums))]))
    else if |nums| < 2 then Err(OperandUnderrun)
    else if !IsBinaryOperator(Last(ops)) then Err(LogicError("Unexpected operator"))
    else
      var right := Last(nums);
      var left := nums[|nums| - 2];
      Ok((DropLast(ops), nums[..|nums| - 2] + [NewBinary(BinOpOf(Last(ops)), left, right)]))
  }

  /** The guard of the pop loop run before `incoming` is handled: `^` pops `^`
      and `~`; `*` and `/` pop `^ * / ~`; `+` and `-` pop everything except
      `(`; `)` pops everything down to `(`. */
  predicate Pops(incoming: char, top: char) {
    if incoming == '^' then top == '^' || top == '~'
    else if incoming == '*' || incoming == '/' then top == '^' || top == '*' || top == '/' || top == '~'
    else if incoming == '+' || incoming == '-' then
      top == '^' || top == '*' || top == '/' || top == '+' || top == '-' || top == '~'
    else top != '('
  }

  /** `while (!op_stack.empty() && <Pops>) process_last_operator();` */
  function ReduceWhile(incoming: char, ops: seq<char>, nums: seq<Expr>): (r: Result<(seq<char>, seq<Expr>)>)
    decreases |ops|
  {
    if |ops| == 0 || !Pops(incoming, Last(ops)) then Ok((ops, nums))
    else
      var p :- Reduce(ops, nums);
      ReduceWhile(incoming, p.0, p.1)
  }

  /** A binary operator: pop what binds at least as tightly, then push it. */
  function ShiftOperator(s: ParseState, c: char): Result<ParseState> {
    var p :- ReduceWhile(c, s.ops, s.nums);
    Ok(ParseState(p.0 + [c], p.1, true))
  }

  /** `)`: pop down to the matching `(` and drop it. */
  function CloseParen(s: ParseState): Result<ParseState> {
    var p :- ReduceWhile(')', s.ops, s.nums);
    if |p.0| == 0 then Err(CompilingError("Unmatched right parenthesis in input"))
    else Ok(ParseState(DropLast(p.0), p.1, false))
  }

  /** One iteration of the token loop of `parse_arith_expr`. */
  function Step(v: Version, s: ParseState, t: Token): Result<ParseState> {
    if s.expecting != StartsOperand(v, t) then
      Err(CompilingError("Consecutive numbers or operators found"))
    else
      var expecting := !EndsOperand(v, t);
      match t
      case IntegerLiteral(n) => Ok(ParseState(s.ops, s.nums + [Num(n as real)], expecting))
      case Identifier(_) =>
        if v == Interpreter8 then Ok(ParseState(s.ops, s.nums, expecting))
        else Err(CompilingError("Unexpected token with type"))
      case Char(c) =>
        if c == '(' || c == '~' then Ok(ParseState(s.ops + [c], s.nums, expecting))
        else if IsBinaryOperator(c) then ShiftOperator(s, c)
        else if c == ')' then CloseParen(s)
        else Err(CompilingError("Unexpected token with type"))
      case _ => Err(CompilingError("Unexpected token with type"))
  }

  /** The token loop over `ts`, from state `s`; the first error stops it. */
  function Run(v: Version, s: ParseState, ts: seq<Token>): Result<ParseState>
    decreases |ts|
  {
    if ts == [] then Ok(s)
    else
      var s' :- Run(v, s, DropLast(ts));
      Step(v, s', Last(ts))
  }

  /** The closing loop: reduce everything, refusing a leftover `(`. */
  function ReduceRemaining(ops: seq<char>, nums: seq<Expr>): Result<(seq<char>, seq<Expr>)>
    decreases |ops|
  {
    if |ops| == 0 then Ok((ops, nums))
    else if Last(ops) == '(' then Err(CompilingError("Unmatched left parenthesis in input"))
    else
      var p :- Reduce(ops, nums);
      ReduceRemaining(p.0, p.1)
  }

  /** The code after the token loop: no tree (`nullptr`) when an operand is
      expected and none was pushed, "Missing operand" when one was, otherwise
      the top operand once every operator is reduced. */
  function Finish(s: ParseState): Result<Option<Expr>> {
    if s.expecting then
      if |s.nums| == 0 then Ok(None) else Err(CompilingError("Missing operand"))
    else
      var p :- ReduceRemaining(s.ops, s.nums);
      if |p.1| == 0 then Err(OperandUnderrun) else Ok(Some(Last(p.1)))
  }

  /** `parse_arith_expr` on the tokens of one expression (terminator excluded). */
  function Parse(v: Version, ts: seq<Token>): Result<Option<Expr>> {
    var s :- Run(v, Initial, ts);
    Finish(s)
  }

  /** The position of the token that ends the expression starting at `start`. */
  function ExprEnd(ts: seq<Token>, start: nat): (e: nat)
    requires start <= |ts|
    ensures start <= e <= |ts|
    ensures e < |ts| ==> IsTerminator(ts[e])
    ensures forall i :: start <= i < e ==> !IsTerminator(ts[i])
    decreases |ts| - start
  {
    if start == |ts| || IsTerminator(ts[start]) then start else ExprEnd(ts, start + 1)
  }

  /** Where the token stream resumes after an expression: past its `;`, or
      at the end of input, which reads as end of input again. */
  function AfterExpr(ts: seq<Token>, start: nat): (next: nat)
    requires start <= |ts|
    ensures start <= next <= |ts|
    ensures next > ExprEnd(ts, start) <==> ExprEnd(ts, start) < |ts| && ts[ExprEnd(ts, start)] == Char(';')
  {
    var e := ExprEnd(ts, start);
    if e < |ts| && ts[e] == Char(';') then e + 1 else e
  }

  /** A slice grows by one element at a time. */
  lemma SliceSnoc<T>(s: seq<T>, from: nat, to: nat)
    requires from <= to < |s|
    ensures s[from..to + 1] == s[from..to] + [s[to]]
  {
  }

  /** Below `ExprEnd`, the scan goes on exactly while no terminator is met. */
  lemma ExprEndAt(ts: seq<Token>, start: nat, i: nat)
    requires start <= i <= |ts| && i <= ExprEnd(ts, start)
    ensures i < ExprEnd(ts, start) <==> i < |ts| && !IsTerminator(ts[i])
  {
  }

  predicate NoIdentifiers(ts: seq<Token>) {
    forall i :: 0 <= i < |ts| ==> !ts[i].Identifier?
  }

  // ----- The stack invariant -----

  /** The number of binary operators on the operator stack. */
  function BinaryCount(ops: seq<char>): nat {
    if ops == [] then 0
    else BinaryCount(DropLast(ops)) + (if IsBinaryOperator(Last(ops)) then 1 else 0)
  }

  /** The invariant kept by the token loop: the stacks hold only operators and
      well-typed trees, and there is one operand per binary operator, plus one
      more exactly when an operator is expected next. */
  predicate Balanced(s: ParseState) {
    && OpsValid(s.ops)
    && NumsTyped(s.nums)
    && |s.nums| == BinaryCount(s.ops) + (if s.expecting then 0 else 1)
  }

  predicate OpsValid(ops: seq<char>) {
    forall i :: 0 <= i < |ops| ==> IsStackOperator(ops[i])
  }

  predicate NumsTyped(nums: seq<Expr>) {
    forall i :: 0 <= i < |nums| ==> WellTyped(nums[i])
  }

  /** When an operator is expected, reducing any operator other than `(`
      succeeds and keeps the count: a reduction never under-runs. */
  lemma ReduceBalanced(ops: seq<char>, nums: seq<Expr>)
    requires |ops| > 0 && Last(ops) != '('
    requires OpsValid(ops) && NumsTyped(nums)
    requires |nums| == BinaryCount(ops) + 1
    ensures Reduce(ops, nums).Ok?
    ensures var p := Reduce(ops, nums).value;
      OpsValid(p.0) && NumsTyped(p.1) && |p.1| == BinaryCount(p.0) + 1 && p.0 == DropLast(ops)
  {
    assert IsStackOperator(Last(ops));
    if Last(ops) != '~' {
      var p := Reduce(ops, nums).value;
      assert WellTyped(nums[|nums| - 2]) && WellTyped(Last(nums));
      forall i | 0 <= i < |p.1| ensures WellTyped(p.1[i]) {
        if i < |p.1| - 1 {
          assert p.1[i] == nums[i];
        }
      }
    } else {
      var p := Reduce(ops, nums).value;
      forall i | 0 <= i < |p.1| ensures WellTyped(p.1[i]) {
        if i < |p.1| - 1 {
          assert p.1[i] == nums[i];
        }
      }
    }
  }

  /** A pop loop run while an operator is expected succeeds, keeps the count,
      pops a suffix of the operator stack and stops at an operator it does not
      pop (or an empty stack). */
  lemma {:induction false} ReduceWhileBalanced(c: char, ops: seq<char>, nums: seq<Expr>)
    requires OpsValid(ops) && NumsTyped(nums)
    requires |nums| == BinaryCount(ops) + 1
    ensures ReduceWhile(c, ops, nums).Ok?
    ensures var p := ReduceWhile(c, ops, nums).value;
      && OpsValid(p.0) && NumsTyped(p.1) && |p.1| == BinaryCount(p.0) + 1
      && |p.0| <= |ops| && p.0 == ops[..|p.0|]
      && (|p.0| == 0 || !Pops(c, Last(p.0)))
    decreases |ops|
  {
    if |ops| == 0 || !Pops(c, Last(ops)) {
    } else {
      assert Last(ops) != '(' by { assert IsStackOperator(Last(ops)); }
      ReduceBalanced(ops, nums);
      var p := Reduce(ops, nums).value;
      ReduceWhileBalanced(c, p.0, p.1);
    }
  }

  lemma PushOperator(ops: seq<char>, c: char)
    requires OpsValid(ops) && IsStackOperator(c)
    ensures OpsValid(ops + [c])
    ensures BinaryCount(ops + [c]) == BinaryCount(ops) + (if IsBinaryOperator(c) then 1 else 0)
  {
    assert DropLast(ops + [c]) == ops;
  }

  lemma LiteralBalanced(s: ParseState, n: int)
    requires Balanced(s) && s.expecting
    ensures Balanced(ParseState(s.ops, s.nums + [Num(n as real)], false))
  {
    var nums := s.nums + [Num(n as real)];
    forall i | 0 <= i < |nums| ensures WellTyped(nums[i]) {
      if i < |s.nums| { assert nums[i] == s.nums[i]; }
    }
  }

  lemma OperatorBalanced(s: ParseState, c: char)
    requires Balanced(s) && !s.expecting && IsBinaryOperator(c)
    ensures ShiftOperator(s, c).Ok? && Balanced(ShiftOperator(s, c).value)
  {
    ReduceWhileBalanced(c, s.ops, s.nums);
    var p := ReduceWhile(c, s.ops, s.nums).value;
    PushOperator(p.0, c);
    var t := ParseState(p.0 + [c], p.1, true);
    assert ShiftOperator(s, c) == Ok(t);
    assert OpsValid(t.ops) && NumsTyped(t.nums);
  }

  lemma CloseBalanced(s: ParseState)
    requires Balanced(s) && !s.expecting
    ensures CloseParen(s).Ok? ==> Balanced(CloseParen(s).value)
    ensures CloseParen(s).Err? ==> CloseParen(s).error.CompilingError?
  {
    ReduceWhileBalanced(')', s.ops, s.nums);
    var p := ReduceWhile(')', s.ops, s.nums).value;
    if |p.0| > 0 {
      assert Last(p.0) == '(';
    }
  }

  lemma OpenBalanced(s: ParseState, c: char)
    requires Balanced(s) && s.expecting && (c == '(' || c == '~')
    ensures Balanced(ParseState(s.ops + [c], s.nums, true))
  {
    PushOperator(s.ops, c);
  }

  /** Each accepted token keeps the invariant, and the only errors a balanced
      state can meet are compiling errors, as long as no stubbed identifier
      is read. */
  lemma StepBalanced(v: Version, s: ParseState, t: Token)
    requires Balanced(s)
    requires v == Interpreter7 || !t.Identifier?
    ensures Step(v, s, t).Ok? ==> Balanced(Step(v, s, t).value)
    ensures Step(v, s, t).Err? ==> Step(v, s, t).error.CompilingError?
  {
    if s.expecting == StartsOperand(v, t) {
      match t
      case IntegerLiteral(n) => LiteralBalanced(s, n);
      case Identifier(_) =>
      case Char(c) =>
        if c == '(' || c == '~' {
          OpenBalanced(s, c);
        } else if IsBinaryOperator(c) {
          OperatorBalanced(s, c);
        } else if c == ')' {
          CloseBalanced(s);
        }
      case _ =>
    }
  }

  /** The token loop keeps the invariant; on identifier-free input it fails
      only with compiling errors. */
  lemma {:induction false} RunBalanced(v: Version, s: ParseState, ts: seq<Token>)
    requires Balanced(s)
    requires v == Interpreter7 || NoIdentifiers(ts)
    ensures Run(v, s, ts).Ok? ==> Balanced(Run(v, s, ts).value)
    ensures Run(v, s, ts).Err? ==> Run(v, s, ts).error.CompilingError?
    decreases |ts|
  {
    if ts != [] {
      RunBalanced(v, s, DropLast(ts));
      if Run(v, s, DropLast(ts)).Ok? {
        StepBalanced(v, Run(v, s, DropLast(ts)).value, Last(ts));
      }
    }
  }

  /** The closing loop of a balanced state either finds a leftover `(` or
      leaves exactly one well-typed tree. */
  lemma {:induction false} ReduceRemainingBalanced(ops: seq<char>, nums: seq<Expr>)
    requires OpsValid(ops) && NumsTyped(nums)
    requires |nums| == BinaryCount(ops) + 1
    ensures ReduceRemaining(ops, nums) == Err(CompilingError("Unmatched left parenthesis in input"))
         || (ReduceRemaining(ops, nums).Ok? && ReduceRemaining(ops, nums).value.0 == []
             && |ReduceRemaining(ops, nums).value.1| == 1 && WellTyped(ReduceRemaining(ops, nums).value.1[0]))
    decreases |ops|
  {
    if |ops| == 0 {
      assert WellTyped(nums[0]);
    } else if Last(ops) != '(' {
      ReduceBalanced(ops, nums);
      var p := Reduce(ops, nums).value;
      ReduceRemainingBalanced(p.0, p.1);
    }
  }

  /** On input without (stubbed) identifiers, and always in 7-interpreter,
      `parse_arith_expr` fails only with compiling errors: no reduction
      under-runs the operand stack, no unknown operator reaches
      `process_last_operator`, and a returned tree is the single operand left
      on the stack, well-typed. */
  lemma ParseSound(v: Version, ts: seq<Token>)
    requires v == Interpreter7 || NoIdentifiers(ts)
    ensures Parse(v, ts).Err? ==> Parse(v, ts).error.CompilingError?
    ensures Parse(v, ts).Ok? && Parse(v, ts).value.Some? ==> WellTyped(Parse(v, ts).value.value)
  {
    RunBalanced(v, Initial, ts);
    if Run(v, Initial, ts).Ok? {
      var s := Run(v, Initial, ts).value;
      if !s.expecting {
        ReduceRemainingBalanced(s.ops, s.nums);
      }
    }
  }

  /** In 8-interpreter the identifier case is an empty stub: the flag moves on
      but no operand is pushed, so a lone identifier reaches `back()` of an
      empty operand stack. The 7-interpreter lexer has no identifier kind; a
      token of a kind it does not know fails that loop's alternation check. */
  lemma IdentifierStubUnderruns()
    ensures Parse(Interpreter8, [Identifier("x")]) == Err(OperandUnderrun)
    ensures Parse(Interpreter7, [Identifier("x")]) == Err(CompilingError("Consecutive numbers or operators found"))
  {
    assert DropLast([Identifier("x")]) == [];
  }

  /** Without identifiers the two versions of the parser are the same. */
  lemma {:induction false} VersionsAgree(s: ParseState, ts: seq<Token>)
    requires NoIdentifiers(ts)
    ensures Run(Interpreter7, s, ts) == Run(Interpreter8, s, ts)
    decreases |ts|
  {
    if ts != [] {
      VersionsAgree(s, DropLast(ts));
      assert !Last(ts).Identifier?;
    }
  }

  /** Only `(` and `~`: the operators a token loop can see before its first
      operand. */
  predicate OnlyOpeners(ts: seq<Token>) {
    forall i :: 0 <= i < |ts| ==> ts[i] == Char('(') || ts[i] == Char('~')
  }

  /** A reduction that succeeds leaves at least one operand. */
  lemma {:induction false} ReduceWhileKeepsOperand(c: char, ops: seq<char>, nums: seq<Expr>)
    requires |nums| > 0 && ReduceWhile(c, ops, nums).Ok?
    ensures |ReduceWhile(c, ops, nums).value.1| > 0
    decreases |ops|
  {
    if |ops| > 0 && Pops(c, Last(ops)) {
      var p := Reduce(ops, nums).value;
      ReduceWhileKeepsOperand(c, p.0, p.1);
    }
  }

  /** The operand stack stays empty exactly as long as only openers were
      read, and meanwhile an operand is still expected. */
  lemma {:induction false} EmptyOperandsIff(v: Version, ts: seq<Token>)
    requires v == Interpreter7 || NoIdentifiers(ts)
    requires Run(v, Initial, ts).Ok?
    ensures OnlyOpeners(ts) <==> |Run(v, Initial, ts).value.nums| == 0
    ensures OnlyOpeners(ts) ==> Run(v, Initial, ts).value.expecting
    decreases |ts|
  {
    if ts != [] {
      var prefix, t := DropLast(ts), Last(ts);
      assert OnlyOpeners(ts) <==> OnlyOpeners(prefix) && (t == Char('(') || t == Char('~')) by {
        assert forall i :: 0 <= i < |prefix| ==> prefix[i] == ts[i];
        assert ts == prefix + [t];
      }
      assert NoIdentifiers(prefix) || v == Interpreter7 by {
        assert forall i :: 0 <= i < |prefix| ==> prefix[i] == ts[i];
      }
      EmptyOperandsIff(v, prefix);
      var s := Run(v, Initial, prefix).value;
      if |s.nums| > 0 {
        match t
        case Char(c) =>
          if IsBinaryOperator(c) {
            ReduceWhileKeepsOperand(c, s.ops, s.nums);
          } else if c == ')' {
            ReduceWhileKeepsOperand(')', s.ops, s.nums);
          }
        case _ =>
      }
    }
  }

  /** `parse_arith_expr` returns no tree exactly when the expression holds
      nothing but `(` and `~`: empty input, and also `(`, `~~` or `((~`. */
  lemma ParseNullIff(v: Version, ts: seq<Token>)
    requires v == Interpreter7 || NoIdentifiers(ts)
    ensures Parse(v, ts) == Ok(None) <==> OnlyOpeners(ts)
  {
    if OnlyOpeners(ts) {
      OnlyOpenersRun(v, ts);
    } else if Run(v, Initial, ts).Ok? {
      EmptyOperandsIff(v, ts);
      var s := Run(v, Initial, ts).value;
      if !s.expecting {
        RunBalanced(v, Initial, ts);
        ReduceRemainingBalanced(s.ops, s.nums);
      }
    }
  }

  /** Openers only are always accepted by the token loop. */
  lemma {:induction false} OnlyOpenersRun(v: Version, ts: seq<Token>)
    requires OnlyOpeners(ts)
    ensures Run(v, Initial, ts).Ok?
    ensures Run(v, Initial, ts).value.expecting && |Run(v, Initial, ts).value.nums| == 0
    decreases |ts|
  {
    if ts != [] {
      assert OnlyOpeners(DropLast(ts)) by {
        assert forall i :: 0 <= i < |DropLast(ts)| ==> DropLast(ts)[i] == ts[i];
      }
      OnlyOpenersRun(v, DropLast(ts));
      assert Last(ts) == ts[|ts| - 1];
    }
  }

  /** A `)` with no `(` before it is reported. */
  lemma RightParenUnmatched(v: Version)
    ensures Parse(v, [IntegerLiteral(1), Char(')')]) == Err(CompilingError("Unmatched right parenthesis in input"))
  {
    assert DropLast([IntegerLiteral(1), Char(')')]) == [IntegerLiteral(1)];
    assert DropLast([IntegerLiteral(1)]) == [];
  }

  /** A `(` still open at the end is reported, once an operand was read. */
  lemma LeftParenLeftover(v: Version)
    ensures Parse(v, [Char('('), IntegerLiteral(1)]) == Err(CompilingError("Unmatched left parenthesis in input"))
  {
    assert DropLast([Char('('), IntegerLiteral(1)]) == [Char('(')];
    assert DropLast([Char('(')]) == [];
  }

  // ----- Relating the loop to its prefixes -----

  /** Once the token loop has failed, later tokens are never read. */
  lemma {:induction false} RunErrorSticks(v: Version, s: ParseState, xs: seq<Token>, ys: seq<Token>)
    requires Run(v, s, xs).Err?
    ensures Run(v, s, xs + ys) == Run(v, s, xs)
    decreases |ys|
  {
    if ys == [] {
      assert xs + ys == xs;
    } else {
      assert DropLast(xs + ys) == xs + DropLast(ys);
      RunErrorSticks(v, s, xs, DropLast(ys));
    }
  }

  /** Running one more token is one more `Step`. */
  lemma RunSnoc(v: Version, s: ParseState, xs: seq<Token>, t: Token)
    ensures Run(v, s, xs + [t]) == (if Run(v, s, xs).Err? then Run(v, s, xs) else Step(v, Run(v, s, xs).value, t))
  {
    assert DropLast(xs + [t]) == xs;
  }

  /** A failure of the token loop at position `k` is the result of `Parse`. */
  lemma ParseStopsAt(v: Version, ts: seq<Token>, k: nat)
    requires k < |ts| && Run(v, Initial, ts[..k + 1]).Err?
    ensures Parse(v, ts) == Err(Run(v, Initial, ts[..k + 1]).error)
  {
    RunErrorSticks(v, Initial, ts[..k + 1], ts[k + 1..]);
    assert ts[..k + 1] + ts[k + 1..] == ts;
  }

  // ----- The imperative parser over the two global stacks -----

  /** The globals `op_stack` and `num_stack` with `process_last_operator` and
      `parse_arith_expr`; `stack_releaser` is the clearing done on every exit
      of `ParseArithExpr`. */
  class ExprBuilder {
    var opStack: seq<char>
    var numStack: seq<Expr>

    constructor()
      ensures opStack == [] && numStack == []
    {
      opStack := [];
      numStack := [];
    }

    /** `process_last_operator`. On success the stacks are those `Reduce`
        gives; an operand under-run stops the model with the stacks untouched;
        an unknown operator is reported after both operands were popped. */
    method ProcessLastOperator() returns (status: Outcome)
      requires |opStack| > 0
      modifies this
      ensures var r := Reduce(old(opStack), old(numStack));
        && (status.Pass? <==> r.Ok?)
        && (r.Ok? ==> opStack == r.value.0 && numStack == r.value.1)
        && (r.Err? ==> status.error == r.error && opStack == old(opStack))
        && (r.Err? && r.error.LogicError? ==> numStack == old(numStack)[..|old(numStack)| - 2])
        && (r.Err? && r.error.Undefined? ==> numStack == old(numStack))
    {
      if opStack[|opStack| - 1] == '~' {
        if |numStack| == 0 {
          return Fail(OperandUnderrun);
        }
        var operand := numStack[|numStack| - 1];
        opStack := opStack[..|opStack| - 1];
        numStack := numStack[..|numStack| - 1] + [Wav(operand)];
        return Pass;
      }
      if |numStack| < 2 {
        return Fail(OperandUnderrun);
      }
      var right := numStack[|numStack| - 1];
      numStack := numStack[..|numStack| - 1];
      var left := numStack[|numStack| - 1];
      numStack := numStack[..|numStack| - 1];
      var result: Expr;
      match opStack[|opStack| - 1] {
        case '+' => result := NewBinary(Add, left, right);
        case '-' => result := NewBinary(Sub, left, right);
        case '*' => result := NewBinary(Mul, left, right);
        case '/' => result := NewBinary(Div, left, right);
        case '^' => result := NewBinary(Pow, left, right);
        case _ => return Fail(LogicError("Unexpected operator"));
      }
      opStack := opStack[..|opStack| - 1];
      numStack := numStack + [result];
      status := Pass;
    }

    /** The pop loop run before the operator `c` is handled. */
    method PopWhile(c: char) returns (status: Outcome)
      modifies this
      ensures var r := ReduceWhile(c, old(opStack), old(numStack));
        && (status.Pass? <==> r.Ok?)
        && (r.Ok? ==> opStack == r.value.0 && numStack == r.value.1)
        && (r.Err? ==> status.error == r.error)
    {
      ghost var goal := ReduceWhile(c, opStack, numStack);
      while |opStack| > 0 && Pops(c, opStack[|opStack| - 1])
        invariant ReduceWhile(c, opStack, numStack) == goal
        decreases |opStack|
      {
        status := ProcessLastOperator();
        if status.Fail? {
          return;
        }
      }
      status := Pass;
    }

    /** The token loop of `parse_arith_expr`, from position `start`. It
        either reaches the terminator at `ExprEnd` with the stacks and flag
        that `Run` gives, or fails on the token before `i` with the error
        `Run` meets there. */
    method ScanTokens(v: Version, ts: seq<Token>, start: nat) returns (status: Outcome, expecting: bool, i: nat)
      requires start <= |ts|
      requires opStack == [] && numStack == []
      modifies this
      ensures start <= i <= |ts|
      ensures status.Pass? ==>
        i == ExprEnd(ts, start) && Run(v, Initial, ts[start..i]) == Ok(ParseState(opStack, numStack, expecting))
      ensures status.Fail? ==>
        start < i <= ExprEnd(ts, start) && Run(v, Initial, ts[start..i]) == Err(status.error)
    {
      expecting := true;
      i := start;
      ghost var end := ExprEnd(ts, start);
      while i < |ts| && !IsTerminator(ts[i])
        invariant start <= i <= end
        invariant Run(v, Initial, ts[start..i]) == Ok(ParseState(opStack, numStack, expecting))
        decreases |ts| - i
      {
        ExprEndAt(ts, start, i);
        var t := ts[i];
        SliceSnoc(ts, start, i);
        RunSnoc(v, Initial, ts[start..i], t);
        status, expecting := StepToken(v, t, expecting);
        i := i + 1;
        if status.Fail? {
          return;
        }
      }
      ExprEndAt(ts, start, i);
      status := Pass;
    }

    /** `parse_arith_expr` reading the tokens of `ts` from `start`: the result
        is `Parse` of the tokens before the terminator, a successful call
        resumes past a `;` terminator (end of input stays end of input), and
        both stacks are empty on every exit. */
    method ParseArithExpr(v: Version, ts: seq<Token>, start: nat) returns (r: Result<Option<Expr>>, next: nat)
      requires start <= |ts|
      requires opStack == [] && numStack == []
      modifies this
      ensures r == Parse(v, ts[start..ExprEnd(ts, start)])
      ensures r.Ok? ==> next == AfterExpr(ts, start)
      ensures opStack == [] && numStack == []
    {
      var status, expecting, i := ScanTokens(v, ts, start);
      if status.Fail? {
        assert ts[start..ExprEnd(ts, start)][..i - start] == ts[start..i];
        ParseStopsAt(v, ts[start..ExprEnd(ts, start)], i - start - 1);
        r, next := Err(status.error), i;
      } else {
        next := if i < |ts| && ts[i] == Char(';') then i + 1 else i;
        r := FinishStacks(expecting);
      }
      opStack, numStack := [], [];
    }

    /** One token of the loop of `parse_arith_expr`: what `Step` does, on
        the stacks. */
    method StepToken(v: Version, t: Token, expecting: bool) returns (status: Outcome, expectingAfter: bool)
      modifies this
      ensures var r := Step(v, ParseState(old(opStack), old(numStack), expecting), t);
        && (status.Pass? <==> r.Ok?)
        && (r.Ok? ==> r.value == ParseState(opStack, numStack, expectingAfter))
        && (r.Err? ==> status.error == r.error)
    {
      status, expectingAfter := Pass, expecting;
      if expecting != StartsOperand(v, t) {
        status := Fail(CompilingError("Consecutive numbers or operators found"));
      } else {
        expectingAfter := !EndsOperand(v, t);
        match t {
        case IntegerLiteral(n) =>
          numStack := numStack + [Num(n as real)];
        case Identifier(_) =>
          if v == Interpreter7 {
            status := Fail(CompilingError("Unexpected token with type"));
          }
        case Char(c) =>
          if c == '(' || c == '~' {
            opStack := opStack + [c];
          } else if IsBinaryOperator(c) {
            status := PopWhile(c);
            if status.Pass? {
              opStack := opStack + [c];
            }
          } else if c == ')' {
            status := PopWhile(')');
            if status.Pass? {
              if |opStack| == 0 {
                status := Fail(CompilingError("Unmatched right parenthesis in input"));
              } else {
                opStack := opStack[..|opStack| - 1];
              }
            }
          } else {
            status := Fail(CompilingError("Unexpected token with type"));
          }
        case _ =>
          status := Fail(CompilingError("Unexpected token with type"));
        }
      }
    }

    /** The code after the token loop, on the stacks the loop left. */
    method FinishStacks(expecting: bool) returns (r: Result<Option<Expr>>)
      modifies this
      ensures r == Finish(old(ParseState(opStack, numStack, expecting)))
    {
      if expecting {
        if |numStack| == 0 {
          return Ok(None);
        }
        return Err(CompilingError("Missing operand"));
      }
      ghost var goal := ReduceRemaining(opStack, numStack);
      while |opStack| > 0
        invariant ReduceRemaining(opStack, numStack) == goal
        decreases |opStack|
      {
        if opStack[|opStack| - 1] == '(' {
          return Err(CompilingError("Unmatched left parenthesis in input"));
        }
        var status := ProcessLastOperator();
        if status.Fail? {
          return Err(status.error);
        }
      }
      if |numStack| == 0 {
        return Err(OperandUnderrun);
      }
      r := Ok(Some(numStack[|numStack| - 1]));
      numStack := numStack[..|numStack| - 1];
    }
  }
}
