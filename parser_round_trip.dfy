/** What the precedence parser of `parse_arith_expr` builds: every tree whose
    leaves are integer literals is read back, unchanged, from its rendering
    with the fewest parentheses. The rendering encodes the grouping the code
    implements: `~` binds tightest, then `^`, then `* /`, then `+ -`, and every
    binary operator, `^` included, groups to the left. */
module ParserRoundTrip {
  import opened Results
  import opened Lexer
  import opened ArithExpr
  import opened ArithParser

  /** How tightly an operator on the stack binds; `(` binds least. */
  function Binding(c: char): nat {
    if c == '+' || c == '-' then 1
    else if c == '*' || c == '/' then 2
    else if c == '^' || c == '~' then 3
    else 0
  }

  function OpChar(op: BinOp): (c: char)
    ensures IsBinaryOperator(c) && BinOpOf(c) == op
  {
    match op
    case Add => '+'
    case Sub => '-'
    case Mul => '*'
    case Div => '/'
    case Pow => '^'
  }

  /** How tightly the top of a tree binds: a literal or a `~` node cannot be
      split by any binary operator. */
  function TopBinding(e: Expr): nat {
    match e
    case Bin(op, _, _, _) => Binding(OpChar(op))
    case _ => 4
  }

  /** The operand stack is reduced while the top operator binds at least `k`. */
  function ReduceAbove(k: nat, ops: seq<char>, nums: seq<Expr>): Result<(seq<char>, seq<Expr>)>
    decreases |ops|
  {
    if |ops| == 0 || Binding(Last(ops)) < k then Ok((ops, nums))
    else
      var p :- Reduce(ops, nums);
      ReduceAbove(k, p.0, p.1)
  }

  /** The binding level at which the pop loop before `c` stops. */
  function Threshold(c: char): nat {
    if c == ')' then 1 else Binding(c)
  }

  /** Each of the four pop loops of `parse_arith_expr` reduces exactly the
      operators that bind at least as tightly as the incoming one. */
  lemma {:induction false} ReduceWhileIsAbove(c: char, ops: seq<char>, nums: seq<Expr>)
    requires OpsValid(ops)
    requires IsBinaryOperator(c) || c == ')'
    ensures ReduceWhile(c, ops, nums) == ReduceAbove(Threshold(c), ops, nums)
    decreases |ops|
  {
    if |ops| > 0 {
      assert IsStackOperator(Last(ops));
      assert Pops(c, Last(ops)) <==> Binding(Last(ops)) >= Threshold(c);
      if Pops(c, Last(ops)) && Reduce(ops, nums).Ok? {
        var p := Reduce(ops, nums).value;
        assert p.0 == DropLast(ops);
        ReduceWhileIsAbove(c, p.0, p.1);
      }
    }
  }

  /** The closing loop, on a stack without `(`, is a reduction at level 1. */
  lemma {:induction false} RemainingIsAbove(ops: seq<char>, nums: seq<Expr>)
    requires OpsValid(ops)
    requires ReduceAbove(1, ops, nums).Ok? && ReduceAbove(1, ops, nums).value.0 == []
    ensures ReduceRemaining(ops, nums) == ReduceAbove(1, ops, nums)
    decreases |ops|
  {
    if |ops| > 0 {
      assert IsStackOperator(Last(ops));
      var p := Reduce(ops, nums).value;
      assert p.0 == DropLast(ops);
      RemainingIsAbove(p.0, p.1);
    }
  }

  /** The token loop over a concatenation runs the second part from where the
      first left off. */
  lemma {:induction false} RunAppend(v: Version, s: ParseState, xs: seq<Token>, ys: seq<Token>)
    ensures Run(v, s, xs + ys) ==
      (if Run(v, s, xs).Err? then Run(v, s, xs) else Run(v, Run(v, s, xs).value, ys))
    decreases |ys|
  {
    if ys == [] {
      assert xs + ys == xs;
    } else {
      assert DropLast(xs + ys) == xs + DropLast(ys);
      RunAppend(v, s, xs, DropLast(ys));
    }
  }

  // ----- Rendering -----

  /** The trees a token stream can denote: well-typed, with every leaf a
      non-negative integer, the value an integer literal token carries. */
  predicate LiteralTree(e: Expr) {
    match e
    case Num(v) => v >= 0.0 && v.Floor as real == v
    case Bin(op, l, r, ty) => ty == TypeOf(NewBinary(op, l, r)) && LiteralTree(l) && LiteralTree(r)
    case Wav(x) => LiteralTree(x)
  }

  function Parenthesized(ts: seq<Token>): seq<Token> {
    [Char('(')] + ts + [Char(')')]
  }

  /** An operand, in parentheses or not. */
  function Operand(x: Expr, wrap: bool): seq<Token>
    decreases x, 1
  {
    if wrap then Parenthesized(Render(x)) else Render(x)
  }

  /** The tokens of `e` with the fewest parentheses the grouping rules
      need: a left operand is parenthesized when it binds less tightly than
      the operator, a right operand when it binds no more tightly, and the
      operand of `~` when it is a binary node. */
  function Render(e: Expr): seq<Token>
    decreases e, 0
  {
    match e
    case Num(v) => [IntegerLiteral(v.Floor)]
    case Bin(op, l, r, _) =>
      Operand(l, TopBinding(l) < Binding(OpChar(op)))
      + [Char(OpChar(op))]
      + Operand(r, TopBinding(r) <= Binding(OpChar(op)))
    case Wav(x) => [Char('~')] + Operand(x, x.Bin?)
  }

  /** Pushing one operator and reducing it again at a level it reaches. */
  lemma ReduceTop(k: nat, ops0: seq<char>, nums0: seq<Expr>, c: char, operands: seq<Expr>, result: Expr)
    requires 1 <= k <= Binding(c)
    requires (c == '~' && |operands| == 1 && result == Wav(operands[0]))
          || (IsBinaryOperator(c) && |operands| == 2 && result == NewBinary(BinOpOf(c), operands[0], operands[1]))
    ensures ReduceAbove(k, ops0 + [c], nums0 + operands) == ReduceAbove(k, ops0, nums0 + [result])
  {
    var ops, nums := ops0 + [c], nums0 + operands;
    assert DropLast(ops) == ops0;
    if c == '~' {
      assert DropLast(nums) == nums0 && Last(nums) == operands[0];
    } else {
      assert nums[..|nums| - 2] == nums0 && nums[|nums| - 2] == operands[0] && Last(nums) == operands[1];
    }
  }

  /** A parenthesized tree, read where an operand is expected, leaves the
      operator stack as it was and adds the tree to the operand stack. */
  lemma {:induction false} ReadParenthesized(v: Version, e: Expr, ops0: seq<char>, nums0: seq<Expr>)
    requires LiteralTree(e) && OpsValid(ops0)
    ensures Run(v, ParseState(ops0, nums0, true), Parenthesized(Render(e))) == Ok(ParseState(ops0, nums0 + [e], false))
    decreases e, 4
  {
    var s0 := ParseState(ops0, nums0, true);
    var withParen := ops0 + ['('];
    assert OpsValid(withParen);
    assert Run(v, s0, [Char('(')]) == Ok(ParseState(withParen, nums0, true)) by {
      assert DropLast([Char('(')]) == [];
    }
    Settle(v, e, withParen, nums0);
    RunAppend(v, s0, [Char('(')], Render(e));
    var s1 := Run(v, s0, [Char('(')] + Render(e)).value;
    ReduceWhileIsAbove(')', s1.ops, s1.nums);
    assert ReduceAbove(1, withParen, nums0 + [e]) == Ok((withParen, nums0 + [e]));
    assert DropLast(withParen) == ops0;
    RunSnoc(v, s0, [Char('(')] + Render(e), Char(')'));
  }

  /** What reading an operand achieves: when it is parenthesized, exactly
      the tree pushed; when it is not, the same once reduced at the levels
      its top reaches. */
  predicate Settled(s1: ParseState, x: Expr, wrap: bool, ops0: seq<char>, nums0: seq<Expr>) {
    && !s1.expecting && OpsValid(s1.ops)
    && forall k :: 1 <= k <= 3 && (wrap || k <= TopBinding(x)) ==>
         ReduceAbove(k, s1.ops, s1.nums) == ReduceAbove(k, ops0, nums0 + [x])
  }

  lemma {:induction false} ReadOperand(v: Version, x: Expr, wrap: bool, ops0: seq<char>, nums0: seq<Expr>)
    requires LiteralTree(x) && OpsValid(ops0)
    requires !wrap ==> |ops0| == 0 || Binding(Last(ops0)) < TopBinding(x)
    ensures Run(v, ParseState(ops0, nums0, true), Operand(x, wrap)).Ok?
    ensures Settled(Run(v, ParseState(ops0, nums0, true), Operand(x, wrap)).value, x, wrap, ops0, nums0)
    decreases x, 5
  {
    if wrap {
      ReadParenthesized(v, x, ops0, nums0);
    } else {
      Settle(v, x, ops0, nums0);
    }
  }

  /** The heart of the round trip: reading the rendering of `e` where an
      operand is expected, below an operator that binds less tightly than
      `e`'s top, succeeds and leaves stacks that, once reduced at any level
      `e`'s top reaches, are the stacks with `e` pushed whole. */
  lemma {:induction false} Settle(v: Version, e: Expr, ops0: seq<char>, nums0: seq<Expr>)
    requires LiteralTree(e) && OpsValid(ops0)
    requires |ops0| == 0 || Binding(Last(ops0)) < TopBinding(e)
    ensures Run(v, ParseState(ops0, nums0, true), Render(e)).Ok?
    ensures Settled(Run(v, ParseState(ops0, nums0, true), Render(e)).value, e, false, ops0, nums0)
    decreases e, 2
  {
    match e
    case Num(x) =>
      assert DropLast(Render(e)) == [];
      assert Num(x.Floor as real) == e;
    case Wav(x) => SettleWav(v, e, ops0, nums0);
    case Bin(_, _, _, _) => SettleBin(v, e, ops0, nums0);
  }

  lemma {:induction false} SettleWav(v: Version, e: Expr, ops0: seq<char>, nums0: seq<Expr>)
    requires e.Wav? && LiteralTree(e) && OpsValid(ops0)
    ensures Run(v, ParseState(ops0, nums0, true), Render(e)).Ok?
    ensures Settled(Run(v, ParseState(ops0, nums0, true), Render(e)).value, e, false, ops0, nums0)
    decreases e, 1
  {
    var s0 := ParseState(ops0, nums0, true);
    var x := e.operand;
    var pushed := ops0 + ['~'];
    assert OpsValid(pushed) && Last(pushed) == '~';
    assert Run(v, s0, [Char('~')]) == Ok(ParseState(pushed, nums0, true)) by {
      assert DropLast([Char('~')]) == [];
    }
    RunAppend(v, s0, [Char('~')], Operand(x, x.Bin?));
    ReadOperand(v, x, x.Bin?, pushed, nums0);
    var s1 := Run(v, s0, Render(e)).value;
    forall k | 1 <= k <= 3 && k <= TopBinding(e)
      ensures ReduceAbove(k, s1.ops, s1.nums) == ReduceAbove(k, ops0, nums0 + [e])
    {
      assert ReduceAbove(k, s1.ops, s1.nums) == ReduceAbove(k, pushed, nums0 + [x]);
      ReduceTop(k, ops0, nums0, '~', [x], e);
    }
  }

  /** The left operand of a binary node followed by its operator: the
      operator's pop loop reduces the operand down to a single tree and the
      operator is pushed on the original stack. */
  lemma LeftThenOperator(v: Version, l: Expr, c: char, ops0: seq<char>, nums0: seq<Expr>)
    requires LiteralTree(l) && OpsValid(ops0) && IsBinaryOperator(c)
    requires |ops0| == 0 || Binding(Last(ops0)) < Binding(c)
    ensures Run(v, ParseState(ops0, nums0, true), Operand(l, TopBinding(l) < Binding(c)) + [Char(c)])
         == Ok(ParseState(ops0 + [c], nums0 + [l], true))
    decreases l, 6
  {
    var s0 := ParseState(ops0, nums0, true);
    var left := Operand(l, TopBinding(l) < Binding(c));
    ReadOperand(v, l, TopBinding(l) < Binding(c), ops0, nums0);
    var sl := Run(v, s0, left).value;
    assert ReduceAbove(Binding(c), sl.ops, sl.nums) == ReduceAbove(Binding(c), ops0, nums0 + [l]);
    assert ReduceAbove(Binding(c), ops0, nums0 + [l]) == Ok((ops0, nums0 + [l]));
    ReduceWhileIsAbove(c, sl.ops, sl.nums);
    RunSnoc(v, s0, left, Char(c));
  }

  lemma {:induction false} SettleBin(v: Version, e: Expr, ops0: seq<char>, nums0: seq<Expr>)
    requires e.Bin? && LiteralTree(e) && OpsValid(ops0)
    requires |ops0| == 0 || Binding(Last(ops0)) < TopBinding(e)
    ensures Run(v, ParseState(ops0, nums0, true), Render(e)).Ok?
    ensures Settled(Run(v, ParseState(ops0, nums0, true), Render(e)).value, e, false, ops0, nums0)
    decreases e, 1
  {
    var s0 := ParseState(ops0, nums0, true);
    var op, l, r := e.op, e.left, e.right;
    var c := OpChar(op);
    var k0 := Binding(c);
    var left := Operand(l, TopBinding(l) < k0);
    var right := Operand(r, TopBinding(r) <= k0);
    assert Render(e) == left + [Char(c)] + right;
    LeftThenOperator(v, l, c, ops0, nums0);
    var pushed := ops0 + [c];
    assert OpsValid(pushed) && Last(pushed) == c;
    ReadOperand(v, r, TopBinding(r) <= k0, pushed, nums0 + [l]);
    RunAppend(v, s0, left + [Char(c)], right);
    var s1 := Run(v, s0, Render(e)).value;
    assert e == NewBinary(BinOpOf(c), l, r);
    SettledBin(s1, c, l, r, e, ops0, nums0);
  }

  /** Once the right operand of `c` has settled on top of the left one,
      the stacks reduce, at every level `c` binds, as if the whole node had
      been read. */
  lemma SettledBin(s1: ParseState, c: char, l: Expr, r: Expr, e: Expr, ops0: seq<char>, nums0: seq<Expr>)
    requires IsBinaryOperator(c) && e == NewBinary(BinOpOf(c), l, r) && TopBinding(e) == Binding(c)
    requires Settled(s1, r, TopBinding(r) <= Binding(c), ops0 + [c], nums0 + [l])
    ensures Settled(s1, e, false, ops0, nums0)
  {
    forall k | 1 <= k <= 3 && k <= TopBinding(e)
      ensures ReduceAbove(k, s1.ops, s1.nums) == ReduceAbove(k, ops0, nums0 + [e])
    {
      assert nums0 + [l] + [r] == nums0 + [l, r];
      ReduceTop(k, ops0, nums0, c, [l, r], e);
    }
  }

  /** Every tree of literals is read back, unchanged, from its rendering, in
      both versions of the parser. */
  lemma RoundTrip(v: Version, e: Expr)
    requires LiteralTree(e)
    ensures Parse(v, Render(e)) == Ok(Some(e))
  {
    Settle(v, e, [], []);
    var s1 := Run(v, Initial, Render(e)).value;
    assert TopBinding(e) >= 1;
    assert Settled(s1, e, false, [], []);
    assert [] + [e] == [e];
    assert ReduceAbove(1, s1.ops, s1.nums) == ReduceAbove(1, [], [e]);
    assert ReduceAbove(1, [], [e]) == Ok(([], [e]));
    RemainingIsAbove(s1.ops, s1.nums);
  }

  /** Hence different trees never share a rendering. */
  lemma RenderInjective(e1: Expr, e2: Expr)
    requires LiteralTree(e1) && LiteralTree(e2)
    requires Render(e1) == Render(e2)
    ensures e1 == e2
  {
    RoundTrip(Interpreter8, e1);
    RoundTrip(Interpreter8, e2);
  }

  // ----- Grouping, on small inputs -----

  function Lit(n: nat): Token { IntegerLiteral(n) }

  function N(n: nat): Expr { Num(n as real) }

  /** `1+2*3` groups as `1+(2*3)`. */
  lemma ProductBindsTighter(v: Version)
    ensures Parse(v, [Lit(1), Char('+'), Lit(2), Char('*'), Lit(3)])
         == Ok(Some(Bin(Add, N(1), Bin(Mul, N(2), N(3), Double), Double)))
  {
    var e := Bin(Add, N(1), Bin(Mul, N(2), N(3), Double), Double);
    RoundTrip(v, e);
    assert Render(e) == [Lit(1), Char('+'), Lit(2), Char('*'), Lit(3)];
  }

  /** `(1+2)*3` keeps the grouping of its parentheses. */
  lemma ParenthesesGroup(v: Version)
    ensures Parse(v, [Char('('), Lit(1), Char('+'), Lit(2), Char(')'), Char('*'), Lit(3)])
         == Ok(Some(Bin(Mul, Bin(Add, N(1), N(2), Double), N(3), Double)))
  {
    var e := Bin(Mul, Bin(Add, N(1), N(2), Double), N(3), Double);
    RoundTrip(v, e);
    assert Render(e) == [Char('('), Lit(1), Char('+'), Lit(2), Char(')'), Char('*'), Lit(3)];
  }

  /** `2^3^2` groups to the left, as `(2^3)^2`. */
  lemma PowerGroupsLeft(v: Version)
    ensures Parse(v, [Lit(2), Char('^'), Lit(3), Char('^'), Lit(2)])
         == Ok(Some(Bin(Pow, Bin(Pow, N(2), N(3), Double), N(2), Double)))
  {
    var e := Bin(Pow, Bin(Pow, N(2), N(3), Double), N(2), Double);
    RoundTrip(v, e);
    assert Render(e) == [Lit(2), Char('^'), Lit(3), Char('^'), Lit(2)];
  }

  /** `~2^3` applies `~` first, as `(~2)^3`. */
  lemma WaveBindsTightest(v: Version)
    ensures Parse(v, [Char('~'), Lit(2), Char('^'), Lit(3)])
         == Ok(Some(Bin(Pow, Wav(N(2)), N(3), Double)))
  {
    var e := Bin(Pow, Wav(N(2)), N(3), Double);
    RoundTrip(v, e);
    assert Render(e) == [Char('~'), Lit(2), Char('^'), Lit(3)];
  }
}
