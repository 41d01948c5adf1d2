/** The typed expression tree of 8-interpreter/arith_expr.cpp and the
    evaluation contract of the `Expr` base class (7-interpreter/arith_expr.h).

    Each C++ node class becomes a constructor: `Num`, the five binary classes
    `AddExpr` ... `PowExpr` as `Bin` with a `BinOp`, and `WavExpr` as `Wav`. A
    binary node stores the type its C++ constructor passed to `Expr(type)`;
    `NewBinary` is that constructor. Doubles are exact reals, `pow` from
    <cmath> is a parameter, and `int` arithmetic that leaves the 32-bit range
    (undefined in C++) ends in `Undefined`. */
module ArithExpr {
  import opened Results
  import opened Numeric

  datatype Type = Int | Double

  datatype BinOp = Add | Sub | Mul | Div | Pow

  datatype Expr =
    | Num(value: real)
    | Bin(op: BinOp, left: Expr, right: Expr, ty: Type)
    | Wav(operand: Expr)

  /** `pow` from <cmath>, supplied by the caller. */
  type PowFn = (real, real) -> real

  /** `Expr::type()`: the type that was fixed when the node was built. */
  function TypeOf(e: Expr): Type {
    match e
    case Num(_) => Double
    case Bin(_, _, _, ty) => ty
    case Wav(_) => Int
  }

  /** `choose_type`: Int exactly when both operands are Int. */
  function ChooseType(left: Expr, right: Expr): (t: Type)
    ensures t == Int <==> TypeOf(left) == Int && TypeOf(right) == Int
  {
    if TypeOf(left) == Int && TypeOf(right) == Int then Int else Double
  }

  /** The constructors of AddExpr, SubExpr, MulExpr, DivExpr and PowExpr: Add,
      Sub, Mul and Div take `choose_type` of their operands, Pow is Double. */
  function NewBinary(op: BinOp, left: Expr, right: Expr): (e: Expr)
    ensures e.Bin? && e.op == op && e.left == left && e.right == right
    ensures TypeOf(e) == Int <==> op != Pow && TypeOf(left) == Int && TypeOf(right) == Int
  {
    Bin(op, left, right, if op == Pow then Double else ChooseType(left, right))
  }

  /** Every node of the tree carries the type its constructor fixes; the trees
      the parser builds are of this kind. */
  predicate WellTyped(e: Expr) {
    match e
    case Num(_) => true
    case Bin(op, l, r, ty) =>
      ty == TypeOf(NewBinary(op, l, r)) && WellTyped(l) && WellTyped(r)
    case Wav(x) => WellTyped(x)
  }

  /** A 32-bit `int` result, or undefined behaviour when it does not fit. */
  function CheckedInt(x: int): (r: Result<int>)
    ensures r.Ok? <==> InInt32(x)
    ensures r.Ok? ==> r.value == x
  {
    if InInt32(x) then Ok(x) else Err(Undefined("signed integer overflow"))
  }

  /** The protected `evaluate_as_int` of each node class. */
  function EvalAsInt(e: Expr, pow: PowFn): (r: Result<int>)
    decreases e, 0
    ensures r.Ok? ==> InInt32(r.value)
  {
    match e
    case Num(_) => Err(RuntimeError("Cannot evaluate num as int."))
    case Bin(op, left, right, _) =>
      (match op
       case Add =>
         var a :- EvalAsInt(left, pow);
         var b :- EvalAsInt(right, pow);
         CheckedInt(a + b)
       case Sub =>
         var a :- EvalAsInt(left, pow);
         var b :- EvalAsInt(right, pow);
         CheckedInt(a - b)
       case Mul =>
         var a :- EvalAsInt(left, pow);
         if a == 0 then Ok(0)
         else
           var b :- EvalAsInt(right, pow);
           CheckedInt(a * b)
       case Div =>
         var a :- EvalAsInt(left, pow);
         var b :- EvalAsInt(right, pow);
         if b == 0 then Err(RuntimeError("Divded by zero"))
         else CheckedInt(TruncDiv(a, b))
       case Pow => Err(RuntimeError("Cannot evaluate pow expression as int.")))
    case Wav(x) =>
      if TypeOf(x) == Int then EvalAsInt(x, pow)
      else
        var v :- EvalAsDouble(x, pow);
        var n := Round(v);
        if InInt32(n) then Ok(n) else Err(Undefined("double to int conversion out of range"))
  }

  /** The protected `evaluate_as_double` of each node class. */
  function EvalAsDouble(e: Expr, pow: PowFn): Result<real>
    decreases e, 0
  {
    match e
    case Num(v) => Ok(v)
    case Bin(op, left, right, _) =>
      (match op
       case Add =>
         var a :- Promote(left, pow);
         var b :- Promote(right, pow);
         Ok(a + b)
       case Sub =>
         var a :- Promote(left, pow);
         var b :- Promote(right, pow);
         Ok(a - b)
       case Mul =>
         var a :- Promote(left, pow);
         if IsZero(a) then Ok(0.0)
         else
           var b :- Promote(right, pow);
           Ok(a * b)
       case Div =>
         var a :- Promote(left, pow);
         var b :- Promote(right, pow);
         if IsZero(b) then Err(RuntimeError("Divded by zero"))
         else Ok(a / b)
       case Pow =>
         var a :- Promote(left, pow);
         var b :- Promote(right, pow);
         if a < 0.0 && !IsZero(b - Round(b) as real) then
           Err(RuntimeError("Cannot calculate non-integer power of negative value"))
         else Ok(pow(a, b)))
    case Wav(_) => Err(RuntimeError("Cannot evaluate wave expression as double."))
  }

  /** `evaluate_and_promote_to_double`: an Int node's value widened to double,
      a Double node's `evaluate_as_double`. */
  function Promote(e: Expr, pow: PowFn): Result<real>
    decreases e, 1
  {
    if TypeOf(e) == Int then
      var n :- EvalAsInt(e, pow);
      Ok(n as real)
    else EvalAsDouble(e, pow)
  }

  /** `evaluate_to_int`: only an Int node may be asked for an int. */
  function EvaluateToInt(e: Expr, pow: PowFn): (r: Result<int>)
    ensures TypeOf(e) != Int ==> r == Err(LogicError("Evaluating non-int value as int."))
    ensures TypeOf(e) == Int ==> r == EvalAsInt(e, pow)
  {
    if TypeOf(e) != Int then Err(LogicError("Evaluating non-int value as int."))
    else EvalAsInt(e, pow)
  }

  /** `evaluate_to_double`: only a Double node may be asked for a double. */
  function EvaluateToDouble(e: Expr, pow: PowFn): (r: Result<real>)
    ensures TypeOf(e) != Double ==> r == Err(LogicError("Evaluating non-double value as double."))
    ensures TypeOf(e) == Double ==> r == EvalAsDouble(e, pow)
  {
    if TypeOf(e) != Double then Err(LogicError("Evaluating non-double value as double."))
    else EvalAsDouble(e, pow)
  }

  // ----- Properties of evaluation -----

  /** The errors that a node raises when it is evaluated in the wrong mode. */
  predicate IsWrongMode(err: Error) {
    || err == RuntimeError("Cannot evaluate num as int.")
    || err == RuntimeError("Cannot evaluate pow expression as int.")
    || err == RuntimeError("Cannot evaluate wave expression as double.")
  }

  /** Evaluating `e` in its own mode, or promoting it, never reaches a
      wrong-mode error. */
  predicate NoWrongMode(e: Expr, pow: PowFn) {
    && (TypeOf(e) == Int ==> !(EvalAsInt(e, pow).Err? && IsWrongMode(EvalAsInt(e, pow).error)))
    && (TypeOf(e) == Double ==> !(EvalAsDouble(e, pow).Err? && IsWrongMode(EvalAsDouble(e, pow).error)))
    && !(Promote(e, pow).Err? && IsWrongMode(Promote(e, pow).error))
  }

  /** One binary node of `ModeSafe`, given that its operands are safe. */
  lemma BinModeSafe(op: BinOp, l: Expr, r: Expr, ty: Type, pow: PowFn)
    requires WellTyped(Bin(op, l, r, ty))
    requires NoWrongMode(l, pow) && NoWrongMode(r, pow)
    ensures NoWrongMode(Bin(op, l, r, ty), pow)
  {
    if ty == Int {
      IntNodeSafe(op, l, r, pow);
    } else {
      DoubleNodeSafe(op, l, r, pow);
    }
  }

  /** An Int node has Int operands and is not a power. */
  lemma IntNodeSafe(op: BinOp, l: Expr, r: Expr, pow: PowFn)
    requires op != Pow && TypeOf(l) == Int && TypeOf(r) == Int
    requires NoWrongMode(l, pow) && NoWrongMode(r, pow)
    ensures var v := EvalAsInt(Bin(op, l, r, Int), pow); !(v.Err? && IsWrongMode(v.error))
  {
    match op
    case Add => IntNodeSafeAdd(l, r, pow);
    case Sub => IntNodeSafeSub(l, r, pow);
    case Mul => IntNodeSafeMul(l, r, pow);
    case Div => IntNodeSafeDiv(l, r, pow);
  }

  lemma IntNodeSafeAdd(l: Expr, r: Expr, pow: PowFn)
    requires TypeOf(l) == Int && TypeOf(r) == Int
    requires NoWrongMode(l, pow) && NoWrongMode(r, pow)
    ensures var v := EvalAsInt(Bin(Add, l, r, Int), pow); !(v.Err? && IsWrongMode(v.error))
  {
  }

  lemma IntNodeSafeSub(l: Expr, r: Expr, pow: PowFn)
    requires TypeOf(l) == Int && TypeOf(r) == Int
    requires NoWrongMode(l, pow) && NoWrongMode(r, pow)
    ensures var v := EvalAsInt(Bin(Sub, l, r, Int), pow); !(v.Err? && IsWrongMode(v.error))
  {
  }

  lemma IntNodeSafeMul(l: Expr, r: Expr, pow: PowFn)
    requires TypeOf(l) == Int && TypeOf(r) == Int
    requires NoWrongMode(l, pow) && NoWrongMode(r, pow)
    ensures var v := EvalAsInt(Bin(Mul, l, r, Int), pow); !(v.Err? && IsWrongMode(v.error))
  {
  }

  lemma IntNodeSafeDiv(l: Expr, r: Expr, pow: PowFn)
    requires TypeOf(l) == Int && TypeOf(r) == Int
    requires NoWrongMode(l, pow) && NoWrongMode(r, pow)
    ensures var v := EvalAsInt(Bin(Div, l, r, Int), pow); !(v.Err? && IsWrongMode(v.error))
  {
  }

  lemma DoubleNodeSafe(op: BinOp, l: Expr, r: Expr, pow: PowFn)
    requires NoWrongMode(l, pow) && NoWrongMode(r, pow)
    ensures var v := EvalAsDouble(Bin(op, l, r, Double), pow); !(v.Err? && IsWrongMode(v.error))
  {
    match op
    case Add => DoubleNodeSafeAdd(l, r, pow);
    case Sub => DoubleNodeSafeSub(l, r, pow);
    case Mul => DoubleNodeSafeMul(l, r, pow);
    case Div => DoubleNodeSafeDiv(l, r, pow);
    case Pow => DoubleNodeSafePow(l, r, pow);
  }

  lemma DoubleNodeSafeAdd(l: Expr, r: Expr, pow: PowFn)
    requires NoWrongMode(l, pow) && NoWrongMode(r, pow)
    ensures var v := EvalAsDouble(Bin(Add, l, r, Double), pow); !(v.Err? && IsWrongMode(v.error))
  {
  }

  lemma DoubleNodeSafeSub(l: Expr, r: Expr, pow: PowFn)
    requires NoWrongMode(l, pow) && NoWrongMode(r, pow)
    ensures var v := EvalAsDouble(Bin(Sub, l, r, Double), pow); !(v.Err? && IsWrongMode(v.error))
  {
  }

  lemma DoubleNodeSafeMul(l: Expr, r: Expr, pow: PowFn)
    requires NoWrongMode(l, pow) && NoWrongMode(r, pow)
    ensures var v := EvalAsDouble(Bin(Mul, l, r, Double), pow); !(v.Err? && IsWrongMode(v.error))
  {
  }

  lemma DoubleNodeSafeDiv(l: Expr, r: Expr, pow: PowFn)
    requires NoWrongMode(l, pow) && NoWrongMode(r, pow)
    ensures var v := EvalAsDouble(Bin(Div, l, r, Double), pow); !(v.Err? && IsWrongMode(v.error))
  {
  }

  lemma DoubleNodeSafePow(l: Expr, r: Expr, pow: PowFn)
    requires NoWrongMode(l, pow) && NoWrongMode(r, pow)
    ensures var v := EvalAsDouble(Bin(Pow, l, r, Double), pow); !(v.Err? && IsWrongMode(v.error))
  {
  }

  /** The type recorded in a well-typed tree is the type evaluation produces:
      evaluating a node in its own mode (or promoting it) never reaches a
      wrong-mode error anywhere below it. */
  lemma {:induction false} ModeSafe(e: Expr, pow: PowFn)
    requires WellTyped(e)
    ensures NoWrongMode(e, pow)
  {
    match e
    case Num(_) =>
    case Bin(op, l, r, ty) =>
      ModeSafe(l, pow);
      ModeSafe(r, pow);
      BinModeSafe(op, l, r, ty, pow);
    case Wav(x) =>
      ModeSafe(x, pow);
  }

  predicate RuntimeKind(err: Error) {
    err.RuntimeError? || err.Undefined?
  }

  /** Every evaluation mode of `e` fails, if at all, with a runtime kind. */
  predicate ErrorsAreRuntime(e: Expr, pow: PowFn) {
    && (EvalAsInt(e, pow).Err? ==> RuntimeKind(EvalAsInt(e, pow).error))
    && (EvalAsDouble(e, pow).Err? ==> RuntimeKind(EvalAsDouble(e, pow).error))
    && (Promote(e, pow).Err? ==> RuntimeKind(Promote(e, pow).error))
  }

  lemma BinErrorsAreRuntime(op: BinOp, l: Expr, r: Expr, ty: Type, pow: PowFn)
    requires ErrorsAreRuntime(l, pow) && ErrorsAreRuntime(r, pow)
    ensures ErrorsAreRuntime(Bin(op, l, r, ty), pow)
  {
    IntNodeRuntime(op, l, r, ty, pow);
    DoubleNodeRuntime(op, l, r, ty, pow);
  }

  lemma IntNodeRuntime(op: BinOp, l: Expr, r: Expr, ty: Type, pow: PowFn)
    requires ErrorsAreRuntime(l, pow) && ErrorsAreRuntime(r, pow)
    ensures var v := EvalAsInt(Bin(op, l, r, ty), pow); v.Err? ==> RuntimeKind(v.error)
  {
    match op
    case Add => IntNodeRuntimeAdd(l, r, ty, pow);
    case Sub => IntNodeRuntimeSub(l, r, ty, pow);
    case Mul => IntNodeRuntimeMul(l, r, ty, pow);
    case Div => IntNodeRuntimeDiv(l, r, ty, pow);
    case Pow => IntNodeRuntimePow(l, r, ty, pow);
  }

  lemma IntNodeRuntimeAdd(l: Expr, r: Expr, ty: Type, pow: PowFn)
    requires ErrorsAreRuntime(l, pow) && ErrorsAreRuntime(r, pow)
    ensures var v := EvalAsInt(Bin(Add, l, r, ty), pow); v.Err? ==> RuntimeKind(v.error)
  {
  }

  lemma IntNodeRuntimeSub(l: Expr, r: Expr, ty: Type, pow: PowFn)
    requires ErrorsAreRuntime(l, pow) && ErrorsAreRuntime(r, pow)
    ensures var v := EvalAsInt(Bin(Sub, l, r, ty), pow); v.Err? ==> RuntimeKind(v.error)
  {
  }

  lemma IntNodeRuntimeMul(l: Expr, r: Expr, ty: Type, pow: PowFn)
    requires ErrorsAreRuntime(l, pow) && ErrorsAreRuntime(r, pow)
    ensures var v := EvalAsInt(Bin(Mul, l, r, ty), pow); v.Err? ==> RuntimeKind(v.error)
  {
  }

  lemma IntNodeRuntimeDiv(l: Expr, r: Expr, ty: Type, pow: PowFn)
    requires ErrorsAreRuntime(l, pow) && ErrorsAreRuntime(r, pow)
    ensures var v := EvalAsInt(Bin(Div, l, r, ty), pow); v.Err? ==> RuntimeKind(v.error)
  {
  }

  lemma IntNodeRuntimePow(l: Expr, r: Expr, ty: Type, pow: PowFn)
    ensures var v := EvalAsInt(Bin(Pow, l, r, ty), pow); v.Err? ==> RuntimeKind(v.error)
  {
  }

  lemma DoubleNodeRuntime(op: BinOp, l: Expr, r: Expr, ty: Type, pow: PowFn)
    requires ErrorsAreRuntime(l, pow) && ErrorsAreRuntime(r, pow)
    ensures var v := EvalAsDouble(Bin(op, l, r, ty), pow); v.Err? ==> RuntimeKind(v.error)
  {
    match op
    case Add => DoubleNodeRuntimeAdd(l, r, ty, pow);
    case Sub => DoubleNodeRuntimeSub(l, r, ty, pow);
    case Mul => DoubleNodeRuntimeMul(l, r, ty, pow);
    case Div => DoubleNodeRuntimeDiv(l, r, ty, pow);
    case Pow => DoubleNodeRuntimePow(l, r, ty, pow);
  }

  lemma DoubleNodeRuntimeAdd(l: Expr, r: Expr, ty: Type, pow: PowFn)
    requires ErrorsAreRuntime(l, pow) && ErrorsAreRuntime(r, pow)
    ensures var v := EvalAsDouble(Bin(Add, l, r, ty), pow); v.Err? ==> RuntimeKind(v.error)
  {
  }

  lemma DoubleNodeRuntimeSub(l: Expr, r: Expr, ty: Type, pow: PowFn)
    requires ErrorsAreRuntime(l, pow) && ErrorsAreRuntime(r, pow)
    ensures var v := EvalAsDouble(Bin(Sub, l, r, ty), pow); v.Err? ==> RuntimeKind(v.error)
  {
  }

  lemma DoubleNodeRuntimeMul(l: Expr, r: Expr, ty: Type, pow: PowFn)
    requires ErrorsAreRuntime(l, pow) && ErrorsAreRuntime(r, pow)
    ensures var v := EvalAsDouble(Bin(Mul, l, r, ty), pow); v.Err? ==> RuntimeKind(v.error)
  {
  }

  lemma DoubleNodeRuntimeDiv(l: Expr, r: Expr, ty: Type, pow: PowFn)
    requires ErrorsAreRuntime(l, pow) && ErrorsAreRuntime(r, pow)
    ensures var v := EvalAsDouble(Bin(Div, l, r, ty), pow); v.Err? ==> RuntimeKind(v.error)
  {
  }

  lemma DoubleNodeRuntimePow(l: Expr, r: Expr, ty: Type, pow: PowFn)
    requires ErrorsAreRuntime(l, pow) && ErrorsAreRuntime(r, pow)
    ensures var v := EvalAsDouble(Bin(Pow, l, r, ty), pow); v.Err? ==> RuntimeKind(v.error)
  {
  }

  /** Evaluation itself fails only with a RuntimeError (division by zero, a
      negative base, a wrong mode) or at undefined behaviour; logic_error
      comes only from the public wrappers' type check. */
  lemma {:induction false} EvaluationErrors(e: Expr, pow: PowFn)
    ensures ErrorsAreRuntime(e, pow)
  {
    match e
    case Num(_) =>
    case Bin(op, l, r, ty) =>
      EvaluationErrors(l, pow);
      EvaluationErrors(r, pow);
      BinErrorsAreRuntime(op, l, r, ty, pow);
    case Wav(x) =>
      EvaluationErrors(x, pow);
  }

  /** Public evaluation in the node's own mode never raises logic_error. */
  lemma TypedEvaluationAccepted(e: Expr, pow: PowFn)
    ensures TypeOf(e) == Int ==> EvaluateToInt(e, pow) == EvalAsInt(e, pow)
    ensures TypeOf(e) == Double ==> EvaluateToDouble(e, pow) == EvalAsDouble(e, pow)
    ensures TypeOf(e) == Int ==> Promote(e, pow) == (if EvalAsInt(e, pow).Ok? then Ok(EvalAsInt(e, pow).value as real) else Err(EvalAsInt(e, pow).error))
    ensures TypeOf(e) == Double ==> Promote(e, pow) == EvalAsDouble(e, pow)
  {
  }

  /** Mul short-circuits in both modes: a zero left operand (exactly zero as
      int, within epsilon of zero as double) gives 0 and the right operand is
      never evaluated, so whatever it is, even a failing one, has no effect. */
  lemma MulShortCircuit(left: Expr, right1: Expr, right2: Expr, ty: Type, pow: PowFn)
    ensures EvalAsInt(left, pow) == Ok(0) ==>
      EvalAsInt(Bin(Mul, left, right1, ty), pow) == EvalAsInt(Bin(Mul, left, right2, ty), pow) == Ok(0)
    ensures Promote(left, pow).Ok? && IsZero(Promote(left, pow).value) ==>
      EvalAsDouble(Bin(Mul, left, right1, ty), pow) == EvalAsDouble(Bin(Mul, left, right2, ty), pow) == Ok(0.0)
  {
  }

  /** Div evaluates both operands, left first, and only then rejects a zero
      (int) or near-zero (double) divisor; an int quotient truncates toward
      zero, as C++ `/` does, and must fit in 32 bits. */
  lemma DivByZero(left: Expr, right: Expr, ty: Type, pow: PowFn)
    ensures EvalAsInt(left, pow).Err? ==>
      EvalAsInt(Bin(Div, left, right, ty), pow) == EvalAsInt(left, pow)
    ensures EvalAsInt(left, pow).Ok? && EvalAsInt(right, pow).Err? ==>
      EvalAsInt(Bin(Div, left, right, ty), pow) == EvalAsInt(right, pow)
    ensures EvalAsInt(left, pow).Ok? && EvalAsInt(right, pow) == Ok(0) ==>
      EvalAsInt(Bin(Div, left, right, ty), pow) == Err(RuntimeError("Divded by zero"))
    ensures EvalAsInt(left, pow).Ok? && EvalAsInt(right, pow).Ok? && EvalAsInt(right, pow).value != 0 ==>
      EvalAsInt(Bin(Div, left, right, ty), pow) == CheckedInt(TruncDiv(EvalAsInt(left, pow).value, EvalAsInt(right, pow).value))
    ensures Promote(left, pow).Err? ==>
      EvalAsDouble(Bin(Div, left, right, ty), pow) == Promote(left, pow)
    ensures Promote(left, pow).Ok? && Promote(right, pow).Err? ==>
      EvalAsDouble(Bin(Div, left, right, ty), pow) == Promote(right, pow)
    ensures Promote(left, pow).Ok? && Promote(right, pow).Ok? && IsZero(Promote(right, pow).value) ==>
      EvalAsDouble(Bin(Div, left, right, ty), pow) == Err(RuntimeError("Divded by zero"))
    ensures Promote(left, pow).Ok? && Promote(right, pow).Ok? && !IsZero(Promote(right, pow).value) ==>
      EvalAsDouble(Bin(Div, left, right, ty), pow) == Ok(Promote(left, pow).value / Promote(right, pow).value)
  {
  }

  /** Pow is refused exactly for a negative base whose exponent is not within
      epsilon of an integer; otherwise it is `pow` of the promoted operands. */
  lemma PowDomain(left: Expr, right: Expr, ty: Type, pow: PowFn)
    requires Promote(left, pow).Ok? && Promote(right, pow).Ok?
    ensures var a, b := Promote(left, pow).value, Promote(right, pow).value;
      EvalAsDouble(Bin(Pow, left, right, ty), pow) ==
        if a < 0.0 && !IsZero(b - Round(b) as real)
        then Err(RuntimeError("Cannot calculate non-integer power of negative value"))
        else Ok(pow(a, b))
  {
  }

  /** `~` passes an Int operand through unchanged and rounds a Double one. */
  lemma WavValue(x: Expr, pow: PowFn)
    ensures TypeOf(x) == Int ==> EvalAsInt(Wav(x), pow) == EvalAsInt(x, pow)
    ensures TypeOf(x) == Double && EvalAsDouble(x, pow).Ok? && InInt32(Round(EvalAsDouble(x, pow).value)) ==>
      EvalAsInt(Wav(x), pow) == Ok(Round(EvalAsDouble(x, pow).value))
  {
  }

  /** Asking Num or Pow for an int, or Wav for a double, is a RuntimeError. */
  lemma WrongModeRejected(v: real, l: Expr, r: Expr, ty: Type, x: Expr, pow: PowFn)
    ensures EvalAsInt(Num(v), pow) == Err(RuntimeError("Cannot evaluate num as int."))
    ensures EvalAsInt(Bin(Pow, l, r, ty), pow) == Err(RuntimeError("Cannot evaluate pow expression as int."))
    ensures EvalAsDouble(Wav(x), pow) == Err(RuntimeError("Cannot evaluate wave expression as double."))
  {
  }
}
