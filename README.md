# A verified model of the plain interpreter

This project models, in Dafny, the core of the last interpreter of the
"plain interpreter guide" series and two smaller relatives:

- the typed expression tree of `8-interpreter/arith_expr.cpp` (nodes `Num`,
  `Add`, `Sub`, `Mul`, `Div`, `Pow`, `Wav`) with the evaluation contract of
  the `Expr` base class in `7-interpreter/arith_expr.h`;
- the operator-precedence expression builder `parse_arith_expr` /
  `process_last_operator` over the global operator and operand stacks, in its
  8-interpreter form and in the 7-interpreter form without identifiers;
- the variable cell of `8-interpreter/variable.h`;
- the program layer of `8-interpreter/interpreter.h` and `interpreter.cpp`:
  the variable map, the statement list, `Program::run`, `Assignment::run`,
  `PrintStatement::run` and the token-driven `parse_program`;
- the character-level line calculator of `5-midterm-project/advanced.cpp`.

Files:

| file | module | contents |
|---|---|---|
| `results.dfy` | `Results` | the error kinds (`CompilingError`, `RuntimeError`, `std::logic_error`, and `Undefined` for C++ undefined behaviour), `Option`, `Result`, `Outcome` |
| `numeric.dfy` | `Numeric` | the 32-bit `int` range, truncating `/`, `round`, truncation of a double, `is_zero` |
| `lexer.dfy` | `Lexer` | the token kinds of `8-interpreter/lexer.h` |
| `arith_expr.dfy` | `ArithExpr` | the typed tree, `choose_type`, the two evaluation modes and the public wrappers |
| `arith_parser.dfy` | `ArithParser` | `parse_arith_expr` as a state machine (`Step`, `Run`, `Finish`, `Parse`), the stack invariant, and the class `ExprBuilder` proved to compute `Parse` |
| `parser_round_trip.dfy` | `ParserRoundTrip` | precedence and associativity: every tree read back from its minimal-parenthesis rendering |
| `variable.dfy` | `Variables` | the class `Variable` |
| `interpreter.dfy` | `Interpreter` | statements, the class `Program`, `Execute`, `parse_program` |
| `midterm.dfy` | `Midterm` | the line calculator: its tree, its character loop as a function and as the class `Calculator`, and the corrected line reset |

Modelling conventions:

- A C++ `double` is an exact `real`. `pow` from `<cmath>` is a function
  parameter `pow: PowFn`. `round`, truncation and `is_zero` (the band
  `(-2^-52, 2^-52)`) are defined exactly on reals.
- A C++ `int` is a Dafny `int` kept within the 32-bit range. Arithmetic that
  leaves the range, a double-to-int conversion out of range, and `back()` of
  an empty stack are undefined behaviour in C++. They end the model in
  `Err(Undefined(..))`. The theorems show that the 7-interpreter parser, the
  8-interpreter parser on identifier-free input, and the calculator never
  reach `back()` of an empty stack; a lone identifier does reach it in the
  8-interpreter parser.
- An exception is an `Err` value carrying the exception class and its fixed
  message. Where the source formats a token, a line or a column into the
  message, the model keeps only the fixed text.
- The global stacks, the `Program` and the `Variable` cells are classes with
  fields. Each method is proved against a specification function over values
  (`Reduce`, `Step`, `Parse`, `Execute`, `StepChar`, `Process`), and the
  properties are proved about those functions.

Where the code and its evident intent differ, the model follows the code:

- An integer literal builds a `Num`, and `Num` is always `Double`. `Int` arises
  only from `~` (and from variables, whose tree node is a stub).
- `Variable::reset` sets `initialized` to true. After `Program::run` has reset
  the cells, every cell counts as initialized, assigned or not
  (`Interpreter.RunInitializesAll`).
- In `Assignment::run` an Int variable with a Double expression has no
  `break`. It evaluates the expression, converts it to `int`, then falls into
  the `default` branch and throws `logic_error("Unknown expr value type 0")`.
- `State state;` in `parse_program` has no initial value. The model starts in
  `Start` (`Interpreter.InitialConfig`).
- `parse_arith_expr` returns no tree, rather than an error, when the
  expression holds only `(` and `~` tokens (including the empty expression).
- `^` groups to the left, like the other binary operators.
- The identifier case of `parse_arith_expr` (8-interpreter) flips the flag but
  pushes nothing. A lone identifier therefore reaches `back()` of an empty
  operand stack.
- The identifier branch of `parse_program` is empty, so the states
  Initialize and Assign are never entered. Every program that parses is a
  list of print statements, `int x = 1;` is refused at the `=`, and a `;`
  on its own is a `logic_error`.

## Model

| member | source | states |
|---|---|---|
| Numeric.TruncDiv | 8-interpreter/arith_expr.cpp:146-153 | the C++ quotient: the remainder is smaller than the divisor and never has the opposite sign of the dividend |
| Numeric.Round | 8-interpreter/arith_expr.cpp:194-199 | `round`: the nearest integer, halfway cases away from zero |
| Numeric.Trunc | 8-interpreter/interpreter.cpp:77-79 | the conversion of a double to `int` truncates toward zero |
| ArithExpr.ChooseType | 8-interpreter/arith_expr.cpp:65-71 | `choose_type` is Int iff both operands are Int |
| ArithExpr.NewBinary | 8-interpreter/arith_expr.cpp:78-79 | a binary node keeps its operator and operands in order; Add, Sub, Mul, Div are Int iff both children are Int, Pow (170-171) is never Int |
| ArithExpr.CheckedInt | 8-interpreter/arith_expr.cpp:82-84 | an `int` result is defined exactly when it fits in 32 bits |
| ArithExpr.EvalAsInt | 8-interpreter/arith_expr.cpp:80-204 | every int an evaluation returns is within the 32-bit range |
| ArithExpr.EvaluateToInt | 7-interpreter/arith_expr.h:36-41 | `evaluate_to_int` throws logic_error unless the node is Int, and is `evaluate_as_int` otherwise |
| ArithExpr.EvaluateToDouble | 7-interpreter/arith_expr.h:29-34 | `evaluate_to_double` throws logic_error unless the node is Double, and is `evaluate_as_double` otherwise |
| ArithExpr.TypedEvaluationAccepted | 7-interpreter/arith_expr.h:16-41 | in the node's own type the wrappers never throw logic_error; promotion widens an Int node's value and is `evaluate_as_double` on a Double node |
| ArithExpr.ModeSafe | 8-interpreter/arith_expr.cpp:65-204 | in a tree whose node types are those the constructors fix, evaluation in the node's own mode never reaches a wrong-mode error anywhere below it |
| ArithExpr.EvaluationErrors | 8-interpreter/arith_expr.cpp:26-204 | evaluation fails only with RuntimeError (or undefined behaviour), never with logic_error |
| ArithExpr.BinErrorsAreRuntime | 8-interpreter/arith_expr.cpp:73-186 | a binary node fails only with the runtime kinds its operands fail with, or its own RuntimeError |
| ArithExpr.MulShortCircuit | 8-interpreter/arith_expr.cpp:120-134 | a zero left operand (exact as int, within epsilon as double) gives 0 whatever the right operand, even a failing one |
| ArithExpr.DivByZero | 8-interpreter/arith_expr.cpp:146-162 | Div evaluates left then right, propagating their errors in both modes, then throws "Divded by zero" for a zero (or near-zero) divisor; otherwise an int quotient is the truncating `TruncDiv`, range-checked to 32 bits, and a double quotient is the exact real quotient |
| ArithExpr.PowDomain | 8-interpreter/arith_expr.cpp:177-185 | Pow throws exactly for a negative base whose exponent is not within epsilon of an integer, and is `pow` otherwise |
| ArithExpr.WavValue | 8-interpreter/arith_expr.cpp:194-199 | `~` passes an Int operand through unchanged and rounds a Double one |
| ArithExpr.WrongModeRejected | 8-interpreter/arith_expr.cpp:33-35 | Num and Pow (173-175) asked for an int, and Wav (201-203) asked for a double, throw RuntimeError |
| ArithParser.Reduce | 8-interpreter/arith_expr.cpp:212-257 | `process_last_operator` pops one operator: `~` wraps the top operand, a binary operator pops right then left and pushes the node in left-right order; nothing else changes; it fails only on a missing operand or an unknown operator |
| ArithParser.ExprEnd | 8-interpreter/arith_expr.cpp:275 | the token loop stops at the first `;` or end of input |
| ArithParser.AfterExpr | 8-interpreter/arith_expr.cpp:275 | a `;` that ends the expression is consumed, end of input is not |
| ArithParser.ReduceBalanced | 8-interpreter/arith_expr.cpp:212-257 | with one operand per binary operator plus one, a reduction never under-runs the operand stack and keeps that count |
| ArithParser.ReduceWhileBalanced | 8-interpreter/arith_expr.cpp:319-347 | each pop loop succeeds, keeps the count, pops only the top of the operator stack and stops at an operator it does not pop |
| ArithParser.PushOperator | 8-interpreter/arith_expr.cpp:314-347 | pushing an operator adds one to the binary count exactly for a binary operator |
| ArithParser.LiteralBalanced | 8-interpreter/arith_expr.cpp:299-301 | a literal pushed where an operand is expected keeps the stack invariant |
| ArithParser.OperatorBalanced | 8-interpreter/arith_expr.cpp:319-347 | a binary operator read where one is expected keeps the stack invariant |
| ArithParser.CloseBalanced | 8-interpreter/arith_expr.cpp:348-358 | `)` keeps the stack invariant or reports the unmatched parenthesis |
| ArithParser.OpenBalanced | 8-interpreter/arith_expr.cpp:314-318 | `(` and `~` keep the stack invariant |
| ArithParser.StepBalanced | 8-interpreter/arith_expr.cpp:286-364 | every token keeps the invariant (operands = binary operators + 1 when an operator is expected) or fails with a CompilingError |
| ArithParser.RunBalanced | 8-interpreter/arith_expr.cpp:275-366 | the whole token loop keeps the invariant and fails only with a CompilingError |
| ArithParser.ReduceRemainingBalanced | 8-interpreter/arith_expr.cpp:374-389 | the closing loop leaves exactly one well-typed operand or reports a leftover `(` |
| ArithParser.ParseSound | 8-interpreter/arith_expr.cpp:271-390 | on identifier-free input `parse_arith_expr` fails only with CompilingError and a returned tree is well-typed |
| ArithParser.IdentifierStubUnderruns | 8-interpreter/arith_expr.cpp:302-313 | a lone identifier under-runs the operand stack in 8-interpreter; fed to the 7-interpreter loop, whose lexer has no identifier kind, such a token fails the alternation check of 7-interpreter/arith_expr.cpp:245-253 |
| ArithParser.VersionsAgree | 7-interpreter/arith_expr.cpp:240-333 | on identifier-free input the 7-interpreter and 8-interpreter token loops agree |
| ArithParser.ReduceWhileKeepsOperand | 8-interpreter/arith_expr.cpp:319-347 | a reduction that succeeds never empties a non-empty operand stack |
| ArithParser.EmptyOperandsIff | 8-interpreter/arith_expr.cpp:286-364 | the operand stack is empty exactly while only `(` and `~` were read, and then an operand is expected |
| ArithParser.ParseNullIff | 8-interpreter/arith_expr.cpp:368-372 | no tree is returned iff the expression holds only `(` and `~` |
| ArithParser.OnlyOpenersRun | 8-interpreter/arith_expr.cpp:314-318 | `(` and `~` alone are always accepted by the token loop |
| ArithParser.RightParenUnmatched | 8-interpreter/arith_expr.cpp:348-358 | `1)` reports an unmatched right parenthesis |
| ArithParser.LeftParenLeftover | 8-interpreter/arith_expr.cpp:374-383 | `(1` reports an unmatched left parenthesis |
| ArithParser.RunErrorSticks | 8-interpreter/arith_expr.cpp:275-366 | after a failure no later token is read |
| ArithParser.RunSnoc | 8-interpreter/arith_expr.cpp:275-366 | one more token is one more step of the loop |
| ArithParser.ParseStopsAt | 8-interpreter/arith_expr.cpp:275-366 | the first failing token decides the result |
| ArithParser.ExprBuilder.constructor | 8-interpreter/arith_expr.cpp:206-207 | the global stacks start empty |
| ArithParser.ExprBuilder.ProcessLastOperator | 8-interpreter/arith_expr.cpp:212-257 | the stacks become those `Reduce` gives |
| ArithParser.ExprBuilder.PopWhile | 8-interpreter/arith_expr.cpp:319-347 | a pop loop leaves the stacks `ReduceWhile` gives |
| ArithParser.ExprBuilder.StepToken | 8-interpreter/arith_expr.cpp:286-364 | one loop iteration does what `Step` does, on the stacks |
| ArithParser.ExprBuilder.ScanTokens | 8-interpreter/arith_expr.cpp:275-366 | the token loop over the global stacks computes `Run` and stops where it does |
| ArithParser.ExprBuilder.FinishStacks | 8-interpreter/arith_expr.cpp:368-389 | the code after the loop computes `Finish` |
| ArithParser.ExprBuilder.ParseArithExpr | 8-interpreter/arith_expr.cpp:263-390 | `parse_arith_expr` returns `Parse` of the tokens up to the terminator, resumes after it, and leaves both stacks empty on every exit (`stack_releaser`) |
| ParserRoundTrip.OpChar | 8-interpreter/arith_expr.cpp:228-245 | each binary node kind has an operator character that builds it |
| ParserRoundTrip.ReduceWhileIsAbove | 8-interpreter/arith_expr.cpp:319-358 | each of the four pop loops reduces exactly the operators binding at least as tightly as the incoming one |
| ParserRoundTrip.RemainingIsAbove | 8-interpreter/arith_expr.cpp:374-389 | the closing loop is the loosest such reduction |
| ParserRoundTrip.RunAppend | 8-interpreter/arith_expr.cpp:275-366 | the token loop over `xs + ys` is the loop over `ys` after the loop over `xs` |
| ParserRoundTrip.RoundTrip | 8-interpreter/arith_expr.cpp:271-390 | every tree of literals, `+ - * / ^ ~`, is parsed back unchanged from its rendering with minimal parentheses, in both versions: `~` binds tightest and every binary operator groups to the left |
| ParserRoundTrip.RenderInjective | 8-interpreter/arith_expr.cpp:271-390 | different trees never share a rendering |
| ParserRoundTrip.ProductBindsTighter | 8-interpreter/arith_expr.cpp:327-347 | `1+2*3` is `1+(2*3)` |
| ParserRoundTrip.ParenthesesGroup | 8-interpreter/arith_expr.cpp:348-358 | `(1+2)*3` keeps its grouping |
| ParserRoundTrip.PowerGroupsLeft | 8-interpreter/arith_expr.cpp:319-326 | `2^3^2` is `(2^3)^2` |
| ParserRoundTrip.WaveBindsTightest | 8-interpreter/arith_expr.cpp:314-326 | `~2^3` is `(~2)^3` |
| Variables.Variable.constructor | 8-interpreter/variable.h:13 | a new cell has the given type, which is const, and is not initialized |
| Variables.Variable.AssignDouble | 8-interpreter/variable.h:19-24 | refused with logic_error and no change for a non-Double cell, otherwise only the double value changes (the flag is untouched) |
| Variables.Variable.AssignInt | 8-interpreter/variable.h:26-31 | refused with logic_error and no change for a non-Int cell, otherwise only the int value changes (the flag is untouched) |
| Variables.Variable.Reset | 8-interpreter/variable.h:33-35 | `reset` sets `initialized` and changes nothing else |
| Variables.Variable.IntVal | 8-interpreter/variable.h:37-45 | succeeds iff the cell is initialized and Int, with the stored int; the two error messages otherwise |
| Variables.Variable.DoubleVal | 8-interpreter/variable.h:47-55 | succeeds iff the cell is initialized and Double, with the stored double; the two error messages otherwise |
| Variables.AssignThenRead | 8-interpreter/variable.h:19-45 | an Int cell reads back the last int assigned, whatever a refused double assignment tried |
| Interpreter.PrintValue | 8-interpreter/interpreter.cpp:102-108 | an Int expression prints `evaluate_to_int`, any other `evaluate_to_double`; errors are runtime kinds only |
| Interpreter.AssignmentEffect | 8-interpreter/interpreter.cpp:67-100 | a Double cell stores the promoted value; an Int cell stores an Int expression's value; a Double expression for an Int cell always fails, with "Unknown expr value type 0" once its value converts; the flag never changes |
| Interpreter.RunAssignment | 8-interpreter/interpreter.cpp:67-100 | the bound target cell, and nothing else, takes the state `AssignmentEffect` gives, or keeps its state when the statement throws |
| Interpreter.ResetAll | 8-interpreter/interpreter.cpp:58-61 | every cell is kept, marked initialized, with its value unchanged |
| Interpreter.Execute | 8-interpreter/interpreter.cpp:62-64 | running statements never adds or drops a cell |
| Interpreter.ExecuteFailureSticks | 8-interpreter/interpreter.cpp:62-64 | an exception aborts the remaining statements |
| Interpreter.OutputsIgnoreStore | 8-interpreter/interpreter.cpp:62-64 | the outputs and the outcome of a run do not depend on the cells, since no expression reads a variable |
| Interpreter.RunInitializesAll | 8-interpreter/interpreter.cpp:58-65 | after a run every cell counts as initialized |
| Interpreter.UntargetedCellsKept | 8-interpreter/interpreter.cpp:62-100 | a cell no assignment targets keeps its state |
| Interpreter.Program.constructor | 8-interpreter/interpreter.h:14-26 | a program starts with an empty variable map and no statements, so it is valid (every assignment targets one of its cells) |
| Interpreter.Program.LookupVariable | 8-interpreter/interpreter.cpp:13-25 | the stored cell itself iff the name is in the map, a CompilingError otherwise |
| Interpreter.Program.AppendStatement | 8-interpreter/interpreter.cpp:54-56 | the statement goes at the end, the map is unchanged, and validity is kept when an appended assignment targets a cell of the map |
| Interpreter.Program.ResetCells | 8-interpreter/interpreter.cpp:58-61 | the first loop of `run` resets every cell of the map |
| Interpreter.Program.Run | 8-interpreter/interpreter.cpp:58-65 | `run` resets every cell, then runs the statements in order until one throws: outputs, outcome and cells are those of `Execute` on the reset cells; the statement list is unchanged |
| Interpreter.Program.RunStatement | 8-interpreter/interpreter.cpp:67-108 | one statement does what `ExecuteStatement` gives, on the cells of the map |
| Interpreter.ParseProgram | 8-interpreter/interpreter.cpp:118-245 | `parse_program` returns a fresh program whose statements are those `ParseProgramSpec` gives, or that function's error; no variable is created, and the program is valid, so `run` may follow |
| Interpreter.ParseStatements | 8-interpreter/interpreter.cpp:120-243 | the statement loop appends to the program exactly the statements `ParseProgramFrom` gives from the start state, or stops with its error, and leaves the variable map as it was |
| Interpreter.ParseStatementAt | 8-interpreter/interpreter.cpp:125-242 | one pass of the loop's switch either fails with the error `ParseProgramFrom` gives at that token, or moves strictly forward to a position and state from which `ParseProgramFrom` gives the same result as before, with the statement (if any) appended |
| Interpreter.OnlyPrintsParsed | 8-interpreter/interpreter.cpp:154-207 | from Start or TypeDecl every statement the loop appends is a print |
| Interpreter.ParsedProgramsOnlyPrint | 8-interpreter/interpreter.cpp:118-245 | every program that parses consists of print statements |
| Interpreter.KeywordOnlyAtStart | 8-interpreter/interpreter.cpp:126-153 | `int`, `double` and `print` outside Start are CompilingErrors |
| Interpreter.DeclarationStubs | 8-interpreter/interpreter.cpp:154-207 | `int x = 1;` is refused at the `=`; `int x` is accepted and declares nothing |
| Interpreter.PrintStatements | 8-interpreter/interpreter.cpp:208-240 | `print 1;` gives one print statement, `print;` is refused, a stray `;` is a logic_error, an error lexeme a CompilingError |
| Midterm.Evaluate | 5-midterm-project/advanced.cpp:28-114 | evaluation throws only overflow_error "Divded by zero" or range_error for a negative base with a non-integer exponent |
| Midterm.AgreesWithTypedEvaluator | 5-midterm-project/advanced.cpp:28-105 | without `~`, the calculator's evaluation equals the 8-interpreter's double evaluation of the same tree |
| Midterm.BinaryAgrees | 5-midterm-project/advanced.cpp:38-105 | one binary node of that agreement |
| Midterm.MulShortCircuit | 5-midterm-project/advanced.cpp:60-73 | a zero left operand gives 0 whatever the right operand |
| Midterm.CalcReduce | 5-midterm-project/advanced.cpp:122-165 | `process_last_operator` pops one operator and builds its node in left-right order; nothing else changes; it fails only at undefined behaviour |
| Midterm.DigitValue | 5-midterm-project/advanced.cpp:193-199 | a digit's value is between 0 and 9 |
| Midterm.CalcReduceKeeps | 5-midterm-project/advanced.cpp:122-165 | with one operand per binary operator plus one, a reduction never under-runs and keeps that count |
| Midterm.CalcReduceWhileKeeps | 5-midterm-project/advanced.cpp:223-274 | each pop loop succeeds and keeps the count |
| Midterm.ReduceAllKeeps | 5-midterm-project/advanced.cpp:288-306 | the newline reduction never under-runs, and without a `(` exactly one tree remains |
| Midterm.OperatorKeeps | 5-midterm-project/advanced.cpp:200-274 | every operator character outside error mode keeps the calculator's invariant |
| Midterm.NewlineReports | 5-midterm-project/advanced.cpp:275-314 | outside error mode a newline prints exactly one line and empties both stacks; the "no input" branch is never taken |
| Midterm.StepKeeps | 5-midterm-project/advanced.cpp:185-318 | every character keeps the invariant and avoids undefined behaviour |
| Midterm.ProcessKeeps | 5-midterm-project/advanced.cpp:179-320 | the whole character loop keeps the invariant and avoids undefined behaviour |
| Midterm.NeverUndefined | 5-midterm-project/advanced.cpp:179-320 | from the initial state, no input reaches `back()` of an empty stack |
| Midterm.ErrorModeSilent | 5-midterm-project/advanced.cpp:185-192 | in error mode nothing is printed, everything but a newline is skipped, and the newline leaves error mode with the operator stack cleared |
| Midterm.ProcessFirst | 5-midterm-project/advanced.cpp:184-319 | the loop reads the first character, then the rest |
| Midterm.ProcessEnd | 5-midterm-project/advanced.cpp:184-319 | at end of input the state is final |
| Midterm.DigitStep | 5-midterm-project/advanced.cpp:193-199 | a digit not after `)` accumulates as `operand*10+d` |
| Midterm.IgnoredStep | 5-midterm-project/advanced.cpp:315-317 | any other character is ignored and leaves `last_ch` unchanged |
| Midterm.RefusedStep | 5-midterm-project/advanced.cpp:200-214 | `(` or `~` after a digit or `)`, and a binary operator or `)` elsewhere, print an error and enter error mode |
| Midterm.ErrorNewlineStep | 5-midterm-project/advanced.cpp:185-192 | the newline that ends error mode clears the stacks and `last_ch` and leaves `operand` as it was |
| Midterm.NumberLineStep | 5-midterm-project/advanced.cpp:275-314 | a line holding one number prints it |
| Midterm.SpacesJoinDigits | 5-midterm-project/advanced.cpp:193-199 | `1 2` reads as 12 |
| Midterm.OperandSurvivesErrorLine | 5-midterm-project/advanced.cpp:185-192 | `1(` then `2` prints 12: the refused line's digits carry into the next line |
| Midterm.StepFixedKeeps | 5-midterm-project/advanced.cpp:185-192 | with `operand` also cleared, every character keeps the invariant and each newline leaves a fresh line state |
| Midterm.FixedLinesStartAfresh | 5-midterm-project/advanced.cpp:179-320 | with the correction, input ending in a newline leaves empty stacks, `operand` 0 and no error mode |
| Midterm.ProcessFixedFirst | 5-midterm-project/advanced.cpp:184-319 | the corrected loop reads the first character, then the rest |
| Midterm.ProcessFixedEnd | 5-midterm-project/advanced.cpp:184-319 | at end of input the corrected state is final |
| Midterm.FixedReadsLineAlone | 5-midterm-project/advanced.cpp:185-192 | with the correction `1(` then `2` prints 2 |
| Midterm.Calculator.constructor | 5-midterm-project/advanced.cpp:116-117 | the calculator starts with empty stacks, `operand` 0 and not in error mode |
| Midterm.Calculator.ProcessLastOperator | 5-midterm-project/advanced.cpp:122-165 | the stacks become those `CalcReduce` gives; the other locals are unchanged |
| Midterm.Calculator.PopWhile | 5-midterm-project/advanced.cpp:223-274 | a pop loop leaves the stacks `CalcReduceWhile` gives |
| Midterm.Calculator.ReadOperator | 5-midterm-project/advanced.cpp:200-274 | an operator character changes the state as `StepOperator` says |
| Midterm.Calculator.ReadNewline | 5-midterm-project/advanced.cpp:275-314 | a newline changes the state as `StepNewline` says |
| Midterm.Calculator.ReadChar | 5-midterm-project/advanced.cpp:185-318 | one loop iteration changes the state as `StepChar` says |
| Midterm.Calculator.ReadInput | 5-midterm-project/advanced.cpp:184-319 | the character loop over the input changes the state as `Process` says |
| Midterm.Calculate | 5-midterm-project/advanced.cpp:179-320 | from the initial state, the calculator prints what `Process` gives, and never reaches undefined behaviour |

## Left out

- Floating point: doubles are exact reals, so rounding error and IEEE special values are not modelled; `pow` is a parameter.
- The printf formatting of printed values and messages, and all console I/O: outputs are values (`Output`, `Line`), and the `%s`/`%c`/line/column parts of error messages are omitted.
- The lexer (flex, not shown): token sequences are given as input; `lexer_test.c` only exercises the lexer.
- `Idn` evaluation and the IDENTIFIER case of `parse_arith_expr` are empty in the source; the model keeps the stub's effect (the flag moves on, nothing is pushed) and has no variable node.
- `defined_variable` and `create_variable` have empty bodies; `defined_variable` is taken as membership in the variable map, and no variable is ever created.
- The IDENTIFIER and Initialize branches of `parse_program` are empty; the Assign branch is modelled but unreachable.
- The Pow and Wav evaluation bodies of 7-interpreter are empty; its Num, Add, Sub, Mul and Div evaluation is that of 8-interpreter, which the model uses for both.
- The order in which C++ evaluates the operands of an arithmetic operator is left to right in the model.
- The C++ union of the variable cell is two fields; only the one matching the type is ever read.
- Ownership of heap-allocated nodes, leaks and the lifetime of the global vectors; the stacks are proved empty on every exit of the expression builder.
- `getchar` returning `EOF` versus a `0xFF` character: the input is a finite character sequence.
- `main` of the interpreters (reading input, printing caught exceptions) and the earlier calculators, 6-interpreter, and the `input-gen.c` generators.
- Midterm.CalcReduce: a null tree from the `default` branch of the calculator's `process_last_operator` is undefined behaviour as soon as it is pushed, rather than when it is evaluated; the invariant shows that branch is never taken.
- Interpreter.Execute: run on the cell states as values; the aliasing of a cell by several assignments is covered by `Interpreter.Program.Run`, which works on the shared `Variable` objects.

## Findings

| source | as written | input that shows it | evidently intended | confidence | as-written member | corrected member |
|---|---|---|---|---|---|---|
| 5-midterm-project/advanced.cpp:185-192 | leaving error mode at a newline clears both stacks and `last_ch`, but not `operand`, so digits read before the refused character carry into the next line | `1(` newline `2` newline prints 12.00 | each line starts afresh (as the newline path at line 286 does by setting `operand = 0`), printing 2.00 | not executed | Midterm.OperandSurvivesErrorLine | Midterm.FixedLinesStartAfresh |
