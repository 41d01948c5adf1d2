/** The program layer of 8-interpreter/interpreter.h and interpreter.cpp: the
    statements, the `Program` that owns the variable cells and the statement
    list, running a program, and the token-driven `parse_program`. */
module Interpreter {
  import opened Results
  import opened Numeric
  import opened Lexer
  import opened ArithExpr
  import opened ArithParser
  import opened Variables

  /** An Assignment is bound, when it is built, to the cell it writes. */
  datatype Statement =
    | Assignment(identifier: string, expr: Expr, target: Variable)
    | PrintStatement(expr: Expr)

  /** What a print statement writes: `%d` of an int or `%.2lf` of a double. */
  datatype Output = PrintedInt(n: int) | PrintedDouble(x: real)

  /** `PrintStatement::run`: an Int expression is printed as an int, any other
      as a double. */
  function PrintValue(e: Expr, pow: PowFn): (r: Result<Output>)
    ensures TypeOf(e) == Int ==>
      r == (if EvalAsInt(e, pow).Ok? then Ok(PrintedInt(EvalAsInt(e, pow).value)) else Err(EvalAsInt(e, pow).error))
    ensures TypeOf(e) == Double ==>
      r == (if EvalAsDouble(e, pow).Ok? then Ok(PrintedDouble(EvalAsDouble(e, pow).value)) else Err(EvalAsDouble(e, pow).error))
    ensures r.Err? ==> RuntimeKind(r.error)
  {
    EvaluationErrors(e, pow);
    if TypeOf(e) == Int then
      var n :- EvaluateToInt(e, pow);
      Ok(PrintedInt(n))
    else
      var x :- EvaluateToDouble(e, pow);
      Ok(PrintedDouble(x))
  }

  /** `Assignment::run` on the state of its target cell, of type `ty`. A
      Double cell receives the promoted value. An Int cell receives an Int
      expression's value; for a Double expression the case has no `break`
      and falls into the throwing `default`, after evaluating the expression
      and converting it to int. */
  function AssignmentEffect(ty: Type, e: Expr, cell: Cell, pow: PowFn): (r: Result<Cell>)
    ensures r.Ok? ==> r.value.initialized == cell.initialized
    ensures ty == Double ==>
      r == (if Promote(e, pow).Ok? then Ok(cell.(doubleVal := Promote(e, pow).value)) else Err(Promote(e, pow).error))
    ensures ty == Int && TypeOf(e) == Int ==>
      r == (if EvalAsInt(e, pow).Ok? then Ok(cell.(intVal := EvalAsInt(e, pow).value)) else Err(EvalAsInt(e, pow).error))
    ensures ty == Int && TypeOf(e) == Double ==> r.Err?
    ensures ty == Int && TypeOf(e) == Double && EvalAsDouble(e, pow).Ok? && InInt32(Trunc(EvalAsDouble(e, pow).value)) ==>
      r == Err(LogicError("Unknown expr value type 0"))
  {
    match ty
    case Int =>
      if TypeOf(e) == Int then
        var x :- EvaluateToInt(e, pow);
        Ok(cell.(intVal := x))
      else
        var d :- EvaluateToDouble(e, pow);
        if !InInt32(Trunc(d)) then Err(Undefined("double to int conversion out of range"))
        else Err(LogicError("Unknown expr value type 0"))
    case Double =>
      var d :- Promote(e, pow);
      Ok(cell.(doubleVal := d))
  }

  /** `Assignment::run`: the target cell, and no other, takes the state
      `AssignmentEffect` gives, or keeps its state when the statement throws. */
  method RunAssignment(st: Statement, pow: PowFn) returns (status: Outcome)
    requires st.Assignment?
    modifies st.target
    ensures var r := AssignmentEffect(st.target.ty, st.expr, old(st.target.State()), pow);
      && (r.Ok? ==> status == Pass && st.target.State() == r.value)
      && (r.Err? ==> status == Fail(r.error) && st.target.State() == old(st.target.State()))
  {
    var target, e := st.target, st.expr;
    if target.ty == Int {
      if TypeOf(e) == Int {
        var x := EvaluateToInt(e, pow);
        if x.Err? {
          return Fail(x.error);
        }
        status := target.AssignInt(x.value);
      } else {
        var d := EvaluateToDouble(e, pow);
        if d.Err? {
          return Fail(d.error);
        }
        if !InInt32(Trunc(d.value)) {
          return Fail(Undefined("double to int conversion out of range"));
        }
        status := Fail(LogicError("Unknown expr value type 0"));
      }
    } else {
      var d := Promote(e, pow);
      if d.Err? {
        return Fail(d.error);
      }
      status := target.AssignDouble(d.value);
    }
  }

  // ----- Running a statement list, on values -----

  /** The state of every cell a program owns. */
  type Store = map<Variable, Cell>

  /** The first loop of `Program::run`: every cell is reset. */
  function ResetAll(store: Store): (r: Store)
    ensures r.Keys == store.Keys
    ensures forall v :: v in r ==> r[v] == store[v].(initialized := true)
  {
    map v | v in store :: store[v].(initialized := true)
  }

  /** Every assignment in `stmts` writes a cell of `store`. */
  predicate TargetsIn(stmts: seq<Statement>, store: Store) {
    forall i :: 0 <= i < |stmts| && stmts[i].Assignment? ==> stmts[i].target in store
  }

  /** What was printed, the cells, and whether a statement threw. */
  datatype Trace = Trace(outputs: seq<Output>, store: Store, status: Outcome)

  /** One statement: a print adds one output, an assignment updates its cell. */
  function ExecuteStatement(st: Statement, store: Store, pow: PowFn): Result<(seq<Output>, Store)>
    requires st.Assignment? ==> st.target in store
  {
    match st
    case PrintStatement(e) =>
      var o :- PrintValue(e, pow);
      Ok(([o], store))
    case Assignment(_, e, target) =>
      var c :- AssignmentEffect(target.ty, e, store[target], pow);
      Ok(([], store[target := c]))
  }

  /** The second loop of `Program::run`: the statements in list order; the
      first exception ends the run. */
  function Execute(stmts: seq<Statement>, store: Store, pow: PowFn): (t: Trace)
    requires TargetsIn(stmts, store)
    ensures t.store.Keys == store.Keys
    decreases |stmts|
  {
    if stmts == [] then Trace([], store, Pass)
    else
      assert TargetsIn(DropLast(stmts), store) by {
        assert forall i :: 0 <= i < |DropLast(stmts)| ==> DropLast(stmts)[i] == stmts[i];
      }
      var t := Execute(DropLast(stmts), store, pow);
      if t.status.Fail? then t
      else
        match ExecuteStatement(Last(stmts), t.store, pow)
        case Err(err) => Trace(t.outputs, t.store, Fail(err))
        case Ok(p) => Trace(t.outputs + p.0, p.1, Pass)
  }

  lemma TargetsInPrefix(stmts: seq<Statement>, store: Store, n: nat)
    requires n <= |stmts| && TargetsIn(stmts, store)
    ensures TargetsIn(stmts[..n], store)
  {
  }

  /** A run that has failed stays failed: later statements never execute. */
  lemma {:induction false} ExecuteFailureSticks(stmts: seq<Statement>, n: nat, store: Store, pow: PowFn)
    requires n <= |stmts| && TargetsIn(stmts, store) && TargetsIn(stmts[..n], store)
    requires Execute(stmts[..n], store, pow).status.Fail?
    ensures Execute(stmts, store, pow) == Execute(stmts[..n], store, pow)
    decreases |stmts|
  {
    if n < |stmts| {
      assert DropLast(stmts)[..n] == stmts[..n];
      assert TargetsIn(DropLast(stmts), store) by {
        assert forall i :: 0 <= i < |DropLast(stmts)| ==> DropLast(stmts)[i] == stmts[i];
      }
      ExecuteFailureSticks(DropLast(stmts), n, store, pow);
    } else {
      assert stmts[..n] == stmts;
    }
  }

  /** Expressions never read variables (identifiers build no tree), so what a
      run prints and whether it throws do not depend on the cells. */
  lemma {:induction false} OutputsIgnoreStore(stmts: seq<Statement>, s1: Store, s2: Store, pow: PowFn)
    requires TargetsIn(stmts, s1) && TargetsIn(stmts, s2)
    ensures Execute(stmts, s1, pow).outputs == Execute(stmts, s2, pow).outputs
    ensures Execute(stmts, s1, pow).status == Execute(stmts, s2, pow).status
    decreases |stmts|
  {
    if stmts != [] {
      assert TargetsIn(DropLast(stmts), s1) && TargetsIn(DropLast(stmts), s2) by {
        assert forall i :: 0 <= i < |DropLast(stmts)| ==> DropLast(stmts)[i] == stmts[i];
      }
      OutputsIgnoreStore(DropLast(stmts), s1, s2, pow);
    }
  }

  /** After a run every cell counts as initialized, assigned or not, since
      `reset` sets the flag and assignments keep it. */
  lemma {:induction false} RunInitializesAll(stmts: seq<Statement>, store: Store, pow: PowFn)
    requires TargetsIn(stmts, ResetAll(store))
    ensures forall v :: v in Execute(stmts, ResetAll(store), pow).store ==>
      Execute(stmts, ResetAll(store), pow).store[v].initialized
    decreases |stmts|
  {
    if stmts != [] {
      assert TargetsIn(DropLast(stmts), ResetAll(store)) by {
        assert forall i :: 0 <= i < |DropLast(stmts)| ==> DropLast(stmts)[i] == stmts[i];
      }
      RunInitializesAll(DropLast(stmts), store, pow);
    }
  }

  /** A cell that no assignment targets keeps the state it had. */
  lemma {:induction false} UntargetedCellsKept(stmts: seq<Statement>, store: Store, v: Variable, pow: PowFn)
    requires TargetsIn(stmts, store) && v in store
    requires forall i :: 0 <= i < |stmts| && stmts[i].Assignment? ==> stmts[i].target != v
    ensures Execute(stmts, store, pow).store[v] == store[v]
    decreases |stmts|
  {
    if stmts != [] {
      assert TargetsIn(DropLast(stmts), store) by {
        assert forall i :: 0 <= i < |DropLast(stmts)| ==> DropLast(stmts)[i] == stmts[i];
      }
      UntargetedCellsKept(DropLast(stmts), store, v, pow);
    }
  }

  // ----- The program -----

  class Program {
    var variableMap: map<string, Variable>
    var statements: seq<Statement>

    constructor()
      ensures variableMap == map[] && statements == []
      ensures Valid()
    {
      variableMap := map[];
      statements := [];
    }

    /** Every assignment writes a cell of this program, as `parse_program`
        arranges by building it from `lookup_variable`. */
    predicate Valid()
      reads this
    {
      forall i :: 0 <= i < |statements| && statements[i].Assignment? ==> statements[i].target in variableMap.Values
    }

    /** `defined_variable`, whose body is left empty in the source, taken
        here as membership in the variable map. */
    predicate DefinedVariable(name: string)
      reads this
    {
      name in variableMap
    }

    /** `lookup_variable`: the stored cell itself, or a CompilingError for an
        undeclared name. */
    function LookupVariable(name: string): (r: Result<Variable>)
      reads this
      ensures r.Ok? <==> name in variableMap
      ensures r.Ok? ==> r.value == variableMap[name]
      ensures r.Err? ==> r.error == CompilingError("Variable " + name + " does not exist.")
    {
      if !DefinedVariable(name) then Err(CompilingError("Variable " + name + " does not exist."))
      else Ok(variableMap[name])
    }

    /** `append_statement`: the statement goes at the end. */
    method AppendStatement(st: Statement)
      modifies this
      ensures statements == old(statements) + [st]
      ensures variableMap == old(variableMap)
      ensures old(Valid()) && (st.Assignment? ==> st.target in variableMap.Values) ==> Valid()
    {
      statements := statements + [st];
    }

    ghost function Store(): Store
      reads this, variableMap.Values
    {
      map v | v in variableMap.Values :: v.State()
    }

    /** The first loop of `Program::run`: `reset` on every cell of the map. */
    method ResetCells()
      modifies variableMap.Values
      ensures Store() == ResetAll(old(Store()))
    {
      var cells := variableMap.Values;
      while cells != {}
        invariant cells <= variableMap.Values
        invariant forall v :: v in variableMap.Values ==>
          v.State() == if v in cells then old(v.State()) else old(v.State()).(initialized := true)
        decreases cells
      {
        var c :| c in cells;
        c.Reset();
        cells := cells - {c};
      }
    }

    /** `Program::run`: every cell is reset, then the statements run in list
        order until one throws. The outputs, the outcome and the new cells are
        those of `Execute` on the reset cells; the program itself, statements
        included, does not change. */
    method Run(pow: PowFn) returns (outputs: seq<Output>, status: Outcome)
      requires Valid()
      modifies variableMap.Values
      ensures TargetsIn(statements, ResetAll(old(Store())))
      ensures var t := Execute(statements, ResetAll(old(Store())), pow);
        outputs == t.outputs && status == t.status && Store() == t.store
    {
      ghost var reset := ResetAll(Store());
      ResetCells();
      assert TargetsIn(statements, reset);
      outputs := [];
      var i := 0;
      while i < |statements|
        invariant 0 <= i <= |statements|
        invariant TargetsIn(statements[..i], reset)
        invariant Execute(statements[..i], reset, pow) == Trace(outputs, Store(), Pass)
      {
        var st := statements[i];
        assert statements[..i + 1] == statements[..i] + [st];
        assert DropLast(statements[..i + 1]) == statements[..i];
        TargetsInPrefix(statements, reset, i + 1);
        var out;
        out, status := RunStatement(st, pow);
        if status.Fail? {
          ExecuteFailureSticks(statements, i + 1, reset, pow);
          return;
        }
        outputs := outputs + out;
        i := i + 1;
      }
      assert statements[..i] == statements;
      status := Pass;
    }

    /** `Statement::run` on one statement of this program: what
        `ExecuteStatement` gives, on the cells of the map. */
    method RunStatement(st: Statement, pow: PowFn) returns (out: seq<Output>, status: Outcome)
      requires st.Assignment? ==> st.target in variableMap.Values
      modifies variableMap.Values
      ensures var r := ExecuteStatement(st, old(Store()), pow);
        && (r.Ok? ==> status == Pass && out == r.value.0 && Store() == r.value.1)
        && (r.Err? ==> status == Fail(r.error) && Store() == old(Store()))
    {
      if st.PrintStatement? {
        var o := PrintValue(st.expr, pow);
        if o.Err? {
          return [], Fail(o.error);
        }
        return [o.value], Pass;
      }
      ghost var before := Store();
      out := [];
      status := RunAssignment(st, pow);
      assert Store() == (if status.Pass? then before[st.target := st.target.State()] else before);
    }
  }

  // ----- parse_program -----

  /** The states of `parse_program`; only Start and TypeDecl are ever entered. */
  datatype State = Start | TypeDecl | Initialize | Assign | Print

  /** The loop variables `state`, `type_decl` and `idt`. */
  datatype Config = Config(state: State, typeDecl: Option<Type>, idt: string)

  /** `state` is declared without a value; the model starts in Start. */
  const InitialConfig := Config(Start, None, "")

  /** The statement loop of `parse_program` from token `i` on, with the
      statements built so far; `vars` is the program's variable map. */
  function ParseProgramFrom(ts: seq<Token>, i: nat, cfg: Config, stmts: seq<Statement>, vars: map<string, Variable>)
    : Result<seq<Statement>>
    requires i <= |ts|
    decreases |ts| - i
  {
    if i == |ts| || ts[i].End? then Ok(stmts)
    else
      match ts[i]
      case KIntegerType =>
        if cfg.state != Start then Err(CompilingError("Unexpected keyword"))
        else ParseProgramFrom(ts, i + 1, cfg.(state := TypeDecl, typeDecl := Some(Int)), stmts, vars)
      case KDoubleType =>
        if cfg.state != Start then Err(CompilingError("Unexpected keyword"))
        else ParseProgramFrom(ts, i + 1, cfg.(state := TypeDecl, typeDecl := Some(Double)), stmts, vars)
      case Identifier(_) =>
        ParseProgramFrom(ts, i + 1, cfg, stmts, vars)
      case KPrint =>
        if cfg.state != Start then Err(CompilingError("Unexpected keyword print"))
        else
          var e :- Parse(Interpreter8, ts[i + 1..ExprEnd(ts, i + 1)]);
          if e.None? then Err(CompilingError("Excpeting an expression to print"))
          else ParseProgramFrom(ts, AfterExpr(ts, i + 1), cfg.(state := Start), stmts + [PrintStatement(e.value)], vars)
      case ErrorLexeme(_) => Err(CompilingError("Unrecognized input"))
      case Char(c) =>
        if c != '=' then Err(LogicError("Unrecognized token type"))
        else if cfg.state == Initialize then ParseProgramFrom(ts, i + 1, cfg, stmts, vars)
        else if cfg.state == Assign then
          var e :- Parse(Interpreter8, ts[i + 1..ExprEnd(ts, i + 1)]);
          if e.None? then Err(CompilingError("Excpeting an expression to assign to variable"))
          else if cfg.idt !in vars then Err(CompilingError("Undefined variable"))
          else ParseProgramFrom(ts, AfterExpr(ts, i + 1), cfg.(state := Start),
                                stmts + [Assignment(cfg.idt, e.value, vars[cfg.idt])], vars)
        else Err(CompilingError("Unexpected operator ="))
      case _ => Err(LogicError("Unrecognized token type"))
  }

  /** `parse_program` on a whole token stream. */
  function ParseProgramSpec(ts: seq<Token>): Result<seq<Statement>> {
    ParseProgramFrom(ts, 0, InitialConfig, [], map[])
  }

  /** `parse_program`: a new program whose statements are those
      `ParseProgramSpec` gives, or its error. No variable is ever created,
      since the declaration branches are left empty in the source. */
  method ParseProgram(ts: seq<Token>) returns (r: Result<Program>)
    ensures ParseProgramSpec(ts).Err? ==> r == Err(ParseProgramSpec(ts).error)
    ensures ParseProgramSpec(ts).Ok? ==>
      r.Ok? && fresh(r.value) && r.value.statements == ParseProgramSpec(ts).value && r.value.variableMap == map[]
    ensures r.Ok? ==> r.value.Valid()
  {
    var p := new Program();
    var status := ParseStatements(p, ts);
    if status.Fail? {
      return Err(status.error);
    }
    ParsedProgramsOnlyPrint(ts);
    r := Ok(p);
  }

  /** The statement loop of `parse_program`, appending to the statements of
      `p` and looking names up in its variable map, which it never changes. */
  method ParseStatements(p: Program, ts: seq<Token>) returns (status: Outcome)
    modifies p
    ensures p.variableMap == old(p.variableMap)
    ensures var r := ParseProgramFrom(ts, 0, InitialConfig, old(p.statements), old(p.variableMap));
      && (r.Ok? ==> status == Pass && p.statements == r.value)
      && (r.Err? ==> status == Fail(r.error))
  {
    var builder := new ExprBuilder();
    var cfg := InitialConfig;
    var i := 0;
    while i < |ts| && !ts[i].End?
      invariant i <= |ts|
      invariant fresh(builder)
      invariant builder.opStack == [] && builder.numStack == []
      invariant p.variableMap == old(p.variableMap)
      invariant ParseProgramFrom(ts, i, cfg, p.statements, p.variableMap)
             == ParseProgramFrom(ts, 0, InitialConfig, old(p.statements), old(p.variableMap))
      decreases |ts| - i
    {
      var outcome, cfgAfter, next := ParseStatementAt(p, builder, ts, i, cfg);
      if outcome.Fail? {
        return outcome;
      }
      cfg, i := cfgAfter, next;
    }
    status := Pass;
  }

  /** One pass of the loop of `parse_program`, on the token at `i`: either
      the error the loop returns there, or where it resumes and with what
      state, having appended at most one statement to `p`. */
  method ParseStatementAt(p: Program, builder: ExprBuilder, ts: seq<Token>, i: nat, cfg: Config)
    returns (status: Outcome, cfgAfter: Config, next: nat)
    requires i < |ts| && !ts[i].End?
    requires builder.opStack == [] && builder.numStack == []
    modifies p, builder
    ensures builder.opStack == [] && builder.numStack == []
    ensures p.variableMap == old(p.variableMap)
    ensures status.Fail? ==> ParseProgramFrom(ts, i, cfg, old(p.statements), p.variableMap) == Err(status.error)
    ensures status.Pass? ==> i < next <= |ts|
    ensures status.Pass? ==>
      ParseProgramFrom(ts, next, cfgAfter, p.statements, p.variableMap)
      == ParseProgramFrom(ts, i, cfg, old(p.statements), p.variableMap)
  {
    status, cfgAfter, next := Pass, cfg, i + 1;
    match ts[i] {
      case KIntegerType =>
        if cfg.state != Start {
          status := Fail(CompilingError("Unexpected keyword"));
          return;
        }
        cfgAfter := cfg.(state := TypeDecl, typeDecl := Some(Int));
        next := i + 1;
      case KDoubleType =>
        if cfg.state != Start {
          status := Fail(CompilingError("Unexpected keyword"));
          return;
        }
        cfgAfter := cfg.(state := TypeDecl, typeDecl := Some(Double));
        next := i + 1;
      case Identifier(_) =>
        next := i + 1;
      case KPrint =>
        if cfg.state != Start {
          status := Fail(CompilingError("Unexpected keyword print"));
          return;
        }
        var e, after := builder.ParseArithExpr(Interpreter8, ts, i + 1);
        if e.Err? {
          status := Fail(e.error);
          return;
        }
        if e.value.None? {
          status := Fail(CompilingError("Excpeting an expression to print"));
          return;
        }
        p.AppendStatement(PrintStatement(e.value.value));
        cfgAfter := cfg.(state := Start);
        next := after;
      case ErrorLexeme(_) =>
        status := Fail(CompilingError("Unrecognized input"));
        return;
      case Char(c) =>
        if c != '=' {
          status := Fail(LogicError("Unrecognized token type"));
          return;
        }
        if cfg.state == Initialize {
          next := i + 1;
        } else if cfg.state == Assign {
          var e, after := builder.ParseArithExpr(Interpreter8, ts, i + 1);
          if e.Err? {
            status := Fail(e.error);
            return;
          }
          if e.value.None? {
            status := Fail(CompilingError("Excpeting an expression to assign to variable"));
            return;
          }
          if !p.DefinedVariable(cfg.idt) {
            status := Fail(CompilingError("Undefined variable"));
            return;
          }
          var target := p.LookupVariable(cfg.idt);
          p.AppendStatement(Assignment(cfg.idt, e.value.value, target.value));
          cfgAfter := cfg.(state := Start);
          next := after;
        } else {
          status := Fail(CompilingError("Unexpected operator ="));
          return;
        }
      case _ =>
        status := Fail(LogicError("Unrecognized token type"));
        return;
    }
  }

  // ----- What parse_program accepts -----

  predicate AllPrints(stmts: seq<Statement>) {
    forall i :: 0 <= i < |stmts| ==> stmts[i].PrintStatement?
  }

  /** Since the identifier branch never leaves Start or TypeDecl, the `=`
      branches for Initialize and Assign are unreachable and every parsed
      program is a list of print statements. */
  lemma {:induction false} OnlyPrintsParsed(ts: seq<Token>, i: nat, cfg: Config, stmts: seq<Statement>, vars: map<string, Variable>)
    requires i <= |ts|
    requires cfg.state == Start || cfg.state == TypeDecl
    requires AllPrints(stmts)
    ensures ParseProgramFrom(ts, i, cfg, stmts, vars).Ok? ==> AllPrints(ParseProgramFrom(ts, i, cfg, stmts, vars).value)
    decreases |ts| - i
  {
    if i < |ts| && !ts[i].End? {
      match ts[i]
      case KIntegerType =>
        if cfg.state == Start {
          OnlyPrintsParsed(ts, i + 1, cfg.(state := TypeDecl, typeDecl := Some(Int)), stmts, vars);
        }
      case KDoubleType =>
        if cfg.state == Start {
          OnlyPrintsParsed(ts, i + 1, cfg.(state := TypeDecl, typeDecl := Some(Double)), stmts, vars);
        }
      case Identifier(_) =>
        OnlyPrintsParsed(ts, i + 1, cfg, stmts, vars);
      case KPrint =>
        if cfg.state == Start {
          var e := Parse(Interpreter8, ts[i + 1..ExprEnd(ts, i + 1)]);
          if e.Ok? && e.value.Some? {
            var stmts' := stmts + [PrintStatement(e.value.value)];
            assert AllPrints(stmts') by {
              forall j | 0 <= j < |stmts'| ensures stmts'[j].PrintStatement? {
                if j < |stmts| { assert stmts'[j] == stmts[j]; }
              }
            }
            OnlyPrintsParsed(ts, AfterExpr(ts, i + 1), cfg.(state := Start), stmts', vars);
          }
        }
      case _ =>
    }
  }

  /** Every program `parse_program` returns consists of print statements. */
  lemma ParsedProgramsOnlyPrint(ts: seq<Token>)
    ensures ParseProgramSpec(ts).Ok? ==> AllPrints(ParseProgramSpec(ts).value)
  {
    OnlyPrintsParsed(ts, 0, InitialConfig, [], map[]);
  }

  /** A keyword is accepted only in state Start: `int double` is refused. */
  lemma KeywordOnlyAtStart()
    ensures ParseProgramSpec([KIntegerType, KDoubleType]) == Err(CompilingError("Unexpected keyword"))
    ensures ParseProgramSpec([KDoubleType, KPrint]) == Err(CompilingError("Unexpected keyword print"))
  {
  }

  /** `int x = 1;` is refused at the `=`, since the stubbed identifier branch
      leaves the state at TypeDecl, while `int x` alone is accepted and
      declares nothing. */
  lemma DeclarationStubs()
    ensures ParseProgramSpec([KIntegerType, Identifier("x"), Char('='), IntegerLiteral(1), Char(';')])
         == Err(CompilingError("Unexpected operator ="))
    ensures ParseProgramSpec([KIntegerType, Identifier("x")]) == Ok([])
  {
  }

  /** `print 1;` parses to one print statement; `print;` is refused; a stray
      `;`, or an unrecognised character, is refused. */
  lemma PrintStatements()
    ensures ParseProgramSpec([KPrint, IntegerLiteral(1), Char(';')]) == Ok([PrintStatement(Num(1.0))])
    ensures ParseProgramSpec([KPrint, Char(';')]) == Err(CompilingError("Excpeting an expression to print"))
    ensures ParseProgramSpec([Char(';')]) == Err(LogicError("Unrecognized token type"))
    ensures ParseProgramSpec([ErrorLexeme('$')]) == Err(CompilingError("Unrecognized input"))
  {
    var ts := [KPrint, IntegerLiteral(1), Char(';')];
    assert ExprEnd(ts, 1) == 2;
    assert ts[1..2] == [IntegerLiteral(1)];
    assert DropLast([IntegerLiteral(1)]) == [];
    assert Parse(Interpreter8, [IntegerLiteral(1)]) == Ok(Some(Num(1.0)));
    assert AfterExpr(ts, 1) == 3;
    assert [] + [PrintStatement(Num(1.0))] == [PrintStatement(Num(1.0))];
    assert ParseProgramFrom(ts, 3, InitialConfig, [PrintStatement(Num(1.0))], map[]) == Ok([PrintStatement(Num(1.0))]);
    var ts2 := [KPrint, Char(';')];
    assert ExprEnd(ts2, 1) == 1;
    assert ts2[1..1] == [];
  }
}
