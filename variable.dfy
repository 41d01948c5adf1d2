/** The variable cell of 8-interpreter/variable.h: a type fixed at
    construction, an `initialized` flag and a value. The C++ union of an
    `int` and a `double` is two fields here; only the one matching the type
    is ever read. */
module Variables {
  import opened Results
  import opened ArithExpr

  /** The mutable part of a cell, as a value. */
  datatype Cell = Cell(initialized: bool, intVal: int, doubleVal: real)

  class Variable {
    const ty: Type
    var initialized: bool
    var intVal: int
    var doubleVal: real

    /** A new cell has the given type and is not initialized; its value is
        indeterminate and is never read before an assignment or a reset. */
    constructor(ty: Type)
      ensures this.ty == ty && !initialized
    {
      this.ty := ty;
      initialized := false;
    }

    function State(): Cell
      reads this
    {
      Cell(initialized, intVal, doubleVal)
    }

    /** `assign(double)`: refused for a non-Double cell, which keeps its
        value; the flag is never touched. */
    method AssignDouble(value: real) returns (status: Outcome)
      modifies this
      ensures ty != Double ==> status == Fail(LogicError("Assigning double value to non-double variable.")) && State() == old(State())
      ensures ty == Double ==> status == Pass && State() == old(State()).(doubleVal := value)
    {
      if ty != Double {
        return Fail(LogicError("Assigning double value to non-double variable."));
      }
      doubleVal := value;
      status := Pass;
    }

    /** `assign(int)`: refused for a non-Int cell, which keeps its value; the
        flag is never touched. */
    method AssignInt(value: int) returns (status: Outcome)
      modifies this
      ensures ty != Int ==> status == Fail(LogicError("Assigning int value to non-int variable.")) && State() == old(State())
      ensures ty == Int ==> status == Pass && State() == old(State()).(intVal := value)
    {
      if ty != Int {
        return Fail(LogicError("Assigning int value to non-int variable."));
      }
      intVal := value;
      status := Pass;
    }

    /** `reset`: marks the cell initialized and changes nothing else. */
    method Reset()
      modifies this
      ensures State() == old(State()).(initialized := true)
    {
      initialized := true;
    }

    /** `int_val`: the stored int, for an initialized Int cell only. */
    function IntVal(): (r: Result<int>)
      reads this
      ensures r.Ok? <==> initialized && ty == Int
      ensures r.Ok? ==> r.value == intVal
      ensures !initialized ==> r == Err(LogicError("Evaluating uninitialized variable."))
      ensures initialized && ty != Int ==> r == Err(LogicError("Referencing non-int value as int."))
    {
      if !initialized then Err(LogicError("Evaluating uninitialized variable."))
      else if ty != Int then Err(LogicError("Referencing non-int value as int."))
      else Ok(intVal)
    }

    /** `double_val`: the stored double, for an initialized Double cell only. */
    function DoubleVal(): (r: Result<real>)
      reads this
      ensures r.Ok? <==> initialized && ty == Double
      ensures r.Ok? ==> r.value == doubleVal
      ensures !initialized ==> r == Err(LogicError("Evaluating uninitialized variable."))
      ensures initialized && ty != Double ==> r == Err(LogicError("Referencing non-double value as double."))
    {
      if !initialized then Err(LogicError("Evaluating uninitialized variable."))
      else if ty != Double then Err(LogicError("Referencing non-double value as double."))
      else Ok(doubleVal)
    }
  }

  /** A cell reads back the last value assigned to it once it is
      initialized, whatever happened in between to the other field. */
  method AssignThenRead(v: Variable, x: int, y: real) returns (r: Result<int>)
    requires v.ty == Int
    modifies v
    ensures r == (if old(v.initialized) then Ok(x) else Err(LogicError("Evaluating uninitialized variable.")))
  {
    var s1 := v.AssignInt(x);
    var s2 := v.AssignDouble(y);
    r := v.IntVal();
  }
}
