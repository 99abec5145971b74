/**
 * The `Calculator` class of calculator.py: four arithmetic operations, a
 * dispatch by operator symbol, a running result and an append-only history.
 *
 * Numbers are exact reals. `Step` is the specification of one `calculate`
 * call on a snapshot of the calculator's state; the class's methods are
 * proved against it.
 */
module Calc {
  import opened Wrappers

  /** The four operators of the dispatch table `self.operations`. */
  datatype Op = Plus | Minus | Times | Div

  /** The symbol each operator is registered under. */
  function Symbol(op: Op): string {
    match op
    case Plus => "+"
    case Minus => "-"
    case Times => "*"
    case Div => "/"
  }

  const Symbols: set<string> := {"+", "-", "*", "/"}

  /** Looks an operator symbol up in the dispatch table. */
  function LookupOp(s: string): (r: Option<Op>)
    ensures r.Some? <==> s in Symbols
    ensures r.Some? ==> Symbol(r.value) == s
  {
    if s == "+" then Some(Plus)
    else if s == "-" then Some(Minus)
    else if s == "*" then Some(Times)
    else if s == "/" then Some(Div)
    else None
  }

  /** Every operator is found again under its own symbol. */
  lemma LookupSymbol(op: Op)
    ensures LookupOp(Symbol(op)) == Some(op)
  {
  }

  /** The two error conditions `calculate` catches. */
  datatype CalcError = DivisionByZero | UnsupportedOperator(operation: string)

  /** What `calculate` returns: the new value, or the error that made it
      return `None`. */
  datatype Outcome = Ok(value: real) | Err(error: CalcError)

  function Add(x: real, y: real): (r: real)
    ensures r - y == x
  {
    x + y
  }

  function Subtract(x: real, y: real): (r: real)
    ensures r + y == x
  {
    x - y
  }

  function Multiply(x: real, y: real): (r: real)
    ensures y != 0.0 ==> r / y == x
    ensures y == 0.0 ==> r == 0.0
  {
    x * y
  }

  /** Division refuses a zero divisor; otherwise its quotient times the
      divisor gives back the dividend. */
  function Divide(x: real, y: real): (r: Outcome)
    ensures r.Err? <==> y == 0.0
    ensures r.Err? ==> r.error == DivisionByZero
    ensures r.Ok? ==> r.value * y == x
  {
    if y == 0.0 then Err(DivisionByZero) else Ok(x / y)
  }

  /** Applies an operator of the dispatch table; only division can fail. */
  function Apply(op: Op, x: real, y: real): (r: Outcome)
    ensures r.Err? <==> op == Div && y == 0.0
    ensures r.Err? ==> r.error == DivisionByZero
  {
    match op
    case Plus => Ok(Add(x, y))
    case Minus => Ok(Subtract(x, y))
    case Times => Ok(Multiply(x, y))
    case Div => Divide(x, y)
  }

  /** One history record: `lhs op rhs = value`. */
  datatype Entry = Entry(lhs: real, op: Op, rhs: real, value: real)

  /** The state of a calculator: the running result and the history. */
  datatype State = State(result: real, history: seq<Entry>)

  /** The state of a new calculator, and of one just reset. */
  const Initial := State(0.0, [])

  /** The operands `calculate` uses: `(result, num1)` in continuation mode
      (no `num2`), `(num1, num2)` otherwise. */
  function Operands(acc: real, num1: real, num2: Option<real>): (real, real) {
    if num2.None? then (acc, num1) else (num1, num2.value)
  }

  /** One `calculate(operation, num1, num2)` call on state `s`: its outcome and
      the state after it. An error leaves the state as it was; a success sets
      the result and appends exactly one record, keeping the older ones. */
  function Step(s: State, operation: string, num1: real, num2: Option<real>): (out: (Outcome, State))
    ensures out.0.Err? ==> out.1 == s
    ensures out.0.Ok? ==> out.1.result == out.0.value
    ensures out.0.Ok? ==> (|out.1.history| == |s.history| + 1
                           && out.1.history[..|s.history|] == s.history
                           && out.1.history[|s.history|].value == out.0.value)
  {
    match LookupOp(operation)
    case None => (Err(UnsupportedOperator(operation)), s)
    case Some(op) =>
      var (x, y) := Operands(s.result, num1, num2);
      match Apply(op, x, y)
      case Err(e) => (Err(e), s)
      case Ok(v) => (Ok(v), State(v, s.history + [Entry(x, op, y, v)]))
  }

  /** Fresh mode: `+`, `-`, `*` and a non-zero `/` give the arithmetic result
      of the two operands, store it as the result and record it. */
  lemma FreshMode(s: State, x: real, y: real)
    ensures Step(s, "+", x, Some(y)) == (Ok(x + y), State(x + y, s.history + [Entry(x, Plus, y, x + y)]))
    ensures Step(s, "-", x, Some(y)) == (Ok(x - y), State(x - y, s.history + [Entry(x, Minus, y, x - y)]))
    ensures Step(s, "*", x, Some(y)) == (Ok(x * y), State(x * y, s.history + [Entry(x, Times, y, x * y)]))
    ensures y != 0.0 ==> Step(s, "/", x, Some(y)) == (Ok(x / y), State(x / y, s.history + [Entry(x, Div, y, x / y)]))
  {
  }

  /** Continuation mode puts the previous result on the LEFT of the operator. */
  lemma ContinuationMode(s: State, x: real)
    ensures var a := s.result;
      Step(s, "+", x, None) == (Ok(a + x), State(a + x, s.history + [Entry(a, Plus, x, a + x)]))
    ensures var a := s.result;
      Step(s, "-", x, None) == (Ok(a - x), State(a - x, s.history + [Entry(a, Minus, x, a - x)]))
    ensures var a := s.result;
      Step(s, "*", x, None) == (Ok(a * x), State(a * x, s.history + [Entry(a, Times, x, a * x)]))
    ensures var a := s.result;
      x != 0.0 ==> Step(s, "/", x, None) == (Ok(a / x), State(a / x, s.history + [Entry(a, Div, x, a / x)]))
  {
    assert Multiply(s.result, x) == s.result * x;
  }

  /** A zero divisor fails in both modes and leaves the state untouched. */
  lemma DivisionByZeroKeepsState(s: State, x: real)
    ensures Step(s, "/", x, Some(0.0)) == (Err(DivisionByZero), s)
    ensures Step(s, "/", 0.0, None) == (Err(DivisionByZero), s)
  {
  }

  /** An operator outside the table fails whatever the operands, and leaves
      the state untouched. */
  lemma UnsupportedKeepsState(s: State, operation: string, num1: real, num2: Option<real>)
    requires operation !in Symbols
    ensures Step(s, operation, num1, num2) == (Err(UnsupportedOperator(operation)), s)
  {
  }

  /** A call fails exactly when the operator is unknown or it divides by zero. */
  lemma StepFailsIff(s: State, operation: string, num1: real, num2: Option<real>)
    ensures Step(s, operation, num1, num2).0.Err?
            <==> operation !in Symbols || (operation == "/" && Operands(s.result, num1, num2).1 == 0.0)
  {
  }

  /** At most this many records are shown by `show_history`. */
  const HistoryWindow: nat := 10

  /** Python's `history[-10:]`: the last `min(10, |h|)` records, in order. */
  function Window(h: seq<Entry>): (w: seq<Entry>)
    ensures |w| == if |h| < HistoryWindow then |h| else HistoryWindow
    ensures w == h[|h| - |w|..]
  {
    if |h| <= HistoryWindow then h else h[|h| - HistoryWindow..]
  }

  /** One displayed line of `show_history`: its 1-based number and the record. */
  datatype Row = Row(number: nat, entry: Entry)

  /** What `show_history` displays: the empty-history notice, or the numbered
      rows followed, when records were cut off, by the total count. */
  datatype HistoryView = NoHistory | Listing(rows: seq<Row>, total: Option<nat>)

  class Calculator {
    var result: real
    var history: seq<Entry>

    constructor ()
      ensures result == 0.0 && history == []
    {
      result := 0.0;
      history := [];
    }

    /** The calculator's state as a value. */
    function Snapshot(): State
      reads this
    {
      State(result, history)
    }

    /** `calculate(operation, num1, num2)`; `num2 == None` selects continuation
        mode. On success the new value is stored and one record appended; on
        failure nothing changes. */
    method Calculate(operation: string, num1: real, num2: Option<real>) returns (r: Outcome)
      modifies this
      ensures (r, Snapshot()) == Step(old(Snapshot()), operation, num1, num2)
      ensures r.Err? ==> result == old(result) && history == old(history)
      ensures r.Ok? ==> (result == r.value && |history| == |old(history)| + 1
                         && history[..|old(history)|] == old(history))
    {
      var op := LookupOp(operation);
      if op.None? {
        return Err(UnsupportedOperator(operation));
      }
      var x, y;
      if num2.None? {
        x, y := result, num1;
      } else {
        x, y := num1, num2.value;
      }
      var v := Apply(op.value, x, y);
      if v.Err? {
        return Err(v.error);
      }
      history := history + [Entry(x, op.value, y, v.value)];
      result := v.value;
      r := Ok(v.value);
    }

    /** `reset()`: back to a result of zero and no history. */
    method Reset()
      modifies this
      ensures result == 0.0 && history == []
      ensures Snapshot() == Initial
    {
      result := 0.0;
      history := [];
    }

    method GetResult() returns (r: real)
      ensures r == result
    {
      r := result;
    }

    method GetHistory() returns (h: seq<Entry>)
      ensures h == history
    {
      h := history;
    }

    /** `show_history()`: the notice when there is no history; otherwise the
        last ten records in their original order numbered from 1, and the
        total only when more than ten exist. */
    method ShowHistory() returns (v: HistoryView)
      ensures v == NoHistory <==> history == []
      ensures v.Listing? ==> |v.rows| == |Window(history)| > 0
      ensures v.Listing? ==> forall k :: 0 <= k < |v.rows| ==> v.rows[k] == Row(k + 1, Window(history)[k])
      ensures v.Listing? ==> (v.total.Some? <==> |history| > HistoryWindow)
      ensures v.Listing? && v.total.Some? ==> v.total.value == |history|
    {
      if history == [] {
        return NoHistory;
      }
      var start := if |history| > HistoryWindow then |history| - HistoryWindow else 0;
      var rows: seq<Row> := [];
      var i := start;
      while i < |history|
        invariant start <= i <= |history|
        invariant |rows| == i - start
        invariant forall k :: 0 <= k < |rows| ==> rows[k] == Row(k + 1, history[start + k])
      {
        rows := rows + [Row(i - start + 1, history[i])];
        i := i + 1;
      }
      var total := if |history| > HistoryWindow then Some(|history|) else None;
      v := Listing(rows, total);
    }
  }

  /** The values the repository's test script expects, obtained through the
      class's contracts alone. */
  method TestScriptValues() returns (basic: seq<Outcome>, chained: Outcome, byZero: Outcome, afterReset: real)
    ensures basic == [Ok(8.0), Ok(6.0), Ok(42.0), Ok(5.0)]
    ensures chained == Ok(30.0)
    ensures byZero == Err(DivisionByZero)
    ensures afterReset == 0.0
  {
    var calculator := new Calculator();
    var a := calculator.Calculate("+", 5.0, Some(3.0));
    var b := calculator.Calculate("-", 10.0, Some(4.0));
    var c := calculator.Calculate("*", 7.0, Some(6.0));
    var d := calculator.Calculate("/", 15.0, Some(3.0));
    basic := [a, b, c, d];

    calculator.Reset();
    var _ := calculator.Calculate("+", 10.0, Some(5.0));
    chained := calculator.Calculate("*", 2.0, None);

    calculator.Reset();
    byZero := calculator.Calculate("/", 10.0, Some(0.0));

    var _ := calculator.Calculate("+", 100.0, Some(200.0));
    calculator.Reset();
    afterReset := calculator.GetResult();
  }
}
