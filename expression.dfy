/** The expression-accumulation state machine of the calculator, as values:
    the committed "total" expression, the operand being typed ("current"),
    and one function per transition. The class in CalculatorApp performs
    these transitions in place and is proved against the functions here. */
module Expression {
  import opened Keypad

  datatype Option<T> = None | Some(value: T)

  /** Python's eval followed by str(): the text of the expression's value, or
      None when evaluation raises (syntax error, division by zero, ...). */
  type Evaluator = string -> Option<string>

  /** What the current expression becomes when evaluation raises. */
  const ErrorText: string := "Error"

  datatype ExprState = ExprState(total: string, current: string)

  /** Both expressions empty: the state at start-up and after a clear. */
  const Init: ExprState := ExprState("", "")

  /** The whole expression that evaluating would submit. */
  function Text(s: ExprState): string
  {
    s.total + s.current
  }

  /** add_to_expression: the key's text goes onto the current expression. */
  function Enter(s: ExprState, key: Key): (r: ExprState)
    ensures r.total == s.total
    ensures Text(r) == Text(s) + KeyText(key) && |r.current| == |s.current| + 1
  {
    ExprState(s.total, s.current + KeyText(key))
  }

  /** append_operator: the operator goes onto the current expression, which
      then moves onto the end of the total and is emptied. */
  function Commit(s: ExprState, op: Op): (r: ExprState)
    ensures Text(r) == Text(s) + OpText(op)
    ensures r.current == ""
  {
    var pending := s.current + OpText(op);
    ExprState(s.total + pending, "")
  }

  /** evaluate: current is appended to total; on success the value's text
      replaces current and total is emptied; on failure current becomes
      "Error" and total keeps the whole expression. */
  function Evaluated(s: ExprState, eval: Evaluator): (r: ExprState)
    ensures eval(Text(s)).Some? ==> r.total == "" && Text(r) == eval(Text(s)).value
    ensures eval(Text(s)).None? ==> r.total == Text(s) && r.current == ErrorText
  {
    var expr := s.total + s.current;
    match eval(expr)
    case Some(result) => ExprState("", result)
    case None => ExprState(expr, ErrorText)
  }

  /** The user's actions: a digit-pad key, an operator key, "C" and "=". */
  datatype Action = Press(key: Key) | Operator(op: Op) | Clear | Equals

  /** One action. A key or operator press appends its symbol to the whole
      expression; a clear empties both strings. */
  function Step(s: ExprState, a: Action, eval: Evaluator): (r: ExprState)
    ensures a.Press? || a.Operator? ==> Text(r) == Text(s) + Symbol(a)
    ensures a.Clear? ==> r == Init
  {
    match a
    case Press(key) => Enter(s, key)
    case Operator(op) => Commit(s, op)
    case Clear => Init
    case Equals => Evaluated(s, eval)
  }

  /** The state after performing the actions in order, as the event loop
      delivers them one at a time. */
  function Run(s: ExprState, xs: seq<Action>, eval: Evaluator): (r: ExprState)
    decreases |xs|
  {
    if xs == [] then s else Step(Run(s, xs[..|xs| - 1], eval), xs[|xs| - 1], eval)
  }

  /** Running two action sequences one after the other is running their concatenation. */
  lemma {:induction false} RunConcat(s: ExprState, xs: seq<Action>, ys: seq<Action>, eval: Evaluator)
    ensures Run(s, xs + ys, eval) == Run(Run(s, xs, eval), ys, eval)
    decreases |ys|
  {
    if ys == [] {
      assert xs + ys == xs;
    } else {
      var init := ys[..|ys| - 1];
      assert (xs + ys)[..|xs + ys| - 1] == xs + init;
      RunConcat(s, xs, init, eval);
    }
  }

  // ---------------------------------------------------------------------
  // Single transitions

  /** A key adds exactly one character to current and leaves total alone. */
  lemma EnterEffect(s: ExprState, key: Key, eval: Evaluator)
    ensures Step(s, Press(key), eval).total == s.total
    ensures Step(s, Press(key), eval).current == s.current + KeyText(key)
    ensures |Step(s, Press(key), eval).current| == |s.current| + 1
  {
  }

  /** An operator commits current and itself to total and empties current. */
  lemma CommitEffect(s: ExprState, op: Op, eval: Evaluator)
    ensures Step(s, Operator(op), eval) == ExprState(s.total + s.current + OpText(op), "")
  {
  }

  /** Clearing empties both expressions whatever came before, so a second clear changes nothing. */
  lemma ClearIdempotent(s: ExprState, eval: Evaluator)
    ensures Step(s, Clear, eval) == Init
    ensures Step(Step(s, Clear, eval), Clear, eval) == Step(s, Clear, eval)
  {
  }

  /** After a clear, nothing done before it has any effect. */
  lemma ClearForgetsHistory(s: ExprState, xs: seq<Action>, ys: seq<Action>, eval: Evaluator)
    ensures Run(s, xs + [Clear] + ys, eval) == Run(Init, ys, eval)
  {
    RunConcat(s, xs + [Clear], ys, eval);
    assert (xs + [Clear])[..|xs + [Clear]| - 1] == xs;
  }

  /** A successful evaluation leaves the value's text in current and an empty total. */
  lemma EvaluateSuccess(s: ExprState, eval: Evaluator, result: string)
    requires eval(Text(s)) == Some(result)
    ensures Step(s, Equals, eval) == ExprState("", result)
    ensures Text(Step(s, Equals, eval)) == result
  {
  }

  /** A failed evaluation puts "Error" in current and keeps the whole expression in total. */
  lemma EvaluateFailure(s: ExprState, eval: Evaluator)
    requires eval(Text(s)) == None
    ensures Step(s, Equals, eval) == ExprState(Text(s), ErrorText)
    ensures Text(Step(s, Equals, eval)) == Text(s) + "Error"
  {
  }

  /** Python's eval rejects the empty string. */
  predicate RejectsEmpty(eval: Evaluator)
  {
    eval("") == None
  }

  /** Evaluating right after a clear fails: current shows "Error" and total stays empty. */
  lemma EvaluateAfterClear(s: ExprState, eval: Evaluator)
    requires RejectsEmpty(eval)
    ensures Run(s, [Clear, Equals], eval) == ExprState("", ErrorText)
  {
    assert [Clear, Equals][..1] == [Clear];
    assert [Clear][..0] == [];
  }

  /** After a failed evaluation the stale total is kept: the next key is typed
      after "Error", and the next evaluation submits the old expression followed
      by "Error" and that key. */
  lemma TypingAfterError(s: ExprState, key: Key, eval: Evaluator)
    requires eval(Text(s)) == None
    ensures Run(s, [Equals, Press(key)], eval) == ExprState(Text(s), ErrorText + KeyText(key))
    ensures Text(Run(s, [Equals, Press(key)], eval)) == Text(s) + "Error" + KeyText(key)
  {
    assert [Equals, Press(key)][..1] == [Equals];
    assert [Equals][..0] == [];
  }

  /** An operator after a successful evaluation continues from its value. */
  lemma ChainAfterEvaluate(s: ExprState, op: Op, eval: Evaluator, result: string)
    requires eval(Text(s)) == Some(result)
    ensures Run(s, [Equals, Operator(op)], eval) == ExprState(result + OpText(op), "")
  {
    assert [Equals, Operator(op)][..1] == [Equals];
    assert [Equals][..0] == [];
  }

  // ---------------------------------------------------------------------
  // Sequences of key and operator presses

  /** Only digit-pad keys and operators, no clear and no evaluate. */
  predicate TypingOnly(xs: seq<Action>)
  {
    forall i :: 0 <= i < |xs| ==> xs[i].Press? || xs[i].Operator?
  }

  /** The text an action types: a key's character or an operator's symbol;
      clear and evaluate type nothing. */
  function Symbol(a: Action): string
  {
    match a
    case Press(key) => KeyText(key)
    case Operator(op) => OpText(op)
    case Clear => ""
    case Equals => ""
  }

  /** The in-order concatenation of the symbols typed. */
  function Symbols(xs: seq<Action>): string
    decreases |xs|
  {
    if xs == [] then "" else Symbols(xs[..|xs| - 1]) + Symbol(xs[|xs| - 1])
  }

  lemma SymbolsSnoc(xs: seq<Action>, a: Action)
    ensures Symbols(xs + [a]) == Symbols(xs) + Symbol(a)
  {
  }

  lemma {:induction false} SymbolsConcat(xs: seq<Action>, ys: seq<Action>)
    ensures Symbols(xs + ys) == Symbols(xs) + Symbols(ys)
    decreases |ys|
  {
    if ys == [] {
      assert xs + ys == xs;
    } else {
      var init, last := ys[..|ys| - 1], ys[|ys| - 1];
      assert xs + ys == (xs + init) + [last];
      calc {
        Symbols(xs + ys);
        { SymbolsSnoc(xs + init, last); }
        Symbols(xs + init) + Symbol(last);
        { SymbolsConcat(xs, init); }
        (Symbols(xs) + Symbols(init)) + Symbol(last);
        Symbols(xs) + (Symbols(init) + Symbol(last));
        Symbols(xs) + Symbols(ys);
      }
    }
  }

  /** Key presses alone type only digit-pad characters. */
  lemma {:induction false} PressesTypeKeypadChars(xs: seq<Action>)
    requires forall i :: 0 <= i < |xs| ==> xs[i].Press?
    ensures forall c | c in Symbols(xs) :: c in KeypadChars
    decreases |xs|
  {
    if xs != [] {
      PressesTypeKeypadChars(xs[..|xs| - 1]);
      KeyTextShape(xs[|xs| - 1].key);
    }
  }

  /** The index just after the last operator in xs (0 if there is none). */
  function CutPoint(xs: seq<Action>): (k: nat)
    ensures k <= |xs|
    ensures k > 0 ==> xs[k - 1].Operator?
    ensures forall i :: k <= i < |xs| ==> !xs[i].Operator?
    decreases |xs|
  {
    if xs == [] then 0
    else if xs[|xs| - 1].Operator? then |xs|
    else CutPoint(xs[..|xs| - 1])
  }

  /** Typing appends exactly the typed symbols to the whole expression. */
  lemma {:induction false} TypingAppends(s: ExprState, xs: seq<Action>, eval: Evaluator)
    requires TypingOnly(xs)
    ensures Text(Run(s, xs, eval)) == Text(s) + Symbols(xs)
    ensures s.total <= Run(s, xs, eval).total
    decreases |xs|
  {
    if xs != [] {
      var init, last := xs[..|xs| - 1], xs[|xs| - 1];
      assert xs == init + [last];
      TypingAppends(s, init, eval);
      SymbolsSnoc(init, last);
      var t := Run(s, init, eval);
      assert Run(s, xs, eval) == Step(t, last, eval);
    }
  }

  /** t.total holds the symbols of xs up to and including its last operator,
      t.current the symbols after it. */
  ghost predicate SplitAtLastOperator(xs: seq<Action>, t: ExprState)
  {
    t.total == Symbols(xs[..CutPoint(xs)]) && t.current == Symbols(xs[CutPoint(xs)..])
  }

  /** A key press keeps the split, adding its symbol to the current side. */
  lemma SplitAfterPress(init: seq<Action>, last: Action, t: ExprState, eval: Evaluator)
    requires last.Press? && SplitAtLastOperator(init, t)
    ensures SplitAtLastOperator(init + [last], Step(t, last, eval))
  {
    var xs := init + [last];
    assert xs[..|xs| - 1] == init;
    var j := CutPoint(init);
    assert CutPoint(xs) == j;
    assert xs[..j] == init[..j];
    assert xs[j..] == init[j..] + [last];
    SymbolsSnoc(init[j..], last);
  }

  /** Joined back together, the two sides of the split are everything typed. */
  lemma SplitJoins(xs: seq<Action>, t: ExprState)
    requires SplitAtLastOperator(xs, t)
    ensures Text(t) == Symbols(xs)
  {
    var k := CutPoint(xs);
    assert xs == xs[..k] + xs[k..];
    SymbolsConcat(xs[..k], xs[k..]);
  }

  /** An operator moves everything, itself included, to the total side. */
  lemma SplitAfterOperator(init: seq<Action>, last: Action, t: ExprState, eval: Evaluator)
    requires last.Operator? && SplitAtLastOperator(init, t)
    ensures SplitAtLastOperator(init + [last], Step(t, last, eval))
  {
    var xs := init + [last];
    assert xs[..|xs| - 1] == init;
    assert CutPoint(xs) == |xs|;
    SplitJoins(init, t);
    SymbolsSnoc(init, last);
    assert Step(t, last, eval) == ExprState(Symbols(xs), "");
    assert xs[..|xs|] == xs;
    assert xs[|xs|..] == [];
  }

  /** From the empty state, typing leaves in total everything up to and
      including the last operator, and in current everything after it. */
  lemma {:induction false} TypingFromEmpty(xs: seq<Action>, eval: Evaluator)
    requires TypingOnly(xs)
    ensures Run(Init, xs, eval).total == Symbols(xs[..CutPoint(xs)])
    ensures Run(Init, xs, eval).current == Symbols(xs[CutPoint(xs)..])
    decreases |xs|
  {
    if xs != [] {
      var init, last := xs[..|xs| - 1], xs[|xs| - 1];
      assert xs == init + [last];
      TypingFromEmpty(init, eval);
      var t := Run(Init, init, eval);
      assert SplitAtLastOperator(init, t);
      if last.Press? {
        SplitAfterPress(init, last, t, eval);
      } else {
        SplitAfterOperator(init, last, t, eval);
      }
      assert SplitAtLastOperator(xs, Run(Init, xs, eval));
    }
  }

  /** The symbols of a sequence that ends in an operator end in that operator's symbol. */
  lemma SymbolsEndWithOperator(ys: seq<Action>)
    requires ys != [] && ys[|ys| - 1].Operator?
    ensures Symbols(ys) == Symbols(ys[..|ys| - 1]) + OpText(ys[|ys| - 1].op)
  {
  }

  /** So total ends with the symbol of the last operator typed ... */
  lemma TotalEndsWithLastOperator(xs: seq<Action>, eval: Evaluator)
    requires TypingOnly(xs) && CutPoint(xs) > 0
    ensures Run(Init, xs, eval).total ==
            Symbols(xs[..CutPoint(xs) - 1]) + OpText(xs[CutPoint(xs) - 1].op)
  {
    TypingFromEmpty(xs, eval);
    var k := CutPoint(xs);
    var committed := xs[..k];
    SymbolsEndWithOperator(committed);
    assert committed[..k - 1] == xs[..k - 1];
  }

  /** ... and current holds only digit-pad characters. */
  lemma CurrentIsKeypadText(xs: seq<Action>, eval: Evaluator)
    requires TypingOnly(xs)
    ensures forall c | c in Run(Init, xs, eval).current :: c in KeypadChars
  {
    TypingFromEmpty(xs, eval);
    PressesTypeKeypadChars(xs[CutPoint(xs)..]);
  }

  /** There is no check on the shape of a number: two points in a row are accepted. */
  lemma NoNumberValidation(eval: Evaluator)
    ensures Run(Init, [Press(Point), Press(Point)], eval).current == ".."
  {
  }
}
