/** The Calculator object: the two expression strings it updates in place,
    the selected font size, and the two display labels it rewrites after
    every change. */
module CalculatorApp {
  import opened Keypad
  import opened Expression
  import opened Presentation

  class Calculator {
    var fontSize: string
    var totalExpression: string
    var currentExpression: string
    var totalLabel: Label
    var currentLabel: Label

    /** The labels show the expressions: total verbatim, current cut to 11
        characters, in the fonts of the selected size. */
    ghost predicate Valid()
      reads this
    {
      DisplayLabels(totalLabel, currentLabel) == Shown(State(), fontSize)
    }

    function State(): ExprState
      reads this
    {
      ExprState(totalExpression, currentExpression)
    }

    /** Start-up: size "Large", both expressions empty, labels built from them. */
    constructor ()
      ensures Valid()
      ensures fontSize == "Large" && State() == Init
    {
      fontSize := "Large";
      totalExpression := "";
      currentExpression := "";
      var labels := Shown(Init, "Large");
      totalLabel := labels.total;
      currentLabel := labels.current;
    }

    /** update_label: the current label shows the first 11 characters. */
    method UpdateLabel()
      modifies this`currentLabel
      ensures currentLabel == Label(Display(currentExpression), old(currentLabel.font))
    {
      currentLabel := currentLabel.(text := Display(currentExpression));
    }

    /** update_total_label: the total label shows the whole total. */
    method UpdateTotalLabel()
      modifies this`totalLabel
      ensures totalLabel == Label(totalExpression, old(totalLabel.font))
    {
      totalLabel := totalLabel.(text := totalExpression);
    }

    /** add_to_expression: the key's text goes onto current; total is untouched. */
    method AddToExpression(key: Key)
      requires Valid()
      modifies this
      ensures Valid() && fontSize == old(fontSize)
      ensures totalExpression == old(totalExpression)
      ensures currentExpression == old(currentExpression) + KeyText(key)
      ensures State() == Enter(old(State()), key)
    {
      currentExpression := currentExpression + KeyText(key);
      UpdateLabel();
    }

    /** append_operator: total gains the old current and the operator; current is emptied. */
    method AppendOperator(op: Op)
      requires Valid()
      modifies this
      ensures Valid() && fontSize == old(fontSize)
      ensures totalExpression == old(totalExpression) + old(currentExpression) + OpText(op)
      ensures currentExpression == ""
      ensures State() == Commit(old(State()), op)
    {
      currentExpression := currentExpression + OpText(op);
      totalExpression := totalExpression + currentExpression;
      currentExpression := "";
      UpdateTotalLabel();
      UpdateLabel();
    }

    /** clear: both expressions empty, from any state. */
    method Clear()
      requires Valid()
      modifies this
      ensures Valid() && fontSize == old(fontSize)
      ensures totalExpression == "" && currentExpression == ""
      ensures State() == Init
    {
      currentExpression := "";
      totalExpression := "";
      UpdateLabel();
      UpdateTotalLabel();
    }

    /** evaluate: the concatenated expression is handed to the evaluator; on
        success current holds the value's text and total is emptied, on
        failure current is "Error" and total keeps the concatenation. The
        labels are refreshed on both paths. */
    method Evaluate(eval: Evaluator)
      requires Valid()
      modifies this
      ensures Valid() && fontSize == old(fontSize)
      ensures eval(old(totalExpression + currentExpression)).Some? ==>
                totalExpression == "" &&
                currentExpression == eval(old(totalExpression + currentExpression)).value
      ensures eval(old(totalExpression + currentExpression)).None? ==>
                totalExpression == old(totalExpression + currentExpression) &&
                currentExpression == ErrorText
      ensures State() == Evaluated(old(State()), eval)
    {
      totalExpression := totalExpression + currentExpression;
      match eval(totalExpression) {
        case Some(result) =>
          currentExpression := result;
          totalExpression := "";
        case None =>
          currentExpression := ErrorText;
      }
      UpdateLabel();
      UpdateTotalLabel();
    }

    /** reload_ui: both labels are rebuilt in the fonts of the selected size
        and show the unchanged expressions, current cut to 11 characters. */
    method ReloadUi()
      modifies this`totalLabel, this`currentLabel
      ensures Valid()
      ensures State() == old(State()) && fontSize == old(fontSize)
    {
      var labels := Shown(State(), fontSize);
      totalLabel := labels.total;
      currentLabel := labels.current;
    }

    /** Choosing a size in the font menu sets it and rebuilds the labels;
        the expressions are not touched, so their text on screen is unchanged. */
    method SelectFontSize(tier: string)
      requires Valid()
      modifies this
      ensures Valid() && fontSize == tier
      ensures State() == old(State())
      ensures totalLabel.text == old(totalLabel.text) && currentLabel.text == old(currentLabel.text)
      ensures currentLabel.font == GetFonts(tier).display
    {
      fontSize := tier;
      ReloadUi();
    }
  }

  /** A session from the start: "2", "+", "3", "=" with an evaluator that
      gives "5" for "2+3" ends with "5" on the current label and an empty total. */
  method TwoPlusThree(eval: Evaluator) returns (shown: string, total: string)
    requires eval("2+3") == Some("5")
    ensures shown == "5" && total == ""
  {
    var c := new Calculator();
    assert KeyText(Digit(2)) == "2" && KeyText(Digit(3)) == "3";
    c.AddToExpression(Digit(2));
    c.AppendOperator(Add);
    assert c.totalExpression == "2+" && c.currentExpression == "";
    c.AddToExpression(Digit(3));
    assert c.totalExpression + c.currentExpression == "2+3";
    c.Evaluate(eval);
    assert Display("5") == "5";
    shown, total := c.currentLabel.text, c.totalLabel.text;
  }

  /** "5", "/", "0", "=" with an evaluator that raises on "5/0": current shows
      "Error" and the total still reads "5/0". */
  method DivideByZero(eval: Evaluator) returns (shown: string, total: string)
    requires eval("5/0") == None
    ensures shown == "Error" && total == "5/0"
  {
    var c := new Calculator();
    assert KeyText(Digit(5)) == "5" && KeyText(Digit(0)) == "0";
    c.AddToExpression(Digit(5));
    c.AppendOperator(Divide);
    assert c.totalExpression == "5/" && c.currentExpression == "";
    c.AddToExpression(Digit(0));
    assert c.totalExpression + c.currentExpression == "5/0";
    c.Evaluate(eval);
    assert Display(ErrorText) == "Error";
    shown, total := c.currentLabel.text, c.totalLabel.text;
  }
}
