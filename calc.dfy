/**
 * The calculator: an expression string built from digit and operation
 * clicks, a registry of plugins keyed by operation symbol, the text of the
 * display, and the handlers that change them.
 */
module Calc {

  import opened Wrappers
  import opened JsValues
  import opened Text
  import opened Plugins

  /** The state of the global `plugin` binding once an uploaded script has run. */
  datatype Binding = Undeclared | Declared(value: JsValue)

  /** The exceptions plugin validation can raise. */
  datatype JsError = ReferenceError | TypeError

  /** How `validateAndRegisterPlugin` completes. */
  datatype Completion = Normal | Throw(error: JsError)

  /** The three ways `validateAndRegisterPlugin` can treat the current binding. */
  datatype Validation = Accepted(plugin: Plugin) | Rejected | Raised(error: JsError)

  /**
   * What `validateAndRegisterPlugin` decides: reading an undeclared `plugin`
   * raises a ReferenceError, a `null` one makes `isValidPlugin` raise a
   * TypeError, a plugin-shaped value is accepted, anything else is rejected.
   */
  function Validate(binding: Binding): (r: Validation)
    ensures r.Accepted? <==> binding.Declared? && IsPluginShaped(binding.value)
    ensures r.Accepted? ==> r.plugin == AsPlugin(binding.value)
    ensures r.Raised? && r.error == ReferenceError <==> binding.Undeclared?
    ensures r.Raised? && r.error == TypeError <==> binding.Declared? && binding.value.Null?
  {
    match binding
    case Undeclared => Raised(ReferenceError)
    case Declared(v) =>
      match IsValidPlugin(v)
      case ThrowsTypeError => Raised(TypeError)
      case Answer(ok) => if ok then Accepted(AsPlugin(v)) else Rejected
  }

  /**
   * The two operands of a computation: the text is split on the symbol, each
   * piece goes through `Number`, and the first two are taken. With a single
   * piece, the second operand is left undefined.
   */
  function Operands(text: string, symbol: string, toNumber: string -> Num): (ab: (Operand, Operand))
    requires symbol != ""
    ensures ab.0.NumberOperand?
    ensures ab.1.MissingOperand? <==> IndexOf(text, symbol, 0).None?
  {
    var parts := Split(text, symbol);
    (NumberOperand(toNumber(parts[0])),
     if |parts| >= 2 then NumberOperand(toNumber(parts[1])) else MissingOperand)
  }

  /**
   * Digits, the padded symbol and more digits give `execute` the numbers of
   * the two padded operand texts, e.g. "3 + 4" passes Number("3 ") and
   * Number(" 4").
   */
  lemma OperandsOfExpression(x: string, symbol: string, y: string, toNumber: string -> Num)
    requires symbol != "" && Apart(x + " " + y, symbol)
    ensures Operands(x + " " + symbol + " " + y, symbol, toNumber)
            == (NumberOperand(toNumber(x + " ")), NumberOperand(toNumber(" " + y)))
  {
    SplitAroundSymbol(x, symbol, y);
  }

  /**
   * A text without the symbol (such as a previous result) gives `execute`
   * its number and an undefined second operand.
   */
  lemma OperandsWithoutSymbol(text: string, symbol: string, toNumber: string -> Num)
    requires symbol != "" && !Contains(text, symbol)
    ensures Operands(text, symbol, toNumber) == (NumberOperand(toNumber(text)), MissingOperand)
  {
  }

  /** The outcome of `calculateResult`, as a function of the state it reads. */
  datatype Computation = Skipped | Failed | Computed(value: Num)

  /**
   * `calculateResult` does nothing unless an operation is active and a
   * plugin is registered for it; otherwise it runs that plugin's `execute`
   * on the operands of the expression.
   */
  function Dispatch(text: string, operation: Option<string>, registry: map<string, Plugin>,
                    toNumber: string -> Num): (d: Computation)
    ensures d.Skipped? <==> operation.None? || operation.value == "" || operation.value !in registry
  {
    if operation.None? || operation.value == "" || operation.value !in registry then Skipped
    else
      var (a, b) := Operands(text, operation.value, toNumber);
      match registry[operation.value].execute(a, b)
      case Returned(v) => Computed(v)
      case Threw => Failed
  }

  /**
   * For the expression the handlers build, a dispatch runs the plugin
   * registered under the symbol on the numbers of the two padded operand
   * texts, and reports what `execute` did.
   */
  lemma DispatchOfExpression(x: string, symbol: string, y: string, registry: map<string, Plugin>,
                             toNumber: string -> Num)
    requires symbol != "" && symbol in registry && Apart(x + " " + y, symbol)
    ensures Dispatch(x + " " + symbol + " " + y, Some(symbol), registry, toNumber)
            == match registry[symbol].execute(NumberOperand(toNumber(x + " ")), NumberOperand(toNumber(" " + y)))
               case Returned(v) => Computed(v)
               case Threw => Failed
  {
    OperandsOfExpression(x, symbol, y, toNumber);
  }

  /**
   * When the first operand text already contains the symbol, as a negative
   * result "-1" does for a "-" plugin, the split cuts there first: "-1 - 4"
   * hands `execute` the numbers of "" and "1 ", not of "-1 " and " 4".
   */
  lemma NegativeResultSplitsEarly(toNumber: string -> Num)
    ensures Operands("-1 - 4", "-", toNumber)
            == (NumberOperand(toNumber("")), NumberOperand(toNumber("1 ")))
  {
    assert IndexOf("-1 - 4", "-", 0) == Some(0);
    var rest := "-1 - 4"[1..];
    assert rest == "1 - 4";
    assert rest[0] == '1' && rest[1] == ' ' && rest[2] == '-';
    assert rest[0..1] == ['1'] && rest[1..2] == [' '] && rest[2..3] == ['-'];
    assert OccursAt(rest, "-", 2) && !OccursAt(rest, "-", 0) && !OccursAt(rest, "-", 1);
    assert IndexOf(rest, "-", 0) == Some(2);
    assert rest[..2] == "1 ";
    assert IndexOf(rest[3..], "-", 0).None?;
  }

  /** Dispatch looks the plugin up by symbol, so it runs the latest registration. */
  lemma DispatchUsesLatestRegistration(text: string, registry: map<string, Plugin>, p: Plugin,
                                       q: Plugin, toNumber: string -> Num)
    requires p.operation == q.operation
    ensures Dispatch(text, Some(q.operation), Register(Register(registry, p), q), toNumber)
            == Dispatch(text, Some(q.operation), Register(registry, q), toNumber)
  {
  }

  class Calculator {
    /** JavaScript's `Number(text)`, applied to each operand text. */
    const toNumber: string -> Num
    /** JavaScript's `String(number)`, applied to a result. */
    const toText: Num -> string

    /** The expression text as typed. */
    var currentValue: string
    /** The symbol of the last selected operation, null until one is selected. */
    var operation: Option<string>
    /** The registry: operation symbol to plugin. */
    var plugins: map<string, Plugin>
    /** The plugin captured by each operation button, in creation order. */
    var buttons: seq<Plugin>
    /** The text content of the display element. */
    var display: string

    /** Plugins sit under their own symbols, and every button's symbol is registered. */
    ghost predicate Valid()
      reads this
    {
      && RegistryWellFormed(plugins)
      && forall i :: 0 <= i < |buttons| ==> buttons[i].operation in plugins
    }

    /** A fresh calculator: empty expression, no operation, no plugins, the page's display text. */
    constructor (toNumber: string -> Num, toText: Num -> string, shown: string)
      ensures Valid()
      ensures this.toNumber == toNumber && this.toText == toText
      ensures currentValue == "" && operation == None && plugins == map[] && buttons == []
      ensures display == shown
    {
      this.toNumber := toNumber;
      this.toText := toText;
      currentValue := "";
      operation := None;
      plugins := map[];
      buttons := [];
      display := shown;
    }

    /** `updateDisplay(value)`: the display shows `text`. */
    method UpdateDisplay(text: string)
      modifies this`display
      ensures display == text
    {
      display := text;
    }

    /** A digit button appends its value to the expression and shows the expression. */
    method HandleNumberClick(value: string)
      requires Valid()
      modifies this
      ensures Valid()
      ensures currentValue == old(currentValue) + value && display == currentValue
      ensures operation == old(operation) && plugins == old(plugins) && buttons == old(buttons)
    {
      currentValue := currentValue + value;
      UpdateDisplay(currentValue);
    }

    /** An operation button selects its plugin's symbol and appends it padded with spaces. */
    method HandleOperationClick(p: Plugin)
      requires Valid()
      modifies this
      ensures Valid()
      ensures operation == Some(p.operation)
      ensures currentValue == old(currentValue) + " " + p.operation + " " && display == currentValue
      ensures plugins == old(plugins) && buttons == old(buttons)
    {
      operation := Some(p.operation);
      currentValue := currentValue + " " + p.operation + " ";
      UpdateDisplay(currentValue);
    }

    /**
     * The equals button. Skipped: nothing changes. `execute` threw: only the
     * display changes, to "Error". It returned `v`: the expression and the
     * display become `String(v)`. The operation and the registry are never
     * touched, so a plugin that threw stays registered.
     */
    method CalculateResult()
      requires Valid()
      modifies this
      ensures Valid()
      ensures operation == old(operation) && plugins == old(plugins) && buttons == old(buttons)
      ensures match Dispatch(old(currentValue), old(operation), old(plugins), toNumber)
        case Skipped => currentValue == old(currentValue) && display == old(display)
        case Failed => currentValue == old(currentValue) && display == "Error"
        case Computed(v) => currentValue == toText(v) && display == toText(v)
    {
      if operation.None? || operation.value == "" || operation.value !in plugins {
        return;
      }
      var (a, b) := Operands(currentValue, operation.value, toNumber);
      match plugins[operation.value].execute(a, b)
      case Returned(result) =>
        currentValue := toText(result);
        UpdateDisplay(toText(result));
      case Threw =>
        UpdateDisplay("Error");
    }

    /** Stores `p` in the registry under its own symbol. */
    method RegisterPlugin(p: Plugin)
      modifies this
      ensures plugins == Register(old(plugins), p)
      ensures currentValue == old(currentValue) && operation == old(operation)
      ensures buttons == old(buttons) && display == old(display)
    {
      plugins := plugins[p.operation := p];
    }

    /** A new operation button bound to `p`, after the existing ones. */
    method CreateOperationButton(p: Plugin)
      modifies this
      ensures buttons == old(buttons) + [p]
      ensures currentValue == old(currentValue) && operation == old(operation)
      ensures plugins == old(plugins) && display == old(display)
    {
      buttons := buttons + [p];
    }

    /**
     * Validates the global `plugin` binding. Accepted: registered and given a
     * button. Rejected: the display says "Invalid Plugin Structure". The
     * errors are thrown to the caller with nothing changed.
     */
    method ValidateAndRegisterPlugin(binding: Binding) returns (c: Completion)
      requires Valid()
      modifies this
      ensures Valid()
      ensures currentValue == old(currentValue) && operation == old(operation)
      ensures match Validate(binding)
        case Accepted(p) =>
          && plugins == Register(old(plugins), p) && buttons == old(buttons) + [p]
          && display == old(display) && c == Normal
        case Rejected =>
          && plugins == old(plugins) && buttons == old(buttons)
          && display == "Invalid Plugin Structure" && c == Normal
        case Raised(e) =>
          && plugins == old(plugins) && buttons == old(buttons)
          && display == old(display) && c == Throw(e)
    {
      if binding.Undeclared? {
        return Throw(ReferenceError);
      }
      var verdict := IsValidPlugin(binding.value);
      if verdict.ThrowsTypeError? {
        return Throw(TypeError);
      }
      if verdict.valid {
        var p := AsPlugin(binding.value);
        RegisterPlugin(p);
        RegisterKeepsWellFormed(old(plugins), p);
        CreateOperationButton(p);
      } else {
        UpdateDisplay("Invalid Plugin Structure");
      }
      c := Normal;
    }

    /**
     * The uploaded script has run and left `binding`; validation and
     * registration run inside a try whose catch shows "Error Loading Plugin".
     */
    method ProcessPluginFile(binding: Binding)
      requires Valid()
      modifies this
      ensures Valid()
      ensures currentValue == old(currentValue) && operation == old(operation)
      ensures match Validate(binding)
        case Accepted(p) =>
          && plugins == Register(old(plugins), p) && buttons == old(buttons) + [p]
          && display == old(display)
        case Rejected =>
          && plugins == old(plugins) && buttons == old(buttons)
          && display == "Invalid Plugin Structure"
        case Raised(_) =>
          && plugins == old(plugins) && buttons == old(buttons)
          && display == "Error Loading Plugin"
    {
      var c := ValidateAndRegisterPlugin(binding);
      if c.Throw? {
        UpdateDisplay("Error Loading Plugin");
      }
    }

    /** A failed read of the uploaded file only changes the display. */
    method HandleFileError()
      requires Valid()
      modifies this
      ensures Valid()
      ensures display == "Error Reading File"
      ensures currentValue == old(currentValue) && operation == old(operation)
      ensures plugins == old(plugins) && buttons == old(buttons)
    {
      UpdateDisplay("Error Reading File");
    }
  }

  /**
   * In a valid calculator every button's plugin is registered under its own
   * non-empty symbol, so selecting any button makes the next equals dispatch
   * rather than skip.
   */
  lemma ButtonOperationIsDispatched(c: Calculator, i: nat)
    requires c.Valid() && i < |c.buttons|
    ensures !Dispatch(c.currentValue, Some(c.buttons[i].operation), c.plugins, c.toNumber).Skipped?
  {
  }

  /**
   * A session on a calculator with `plus` registered under "+": digit "3",
   * the "+" button, digit "4", equals. `execute` receives Number("3 ") and
   * Number(" 4"); its result replaces the expression, or "Error" is shown.
   */
  method ThreePlusFour(c: Calculator, plus: Plugin)
    requires c.Valid() && c.currentValue == "" && plus.operation == "+"
    requires "+" in c.plugins && c.plugins["+"] == plus
    modifies c
    ensures c.plugins == old(c.plugins) && c.operation == Some("+")
    ensures match plus.execute(NumberOperand(c.toNumber("3 ")), NumberOperand(c.toNumber(" 4")))
      case Returned(v) => c.currentValue == c.toText(v) && c.display == c.toText(v)
      case Threw => c.currentValue == "3 + 4" && c.display == "Error"
  {
    c.HandleNumberClick("3");
    c.HandleOperationClick(plus);
    c.HandleNumberClick("4");
    assert c.currentValue == "3" + " " + "+" + " " + "4";
    assert Apart("3" + " " + "4", "+") by {
      forall ch | ch in "+" ensures ch !in "3 4" {
        assert ch == '+';
      }
    }
    OperandsOfExpression("3", "+", "4", c.toNumber);
    assert "3" + " " == "3 " && " " + "4" == " 4";
    assert Operands(c.currentValue, "+", c.toNumber)
           == (NumberOperand(c.toNumber("3 ")), NumberOperand(c.toNumber(" 4")));
    c.CalculateResult();
  }
}
