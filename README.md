# Extensible calculator: a Dafny model of its plugin core

The calculator (`public/script.js`) has no built-in arithmetic. Each operation
comes from a plugin script that the user uploads at run time. The script must
leave a global `plugin` object with an `operation` symbol and an `execute`
function. The `Calculator` class keeps four pieces of state:

- `currentValue`, the expression text as typed;
- `operation`, the symbol of the last selected operation, or null;
- `plugins`, the registry from symbol to plugin;
- the text the display shows.

Digit buttons append their value. An operation button selects its symbol and
appends it with a space on each side. The equals button splits the expression
on the symbol, converts the first two pieces with `Number`, and calls the
registered plugin's `execute`. Uploading a script validates the global
`plugin` and registers it.

The model has five modules:

- `Wrappers`: `Option`.
- `JsValues`: the JavaScript values a script can leave in `plugin`, with
  `typeof`, truthiness and property reads. The properties of an object or
  function are every property a read of it finds, own or inherited. Numbers are IEEE 754 bit patterns.
  Their arithmetic is never interpreted.
- `Text`: `indexOf` and `split` for a non-empty string separator, and `join`
  as the inverse of `split`.
- `Plugins`: the validator `isValidPlugin`, the plugin value and the registry
  update.
- `Calc`: the `Calculator` class. Each handler is a method with
  `modifies this`. Each method states every field it changes and every field it
  leaves alone. Outcomes come from two functions. `Dispatch` covers the equals
  button and `Validate` covers plugin loading.

`Number(text)` and `String(number)` are built-ins whose floating-point
behaviour is not modelled. They are the calculator's constants `toNumber` and
`toText`, given to the constructor. The uploaded script is foreign code. It is
represented only by the state it leaves the global `plugin` binding in:
undeclared, or declared with some value (possibly `undefined` or `null`).

Four behaviours of the code a reader may not expect:

- There is no parse error. `Number` never throws, so a non-numeric piece
  reaches `execute` as NaN.
- The expression is not required to split into exactly two pieces. Only the
  first two pieces are used. When there is one piece, the second operand is
  `undefined` (`MissingOperand`).
- A `null` candidate passes the "not undefined" test of `isValidPlugin`. The
  next property read throws a TypeError. The catch then shows "Error Loading Plugin", not
  "Invalid Plugin Structure".
- The split cuts at the first occurrence of the symbol anywhere in the
  expression. After a negative result "-1", selecting a "-" plugin and digit
  "4" gives "-1 - 4", and `execute` receives Number("") and Number("1 ")
  (`NegativeResultSplitsEarly`).

## Model

| member | source | states |
|---|---|---|
| `JsValues.TypeOf` | public/script.js:91-95 | `typeof` is "function", "string" or "undefined" exactly for functions, strings and `undefined` |
| `JsValues.Truthy` | public/script.js:91-93 | every value is truthy except undefined, null, false, zero, NaN and the empty string |
| `JsValues.Property` | public/script.js:92-93 | a property read finds a property (own or inherited) of an object or function; otherwise it yields `undefined` |
| `Plugins.IsValidPlugin` | public/script.js:90-96 | throws exactly on `null`; holds exactly when the candidate is an object or function whose `operation` reads as a non-empty string and whose `execute` reads as a function |
| `Plugins.AsPlugin` | public/script.js:81-82 | the registered plugin carries the candidate's non-empty `operation` and its `execute` |
| `Plugins.Register` | public/script.js:98-100 | after registration the symbol looks up the new plugin; the key set gains only that symbol; every other binding is unchanged |
| `Plugins.RegisterOverwrites` | public/script.js:98-100 | two registrations under one symbol leave the same registry as the second alone (last write wins) |
| `Plugins.RegisterKeepsWellFormed` | public/script.js:98-100 | registering a plugin with a non-empty symbol keeps every plugin stored under its own non-empty symbol |
| `Text.IndexOf` | public/script.js:44 | the result is an occurrence of the separator at or after the start, with no occurrence before it; none means no occurrence at all |
| `Text.Split` | public/script.js:44 | `split` yields at least one piece, and no piece contains the separator; with no occurrence the one piece is the whole text; otherwise there are at least two pieces and the first ends at the leftmost occurrence |
| `Text.SplitRest` | public/script.js:44 | after the leftmost cut, the remaining pieces are the split of the text after that occurrence |
| `Text.SplitThenJoin` | public/script.js:44 | joining the pieces with the separator gives back the original text |
| `Text.SplitAroundSymbol` | public/script.js:44 | text + " " + symbol + " " + text splits into exactly the two padded operand texts, when the symbol shares no character with them and has no space |
| `Calc.Operands` | public/script.js:44 | the first operand is always a number; the second is `undefined` exactly when the symbol does not occur in the text (its values are stated by `OperandsOfExpression` and `OperandsWithoutSymbol`) |
| `Calc.OperandsOfExpression` | public/script.js:44 | for "3 + 4" and its like, `execute` receives Number("3 ") and Number(" 4") |
| `Calc.OperandsWithoutSymbol` | public/script.js:44 | when the text lacks the symbol (e.g. a previous result), `execute` receives its number and `undefined` |
| `Calc.Dispatch` | public/script.js:40-51 | the equals button is skipped exactly when no operation is set, it is empty, or no plugin is registered for it |
| `Calc.DispatchOfExpression` | public/script.js:41-47 | for digits, the padded symbol and digits, a dispatch runs the plugin registered under the symbol on Number of the two padded operand texts; a return becomes the computed value and a throw a failure |
| `Calc.NegativeResultSplitsEarly` | public/script.js:44 | "-1 - 4" on symbol "-" passes Number("") and Number("1 ") to `execute` |
| `Calc.DispatchUsesLatestRegistration` | public/script.js:41-45 | equals runs the plugin registered last under the active symbol |
| `Calc.ButtonOperationIsDispatched` | public/script.js:102-114 | in a valid calculator, selecting any operation button makes the next equals dispatch rather than skip |
| `Calc.Validate` | public/script.js:80-96 | the outcome is accepted exactly for a declared plugin-shaped value; it is a ReferenceError exactly for an undeclared binding and a TypeError exactly for `null`; otherwise it is rejected |
| `Calc.Calculator.constructor` | public/script.js:2-10 | empty expression, no operation, empty registry, no buttons, the page's display text; the invariant holds |
| `Calc.Calculator.UpdateDisplay` | public/script.js:121-123 | the display shows the given text and nothing else changes |
| `Calc.Calculator.HandleNumberClick` | public/script.js:31-34 | appends exactly the value to the expression and shows the new expression; operation, registry and buttons unchanged |
| `Calc.Calculator.HandleOperationClick` | public/script.js:110-114 | sets the operation to the plugin's symbol; appends " " + symbol + " "; shows the expression; registry unchanged |
| `Calc.Calculator.CalculateResult` | public/script.js:40-51 | when skipped, nothing changes; when `execute` throws, only the display changes, to "Error"; when it returns v, the expression and display become String(v); operation and registry are always kept |
| `Calc.Calculator.RegisterPlugin` | public/script.js:98-100 | the registry becomes `Register` of the old one; all other state is unchanged |
| `Calc.Calculator.CreateOperationButton` | public/script.js:102-108 | one button bound to the plugin is appended, duplicates included; all other state is unchanged |
| `Calc.Calculator.ValidateAndRegisterPlugin` | public/script.js:80-88 | accepted: registered and given a button; rejected: registry unchanged and "Invalid Plugin Structure" shown; errors: thrown with nothing changed; the invariant is kept |
| `Calc.Calculator.ProcessPluginFile` | public/script.js:67-78 | as above, except that a thrown error is caught and shows "Error Loading Plugin" with the registry unchanged |
| `Calc.Calculator.HandleFileError` | public/script.js:116-119 | a read failure only sets the display to "Error Reading File" |
| `Calc.ThreePlusFour` | public/script.js:31-51 | digit "3", "+", digit "4", equals passes Number("3 ") and Number(" 4") to the "+" plugin; the expression becomes its result, or "Error" is shown and "3 + 4" is kept |

## Left out

- Reading the uploaded file (`handlePluginUpload`, `FileReader`, public/script.js:57-65) is asynchronous I/O. Its two outcomes are `ProcessPluginFile` (content read) and `HandleFileError` (read failed). An empty file selection returns early and changes nothing.
- Running the uploaded text as a `<script>` element is foreign code. Exceptions raised by the script itself are reported by the browser and are not rethrown by `appendChild`. A failure of `appendChild` itself is not modelled.
- `Number()`, `String()` and the plugins' floating-point arithmetic are not modelled. `toNumber` and `toText` stand for the first two.
- Event-listener setup, element lookups, button creation and styling in the DOM, `console.error` and the `DOMContentLoaded` bootstrap are view plumbing.
- Plugin objects are copied into `Plugin` records at registration; the source keeps the live object. It reads `execute` from it again at every equals and `operation` again at every button click. The model therefore loses aliasing. A later script that mutates an already registered `plugin` object would change the old registry entry and the old button in the source. It could also leave an entry under a symbol that is no longer its own, which `RegistryWellFormed` excludes.
- The registry is a plain object in the source and a map here. Keys inherited from `Object.prototype` (such as "toString") and the special key "__proto__" are not modelled.
- JavaScript symbols, bigints, getters and prototype properties of primitive values are not represented in `JsValue`.
- A plugin's `execute` is assumed to return a number or throw. A non-number return value, and the `this` it is called with, are not modelled.
- `HandleNumberClick` takes the button's `data-value` as a string. A button without that attribute would append "undefined".
- Strings are sequences of Unicode scalar values here, while JavaScript strings are UTF-16 code units. Lone surrogates cannot be represented. Splitting well-formed text gives the same pieces.
- `Plugins.IsValidPlugin` gives the truthiness of the value that the source's `&&` chain returns, not the value itself. The source uses it only as an `if` condition.
