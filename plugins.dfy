/**
 * Plugins: the structural validator a candidate value must pass, the value a
 * valid candidate is registered as, and the registry update.
 */
module Plugins {

  import opened JsValues

  /** A registered plugin: the operation symbol it answers to and its `execute` function. */
  datatype Plugin = Plugin(operation: string, execute: Execute)

  /**
   * What `isValidPlugin` yields: the truth of the value its `&&` chain
   * returns, or the TypeError raised by reading a property of `null`.
   */
  datatype Verdict = Answer(valid: bool) | ThrowsTypeError

  /**
   * The plugin capability contract: an object (a function is one too) whose
   * `operation` reads as a non-empty string and whose `execute` reads as a
   * function, whether the property is its own or inherited.
   */
  predicate IsPluginShaped(v: JsValue) {
    && (v.Object? || v.Function?)
    && "operation" in v.props && v.props["operation"].String? && v.props["operation"].s != ""
    && "execute" in v.props && v.props["execute"].Function?
  }

  /**
   * `isValidPlugin`: the candidate must not be of type "undefined"; then its
   * `operation` and `execute` properties must be truthy; then they must be of
   * type "string" and "function". The tests run left to right and stop at
   * the first failure. `null` passes the first test, so the property read
   * that follows throws.
   */
  function IsValidPlugin(plugin: JsValue): (r: Verdict)
    ensures r.ThrowsTypeError? <==> plugin.Null?
    ensures r == Answer(true) <==> IsPluginShaped(plugin)
  {
    if TypeOf(plugin) == "undefined" then Answer(false)
    else if plugin.Null? then ThrowsTypeError
    else
      var operation := Property(plugin, "operation");
      if !Truthy(operation) then Answer(false)
      else
        var execute := Property(plugin, "execute");
        if !Truthy(execute) then Answer(false)
        else Answer(TypeOf(operation) == "string" && TypeOf(execute) == "function")
  }

  /** The plugin a candidate that passed validation stands for. */
  function AsPlugin(v: JsValue): (p: Plugin)
    requires IsPluginShaped(v)
    ensures p.operation != ""
    ensures Property(v, "operation") == String(p.operation)
    ensures Property(v, "execute").Function? && Property(v, "execute").call == p.execute
  {
    Plugin(v.props["operation"].s, v.props["execute"].call)
  }

  /** Every entry is stored under its own non-empty symbol. */
  ghost predicate RegistryWellFormed(registry: map<string, Plugin>) {
    forall symbol :: symbol in registry ==> registry[symbol].operation == symbol && symbol != ""
  }

  /**
   * Registration stores the plugin under its own symbol: afterwards that
   * symbol looks up the plugin, and every other binding is as it was.
   */
  function Register(registry: map<string, Plugin>, p: Plugin): (r: map<string, Plugin>)
    ensures r.Keys == registry.Keys + {p.operation}
    ensures r[p.operation] == p
    ensures forall symbol :: symbol in registry && symbol != p.operation ==> r[symbol] == registry[symbol]
  {
    registry[p.operation := p]
  }

  /** Registering a second plugin under the same symbol leaves only the second reachable. */
  lemma RegisterOverwrites(registry: map<string, Plugin>, p: Plugin, q: Plugin)
    requires p.operation == q.operation
    ensures Register(Register(registry, p), q) == Register(registry, q)
  {
  }

  /** Registering a plugin with a non-empty symbol keeps every entry under its own symbol. */
  lemma RegisterKeepsWellFormed(registry: map<string, Plugin>, p: Plugin)
    requires RegistryWellFormed(registry) && p.operation != ""
    ensures RegistryWellFormed(Register(registry, p))
  {
  }
}
