/** The tool registry `AVAILABLE_TOOLS` and the calculator tools. Tools that touch the
    clock, the file system or `eval` enter only as given functions. */
module Tools {
  import opened Wrappers
  import opened Values

  /** A tool takes the `options` value and returns its result; `None` means it threw. */
  type Tool = Value -> Option<Value>

  type Registry = map<string, Tool>

  /** The tools whose behaviour depends on the outside world. */
  datatype ExternalTools = ExternalTools(getCurrentTime: Tool, jsREPL: Tool, readFile: Tool)

  // ---------------------------------------------------------------------------
  // JavaScript's `+` and `*` on the modelled values.

  /** Operands that `+` turns into text: strings, and objects and arrays via their text. */
  predicate IsTextLike(v: Value) {
    v.Str? || v.Arr? || v.Obj?
  }

  /** `Number(v)` for the values that are not text; `None` is NaN. */
  function ToNumber(v: Value): Option<int> {
    match v
    case Null => Some(0)
    case Bool(b) => Some(if b then 1 else 0)
    case Num(n) => Some(n)
    case _ => None
  }

  /** `x + y`; `None` where converting an operand throws. */
  function Plus(x: Value, y: Value): Option<Value> {
    if ConversionThrows(x) || ConversionThrows(y) then None
    else if IsTextLike(x) || IsTextLike(y) then Some(Str(ToString(x) + ToString(y)))
    else match (ToNumber(x), ToNumber(y))
      case (Some(p), Some(q)) => Some(Num(p + q))
      case _ => Some(NaN)
  }

  /** `x * y`; `None` where converting an operand throws. */
  function Times(x: Value, y: Value): Option<Value> {
    if ConversionThrows(x) || ConversionThrows(y) then None
    else match (ToNumber(x), ToNumber(y))
      case (Some(p), Some(q)) => Some(Num(p * q))
      case _ => Some(NaN)
  }

  /** An operand of `options`, present and converting with a TypeError. */
  predicate OperandThrows(options: Value, key: string) {
    options.Obj? && key in options.fields && ConversionThrows(options.fields[key])
  }

  /** `CalculatorToolkit.add({a, b})`: destructuring `undefined` or `null` throws, and so
      does adding an operand whose conversion throws. */
  function Add(options: Value): (r: Option<Value>)
    ensures r.None? <==> options.Undefined? || options.Null?
                         || OperandThrows(options, "a") || OperandThrows(options, "b")
    ensures options.Obj? && "a" in options.fields && "b" in options.fields
            && options.fields["a"].Num? && options.fields["b"].Num?
            ==> r == Some(Num(options.fields["a"].n + options.fields["b"].n))
    ensures options.Obj? && "a" in options.fields && "b" in options.fields
            && options.fields["a"].Str? && options.fields["b"].Str?
            ==> r == Some(Str(options.fields["a"].s + options.fields["b"].s))
    ensures options.Obj? && "a" !in options.fields
            && ("b" !in options.fields || !IsTextLike(options.fields["b"]))
            ==> r == Some(NaN)
    ensures options.Obj? && "b" !in options.fields
            && ("a" !in options.fields || !IsTextLike(options.fields["a"]))
            ==> r == Some(NaN)
  {
    match Property(options, "a")
    case None => None
    case Some(a) => Plus(a, Property(options, "b").value)
  }

  /** `CalculatorToolkit.mul({a, b})`: destructuring `undefined` or `null` throws, and so
      does multiplying an operand whose conversion throws. */
  function Mul(options: Value): (r: Option<Value>)
    ensures r.None? <==> options.Undefined? || options.Null?
                         || OperandThrows(options, "a") || OperandThrows(options, "b")
    ensures options.Obj? && "a" in options.fields && "b" in options.fields
            && options.fields["a"].Num? && options.fields["b"].Num?
            ==> r == Some(Num(options.fields["a"].n * options.fields["b"].n))
    ensures options.Obj? && ("a" !in options.fields || "b" !in options.fields) && r.Some?
            ==> r == Some(NaN)
  {
    match Property(options, "a")
    case None => None
    case Some(a) => Times(a, Property(options, "b").value)
  }

  /** `DatabaseToolkit.text2sql` and `WebSearchToolkit.serpAPI` have empty bodies. */
  function ReturnsUndefined(options: Value): Option<Value> {
    Some(Undefined)
  }

  const RegisteredNames: set<string> :=
    {"getCurrentTime", "jsREPL", "mul", "add", "text2sql", "serpAPI", "readFile"}

  /** The names in the tool schema list sent to the provider, in order. */
  const DeclaredNames: seq<string> :=
    ["getCurrentTime", "jsREPL", "mul", "add", "readFile", "askDatabase"]

  /** `AVAILABLE_TOOLS`. */
  function Available(ext: ExternalTools): Registry {
    map[
      "getCurrentTime" := ext.getCurrentTime,
      "jsREPL" := ext.jsREPL,
      "mul" := Mul,
      "add" := Add,
      "text2sql" := ReturnsUndefined,
      "serpAPI" := ReturnsUndefined,
      "readFile" := ext.readFile
    ]
  }

  /** Resolving a tool name against the registry's own entries only. */
  function Lookup(reg: Registry, name: string): Option<Tool> {
    if name in reg then Some(reg[name]) else None
  }

  /** The provider may ask for a declared tool that is not registered, and the registry
      holds two tools the provider is never told about. */
  lemma DeclaredVersusRegistered(ext: ExternalTools)
    ensures (set n | n in DeclaredNames && n !in Available(ext)) == {"askDatabase"}
    ensures RegisteredNames - (set n | n in DeclaredNames) == {"text2sql", "serpAPI"}
  {
    var declared := set n | n in DeclaredNames;
    assert declared == {"getCurrentTime", "jsREPL", "mul", "add", "readFile", "askDatabase"} by {
      forall n | n in declared ensures n in {"getCurrentTime", "jsREPL", "mul", "add", "readFile", "askDatabase"} {
        var i :| 0 <= i < |DeclaredNames| && DeclaredNames[i] == n;
      }
      assert DeclaredNames[5] == "askDatabase";
      assert DeclaredNames[4] == "readFile";
    }
  }

  // ---------------------------------------------------------------------------
  // Name resolution as `AVAILABLE_TOOLS[name]` performs it (see README, Findings).

  /** Methods every object literal inherits that accept one argument and return a value
      whose text is "[object Object]". */
  const InheritedNames: set<string> := {"toString", "toLocaleString", "valueOf"}

  function InheritedMethod(options: Value): Option<Value> {
    Some(Str("[object Object]"))
  }

  /** Property access on the registry object also finds inherited members. It agrees
      with own-entry resolution except on the inherited names the registry does not
      hold, which it resolves where `Lookup` finds nothing. */
  function PropertyLookup(reg: Registry, name: string): (r: Option<Tool>)
    ensures name in reg || name !in InheritedNames ==> r == Lookup(reg, name)
    ensures name in InheritedNames - reg.Keys ==> r.Some? && Lookup(reg, name).None?
  {
    if name in reg then Some(reg[name])
    else if name in InheritedNames then Some(InheritedMethod)
    else None
  }

  /** Counterexample: none of the inherited names is a registered tool, yet property
      access resolves each of them to a callable that returns "[object Object]". */
  lemma InheritedNameResolves(ext: ExternalTools, name: string)
    requires name in InheritedNames
    ensures name !in Available(ext)
    ensures Lookup(Available(ext), name).None?
    ensures PropertyLookup(Available(ext), name).Some?
    ensures forall o :: PropertyLookup(Available(ext), name).value(o) == Some(Str("[object Object]"))
  {
  }
}
