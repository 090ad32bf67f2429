/**
 * `Halogen::Definition`: one rendering rule. A definition has a kind, a name
 * (always a symbol once constructed), an options hash and an optional
 * procedure. It computes its own value and evaluates its own `:if`/`:unless`
 * guard against a representer instance.
 */
module HalogenDefinition {
  import opened Wrappers
  import opened Ruby

  /** Which declaration made the definition; the embed kind has its own validation and guard. */
  datatype Kind = Property | Link | Embed

  /**
   * The representer instance a rule is evaluated against, as far as the rules
   * can see it: the zero-argument methods it responds to and what each
   * returns, its `embed?(name)` predicate if it defines one, and its
   * `embed_options` hash if it responds to that method. That hash is only
   * looked up by key (`include?` and `[]`), never iterated, so a `map` is
   * enough for it.
   */
  datatype Instance = Instance(
    methods: map<string, Value>,
    embedPredicate: Option<string -> Value>,
    embedOptions: Option<map<string, Value>>)

  /** An entry of a definition's options hash: a plain object or a Proc. */
  datatype Opt = Plain(v: Value) | Proc(body: Instance -> Value)

  type Options = map<string, Opt>

  type Procedure = Instance -> Value

  datatype Definition = Definition(
    kind: Kind,
    name: string,
    options: Options,
    procedure: Option<Procedure>)

  /** `Definition.new(name, options, procedure)`: the name goes through `to_sym`. */
  function NewDefinition(kind: Kind, name: Value, options: Options, procedure: Option<Procedure>)
    : (r: Result<Definition, Error>)
    ensures r.Ok? <==> name.Str? || name.Sym?
    ensures r.Ok? ==> r.value.name == (if name.Str? then name.s else name.name)
    ensures r.Ok? ==> r.value.kind == kind && r.value.options == options && r.value.procedure == procedure
    ensures r.Err? ==> r.error == NoMethodError("to_sym")
  {
    match name
    case Str(s) => Ok(Definition(kind, s, options, procedure))
    case Sym(s) => Ok(Definition(kind, s, options, procedure))
    case _ => Err(NoMethodError("to_sym"))
  }

  /** `instance.send(m)` for a zero-argument method. */
  function Send(inst: Instance, m: string): (r: Result<Value, Error>)
    ensures r.Ok? <==> m in inst.methods
    ensures r.Ok? ==> r.value == inst.methods[m]
    ensures r.Err? ==> r.error == NoMethodError(m)
  {
    if m in inst.methods then Ok(inst.methods[m]) else Err(NoMethodError(m))
  }

  /**
   * `value(instance)`: the `:value` option as stored (a Proc stored there is
   * returned, not called), else the procedure run against the instance,
   * else the instance's method of the same name.
   */
  function ValueOf(d: Definition, inst: Instance): (r: Result<Opt, Error>)
    ensures "value" in d.options ==> r == Ok(d.options["value"])
    ensures r.Err? ==> "value" !in d.options && d.procedure.None? && d.name !in inst.methods
                       && r.error == NoMethodError(d.name)
  {
    if "value" in d.options then Ok(d.options["value"])
    else if d.procedure.Some? then Ok(Plain(d.procedure.value(inst)))
    else match Send(inst, d.name)
      case Ok(v) => Ok(Plain(v))
      case Err(e) => Err(e)
  }

  /** `eval_guard`: a Proc runs against the instance, a symbol or string names a method, anything else is itself. */
  function EvalGuard(inst: Instance, guard: Opt): (r: Result<Value, Error>)
    ensures guard.Proc? ==> r == Ok(guard.body(inst))
    ensures r.Err? ==> guard.Plain? && (guard.v.Str? || guard.v.Sym?)
    ensures guard.Plain? && !guard.v.Str? && !guard.v.Sym? ==> r == Ok(guard.v)
  {
    match guard
    case Proc(body) => Ok(body(inst))
    case Plain(Str(m)) => Send(inst, m)
    case Plain(Sym(m)) => Send(inst, m)
    case Plain(v) => Ok(v)
  }

  /** `enabled?(instance)`: `:if` decides by truthiness, else `:unless` by its negation, else true. */
  function IsEnabled(d: Definition, inst: Instance): (r: Result<bool, Error>)
    ensures "if" !in d.options && "unless" !in d.options ==> r == Ok(true)
    ensures "if" in d.options && EvalGuard(inst, d.options["if"]).Ok? ==>
              r == Ok(Truthy(EvalGuard(inst, d.options["if"]).value))
    ensures "if" !in d.options && "unless" in d.options && EvalGuard(inst, d.options["unless"]).Ok? ==>
              r == Ok(!Truthy(EvalGuard(inst, d.options["unless"]).value))
    ensures "if" in d.options && EvalGuard(inst, d.options["if"]).Err? ==>
              r == Err(EvalGuard(inst, d.options["if"]).error)
    ensures "if" !in d.options && "unless" in d.options && EvalGuard(inst, d.options["unless"]).Err? ==>
              r == Err(EvalGuard(inst, d.options["unless"]).error)
    ensures r.Err? ==> ("if" in d.options || "unless" in d.options)
  {
    if "if" in d.options then
      match EvalGuard(inst, d.options["if"])
      case Ok(v) => Ok(Truthy(v))
      case Err(e) => Err(e)
    else if "unless" in d.options then
      match EvalGuard(inst, d.options["unless"])
      case Ok(v) => Ok(!Truthy(v))
      case Err(e) => Err(e)
    else Ok(true)
  }

  /** `validate`: true unless both a `:value` and a procedure are given. */
  function BaseValidate(d: Definition): (r: Result<bool, Error>)
    ensures r.Ok? <==> !("value" in d.options && d.procedure.Some?)
    ensures r.Ok? ==> r.value
    ensures r.Err? ==> r.error.InvalidDefinition?
  {
    if "value" in d.options && d.procedure.Some? then
      Err(InvalidDefinition("Cannot specify both value and procedure for " + d.name))
    else Ok(true)
  }

  // ---------------------------------------------------------------- construction

  /** A string name and the symbol with the same text give the same definition; other names raise. */
  lemma NewDefinitionSymbolises(kind: Kind, name: Value, options: Options, procedure: Option<Procedure>)
    ensures NewDefinition(kind, name, options, procedure).Ok? <==> name.Str? || name.Sym?
    ensures name.Str? ==> NewDefinition(kind, name, options, procedure)
                          == NewDefinition(kind, Sym(name.s), options, procedure)
    ensures NewDefinition(kind, name, options, procedure).Err? ==>
              NewDefinition(kind, name, options, procedure).error == NoMethodError("to_sym")
    ensures var r := NewDefinition(kind, name, options, procedure);
            r.Ok? ==> r.value.kind == kind && r.value.options == options && r.value.procedure == procedure
                      && r.value.name == (if name.Str? then name.s else name.name)
  {
  }

  // ---------------------------------------------------------------- value

  /** With a `:value` option the result is that option, whatever the procedure and whatever the instance. */
  lemma LiteralValueWins(d: Definition, p: Option<Procedure>, inst: Instance, other: Instance)
    requires "value" in d.options
    ensures ValueOf(d.(procedure := p), inst) == ValueOf(d, other) == Ok(d.options["value"])
  {
  }

  /**
   * Without `:value`, a procedure decides the value, even when the instance
   * has a method named like the definition returning something else.
   */
  lemma ProcedureValue(d: Definition, inst: Instance)
    requires "value" !in d.options && d.procedure.Some?
    ensures ValueOf(d, inst) == Ok(Plain(d.procedure.value(inst)))
    ensures d.name in inst.methods && inst.methods[d.name] != d.procedure.value(inst) ==>
              ValueOf(d, inst) != Ok(Plain(inst.methods[d.name]))
  {
  }

  /** Without `:value` or a procedure, the value is the result of the method named like the definition. */
  lemma MethodValue(d: Definition, inst: Instance)
    requires "value" !in d.options && d.procedure.None?
    ensures ValueOf(d, inst).Ok? <==> d.name in inst.methods
    ensures ValueOf(d, inst).Ok? ==> ValueOf(d, inst).value == Plain(inst.methods[d.name])
    ensures ValueOf(d, inst).Err? ==> ValueOf(d, inst).error == NoMethodError(d.name)
  {
  }

  // ---------------------------------------------------------------- guards

  /** A Proc guard runs against the instance; a string and a symbol with the same text both call that method; other objects are their own result. */
  lemma GuardShapes(inst: Instance, g: Value, b: Instance -> Value)
    ensures EvalGuard(inst, Proc(b)) == Ok(b(inst))
    ensures g.Str? ==> EvalGuard(inst, Plain(g)) == EvalGuard(inst, Plain(Sym(g.s))) == Send(inst, g.s)
    ensures !g.Str? && !g.Sym? ==> EvalGuard(inst, Plain(g)) == Ok(g)
  {
  }

  /** With neither `:if` nor `:unless` a definition is always enabled. */
  lemma UnguardedIsEnabled(d: Definition, inst: Instance)
    requires "if" !in d.options && "unless" !in d.options
    ensures IsEnabled(d, inst) == Ok(true)
  {
  }

  /** When `:if` is present, `:unless` is ignored whatever it holds. */
  lemma IfTakesPrecedence(d: Definition, inst: Instance, u: Opt)
    requires "if" in d.options
    ensures IsEnabled(d.(options := d.options["unless" := u]), inst) == IsEnabled(d, inst)
  {
  }

  /** `unless: g` enables exactly when `if: g` does not; both raise the same error when `g` does. */
  lemma UnlessNegatesIf(d: Definition, inst: Instance, g: Opt)
    ensures var base := d.options - {"if", "unless"};
            var withIf := IsEnabled(d.(options := base["if" := g]), inst);
            var withUnless := IsEnabled(d.(options := base["unless" := g]), inst);
            withIf.Ok? == withUnless.Ok?
            && (withIf.Ok? ==> withUnless.value == !withIf.value)
            && (withIf.Err? ==> withUnless.error == withIf.error)
  {
  }

  /** A literal `:if` guard enables exactly on a truthy object: `false` and `nil` disable, `0` enables. */
  lemma LiteralIfGuard(d: Definition, inst: Instance, v: Value)
    requires !v.Str? && !v.Sym?
    ensures IsEnabled(d.(options := d.options["if" := Plain(v)]), inst) == Ok(v != Nil && v != Bool(false))
  {
  }

  /**
   * The guards exercised by the link tests: `false`, `proc { false }`,
   * `proc { nil }` and a method returning false disable; `true`,
   * `proc { true }`, `proc { 1 }` and a method returning true enable.
   */
  lemma GuardExamples(d: Definition, inst: Instance)
    requires inst.methods == map["return_false" := Bool(false), "return_true" := Bool(true)]
    ensures IsEnabled(d.(options := d.options["if" := Plain(Bool(false))]), inst) == Ok(false)
    ensures IsEnabled(d.(options := d.options["if" := Proc(_ => Bool(false))]), inst) == Ok(false)
    ensures IsEnabled(d.(options := d.options["if" := Proc(_ => Nil)]), inst) == Ok(false)
    ensures IsEnabled(d.(options := d.options["if" := Plain(Sym("return_false"))]), inst) == Ok(false)
    ensures IsEnabled(d.(options := d.options["if" := Plain(Bool(true))]), inst) == Ok(true)
    ensures IsEnabled(d.(options := d.options["if" := Proc(_ => Bool(true))]), inst) == Ok(true)
    ensures IsEnabled(d.(options := d.options["if" := Proc(_ => Int(1))]), inst) == Ok(true)
    ensures IsEnabled(d.(options := d.options["if" := Plain(Sym("return_true"))]), inst) == Ok(true)
    ensures IsEnabled(d.(options := d.options["if" := Plain(Sym("missing"))]), inst) == Err(NoMethodError("missing"))
  {
  }

  // ---------------------------------------------------------------- validation

  /** A definition validates exactly when it does not combine `:value` with a procedure. */
  lemma BaseValidateIff(d: Definition)
    ensures BaseValidate(d).Ok? <==> !("value" in d.options && d.procedure.Some?)
    ensures BaseValidate(d).Ok? ==> BaseValidate(d).value
    ensures BaseValidate(d).Err? ==>
              BaseValidate(d).error == InvalidDefinition("Cannot specify both value and procedure for " + d.name)
  {
  }
}
