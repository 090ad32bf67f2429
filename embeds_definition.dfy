/**
 * `Halogen::Embeds::Definition`: a definition of kind Embed. It must carry a
 * procedure, and it is included only when its base guard passes and then
 * either the instance's own `embed?(name)` or the instance's
 * `embed_options` hash agrees. `Enabled` and `Validate` below are the
 * methods a definition answers to: the embed override for an embed, the base
 * behaviour for every other kind.
 */
module EmbedsDefinition {
  import opened Wrappers
  import opened Ruby
  import opened HalogenDefinition

  /** Option values that switch an embed off once printed with `to_s`. */
  const Disabling: seq<string> := ["0", "false"]

  /** `validate`: the base check first, then a procedure is mandatory. */
  function EmbedValidate(d: Definition): (r: Result<bool, Error>)
    ensures r.Ok? ==> r.value && BaseValidate(d).Ok? && d.procedure.Some?
    ensures BaseValidate(d).Err? ==> r == BaseValidate(d)
    ensures r.Err? ==> r.error.InvalidDefinition?
  {
    match BaseValidate(d)
    case Err(e) => Err(e)
    case Ok(_) =>
      if d.procedure.Some? then Ok(true)
      else Err(InvalidDefinition("Embed " + d.name + " must be defined with a proc"))
  }

  /** `embed_via_options?`: the name must be a key and its value must not print as "0" or "false". */
  function EmbedViaOptions(d: Definition, inst: Instance): (r: Result<bool, Error>)
    ensures r.Err? <==> inst.embedOptions.None?
    ensures r.Err? ==> r.error == NoMethodError("embed_options")
    ensures r.Ok? && r.value ==> d.name in inst.embedOptions.value
    ensures r.Ok? && d.name in inst.embedOptions.value ==>
              r.value == (ToS(inst.embedOptions.value[d.name]) != "0" && ToS(inst.embedOptions.value[d.name]) != "false")
  {
    match inst.embedOptions
    case None => Err(NoMethodError("embed_options"))
    case Some(opts) =>
      if d.name !in opts then Ok(false)
      else Ok(ToS(opts[d.name]) !in Disabling)
  }

  /**
   * `enabled?`: false when the base guard fails; otherwise whatever the
   * instance's `embed?(name)` returns, or, lacking that method, the
   * `embed_options` decision.
   */
  function EmbedEnabled(d: Definition, inst: Instance): (r: Result<Value, Error>)
    ensures IsEnabled(d, inst) == Ok(false) ==> r == Ok(Bool(false))
    ensures IsEnabled(d, inst) == Ok(true) && inst.embedPredicate.Some? ==>
              r == Ok(inst.embedPredicate.value(d.name))
    ensures IsEnabled(d, inst) == Ok(true) && inst.embedPredicate.None? && EmbedViaOptions(d, inst).Ok? ==>
              r == Ok(Bool(EmbedViaOptions(d, inst).value))
    ensures IsEnabled(d, inst).Err? ==> r == Err(IsEnabled(d, inst).error)
    ensures r.Err? ==> IsEnabled(d, inst).Err? || (inst.embedPredicate.None? && inst.embedOptions.None?)
  {
    match IsEnabled(d, inst)
    case Err(e) => Err(e)
    case Ok(false) => Ok(Bool(false))
    case Ok(true) =>
      match inst.embedPredicate
      case Some(embed) => Ok(embed(d.name))
      case None =>
        match EmbedViaOptions(d, inst)
        case Ok(b) => Ok(Bool(b))
        case Err(e) => Err(e)
  }

  /** `definition.enabled?(instance)` as Ruby dispatches it on the definition's class. */
  function Enabled(d: Definition, inst: Instance): (r: Result<Value, Error>)
    ensures IsEnabled(d, inst) == Ok(false) ==> r == Ok(Bool(false))
    ensures IsEnabled(d, inst).Err? ==> r == Err(IsEnabled(d, inst).error)
    ensures d.kind != Embed && IsEnabled(d, inst).Ok? ==> r == Ok(Bool(IsEnabled(d, inst).value))
    ensures d.kind != Embed ==> (r.Ok? <==> IsEnabled(d, inst).Ok?)
  {
    if d.kind == Embed then EmbedEnabled(d, inst)
    else match IsEnabled(d, inst)
      case Ok(b) => Ok(Bool(b))
      case Err(e) => Err(e)
  }

  /** `definition.validate` as Ruby dispatches it on the definition's class. */
  function Validate(d: Definition): (r: Result<bool, Error>)
    ensures r.Ok? ==> r.value && BaseValidate(d).Ok?
    ensures BaseValidate(d).Err? ==> r == BaseValidate(d)
    ensures d.kind == Embed && r.Ok? ==> d.procedure.Some?
    ensures d.kind != Embed ==> (r.Ok? <==> BaseValidate(d).Ok?)
    ensures r.Err? ==> r.error.InvalidDefinition?
  {
    if d.kind == Embed then EmbedValidate(d) else BaseValidate(d)
  }

  // ---------------------------------------------------------------- validation

  /**
   * An embed is valid exactly when it has a procedure and no `:value`. With
   * both, the inherited check reports first; with neither, the embed check does.
   */
  lemma EmbedValidateIff(d: Definition)
    ensures EmbedValidate(d).Ok? <==> d.procedure.Some? && "value" !in d.options
    ensures EmbedValidate(d).Ok? ==> EmbedValidate(d).value
    ensures "value" in d.options && d.procedure.Some? ==>
              EmbedValidate(d) == Err(InvalidDefinition("Cannot specify both value and procedure for " + d.name))
    ensures d.procedure.None? ==>
              EmbedValidate(d) == Err(InvalidDefinition("Embed " + d.name + " must be defined with a proc"))
  {
  }

  /** Every definition an embed accepts, the base check accepts too. */
  lemma EmbedValidateStricter(d: Definition)
    ensures EmbedValidate(d).Ok? ==> BaseValidate(d).Ok?
    ensures d.kind != Embed ==> Validate(d) == BaseValidate(d)
  {
  }

  // ---------------------------------------------------------------- inclusion

  /** When the base guard says no, the embed is excluded, whatever `embed?` and `embed_options` say. */
  lemma BaseGuardGatesEmbed(d: Definition, inst: Instance)
    requires IsEnabled(d, inst) == Ok(false)
    ensures EmbedEnabled(d, inst) == Ok(Bool(false))
  {
  }

  /**
   * When the instance defines `embed?`, its answer for the name is returned;
   * `embed_options` is not read (the instance need not even respond to it).
   */
  lemma EmbedPredicateDecides(d: Definition, inst: Instance)
    requires IsEnabled(d, inst) == Ok(true) && inst.embedPredicate.Some?
    ensures EmbedEnabled(d, inst) == Ok(inst.embedPredicate.value(d.name))
  {
  }

  /** Without `embed?`, a name missing from `embed_options` excludes the embed. */
  lemma MissingOptionExcludes(d: Definition, inst: Instance)
    requires IsEnabled(d, inst) == Ok(true) && inst.embedPredicate.None?
    requires inst.embedOptions.Some? && d.name !in inst.embedOptions.value
    ensures EmbedEnabled(d, inst) == Ok(Bool(false))
  {
  }

  /**
   * Without `embed?`, a present key includes the embed unless its value is
   * `0`, `false`, or the text "0" or "false" as a string or symbol; so `1`,
   * `true`, `nil` and `[0]` include.
   */
  lemma OptionValueDecides(d: Definition, inst: Instance)
    requires IsEnabled(d, inst) == Ok(true) && inst.embedPredicate.None?
    requires inst.embedOptions.Some? && d.name in inst.embedOptions.value
    ensures var v := inst.embedOptions.value[d.name];
            EmbedEnabled(d, inst) ==
              Ok(Bool(v !in {Int(0), Str("0"), Sym("0"), Bool(false), Str("false"), Sym("false")}))
  {
    var v := inst.embedOptions.value[d.name];
    ToSIsZero(v);
    ToSIsFalse(v);
  }

  /** An instance without `embed?` or `embed_options` makes an enabled embed raise. */
  lemma MissingEmbedOptionsRaises(d: Definition, inst: Instance)
    requires IsEnabled(d, inst) == Ok(true) && inst.embedPredicate.None? && inst.embedOptions.None?
    ensures EmbedEnabled(d, inst) == Err(NoMethodError("embed_options"))
  {
  }

  /** The inclusion examples: `{"foo" => "0"}` excludes `foo`, `{"foo" => "1"}` includes it, and `embed?` overrides both. */
  lemma EmbedOptionExamples(d: Definition, inst: Instance)
    requires d.kind == Embed && d.name == "foo" && "if" !in d.options && "unless" !in d.options
    requires inst.embedPredicate.None?
    ensures Enabled(d, inst.(embedOptions := Some(map["foo" := Str("0")]))) == Ok(Bool(false))
    ensures Enabled(d, inst.(embedOptions := Some(map["foo" := Str("1")]))) == Ok(Bool(true))
    ensures Enabled(d, inst.(embedOptions := Some(map["foo" := Nil]))) == Ok(Bool(true))
    ensures Enabled(d, inst.(embedOptions := Some(map["foo" := Int(0)]))) == Ok(Bool(false))
    ensures Enabled(d, inst.(embedOptions := Some(map["bar" := Bool(true)]))) == Ok(Bool(false))
    ensures Enabled(d, inst.(embedPredicate := Some(_ => Bool(true)),
                             embedOptions := Some(map["foo" := Str("0")]))) == Ok(Bool(true))
  {
    assert ToS(Int(0)) == "0" by { assert NatToS(0) == "0"; }
  }

  /** Definitions of the other kinds answer with the base guard, as a boolean. */
  lemma NonEmbedEnabled(d: Definition, inst: Instance)
    requires d.kind != Embed
    ensures IsEnabled(d, inst).Ok? ==> Enabled(d, inst) == Ok(Bool(IsEnabled(d, inst).value))
    ensures IsEnabled(d, inst).Err? ==> Enabled(d, inst) == Err(IsEnabled(d, inst).error)
  {
  }
}
