# Halogen rule evaluation, in Dafny

Halogen is a Ruby library that turns domain objects into HAL+JSON mappings.
Each class that includes `Halogen` declares rules: properties, links and
embeds. Each rule is a `Halogen::Definition`, which has a name, an options
hash and an optional procedure. This project models the part of Halogen that
evaluates those rules:

- **`Halogen::Definition`** (`definition.dfy`, module `HalogenDefinition`).
  `value` uses the literal `:value` option if there is one. Otherwise it runs
  the procedure, and without a procedure it calls the method with the rule's
  name. `enabled?` evaluates the `:if`/`:unless` guard with Ruby truthiness.
  `validate` rejects a rule that has both a `:value` and a procedure.
  `eval_guard` dispatches on the guard's shape: a Proc is run, a symbol or
  string is a method call, and anything else stands for itself.
- **`Halogen::Embeds::Definition`** (`embeds_definition.dfy`, module
  `EmbedsDefinition`). An embed must have a procedure. It is included only
  when the base guard passes. After that, either the instance's own
  `embed?(name)` decides, or the `embed_options` hash does: the name must be
  a key, and its value, printed with `to_s`, must not be `"0"` or `"false"`.
  `Enabled` and `Validate` dispatch on the rule's kind the way Ruby dispatches
  on its class.
- **The class-level engine of `lib/halogen.rb`** (`halogen.dfy`, module
  `Halogen`). Each class has a registry that is created on first use and
  then reused. `render` assigns one key per property definition and then
  calls the embed and link renderers. `render_definitions` passes each
  enabled definition of one type to a block, in declaration order, and
  threads a result hash through the calls. `collection?` is false. The
  module's `config` is memoised, and `configure` yields that same instance.

Support modules:

- `ruby.dfy` (module `Ruby`) holds Ruby objects, truthiness (only `false` and
  `nil` are falsy) and `to_s`.
- `ordered_hash.dfy` (module `OrderedHash`) models Ruby's insertion-ordered
  `Hash`. Callers see the key order, for example in `rendered[:_links].keys`.
- `wrappers.dfy` holds `Option` and `Result`. A Ruby exception becomes an
  `Err`.

A representer instance is modelled as `Instance`. It holds the zero-argument
methods the instance responds to, each with the value it returns. It also
holds `embed?` and `embed_options`, when the instance has them. A procedure is
a total function from `Instance` to a value. Calling a method the instance
lacks gives `Err(NoMethodError(name))`.

Three details of the code that the model follows:

- `render` assigns every property definition through
  `get_property_<name>(resource)`. It does not filter by `enabled?` and does
  not call `value` itself.
- `Embeds::Definition#enabled?` returns whatever `embed?` returns, without
  turning it into a boolean. `render_definitions` then tests that result for
  truthiness.
- `render_definitions` evaluates guards against the class itself (`self`).
  The class therefore carries an `Instance` view of itself
  (`RepresenterClass.context`).

## Model

| member | source | states |
|---|---|---|
| `HalogenDefinition.NewDefinition` | lib/halogen/definition.rb:17-21 | Construction succeeds exactly when the name is a string or a symbol. The stored name is its text, and the kind, options and procedure are kept as given. Any other name raises `NoMethodError` for `to_sym`. |
| `HalogenDefinition.Send` | lib/halogen/definition.rb:65 | Sending a message succeeds exactly when the instance has that method, and returns its result. Otherwise it raises `NoMethodError` naming the message. |
| `HalogenDefinition.ValueOf` | lib/halogen/definition.rb:26-29 | With a `:value` key, the result is that option. `value` raises only when there is no `:value` key, no procedure and no method of the definition's name, and then the error is `NoMethodError` for that name. |
| `HalogenDefinition.EvalGuard` | lib/halogen/definition.rb:60-69 | A Proc guard gives its result on the instance. A guard that is neither a Proc, a string nor a symbol is its own result. Only a string or symbol guard can raise. |
| `HalogenDefinition.IsEnabled` | lib/halogen/definition.rb:35-43 | With neither `:if` nor `:unless`, the answer is true. An `:if` guard that answers gives its truthiness. Without `:if`, an `:unless` guard that answers gives the negation. A guard that raises makes `enabled?` raise the same error, and it raises only when a guard is present. |
| `HalogenDefinition.BaseValidate` | lib/halogen/definition.rb:49-54 | `validate` succeeds exactly when the rule does not have both `:value` and a procedure. On success it returns true. Its only error is `InvalidDefinition`. |
| `HalogenDefinition.NewDefinitionSymbolises` | lib/halogen/definition.rb:17-21 | A string name and the symbol with the same text give the same definition. That definition stores the kind, options and procedure it was given. Any other name raises `NoMethodError` for `to_sym`. |
| `HalogenDefinition.LiteralValueWins` | lib/halogen/definition.rb:26-29 | With a `:value` key, `value` returns that option unchanged. This holds for every procedure and every instance, so neither the procedure nor the method fallback is consulted. |
| `HalogenDefinition.ProcedureValue` | lib/halogen/definition.rb:26-29 | Without `:value`, a procedure's result is the value. It is not the result of a method named like the definition, even when the instance has one returning something else. |
| `HalogenDefinition.MethodValue` | lib/halogen/definition.rb:28 | Without `:value` or a procedure, `value` succeeds exactly when the instance has a method with the definition's name, and returns that method's result. Otherwise it raises `NoMethodError` for that name. |
| `HalogenDefinition.GuardShapes` | lib/halogen/definition.rb:60-69 | A Proc guard evaluates to the proc's result on the instance. A string guard and a symbol guard with the same text both call that method. Any other non-Proc guard evaluates to itself. |
| `HalogenDefinition.UnguardedIsEnabled` | lib/halogen/definition.rb:40-42 | With neither `:if` nor `:unless`, `enabled?` is true. |
| `HalogenDefinition.IfTakesPrecedence` | lib/halogen/definition.rb:36-39 | When `:if` is present, adding any `:unless` leaves `enabled?` unchanged. |
| `HalogenDefinition.UnlessNegatesIf` | lib/halogen/definition.rb:36-39 | `unless: g` gives the negation of `if: g`, and both raise the same error when `g` raises. |
| `HalogenDefinition.LiteralIfGuard` | lib/halogen/definition.rb:36-37 | A literal `:if` guard enables exactly when the object is neither `nil` nor `false`, so `0` enables. |
| `HalogenDefinition.GuardExamples` | lib/halogen/definition.rb:35-43 | These guards disable: `false`, `proc { false }`, `proc { nil }` and a method returning false. These enable: `true`, `proc { true }`, `proc { 1 }` and a method returning true. A guard naming a missing method raises. |
| `HalogenDefinition.BaseValidateIff` | lib/halogen/definition.rb:49-54 | `validate` returns true exactly when the rule does not have both the `:value` key and a procedure. Otherwise it raises `InvalidDefinition` with the "Cannot specify both value and procedure for <name>" message. |
| `EmbedsDefinition.EmbedValidate` | lib/halogen/embeds/definition.rb:8-14 | A successful embed check returns true, and the rule has a procedure and passes the base check. When the base check raises, that error is raised. Every error is `InvalidDefinition`. |
| `EmbedsDefinition.EmbedEnabled` | lib/halogen/embeds/definition.rb:22-30 | A false base guard gives `false`. A passing base guard gives `embed?(name)` when the instance has `embed?`, and otherwise the boolean from `embed_options`. An error from the base guard is raised unchanged. Otherwise it raises only when the instance has neither `embed?` nor `embed_options`. |
| `EmbedsDefinition.EmbedViaOptions` | lib/halogen/embeds/definition.rb:38-46 | It raises `NoMethodError` for `embed_options` exactly when the instance lacks that method. A true answer means the name is a key. For a present key, the answer is whether its `to_s` is neither "0" nor "false". |
| `EmbedsDefinition.Enabled` | lib/halogen.rb:85 | `definition.enabled?(self)` dispatched on the rule's kind. A false base guard excludes a rule of any kind, and a base guard's error is raised unchanged. A rule that is not an embed answers with the base guard's boolean. |
| `EmbedsDefinition.Validate` | lib/halogen/embeds/definition.rb:8-14 | `validate` dispatched on the rule's kind. Success returns true and implies the base check. A base failure is raised unchanged. A valid embed has a procedure. A rule that is not an embed passes exactly when the base check does. Every error is `InvalidDefinition`. |
| `EmbedsDefinition.EmbedValidateIff` | lib/halogen/embeds/definition.rb:8-14 | An embed is valid exactly when it has a procedure and no `:value` key. With both, the inherited message is raised first. Without a procedure, it raises "Embed <name> must be defined with a proc". |
| `EmbedsDefinition.EmbedValidateStricter` | lib/halogen/embeds/definition.rb:8-9 | Every embed that passes the embed check also passes the base check. Other kinds use the base check. |
| `EmbedsDefinition.BaseGuardGatesEmbed` | lib/halogen/embeds/definition.rb:23 | If the base guard is false, the embed is excluded, whatever `embed?` and `embed_options` hold. |
| `EmbedsDefinition.EmbedPredicateDecides` | lib/halogen/embeds/definition.rb:25-26 | When the base guard passes and the instance defines `embed?`, its answer for the name is the result. `embed_options` is never read, even when the instance lacks it. |
| `EmbedsDefinition.MissingOptionExcludes` | lib/halogen/embeds/definition.rb:41-42 | Without `embed?`, a name that is not a key of `embed_options` excludes the embed. |
| `EmbedsDefinition.OptionValueDecides` | lib/halogen/embeds/definition.rb:44-45 | Without `embed?`, a present key includes the embed exactly when its value is none of `0`, `false`, `"0"`, `"false"`, `:"0"` or `:false`. So `1`, `true`, `nil` and `[0]` include. |
| `EmbedsDefinition.MissingEmbedOptionsRaises` | lib/halogen/embeds/definition.rb:39 | Without `embed?`, an instance that does not respond to `embed_options` makes an enabled embed raise `NoMethodError`. |
| `EmbedsDefinition.EmbedOptionExamples` | lib/halogen/embeds/definition.rb:38-46 | `{"foo" => "0"}`, `{"foo" => 0}` and a hash without `foo` exclude `foo`. `{"foo" => "1"}` and `{"foo" => nil}` include it. An `embed?` answering true includes it even against `{"foo" => "0"}`. |
| `EmbedsDefinition.NonEmbedEnabled` | lib/halogen/definition.rb:35-43 | A rule of any kind except embed answers `enabled?` with the base guard's boolean. It raises the guard's error when the guard raises. |
| `Ruby.ToSIsZero` | lib/halogen/embeds/definition.rb:45 | An object prints as "0" exactly when it is the integer 0, the string "0" or the symbol `:"0"`. |
| `Ruby.ToSIsFalse` | lib/halogen/embeds/definition.rb:45 | An object prints as "false" exactly when it is `false`, the string "false" or the symbol `:false`. |
| `Ruby.IntToSRoundTrip` | lib/halogen/embeds/definition.rb:45 | `Integer#to_s` as modelled reads back to the same integer. |
| `Halogen.RepresenterClass.IsCollection` | lib/halogen.rb:55-57 | A class that has not declared a collection is not one. |
| `Halogen.RepresenterClass.Definitions` | lib/halogen.rb:31-33 | The registry is created empty on the first call. Every later call returns the same registry object. |
| `Halogen.DefinitionsIsMemoised` | lib/halogen.rb:31-33 | Two calls to `definitions` on a new class return the same empty registry. |
| `Halogen.RepresenterClass.Render` | lib/halogen.rb:59-72 | The result is the property hash of the registered property definitions, passed through the embed hook and then the link hook when the class has them. `representer_options[:representer]` is set to the class only when it is absent or falsy; otherwise the options are unchanged. |
| `Halogen.PropertyKeys` | lib/halogen.rb:61-64 | Property rendering puts exactly one key per property name, in the order the names were first declared, with no duplicates. |
| `Halogen.PropertyValues` | lib/halogen.rb:61-64 | Each declared name maps to `get_property_<name>(resource)`. No other key is present. |
| `Halogen.BareClassRendersEmpty` | lib/halogen.rb:59-72 | A new class with no definitions and no embed or link renderer renders `{}`. |
| `Halogen.RepresenterClass.RenderDefinitions` | lib/halogen.rb:81-89 | The block runs on the enabled definitions of the type, in registry order, starting from `{}`. The first `enabled?` that raises aborts the call with its error. The registry contents are unchanged. |
| `Halogen.EnabledIndices` | lib/halogen.rb:84-85 | The selected positions all lie inside the registered sequence. |
| `Halogen.EnabledIndicesExact` | lib/halogen.rb:84-88 | When no guard raises, the selected positions strictly increase, so declaration order is kept. A position is selected exactly when its `enabled?` is truthy, so a disabled definition is skipped without affecting the others. |
| `Halogen.RenderFold` | lib/halogen.rb:81-89 | With no definitions the result is `{}`. A successful render means every definition answered `enabled?`. A raised error is the error of the first definition whose `enabled?` raises, and every definition before it answered. |
| `Halogen.EnabledIndicesAbort` | lib/halogen.rb:84-85 | Once some prefix of the definitions raises, the whole walk raises the same error. |
| `Halogen.EnabledIndicesFirstError` | lib/halogen.rb:84-85 | A walk that raises raises the error of the first definition whose `enabled?` raises. Every definition before it answered without raising. |
| `Halogen.NothingRegisteredRendersEmpty` | lib/halogen.rb:82-84 | A type with no registered definitions yields nothing and returns `{}`. |
| `Halogen.FoldByNameIsStoreAll` | lib/halogen.rb:84-88 | With a block that stores each definition under its name, the fold equals assigning the selected (name, value) pairs in order. |
| `Halogen.RenderByNameKeys` | lib/halogen.rb:84-88 | With a name-keyed block, the result's keys are the names of the enabled definitions in declaration order, each once. |
| `Halogen.RenderByNameValues` | lib/halogen.rb:84-88 | With a name-keyed block, an enabled definition that no later enabled definition shares a name with leaves its own value under that name. |
| `Halogen.FalsyGuardsSkipped` | spec/halogen2_spec.rb:62-74 | Of five links guarded by nothing, `false`, `proc { false }`, `proc { nil }` and `:return_false`, only `label` is rendered. The guard method is modelled as taking no argument, because `send(guard)` passes none. |
| `Halogen.TruthyGuardsKept` | spec/halogen2_spec.rb:76-89 | Five links guarded by nothing, `true`, `proc { true }`, `proc { 1 }` and `:return_true` are all rendered: `label` to `label_5`, in that order. The guard method is modelled as taking no argument, because `send(guard)` passes none. |
| `Halogen.HalogenModule.Config` | lib/halogen.rb:103-105 | `config` is created on the first call, and every later call returns the same instance. |
| `Halogen.HalogenModule.Configure` | lib/halogen.rb:95-97 | `configure` yields the memoised configuration instance. |
| `Halogen.ConfigureYieldsConfig` | spec/halogen_spec.rb:88-93 | The instance a `configure` block receives is the one `config` returns. |
| `OrderedHash.StoreGet` | lib/halogen.rb:63 | After `result[name] = v`, `name` maps to `v` and every other key keeps its value. |
| `OrderedHash.StoreKeys` | lib/halogen.rb:63 | Assigning to a present key keeps the key order. A new key goes last. |
| `OrderedHash.StoreAllGet` | lib/halogen.rb:62-64 | After a sequence of assignments, each key holds the value of its last assignment. Keys never assigned are absent. |
| `OrderedHash.StoreAllKeys` | lib/halogen.rb:62-64 | After a sequence of assignments, the keys are the assigned keys in first-assignment order. |
| `OrderedHash.StoreAllDistinct` | lib/halogen.rb:62-64 | A sequence of assignments never produces a duplicate key. |

## Left out

- JSON text encoding (`to_json`, `require 'json'`). The model stops at the
  hash that `render` returns.
- The `$LOAD_PATH` line and Rails auto-registration. These are load-time glue.
- `Halogen.included`. It mixes `Properties`, `Links`, `Embeds` and the
  configured extensions into the class and adds `attr_reader :options`. This
  is Ruby metaprogramming. The model instead receives what those modules
  supply as fields of `RepresenterClass`.
- `resource(name)` and `collection(name)`. They include `Resource` or
  `Collection` and call `define_resource` or `define_collection`, and those
  files are not part of this model. So are `depth`, `parent`,
  `InvalidResource` and the collection rendering path.
- `get_property_<name>`, `get_embeds` and `get_links` are not part of this
  model. They are opaque functions supplied with the class. The model does
  not cover how links become `{href: ...}` objects or arrays under `_links`,
  or how embeds are rendered under `_embedded`. Hooks are modelled as
  returning the new result hash. They are not modelled as changing
  `representer_options`.
- The `Definitions` container is not part of this model, including its `add`,
  the validation it runs on registration, and copying to subclasses. It is
  modelled as a map from type tag to an ordered sequence, with `fetch(tag, [])`.
- Properties::Definition and Links::Definition are assumed to inherit
  `validate` and `enabled?` unchanged. Their files are not part of this model.
- `embed_options` as a method a guard can call (`Instance.methods`) and
  `embed_options` as read by `Embeds::Definition#enabled?`
  (`Instance.embedOptions`) are independent fields. The model does not force
  them to agree.
- `HashUtil.symbolize_keys!`. Option keys are assumed to be symbols already,
  and they are written as their text.
- `Halogen::Configuration`'s attributes and defaults. Its file is not part of
  this model, so only the identity of the memoised instance is modelled.
- The `procedure=` setter (`attr_accessor :procedure`). Definitions are
  immutable values here.
- `instance_eval` and `send`. A procedure is a total function of the
  instance. A method is a zero-argument entry in a name-to-value map, so
  methods that take arguments are not modelled. Exceptions raised inside a
  procedure are not modelled.
- Ruby objects beyond nil, booleans, integers, strings, symbols, arrays and
  string-keyed hashes (floats, other hash keys, arbitrary objects).
  `Ruby.Inspect` prints strings without escapes, prints every symbol as
  `:name` without the quotes Ruby adds for names such as `:"0"`, and uses the
  `{"k"=>v}` hash notation of Ruby before 3.4. None of these differences
  changes whether a value prints as "0" or "false", because arrays and hashes
  always print starting with `[` or `{`.
