# attr_delegated option resolver, modelled in Dafny

`attr_delegated :email, to: :account` delegates an ActiveRecord attribute to
another object. It delegates the reader and also the writer, the predicate,
the `_before_type_cast` reader and the five dirty-tracking methods. All the
decisions are made by `AttrDelegated::Options`, which this project models:

* **Construction.** The constructor validates its input, in this order:
  1. some attribute is given;
  2. `:to` is set;
  3. `:only` and `:skip` are not both given.

  Any failure raises `ArgumentError`.
* **Group selection.** It picks method groups from the fixed vocabulary
  `reader, writer, predicate, type_cast, dirty`, using one of:
  * `:only` (intersection);
  * `:skip` (difference);
  * the per-group boolean toggles, which default to `true`.
* **Name expansion.** It expands each selected group's name formats over the
  attributes, attribute by attribute.
* **Pass-through.** It slices `:to`, `:allow_nil` and `:prefix` out of the
  options, for the host's `delegate`.

The model is pure, like the source. Every part of it is a datatype, a
function or a lemma:

* `ruby_values.dfy` (module `RubyValues`) covers the Ruby values an options
  hash can hold: nil, booleans, Strings, Symbols and Arrays. It also models:
  * truthiness;
  * ActiveSupport's `blank?`/`present?`, where a String is blank when it
    consists only of Unicode White_Space;
  * `Kernel#Array`;
  * the `to_s` used by `"%s" % value`.
* `options.dfy` (module `AttrDelegated`) covers:
  * the tables `METHODS`, `GROUPS`, `DEFAULTS`, `DELEGATE_OPTION_KEYS` and
    `UNIQUE_KEYS`;
  * the constructor `Resolve`, which returns either a resolved `Options`
    value or the kind of error raised;
  * `detect_delegates!` (`Delegates`), `option?` (`IsOption`),
    `unique_keys`/`unique_key`/`unique_key_options`,
    `delegated_method_formats`, `delegated_methods`,
    `options_for_delegate` and `to_a`.
* `properties.dfy` (module `OptionsProperties`) holds the properties of a
  resolved instance:
  * how groups are selected;
  * canonical order;
  * how many names are produced, and which one sits where;
  * what is passed on to `delegate`.
* `scenarios.dfy` (module `ResolverScenarios`) works through concrete
  declarations, down to the literal method names.

Symbols and Strings are different values. Only the Symbol `:reader` selects
the reader group inside `:only`/`:skip` or acts as its toggle, just as Ruby's
`&`, `-` and `Hash#key?` compare with `eql?`.

The attribute check is `attributes.none?`, so it fails only when no attribute
is truthy. An empty list fails, and so does `[nil, false]`. A `nil` beside a
real name is accepted and produces the names `""`, `"="` and so on
(`NilBesideNameAccepted`).

## Model

| member | source | states |
|---|---|---|
| RubyValues.Truthy | lib/attr_delegated/options.rb:74 | definition of Ruby truthiness (only nil and false are falsy), which `none?` tests; used by `HasAttributes` and `PresentIsTruthy` |
| RubyValues.Blank | lib/attr_delegated/options.rb:117 | definition of ActiveSupport's `blank?`, on which `presence` rests; see `PresentIsTruthy`, `BlankTargetFails` |
| RubyValues.Present | lib/attr_delegated/options.rb:117 | definition: `present?`, the negation of `blank?`; `presence` is truthy exactly when it holds; see `PresentIsTruthy` |
| RubyValues.ToArray | lib/attr_delegated/options.rb:131 | definition of `Kernel#Array` (nil to `[]`, an Array unchanged, anything else wrapped), used at lines 48 and 131; see `OnlySelection`, `SkipSelection`, `NoAttributesFailsFirst` |
| RubyValues.Text | lib/attr_delegated/options.rb:61 | definition of the `to_s` that `format % attribute` puts in place of `%s` (nil gives ""); see `NilBesideNameAccepted` |
| AttrDelegated.Methods | lib/attr_delegated/options.rb:3-15 | definition: the METHODS table, each group's formats in declared order; see `FormatsLength`, `FormatsOfAllGroups` |
| AttrDelegated.Render | lib/attr_delegated/options.rb:61 | definition of `format % attribute`; see `NamesAt`, `NameExpansion` |
| AttrDelegated.AttributeList | lib/attr_delegated/options.rb:48 | definition of `Array(attributes)`; see `Resolve`, `Resolved` |
| AttrDelegated.HasAttributes | lib/attr_delegated/options.rb:73-75 | definition of `!attributes.none?` (some attribute is truthy); see `Resolve`, `NoAttributesFailsFirst`, `NilBesideNameAccepted` |
| AttrDelegated.IsOption | lib/attr_delegated/options.rb:116-118 | definition of `option?` (key present and value present); see `PresentIsTruthy`, `Resolve`, `ToggleSelection` |
| AttrDelegated.UniqueKeys | lib/attr_delegated/options.rb:137-139 | definition of `unique_keys` as the set of selector keys given; see `ManyUniqueKeys` |
| AttrDelegated.UniqueKey | lib/attr_delegated/options.rb:144-148 | definition of `unique_key`; see `Resolved` |
| AttrDelegated.UniqueKeyOptions | lib/attr_delegated/options.rb:130-132 | definition of `unique_key_options`; see `Resolved`, `OnlySelection`, `SkipSelection` |
| AttrDelegated.Keeps | lib/attr_delegated/options.rb:107-111 | definition: whether `&`, `-` or the toggle `select` keeps a group; see `FilterMembers` |
| AttrDelegated.Filter | lib/attr_delegated/options.rb:106-113 | definition of `GROUPS & ids`, `GROUPS - ids` and `GROUPS.select` on the duplicate-free GROUPS; see `FilterMembers`, `FilterAscending`, `FilterKeepsAll` |
| AttrDelegated.Delegates | lib/attr_delegated/options.rb:106-113 | definition of `detect_delegates!`; see `ToggleSelection`, `OnlySelection`, `SkipSelection`, `TogglesIgnoredBySelectors`, `CanonicalOrder` |
| AttrDelegated.Formats | lib/attr_delegated/options.rb:94-96 | definition of `METHODS.values_at(*groups).flatten`; see `FormatsLength`, `FormatsOfAllGroups` |
| AttrDelegated.DelegatedMethodFormats | lib/attr_delegated/options.rb:94-96 | definition of `delegated_method_formats`; see `FormatCount` |
| AttrDelegated.Expand | lib/attr_delegated/options.rb:60-62 | definition of `formats.map { format % attribute }`; see `NamesAt` |
| AttrDelegated.DelegatedMethods | lib/attr_delegated/options.rb:58-64 | definition of `delegated_methods`; see `NameExpansion`, `ToAContents` |
| AttrDelegated.OptionsForDelegate | lib/attr_delegated/options.rb:123-125 | definition of `options_for_delegate`; see `PassThrough`, `ToAContents` |
| RubyValues.PresentIsTruthy | lib/attr_delegated/options.rb:116-118 | a present value is truthy, so `option?` is truthy exactly when the key is there and its value is present; the empty String is truthy yet blank |
| AttrDelegated.Rank | lib/attr_delegated/options.rb:17 | every group is in GROUPS: it has a position there, and GROUPS holds that group at that position |
| AttrDelegated.GroupKey | lib/attr_delegated/options.rb:3-21 | the symbol naming a group is one of the toggle keys of DEFAULTS |
| AttrDelegated.WithDefaults | lib/attr_delegated/options.rb:49 | after `reverse_merge DEFAULTS` (DEFAULTS maps every group to `true`) the keys are the caller's keys plus the five toggles; every value the caller gave is kept; every toggle the caller left out is `true` |
| AttrDelegated.ManyUniqueKeys | lib/attr_delegated/options.rb:85-91 | `unique_keys.many?` holds exactly when both `:only` and `:skip` are keys |
| AttrDelegated.Resolve | lib/attr_delegated/options.rb:47-91 | construction fails with the attributes error exactly when no attribute is truthy; with the `:to` error exactly when the attributes pass and `:to` is missing or blank; with the conflict error exactly when both earlier checks pass and both `:only` and `:skip` are keys, whatever their values; otherwise it keeps `Array(attributes)` and the caller's keys plus the toggles |
| AttrDelegated.FilterMembers | lib/attr_delegated/options.rb:106-113 | a group survives `&`, `-` or `select` exactly when it was in the list and the selector keeps it |
| AttrDelegated.FilterAscending | lib/attr_delegated/options.rb:106-113 | selecting from a list in canonical order keeps canonical order |
| AttrDelegated.AscendingOccurrences | lib/attr_delegated/options.rb:106-113 | a list in strict canonical order holds every group at most once |
| AttrDelegated.FormatsLength | lib/attr_delegated/options.rb:94-96 | `values_at(*groups).flatten` has one format per group plus four more for each `dirty` |
| AttrDelegated.Names | lib/attr_delegated/options.rb:58-64 | `flat_map` over the attributes gives as many names as attributes times formats |
| AttrDelegated.NamesAt | lib/attr_delegated/options.rb:58-64 | name number `i * F + j` is format `j` applied to attribute `i`, where F is the number of formats |
| AttrDelegated.ToA | lib/attr_delegated/options.rb:66-68 | `to_a` holds one name per attribute and format, and only delegate options in its trailing hash |
| OptionsProperties.Resolved | lib/attr_delegated/options.rb:47-49 | a constructed instance has a truthy attribute, holds the caller's options with the defaults merged in, and has the same `unique_key` and `unique_key_options` as the caller's hash |
| OptionsProperties.ToggleSelection | lib/attr_delegated/options.rb:111-118 | without `:only` and `:skip`, a group is selected exactly when the caller left its toggle out or gave it a present value |
| OptionsProperties.DefaultsSelectAll | lib/attr_delegated/options.rb:111 | with no toggles and no selectors, all five groups are selected, in order |
| OptionsProperties.FilterKeepsAll | lib/attr_delegated/options.rb:111 | selecting with a selector that keeps every group returns the list unchanged |
| OptionsProperties.OnlySelection | lib/attr_delegated/options.rb:107-108 | with `:only`, a group is selected exactly when its symbol is in `Array(only)`; toggles and unknown identifiers have no effect |
| OptionsProperties.SkipSelection | lib/attr_delegated/options.rb:107-109 | with `:skip`, a group is selected exactly when its symbol is not in `Array(skip)`; toggles and unknown identifiers have no effect |
| OptionsProperties.TogglesIgnoredBySelectors | lib/attr_delegated/options.rb:106-113 | once `:only` or `:skip` is given, changing the toggles changes neither whether construction succeeds nor the selection |
| OptionsProperties.CanonicalOrder | lib/attr_delegated/options.rb:106-113 | the selected groups are in strict canonical order, so none appears twice |
| OptionsProperties.FormatCount | lib/attr_delegated/options.rb:94-96 | there is one format per selected group, plus four when `dirty` is selected |
| OptionsProperties.NameExpansion | lib/attr_delegated/options.rb:58-64 | the names are the attribute-major cross product of attributes and formats: the count is their product and each position holds its format applied to its attribute |
| OptionsProperties.PassThrough | lib/attr_delegated/options.rb:123-125 | `options_for_delegate` has exactly the caller's keys among `:to`, `:allow_nil` and `:prefix`, with the caller's values, and never a toggle, `:only` or `:skip` |
| OptionsProperties.ToAContents | lib/attr_delegated/options.rb:58-68 | `to_a` is the attribute-major name list followed by the caller's pass-through options as given |
| ResolverScenarios.FormatsOfAllGroups | lib/attr_delegated/options.rb:3-15 | all five groups flatten to the nine formats, with the dirty formats last |
| ResolverScenarios.OnlyTargetPassedOn | lib/attr_delegated/options.rb:123-125 | when `:to` is the only pass-through key given, `delegate` receives just `to:` |
| ResolverScenarios.EmailDefaults | lib/attr_delegated/options.rb:58-68 | `:email, to: :account` selects every group and delegates `email`, `email=`, `email?`, `email_before_type_cast`, `email_change`, `email_changed?`, `email_will_change!`, `email_was`, `reset_email!`, passing on `to: :account` |
| ResolverScenarios.StatusOnlyReaderAndPredicate | lib/attr_delegated/options.rb:106-108 | `:status, to: :child, only: [:reader, :predicate]` delegates `status` and `status?` and passes on `to: :child` |
| ResolverScenarios.OnlyOrderIgnored | lib/attr_delegated/options.rb:108 | `only: [:dirty, :reader]` selects the reader before dirty |
| ResolverScenarios.NameAgeSkipDirtyAndTypeCast | lib/attr_delegated/options.rb:106-109 | `:name, :age, skip: [:dirty, :type_cast]` delegates `name`, `name=`, `name?`, `age`, `age=`, `age?` in that order |
| ResolverScenarios.PredicateToggledOff | lib/attr_delegated/options.rb:111-118 | `predicate: false` alone drops only the predicate group |
| ResolverScenarios.BlankTargetFails | lib/attr_delegated/options.rb:79-81 | a `:to` of nil, false, `""` or white space fails with the `:to` error |
| ResolverScenarios.EmptySelectorsConflict | lib/attr_delegated/options.rb:85-91 | `only: []` with `skip: []` still fails with the conflict error |
| ResolverScenarios.NoAttributesFailsFirst | lib/attr_delegated/options.rb:51-53 | no attributes, a lone nil, or only falsy attributes fail with the attributes error before `:to` or the selectors are looked at |
| ResolverScenarios.NilBesideNameAccepted | lib/attr_delegated/options.rb:73-75 | `[nil, :email]` is accepted and yields 18 names, the first two `""` and `"="` |

## Left out

- lib/attr_delegated.rb (the `attr_delegated` entry point and the `on_load` hook) is not part of this model. It only forwards `to_a` to ActiveSupport's `delegate`, which defines the methods and is not shown.
- The text of the `ArgumentError` messages, including the `to_sentence` list of conflicting keys, is not modelled. Errors are an enumerated kind.
- Memoisation (`||=`, `defined?`) is not modelled. Every derived value is a pure function of the resolved instance, so caching is unobservable.
- Hash key order is not modelled, because options hashes are Dafny maps. So is the order of keys in `options_for_delegate`.
- Which selector `unique_key` names first when both `:only` and `:skip` are given is not modelled, since construction has already failed by then. The model answers `:only`.
- Integers, Floats, Hashes and other objects as option values or attributes are not modelled. The value type is nil, booleans, Strings, Symbols and Arrays.
- Attributes that are themselves Arrays are not modelled: for those, `String#%` treats the Array as an argument list. Attributes are non-Array values, and `format % attribute` is modelled as `to_s` substitution into a single `%s`.
- General `String#%` formatting and `blank?` on arbitrary objects are not modelled. `blank?` on a String follows the Unicode White_Space set, which is what `[[:space:]]` matches in a UTF-8 string.
