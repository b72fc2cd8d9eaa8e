/**
 The option resolver behind `attr_delegated`: it validates a list of attribute
 names and an options hash, decides which method groups to delegate, expands
 the groups' name templates over the attributes and slices out the options
 that are passed on to the host framework's `delegate`.

 A resolved instance is a value (`Options`); every query is a pure function of
 it, so the memoised instance variables of the Ruby class are not modelled.
 */
module AttrDelegated {
  import opened RubyValues

  // ---------------------------------------------------------------------------
  // The fixed tables
  // ---------------------------------------------------------------------------

  /** The method groups, one per key of the METHODS table. */
  datatype Group = Reader | Writer | Predicate | TypeCast | Dirty

  /** GROUPS: the keys of METHODS in their declared (canonical) order. */
  const GROUPS: seq<Group> := [Reader, Writer, Predicate, TypeCast, Dirty]

  /** The position of a group in GROUPS. */
  function Rank(g: Group): (r: nat)
    ensures r < |GROUPS| && GROUPS[r] == g
    ensures g in GROUPS
  {
    match g
    case Reader => 0
    case Writer => 1
    case Predicate => 2
    case TypeCast => 3
    case Dirty => 4
  }

  /** The symbol naming a group, both as a toggle key and inside `:only`/`:skip`. */
  function GroupKey(g: Group): (k: Value)
    ensures k in TOGGLE_KEYS
  {
    match g
    case Reader => Sym("reader")
    case Writer => Sym("writer")
    case Predicate => Sym("predicate")
    case TypeCast => Sym("type_cast")
    case Dirty => Sym("dirty")
  }

  const TO: Value := Sym("to")
  const ALLOW_NIL: Value := Sym("allow_nil")
  const PREFIX: Value := Sym("prefix")
  const ONLY: Value := Sym("only")
  const SKIP: Value := Sym("skip")

  /** DELEGATE_OPTION_KEYS: the options handed on to `delegate`. */
  const DELEGATE_OPTION_KEYS: set<Value> := {TO, ALLOW_NIL, PREFIX}

  /** UNIQUE_KEYS: the two mutually exclusive group selectors. */
  const UNIQUE_KEYS: set<Value> := {ONLY, SKIP}

  /** The keys of DEFAULTS: one toggle per group. */
  const TOGGLE_KEYS: set<Value> :=
    {Sym("reader"), Sym("writer"), Sym("predicate"), Sym("type_cast"), Sym("dirty")}

  /** A method-name format `prefix%ssuffix` with its single placeholder. */
  datatype Template = Template(prefix: string, suffix: string)

  /** The formats METHODS lists for a group, in their declared order. */
  function Methods(g: Group): seq<Template> {
    match g
    case Reader => [Template("", "")]
    case Writer => [Template("", "=")]
    case Predicate => [Template("", "?")]
    case TypeCast => [Template("", "_before_type_cast")]
    case Dirty => [Template("", "_change"), Template("", "_changed?"),
                   Template("", "_will_change!"), Template("", "_was"),
                   Template("reset_", "!")]
  }

  /** `format % attribute`: the attribute's text put in place of `%s`. */
  function Render(t: Template, attribute: Scalar): string {
    t.prefix + Text(attribute) + t.suffix
  }

  // ---------------------------------------------------------------------------
  // Construction
  // ---------------------------------------------------------------------------

  /** The first constructor argument: one attribute or an Array of them. */
  datatype Attributes = One(attribute: Scalar) | Many(attributes: seq<Scalar>)

  /** `Array(attributes)`. */
  function AttributeList(a: Attributes): seq<Scalar> {
    match a
    case One(x) => ToArray(x)
    case Many(xs) => xs
  }

  /** `raw_options.reverse_merge DEFAULTS`: every toggle the caller did not
      give is `true`; everything the caller gave is kept as given. */
  function WithDefaults(raw: map<Value, Value>): (m: map<Value, Value>)
    ensures m.Keys == raw.Keys + TOGGLE_KEYS
    ensures forall k :: k in raw ==> m[k] == raw[k]
    ensures forall g: Group :: GroupKey(g) !in raw ==> m[GroupKey(g)] == Bool(true)
  {
    map k | k in raw.Keys + TOGGLE_KEYS :: if k in raw then raw[k] else Bool(true)
  }

  /** The reasons construction raises ArgumentError, in the order they are checked. */
  datatype ConfigError = NoAttributes | MissingTo | Conflict

  datatype Result<T> = Ok(value: T) | Err(error: ConfigError)

  /** A constructed resolver: `@attributes` and `@raw_options` (defaults merged). */
  datatype Options = Options(attributes: seq<Scalar>, rawOptions: map<Value, Value>)

  /** `!attributes.none?`: some attribute is truthy. */
  predicate HasAttributes(attributes: seq<Scalar>) {
    exists i :: 0 <= i < |attributes| && Truthy(attributes[i])
  }

  /** `option?(key)`: the key is there and its value is present. */
  predicate IsOption(raw: map<Value, Value>, key: Value) {
    key in raw && Present(raw[key])
  }

  /** `unique_keys`: which of `:only` and `:skip` were given. */
  function UniqueKeys(raw: map<Value, Value>): set<Value> {
    raw.Keys * UNIQUE_KEYS
  }

  /** `unique_keys.many?` holds exactly when both selectors were given. */
  lemma ManyUniqueKeys(raw: map<Value, Value>)
    ensures |UniqueKeys(raw)| > 1 <==> ONLY in raw && SKIP in raw
  {
    var u := UniqueKeys(raw);
    if ONLY in raw && SKIP in raw {
      assert u == {ONLY, SKIP};
    } else if ONLY in raw {
      assert u == {ONLY};
    } else if SKIP in raw {
      assert u == {SKIP};
    } else {
      assert u == {};
    }
  }

  /** `Options.new(attributes, raw_options)`: the three checks in their order,
      then the resolved instance. */
  function Resolve(attributes: Attributes, raw: map<Value, Value>): (r: Result<Options>)
    ensures r == Err(NoAttributes) <==> !HasAttributes(AttributeList(attributes))
    ensures r == Err(MissingTo) <==>
      HasAttributes(AttributeList(attributes)) && !(TO in raw && Present(raw[TO]))
    ensures r == Err(Conflict) <==>
      HasAttributes(AttributeList(attributes)) && TO in raw && Present(raw[TO])
      && ONLY in raw && SKIP in raw
    ensures r.Ok? ==> r.value.attributes == AttributeList(attributes)
    ensures r.Ok? ==> r.value.rawOptions.Keys == raw.Keys + TOGGLE_KEYS
  {
    var attrs := AttributeList(attributes);
    var merged := WithDefaults(raw);
    assert TO !in TOGGLE_KEYS && ONLY !in TOGGLE_KEYS && SKIP !in TOGGLE_KEYS;
    if !HasAttributes(attrs) then Err(NoAttributes)
    else if !IsOption(merged, TO) then Err(MissingTo)
    else if |UniqueKeys(merged)| > 1 then
      ManyUniqueKeys(merged);
      Err(Conflict)
    else
      ManyUniqueKeys(merged);
      Ok(Options(attrs, merged))
  }

  // ---------------------------------------------------------------------------
  // Group selection
  // ---------------------------------------------------------------------------

  /** `unique_key`: the selector that was given, or nil when neither was.
      When both were given construction has already failed; the model then
      answers `:only`. */
  function UniqueKey(raw: map<Value, Value>): Value {
    if ONLY in raw then ONLY else if SKIP in raw then SKIP else Nil
  }

  /** `unique_key_options`: `Array(raw_options[unique_key])`; a missing key reads as nil. */
  function UniqueKeyOptions(raw: map<Value, Value>): seq<Value> {
    var k := UniqueKey(raw);
    if k in raw then ToArray(raw[k]) else []
  }

  /** The three ways `detect_delegates!` picks groups out of GROUPS. */
  datatype Selector =
    | Intersect(ids: seq<Value>)          // GROUPS & ids
    | Subtract(ids: seq<Value>)           // GROUPS - ids
    | Toggles(raw: map<Value, Value>)     // GROUPS.select { |g| option? g }

  predicate Keeps(sel: Selector, g: Group) {
    match sel
    case Intersect(ids) => GroupKey(g) in ids
    case Subtract(ids) => GroupKey(g) !in ids
    case Toggles(raw) => IsOption(raw, GroupKey(g))
  }

  /** The groups of `gs` that `sel` keeps, in the order of `gs`. On GROUPS,
      which has no duplicates, this is what Ruby's `&`, `-` and `select` give. */
  function Filter(gs: seq<Group>, sel: Selector): seq<Group> {
    if gs == [] then []
    else (if Keeps(sel, gs[0]) then [gs[0]] else []) + Filter(gs[1..], sel)
  }

  /** `detect_delegates!`, the value `delegates` memoises. */
  function Delegates(o: Options): seq<Group> {
    var raw := o.rawOptions;
    var k := UniqueKey(raw);
    if k == ONLY then Filter(GROUPS, Intersect(UniqueKeyOptions(raw)))
    else if k == SKIP then Filter(GROUPS, Subtract(UniqueKeyOptions(raw)))
    else Filter(GROUPS, Toggles(raw))
  }

  /** Groups listed in strictly increasing canonical position. */
  predicate Ascending(gs: seq<Group>) {
    forall i, j :: 0 <= i < j < |gs| ==> Rank(gs[i]) < Rank(gs[j])
  }

  lemma {:induction false} FilterMembers(gs: seq<Group>, sel: Selector, g: Group)
    ensures g in Filter(gs, sel) <==> g in gs && Keeps(sel, g)
  {
    if gs != [] {
      FilterMembers(gs[1..], sel, g);
      assert gs == [gs[0]] + gs[1..];
    }
  }

  lemma {:induction false} FilterAscending(gs: seq<Group>, sel: Selector)
    requires Ascending(gs)
    ensures Ascending(Filter(gs, sel))
  {
    if gs != [] {
      var rest := Filter(gs[1..], sel);
      FilterAscending(gs[1..], sel);
      forall x | x in rest ensures Rank(gs[0]) < Rank(x) {
        FilterMembers(gs[1..], sel, x);
        var k :| 0 <= k < |gs[1..]| && gs[1..][k] == x;
        assert gs[k + 1] == x;
      }
    }
  }

  /** A duplicate-free canonical list holds each group at most once. */
  lemma {:induction false} AscendingOccurrences(gs: seq<Group>, g: Group)
    requires Ascending(gs)
    ensures multiset(gs)[g] == if g in gs then 1 else 0
  {
    if gs != [] {
      assert gs == [gs[0]] + gs[1..];
      AscendingOccurrences(gs[1..], g);
      if gs[0] == g {
        assert g !in gs[1..] by {
          forall k | 0 <= k < |gs[1..]| ensures gs[1..][k] != g {
            assert gs[1..][k] == gs[k + 1];
          }
        }
      }
    }
  }

  // ---------------------------------------------------------------------------
  // Name expansion
  // ---------------------------------------------------------------------------

  /** `METHODS.values_at(*groups).flatten`: each group's formats, group by
      group; every group adds one format except `dirty`, which adds five. */
  function Formats(groups: seq<Group>): seq<Template> {
    if groups == [] then [] else Methods(groups[0]) + Formats(groups[1..])
  }

  /** Every group contributes one format, except `dirty`, which contributes five. */
  lemma {:induction false} FormatsLength(groups: seq<Group>)
    ensures |Formats(groups)| == |groups| + 4 * multiset(groups)[Dirty]
  {
    if groups != [] {
      FormatsLength(groups[1..]);
      assert groups == [groups[0]] + groups[1..];
      assert multiset(groups) == multiset{groups[0]} + multiset(groups[1..]);
    }
  }

  /** `delegated_method_formats`. */
  function DelegatedMethodFormats(o: Options): seq<Template> {
    Formats(Delegates(o))
  }

  /** `formats.map { |format| format % attribute }`. */
  function Expand(attribute: Scalar, ts: seq<Template>): seq<string> {
    seq(|ts|, j requires 0 <= j < |ts| => Render(ts[j], attribute))
  }

  /** `attributes.flat_map { |attribute| ... }`: all names of the first
      attribute, then all names of the next one, and so on. */
  function Names(attributes: seq<Scalar>, ts: seq<Template>): (names: seq<string>)
    ensures |names| == |attributes| * |ts|
  {
    if attributes == [] then []
    else Expand(attributes[0], ts) + Names(attributes[1..], ts)
  }

  /** Name `i * |ts| + j` is template `j` applied to attribute `i`. */
  lemma {:induction false} NamesAt(attributes: seq<Scalar>, ts: seq<Template>, i: nat, j: nat)
    requires i < |attributes| && j < |ts|
    ensures i * |ts| + j < |Names(attributes, ts)|
    ensures Names(attributes, ts)[i * |ts| + j] == Render(ts[j], attributes[i])
  {
    if i > 0 {
      NamesAt(attributes[1..], ts, i - 1, j);
      assert i * |ts| + j == |ts| + ((i - 1) * |ts| + j);
    }
  }

  /** `delegated_methods`. */
  function DelegatedMethods(o: Options): seq<string> {
    Names(o.attributes, DelegatedMethodFormats(o))
  }

  // ---------------------------------------------------------------------------
  // Output
  // ---------------------------------------------------------------------------

  /** `options_for_delegate`: `raw_options.slice(*DELEGATE_OPTION_KEYS)`. */
  function OptionsForDelegate(o: Options): map<Value, Value> {
    map k | k in o.rawOptions.Keys * DELEGATE_OPTION_KEYS :: o.rawOptions[k]
  }

  /** What `to_a` splats into `delegate`: the names, then the options hash. */
  datatype Plan = Plan(methods: seq<string>, delegateOptions: map<Value, Value>)

  /** `to_a`. */
  function ToA(o: Options): (p: Plan)
    ensures |p.methods| == |o.attributes| * |DelegatedMethodFormats(o)|
    ensures p.delegateOptions.Keys <= DELEGATE_OPTION_KEYS
  {
    Plan(DelegatedMethods(o), OptionsForDelegate(o))
  }
}
