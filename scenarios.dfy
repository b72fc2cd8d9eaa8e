/**
 Concrete resolutions: what one `attr_delegated` declaration turns into.
 Each scenario is computed in small steps (one lemma per step) so that the
 verifier never has to unfold a whole resolution at once.

 A scenario lemma takes the declaration's attributes and options hash as
 parameters that its `requires` pins to literals, instead of writing the
 literals into its `ensures`. A call on literal arguments would let the
 verifier evaluate `Resolve` and everything built on it in one go; with the
 literals behind parameters, the lemma body instead derives the few facts
 about the hash that each step needs (which keys it has, what they map to)
 and passes them to the small generic lemmas below. The helpers that fix
 formats or names (`FormatsOfAllGroups`, `EmailNames`, ...) take the
 sequences they describe as parameters for the same reason.
 */
module ResolverScenarios {
  import opened RubyValues
  import opened AttrDelegated
  import opened OptionsProperties

  // ---------------------------------------------------------------------------
  // Small computation steps
  // ---------------------------------------------------------------------------

  lemma FormatsCons(g: Group, rest: seq<Group>)
    ensures Formats([g] + rest) == Methods(g) + Formats(rest)
  {
    assert ([g] + rest)[1..] == rest;
  }

  lemma ExpandConcat(attribute: Scalar, ts1: seq<Template>, ts2: seq<Template>)
    ensures Expand(attribute, ts1 + ts2) == Expand(attribute, ts1) + Expand(attribute, ts2)
  {
  }

  lemma OneAttribute(attribute: Scalar, ts: seq<Template>)
    ensures Names([attribute], ts) == Expand(attribute, ts)
  {
    assert Names([attribute], ts) == Expand(attribute, ts) + Names([], ts);
  }

  lemma TwoAttributes(a: Scalar, b: Scalar, ts: seq<Template>)
    ensures Names([a, b], ts) == Expand(a, ts) + Expand(b, ts)
  {
    assert [a, b][1..] == [b];
    OneAttribute(b, ts);
  }

  /** The formats of reader, writer, predicate and type_cast. */
  const SINGLE_FORMATS: seq<Template> :=
    [Template("", ""), Template("", "="), Template("", "?"), Template("", "_before_type_cast")]

  lemma FormatsOfAllGroups(ts: seq<Template>)
    requires ts == Formats(GROUPS)
    ensures ts == SINGLE_FORMATS + Methods(Dirty)
  {
    FormatsCons(Dirty, []);
    FormatsCons(TypeCast, [Dirty]);
    FormatsCons(Predicate, [TypeCast, Dirty]);
    FormatsCons(Writer, [Predicate, TypeCast, Dirty]);
    FormatsCons(Reader, [Writer, Predicate, TypeCast, Dirty]);
    assert [TypeCast] + [Dirty] == [TypeCast, Dirty];
    assert [Predicate] + [TypeCast, Dirty] == [Predicate, TypeCast, Dirty];
    assert [Writer] + [Predicate, TypeCast, Dirty] == [Writer, Predicate, TypeCast, Dirty];
    assert [Reader] + [Writer, Predicate, TypeCast, Dirty] == GROUPS;
  }

  /** The reader, writer, predicate and type_cast names of one attribute. */
  lemma SingleNames(attribute: Scalar)
    ensures var t := Text(attribute);
      Expand(attribute, SINGLE_FORMATS) == [t, t + "=", t + "?", t + "_before_type_cast"]
  {
    var e := Expand(attribute, SINGLE_FORMATS);
    var t := Text(attribute);
    assert "" + t == t && t + "" == t;
    assert e[0] == "" + t + "";
    assert e[1] == "" + t + "=";
    assert e[2] == "" + t + "?";
    assert e[3] == "" + t + "_before_type_cast";
  }

  /** The five dirty-tracking names of one attribute. */
  lemma DirtyNames(attribute: Scalar)
    ensures var t := Text(attribute);
      Expand(attribute, Methods(Dirty))
        == [t + "_change", t + "_changed?", t + "_will_change!", t + "_was", "reset_" + t + "!"]
  {
    var e := Expand(attribute, Methods(Dirty));
    var t := Text(attribute);
    assert "" + t == t;
    assert e[0] == "" + t + "_change";
    assert e[1] == "" + t + "_changed?";
    assert e[2] == "" + t + "_will_change!";
    assert e[3] == "" + t + "_was";
    assert e[4] == "reset_" + t + "!";
  }

  lemma EmailSingleNames()
    ensures Expand(Sym("email"), SINGLE_FORMATS) == ["email", "email=", "email?", "email_before_type_cast"]
  {
    SingleNames(Sym("email"));
    var t := Text(Sym("email"));
    assert t == "email";
    assert t + "=" == "email=" && t + "?" == "email?" && t + "_before_type_cast" == "email_before_type_cast";
  }

  lemma EmailDirtyNames()
    ensures Expand(Sym("email"), Methods(Dirty))
         == ["email_change", "email_changed?", "email_will_change!", "email_was", "reset_email!"]
  {
    DirtyNames(Sym("email"));
    var t := Text(Sym("email"));
    assert t == "email";
    assert t + "_change" == "email_change" && t + "_changed?" == "email_changed?";
    assert t + "_will_change!" == "email_will_change!" && t + "_was" == "email_was";
    assert "reset_" + t + "!" == "reset_email!";
  }

  lemma EmailNames(names: seq<string>, ts: seq<Template>)
    requires ts == Formats(GROUPS) && names == Names([Sym("email")], ts)
    ensures names == ["email", "email=", "email?", "email_before_type_cast",
                      "email_change", "email_changed?", "email_will_change!",
                      "email_was", "reset_email!"]
  {
    OneAttribute(Sym("email"), ts);
    FormatsOfAllGroups(ts);
    ExpandConcat(Sym("email"), SINGLE_FORMATS, Methods(Dirty));
    EmailSingleNames();
    EmailDirtyNames();
  }

  // ---------------------------------------------------------------------------
  // Resolution steps, stated over what a scenario's options hash contains
  // ---------------------------------------------------------------------------

  /** Construction succeeds once the three checks pass, and keeps the attributes. */
  lemma Accepted(attributes: Attributes, raw: map<Value, Value>)
    requires HasAttributes(AttributeList(attributes))
    requires TO in raw && Present(raw[TO])
    requires ONLY !in raw || SKIP !in raw
    ensures Resolve(attributes, raw).Ok?
    ensures Resolve(attributes, raw).value.attributes == AttributeList(attributes)
  {
  }

  /** With `:only`, the groups are those the identifiers name. */
  lemma OnlyFilter(attributes: Attributes, raw: map<Value, Value>, o: Options)
    requires Resolve(attributes, raw) == Ok(o)
    requires ONLY in raw
    ensures Delegates(o) == Filter(GROUPS, Intersect(ToArray(raw[ONLY])))
  {
    Resolved(attributes, raw, o);
  }

  /** With `:skip` alone, the groups are those the identifiers do not name. */
  lemma SkipFilter(attributes: Attributes, raw: map<Value, Value>, o: Options)
    requires Resolve(attributes, raw) == Ok(o)
    requires SKIP in raw && ONLY !in raw
    ensures Delegates(o) == Filter(GROUPS, Subtract(ToArray(raw[SKIP])))
  {
    Resolved(attributes, raw, o);
  }

  /** Without selectors, the groups are those whose toggle is on after the
      defaults are merged in. */
  lemma ToggleFilter(attributes: Attributes, raw: map<Value, Value>, o: Options)
    requires Resolve(attributes, raw) == Ok(o)
    requires ONLY !in raw && SKIP !in raw
    ensures Delegates(o) == Filter(GROUPS, Toggles(WithDefaults(raw)))
  {
    Resolved(attributes, raw, o);
  }

  /** When `:to` is the only pass-through option given, `delegate` gets just it. */
  lemma OnlyTargetPassedOn(attributes: Attributes, raw: map<Value, Value>, o: Options)
    requires Resolve(attributes, raw) == Ok(o)
    requires TO in raw && ALLOW_NIL !in raw && PREFIX !in raw
    ensures OptionsForDelegate(o) == map[TO := raw[TO]]
  {
    PassThrough(attributes, raw, o);
    var m := OptionsForDelegate(o);
    assert m.Keys == {TO};
  }

  // ---------------------------------------------------------------------------
  // Scenarios
  // ---------------------------------------------------------------------------

  /** `attr_delegated :email, to: :account` delegates all nine methods and
      passes on only `to: :account`. */
  lemma EmailDefaults(attributes: Attributes, raw: map<Value, Value>)
    requires attributes == Many([Sym("email")]) && raw == map[TO := Sym("account")]
    ensures Resolve(attributes, raw).Ok?
    ensures var o := Resolve(attributes, raw).value;
      && Delegates(o) == GROUPS
      && DelegatedMethods(o) == ["email", "email=", "email?", "email_before_type_cast",
                                 "email_change", "email_changed?", "email_will_change!",
                                 "email_was", "reset_email!"]
      && OptionsForDelegate(o) == map[TO := Sym("account")]
  {
    var attrs := [Sym("email")];
    assert AttributeList(attributes) == attrs && HasAttributes(attrs) by { assert Truthy(attrs[0]); }
    assert TO in raw && raw[TO] == Sym("account") && Present(raw[TO]);
    assert ONLY !in raw && SKIP !in raw && ALLOW_NIL !in raw && PREFIX !in raw;
    assert raw.Keys !! TOGGLE_KEYS;
    Accepted(attributes, raw);
    var o := Resolve(attributes, raw).value;
    DefaultsSelectAll(attributes, raw, o);
    OnlyTargetPassedOn(attributes, raw, o);
    EmailNames(DelegatedMethods(o), DelegatedMethodFormats(o));
  }

  lemma OnlyReaderAndPredicate()
    ensures Filter(GROUPS, Intersect([Sym("reader"), Sym("predicate")])) == [Reader, Predicate]
  {
  }

  lemma StatusNames(names: seq<string>, ts: seq<Template>)
    requires ts == Formats([Reader, Predicate]) && names == Names([Sym("status")], ts)
    ensures names == ["status", "status?"]
  {
    FormatsCons(Predicate, []);
    FormatsCons(Reader, [Predicate]);
    assert [Reader] + [Predicate] == [Reader, Predicate];
    assert ts == [Template("", ""), Template("", "?")];
    OneAttribute(Sym("status"), ts);
    var e := Expand(Sym("status"), ts);
    assert e[0] == "" + "status" + "" == "status";
    assert e[1] == "" + "status" + "?" == "status?";
  }

  /** `attr_delegated :status, to: :child, only: [:reader, :predicate]`
      delegates the reader and the predicate and passes on `to: :child`. */
  lemma StatusOnlyReaderAndPredicate(attributes: Attributes, raw: map<Value, Value>)
    requires attributes == Many([Sym("status")])
    requires raw == map[TO := Sym("child"), ONLY := List([Sym("reader"), Sym("predicate")])]
    ensures Resolve(attributes, raw).Ok?
    ensures DelegatedMethods(Resolve(attributes, raw).value) == ["status", "status?"]
    ensures OptionsForDelegate(Resolve(attributes, raw).value) == map[TO := Sym("child")]
  {
    var attrs := [Sym("status")];
    assert AttributeList(attributes) == attrs && HasAttributes(attrs) by { assert Truthy(attrs[0]); }
    assert TO in raw && raw[TO] == Sym("child") && Present(raw[TO]);
    assert ONLY in raw && ToArray(raw[ONLY]) == [Sym("reader"), Sym("predicate")];
    assert SKIP !in raw && ALLOW_NIL !in raw && PREFIX !in raw;
    Accepted(attributes, raw);
    var o := Resolve(attributes, raw).value;
    OnlyFilter(attributes, raw, o);
    OnlyReaderAndPredicate();
    OnlyTargetPassedOn(attributes, raw, o);
    StatusNames(DelegatedMethods(o), DelegatedMethodFormats(o));
  }

  lemma OnlyDirtyAndReader()
    ensures Filter(GROUPS, Intersect([Sym("dirty"), Sym("reader")])) == [Reader, Dirty]
  {
  }

  /** The order inside `:only` does not matter: `only: [:dirty, :reader]`
      selects reader before dirty. */
  lemma OnlyOrderIgnored(attributes: Attributes, raw: map<Value, Value>)
    requires attributes == Many([Sym("email")])
    requires raw == map[TO := Sym("account"), ONLY := List([Sym("dirty"), Sym("reader")])]
    ensures Resolve(attributes, raw).Ok?
    ensures Delegates(Resolve(attributes, raw).value) == [Reader, Dirty]
  {
    var attrs := [Sym("email")];
    assert AttributeList(attributes) == attrs && HasAttributes(attrs) by { assert Truthy(attrs[0]); }
    assert TO in raw && raw[TO] == Sym("account") && Present(raw[TO]);
    assert ONLY in raw && ToArray(raw[ONLY]) == [Sym("dirty"), Sym("reader")];
    assert SKIP !in raw;
    Accepted(attributes, raw);
    OnlyFilter(attributes, raw, Resolve(attributes, raw).value);
    OnlyDirtyAndReader();
  }

  lemma SkipDirtyAndTypeCast()
    ensures Filter(GROUPS, Subtract([Sym("dirty"), Sym("type_cast")])) == [Reader, Writer, Predicate]
  {
  }

  lemma ThreeFormats(ts: seq<Template>)
    requires ts == Formats([Reader, Writer, Predicate])
    ensures ts == SINGLE_FORMATS[..3]
  {
    FormatsCons(Predicate, []);
    FormatsCons(Writer, [Predicate]);
    FormatsCons(Reader, [Writer, Predicate]);
    assert [Writer] + [Predicate] == [Writer, Predicate];
    assert [Reader] + [Writer, Predicate] == [Reader, Writer, Predicate];
  }

  /** The reader, writer and predicate names of one attribute. */
  lemma ThreeNames(attribute: Scalar)
    ensures var t := Text(attribute);
      Expand(attribute, SINGLE_FORMATS[..3]) == [t, t + "=", t + "?"]
  {
    var e := Expand(attribute, SINGLE_FORMATS[..3]);
    var t := Text(attribute);
    assert "" + t == t && t + "" == t;
    assert e[0] == "" + t + "";
    assert e[1] == "" + t + "=";
    assert e[2] == "" + t + "?";
  }

  lemma NameAgeNames(names: seq<string>, ts: seq<Template>)
    requires ts == Formats([Reader, Writer, Predicate])
    requires names == Names([Sym("name"), Sym("age")], ts)
    ensures names == ["name", "name=", "name?", "age", "age=", "age?"]
  {
    TwoAttributes(Sym("name"), Sym("age"), ts);
    ThreeFormats(ts);
    ThreeNames(Sym("name"));
    ThreeNames(Sym("age"));
    assert Text(Sym("name")) == "name" && Text(Sym("age")) == "age";
    assert "name" + "=" == "name=" && "name" + "?" == "name?";
    assert "age" + "=" == "age=" && "age" + "?" == "age?";
    assert Expand(Sym("name"), ts) == ["name", "name=", "name?"];
    assert Expand(Sym("age"), ts) == ["age", "age=", "age?"];
  }

  /** `attr_delegated :name, :age, to: :profile, skip: [:dirty, :type_cast]`
      keeps three methods per attribute, attribute by attribute. */
  lemma NameAgeSkipDirtyAndTypeCast(attributes: Attributes, raw: map<Value, Value>)
    requires attributes == Many([Sym("name"), Sym("age")])
    requires raw == map[TO := Sym("profile"), SKIP := List([Sym("dirty"), Sym("type_cast")])]
    ensures Resolve(attributes, raw).Ok?
    ensures DelegatedMethods(Resolve(attributes, raw).value) == ["name", "name=", "name?", "age", "age=", "age?"]
  {
    var attrs := [Sym("name"), Sym("age")];
    assert AttributeList(attributes) == attrs && HasAttributes(attrs) by { assert Truthy(attrs[0]); }
    assert TO in raw && raw[TO] == Sym("profile") && Present(raw[TO]);
    assert SKIP in raw && ToArray(raw[SKIP]) == [Sym("dirty"), Sym("type_cast")];
    assert ONLY !in raw;
    Accepted(attributes, raw);
    var o := Resolve(attributes, raw).value;
    SkipFilter(attributes, raw, o);
    SkipDirtyAndTypeCast();
    NameAgeNames(DelegatedMethods(o), DelegatedMethodFormats(o));
  }

  lemma PredicateOffFilter(m: map<Value, Value>)
    requires m == WithDefaults(map[TO := Sym("account"), GroupKey(Predicate) := Bool(false)])
    ensures Filter(GROUPS, Toggles(m)) == [Reader, Writer, TypeCast, Dirty]
  {
    var raw := map[TO := Sym("account"), GroupKey(Predicate) := Bool(false)];
    var sel := Toggles(m);
    assert GroupKey(Reader) !in raw && GroupKey(Writer) !in raw;
    assert GroupKey(TypeCast) !in raw && GroupKey(Dirty) !in raw;
    assert Filter([Dirty], sel) == [Dirty];
    assert Filter([TypeCast, Dirty], sel) == [TypeCast, Dirty];
    assert Filter([Predicate, TypeCast, Dirty], sel) == [TypeCast, Dirty];
    assert Filter([Writer, Predicate, TypeCast, Dirty], sel) == [Writer, TypeCast, Dirty];
  }

  /** `predicate: false` alone drops only the predicate. */
  lemma PredicateToggledOff(attributes: Attributes, raw: map<Value, Value>)
    requires attributes == Many([Sym("email")])
    requires raw == map[TO := Sym("account"), GroupKey(Predicate) := Bool(false)]
    ensures Resolve(attributes, raw).Ok?
    ensures Delegates(Resolve(attributes, raw).value) == [Reader, Writer, TypeCast, Dirty]
  {
    var attrs := [Sym("email")];
    assert AttributeList(attributes) == attrs && HasAttributes(attrs) by { assert Truthy(attrs[0]); }
    assert TO in raw && raw[TO] == Sym("account") && Present(raw[TO]);
    assert ONLY !in raw && SKIP !in raw;
    Accepted(attributes, raw);
    ToggleFilter(attributes, raw, Resolve(attributes, raw).value);
    PredicateOffFilter(WithDefaults(raw));
  }


  /** A blank target fails, whether nil, false, empty or white space. */
  lemma BlankTargetFails(target: Value)
    requires target in {Nil, Bool(false), Str(""), Str(" \t")}
    ensures Resolve(Many([Sym("email")]), map[TO := target]) == Err(MissingTo)
  {
    assert HasAttributes([Sym("email")]) by { assert Truthy([Sym("email")][0]); }
  }

  /** Giving both selectors fails, even when both lists are empty. */
  lemma EmptySelectorsConflict()
    ensures Resolve(Many([Sym("email")]), map[TO := Sym("account"), ONLY := List([]), SKIP := List([])])
            == Err(Conflict)
  {
    assert HasAttributes([Sym("email")]) by { assert Truthy([Sym("email")][0]); }
  }

  /** No attributes, a lone nil, or only falsy attributes fail first, before
      the target or the selectors are looked at. */
  lemma NoAttributesFailsFirst()
    ensures Resolve(Many([]), map[]) == Err(NoAttributes)
    ensures Resolve(One(Nil), map[]) == Err(NoAttributes)
    ensures Resolve(Many([Nil, Bool(false)]), map[ONLY := Nil, SKIP := Nil]) == Err(NoAttributes)
  {
  }

  lemma NilNames(names: seq<string>, ts: seq<Template>)
    requires ts == Formats(GROUPS) && names == Names([Nil, Sym("email")], ts)
    ensures |names| == 18 && names[..2] == ["", "="]
  {
    FormatsOfAllGroups(ts);
    TwoAttributes(Nil, Sym("email"), ts);
    var e := Expand(Nil, ts);
    assert e[0] == "" + "" + "" == "";
    assert e[1] == "" + "" + "=" == "=";
  }

  /** The attribute check only asks for one truthy attribute: a nil beside a
      real name is kept, and its reader and writer come out as "" and "=". */
  lemma NilBesideNameAccepted(attributes: Attributes, raw: map<Value, Value>)
    requires attributes == Many([Nil, Sym("email")]) && raw == map[TO := Sym("account")]
    ensures Resolve(attributes, raw).Ok?
    ensures |DelegatedMethods(Resolve(attributes, raw).value)| == 18
    ensures DelegatedMethods(Resolve(attributes, raw).value)[..2] == ["", "="]
  {
    var attrs := [Nil, Sym("email")];
    assert AttributeList(attributes) == attrs && HasAttributes(attrs) by { assert Truthy(attrs[1]); }
    assert TO in raw && raw[TO] == Sym("account") && Present(raw[TO]);
    assert ONLY !in raw && SKIP !in raw;
    assert raw.Keys !! TOGGLE_KEYS;
    Accepted(attributes, raw);
    var o := Resolve(attributes, raw).value;
    DefaultsSelectAll(attributes, raw, o);
    NilNames(DelegatedMethods(o), DelegatedMethodFormats(o));
  }
}
