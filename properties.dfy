/**
 What the option resolver promises, stated over a successful (or failed)
 construction: how groups are selected, in which order, how many names are
 generated and in which order, and what is passed through to `delegate`.
 */
module OptionsProperties {
  import opened RubyValues
  import opened AttrDelegated

  // ---------------------------------------------------------------------------
  // Group selection
  // ---------------------------------------------------------------------------

  /** A constructed resolver keeps the caller's attributes and the caller's
      options with the defaults merged in. */
  lemma Resolved(attributes: Attributes, raw: map<Value, Value>, o: Options)
    requires Resolve(attributes, raw) == Ok(o)
    ensures o.attributes == AttributeList(attributes) && HasAttributes(o.attributes)
    ensures o.rawOptions == WithDefaults(raw)
    ensures UniqueKey(o.rawOptions) == UniqueKey(raw)
    ensures UniqueKey(raw) != Nil ==> UniqueKeyOptions(o.rawOptions) == ToArray(raw[UniqueKey(raw)])
  {
    assert ONLY !in TOGGLE_KEYS && SKIP !in TOGGLE_KEYS;
  }

  /** Without `:only` and `:skip`, a group is selected exactly when the caller
      left its toggle out (the default is `true`) or gave it a present value. */
  lemma ToggleSelection(attributes: Attributes, raw: map<Value, Value>, o: Options)
    requires Resolve(attributes, raw) == Ok(o)
    requires ONLY !in raw && SKIP !in raw
    ensures forall g: Group :: g in Delegates(o) <==> (GroupKey(g) !in raw || Present(raw[GroupKey(g)]))
  {
    Resolved(attributes, raw, o);
    var m := o.rawOptions;
    assert Delegates(o) == Filter(GROUPS, Toggles(m));
    forall g: Group ensures g in Delegates(o) <==> (GroupKey(g) !in raw || Present(raw[GroupKey(g)])) {
      FilterMembers(GROUPS, Toggles(m), g);
      assert g in GROUPS by { assert GROUPS[Rank(g)] == g; }
    }
  }

  /** With no toggles, no `:only` and no `:skip`, all five groups are selected. */
  lemma DefaultsSelectAll(attributes: Attributes, raw: map<Value, Value>, o: Options)
    requires Resolve(attributes, raw) == Ok(o)
    requires ONLY !in raw && SKIP !in raw
    requires raw.Keys !! TOGGLE_KEYS
    ensures Delegates(o) == GROUPS
  {
    Resolved(attributes, raw, o);
    var m := o.rawOptions;
    assert Delegates(o) == Filter(GROUPS, Toggles(m));
    forall g: Group ensures Keeps(Toggles(m), g) {
      assert GroupKey(g) !in raw;
      assert m[GroupKey(g)] == Bool(true);
    }
    FilterKeepsAll(GROUPS, Toggles(m));
  }

  lemma {:induction false} FilterKeepsAll(gs: seq<Group>, sel: Selector)
    requires forall g: Group :: Keeps(sel, g)
    ensures Filter(gs, sel) == gs
  {
    if gs != [] {
      FilterKeepsAll(gs[1..], sel);
      assert gs == [gs[0]] + gs[1..];
    }
  }

  /** With `:only`, a group is selected exactly when its symbol is among the
      listed identifiers; toggles and unknown identifiers play no part. */
  lemma OnlySelection(attributes: Attributes, raw: map<Value, Value>, o: Options)
    requires Resolve(attributes, raw) == Ok(o)
    requires ONLY in raw
    ensures forall g: Group :: g in Delegates(o) <==> GroupKey(g) in ToArray(raw[ONLY])
  {
    Resolved(attributes, raw, o);
    var ids := ToArray(raw[ONLY]);
    assert Delegates(o) == Filter(GROUPS, Intersect(ids));
    forall g: Group ensures g in Delegates(o) <==> GroupKey(g) in ids {
      FilterMembers(GROUPS, Intersect(ids), g);
      assert g in GROUPS by { assert GROUPS[Rank(g)] == g; }
    }
  }

  /** With `:skip`, a group is selected exactly when its symbol is not among
      the listed identifiers; toggles and unknown identifiers play no part. */
  lemma SkipSelection(attributes: Attributes, raw: map<Value, Value>, o: Options)
    requires Resolve(attributes, raw) == Ok(o)
    requires SKIP in raw
    ensures forall g: Group :: g in Delegates(o) <==> GroupKey(g) !in ToArray(raw[SKIP])
  {
    Resolved(attributes, raw, o);
    var ids := ToArray(raw[SKIP]);
    if ONLY in raw {
      // both selectors: construction would have failed
      assert false;
    }
    assert Delegates(o) == Filter(GROUPS, Subtract(ids));
    forall g: Group ensures g in Delegates(o) <==> GroupKey(g) !in ids {
      FilterMembers(GROUPS, Subtract(ids), g);
      assert g in GROUPS by { assert GROUPS[Rank(g)] == g; }
    }
  }

  /** Once `:only` or `:skip` is given, the toggles change neither whether
      construction succeeds nor which groups are selected. */
  lemma TogglesIgnoredBySelectors(attributes: Attributes, raw: map<Value, Value>, raw': map<Value, Value>, o: Options)
    requires Resolve(attributes, raw) == Ok(o)
    requires ONLY in raw || SKIP in raw
    requires raw - TOGGLE_KEYS == raw' - TOGGLE_KEYS
    ensures Resolve(attributes, raw').Ok?
    ensures Delegates(Resolve(attributes, raw').value) == Delegates(o)
  {
    assert TO !in TOGGLE_KEYS && ONLY !in TOGGLE_KEYS && SKIP !in TOGGLE_KEYS;
    assert TO in raw <==> TO in raw - TOGGLE_KEYS;
    assert TO in raw' <==> TO in raw' - TOGGLE_KEYS;
    assert ONLY in raw <==> ONLY in raw - TOGGLE_KEYS;
    assert ONLY in raw' <==> ONLY in raw' - TOGGLE_KEYS;
    assert SKIP in raw <==> SKIP in raw - TOGGLE_KEYS;
    assert SKIP in raw' <==> SKIP in raw' - TOGGLE_KEYS;
    assert TO in raw ==> raw[TO] == (raw - TOGGLE_KEYS)[TO] == raw'[TO];
    assert ONLY in raw ==> raw[ONLY] == (raw - TOGGLE_KEYS)[ONLY] == raw'[ONLY];
    assert SKIP in raw ==> raw[SKIP] == (raw - TOGGLE_KEYS)[SKIP] == raw'[SKIP];
  }

  /** The selected groups always follow the canonical order
      reader, writer, predicate, type_cast, dirty, and none appears twice. */
  lemma CanonicalOrder(o: Options)
    ensures forall i, j :: 0 <= i < j < |Delegates(o)| ==> Rank(Delegates(o)[i]) < Rank(Delegates(o)[j])
    ensures forall i, j :: 0 <= i < j < |Delegates(o)| ==> Delegates(o)[i] != Delegates(o)[j]
  {
    var d := Delegates(o);
    assert Ascending(d) by {
      assert Ascending(GROUPS);
      var raw := o.rawOptions;
      var k := UniqueKey(raw);
      if k == ONLY {
        FilterAscending(GROUPS, Intersect(UniqueKeyOptions(raw)));
      } else if k == SKIP {
        FilterAscending(GROUPS, Subtract(UniqueKeyOptions(raw)));
      } else {
        FilterAscending(GROUPS, Toggles(raw));
      }
    }
    forall i, j | 0 <= i < j < |d| ensures d[i] != d[j] {
      assert Rank(d[i]) < Rank(d[j]);
    }
  }

  // ---------------------------------------------------------------------------
  // Name expansion
  // ---------------------------------------------------------------------------

  /** Every selected group adds one format, `dirty` five. */
  lemma FormatCount(o: Options)
    ensures |DelegatedMethodFormats(o)| == |Delegates(o)| + (if Dirty in Delegates(o) then 4 else 0)
  {
    CanonicalOrder(o);
    AscendingOccurrences(Delegates(o), Dirty);
    FormatsLength(Delegates(o));
  }

  /** Name number `i * |ts| + j` is format `j` applied to attribute `i`. */
  predicate NameAt(names: seq<string>, attributes: seq<Scalar>, ts: seq<Template>, i: int, j: int)
    requires 0 <= i < |attributes| && 0 <= j < |ts|
  {
    i * |ts| + j < |names| && names[i * |ts| + j] == Render(ts[j], attributes[i])
  }

  /** The names are the attribute-major cross product of the attributes and
      the formats: as many names as attributes times formats, and name
      `i * F + j` is format `j` applied to attribute `i` (F the number of
      formats), so there are no other names. */
  lemma NameExpansion(o: Options)
    ensures |DelegatedMethods(o)| == |o.attributes| * |DelegatedMethodFormats(o)|
    ensures forall i, j :: 0 <= i < |o.attributes| && 0 <= j < |DelegatedMethodFormats(o)| ==>
      NameAt(DelegatedMethods(o), o.attributes, DelegatedMethodFormats(o), i, j)
  {
    var ts := DelegatedMethodFormats(o);
    var names := DelegatedMethods(o);
    forall i, j | 0 <= i < |o.attributes| && 0 <= j < |ts|
      ensures NameAt(names, o.attributes, ts, i, j)
    {
      NamesAt(o.attributes, ts, i, j);
    }
  }

  // ---------------------------------------------------------------------------
  // Pass-through options
  // ---------------------------------------------------------------------------

  /** `options_for_delegate` holds exactly those of `:to`, `:allow_nil` and
      `:prefix` that the caller gave, with the caller's values, and never a
      toggle, `:only` or `:skip`. */
  lemma PassThrough(attributes: Attributes, raw: map<Value, Value>, o: Options)
    requires Resolve(attributes, raw) == Ok(o)
    ensures OptionsForDelegate(o).Keys == raw.Keys * DELEGATE_OPTION_KEYS
    ensures forall k :: k in OptionsForDelegate(o) ==> OptionsForDelegate(o)[k] == raw[k]
    ensures OptionsForDelegate(o).Keys !! TOGGLE_KEYS + UNIQUE_KEYS
  {
    assert DELEGATE_OPTION_KEYS !! TOGGLE_KEYS;
  }

  /** `to_a` is the names, attribute-major, followed by the caller's
      `:to`/`:allow_nil`/`:prefix` options exactly as given. */
  lemma ToAContents(attributes: Attributes, raw: map<Value, Value>, o: Options)
    requires Resolve(attributes, raw) == Ok(o)
    ensures var p := ToA(o);
      && |p.methods| == |AttributeList(attributes)| * |DelegatedMethodFormats(o)|
      && (forall i, j :: 0 <= i < |o.attributes| && 0 <= j < |DelegatedMethodFormats(o)| ==>
            NameAt(p.methods, o.attributes, DelegatedMethodFormats(o), i, j))
      && p.delegateOptions.Keys == raw.Keys * DELEGATE_OPTION_KEYS
      && (forall k :: k in p.delegateOptions ==> p.delegateOptions[k] == raw[k])
  {
    Resolved(attributes, raw, o);
    NameExpansion(o);
    PassThrough(attributes, raw, o);
  }
}
