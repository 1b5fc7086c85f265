/** Constraints and entries of a PPD file (filterConstraints and openUIStatementsToEntries in cups/translate-ppd.go). */
module PpdEntries {
  import opened Collections
  import opened Ppd

  function TrimPrefix(s: string, prefix: string): (r: string)
    ensures if prefix <= s then prefix + r == s else r == s
  {
    if HasPrefix(s, prefix) then s[|prefix|..] else s
  }

  // ---- Constraints ----

  type Pair = (string, string)

  /** *installed.0 installed.1 excludes *excluded.0 excluded.1. */
  datatype Constraint = Constraint(installed: Pair, excluded: Pair)

  predicate IsDefault(s: Statement) { HasPrefix(s.mainKeyword, DEFAULT) }

  function DefaultPair(s: Statement): Pair { (TrimPrefix(s.mainKeyword, DEFAULT), s.value) }

  function KeyPair(s: Statement): Pair { (s.mainKeyword, s.optionKeyword) }

  /** The installed options, by their defaults. */
  function Defaults(statements: seq<Statement>): set<Pair> {
    set s | s in statements && IsDefault(s) :: DefaultPair(s)
  }

  predicate Applies(u: Statement, installed: set<Pair>, parse: string -> Option<Constraint>) {
    parse(u.value).Some? && parse(u.value).value.installed in installed
  }

  /** What the constraints exclude, given the installed options. */
  function Excluded(uiConstraints: seq<Statement>, installed: set<Pair>, parse: string -> Option<Constraint>): set<Pair> {
    set u | u in uiConstraints && Applies(u, installed, parse) :: parse(u.value).value.excluded
  }

  function Allowed(excluded: set<Pair>): Statement -> bool { (s: Statement) => KeyPair(s) !in excluded }

  /** The statements whose keys are not excluded, in order. */
  function Kept(g: seq<Statement>, excluded: set<Pair>): seq<Statement> { Filter(Allowed(excluded), g) }

  lemma DefaultsAppend(statements: seq<Statement>, s: Statement)
    ensures Defaults(statements + [s]) == Defaults(statements) + if IsDefault(s) then {DefaultPair(s)} else {}
  {
    hide IsDefault, DefaultPair;
    forall x ensures x in Defaults(statements + [s]) <==> x in Defaults(statements) || (IsDefault(s) && x == DefaultPair(s)) {
      if IsDefault(s) && x == DefaultPair(s) { assert s in statements + [s]; }
      if t :| t in statements && IsDefault(t) && x == DefaultPair(t) { assert t in statements + [s]; }
      assert x in Defaults(statements + [s]) ==>
        exists t :: t in statements + [s] && IsDefault(t) && x == DefaultPair(t) && (t in statements || t == s);
    }
  }

  lemma ExcludedAppend(us: seq<Statement>, u: Statement, installed: set<Pair>, parse: string -> Option<Constraint>)
    ensures Excluded(us + [u], installed, parse)
            == Excluded(us, installed, parse) + if Applies(u, installed, parse) then {parse(u.value).value.excluded} else {}
  {
    forall x ensures x in Excluded(us + [u], installed, parse)
               <==> x in Excluded(us, installed, parse) || (Applies(u, installed, parse) && x == parse(u.value).value.excluded)
    {
      if Applies(u, installed, parse) { assert u in us + [u]; }
      if t :| t in us && Applies(t, installed, parse) && x == parse(t.value).value.excluded { assert t in us + [u]; }
      assert x in Excluded(us + [u], installed, parse) ==>
        exists t :: t in us + [u] && Applies(t, installed, parse) && x == parse(t.value).value.excluded && (t in us || t == u);
    }
  }

  method InstalledDefaults(installables: seq<seq<Statement>>) returns (installed: set<Pair>)
    ensures installed == Defaults(Flatten(installables))
  {
    installed := {};
    for i := 0 to |installables|
      invariant installed == Defaults(Flatten(installables[..i]))
    {
      ghost var done := Flatten(installables[..i]);
      var g := installables[i];
      assert done + g[..0] == done;
      for j := 0 to |g|
        invariant installed == Defaults(done + g[..j])
      {
        hide Defaults, IsDefault, DefaultPair, Flatten;
        DefaultsAppend(done + g[..j], g[j]);
        assert done + g[..j + 1] == done + g[..j] + [g[j]];
        if IsDefault(g[j]) {
          installed := installed + {DefaultPair(g[j])};
        }
      }
      assert g[..|g|] == g && installables[..i + 1][..i] == installables[..i];
    }
    assert installables[..|installables|] == installables;
  }

  /** A default among the installables says that this option is installed. */
  ghost predicate IsInstalled(installables: seq<seq<Statement>>, option: Pair) {
    exists s :: s in Flatten(installables) && SaysInstalled(s, option)
  }

  predicate SaysInstalled(s: Statement, option: Pair) {
    "Default" <= s.mainKeyword && s.mainKeyword[7..] == option.0 && s.value == option.1
  }

  /** A constraint with an installed first half excludes this option. */
  ghost predicate IsRuledOut(
    main: string, option: string, installables: seq<seq<Statement>>, uiConstraints: seq<Statement>,
    parse: string -> Option<Constraint>)
  {
    exists u :: u in uiConstraints && RulesOut(u, main, option, installables, parse)
  }

  ghost predicate RulesOut(
    u: Statement, main: string, option: string, installables: seq<seq<Statement>>, parse: string -> Option<Constraint>)
  {
    parse(u.value).Some? && IsInstalled(installables, parse(u.value).value.installed)
    && parse(u.value).value.excluded == (main, option)
  }

  lemma DefaultsAre(statements: seq<Statement>, x: Pair)
    ensures x in Defaults(statements) <==> exists s :: s in statements && SaysInstalled(s, x)
  {
    forall s ensures IsDefault(s) && DefaultPair(s) == x <==> SaysInstalled(s, x) {
      assert DEFAULT == "Default" && |DEFAULT| == 7;
    }
    hide IsDefault, DefaultPair, SaysInstalled;
  }

  lemma ExcludedAre(
    installables: seq<seq<Statement>>, uiConstraints: seq<Statement>, parse: string -> Option<Constraint>, main: string,
    option: string)
    ensures (main, option) in Excluded(uiConstraints, Defaults(Flatten(installables)), parse)
            <==> IsRuledOut(main, option, installables, uiConstraints, parse)
  {
    var installed := Defaults(Flatten(installables));
    forall x ensures x in installed <==> IsInstalled(installables, x) { DefaultsAre(Flatten(installables), x); }
    hide Defaults, IsInstalled, Flatten;
    forall u ensures Applies(u, installed, parse) && parse(u.value).value.excluded == (main, option)
                     <==> RulesOut(u, main, option, installables, parse) {}
    if (main, option) in Excluded(uiConstraints, installed, parse) {
      var u :| u in uiConstraints && Applies(u, installed, parse) && (main, option) == parse(u.value).value.excluded;
      assert RulesOut(u, main, option, installables, parse);
    }
    if u :| u in uiConstraints && RulesOut(u, main, option, installables, parse) {
      assert Applies(u, installed, parse);
    }
  }

  /** The groups keep the statements that are not ruled out, and no others. */
  ghost predicate RuledOutAreGone(
    openUIs: seq<seq<Statement>>, filtered: seq<seq<Statement>>, installables: seq<seq<Statement>>,
    uiConstraints: seq<Statement>, parse: string -> Option<Constraint>)
    requires |filtered| == |openUIs|
  {
    forall i, s :: 0 <= i < |openUIs| ==>
      (s in filtered[i] <==>
       s in openUIs[i] && !IsRuledOut(s.mainKeyword, s.optionKeyword, installables, uiConstraints, parse))
  }

  method FilterConstraints(
    openUIs: seq<seq<Statement>>, installables: seq<seq<Statement>>, uiConstraints: seq<Statement>,
    parse: string -> Option<Constraint>)
    returns (newOpenUIs: seq<seq<Statement>>, excluded: set<Pair>)
    ensures excluded == Excluded(uiConstraints, Defaults(Flatten(installables)), parse)
    ensures |newOpenUIs| == |openUIs|
    ensures forall i :: 0 <= i < |openUIs| ==> newOpenUIs[i] == Kept(openUIs[i], excluded)
    ensures RuledOutAreGone(openUIs, newOpenUIs, installables, uiConstraints, parse)
  {
    var installed := InstalledDefaults(installables);
    excluded := {};
    for i := 0 to |uiConstraints|
      invariant excluded == Excluded(uiConstraints[..i], installed, parse)
    {
      hide Excluded;
      ExcludedAppend(uiConstraints[..i], uiConstraints[i], installed, parse);
      assert uiConstraints[..i + 1] == uiConstraints[..i] + [uiConstraints[i]];
      var constraint := parse(uiConstraints[i].value);
      if constraint.Some? && constraint.value.installed in installed {
        excluded := excluded + {constraint.value.excluded};
      }
    }
    assert uiConstraints[..|uiConstraints|] == uiConstraints;
    newOpenUIs := [];
    for i := 0 to |openUIs|
      invariant |newOpenUIs| == i
      invariant forall k :: 0 <= k < i ==> newOpenUIs[k] == Kept(openUIs[k], excluded)
    {
      var g, newOpenUI := openUIs[i], [];
      for j := 0 to |g|
        invariant newOpenUI == Kept(g[..j], excluded)
      {
        FilterStep(Allowed(excluded), g, j);
        if KeyPair(g[j]) !in excluded { newOpenUI := newOpenUI + [g[j]]; }
      }
      assert g[..|g|] == g;
      newOpenUIs := newOpenUIs + [newOpenUI];
    }
    hide *;
    FilteredAre(openUIs, newOpenUIs, installables, uiConstraints, parse);
  }

  lemma FilteredAre(
    openUIs: seq<seq<Statement>>, filtered: seq<seq<Statement>>, installables: seq<seq<Statement>>,
    uiConstraints: seq<Statement>, parse: string -> Option<Constraint>)
    requires |filtered| == |openUIs|
    requires var excluded := Excluded(uiConstraints, Defaults(Flatten(installables)), parse);
             forall i :: 0 <= i < |openUIs| ==> filtered[i] == Kept(openUIs[i], excluded)
    ensures RuledOutAreGone(openUIs, filtered, installables, uiConstraints, parse)
  {
    var excluded := Excluded(uiConstraints, Defaults(Flatten(installables)), parse);
    hide Excluded, IsRuledOut, Kept, Defaults, Flatten;
    forall i, s | 0 <= i < |openUIs|
      ensures s in filtered[i] <==>
              s in openUIs[i] && !IsRuledOut(s.mainKeyword, s.optionKeyword, installables, uiConstraints, parse)
    {
      KeptMembers(openUIs[i], excluded, s);
      ExcludedAre(installables, uiConstraints, parse, s.mainKeyword, s.optionKeyword);
    }
  }

  /** Filtering removes the excluded statements and no others. */
  lemma KeptMembers(g: seq<Statement>, excluded: set<Pair>, s: Statement)
    ensures s in Kept(g, excluded) <==> s in g && KeyPair(s) !in excluded
  {
    FilterMembers(Allowed(excluded), g, s);
  }

  /** No constraint names OpenUI or JCLOpenUI. */
  ghost predicate SparesHeaders(excluded: set<Pair>) {
    forall k :: k in excluded ==> KeywordOf(k.0) != OpenUI
  }

  /** Then a group keeps its header. */
  lemma {:induction false} HeaderIsKept(g: seq<Statement>, excluded: set<Pair>)
    requires g != [] && IsOpenUI(g[0]) && SparesHeaders(excluded)
    ensures Kept(g, excluded) != [] && Kept(g, excluded)[0] == g[0]
  {
    hide KeywordOf;
    if |g| > 1 {
      HeaderIsKept(g[..|g| - 1], excluded);
    } else {
      assert Kept(g[..0], excluded) == [] && KeyPair(g[0]).0 == g[0].mainKeyword;
    }
  }

  // ---- Entries ----

  datatype EntryType = PickOne | Boolean

  datatype Entry = Entry(
    mainKeyword: string, translation: string, entryType: EntryType, defaultValue: string, options: seq<Statement>)

  predicate IsOption(s: Statement, mainKeyword: string) { !IsDefault(s) && HasPrefix(s.mainKeyword, mainKeyword) }

  function IsOptionOf(mainKeyword: string): Statement -> bool { (s: Statement) => IsOption(s, mainKeyword) }

  function OptionsOf(g: seq<Statement>, mainKeyword: string): seq<Statement> { Filter(IsOptionOf(mainKeyword), g) }

  /** The value of the last default statement. */
  function DefaultOf(g: seq<Statement>): string {
    if g == [] then ""
    else if IsDefault(g[|g| - 1]) then g[|g| - 1].value
    else DefaultOf(g[..|g| - 1])
  }

  predicate HasKeyword(options: seq<Statement>, keyword: string) {
    exists i :: 0 <= i < |options| && options[i].optionKeyword == keyword
  }

  function EntryOf(g: seq<Statement>): Option<Entry>
    requires g != []
  {
    var main := TrimPrefix(g[0].optionKeyword, "*");
    var translation := if g[0].translation == "" then main else g[0].translation;
    var options := OptionsOf(g, main);
    if (g[0].value != "PickOne" && g[0].value != "Boolean") || options == [] then None
    else
      var default := if HasKeyword(options, DefaultOf(g)) then DefaultOf(g) else options[0].value;
      Some(Entry(main, translation, if g[0].value == "PickOne" then PickOne else Boolean, default, options))
  }

  method ReadOptions(g: seq<Statement>, mainKeyword: string) returns (options: seq<Statement>, default: string, keywords: set<string>)
    ensures options == OptionsOf(g, mainKeyword) && default == DefaultOf(g)
    ensures forall k :: k in keywords <==> HasKeyword(options, k)
  {
    options, default, keywords := [], "", {};
    for j := 0 to |g|
      invariant options == OptionsOf(g[..j], mainKeyword) && default == DefaultOf(g[..j])
      invariant forall k :: k in keywords <==> HasKeyword(options, k)
    {
      var s := g[j];
      FilterStep(IsOptionOf(mainKeyword), g, j);
      assert g[..j + 1][..j] == g[..j];
      ghost var before := options;
      if IsDefault(s) {
        default := s.value;
      } else if HasPrefix(s.mainKeyword, mainKeyword) {
        options := options + [s];
        keywords := keywords + {s.optionKeyword};
        assert options[|before|] == s;
        assert forall i :: 0 <= i < |before| ==> options[i] == before[i];
      }
    }
    assert g[..|g|] == g;
  }

  /** An option of a UI: its main keyword starts with that of the UI, and it is no default. */
  predicate Offers(s: Statement, main: string) {
    main <= s.mainKeyword && !("Default" <= s.mainKeyword)
  }

  function Offering(main: string): Statement -> bool { (s: Statement) => Offers(s, main) }

  lemma {:induction false} OptionsAreOffers(g: seq<Statement>, main: string)
    ensures OptionsOf(g, main) == Filter(Offering(main), g)
  {
    if g != [] {
      OptionsAreOffers(g[..|g| - 1], main);
      assert DEFAULT == "Default";
    }
  }

  predicate IsLastDefault(g: seq<Statement>, i: int) {
    && 0 <= i < |g| && "Default" <= g[i].mainKeyword
    && forall j :: i < j < |g| ==> !("Default" <= g[j].mainKeyword)
  }

  /** The value of the last default in the group; empty without one. */
  lemma {:induction false} DefaultIsLast(g: seq<Statement>)
    ensures (forall i :: 0 <= i < |g| ==> !("Default" <= g[i].mainKeyword)) ==> DefaultOf(g) == ""
    ensures forall i :: IsLastDefault(g, i) ==> DefaultOf(g) == g[i].value
  {
    if g != [] {
      DefaultIsLast(g[..|g| - 1]);
      assert DEFAULT == "Default";
    }
  }

  /** The entry of a group in terms of its statements. */
  lemma EntryMeans(g: seq<Statement>)
    requires g != []
    ensures var main := if "*" <= g[0].optionKeyword then g[0].optionKeyword[1..] else g[0].optionKeyword;
            var e := EntryOf(g);
            && (e.Some? <==> (g[0].value == "PickOne" || g[0].value == "Boolean") && exists s :: s in g && Offers(s, main))
            && (e.Some? ==>
                  && e.value.mainKeyword == main && e.value.options == Filter(Offering(main), g)
                  && (e.value.entryType == PickOne <==> g[0].value == "PickOne")
                  && (e.value.entryType == Boolean <==> g[0].value == "Boolean")
                  && e.value.translation == (if g[0].translation == "" then main else g[0].translation)
                  && (HasKeyword(e.value.options, DefaultOf(g)) ==> e.value.defaultValue == DefaultOf(g))
                  && (!HasKeyword(e.value.options, DefaultOf(g)) ==> e.value.defaultValue == e.value.options[0].value))
  {
    var main := if "*" <= g[0].optionKeyword then g[0].optionKeyword[1..] else g[0].optionKeyword;
    assert TrimPrefix(g[0].optionKeyword, "*") == main;
    assert "PickOne" != "Boolean" by { assert "PickOne"[0] == 'P' && "Boolean"[0] == 'B'; }
    OptionsAreOffers(g, main);
    var options := OptionsOf(g, main);
    assert options != [] <==> exists s :: s in g && Offers(s, main) by {
      if options != [] { FilterAt(Offering(main), g, 0); }
      if s :| s in g && Offers(s, main) { FilterMembers(Offering(main), g, s); }
    }
    hide OptionsOf, DefaultOf, Filter, Offers, HasKeyword;
  }

  method ReadEntry(g: seq<Statement>) returns (e: Option<Entry>)
    requires g != []
    ensures e == EntryOf(g)
  {
    var main := TrimPrefix(g[0].optionKeyword, "*");
    var translation := g[0].translation;
    if |translation| < 1 { translation := main; }
    var entryType;
    if g[0].value == "PickOne" {
      entryType := PickOne;
    } else if g[0].value == "Boolean" {
      entryType := Boolean;
    } else {
      return None;
    }
    var options, default, keywords := ReadOptions(g, main);
    if |options| < 1 { return None; }
    if default !in keywords { default := options[0].value; }
    return Some(Entry(main, translation, entryType, default, options));
  }

  type Entries = map<string, Entry>

  ghost predicate NoneEmpty(groups: seq<seq<Statement>>) {
    forall i :: 0 <= i < |groups| ==> groups[i] != []
  }

  function MainKeywordOf(e: Entry): string { e.mainKeyword }

  function TranslationOf(e: Entry): string { e.translation }

  /** An entry is found under its key, and is the last with this key. */
  ghost predicate LastEntries(m: Entries, groups: seq<seq<Statement>>, key: Entry -> string)
    requires NoneEmpty(groups)
  {
    && (forall k :: k in m ==> exists i :: IsLast(m[k], k, groups, key, i))
    && (forall i :: 0 <= i < |groups| && EntryOf(groups[i]).Some? ==> key(EntryOf(groups[i]).value) in m)
  }

  ghost predicate IsLast(e: Entry, k: string, groups: seq<seq<Statement>>, key: Entry -> string, i: int)
    requires NoneEmpty(groups)
  {
    && 0 <= i < |groups| && EntryOf(groups[i]) == Some(e) && key(e) == k
    && forall j :: i < j < |groups| && EntryOf(groups[j]).Some? ==> key(EntryOf(groups[j]).value) != k
  }

  lemma LastEntriesNext(m: Entries, groups: seq<seq<Statement>>, g: seq<Statement>, key: Entry -> string)
    requires g != [] && NoneEmpty(groups) && LastEntries(m, groups, key)
    ensures NoneEmpty(groups + [g])
    ensures var e := EntryOf(g);
            LastEntries(if e.None? then m else m[key(e.value) := e.value], groups + [g], key)
  {
    hide EntryOf;
    var e := EntryOf(g);
    var n := if e.None? then m else m[key(e.value) := e.value];
    forall k | k in n ensures exists i :: IsLast(n[k], k, groups + [g], key, i) {
      if e.Some? && k == key(e.value) {
        assert IsLast(n[k], k, groups + [g], key, |groups|);
      } else {
        var i :| IsLast(m[k], k, groups, key, i);
        assert IsLast(n[k], k, groups + [g], key, i);
      }
    }
    assert forall i :: 0 <= i < |groups| ==> (groups + [g])[i] == groups[i];
  }

  /** The two indexes, or None when a group has lost all its statements, so that its header is out of range. */
  method OpenUIStatementsToEntries(groups: seq<seq<Statement>>) returns (r: Option<(Entries, Entries)>)
    ensures r.Some? <==> NoneEmpty(groups)
    ensures r.Some? ==> LastEntries(r.value.0, groups, MainKeywordOf) && LastEntries(r.value.1, groups, TranslationOf)
  {
    var byMainKeyword: Entries, byTranslation: Entries := map[], map[];
    for i := 0 to |groups|
      invariant NoneEmpty(groups[..i])
      invariant LastEntries(byMainKeyword, groups[..i], MainKeywordOf) && LastEntries(byTranslation, groups[..i], TranslationOf)
    {
      hide LastEntries, EntryOf;
      if groups[i] == [] { return None; }
      LastEntriesNext(byMainKeyword, groups[..i], groups[i], MainKeywordOf);
      LastEntriesNext(byTranslation, groups[..i], groups[i], TranslationOf);
      assert groups[..i + 1] == groups[..i] + [groups[i]];
      var e := ReadEntry(groups[i]);
      if e.Some? {
        byMainKeyword := byMainKeyword[e.value.mainKeyword := e.value];
        byTranslation := byTranslation[e.value.translation := e.value];
      }
    }
    assert groups[..|groups|] == groups;
    return Some((byMainKeyword, byTranslation));
  }

  /** An entry has an option; its default is the keyword of an option, or else the first option's value. */
  predicate Sound(e: Entry) {
    e.options != [] && (HasKeyword(e.options, e.defaultValue) || e.defaultValue == e.options[0].value)
  }

  lemma EntriesAreSound(g: seq<Statement>)
    requires g != [] && EntryOf(g).Some?
    ensures Sound(EntryOf(g).value)
    ensures forall s :: s in EntryOf(g).value.options ==> s in g
  {
    var e := EntryOf(g).value;
    forall s | s in e.options ensures s in g { FilterMembers(IsOptionOf(e.mainKeyword), g, s); }
    hide OptionsOf, DefaultOf;
  }

  /**
   * From statements to entries: when no applicable constraint names a header keyword, every group keeps
   * its header through the filter, so building the entries cannot fail.
   */
  lemma GroupsSurvive(openUIs: seq<seq<Statement>>, filtered: seq<seq<Statement>>, excluded: set<Pair>)
    requires Groups(openUIs) && |filtered| == |openUIs| && SparesHeaders(excluded)
    requires forall i :: 0 <= i < |openUIs| ==> filtered[i] == Kept(openUIs[i], excluded)
    ensures NoneEmpty(filtered)
    ensures forall i :: 0 <= i < |filtered| ==> openUIs[i] != [] && filtered[i][0] == openUIs[i][0]
  {
    forall i | 0 <= i < |filtered| ensures filtered[i] != [] && openUIs[i] != [] && filtered[i][0] == openUIs[i][0] {
      assert openUIs[i] in openUIs;
      HeaderIsKept(openUIs[i], excluded);
    }
  }

  /** In general a group fails to give an entry header exactly when all its statements are excluded. */
  lemma GroupIsEmptied(g: seq<Statement>, excluded: set<Pair>)
    ensures Kept(g, excluded) == [] <==> forall s :: s in g ==> KeyPair(s) in excluded
  {
    hide KeyPair;
    if s :| s in g && KeyPair(s) !in excluded { KeptMembers(g, excluded, s); }
    if Kept(g, excluded) != [] {
      var s := Kept(g, excluded)[0];
      assert s in Kept(g, excluded);
      KeptMembers(g, excluded, s);
    }
  }
}
