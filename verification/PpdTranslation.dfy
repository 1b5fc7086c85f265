/** The whole translation of a PPD file (translatePPD in cups/translate-ppd.go). */
module PpdTranslation {
  import opened Cdd
  import opened Collections
  import opened Ppd
  import opened PpdEntries
  import opened Capabilities
  import opened PpdStandAlones
  import opened Ticket

  /** The patterns and tables that the translation consults. */
  datatype Rules = Rules(
    constraint: string -> Option<Constraint>, color: ColorRules, resolution: ResolutionParser, sizes: MediaSizes,
    texts: Texts)

  datatype Description = Description(
    mediaSize: Option<seq<MediaSizeOption>>, color: Option<seq<ColorOption>>, duplex: Option<(seq<DuplexOption>,
        DuplexVendorMap)>,
    dpi: Option<seq<DPIOption>>, vendor: Option<seq<VendorCapability>>)

  const OUTPUT_BIN := "OutputBin"
  const PRINT_QUALITY := "Print Quality"

  function Get(entries: Entries, k: string): Option<Entry> {
    if k in entries then Some(entries[k]) else None
  }

  function OrElse(a: Option<Entry>, b: Option<Entry>): Option<Entry> { if a.Some? then a else b }

  function ColorEntry(byMain: Entries): Option<Entry> {
    OrElse(Get(byMain, "ColorModel"), OrElse(Get(byMain, "CMAndResolution"), Get(byMain, "SelectColor")))
  }

  function DuplexEntry(byMain: Entries): Option<Entry> {
    OrElse(Get(byMain, "Duplex"), OrElse(Get(byMain, "BRDuplex"), Get(byMain, "KMDuplex")))
  }

  predicate HasPassword(byMain: Entries) {
    JOB_TYPE in byMain && LOCKED_PRINT_PASSWORD in byMain && HasKeyword(byMain[JOB_TYPE].options, LOCKED_PRINT)
  }

  function Main(e: Option<Entry>): set<string> { if e.Some? then {e.value.mainKeyword} else {} }

  /** The entries that have a section of their own. */
  function Considered(byMain: Entries, byTranslation: Entries): set<string> {
    Main(Get(byMain, PAGE_SIZE)) + Main(ColorEntry(byMain)) + Main(DuplexEntry(byMain)) + Main(Get(byMain, RESOLUTION))
    + Main(Get(byMain, OUTPUT_BIN))
    + (if HasPassword(byMain) then {byMain[JOB_TYPE].mainKeyword, byMain[LOCKED_PRINT_PASSWORD].mainKeyword} else {})
    + Main(Get(byTranslation, PRINT_QUALITY))
  }

  predicate Wanted(vendorOptions: seq<string>, k: string) { "all" in vendorOptions || k in vendorOptions }

  /** Entries as openUIStatementsToEntries builds them. */
  ghost predicate SoundEntries(m: Entries, key: Entry -> string) {
    forall k :: k in m ==> Sound(m[k]) && key(m[k]) == k
  }

  // ---- The sections ----

  ghost predicate IsMediaSection(m: Option<seq<MediaSizeOption>>, e: Option<Entry>, rules: Rules) {
    (m.Some? <==> e.Some? && Filter(HasSize(rules.sizes), e.value.options) != [])
    && (m.Some? ==> IsMediaSize(m.value, e.value, rules.sizes))
  }

  ghost predicate IsColorSection(c: Option<seq<ColorOption>>, e: Option<Entry>, rules: Rules) {
    (c.Some? <==> e.Some? && e.value.options != []) && (c.Some? ==> IsColor(c.value, e.value, rules.color))
  }

  ghost predicate IsDuplexSection(d: Option<(seq<DuplexOption>, DuplexVendorMap)>, e: Option<Entry>) {
    (d.Some? <==> e.Some? && Filter(IsDuplexKeyword(), e.value.options) != [])
    && (d.Some? ==> IsDuplex(d.value.0, d.value.1, e.value))
  }

  ghost predicate IsDPISection(d: Option<seq<DPIOption>>, e: Option<Entry>, rules: Rules) {
    (d.Some? <==> e.Some? && Filter(IsResolution(rules.resolution), e.value.options) != [])
    && (d.Some? ==> IsDPI(d.value, e.value, rules.resolution))
  }

  method TranslateSections(byMain: Entries, rules: Rules) returns (d: Description)
    requires Keyed(rules.sizes)
    ensures IsMediaSection(d.mediaSize, Get(byMain, PAGE_SIZE), rules)
    ensures IsColorSection(d.color, ColorEntry(byMain), rules)
    ensures IsDuplexSection(d.duplex, DuplexEntry(byMain))
    ensures IsDPISection(d.dpi, Get(byMain, RESOLUTION), rules)
    ensures d.vendor == None
  {
    hide IsMediaSize, IsColor, IsDuplex, IsDPI, Filter, HasSize, IsResolution, IsDuplexKeyword, ColorEntry, DuplexEntry;
    var mediaSize, color, duplex, dpi := None, None, None, None;
    var m, c, x, r := Get(byMain, PAGE_SIZE), ColorEntry(byMain), DuplexEntry(byMain), Get(byMain, RESOLUTION);
    hide Get;
    if m.Some? { mediaSize := ConvertMediaSize(m.value, rules.sizes); }
    if c.Some? { color := ConvertColor(c.value, rules.color); }
    if x.Some? { duplex := ConvertDuplex(x.value); }
    if r.Some? { dpi := ConvertDPI(r.value, rules.resolution); }
    d := Description(mediaSize, color, duplex, dpi, None);
  }

  // ---- Vendor capabilities ----

  /** What a vendor capability was made from. */
  datatype Source = FromEntry(entry: Entry) | Ricoh

  ghost predicate Realises(vc: VendorCapability, s: Source) {
    if s.Ricoh? then vc == Password(RICOH_PASSWORD)
    else
      && vc.id == s.entry.mainKeyword && !vc.Password?
      && (s.entry.entryType == PickOne ==> vc.Select? && IsSelect(vc.options, s.entry))
      && (s.entry.entryType == Boolean ==> vc == Flag(s.entry.mainKeyword, s.entry.translation, s.entry.defaultValue))
  }

  ghost predicate AllRealise(vcs: seq<VendorCapability>, sources: seq<Source>) {
    |vcs| == |sources| && forall i :: 0 <= i < |vcs| ==> Realises(vcs[i], sources[i])
  }

  function Sources(e: Option<Entry>): seq<Source> { if e.Some? then [FromEntry(e.value)] else [] }

  /** The capabilities that come first: output bins, the Ricoh password, the print quality. */
  function FixedSources(byMain: Entries, byTranslation: Entries): seq<Source> {
    Sources(Get(byMain, OUTPUT_BIN)) + (if HasPassword(byMain) then [Ricoh] else []) + Sources(Get(byTranslation,
        PRINT_QUALITY))
  }

  /** The other wanted entries, in the order in which the map happens to be traversed. */
  ghost predicate IsTraversal(order: seq<string>, byMain: Entries, considered: set<string>, vendorOptions: seq<string>) {
    && Distinct(order)
    && forall k :: k in order <==> k in byMain && k !in considered && Wanted(vendorOptions, k)
  }

  function Others(order: seq<string>, byMain: Entries): (s: seq<Source>)
    requires forall k :: k in order ==> k in byMain
    ensures |s| == |order| && forall i :: 0 <= i < |s| ==> s[i] == FromEntry(byMain[order[i]])
  {
    if order == [] then [] else Others(order[..|order| - 1], byMain) + [FromEntry(byMain[order[|order| - 1]])]
  }

  /** The vendor capabilities: the fixed ones, and then every other wanted entry exactly once. */
  ghost predicate IsVendorSection(
    vcs: seq<VendorCapability>, byMain: Entries, byTranslation: Entries, vendorOptions: seq<string>)
  {
    exists order :: IsVendorList(vcs, byMain, byTranslation, vendorOptions, order)
  }

  ghost predicate IsVendorList(
    vcs: seq<VendorCapability>, byMain: Entries, byTranslation: Entries, vendorOptions: seq<string>, order: seq<string>)
  {
    && IsTraversal(order, byMain, Considered(byMain, byTranslation), vendorOptions)
    && AllRealise(vcs, FixedSources(byMain, byTranslation) + Others(order, byMain))
  }

  method Add(vcs: seq<VendorCapability>, ghost sources: seq<Source>, e: Option<Entry>) returns (n: seq<VendorCapability>)
    requires AllRealise(vcs, sources) && (e.Some? ==> e.value.options != [])
    ensures AllRealise(n, sources + Sources(e))
  {
    hide IsSelect;
    n := vcs;
    if e.Some? {
      var vc := ConvertVendorCapability(e.value);
      n := n + [vc];
    }
  }

  method TranslateVendor(byMain: Entries, byTranslation: Entries, vendorOptions: seq<string>)
    returns (vcs: seq<VendorCapability>)
    requires SoundEntries(byMain, MainKeywordOf) && SoundEntries(byTranslation, TranslationOf)
    ensures IsVendorSection(vcs, byMain, byTranslation, vendorOptions)
  {
    assert forall k :: k in byMain ==> byMain[k].options != [] && byMain[k].mainKeyword == k;
    assert forall k :: k in byTranslation ==> byTranslation[k].options != [];
    hide SoundEntries, Sound, HasKeyword, Realises, Considered, ColorEntry, DuplexEntry;
    vcs := Add([], [], Get(byMain, OUTPUT_BIN));
    if JOB_TYPE in byMain && LOCKED_PRINT_PASSWORD in byMain {
      var vc := ConvertRicohLockedPrintPassword(byMain[JOB_TYPE]);
      if vc.Some? { vcs := AddRicoh(vcs, Sources(Get(byMain, OUTPUT_BIN)), vc.value); }
    }
    ghost var sources := Sources(Get(byMain, OUTPUT_BIN)) + if HasPassword(byMain) then [Ricoh] else [];
    assert sources == Sources(Get(byMain, OUTPUT_BIN)) || HasPassword(byMain);
    vcs := Add(vcs, sources, Get(byTranslation, PRINT_QUALITY));
    ghost var order;
    vcs, order := TranslateOthers(vcs, FixedSources(byMain, byTranslation), byMain, Considered(byMain,
        byTranslation), vendorOptions);
    assert IsVendorList(vcs, byMain, byTranslation, vendorOptions, order);
  }

  method AddRicoh(vcs: seq<VendorCapability>, ghost sources: seq<Source>, vc: VendorCapability)
      returns (n: seq<VendorCapability>)
    requires AllRealise(vcs, sources) && vc == Password(RICOH_PASSWORD)
    ensures AllRealise(n, sources + [Ricoh])
  {
    n := vcs + [vc];
  }

  method TranslateOthers(
    vcs: seq<VendorCapability>, ghost sources: seq<Source>, byMain: Entries, considered: set<string>,
        vendorOptions: seq<string>)
    returns (n: seq<VendorCapability>, ghost order: seq<string>)
    requires AllRealise(vcs, sources)
    requires forall k :: k in byMain ==> byMain[k].options != [] && byMain[k].mainKeyword == k
    ensures IsTraversal(order, byMain, considered, vendorOptions)
    ensures AllRealise(n, sources + Others(order, byMain))
  {
    n, order := vcs, [];
    assert sources + Others([], byMain) == sources;
    var todo := byMain.Keys;
    while todo != {}
      invariant todo <= byMain.Keys && Distinct(order)
      invariant forall k :: k in order <==> k in byMain && k !in todo && k !in considered && Wanted(vendorOptions, k)
      invariant AllRealise(n, sources + Others(order, byMain))
      decreases todo
    {
      hide AllRealise;
      var k :| k in todo;
      todo := todo - {k};
      var e := byMain[k];
      if e.mainKeyword in considered { continue; }
      if "all" !in vendorOptions {
        if e.mainKeyword !in vendorOptions { continue; }
      }
      n := Add(n, sources + Others(order, byMain), Some(e));
      OthersNext(order, k, byMain);
      assert sources + Others(order, byMain) + [FromEntry(e)] == sources + Others(order + [k], byMain);
      order := order + [k];
    }
  }

  lemma OthersNext(order: seq<string>, k: string, byMain: Entries)
    requires k in byMain && forall k :: k in order ==> k in byMain
    ensures Others(order + [k], byMain) == Others(order, byMain) + [FromEntry(byMain[k])]
  {
    assert (order + [k])[..|order|] == order;
  }

  // ---- The whole translation ----

  /** The groups after the filter, and the two indexes over them. */
  ghost predicate FromStatements(
    statements: seq<Statement>, rules: Rules, groups: seq<seq<Statement>>, byMain: Entries, byTranslation: Entries)
  {
    && NoneEmpty(groups) && AreFiltered(statements, rules, groups)
    && LastEntries(byMain, groups, MainKeywordOf) && LastEntries(byTranslation, groups, TranslationOf)
  }

  ghost function ExcludedBy(statements: seq<Statement>, rules: Rules): set<Pair> {
    Excluded(Selected(statements, Constraints), Defaults(Selected(statements, Installables)), rules.constraint)
  }

  ghost predicate AreFiltered(statements: seq<Statement>, rules: Rules, groups: seq<seq<Statement>>) {
    exists openUIs :: AreFilteredFrom(statements, rules, groups, openUIs)
  }

  ghost predicate AreFilteredFrom(
    statements: seq<Statement>, rules: Rules, groups: seq<seq<Statement>>, openUIs: seq<seq<Statement>>)
  {
    && Groups(openUIs) && Flatten(openUIs) == Selected(statements, OpenUIs) && |groups| == |openUIs|
    && forall i :: 0 <= i < |groups| ==> groups[i] == PpdEntries.Kept(openUIs[i], ExcludedBy(statements, rules))
  }

  /** What the translation says, given the indexes of the entries. */
  ghost predicate Describes(
    d: Description, byMain: Entries, byTranslation: Entries, vendorOptions: seq<string>, rules: Rules)
  {
    && IsMediaSection(d.mediaSize, Get(byMain, PAGE_SIZE), rules)
    && IsColorSection(d.color, ColorEntry(byMain), rules)
    && IsDuplexSection(d.duplex, DuplexEntry(byMain))
    && IsDPISection(d.dpi, Get(byMain, RESOLUTION), rules)
    && IsVendorSection(if d.vendor.Some? then d.vendor.value else [], byMain, byTranslation, vendorOptions)
    && d.vendor != Some([])
  }

  /** The groups and entries; None when a header is out of range. */
  method ReadEntries(statements: seq<Statement>, rules: Rules)
    returns (r: Option<(Entries, Entries)>, standAlones: seq<Statement>, ghost groups: seq<seq<Statement>>)
    ensures SparesHeaders(ExcludedBy(statements, rules)) ==> r.Some?
    ensures r.Some? ==>
              && FromStatements(statements, rules, groups, r.value.0, r.value.1)
              && SoundEntries(r.value.0, MainKeywordOf) && SoundEntries(r.value.1, TranslationOf)
    ensures standAlones == Selected(statements, StandAlones)
  {
    hide Selected, Groups, Flatten, SinkOf, Excluded, Defaults, PpdEntries.Kept, EntryOf, LastEntries, SoundEntries,
      SparesHeaders, NoneEmpty;
    var openUIs, installables, uiConstraints;
    openUIs, installables, uiConstraints, standAlones := GroupStatements(statements);
    var filtered, excluded := FilterConstraints(openUIs, installables, uiConstraints, rules.constraint);
    if SparesHeaders(excluded) { GroupsSurvive(openUIs, filtered, excluded); }
    groups := filtered;
    assert AreFilteredFrom(statements, rules, groups, openUIs);
    r := OpenUIStatementsToEntries(filtered);
    if r.Some? {
      EntriesSound(r.value.0, filtered, MainKeywordOf);
      EntriesSound(r.value.1, filtered, TranslationOf);
    }
  }

  /** translatePPD, from the statements of a file; None when a header is out of range. */
  method TranslatePPD(statements: seq<Statement>, vendorOptions: seq<string>, rules: Rules)
    returns (r: Option<(Description, StandAlone)>, ghost groups: seq<seq<Statement>>, ghost byMain: Entries,
        ghost byTranslation: Entries)
    requires Keyed(rules.sizes) && Sensible(rules.texts)
    ensures SparesHeaders(ExcludedBy(statements, rules)) ==> r.Some?
    ensures r.Some? ==>
              && FromStatements(statements, rules, groups, byMain, byTranslation)
              && SoundEntries(byMain, MainKeywordOf) && SoundEntries(byTranslation, TranslationOf)
              && Describes(r.value.0, byMain, byTranslation, vendorOptions, rules)
              && Says(Selected(statements, StandAlones), r.value.0.color, rules.texts, r.value.1)
  {
    byMain, byTranslation := map[], map[];
    hide *;
    var entries, standAlones;
    entries, standAlones, groups := ReadEntries(statements, rules);
    if entries.None? { return None, groups, byMain, byTranslation; }
    byMain, byTranslation := entries.value.0, entries.value.1;
    var d := TranslateSections(entries.value.0, rules);
    var vendor := TranslateVendor(entries.value.0, entries.value.1, vendorOptions);
    if |vendor| > 0 { d := d.(vendor := Some(vendor)); }
    var standAlone := ReadStandAlones(standAlones, d.color, rules.texts);
    r := Some((d, standAlone));
    assert Describes(d, byMain, byTranslation, vendorOptions, rules) by {
      DescribesAll(d, vendor, byMain, byTranslation, vendorOptions, rules);
    }
  }

  lemma DescribesAll(
    d: Description, vendor: seq<VendorCapability>, byMain: Entries, byTranslation: Entries,
        vendorOptions: seq<string>, rules: Rules)
    requires IsMediaSection(d.mediaSize, Get(byMain, PAGE_SIZE), rules) && IsColorSection(d.color, ColorEntry(byMain), rules)
    requires IsDuplexSection(d.duplex, DuplexEntry(byMain)) && IsDPISection(d.dpi, Get(byMain, RESOLUTION), rules)
    requires IsVendorSection(vendor, byMain, byTranslation, vendorOptions)
    requires d.vendor == if vendor == [] then None else Some(vendor)
    ensures Describes(d, byMain, byTranslation, vendorOptions, rules)
  {
    hide IsMediaSection, IsColorSection, IsDuplexSection, IsDPISection, IsVendorSection;
  }

  const COLOR_KEYWORDS := ["ColorModel", "CMAndResolution", "SelectColor"]
  const DUPLEX_KEYWORDS := ["Duplex", "BRDuplex", "KMDuplex"]

  /** The first of these keywords that has an entry. */
  predicate IsFirst(names: seq<string>, byMain: Entries, i: nat) {
    i < |names| && names[i] in byMain && forall j :: 0 <= j < i ==> names[j] !in byMain
  }

  predicate NoneIn(names: seq<string>, byMain: Entries) { forall j :: 0 <= j < |names| ==> names[j] !in byMain }

  /** Which entries the sections are about. */
  lemma SectionsAre(
    d: Description, byMain: Entries, byTranslation: Entries, vendorOptions: seq<string>, rules: Rules, i: nat)
    requires Describes(d, byMain, byTranslation, vendorOptions, rules)
    ensures "PageSize" in byMain ==> IsMediaSection(d.mediaSize, Some(byMain["PageSize"]), rules)
    ensures "PageSize" !in byMain ==> d.mediaSize.None?
    ensures "Resolution" in byMain ==> IsDPISection(d.dpi, Some(byMain["Resolution"]), rules)
    ensures "Resolution" !in byMain ==> d.dpi.None?
    ensures var names := COLOR_KEYWORDS;
            && (IsFirst(names, byMain, i) ==> IsColorSection(d.color, Some(byMain[names[i]]), rules))
            && (NoneIn(names, byMain) ==> d.color.None?)
    ensures var names := DUPLEX_KEYWORDS;
            && (IsFirst(names, byMain, i) ==> IsDuplexSection(d.duplex, Some(byMain[names[i]])))
            && (NoneIn(names, byMain) ==> d.duplex.None?)
  {
    FirstColor(byMain, i);
    FirstDuplex(byMain, i);
    hide ColorEntry, DuplexEntry, IsVendorSection, IsColor, IsDuplex, IsDPI, IsMediaSize, IsFirst, NoneIn;
  }

  lemma FirstColor(byMain: Entries, i: nat)
    ensures var names := COLOR_KEYWORDS;
            && (IsFirst(names, byMain, i) ==> i < 3 && names[i] in byMain && ColorEntry(byMain) == Some(byMain[names[i]]))
            && (NoneIn(names, byMain) ==> ColorEntry(byMain).None?)
  {
    var names := COLOR_KEYWORDS;
    assert names[0] == "ColorModel" && names[1] == "CMAndResolution" && names[2] == "SelectColor";
  }

  lemma FirstDuplex(byMain: Entries, i: nat)
    ensures var names := DUPLEX_KEYWORDS;
            && (IsFirst(names, byMain, i) ==> i < 3 && names[i] in byMain && DuplexEntry(byMain) == Some(byMain[names[i]]))
            && (NoneIn(names, byMain) ==> DuplexEntry(byMain).None?)
  {
    var names := DUPLEX_KEYWORDS;
    assert names[0] == "Duplex" && names[1] == "BRDuplex" && names[2] == "KMDuplex";
  }

  lemma EntriesSound(m: Entries, groups: seq<seq<Statement>>, key: Entry -> string)
    requires NoneEmpty(groups) && LastEntries(m, groups, key)
    ensures SoundEntries(m, key)
  {
    hide Sound, EntryOf;
    forall k | k in m ensures Sound(m[k]) && key(m[k]) == k {
      var i :| IsLast(m[k], k, groups, key, i);
      EntriesAreSound(groups[i]);
    }
  }

  // ---- No capability is advertised twice ----

  function IDOf(s: Source): string { if s.Ricoh? then RICOH_PASSWORD else s.entry.mainKeyword }

  ghost predicate DistinctIDs(s: seq<Source>) { forall i, j :: 0 <= i < j < |s| ==> IDOf(s[i]) != IDOf(s[j]) }

  /** The output bins are also the entry that is translated as the print quality. */
  predicate BinIsQuality(byMain: Entries, byTranslation: Entries) {
    OUTPUT_BIN in byMain && PRINT_QUALITY in byTranslation && byTranslation[PRINT_QUALITY].mainKeyword == OUTPUT_BIN
  }

  ghost predicate PlainEntries(m: Entries) { forall k :: k in m ==> !Has(m[k].mainKeyword, ':') }

  lemma RicohHasSeparator()
    ensures Has(RICOH_PASSWORD, ':')
  {
    assert RICOH_PASSWORD[|JOB_TYPE|] == ':';
  }

  lemma FixedAreDistinct(byMain: Entries, byTranslation: Entries)
    requires SoundEntries(byMain, MainKeywordOf) && PlainEntries(byMain) && PlainEntries(byTranslation)
    ensures DistinctIDs(FixedSources(byMain, byTranslation)) <==> !BinIsQuality(byMain, byTranslation)
  {
    RicohHasSeparator();
    hide Has, Sound, HasPassword;
    var a, c := Sources(Get(byMain, OUTPUT_BIN)), Sources(Get(byTranslation, PRINT_QUALITY));
    var s := FixedSources(byMain, byTranslation);
    if BinIsQuality(byMain, byTranslation) {
      assert IDOf(s[0]) == OUTPUT_BIN && IDOf(s[|s| - 1]) == OUTPUT_BIN;
    }
  }

  lemma FixedAreConsidered(byMain: Entries, byTranslation: Entries, i: nat)
    requires i < |FixedSources(byMain, byTranslation)|
    ensures var s := FixedSources(byMain, byTranslation)[i];
            s == Ricoh || IDOf(s) in Considered(byMain, byTranslation)
  {
    hide HasPassword, ColorEntry, DuplexEntry;
  }

  lemma OtherIs(byMain: Entries, considered: set<string>, order: seq<string>, vendorOptions: seq<string>, j: nat)
    requires SoundEntries(byMain, MainKeywordOf) && PlainEntries(byMain)
    requires IsTraversal(order, byMain, considered, vendorOptions) && j < |order|
    ensures IDOf(Others(order, byMain)[j]) == order[j] && order[j] !in considered && order[j] != RICOH_PASSWORD
  {
    RicohHasSeparator();
    hide Has, Sound;
    assert order[j] in order;
    assert !Has(byMain[order[j]].mainKeyword, ':') && MainKeywordOf(byMain[order[j]]) == order[j];
  }

  lemma OtherIsApart(
    byMain: Entries, byTranslation: Entries, order: seq<string>, vendorOptions: seq<string>, i: nat, j: nat)
    requires SoundEntries(byMain, MainKeywordOf) && PlainEntries(byMain)
    requires IsTraversal(order, byMain, Considered(byMain, byTranslation), vendorOptions)
    requires i < j < |FixedSources(byMain, byTranslation)| + |order| && |FixedSources(byMain, byTranslation)| <= j
    ensures var all := FixedSources(byMain, byTranslation) + Others(order, byMain); IDOf(all[i]) != IDOf(all[j])
  {
    var fixed := |FixedSources(byMain, byTranslation)|;
    var considered := Considered(byMain, byTranslation);
    if i < fixed { FixedAreConsidered(byMain, byTranslation, i); }
    hide FixedSources, Considered, SoundEntries, PlainEntries;
    OtherIs(byMain, considered, order, vendorOptions, j - fixed);
    if i >= fixed { OtherIs(byMain, considered, order, vendorOptions, i - fixed); }
  }

  lemma SourceIDsAreDistinct(byMain: Entries, byTranslation: Entries, order: seq<string>, vendorOptions: seq<string>)
    requires SoundEntries(byMain, MainKeywordOf) && PlainEntries(byMain) && PlainEntries(byTranslation)
    requires IsTraversal(order, byMain, Considered(byMain, byTranslation), vendorOptions)
    ensures DistinctIDs(FixedSources(byMain, byTranslation) + Others(order, byMain)) <==> !BinIsQuality(byMain, byTranslation)
  {
    FixedAreDistinct(byMain, byTranslation);
    var fixed := FixedSources(byMain, byTranslation);
    var all := fixed + Others(order, byMain);
    hide FixedSources, Considered, SoundEntries, PlainEntries, BinIsQuality, IDOf;
    forall i, j | 0 <= i < j < |all| && j >= |fixed| ensures IDOf(all[i]) != IDOf(all[j]) {
      OtherIsApart(byMain, byTranslation, order, vendorOptions, i, j);
    }
    assert forall i :: 0 <= i < |fixed| ==> all[i] == fixed[i];
  }

  /**
   * For main keywords without a colon, no two vendor capabilities have the same ID, unless the entry for
   * the output bins is also the one whose translation is "Print Quality".
   */
  lemma IDsAreDistinct(vcs: seq<VendorCapability>, byMain: Entries, byTranslation: Entries, vendorOptions: seq<string>)
    requires SoundEntries(byMain, MainKeywordOf) && PlainEntries(byMain) && PlainEntries(byTranslation)
    requires IsVendorSection(vcs, byMain, byTranslation, vendorOptions)
    ensures (forall i, j :: 0 <= i < j < |vcs| ==> vcs[i].id != vcs[j].id) <==> !BinIsQuality(byMain, byTranslation)
  {
    var order :| IsVendorList(vcs, byMain, byTranslation, vendorOptions, order);
    SourceIDsAreDistinct(byMain, byTranslation, order, vendorOptions);
    var sources := FixedSources(byMain, byTranslation) + Others(order, byMain);
    assert forall i :: 0 <= i < |vcs| ==> vcs[i].id == IDOf(sources[i]);
    hide FixedSources, Considered, SoundEntries, PlainEntries, BinIsQuality, IDOf, Realises, IsTraversal;
  }

  // ---- Which capabilities there are ----

  ghost predicate HasCapability(vcs: seq<VendorCapability>, id: string) { exists i :: 0 <= i < |vcs| && vcs[i].id == id }

  /** The entries of the Ricoh password, with an option to lock a print. */
  ghost predicate LocksPrint(byMain: Entries) {
    && "JobType" in byMain && "LockedPrintPassword" in byMain
    && exists s :: s in byMain["JobType"].options && s.optionKeyword == "LockedPrint"
  }

  predicate IsQuality(id: string, byTranslation: Entries) {
    "Print Quality" in byTranslation && id == byTranslation["Print Quality"].mainKeyword
  }

  ghost predicate IsFirstOf(names: seq<string>, byMain: Entries, id: string) {
    exists i: nat :: IsFirst(names, byMain, i) && names[i] == id
  }

  /** The entry is translated elsewhere. */
  ghost predicate HasOwnSection(id: string, byMain: Entries, byTranslation: Entries) {
    || id == "PageSize" || id == "Resolution" || id == "OutputBin"
    || IsFirstOf(COLOR_KEYWORDS, byMain, id)
    || IsFirstOf(DUPLEX_KEYWORDS, byMain, id)
    || (LocksPrint(byMain) && (id == "JobType" || id == "LockedPrintPassword"))
    || IsQuality(id, byTranslation)
  }

  lemma LocksPrintMeans(byMain: Entries)
    ensures HasPassword(byMain) <==> LocksPrint(byMain)
    ensures HasPassword(byMain) ==> JOB_TYPE in byMain && LOCKED_PRINT_PASSWORD in byMain
  {
    if LocksPrint(byMain) {
      var s :| s in byMain["JobType"].options && s.optionKeyword == "LockedPrint";
      assert HasKeyword(byMain[JOB_TYPE].options, LOCKED_PRINT);
    }
  }

  lemma {:induction false} FirstIn(names: seq<string>, byMain: Entries, from: nat) returns (i: nat)
    requires from <= |names| && !NoneIn(names, byMain) && forall j :: 0 <= j < from ==> names[j] !in byMain
    ensures IsFirst(names, byMain, i)
    decreases |names| - from
  {
    if names[from] in byMain { i := from; } else { i := FirstIn(names, byMain, from + 1); }
  }

  lemma FirstIsTheOne(names: seq<string>, byMain: Entries, i: nat, id: string)
    requires IsFirst(names, byMain, i)
    ensures IsFirstOf(names, byMain, id) <==> id == names[i]
  {
  }

  lemma ColorMain(byMain: Entries, id: string)
    requires SoundEntries(byMain, MainKeywordOf)
    ensures id in Main(ColorEntry(byMain)) <==> IsFirstOf(COLOR_KEYWORDS, byMain, id)
  {
    hide Sound, ColorEntry;
    FirstColor(byMain, 0);
    if !NoneIn(COLOR_KEYWORDS, byMain) {
      var i := FirstIn(COLOR_KEYWORDS, byMain, 0);
      FirstColor(byMain, i);
      FirstIsTheOne(COLOR_KEYWORDS, byMain, i, id);
      var k := COLOR_KEYWORDS[i];
      hide IsFirst, NoneIn, IsFirstOf;
      assert MainKeywordOf(byMain[k]) == k;
    }
  }

  lemma DuplexMain(byMain: Entries, id: string)
    requires SoundEntries(byMain, MainKeywordOf)
    ensures id in Main(DuplexEntry(byMain)) <==> IsFirstOf(DUPLEX_KEYWORDS, byMain, id)
  {
    hide Sound, DuplexEntry;
    FirstDuplex(byMain, 0);
    if !NoneIn(DUPLEX_KEYWORDS, byMain) {
      var i := FirstIn(DUPLEX_KEYWORDS, byMain, 0);
      FirstDuplex(byMain, i);
      FirstIsTheOne(DUPLEX_KEYWORDS, byMain, i, id);
      var k := DUPLEX_KEYWORDS[i];
      hide IsFirst, NoneIn, IsFirstOf;
      assert MainKeywordOf(byMain[k]) == k;
    }
  }

  lemma KeyedMain(byMain: Entries, k: string, id: string)
    requires SoundEntries(byMain, MainKeywordOf)
    ensures id in Main(Get(byMain, k)) <==> id == k && k in byMain
    ensures k in byMain ==> byMain[k].mainKeyword == k
  {
    hide Sound;
    assert k in byMain ==> MainKeywordOf(byMain[k]) == k;
  }

  lemma ConsideredAre(byMain: Entries, byTranslation: Entries, id: string)
    requires SoundEntries(byMain, MainKeywordOf) && id in byMain
    ensures id in Considered(byMain, byTranslation) <==> HasOwnSection(id, byMain, byTranslation)
  {
    hide SoundEntries, ColorEntry, DuplexEntry, HasPassword, LocksPrint, IsFirstOf;
    ColorMain(byMain, id);
    DuplexMain(byMain, id);
    LocksPrintMeans(byMain);
    KeyedMain(byMain, PAGE_SIZE, id);
    KeyedMain(byMain, RESOLUTION, id);
    KeyedMain(byMain, OUTPUT_BIN, id);
    KeyedMain(byMain, JOB_TYPE, id);
    KeyedMain(byMain, LOCKED_PRINT_PASSWORD, id);
  }

  /** Exactly these capabilities are advertised. */
  lemma VendorIDs(vcs: seq<VendorCapability>, byMain: Entries, byTranslation: Entries, vendorOptions: seq<string>, id: string)
    requires SoundEntries(byMain, MainKeywordOf) && IsVendorSection(vcs, byMain, byTranslation, vendorOptions)
    ensures HasCapability(vcs, id) <==>
      || (id == "OutputBin" && "OutputBin" in byMain)
      || (id == "JobType:LockedPrint/LockedPrintPassword" && LocksPrint(byMain))
      || IsQuality(id, byTranslation)
      || (id in byMain && ("all" in vendorOptions || id in vendorOptions) && !HasOwnSection(id, byMain, byTranslation))
  {
    var order :| IsVendorList(vcs, byMain, byTranslation, vendorOptions, order);
    var fixed, others := FixedSources(byMain, byTranslation), Others(order, byMain);
    FixedAre(byMain, byTranslation, id);
    OthersAre(order, byMain, byTranslation, vendorOptions, id);
    hide *;
    CapabilitiesAre(vcs, fixed, others, id);
  }

  ghost predicate HasSource(sources: seq<Source>, id: string) { exists i :: 0 <= i < |sources| && IDOf(sources[i]) == id }

  lemma CapabilitiesAre(vcs: seq<VendorCapability>, fixed: seq<Source>, others: seq<Source>, id: string)
    requires AllRealise(vcs, fixed + others)
    ensures HasCapability(vcs, id) <==> HasSource(fixed, id) || HasSource(others, id)
  {
    var all := fixed + others;
    assert forall i :: 0 <= i < |vcs| ==> vcs[i].id == IDOf(all[i]) by { hide IsSelect; }
    hide Realises, IDOf;
    if i :| 0 <= i < |vcs| && vcs[i].id == id {
      assert if i < |fixed| then IDOf(fixed[i]) == id else IDOf(others[i - |fixed|]) == id;
    }
    if i :| 0 <= i < |fixed| && IDOf(fixed[i]) == id { assert all[i] == fixed[i] && vcs[i].id == id; }
    if i :| 0 <= i < |others| && IDOf(others[i]) == id { assert all[|fixed| + i] == others[i] && vcs[|fixed| + i].id == id; }
  }

  lemma FixedAre(byMain: Entries, byTranslation: Entries, id: string)
    requires SoundEntries(byMain, MainKeywordOf)
    ensures HasSource(FixedSources(byMain, byTranslation), id) <==>
      || (id == "OutputBin" && "OutputBin" in byMain)
      || (id == "JobType:LockedPrint/LockedPrintPassword" && LocksPrint(byMain))
      || IsQuality(id, byTranslation)
  {
    RicohIs();
    LocksPrintMeans(byMain);
    hide HasPassword, LocksPrint, Sound;
    var bins, ricoh, quality := Sources(Get(byMain, OUTPUT_BIN)), (if HasPassword(byMain) then [Ricoh] else []),
      Sources(Get(byTranslation, PRINT_QUALITY));
    var all := bins + ricoh + quality;
    assert all == FixedSources(byMain, byTranslation);
    if bins != [] { assert all[0] == bins[0] && MainKeywordOf(byMain[OUTPUT_BIN]) == OUTPUT_BIN; }
    if ricoh != [] { assert all[|bins|] == Ricoh; }
    if quality != [] { assert all[|all| - 1] == quality[0]; }
    assert forall i :: 0 <= i < |all| ==>
      (i < |bins| && all[i] == bins[i]) || (|bins| <= i < |bins| + |ricoh| && all[i] == Ricoh) || all[i] == quality[0];
  }

  lemma OthersAre(
    order: seq<string>, byMain: Entries, byTranslation: Entries, vendorOptions: seq<string>, id: string)
    requires SoundEntries(byMain, MainKeywordOf) && IsTraversal(order, byMain, Considered(byMain, byTranslation), vendorOptions)
    ensures HasSource(Others(order, byMain), id) <==>
      (id in byMain && ("all" in vendorOptions || id in vendorOptions) && !HasOwnSection(id, byMain, byTranslation))
  {
    if id in byMain { ConsideredAre(byMain, byTranslation, id); }
    hide Considered, HasOwnSection, Sound;
    var others := Others(order, byMain);
    forall i | 0 <= i < |order| ensures IDOf(others[i]) == order[i] && order[i] in byMain {
      assert order[i] in order;
      assert MainKeywordOf(byMain[order[i]]) == order[i];
    }
    if id in order {
      var i :| 0 <= i < |order| && order[i] == id;
      assert IDOf(others[i]) == id;
    }
  }

  // ---- The exception occurs ----

  lemma TrimStar(main: string)
    ensures TrimPrefix("*" + main, "*") == main
  {
    assert ("*" + main)[1..] == main;
  }

  lemma OneEntry(h: Statement, a: Statement, main: string)
    requires h.optionKeyword == "*" + main && h.value == "PickOne" && h.translation != ""
    requires !IsOption(h, main) && IsOption(a, main)
    ensures EntryOf([h, a]).Some? && EntryOf([h, a]).value.mainKeyword == main && EntryOf([h,
        a]).value.translation == h.translation
  {
    assert OptionsOf([], main) == [] && DefaultOf([]) == "";
    TrimStar(main);
    hide IsDefault, IsOption, OptionsOf, DefaultOf, TrimPrefix, HasPrefix, HasKeyword;
    assert [] + [h] == [h] && [h] + [a] == [h, a];
    OptionsNext([], h, main);
    OptionsNext([h], a, main);
  }

  lemma OneGroup(h: Statement, a: Statement, gs: seq<seq<Statement>>)
    requires IsOpenUI(h) && KeywordOf(a.mainKeyword) == Other && Groups(gs) && Flatten(gs) == [h, a]
    ensures gs == [[h, a]]
  {
    assert Flatten([[h, a]]) == [h, a] by { assert [[h, a]][..0] == [] && Flatten<Statement>([]) == []; }
    assert IsGroup([h, a]) && Groups([[h, a]]);
    GroupingIsUnique(gs, [[h, a]]);
  }

  lemma TwoSinks(h: Statement, a: Statement)
    requires IsOpenUI(h) && KeywordOf(a.mainKeyword) == Other
    ensures SinkOf([], h) == OpenUIs && SinkOf([h], a) == OpenUIs
  {
    hide KeywordOf, HasPrefix;
    assert [h][..0] == [];
    assert !InsideInstallable([]) && !InsideInstallable([h]) && InsideOpenUI([h]);
    assert IsOpenUI([h][0]);
    assert HasHeader([h], false);
  }

  lemma SelectedNext(p: seq<Statement>, s: Statement, sink: Sink)
    ensures Selected(p + [s], sink) == Selected(p, sink) + if SinkOf(p, s) == sink then [s] else []
  {
    hide SinkOf;
    assert (p + [s])[..|p|] == p;
  }

  /** A UI with one option, and nothing else, is one group and one entry. */
  lemma OneUI(h: Statement, a: Statement, rules: Rules)
    requires IsOpenUI(h) && KeywordOf(a.mainKeyword) == Other
    ensures Selected([h, a], OpenUIs) == [h, a] && ExcludedBy([h, a], rules) == {}
  {
    TwoSinks(h, a);
    assert Selected([], OpenUIs) == [] && Selected([], Constraints) == [];
    hide SinkOf, Selected;
    assert [] + [h] == [h] && [h] + [a] == [h, a];
    SelectedNext([], h, OpenUIs);
    SelectedNext([], h, Constraints);
    SelectedNext([h], a, OpenUIs);
    SelectedNext([h], a, Constraints);
  }

  lemma OneUIGroups(h: Statement, a: Statement, rules: Rules, groups: seq<seq<Statement>>)
    requires IsOpenUI(h) && KeywordOf(a.mainKeyword) == Other && AreFiltered([h, a], rules, groups)
    ensures groups == [[h, a]]
  {
    OneUI(h, a, rules);
    var openUIs :| AreFilteredFrom([h, a], rules, groups, openUIs);
    OneGroup(h, a, openUIs);
    KeptAll([h, a]);
    hide Selected, Flatten, Groups, Excluded, Defaults;
  }

  lemma {:induction false} KeptAll(g: seq<Statement>)
    ensures PpdEntries.Kept(g, {}) == g
  {
    if g != [] {
      KeptAll(g[..|g| - 1]);
      assert g == g[..|g| - 1] + [g[|g| - 1]];
    }
  }

  lemma OneUIEntries(h: Statement, a: Statement, main: string, rules: Rules, groups: seq<seq<Statement>>,
      byMain: Entries, byTranslation: Entries)
    requires IsOpenUI(h) && KeywordOf(a.mainKeyword) == Other && h.optionKeyword == "*" + main && h.value == "PickOne"
    requires h.translation != "" && !IsOption(h, main) && IsOption(a, main)
    requires FromStatements([h, a], rules, groups, byMain, byTranslation)
    ensures main in byMain && h.translation in byTranslation && byTranslation[h.translation].mainKeyword == main
  {
    OneUIGroups(h, a, rules, groups);
    OneEntry(h, a, main);
    hide EntryOf, IsOption, KeywordOf, AreFiltered;
    assert groups[0] == [h, a];
    var i :| IsLast(byTranslation[h.translation], h.translation, groups, TranslationOf, i);
  }

  /** A PPD in which the output bins are translated as the print quality, so that they are advertised twice. */
  lemma BinCanBeQuality(rules: Rules) returns (statements: seq<Statement>)
    ensures SparesHeaders(ExcludedBy(statements, rules))
    ensures forall groups, byMain, byTranslation ::
              FromStatements(statements, rules, groups, byMain, byTranslation) ==> BinIsQuality(byMain, byTranslation)
  {
    var h := Statement("OpenUI", "*" + OUTPUT_BIN, PRINT_QUALITY, "PickOne");
    var a := Statement(OUTPUT_BIN, "Upper", "", "");
    statements := [h, a];
    assert IsOpenUI(h) && !IsOption(h, OUTPUT_BIN) by { assert "OpenUI"[1] != OUTPUT_BIN[1]; }
    BinIsOption(a);
    assert PRINT_QUALITY != "" by { assert PRINT_QUALITY[0] == 'P'; }
    OneUI(h, a, rules);
    hide *;
    forall groups, byMain, byTranslation | FromStatements(statements, rules, groups, byMain, byTranslation)
      ensures BinIsQuality(byMain, byTranslation)
    {
      OneUIEntries(h, a, OUTPUT_BIN, rules, groups, byMain, byTranslation);
      QualityIsBin(byMain, byTranslation);
    }
    NoneSpares();
  }

  lemma QualityIsBin(byMain: Entries, byTranslation: Entries)
    requires OUTPUT_BIN in byMain && PRINT_QUALITY in byTranslation && byTranslation[PRINT_QUALITY].mainKeyword == OUTPUT_BIN
    ensures BinIsQuality(byMain, byTranslation)
  {
  }

  lemma NoneSpares()
    ensures SparesHeaders({})
  {
  }

  lemma BinIsOption(a: Statement)
    requires a.mainKeyword == OUTPUT_BIN
    ensures KeywordOf(a.mainKeyword) == Other && !IsBracket(a) && IsOption(a, OUTPUT_BIN)
  {
    assert OUTPUT_BIN[0] == 'O' && OUTPUT_BIN[1] == 'u' && DEFAULT[0] == 'D';
    assert "OpenUI"[1] == 'p' && "JCLOpenUI"[0] == 'J' && "CloseUI"[0] == 'C' && "JCLCloseUI"[0] == 'J' && "OpenGroup"[1] == 'p'
      && "CloseGroup"[0] == 'C' && "OpenSubGroup"[1] == 'p' && "CloseSubGroup"[0] == 'C' && "UIConstraints"[0] == 'U';
  }
}
