/** From the statements of a PPD file to native job options: tickets for what the translation of a PPD advertises. */
module PpdToTicket {
  import opened Cdd
  import opened Collections
  import opened Ppd
  import opened PpdEntries
  import opened Capabilities
  import opened PpdTranslation
  import opened Ticket
  import opened TicketRoundTrip

  // ---- Choices do not interfere ----

  const ATTRIBUTES := {"orientation-requested", "copies", "media-left-margin", "media-right-margin", "media-top-margin",
    "media-bottom-margin", "fit-to-page", "collate", "outputorder"}

  function Find(m: Options, k: string): Option<string> { if k in m then Some(m[k]) else None }

  function Or(a: Option<string>, b: Option<string>): Option<string> { if a.Some? then a else b }

  lemma AttributesAreApart(p: Capable, t: JobTicket, r: Render, k: string)
    requires k !in ATTRIBUTES
    ensures k !in OrientationPart(p, t) && k !in CopiesPart(p, t, r) && k !in MarginsPart(p, t, r) && k !in FitToPagePart(p, t)
    ensures k !in CollatePart(p, t) && k !in ReverseOrderPart(p, t)
  {
  }

  /** An option that is no attribute has the value of the last of five parts that sets it. */
  lemma ValueOf(v: Options, p: Capable, t: JobTicket, r: Render, k: string)
    requires k !in ATTRIBUTES
    ensures Find(WithParts(v, p, t, r), k)
            == Or(Find(MediaSizePart(p, t, r), k),
                  Or(Find(DPIPart(p, t), k), Or(Find(DuplexPart(p, t), k), Or(Find(ColorPart(p, t), k), Find(v, k)))))
  {
    AttributesAreApart(p, t, r, k);
    hide OrientationPart, CopiesPart, MarginsPart, FitToPagePart, CollatePart, ReverseOrderPart, MediaSizePart, DPIPart,
      DuplexPart, ColorPart;
  }

  /**
   * A ticket may choose everything at once: with different main keywords that are neither attributes nor
   * each other's, every choice is set, and all other keys are those of the vendor items.
   */
  lemma ChoicesDoNotInterfere(
    v: Options, p: Capable, t: JobTicket, r: Render, color: Statement, colorMain: string, duplex: Statement, duplexMain: string,
    k: string)
    requires Plain(colorMain) && Plain(color.optionKeyword) && Plain(duplexMain) && Plain(duplex.optionKeyword)
    requires p.color.Some? && t.color.Some? && t.color.value.vendorID == VendorID(colorMain, color.optionKeyword)
    requires p.duplex.Some? && t.duplex.Some? && t.duplex.value in p.duplexMap
    requires p.duplexMap[t.duplex.value] == VendorID(duplexMain, duplex.optionKeyword)
    requires p.dpi.Some? && t.dpi.Some? && t.dpi.value.vendorID != ""
    requires p.mediaSize.Some? && t.mediaSize.Some? && t.mediaSize.value.vendorID != ""
    requires k !in ATTRIBUTES && colorMain != duplexMain
    requires colorMain != RESOLUTION && colorMain != PAGE_SIZE && duplexMain != RESOLUTION && duplexMain != PAGE_SIZE
    ensures Find(WithParts(v, p, t, r), k) ==
      if k == PAGE_SIZE then Some(t.mediaSize.value.vendorID)
      else if k == RESOLUTION then Some(t.dpi.value.vendorID)
      else if k == duplexMain then Some(duplex.optionKeyword)
      else if k == colorMain then Some(color.optionKeyword)
      else Find(v, k)
  {
    ValueOf(v, p, t, r, k);
    PairOfID(colorMain, color.optionKeyword);
    PairOfID(duplexMain, duplex.optionKeyword);
    assert PAGE_SIZE[0] != RESOLUTION[0];
    hide WithParts, Plain, PairPart, VendorID, FirstOfType, LastResolution;
  }

  /** The last part that sets an option wins. */
  lemma LookUp(v: Options, p: Capable, t: JobTicket, r: Render, k: string)
    ensures Find(WithParts(v, p, t, r), k) ==
      Or(Find(ReverseOrderPart(p, t), k), Or(Find(CollatePart(p, t), k), Or(Find(MediaSizePart(p, t, r), k),
      Or(Find(FitToPagePart(p, t), k), Or(Find(DPIPart(p, t), k), Or(Find(MarginsPart(p, t, r), k),
      Or(Find(CopiesPart(p, t, r), k), Or(Find(OrientationPart(p, t), k), Or(Find(DuplexPart(p, t), k),
      Or(Find(ColorPart(p, t), k), Find(v, k)))))))))))
  {
    hide OrientationPart, CopiesPart, MarginsPart, FitToPagePart, CollatePart, ReverseOrderPart, MediaSizePart, DPIPart,
      DuplexPart, ColorPart;
  }

  /** The parts after the margins set options with names of 7, 8, 10 or 11 characters. */
  lemma LaterNames(p: Capable, t: JobTicket, r: Render, k: string)
    ensures |k| != 7 ==> k !in CollatePart(p, t)
    ensures |k| != 8 ==> k !in MediaSizePart(p, t, r)
    ensures |k| != 10 ==> k !in DPIPart(p, t)
    ensures |k| != 11 ==> k !in FitToPagePart(p, t) && k !in ReverseOrderPart(p, t)
    ensures |k| == 11 && k[0] == 'f' ==> k !in ReverseOrderPart(p, t)
    ensures |k| < 16 || |k| > 19 ==> k !in MarginsPart(p, t, r)
  {
    hide LastResolution;
  }

  lemma CopiesName(p: Capable, t: JobTicket, r: Render, k: string)
    ensures |k| != 6 ==> k !in CopiesPart(p, t, r)
  {
  }

  /** An attribute that the printer has is set to the ticket's value, whatever the vendor items say. */
  lemma CopiesAreSet(v: Options, p: Capable, t: JobTicket, r: Render)
    requires p.copies && t.copies.Some?
    ensures Find(WithParts(v, p, t, r), "copies") == Some(r.decimal(t.copies.value))
  {
    LookUp(v, p, t, r, "copies");
    LaterNames(p, t, r, "copies");
    hide WithParts, OrientationPart, MarginsPart, FitToPagePart, CollatePart, ReverseOrderPart, MediaSizePart, DPIPart,
      DuplexPart, ColorPart;
  }

  lemma OrientationIsSet(v: Options, p: Capable, t: JobTicket, r: Render)
    requires p.orientation && (t.orientation == Some(Portrait) || t.orientation == Some(Landscape))
    ensures Find(WithParts(v, p, t, r), "orientation-requested") == Some(if t.orientation.value == Portrait then "3" else "4")
  {
    LookUp(v, p, t, r, "orientation-requested");
    LaterNames(p, t, r, "orientation-requested");
    CopiesName(p, t, r, "orientation-requested");
    hide WithParts, CopiesPart, MarginsPart, FitToPagePart, CollatePart, ReverseOrderPart, MediaSizePart, DPIPart,
      DuplexPart, ColorPart;
  }

  lemma FitToPageIsSet(v: Options, p: Capable, t: JobTicket, r: Render)
    requires p.fitToPage && (t.fitToPage == Some(FitToPage.FitToPage) || t.fitToPage == Some(NoFitting))
    ensures Find(WithParts(v, p, t, r), "fit-to-page") == Some(if t.fitToPage.value == NoFitting then "false" else "true")
  {
    LookUp(v, p, t, r, "fit-to-page");
    LaterNames(p, t, r, "fit-to-page");
    hide WithParts, CopiesPart, MarginsPart, OrientationPart, CollatePart, ReverseOrderPart, MediaSizePart, DPIPart,
      DuplexPart, ColorPart;
  }

  lemma CollateAndOrderAreSet(v: Options, p: Capable, t: JobTicket, r: Render)
    ensures p.collate && t.collate.Some? ==>
              Find(WithParts(v, p, t, r), "collate") == Some(if t.collate.value then "true" else "false")
    ensures p.reverseOrder && t.reverseOrder.Some? ==>
              Find(WithParts(v, p, t, r), "outputorder") == Some(if t.reverseOrder.value then "reverse" else "normal")
  {
    LookUp(v, p, t, r, "collate");
    LookUp(v, p, t, r, "outputorder");
    LaterNames(p, t, r, "collate");
    assert "outputorder" in map["outputorder" := "normal"];
    hide WithParts, CopiesPart, MarginsPart, OrientationPart, FitToPagePart, MediaSizePart, DPIPart, DuplexPart, ColorPart;
  }

  /** A margin option is missing from all later parts. */
  lemma MarginIsLast(v: Options, p: Capable, t: JobTicket, r: Render, k: string)
    requires 16 <= |k| <= 19 && k in MarginsPart(p, t, r)
    ensures Find(WithParts(v, p, t, r), k) == Some(MarginsPart(p, t, r)[k])
  {
    LookUp(v, p, t, r, k);
    LaterNames(p, t, r, k);
    hide WithParts, CopiesPart, MarginsPart, FitToPagePart, CollatePart, ReverseOrderPart, MediaSizePart, DPIPart,
      OrientationPart, DuplexPart, ColorPart;
  }

  lemma MarginsAre(p: Capable, t: JobTicket, r: Render)
    requires p.margins && t.margins.Some?
    ensures var m := MarginsPart(p, t, r);
            && Find(m, "media-left-margin") == Some(r.points(t.margins.value.left))
            && Find(m, "media-right-margin") == Some(r.points(t.margins.value.right))
            && Find(m, "media-top-margin") == Some(r.points(t.margins.value.top))
            && Find(m, "media-bottom-margin") == Some(r.points(t.margins.value.bottom))
  {
    assert |"media-left-margin"| == 17 && |"media-right-margin"| == 18 && |"media-top-margin"| == 16
        && |"media-bottom-margin"| == 19;
  }

  lemma MarginsAreSet(v: Options, p: Capable, t: JobTicket, r: Render)
    requires p.margins && t.margins.Some?
    ensures var m := WithParts(v, p, t, r);
            && Find(m, "media-left-margin") == Some(r.points(t.margins.value.left))
            && Find(m, "media-right-margin") == Some(r.points(t.margins.value.right))
            && Find(m, "media-top-margin") == Some(r.points(t.margins.value.top))
            && Find(m, "media-bottom-margin") == Some(r.points(t.margins.value.bottom))
  {
    MarginsAre(p, t, r);
    hide WithParts, MarginsPart;
    MarginIsLast(v, p, t, r, "media-left-margin");
    MarginIsLast(v, p, t, r, "media-right-margin");
    MarginIsLast(v, p, t, r, "media-top-margin");
    MarginIsLast(v, p, t, r, "media-bottom-margin");
  }

  /** Attributes that the printer has are set to the ticket's values, whatever vendor items and other sections say. */
  lemma AttributesAreSet(v: Options, p: Capable, t: JobTicket, r: Render)
    ensures var m := WithParts(v, p, t, r);
            && (p.copies && t.copies.Some? ==> Find(m, "copies") == Some(r.decimal(t.copies.value)))
            && (p.orientation && (t.orientation == Some(Portrait) || t.orientation == Some(Landscape)) ==>
                  Find(m, "orientation-requested") == Some(if t.orientation.value == Portrait then "3" else "4"))
            && (p.fitToPage && (t.fitToPage == Some(FitToPage.FitToPage) || t.fitToPage == Some(NoFitting)) ==>
                  Find(m, "fit-to-page") == Some(if t.fitToPage.value == NoFitting then "false" else "true"))
            && (p.collate && t.collate.Some? ==> Find(m, "collate") == Some(if t.collate.value then "true" else "false"))
            && (p.reverseOrder && t.reverseOrder.Some? ==>
                  Find(m, "outputorder") == Some(if t.reverseOrder.value then "reverse" else "normal"))
            && (p.margins && t.margins.Some? ==>
                  && Find(m, "media-left-margin") == Some(r.points(t.margins.value.left))
                  && Find(m, "media-right-margin") == Some(r.points(t.margins.value.right))
                  && Find(m, "media-top-margin") == Some(r.points(t.margins.value.top))
                  && Find(m, "media-bottom-margin") == Some(r.points(t.margins.value.bottom)))
  {
    hide WithParts, Find;
    if p.copies && t.copies.Some? { CopiesAreSet(v, p, t, r); }
    if p.orientation && (t.orientation == Some(Portrait) || t.orientation == Some(Landscape)) { OrientationIsSet(v, p, t, r); }
    if p.fitToPage && (t.fitToPage == Some(FitToPage.FitToPage) || t.fitToPage == Some(NoFitting)) {
      FitToPageIsSet(v, p, t, r);
    }
    if p.margins && t.margins.Some? { MarginsAreSet(v, p, t, r); }
    CollateAndOrderAreSet(v, p, t, r);
  }

  // ---- Every choice is a statement of the PPD ----

  lemma {:induction false} FlattenHas(groups: seq<seq<Statement>>, i: nat, s: Statement)
    requires i < |groups| && s in groups[i]
    ensures s in Flatten(groups)
  {
    var rest := groups[..|groups| - 1];
    if i < |rest| {
      assert rest[i] == groups[i];
      FlattenHas(rest, i, s);
    }
  }

  lemma {:induction false} SelectedAre(statements: seq<Statement>, sink: Sink, s: Statement)
    requires s in Selected(statements, sink)
    ensures s in statements
  {
    var rest := statements[..|statements| - 1];
    if s in Selected(rest, sink) { SelectedAre(rest, sink, s); }
    hide SinkOf;
  }

  /** An option of a UI in the PPD that no applicable constraint excludes. */
  ghost predicate IsOffered(statements: seq<Statement>, rules: Rules, main: string, keyword: string) {
    exists s :: s in statements && IsOfferedBy(s, statements, rules, main, keyword)
  }

  ghost predicate IsOfferedBy(s: Statement, statements: seq<Statement>, rules: Rules, main: string, keyword: string) {
    IsOption(s, main) && s.optionKeyword == keyword && KeyPair(s) !in ExcludedBy(statements, rules)
  }

  lemma OptionIsInGroup(groups: seq<seq<Statement>>, byMain: Entries, k: string, s: Statement) returns (i: nat)
    requires NoneEmpty(groups) && LastEntries(byMain, groups, MainKeywordOf) && k in byMain && s in byMain[k].options
    ensures i < |groups| && s in groups[i] && IsOption(s, k)
  {
    hide IsOption, DefaultOf, OptionsOf;
    i :| IsLast(byMain[k], k, groups, MainKeywordOf, i);
    OptionsAre(groups[i], k, s);
  }

  lemma OptionsAre(g: seq<Statement>, main: string, s: Statement)
    ensures s in OptionsOf(g, main) <==> s in g && IsOption(s, main)
  {
    FilterMembers(IsOptionOf(main), g, s);
  }

  lemma OptionIsOffered(
    statements: seq<Statement>, rules: Rules, groups: seq<seq<Statement>>, byMain: Entries, byTranslation: Entries,
    k: string, s: Statement)
    requires FromStatements(statements, rules, groups, byMain, byTranslation) && k in byMain && s in byMain[k].options
    ensures IsOffered(statements, rules, k, s.optionKeyword)
  {
    hide LastEntries, NoneEmpty, Groups, Flatten, Selected, PpdEntries.Kept, ExcludedBy, IsOption, KeyPair;
    var i := OptionIsInGroup(groups, byMain, k, s);
    var openUIs :| AreFilteredFrom(statements, rules, groups, openUIs);
    KeptMembers(openUIs[i], ExcludedBy(statements, rules), s);
    FlattenHas(openUIs, i, s);
    SelectedAre(statements, OpenUIs, s);
    assert IsOfferedBy(s, statements, rules, k, s.optionKeyword);
  }

  // ---- From the PPD to the job ----

  /** A printer that advertises what its PPD says. */
  predicate Advertises(p: Capable, d: Description) {
    && p.color == d.color && p.dpi == d.dpi && p.mediaSize == d.mediaSize
    && p.duplex == (if d.duplex.Some? then Some(d.duplex.value.0) else None)
    && (d.duplex.Some? ==> p.duplexMap == d.duplex.value.1)
  }

  /** A colour by its ID or by its type alone. */
  ghost predicate AsksColor(t: JobTicket, d: Description) {
    t.color.Some? ==>
      d.color.Some? && exists i :: 0 <= i < |d.color.value| && AsksColorAt(t.color.value, d.color.value[i])
  }

  predicate AsksColorAt(c: ColorTicket, o: ColorOption) { c.vendorID == o.vendorID || (c.vendorID == "" && c.ctype == o.ctype) }

  ghost predicate AsksDuplex(t: JobTicket, d: Description) {
    t.duplex.Some? ==>
      d.duplex.Some? && exists i :: 0 <= i < |d.duplex.value.0| && t.duplex == Some(d.duplex.value.0[i].dtype)
  }

  /** A resolution by its ID or by its numbers alone. */
  ghost predicate AsksDPI(t: JobTicket, d: Description) {
    t.dpi.Some? ==>
      d.dpi.Some? && exists i :: 0 <= i < |d.dpi.value| && AsksDPIAt(t.dpi.value, d.dpi.value[i])
  }

  predicate AsksDPIAt(r: DPITicket, o: DPIOption) {
    r.vendorID == o.vendorID || (r.vendorID == "" && r.horizontal == o.horizontal && r.vertical == o.vertical)
  }

  ghost predicate AsksMediaSize(t: JobTicket, d: Description) {
    t.mediaSize.Some? ==>
      d.mediaSize.Some? && exists i ::
        0 <= i < |d.mediaSize.value| && t.mediaSize.value.vendorID == d.mediaSize.value[i].vendorID
  }

  /** The ticket asks for nothing but what is advertised. */
  ghost predicate AsksForAdvertised(t: JobTicket, d: Description) {
    AsksColor(t, d) && AsksDuplex(t, d) && AsksDPI(t, d) && AsksMediaSize(t, d)
  }

  ghost predicate PlainKeywords(byMain: Entries) { forall k :: k in byMain ==> PlainOptions(byMain[k]) }

  /** A part that sets this option of the entry, if the ticket asks for it, and nothing else. */
  ghost predicate SetsOption(part: Options, asked: bool, e: Option<Entry>, key: string) {
    if !asked then part == map[]
    else e.Some? && exists s :: s in e.value.options && part == map[key := s.optionKeyword]
  }

  function KeyOf(e: Option<Entry>): string { if e.Some? then e.value.mainKeyword else "" }

  lemma ColorSets(p: Capable, t: JobTicket, d: Description, e: Option<Entry>, rules: Rules)
    requires Advertises(p, d) && AsksColor(t, d) && IsColorSection(d.color, e, rules) && (e.Some? ==> PlainOptions(e.value))
    ensures SetsOption(ColorPart(p, t), t.color.Some?, e, KeyOf(e))
  {
    if t.color.Some? {
      var c := d.color.value;
      var i :| 0 <= i < |c| && AsksColorAt(t.color.value, c[i]);
      if t.color.value.vendorID == "" && c[i].vendorID != "" { i := FirstOfTypeIs(c, t.color.value.ctype); }
      var s := ColorIsSound(c, e.value, rules.color, i);
      hide IsColor, Plain, FirstOfType;
      PairOfID(e.value.mainKeyword, s.optionKeyword);
      hide PairPart, VendorID;
    }
  }

  lemma DuplexSets(p: Capable, t: JobTicket, d: Description, e: Option<Entry>)
    requires Advertises(p, d) && AsksDuplex(t, d) && IsDuplexSection(d.duplex, e) && (e.Some? ==> PlainOptions(e.value))
    ensures SetsOption(DuplexPart(p, t), t.duplex.Some?, e, KeyOf(e))
  {
    if t.duplex.Some? {
      var kept, m, dtype := Filter(IsDuplexKeyword(), e.value.options), p.duplexMap, t.duplex.value;
      var i :| 0 <= i < |d.duplex.value.0| && t.duplex == Some(d.duplex.value.0[i].dtype);
      assert DuplexTypeOf(kept[i].optionKeyword) == Some(dtype);
      hide Filter, Plain, DuplexTypeOf, Flagged;
      var k :| IsLastOfType(m[dtype], dtype, kept, e.value.mainKeyword, k);
      FilterAt(IsDuplexKeyword(), e.value.options, k);
      hide IsDuplexMap;
      PairOfID(e.value.mainKeyword, kept[k].optionKeyword);
      hide VendorID, PairPart;
    }
  }

  lemma DPISets(p: Capable, t: JobTicket, d: Description, e: Option<Entry>, rules: Rules)
    requires Advertises(p, d) && AsksDPI(t, d) && IsDPISection(d.dpi, e, rules) && (e.Some? ==> PlainOptions(e.value))
    ensures SetsOption(DPIPart(p, t), t.dpi.Some?, e, RESOLUTION)
  {
    if t.dpi.Some? {
      var o, r := d.dpi.value, t.dpi.value;
      var i :| 0 <= i < |o| && AsksDPIAt(r, o[i]);
      hide Plain, Filter, LastResolution;
      if r.vendorID == "" { DPIIsPlain(o, e.value, rules, i); i := LastResolutionIs(o, r.horizontal, r.vertical); }
      FilterAt(IsResolution(rules.resolution), e.value.options, i);
    }
  }

  lemma DPIIsPlain(o: seq<DPIOption>, e: Entry, rules: Rules, i: nat)
    requires IsDPI(o, e, rules.resolution) && PlainOptions(e) && i < |o|
    ensures o[i].vendorID != ""
  {
    FilterAt(IsResolution(rules.resolution), e.options, i);
    hide Filter;
  }

  lemma MediaSizeSets(p: Capable, t: JobTicket, r: Render, d: Description, e: Option<Entry>, rules: Rules)
    requires Keyed(rules.sizes) && Advertises(p, d) && AsksMediaSize(t, d) && IsMediaSection(d.mediaSize, e, rules)
    requires e.Some? ==> PlainOptions(e.value)
    ensures SetsOption(MediaSizePart(p, t, r), t.mediaSize.Some?, e, PAGE_SIZE)
  {
    if t.mediaSize.Some? {
      var m := d.mediaSize.value;
      var i :| 0 <= i < |m| && t.mediaSize.value.vendorID == m[i].vendorID;
      FilterAt(HasSize(rules.sizes), e.value.options, i);
      hide Filter, Flagged;
      var s := Filter(HasSize(rules.sizes), e.value.options)[i];
      assert s.optionKeyword != "";
    }
  }

  /** The keywords of the sections start with different capitals, and those of attributes with small letters. */
  lemma ColorKey(byMain: Entries)
    requires SoundEntries(byMain, MainKeywordOf) && ColorEntry(byMain).Some?
    ensures var k := KeyOf(ColorEntry(byMain));
            k in byMain && byMain[k] == ColorEntry(byMain).value && k != "" && k[0] in {'C', 'S'}
  {
    hide Sound;
    assert "ColorModel"[0] == 'C' && "CMAndResolution"[0] == 'C' && "SelectColor"[0] == 'S';
  }

  lemma DuplexKey(byMain: Entries)
    requires SoundEntries(byMain, MainKeywordOf) && DuplexEntry(byMain).Some?
    ensures var k := KeyOf(DuplexEntry(byMain));
            k in byMain && byMain[k] == DuplexEntry(byMain).value && k != "" && k[0] in {'D', 'B', 'K'}
  {
    hide Sound;
    assert "Duplex"[0] == 'D' && "BRDuplex"[0] == 'B' && "KMDuplex"[0] == 'K';
  }

  lemma AttributesAreSmall(k: string)
    requires k in ATTRIBUTES
    ensures k != "" && k[0] in {'o', 'c', 'm', 'f'}
  {
  }

  lemma PartAt(part: Options, asked: bool, e: Option<Entry>, key: string, k: string)
    requires SetsOption(part, asked, e, key)
    ensures Find(part, k) == if asked && k == key then Find(part, key) else None
    ensures asked ==> Chosen(part, key, e)
  {
  }

  lemma ChosenToo(part: Options, m: Options, key: string, e: Option<Entry>)
    requires Chosen(part, key, e) && Find(m, key) == Find(part, key)
    ensures Chosen(m, key, e)
  {
  }

  /** The ticket's choices set these options of these entries, under keys that are told apart by their first letters. */
  ghost predicate FourParts(
    p: Capable, t: JobTicket, r: Render, color: Option<Entry>, duplex: Option<Entry>, dpi: Option<Entry>, size: Option<Entry>)
  {
    && SetsOption(ColorPart(p, t), t.color.Some?, color, KeyOf(color))
    && SetsOption(DuplexPart(p, t), t.duplex.Some?, duplex, KeyOf(duplex))
    && SetsOption(DPIPart(p, t), t.dpi.Some?, dpi, RESOLUTION)
    && SetsOption(MediaSizePart(p, t, r), t.mediaSize.Some?, size, PAGE_SIZE)
    && (color.Some? ==> KeyOf(color) != "" && KeyOf(color)[0] in {'C', 'S'})
    && (duplex.Some? ==> KeyOf(duplex) != "" && KeyOf(duplex)[0] in {'D', 'B', 'K'})
  }

  lemma KeysAreApart(
    p: Capable, t: JobTicket, r: Render, color: Option<Entry>, duplex: Option<Entry>, dpi: Option<Entry>, size: Option<Entry>)
    requires FourParts(p, t, r, color, duplex, dpi, size)
    ensures t.color.Some? ==> KeyOf(color) != RESOLUTION && KeyOf(color) != PAGE_SIZE
    ensures t.duplex.Some? ==> KeyOf(duplex) != RESOLUTION && KeyOf(duplex) != PAGE_SIZE
    ensures t.color.Some? && t.duplex.Some? ==> KeyOf(color) != KeyOf(duplex)
    ensures RESOLUTION != PAGE_SIZE
  {
    assert RESOLUTION[0] == 'R' && PAGE_SIZE[0] == 'P';
    hide ColorPart, DuplexPart, DPIPart, MediaSizePart;
  }

  /** One of four parts at most says something. */
  lemma OneOfFour(
    color: Option<string>, duplex: Option<string>, dpi: Option<string>, size: Option<string>, v: Option<string>,
    isColor: bool, isDuplex: bool, isDPI: bool, isSize: bool)
    requires (isColor <==> color.Some?) && (isDuplex <==> duplex.Some?) && (isDPI <==> dpi.Some?) && (isSize <==> size.Some?)
    requires !(isColor && isDuplex) && !(isColor && isDPI) && !(isColor && isSize)
    requires !(isDuplex && isDPI) && !(isDuplex && isSize) && !(isDPI && isSize)
    ensures Or(size, Or(dpi, Or(duplex, Or(color, v)))) ==
            if isColor then color else if isDuplex then duplex else if isDPI then dpi else if isSize then size else v
  {
  }

  /** The value of any option that is no attribute. */
  lemma FourPartsAt(
    v: Options, p: Capable, t: JobTicket, r: Render, color: Option<Entry>, duplex: Option<Entry>, dpi: Option<Entry>,
    size: Option<Entry>, k: string)
    requires FourParts(p, t, r, color, duplex, dpi, size) && k !in ATTRIBUTES
    ensures Find(WithParts(v, p, t, r), k) ==
            if t.color.Some? && k == KeyOf(color) then Find(ColorPart(p, t), k)
            else if t.duplex.Some? && k == KeyOf(duplex) then Find(DuplexPart(p, t), k)
            else if t.dpi.Some? && k == RESOLUTION then Find(DPIPart(p, t), k)
            else if t.mediaSize.Some? && k == PAGE_SIZE then Find(MediaSizePart(p, t, r), k)
            else Find(v, k)
  {
    ChosenHere(p, t, r, color, duplex, dpi, size);
    hide ColorPart, DuplexPart, DPIPart, MediaSizePart, SetsOption;
    PartAt(ColorPart(p, t), t.color.Some?, color, KeyOf(color), k);
    PartAt(DuplexPart(p, t), t.duplex.Some?, duplex, KeyOf(duplex), k);
    PartAt(DPIPart(p, t), t.dpi.Some?, dpi, RESOLUTION, k);
    PartAt(MediaSizePart(p, t, r), t.mediaSize.Some?, size, PAGE_SIZE, k);
    hide *;
    ValueOf(v, p, t, r, k);
    KeysAreApart(p, t, r, color, duplex, dpi, size);
    OneOfFour(Find(ColorPart(p, t), k), Find(DuplexPart(p, t), k), Find(DPIPart(p, t), k), Find(MediaSizePart(p, t, r), k),
              Find(v, k), t.color.Some? && k == KeyOf(color), t.duplex.Some? && k == KeyOf(duplex),
              t.dpi.Some? && k == RESOLUTION, t.mediaSize.Some? && k == PAGE_SIZE);
  }

  lemma ChosenHere(
    p: Capable, t: JobTicket, r: Render, color: Option<Entry>, duplex: Option<Entry>, dpi: Option<Entry>, size: Option<Entry>)
    requires FourParts(p, t, r, color, duplex, dpi, size)
    ensures t.color.Some? ==> Find(ColorPart(p, t), KeyOf(color)).Some? && color.Some?
    ensures t.duplex.Some? ==> Find(DuplexPart(p, t), KeyOf(duplex)).Some? && duplex.Some?
    ensures t.dpi.Some? ==> Find(DPIPart(p, t), RESOLUTION).Some?
    ensures t.mediaSize.Some? ==> Find(MediaSizePart(p, t, r), PAGE_SIZE).Some?
  {
    hide ColorPart, DuplexPart, DPIPart, MediaSizePart;
  }

  lemma ColorIsChosen(
    v: Options, p: Capable, t: JobTicket, r: Render, color: Option<Entry>, duplex: Option<Entry>, dpi: Option<Entry>,
    size: Option<Entry>)
    requires FourParts(p, t, r, color, duplex, dpi, size) && t.color.Some?
    ensures Chosen(WithParts(v, p, t, r), KeyOf(color), color)
  {
    NotAttribute(KeyOf(color));
    ChosenHere(p, t, r, color, duplex, dpi, size);
    assert SetsOption(ColorPart(p, t), true, color, KeyOf(color));
    hide *;
    KeysAreApart(p, t, r, color, duplex, dpi, size);
    PartAt(ColorPart(p, t), true, color, KeyOf(color), KeyOf(color));
    FourPartsAt(v, p, t, r, color, duplex, dpi, size, KeyOf(color));
    ChosenToo(ColorPart(p, t), WithParts(v, p, t, r), KeyOf(color), color);
  }

  lemma DuplexIsChosen(
    v: Options, p: Capable, t: JobTicket, r: Render, color: Option<Entry>, duplex: Option<Entry>, dpi: Option<Entry>,
    size: Option<Entry>)
    requires FourParts(p, t, r, color, duplex, dpi, size) && t.duplex.Some?
    ensures Chosen(WithParts(v, p, t, r), KeyOf(duplex), duplex)
  {
    NotAttribute(KeyOf(duplex));
    ChosenHere(p, t, r, color, duplex, dpi, size);
    assert SetsOption(DuplexPart(p, t), true, duplex, KeyOf(duplex));
    hide *;
    KeysAreApart(p, t, r, color, duplex, dpi, size);
    PartAt(DuplexPart(p, t), true, duplex, KeyOf(duplex), KeyOf(duplex));
    FourPartsAt(v, p, t, r, color, duplex, dpi, size, KeyOf(duplex));
    ChosenToo(DuplexPart(p, t), WithParts(v, p, t, r), KeyOf(duplex), duplex);
  }

  lemma DPIIsChosen(
    v: Options, p: Capable, t: JobTicket, r: Render, color: Option<Entry>, duplex: Option<Entry>, dpi: Option<Entry>,
    size: Option<Entry>)
    requires FourParts(p, t, r, color, duplex, dpi, size) && t.dpi.Some?
    ensures Chosen(WithParts(v, p, t, r), RESOLUTION, dpi)
  {
    assert RESOLUTION[0] == 'R';
    NotAttribute(RESOLUTION);
    ChosenHere(p, t, r, color, duplex, dpi, size);
    assert SetsOption(DPIPart(p, t), true, dpi, RESOLUTION);
    hide *;
    KeysAreApart(p, t, r, color, duplex, dpi, size);
    PartAt(DPIPart(p, t), true, dpi, RESOLUTION, RESOLUTION);
    FourPartsAt(v, p, t, r, color, duplex, dpi, size, RESOLUTION);
    ChosenToo(DPIPart(p, t), WithParts(v, p, t, r), RESOLUTION, dpi);
  }

  lemma MediaSizeIsChosen(
    v: Options, p: Capable, t: JobTicket, r: Render, color: Option<Entry>, duplex: Option<Entry>, dpi: Option<Entry>,
    size: Option<Entry>)
    requires FourParts(p, t, r, color, duplex, dpi, size) && t.mediaSize.Some?
    ensures Chosen(WithParts(v, p, t, r), PAGE_SIZE, size)
  {
    assert PAGE_SIZE[0] == 'P';
    NotAttribute(PAGE_SIZE);
    ChosenHere(p, t, r, color, duplex, dpi, size);
    assert SetsOption(MediaSizePart(p, t, r), true, size, PAGE_SIZE);
    hide *;
    KeysAreApart(p, t, r, color, duplex, dpi, size);
    PartAt(MediaSizePart(p, t, r), true, size, PAGE_SIZE, PAGE_SIZE);
    FourPartsAt(v, p, t, r, color, duplex, dpi, size, PAGE_SIZE);
    ChosenToo(MediaSizePart(p, t, r), WithParts(v, p, t, r), PAGE_SIZE, size);
  }

  lemma NotAttribute(k: string)
    requires k != "" && k[0] !in {'o', 'c', 'm', 'f'}
    ensures k !in ATTRIBUTES
  {
    if k in ATTRIBUTES { AttributesAreSmall(k); }
  }

  /** The key of a section that the ticket asks for. */
  predicate IsAskedFor(t: JobTicket, color: Option<Entry>, duplex: Option<Entry>, k: string) {
    || (t.color.Some? && k == KeyOf(color)) || (t.duplex.Some? && k == KeyOf(duplex))
    || (t.dpi.Some? && k == RESOLUTION) || (t.mediaSize.Some? && k == PAGE_SIZE)
  }

  /** The job option is one of the entry's. */
  ghost predicate Chosen(m: Options, key: string, e: Option<Entry>) {
    e.Some? && key in m && exists s :: s in e.value.options && m[key] == s.optionKeyword
  }

  lemma ChosenIsOffered(
    statements: seq<Statement>, rules: Rules, groups: seq<seq<Statement>>, byMain: Entries, byTranslation: Entries,
        m: Options, k: string)
    requires FromStatements(statements, rules, groups, byMain, byTranslation)
    requires k in byMain && Chosen(m, k, Some(byMain[k]))
    ensures IsOffered(statements, rules, k, m[k])
  {
    var s :| s in byMain[k].options && m[k] == s.optionKeyword;
    OptionIsOffered(statements, rules, groups, byMain, byTranslation, k, s);
    hide *;
  }

  /** Everything that the ticket asks for is set to an option of the right UI of the PPD. */
  ghost predicate AllOffered(statements: seq<Statement>, rules: Rules, byMain: Entries, t: JobTicket, m: Options) {
    && (t.color.Some? ==> IsOfferedIn(m, statements, rules, KeyOf(ColorEntry(byMain))))
    && (t.duplex.Some? ==> IsOfferedIn(m, statements, rules, KeyOf(DuplexEntry(byMain))))
    && (t.dpi.Some? ==> IsOfferedIn(m, statements, rules, RESOLUTION))
    && (t.mediaSize.Some? ==> IsOfferedIn(m, statements, rules, PAGE_SIZE))
  }

  ghost predicate IsOfferedIn(m: Options, statements: seq<Statement>, rules: Rules, key: string) {
    key in m && IsOffered(statements, rules, key, m[key])
  }

  /** All options but those keys and the attributes are as they were. */
  ghost predicate OthersStay(v: Options, m: Options, byMain: Entries, t: JobTicket) {
    forall k :: k !in ATTRIBUTES && !IsAskedFor(t, ColorEntry(byMain), DuplexEntry(byMain), k) ==> Find(m, k) == Find(v, k)
  }

  /**
   * From the PPD to the job: whatever a ticket asks for at once, of the colours, duplex types, resolutions and media sizes
   * that the translation of a PPD advertises, by their IDs or by type and numbers alone, each becomes an option of
   * the right UI that stands in the PPD and that no applicable constraint excludes; and all other job options but the
   * attributes are those of the vendor items.
   */
  lemma ChoicesAreInThePpd(
    statements: seq<Statement>, rules: Rules, groups: seq<seq<Statement>>, byMain: Entries, byTranslation: Entries,
    vendorOptions: seq<string>, d: Description, v: Options, p: Capable, t: JobTicket, r: Render)
    requires FromStatements(statements, rules, groups, byMain, byTranslation) && Keyed(rules.sizes)
    requires SoundEntries(byMain, MainKeywordOf) && PlainKeywords(byMain)
    requires Describes(d, byMain, byTranslation, vendorOptions, rules) && Advertises(p, d) && AsksForAdvertised(t, d)
    ensures AllOffered(statements, rules, byMain, t, WithParts(v, p, t, r))
    ensures OthersStay(v, WithParts(v, p, t, r), byMain, t)
  {
    hide *;
    PartsOfDescription(byMain, byTranslation, vendorOptions, rules, d, p, t, r);
    PartsAreOffered(statements, rules, groups, byMain, byTranslation, v, p, t, r);
    PartsLeaveOthers(v, p, t, r, byMain);
  }

  lemma PartsAreOffered(
    statements: seq<Statement>, rules: Rules, groups: seq<seq<Statement>>, byMain: Entries, byTranslation: Entries,
    v: Options, p: Capable, t: JobTicket, r: Render)
    requires FromStatements(statements, rules, groups, byMain, byTranslation) && SoundEntries(byMain, MainKeywordOf)
    requires FourParts(p, t, r, ColorEntry(byMain), DuplexEntry(byMain), Get(byMain, RESOLUTION), Get(byMain, PAGE_SIZE))
    ensures AllOffered(statements, rules, byMain, t, WithParts(v, p, t, r))
  {
    var color, duplex, dpi, size := ColorEntry(byMain), DuplexEntry(byMain), Get(byMain, RESOLUTION), Get(byMain, PAGE_SIZE);
    hide ColorEntry, DuplexEntry, SoundEntries, FromStatements, WithParts, IsOfferedIn, Chosen, FourParts;
    if t.color.Some? {
      if color.Some? { ColorKey(byMain); }
      ColorIsChosen(v, p, t, r, color, duplex, dpi, size);
      SectionIsOffered(statements, rules, groups, byMain, byTranslation, WithParts(v, p, t, r), KeyOf(color), color);
    }
    if t.duplex.Some? {
      if duplex.Some? { DuplexKey(byMain); }
      DuplexIsChosen(v, p, t, r, color, duplex, dpi, size);
      SectionIsOffered(statements, rules, groups, byMain, byTranslation, WithParts(v, p, t, r), KeyOf(duplex), duplex);
    }
    if t.dpi.Some? {
      DPIIsChosen(v, p, t, r, color, duplex, dpi, size);
      SectionIsOffered(statements, rules, groups, byMain, byTranslation, WithParts(v, p, t, r), RESOLUTION, dpi);
    }
    if t.mediaSize.Some? {
      MediaSizeIsChosen(v, p, t, r, color, duplex, dpi, size);
      SectionIsOffered(statements, rules, groups, byMain, byTranslation, WithParts(v, p, t, r), PAGE_SIZE, size);
    }
  }

  lemma PartsLeaveOthers(v: Options, p: Capable, t: JobTicket, r: Render, byMain: Entries)
    requires FourParts(p, t, r, ColorEntry(byMain), DuplexEntry(byMain), Get(byMain, RESOLUTION), Get(byMain, PAGE_SIZE))
    ensures OthersStay(v, WithParts(v, p, t, r), byMain, t)
  {
    hide ColorEntry, DuplexEntry, WithParts, FourParts, Find, Get;
    forall k | k !in ATTRIBUTES && !IsAskedFor(t, ColorEntry(byMain), DuplexEntry(byMain), k)
      ensures Find(WithParts(v, p, t, r), k) == Find(v, k)
    {
      FourPartsAt(v, p, t, r, ColorEntry(byMain), DuplexEntry(byMain), Get(byMain, RESOLUTION), Get(byMain, PAGE_SIZE), k);
    }
  }

  lemma PartsOfDescription(
    byMain: Entries, byTranslation: Entries, vendorOptions: seq<string>, rules: Rules, d: Description, p: Capable, t: JobTicket,
    r: Render)
    requires Keyed(rules.sizes) && SoundEntries(byMain, MainKeywordOf) && PlainKeywords(byMain)
    requires Describes(d, byMain, byTranslation, vendorOptions, rules) && Advertises(p, d) && AsksForAdvertised(t, d)
    ensures FourParts(p, t, r, ColorEntry(byMain), DuplexEntry(byMain), Get(byMain, RESOLUTION), Get(byMain, PAGE_SIZE))
  {
    var color, duplex, dpi, size := ColorEntry(byMain), DuplexEntry(byMain), Get(byMain, RESOLUTION), Get(byMain, PAGE_SIZE);
    if color.Some? { ColorKey(byMain); }
    if duplex.Some? { DuplexKey(byMain); }
    hide ColorEntry, DuplexEntry, SoundEntries, PlainOptions, ColorPart, DuplexPart, DPIPart, MediaSizePart, SetsOption, Keyed,
      IsMediaSection, IsColorSection, IsDPISection, IsDuplexSection, IsVendorSection, AsksColor, AsksDuplex, AsksDPI,
          AsksMediaSize;
    ColorSets(p, t, d, color, rules);
    DuplexSets(p, t, d, duplex);
    DPISets(p, t, d, dpi, rules);
    MediaSizeSets(p, t, r, d, size, rules);
  }

  lemma SectionIsOffered(
    statements: seq<Statement>, rules: Rules, groups: seq<seq<Statement>>, byMain: Entries, byTranslation: Entries, m: Options,
    k: string, e: Option<Entry>)
    requires FromStatements(statements, rules, groups, byMain, byTranslation)
    requires Chosen(m, k, e) && (e.Some? ==> k in byMain && byMain[k] == e.value)
    ensures IsOfferedIn(m, statements, rules, k)
  {
    ChosenHas(m, k, e);
    hide Chosen, FromStatements, IsOffered;
    ChosenIsOffered(statements, rules, groups, byMain, byTranslation, m, k);
  }

  lemma ChosenHas(m: Options, key: string, e: Option<Entry>)
    requires Chosen(m, key, e)
    ensures e.Some? && key in m
  {
  }
}
