/**
 * Across the two translators: what a printer advertises, a ticket can ask for (cups/translate-ppd.go and
 * cups/translate-ticket.go).
 */
module TicketRoundTrip {
  import opened Cdd
  import opened Collections
  import opened Ppd
  import opened PpdEntries
  import opened Capabilities
  import opened Ticket

  /** A PPD keyword: what the separators and the pattern for values rely on. */
  predicate Plain(k: string) { k != "" && !Has(k, ':') && !Has(k, '/') && !Has(k, '\n') }

  predicate PlainOptions(e: Entry) {
    Plain(e.mainKeyword) && forall s :: s in e.options ==> Plain(s.optionKeyword)
  }

  lemma AddNothing(v: Options)
    ensures v + map[] == v && map[] + v == v
  {
  }

  lemma NoParts(v: Options, p: Capable, t: JobTicket, r: Render)
    requires t == EMPTY.(vendor := t.vendor)
    ensures WithParts(v, p, t, r) == v
  {
    AddNothing(v);
  }

  lemma OnlyPart(p: Capable, t: JobTicket, r: Render)
    requires t == EMPTY.(color := t.color, duplex := t.duplex, dpi := t.dpi, mediaSize := t.mediaSize)
    requires t.color.None? || (t.duplex.None? && t.dpi.None? && t.mediaSize.None?)
    requires t.duplex.None? || (t.dpi.None? && t.mediaSize.None?)
    requires t.dpi.None? || t.mediaSize.None?
    ensures Translation(p, t, r) ==
      Some(if t.color.Some? then ColorPart(p, t)
           else if t.duplex.Some? then DuplexPart(p, t)
           else if t.dpi.Some? then DPIPart(p, t)
           else MediaSizePart(p, t, r))
  {
    assert VendorOptions(t.vendor) == Some(map[]);
    AddNothing(map[]);
    AddNothing(ColorPart(p, t));
    AddNothing(DuplexPart(p, t));
    AddNothing(DPIPart(p, t));
    AddNothing(MediaSizePart(p, t, r));
    hide Match, FirstOfType, LastResolution, PairPart, VendorOptions;
  }

  lemma PairOfID(mainKeyword: string, optionKeyword: string)
    requires Plain(mainKeyword) && Plain(optionKeyword)
    ensures PairPart(VendorID(mainKeyword, optionKeyword)) == map[mainKeyword := optionKeyword]
    ensures VendorID(mainKeyword, optionKeyword) != ""
  {
    MatchOfPair(mainKeyword, optionKeyword);
  }

  // ---- Colour ----

  /** A ticket with an advertised colour ID sets the entry's keyword to one of its options, and nothing else. */
  lemma ColorRoundTrip(
    c: seq<ColorOption>, e: Entry, rules: ColorRules, i: nat, p: Capable, t: JobTicket, r: Render) returns (s: Statement)
    requires IsColor(c, e, rules) && PlainOptions(e) && i < |c| && p.color == Some(c)
    requires t == EMPTY.(color := t.color) && t.color.Some? && t.color.value.vendorID == c[i].vendorID
    ensures s in e.options && c[i].vendorID == VendorID(e.mainKeyword, s.optionKeyword)
    ensures Translation(p, t, r) == Some(map[e.mainKeyword := s.optionKeyword])
  {
    s := ColorIsSound(c, e, rules, i);
    hide IsColor, Plain;
    PairOfID(e.mainKeyword, s.optionKeyword);
    OnlyPart(p, t, r);
    hide Translation, VendorID, PairPart;
  }

  /** And every option of the entry can be asked for. */
  lemma EveryColorCanBeChosen(
    c: seq<ColorOption>, e: Entry, rules: ColorRules, s: Statement, p: Capable, r: Render) returns (i: nat)
    requires IsColor(c, e, rules) && PlainOptions(e) && s in e.options && p.color == Some(c)
    ensures i < |c|
    ensures Translation(p, EMPTY.(color := Some(ColorTicket(c[i].vendorID, c[i].ctype))), r)
            == Some(map[e.mainKeyword := s.optionKeyword])
  {
    i := ColorIsComplete(c, e, rules, s);
    hide IsColor;
    var s' := ColorRoundTrip(c, e, rules, i, p, EMPTY.(color := Some(ColorTicket(c[i].vendorID, c[i].ctype))), r);
    VendorIDIsInjective(e.mainKeyword, s.optionKeyword, s'.optionKeyword);
    hide Translation, VendorID;
  }

  lemma {:induction false} FirstOfTypeIs(c: seq<ColorOption>, t: ColorType) returns (i: nat)
    requires exists k :: 0 <= k < |c| && c[k].ctype == t
    ensures i < |c| && c[i].ctype == t && FirstOfType(c, t) == c[i].vendorID
    ensures forall k :: 0 <= k < i ==> c[k].ctype != t
  {
    if c[0].ctype == t {
      i := 0;
    } else {
      var k :| 0 <= k < |c| && c[k].ctype == t;
      assert c[1..][k - 1] == c[k];
      i := FirstOfTypeIs(c[1..], t);
      i := i + 1;
    }
  }

  /** A ticket with a type only gets the first colour of that type. */
  lemma ColorByType(
    c: seq<ColorOption>, e: Entry, rules: ColorRules, i: nat, p: Capable, t: JobTicket, r: Render)
    returns (first: nat, s: Statement)
    requires IsColor(c, e, rules) && PlainOptions(e) && i < |c| && p.color == Some(c)
    requires t == EMPTY.(color := Some(ColorTicket("", c[i].ctype)))
    ensures first <= i && c[first].ctype == c[i].ctype && forall k :: 0 <= k < first ==> c[k].ctype != c[i].ctype
    ensures s in e.options && c[first].vendorID == VendorID(e.mainKeyword, s.optionKeyword)
    ensures Translation(p, t, r) == Some(map[e.mainKeyword := s.optionKeyword])
  {
    first := FirstOfTypeIs(c, c[i].ctype);
    s := ColorIsSound(c, e, rules, first);
    hide IsColor, Plain, FirstOfType;
    PairOfID(e.mainKeyword, s.optionKeyword);
    OnlyPart(p, t, r);
    hide Translation, VendorID, PairPart;
  }

  // ---- Resolution ----

  lemma DPIRoundTrip(
    d: seq<DPIOption>, e: Entry, parse: ResolutionParser, i: nat, p: Capable, t: JobTicket, r: Render) returns (s: Statement)
    requires IsDPI(d, e, parse) && PlainOptions(e) && i < |d| && p.dpi == Some(d)
    requires t == EMPTY.(dpi := Some(DPITicket(d[i].horizontal, d[i].vertical, d[i].vendorID)))
    ensures s in e.options && parse(s.optionKeyword) == Some((d[i].horizontal, d[i].vertical))
    ensures d[i].vendorID == s.optionKeyword && d[i].name == s.translation
    ensures Translation(p, t, r) == Some(map["Resolution" := s.optionKeyword])
  {
    FilterAt(IsResolution(parse), e.options, i);
    s := Filter(IsResolution(parse), e.options)[i];
    assert s.optionKeyword != "";
    hide Filter, Plain;
    OnlyPart(p, t, r);
    hide Translation, LastResolution;
  }

  lemma {:induction false} LastResolutionIs(d: seq<DPIOption>, h: int, v: int) returns (i: nat)
    requires exists k :: 0 <= k < |d| && d[k].horizontal == h && d[k].vertical == v
    ensures i < |d| && d[i].horizontal == h && d[i].vertical == v && LastResolution(d, h, v) == Some(d[i].vendorID)
    ensures forall k :: i < k < |d| ==> !(d[k].horizontal == h && d[k].vertical == v)
  {
    var last := |d| - 1;
    if d[last].horizontal == h && d[last].vertical == v {
      i := last;
    } else {
      var k :| 0 <= k < |d| && d[k].horizontal == h && d[k].vertical == v;
      assert d[..last][k] == d[k];
      i := LastResolutionIs(d[..last], h, v);
    }
  }

  /** Without an ID, an advertised resolution still gets an option with the same numbers, the last one. */
  lemma DPIByNumbers(
    d: seq<DPIOption>, e: Entry, parse: ResolutionParser, i: nat, p: Capable, t: JobTicket, r: Render)
    returns (s: Statement, last: nat)
    requires IsDPI(d, e, parse) && i < |d| && p.dpi == Some(d)
    requires t == EMPTY.(dpi := Some(DPITicket(d[i].horizontal, d[i].vertical, "")))
    ensures i <= last < |d| && d[last].vendorID == s.optionKeyword
    ensures forall k :: last < k < |d| ==> !(d[k].horizontal == d[i].horizontal && d[k].vertical == d[i].vertical)
    ensures s in e.options && parse(s.optionKeyword) == Some((d[i].horizontal, d[i].vertical))
    ensures Translation(p, t, r) == Some(map["Resolution" := s.optionKeyword])
  {
    last := LastResolutionIs(d, d[i].horizontal, d[i].vertical);
    FilterAt(IsResolution(parse), e.options, last);
    s := Filter(IsResolution(parse), e.options)[last];
    hide Filter, LastResolution;
    OnlyPart(p, t, r);
    hide Translation;
  }

  // ---- Media size ----

  lemma MediaSizeRoundTrip(
    m: seq<MediaSizeOption>, e: Entry, sizes: MediaSizes, i: nat, p: Capable, t: JobTicket, r: Render) returns (s: Statement)
    requires Keyed(sizes) && IsMediaSize(m, e, sizes) && PlainOptions(e) && i < |m| && p.mediaSize == Some(m)
    requires t == EMPTY.(mediaSize := Some(MediaSizeTicket(m[i].width, m[i].height, m[i].vendorID)))
    ensures s in e.options && sizes(s.optionKeyword, s.translation) == Some(m[i].(isDefault := false))
    ensures Translation(p, t, r) == Some(map["PageSize" := s.optionKeyword])
  {
    FilterAt(HasSize(sizes), e.options, i);
    s := Filter(HasSize(sizes), e.options)[i];
    assert s.optionKeyword != "";
    hide Filter, Plain, Flagged;
    OnlyPart(p, t, r);
    hide Translation;
  }

  /** Without an ID, a media size is passed on as a custom size, its width first. */
  lemma CustomMediaSize(w: int, h: int, p: Capable, r: Render)
    requires p.mediaSize.Some?
    ensures Translation(p, EMPTY.(mediaSize := Some(MediaSizeTicket(w, h, ""))), r)
            == Some(map["PageSize" := "Custom." + r.points(w) + "x" + r.points(h)])
  {
    OnlyPart(p, EMPTY.(mediaSize := Some(MediaSizeTicket(w, h, ""))), r);
    hide Translation;
  }

  /** The ticket without the sections that the printer lacks, and without values that have no native counterpart. */
  function Understood(p: Capable, t: JobTicket): JobTicket {
    JobTicket(
      t.vendor, if p.color.Some? then t.color else None, if p.duplex.Some? then t.duplex else None,
      if p.orientation && t.orientation != Some(AutoOrientation) then t.orientation else None,
      if p.copies then t.copies else None, if p.margins then t.margins else None, if p.dpi.Some? then t.dpi else None,
      if p.fitToPage && t.fitToPage != Some(OtherFitting) then t.fitToPage else None,
      if p.mediaSize.Some? then t.mediaSize else None, if p.collate then t.collate else None,
      if p.reverseOrder then t.reverseOrder else None)
  }

  lemma SectionsAgree(p: Capable, t: JobTicket, r: Render)
    ensures ColorPart(p, t) == ColorPart(p, Understood(p, t)) && DuplexPart(p, t) == DuplexPart(p, Understood(p, t))
    ensures DPIPart(p, t) == DPIPart(p, Understood(p, t)) && MediaSizePart(p, t, r) == MediaSizePart(p, Understood(p, t), r)
  {
    hide PairPart, ColorString, LastResolution;
  }

  lemma AttributesAgree(p: Capable, t: JobTicket, r: Render)
    ensures OrientationPart(p, t) == OrientationPart(p, Understood(p, t))
    ensures CopiesPart(p, t, r) == CopiesPart(p, Understood(p, t), r)
    ensures FitToPagePart(p, t) == FitToPagePart(p, Understood(p, t))
  {
  }

  lemma LayoutAgrees(p: Capable, t: JobTicket, r: Render)
    ensures MarginsPart(p, t, r) == MarginsPart(p, Understood(p, t), r)
    ensures CollatePart(p, t) == CollatePart(p, Understood(p, t))
    ensures ReverseOrderPart(p, t) == ReverseOrderPart(p, Understood(p, t))
  {
  }

  /** What the printer lacks is ignored. */
  lemma UnsupportedIsIgnored(p: Capable, t: JobTicket, r: Render)
    ensures Translation(p, t, r) == Translation(p, Understood(p, t), r)
  {
    SectionsAgree(p, t, r);
    AttributesAgree(p, t, r);
    LayoutAgrees(p, t, r);
    hide ColorPart, DuplexPart, OrientationPart, CopiesPart, MarginsPart, DPIPart, FitToPagePart, MediaSizePart, CollatePart,
      ReverseOrderPart, VendorOptions;
  }

  // ---- Duplex ----

  /** Every advertised duplex type leads to an option whose keyword means that type. */
  lemma DuplexRoundTrip(
    d: seq<DuplexOption>, e: Entry, i: nat, p: Capable, t: JobTicket, r: Render) returns (s: Statement)
    requires p.duplex == Some(d) && IsDuplex(d, p.duplexMap, e) && PlainOptions(e) && i < |d|
    requires t == EMPTY.(duplex := Some(d[i].dtype))
    ensures s in e.options
    ensures d[i].dtype == NoDuplex ==> MeansNoDuplex(s.optionKeyword)
    ensures d[i].dtype == LongEdge ==> MeansLongEdge(s.optionKeyword)
    ensures d[i].dtype == ShortEdge ==> MeansShortEdge(s.optionKeyword)
    ensures Translation(p, t, r) == Some(map[e.mainKeyword := s.optionKeyword])
  {
    var kept, m := Filter(IsDuplexKeyword(), e.options), p.duplexMap;
    assert DuplexTypeOf(kept[i].optionKeyword) == Some(d[i].dtype);
    hide Filter, Plain, DuplexTypeOf, Flagged;
    var k :| IsLastOfType(m[d[i].dtype], d[i].dtype, kept, e.mainKeyword, k);
    FilterAt(IsDuplexKeyword(), e.options, k);
    s := kept[k];
    DuplexTypeMeans(s.optionKeyword, d[i].dtype);
    hide IsDuplexMap;
    PairOfID(e.mainKeyword, s.optionKeyword);
    OnlyPart(p, t, r);
    hide Translation, VendorID, PairPart;
  }

  // ---- Vendor capabilities ----

  lemma OneItem(id: string, value: string, p: Capable, r: Render)
    ensures Translation(p, EMPTY.(vendor := [VendorItem(id, value)]), r) ==
      if id == RICOH_PASSWORD && value == "" then Some(map[])
      else if id == RICOH_PASSWORD && !IsPassword(value) then None
      else Some(SetOptions(map[], Split(id), value))
  {
    var items := [VendorItem(id, value)];
    assert items[..0] == [] && items[..1] == items;
    assert VendorOptions([]) == Some(map[]);
    VendorOptionsNext(items, 0);
    hide SetOptions, Split, IsPassword, Match, VendorOptions, WithParts;
    var t := EMPTY.(vendor := items);
    if VendorOptions(items).Some? { NoParts(VendorOptions(items).value, p, t, r); }
  }

  /** A ticket with a value for a select capability sets the entry's keyword to it. */
  lemma SelectRoundTrip(c: seq<SelectOption>, e: Entry, i: nat, p: Capable, r: Render)
    requires IsSelect(c, e) && i < |c| && Plain(e.mainKeyword)
    ensures c[i].value == e.options[i].optionKeyword && c[i].name == e.options[i].translation
    ensures Translation(p, EMPTY.(vendor := [VendorItem(e.mainKeyword, c[i].value)]), r)
            == Some(map[e.mainKeyword := c[i].value])
  {
    var settings := [Given(e.mainKeyword)];
    assert settings[..0] == [] && Texts(settings[..0]) == [] && Texts(settings) == [e.mainKeyword];
    VendorIDRoundTrip(map[], settings, c[i].value);
    assert Has(RICOH_PASSWORD, ':') by { assert RICOH_PASSWORD[|JOB_TYPE|] == ':'; }
    OneItem(e.mainKeyword, c[i].value, p, r);
    hide Translation, SetOptions, Split, Plain, IsPassword;
  }

  /** The Ricoh password: it locks the print, an empty one asks for nothing, any other text is an error. */
  lemma PasswordRoundTrip(value: string, p: Capable, r: Render)
    ensures Translation(p, EMPTY.(vendor := [VendorItem("JobType:LockedPrint/LockedPrintPassword", value)]), r) ==
      if value == "" then Some(map[])
      else if |value| == 4 && forall i :: 0 <= i < 4 ==> '0' <= value[i] <= '9'
      then Some(map["JobType" := "LockedPrint", "LockedPrintPassword" := value])
      else None
  {
    RicohIs();
    assert IsPassword(value) <==> |value| == 4 && forall i :: 0 <= i < 4 ==> '0' <= value[i] <= '9';
    RicohSettings(value);
    OneItem(RICOH_PASSWORD, value, p, r);
    hide Translation, SetOptions, Split, IsPassword;
  }

  predicate AllLetters(s: string) { forall i :: 0 <= i < |s| ==> 'A' <= s[i] <= 'z' }

  lemma LettersArePlain(s: string)
    requires AllLetters(s) && s != ""
    ensures Plain(s)
  {
  }

  lemma JobTypeIsPlain()
    ensures Plain(JOB_TYPE)
  {
    assert AllLetters(JOB_TYPE);
    LettersArePlain(JOB_TYPE);
    hide Plain, AllLetters;
  }

  lemma LockedPrintIsPlain()
    ensures Plain(LOCKED_PRINT)
  {
    assert AllLetters(LOCKED_PRINT);
    LettersArePlain(LOCKED_PRINT);
    hide Plain, AllLetters;
  }

  lemma LockedPrintPasswordIsPlain()
    ensures Plain(LOCKED_PRINT_PASSWORD)
  {
    assert AllLetters(LOCKED_PRINT_PASSWORD);
    LettersArePlain(LOCKED_PRINT_PASSWORD);
    hide Plain, AllLetters;
  }

  lemma TwoPlain(a: string, b: string, c: string, value: string)
    requires Plain(a) && Plain(b) && Plain(c)
    ensures SetOptions(map[], Split(VendorID(a, b) + "/" + c), value) == map[a := b, c := value]
  {
    var settings := [Fixed(a, b), Given(c)];
    TwoSettings(settings[0], settings[1], value);
    VendorIDRoundTrip(map[], settings, value);
    hide SetOptions, Split, Texts, Join, Apply, Has, VendorID;
  }

  lemma RicohSettings(value: string)
    ensures SetOptions(map[], Split(RICOH_PASSWORD), value) == map[JOB_TYPE := LOCKED_PRINT, LOCKED_PRINT_PASSWORD := value]
  {
    JobTypeIsPlain();
    LockedPrintIsPlain();
    LockedPrintPasswordIsPlain();
    hide Plain, SetOptions, Split;
    TwoPlain(JOB_TYPE, LOCKED_PRINT, LOCKED_PRINT_PASSWORD, value);
  }

  lemma TwoSettings(a: Setting, b: Setting, value: string)
    ensures Join(Texts([a, b])) == TextOf(a) + "/" + TextOf(b)
    ensures Apply(map[], [a, b], value)
            == map[a.key := if a.Fixed? then a.value else value][b.key := if b.Fixed? then b.value else value]
  {
    assert [a, b][..1] == [a] && [a][..0] == [];
    assert Texts([a, b])[1..] == [TextOf(b)];
    assert Apply(map[], [a][..0], value) == map[];
  }
}
