/** From a cloud job ticket to native job options (cups/translate-ticket.go). */
module Ticket {
  import opened Cdd
  import opened Collections
  import opened Ppd
  import opened PpdEntries
  import opened Capabilities

  // ---- The grammar of vendor IDs ----

  predicate Has(s: string, c: char) { exists i :: 0 <= i < |s| && s[i] == c }

  /** The index of the first c, or the length. */
  function IndexOf(s: string, c: char): (i: nat)
    ensures i <= |s| && (i < |s| ==> s[i] == c)
    ensures forall k :: 0 <= k < i ==> s[k] != c
  {
    if s == "" || s[0] == c then 0 else 1 + IndexOf(s[1..], c)
  }

  /** The key and the value of "key:value"; the value is empty if there is only a key; None without a match. */
  function Match(s: string): Option<(string, string)> {
    var i := IndexOf(s, ':');
    if i == 0 then None
    else if i == |s| then Some((s, ""))
    else if i == |s| - 1 || Has(s[i + 1..], '\n') then None
    else Some((s[..i], s[i + 1..]))
  }

  /** The pieces between slashes. */
  function Split(s: string): (pieces: seq<string>)
    ensures pieces != []
    decreases |s|
  {
    var i := IndexOf(s, '/');
    if i == |s| then [s] else [s[..i]] + Split(s[i + 1..])
  }

  function Join(pieces: seq<string>): string
    requires pieces != []
  {
    if |pieces| == 1 then pieces[0] else pieces[0] + "/" + Join(pieces[1..])
  }

  /** Splitting loses nothing, and no piece has a slash left. */
  lemma {:induction false} JoinOfSplit(s: string)
    ensures Join(Split(s)) == s
    ensures forall k :: 0 <= k < |Split(s)| ==> !Has(Split(s)[k], '/')
    decreases |s|
  {
    var i := IndexOf(s, '/');
    if i < |s| {
      JoinOfSplit(s[i + 1..]);
      assert Split(s)[1..] == Split(s[i + 1..]);
      assert s == s[..i] + "/" + s[i + 1..];
    }
  }

  lemma IndexIs(s: string, c: char, i: nat)
    requires i <= |s| && !Has(s[..i], c) && (i < |s| ==> s[i] == c)
    ensures IndexOf(s, c) == i
  {
    forall k | 0 <= k < i ensures s[k] != c { assert s[..i][k] != c; }
  }

  lemma SplitOff(piece: string, after: string)
    requires !Has(piece, '/')
    ensures Split(piece + "/" + after) == [piece] + Split(after)
    ensures Split(piece) == [piece]
  {
    var s := piece + "/" + after;
    assert s[..|piece|] == piece && s[|piece|] == '/' && s[|piece| + 1..] == after;
    assert piece[..|piece|] == piece;
    hide Has;
    IndexIs(s, '/', |piece|);
    IndexIs(piece, '/', |piece|);
  }

  /** And joining pieces without slashes can be undone. */
  lemma {:induction false} SplitOfJoin(pieces: seq<string>)
    requires pieces != [] && forall k :: 0 <= k < |pieces| ==> !Has(pieces[k], '/')
    ensures Split(Join(pieces)) == pieces
  {
    hide Has, Split;
    SplitOff(pieces[0], if |pieces| > 1 then Join(pieces[1..]) else "");
    if |pieces| > 1 { SplitOfJoin(pieces[1..]); }
    assert pieces == [pieces[0]] + pieces[1..];
  }

  lemma MatchOfPair(key: string, value: string)
    requires key != "" && !Has(key, ':') && value != "" && !Has(value, '\n')
    ensures Match(VendorID(key, value)) == Some((key, value))
  {
    var s, i := VendorID(key, value), |key|;
    assert s[..i] == key && s[i] == ':' && s[i + 1..] == value;
    IndexIs(s, ':', i);
  }

  lemma MatchOfKey(key: string)
    requires key != "" && !Has(key, ':')
    ensures Match(key) == Some((key, ""))
  {
    assert key[..|key|] == key;
    IndexIs(key, ':', |key|);
  }

  /** "key:value", with a key and a value. */
  predicate IsPair(s: string, key: string, value: string) {
    key != "" && !Has(key, ':') && value != "" && !Has(value, '\n') && s == key + ":" + value
  }

  /** A key without a value matches, a pair matches, and nothing else does. */
  lemma MatchMeans(s: string, key: string, value: string)
    ensures Match(s) == Some((key, value)) <==>
              IsPair(s, key, value) || (value == "" && s == key && key != "" && !Has(key, ':'))
  {
    var i := IndexOf(s, ':');
    if Match(s) == Some((key, value)) {
      if i < |s| { assert s == s[..i] + ":" + s[i + 1..]; }
    }
    if IsPair(s, key, value) { MatchOfPair(key, value); }
    if value == "" && s == key && key != "" && !Has(key, ':') { MatchOfKey(key); }
    hide IndexOf;
  }

  type Options = map<string, string>

  /** One piece of a vendor ID: a pair with a value, or a key that takes the value of the ticket item. */
  function SetOption(m: Options, piece: string, value: string): Options {
    var parts := Match(piece);
    if parts.None? || parts.value.1 == "" then m[piece := value] else m[parts.value.0 := parts.value.1]
  }

  /** A pair sets its key to its value; any other piece is itself the key, and is set to the value of the item. */
  lemma PieceIsSet(m: Options, piece: string, value: string, k: string, v: string)
    ensures IsPair(piece, k, v) ==> SetOption(m, piece, value) == m[k := v]
    ensures (forall k', v' :: !IsPair(piece, k', v')) ==> SetOption(m, piece, value) == m[piece := value]
  {
    MatchMeans(piece, k, v);
    var parts := Match(piece);
    if parts.Some? { MatchMeans(piece, parts.value.0, parts.value.1); }
    hide Match, IsPair;
  }

  function SetOptions(m: Options, pieces: seq<string>, value: string): Options {
    if pieces == [] then m
    else SetOption(SetOptions(m, pieces[..|pieces| - 1], value), pieces[|pieces| - 1], value)
  }

  /** What a piece stands for. */
  datatype Setting = Fixed(key: string, value: string) | Given(key: string)

  predicate Sayable(s: Setting) {
    && s.key != "" && !Has(s.key, ':') && !Has(s.key, '/')
    && (s.Fixed? ==> s.value != "" && !Has(s.value, '/') && !Has(s.value, '\n'))
  }

  function TextOf(s: Setting): string { if s.Fixed? then VendorID(s.key, s.value) else s.key }

  function Texts(settings: seq<Setting>): (ts: seq<string>)
    ensures |ts| == |settings| && forall i :: 0 <= i < |ts| ==> ts[i] == TextOf(settings[i])
  {
    if settings == [] then [] else Texts(settings[..|settings| - 1]) + [TextOf(settings[|settings| - 1])]
  }

  function Apply(m: Options, settings: seq<Setting>, value: string): Options {
    if settings == [] then m
    else
      var s := settings[|settings| - 1];
      Apply(m, settings[..|settings| - 1], value)[s.key := if s.Fixed? then s.value else value]
  }

  /** The last setting of a key wins, and other options stay. */
  lemma {:induction false} ApplyIsLast(m: Options, settings: seq<Setting>, value: string, i: nat, k: string)
    ensures i < |settings| && (forall j :: i < j < |settings| ==> settings[j].key != settings[i].key) ==>
              settings[i].key in Apply(m, settings, value)
              && Apply(m, settings, value)[settings[i].key] == if settings[i].Fixed? then settings[i].value else value
    ensures (forall j :: 0 <= j < |settings| ==> settings[j].key != k) ==>
              (k in Apply(m, settings, value) <==> k in m) && (k in m ==> Apply(m, settings, value)[k] == m[k])
  {
    if settings != [] { ApplyIsLast(m, settings[..|settings| - 1], value, i, k); }
  }

  lemma TextHasNoSlash(s: Setting)
    requires Sayable(s)
    ensures !Has(TextOf(s), '/')
  {
    var t := TextOf(s);
    forall i | 0 <= i < |t| ensures t[i] != '/' {
      if s.Fixed? && i > |s.key| { assert t[i] == s.value[i - |s.key| - 1]; }
    }
  }

  lemma SettingIsSet(m: Options, s: Setting, value: string)
    requires Sayable(s)
    ensures SetOption(m, TextOf(s), value) == m[s.key := if s.Fixed? then s.value else value]
  {
    hide Match, Has;
    if s.Fixed? { MatchOfPair(s.key, s.value); } else { MatchOfKey(s.key); }
  }

  lemma {:induction false} TextsApply(m: Options, settings: seq<Setting>, value: string)
    requires forall i :: 0 <= i < |settings| ==> Sayable(settings[i])
    ensures SetOptions(m, Texts(settings), value) == Apply(m, settings, value)
  {
    if settings != [] {
      var s, rest := settings[|settings| - 1], settings[..|settings| - 1];
      TextsApply(m, rest, value);
      assert Texts(settings)[..|settings| - 1] == Texts(rest);
      SettingIsSet(Apply(m, rest, value), s, value);
    }
    hide SetOption, TextOf, Sayable;
  }

  /** Any list of settings, written as A:B/C with the two separators, is read back as those settings. */
  lemma VendorIDRoundTrip(m: Options, settings: seq<Setting>, value: string)
    requires settings != [] && forall i :: 0 <= i < |settings| ==> Sayable(settings[i])
    ensures SetOptions(m, Split(Join(Texts(settings))), value) == Apply(m, settings, value)
  {
    forall k | 0 <= k < |settings| ensures !Has(Texts(settings)[k], '/') { TextHasNoSlash(settings[k]); }
    SplitOfJoin(Texts(settings));
    TextsApply(m, settings, value);
  }

  // ---- Vendor items ----

  datatype VendorItem = VendorItem(id: string, value: string)

  predicate IsPassword(s: string) { |s| == 4 && forall i :: 0 <= i < 4 ==> '0' <= s[i] <= '9' }

  /** The options that the vendor items set, or None when a Ricoh password is malformed. */
  function VendorOptions(items: seq<VendorItem>): Option<Options> {
    if items == [] then Some(map[])
    else
      var before, item := VendorOptions(items[..|items| - 1]), items[|items| - 1];
      if before.None? then None
      else if item.id == RICOH_PASSWORD && item.value == "" then before
      else if item.id == RICOH_PASSWORD && !IsPassword(item.value) then None
      else Some(SetOptions(before.value, Split(item.id), item.value))
  }

  lemma {:induction false} VendorOptionsFail(items: seq<VendorItem>, i: nat)
    requires i <= |items| && VendorOptions(items[..i]).None?
    ensures VendorOptions(items).None?
    decreases |items| - i
  {
    if i == |items| {
      assert items[..i] == items;
    } else {
      assert items[..i + 1][..i] == items[..i];
      VendorOptionsFail(items, i + 1);
    }
  }

  method TranslateItem(m: Options, item: VendorItem) returns (n: Options)
    ensures n == SetOptions(m, Split(item.id), item.value)
  {
    n := m;
    var pieces := Split(item.id);
    for j := 0 to |pieces|
      invariant n == SetOptions(m, pieces[..j], item.value)
    {
      assert pieces[..j + 1][..j] == pieces[..j];
      var parts := Match(pieces[j]);
      if parts.None? || parts.value.1 == "" {
        n := n[pieces[j] := item.value];
      } else {
        n := n[parts.value.0 := parts.value.1];
      }
    }
    assert pieces[..|pieces|] == pieces;
  }

  lemma VendorOptionsNext(items: seq<VendorItem>, i: nat)
    requires i < |items|
    ensures var before, item := VendorOptions(items[..i]), items[i];
            VendorOptions(items[..i + 1]) ==
              if before.None? then None
              else if item.id == RICOH_PASSWORD && item.value == "" then before
              else if item.id == RICOH_PASSWORD && !IsPassword(item.value) then None
              else Some(SetOptions(before.value, Split(item.id), item.value))
  {
    assert items[..i + 1][..i] == items[..i];
    hide SetOptions, Split, IsPassword;
  }

  method TranslateItems(items: seq<VendorItem>) returns (r: Option<Options>)
    ensures r == VendorOptions(items)
  {
    var m: Options := map[];
    for i := 0 to |items|
      invariant VendorOptions(items[..i]) == Some(m)
    {
      var item := items[i];
      VendorOptionsNext(items, i);
      if item.id == RICOH_PASSWORD {
        if item.value == "" { continue; }
        if !IsPassword(item.value) {
          VendorOptionsFail(items, i + 1);
          return None;
        }
      }
      m := TranslateItem(m, item);
      hide SetOptions, Split, VendorOptions;
    }
    assert items[..|items|] == items;
    return Some(m);
  }

  // ---- The ticket ----

  datatype ColorTicket = ColorTicket(vendorID: string, ctype: ColorType)

  datatype Orientation = Portrait | Landscape | AutoOrientation

  datatype Margins = Margins(left: int, right: int, top: int, bottom: int)

  datatype DPITicket = DPITicket(horizontal: int, vertical: int, vendorID: string)

  datatype FitToPage = FitToPage | NoFitting | OtherFitting

  datatype MediaSizeTicket = MediaSizeTicket(width: int, height: int, vendorID: string)

  datatype JobTicket = JobTicket(
    vendor: seq<VendorItem>, color: Option<ColorTicket>, duplex: Option<DuplexType>, orientation: Option<Orientation>,
    copies: Option<int>, margins: Option<Margins>, dpi: Option<DPITicket>, fitToPage: Option<FitToPage>,
    mediaSize: Option<MediaSizeTicket>, collate: Option<bool>, reverseOrder: Option<bool>)

  const EMPTY := JobTicket([], None, None, None, None, None, None, None, None, None, None)

  /** The parts of a printer that translateTicket looks at; of some capabilities only whether they are there. */
  datatype Capable = Capable(
    color: Option<seq<ColorOption>>, duplex: Option<seq<DuplexOption>>, duplexMap: DuplexVendorMap, orientation: bool,
    copies: bool, margins: bool, dpi: Option<seq<DPIOption>>, fitToPage: bool, mediaSize: Option<seq<MediaSizeOption>>,
    collate: bool, reverseOrder: bool)

  /** Numbers as text: micronsToPoints and a plain decimal. */
  datatype Render = Render(points: int -> string, decimal: int -> string)

  function FirstOfType(options: seq<ColorOption>, t: ColorType): string {
    if options == [] then ""
    else if options[0].ctype == t then options[0].vendorID
    else FirstOfType(options[1..], t)
  }

  function PairPart(s: string): Options {
    var parts := Match(s);
    if parts.Some? && parts.value.1 != "" then map[parts.value.0 := parts.value.1] else map[]
  }

  function ColorString(c: ColorTicket, options: seq<ColorOption>): string {
    if c.vendorID != "" then c.vendorID else FirstOfType(options, c.ctype)
  }

  function ColorPart(p: Capable, t: JobTicket): Options {
    if t.color.None? || p.color.None? then map[] else PairPart(ColorString(t.color.value, p.color.value))
  }

  function DuplexPart(p: Capable, t: JobTicket): Options {
    if t.duplex.None? || p.duplex.None? || t.duplex.value !in p.duplexMap then map[] else PairPart(p.duplexMap[t.duplex.value])
  }

  function OrientationPart(p: Capable, t: JobTicket): Options {
    if t.orientation.None? || !p.orientation then map[]
    else match t.orientation.value
      case Portrait => map["orientation-requested" := "3"]
      case Landscape => map["orientation-requested" := "4"]
      case AutoOrientation => map[]
  }

  function CopiesPart(p: Capable, t: JobTicket, r: Render): Options {
    if t.copies.None? || !p.copies then map[] else map["copies" := r.decimal(t.copies.value)]
  }

  function MarginsPart(p: Capable, t: JobTicket, r: Render): Options {
    if t.margins.None? || !p.margins then map[]
    else
      var m := t.margins.value;
      map["media-left-margin" := r.points(m.left), "media-right-margin" := r.points(m.right),
          "media-top-margin" := r.points(m.top), "media-bottom-margin" := r.points(m.bottom)]
  }

  /** The last resolution with these numbers. */
  function LastResolution(options: seq<DPIOption>, h: int, v: int): Option<string> {
    if options == [] then None
    else
      var o := options[|options| - 1];
      if h == o.horizontal && v == o.vertical then Some(o.vendorID) else LastResolution(options[..|options| - 1], h, v)
  }

  const RESOLUTION := "Resolution"
  const PAGE_SIZE := "PageSize"

  function DPIPart(p: Capable, t: JobTicket): Options {
    if t.dpi.None? || p.dpi.None? then map[]
    else if t.dpi.value.vendorID != "" then map[RESOLUTION := t.dpi.value.vendorID]
    else
      var id := LastResolution(p.dpi.value, t.dpi.value.horizontal, t.dpi.value.vertical);
      if id.None? then map[] else map[RESOLUTION := id.value]
  }

  function FitToPagePart(p: Capable, t: JobTicket): Options {
    if t.fitToPage.None? || !p.fitToPage then map[]
    else match t.fitToPage.value
      case FitToPage => map["fit-to-page" := "true"]
      case NoFitting => map["fit-to-page" := "false"]
      case OtherFitting => map[]
  }

  function MediaSizePart(p: Capable, t: JobTicket, r: Render): Options {
    if t.mediaSize.None? || p.mediaSize.None? then map[]
    else
      var s := t.mediaSize.value;
      map[PAGE_SIZE := if s.vendorID != "" then s.vendorID else "Custom." + r.points(s.width) + "x" + r.points(s.height)]
  }

  function CollatePart(p: Capable, t: JobTicket): Options {
    if t.collate.None? || !p.collate then map[] else map["collate" := if t.collate.value then "true" else "false"]
  }

  function ReverseOrderPart(p: Capable, t: JobTicket): Options {
    if t.reverseOrder.None? || !p.reverseOrder then map[]
    else map["outputorder" := if t.reverseOrder.value then "reverse" else "normal"]
  }

  /** All parts after the vendor items, the later ones winning. */
  function WithParts(vendor: Options, p: Capable, t: JobTicket, r: Render): Options {
    vendor + ColorPart(p, t) + DuplexPart(p, t) + OrientationPart(p, t) + CopiesPart(p, t, r) + MarginsPart(p, t, r) + DPIPart(p, t)
    + FitToPagePart(p, t) + MediaSizePart(p, t, r) + CollatePart(p, t) + ReverseOrderPart(p, t)
  }

  function Translation(p: Capable, t: JobTicket, r: Render): Option<Options> {
    var vendor := VendorOptions(t.vendor);
    if vendor.None? then None else Some(WithParts(vendor.value, p, t, r))
  }

  method FindColor(options: seq<ColorOption>, t: ColorType) returns (id: string)
    ensures id == FirstOfType(options, t)
  {
    for i := 0 to |options|
      invariant FirstOfType(options, t) == FirstOfType(options[i..], t)
    {
      if t == options[i].ctype { return options[i].vendorID; }
      assert options[i..][1..] == options[i + 1..];
    }
    return "";
  }

  method FindResolution(m: Options, options: seq<DPIOption>, h: int, v: int) returns (n: Options)
    ensures n == var id := LastResolution(options, h, v); if id.None? then m else m[RESOLUTION := id.value]
  {
    n := m;
    for i := 0 to |options|
      invariant n == var id := LastResolution(options[..i], h, v); if id.None? then m else m[RESOLUTION := id.value]
    {
      assert options[..i + 1][..i] == options[..i];
      if h == options[i].horizontal && v == options[i].vertical {
        n := n[RESOLUTION := options[i].vendorID];
      }
    }
    assert options[..|options|] == options;
  }

  method TranslateColor(m: Options, p: Capable, t: JobTicket) returns (n: Options)
    ensures n == m + ColorPart(p, t)
  {
    n := m;
    if t.color.Some? && p.color.Some? {
      var colorString := t.color.value.vendorID;
      if colorString == "" { colorString := FindColor(p.color.value, t.color.value.ctype); }
      var parts := Match(colorString);
      if parts.Some? && parts.value.1 != "" { n := n[parts.value.0 := parts.value.1]; }
    }
  }

  method TranslateDuplex(m: Options, p: Capable, t: JobTicket) returns (n: Options)
    ensures n == m + DuplexPart(p, t)
  {
    n := m;
    if t.duplex.Some? && p.duplex.Some? {
      var duplexString := if t.duplex.value in p.duplexMap then p.duplexMap[t.duplex.value] else "";
      var parts := Match(duplexString);
      if parts.Some? && parts.value.1 != "" { n := n[parts.value.0 := parts.value.1]; }
    }
  }

  method TranslateOrientation(m: Options, p: Capable, t: JobTicket) returns (n: Options)
    ensures n == m + OrientationPart(p, t)
  {
    n := m;
    if t.orientation.Some? && p.orientation {
      match t.orientation.value
      case Portrait => n := n["orientation-requested" := "3"];
      case Landscape => n := n["orientation-requested" := "4"];
      case AutoOrientation =>
    }
  }

  method TranslateCopies(m: Options, p: Capable, t: JobTicket, r: Render) returns (n: Options)
    ensures n == m + CopiesPart(p, t, r)
  {
    n := m;
    if t.copies.Some? && p.copies { n := n["copies" := r.decimal(t.copies.value)]; }
  }

  method TranslateFitToPage(m: Options, p: Capable, t: JobTicket) returns (n: Options)
    ensures n == m + FitToPagePart(p, t)
  {
    n := m;
    if t.fitToPage.Some? && p.fitToPage {
      match t.fitToPage.value
      case FitToPage => n := n["fit-to-page" := "true"];
      case NoFitting => n := n["fit-to-page" := "false"];
      case OtherFitting =>
    }
  }

  method TranslateMediaSize(m: Options, p: Capable, t: JobTicket, r: Render) returns (n: Options)
    ensures n == m + MediaSizePart(p, t, r)
  {
    n := m;
    if t.mediaSize.Some? && p.mediaSize.Some? {
      var size := t.mediaSize.value;
      if size.vendorID != "" {
        n := n[PAGE_SIZE := size.vendorID];
      } else {
        var widthPoints, heightPoints := r.points(size.width), r.points(size.height);
        n := n[PAGE_SIZE := "Custom." + widthPoints + "x" + heightPoints];
      }
    }
  }

  method TranslateCollate(m: Options, p: Capable, t: JobTicket) returns (n: Options)
    ensures n == m + CollatePart(p, t)
  {
    n := m;
    if t.collate.Some? && p.collate {
      if t.collate.value {
        n := n["collate" := "true"];
      } else {
        n := n["collate" := "false"];
      }
    }
  }

  method TranslateReverseOrder(m: Options, p: Capable, t: JobTicket) returns (n: Options)
    ensures n == m + ReverseOrderPart(p, t)
  {
    n := m;
    if t.reverseOrder.Some? && p.reverseOrder {
      if t.reverseOrder.value {
        n := n["outputorder" := "reverse"];
      } else {
        n := n["outputorder" := "normal"];
      }
    }
  }

  method TranslateDPI(m: Options, p: Capable, t: JobTicket) returns (n: Options)
    ensures n == m + DPIPart(p, t)
  {
    n := m;
    if t.dpi.Some? && p.dpi.Some? {
      if t.dpi.value.vendorID != "" {
        n := n[RESOLUTION := t.dpi.value.vendorID];
      } else {
        n := FindResolution(n, p.dpi.value, t.dpi.value.horizontal, t.dpi.value.vertical);
      }
    }
  }

  method TranslateMargins(m: Options, p: Capable, t: JobTicket, r: Render) returns (n: Options)
    ensures n == m + MarginsPart(p, t, r)
  {
    n := m;
    if t.margins.Some? && p.margins {
      n := n["media-left-margin" := r.points(t.margins.value.left)];
      n := n["media-right-margin" := r.points(t.margins.value.right)];
      n := n["media-top-margin" := r.points(t.margins.value.top)];
      n := n["media-bottom-margin" := r.points(t.margins.value.bottom)];
    }
  }

  /** translateTicket; None is its error. */
  method TranslateTicket(printer: Option<Capable>, ticket: Option<JobTicket>, r: Render) returns (result: Option<Options>)
    ensures printer.None? || ticket.None? ==> result == Some(map[])
    ensures printer.Some? && ticket.Some? ==> result == Translation(printer.value, ticket.value, r)
  {
    if printer.None? || ticket.None? { return Some(map[]); }
    var p, t := printer.value, ticket.value;
    result := TranslateItems(t.vendor);
    if result.None? { return; }
    hide ColorPart, DuplexPart, OrientationPart, CopiesPart, MarginsPart, DPIPart, FitToPagePart, MediaSizePart, CollatePart,
      ReverseOrderPart, VendorOptions;
    var m := TranslateColor(result.value, p, t);
    m := TranslateDuplex(m, p, t);
    m := TranslateOrientation(m, p, t);
    m := TranslateCopies(m, p, t, r);
    m := TranslateMargins(m, p, t, r);
    m := TranslateDPI(m, p, t);
    m := TranslateFitToPage(m, p, t);
    m := TranslateMediaSize(m, p, t, r);
    m := TranslateCollate(m, p, t);
    m := TranslateReverseOrder(m, p, t);
    result := Some(m);
  }
}
