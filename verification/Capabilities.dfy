/** From PPD entries to the capabilities of a printer (the convert functions of cups/translate-ppd.go). */
module Capabilities {
  import opened Cdd
  import opened Collections
  import opened Ppd
  import opened PpdEntries

  // ---- Defaults ----

  function Keywords(s: seq<Statement>): (ks: seq<string>)
    ensures |ks| == |s| && forall i :: 0 <= i < |s| ==> ks[i] == s[i].optionKeyword
  {
    if s == [] then [] else Keywords(s[..|s| - 1]) + [s[|s| - 1].optionKeyword]
  }

  /** The index of the first d, or else 0. */
  function FirstIndex(ks: seq<string>, d: string): nat {
    if d !in ks || ks[0] == d then 0 else 1 + FirstIndex(ks[1..], d)
  }

  lemma {:induction false} FirstIndexIsFirst(ks: seq<string>, d: string, i: nat)
    requires i < |ks| && ks[i] == d && d !in ks[..i]
    ensures FirstIndex(ks, d) == i
  {
    if i > 0 {
      assert ks[1..][i - 1] == d;
      assert ks[0] in ks[..i];
      assert forall k :: k in ks[1..][..i - 1] ==> k in ks[..i];
      FirstIndexIsFirst(ks[1..], d, i - 1);
    }
  }

  /** Exactly one of the options is the default. */
  ghost predicate OneDefault(defaults: seq<bool>) {
    exists i :: 0 <= i < |defaults| && defaults[i] && forall j :: 0 <= j < |defaults| && j != i ==> !defaults[j]
  }

  /** Every option with the default keyword is flagged; or else the first option. */
  predicate Flagged(ks: seq<string>, d: string, i: nat)
    requires i < |ks|
  {
    ks[i] == d || (d !in ks && i == 0)
  }

  predicate AtMostOnce(ks: seq<string>, d: string) {
    forall i, j :: 0 <= i < j < |ks| ==> !(ks[i] == d == ks[j])
  }

  /** So there is one default, unless the default keyword is advertised twice. */
  lemma FlagsOneDefault(flags: seq<bool>, ks: seq<string>, d: string)
    requires ks != [] && |flags| == |ks| && forall i :: 0 <= i < |ks| ==> flags[i] == Flagged(ks, d, i)
    ensures OneDefault(flags) <==> AtMostOnce(ks, d)
  {
    if AtMostOnce(ks, d) {
      var i := if d in ks then FirstOf(ks, d) else 0;
      assert flags[i] && forall j :: 0 <= j < |flags| && j != i ==> !flags[j];
    } else {
      var i, j :| 0 <= i < j < |ks| && ks[i] == d == ks[j];
      assert flags[i] && flags[j];
    }
  }

  ghost function FirstOf(ks: seq<string>, d: string): (i: nat)
    requires d in ks
    ensures i < |ks| && ks[i] == d
  {
    var i :| 0 <= i < |ks| && ks[i] == d;
    i
  }

  const SEPARATOR := ":"

  function VendorID(mainKeyword: string, optionKeyword: string): string { mainKeyword + SEPARATOR + optionKeyword }

  // ---- Colour (convertColorPPD) ----

  datatype ColorType = StandardColor | StandardMonochrome | CustomColor | CustomMonochrome | AutoColor

  datatype ColorOption = ColorOption(vendorID: string, ctype: ColorType, name: string, isDefault: bool)

  datatype Tint = Gray | Color | Neither

  /** The two keyword patterns and the clean-up of a colour's name. */
  datatype ColorRules = ColorRules(isGray: string -> bool, isColor: string -> bool, nameOf: (string, string) -> string)

  function TintOf(s: Statement, r: ColorRules): Tint {
    if r.isGray(s.optionKeyword) then Gray else if r.isColor(s.optionKeyword) then Color else Neither
  }

  function Tinted(r: ColorRules, t: Tint): Statement -> bool { (s: Statement) => TintOf(s, r) == t }

  function Tints(e: Entry, r: ColorRules, t: Tint): seq<Statement> { Filter(Tinted(r, t), e.options) }

  /** The colours first, then the grays, then the rest. */
  function ByTint(e: Entry, r: ColorRules): seq<Statement> {
    Tints(e, r, Color) + Tints(e, r, Gray) + Tints(e, r, Neither)
  }

  /** The only colour and the only gray are standard, all others custom; what is neither counts as gray. */
  function TypeOfTint(e: Entry, r: ColorRules, t: Tint): ColorType {
    match t
    case Color => if |Tints(e, r, Color)| == 1 then StandardColor else CustomColor
    case Gray => if |Tints(e, r, Gray)| == 1 then StandardMonochrome else CustomMonochrome
    case Neither => CustomMonochrome
  }

  function ColorOptionOf(e: Entry, s: Statement, ctype: ColorType, r: ColorRules): ColorOption {
    ColorOption(VendorID(e.mainKeyword, s.optionKeyword), ctype, r.nameOf(s.optionKeyword, s.translation), false)
  }

  /** The advertised colours: the options by tint, with the first default marked. */
  ghost predicate IsColor(c: seq<ColorOption>, e: Entry, r: ColorRules) {
    var sorted := ByTint(e, r);
    && |c| == |sorted|
    && forall i :: 0 <= i < |c| ==>
         c[i] == ColorOptionOf(e, sorted[i], TypeOfTint(e, r, TintOf(sorted[i], r)), r)
                 .(isDefault := i == FirstIndex(Keywords(sorted), e.defaultValue))
  }

  method AppendColors(c: seq<ColorOption>, e: Entry, group: seq<Statement>, ctype: ColorType, r: ColorRules)
    returns (n: seq<ColorOption>)
    ensures |n| == |c| + |group| && n[..|c|] == c
    ensures forall i :: 0 <= i < |group| ==> n[|c| + i] == ColorOptionOf(e, group[i], ctype, r)
  {
    n := c;
    for i := 0 to |group|
      invariant |n| == |c| + i && n[..|c|] == c
      invariant forall k :: 0 <= k < i ==> n[|c| + k] == ColorOptionOf(e, group[k], ctype, r)
    {
      n := n + [ColorOptionOf(e, group[i], ctype, r)];
    }
  }

  method SplitTints(e: Entry, r: ColorRules) returns (colors: seq<Statement>, grays: seq<Statement>, others: seq<Statement>)
    ensures colors == Tints(e, r, Color) && grays == Tints(e, r, Gray) && others == Tints(e, r, Neither)
  {
    colors, grays, others := [], [], [];
    for i := 0 to |e.options|
      invariant colors == Filter(Tinted(r, Color), e.options[..i])
      invariant grays == Filter(Tinted(r, Gray), e.options[..i])
      invariant others == Filter(Tinted(r, Neither), e.options[..i])
    {
      FilterStep(Tinted(r, Color), e.options, i);
      FilterStep(Tinted(r, Gray), e.options, i);
      FilterStep(Tinted(r, Neither), e.options, i);
      hide Filter;
      var o := e.options[i];
      if r.isGray(o.optionKeyword) {
        grays := grays + [o];
      } else if r.isColor(o.optionKeyword) {
        colors := colors + [o];
      } else {
        others := others + [o];
      }
    }
    assert e.options[..|e.options|] == e.options;
  }

  lemma TintsAre(e: Entry, r: ColorRules, t: Tint, i: nat)
    requires i < |Tints(e, r, t)|
    ensures TintOf(Tints(e, r, t)[i], r) == t && Tints(e, r, t)[i] in e.options
  {
    var s := Tints(e, r, t)[i];
    assert s in Tints(e, r, t);
    FilterMembers(Tinted(r, t), e.options, s);
  }

  lemma ByTintIs(e: Entry, r: ColorRules, i: nat)
    requires i < |ByTint(e, r)|
    ensures var colors, grays, others := Tints(e, r, Color), Tints(e, r, Gray), Tints(e, r, Neither);
            && ByTint(e, r)[i] in e.options
            && if i < |colors| then ByTint(e, r)[i] == colors[i] && TintOf(ByTint(e, r)[i], r) == Color
               else if i < |colors| + |grays| then ByTint(e, r)[i] == grays[i - |colors|] && TintOf(ByTint(e, r)[i], r) == Gray
               else ByTint(e, r)[i] == others[i - |colors| - |grays|] && TintOf(ByTint(e, r)[i], r) == Neither
  {
    hide Tints, TintOf;
    var colors, grays := |Tints(e, r, Color)|, |Tints(e, r, Gray)|;
    if i < colors {
      TintsAre(e, r, Color, i);
    } else if i < colors + grays {
      TintsAre(e, r, Gray, i - colors);
    } else {
      TintsAre(e, r, Neither, i - colors - grays);
    }
  }

  /** Every option of the entry is there. */
  lemma ByTintIsEverything(e: Entry, r: ColorRules, s: Statement)
    ensures s in ByTint(e, r) <==> s in e.options
  {
    FilterMembers(Tinted(r, Color), e.options, s);
    FilterMembers(Tinted(r, Gray), e.options, s);
    FilterMembers(Tinted(r, Neither), e.options, s);
    hide Filter;
  }

  lemma VendorIDIsInjective(mainKeyword: string, a: string, b: string)
    ensures VendorID(mainKeyword, a) == VendorID(mainKeyword, b) <==> a == b
  {
    var p := mainKeyword + SEPARATOR;
    assert (p + a)[|p|..] == a && (p + b)[|p|..] == b;
  }

  method MarkDefault(c: seq<ColorOption>, e: Entry, ghost ks: seq<string>) returns (m: seq<ColorOption>)
    requires c != [] && |ks| == |c|
    requires forall i :: 0 <= i < |c| ==> c[i].vendorID == VendorID(e.mainKeyword, ks[i])
    ensures |m| == |c|
    ensures forall i :: 0 <= i < |c| ==>
              m[i] == if i == FirstIndex(ks, e.defaultValue) then c[i].(isDefault := true) else c[i]
  {
    hide VendorID;
    for i := 0 to |c|
      invariant e.defaultValue !in ks[..i]
    {
      VendorIDIsInjective(e.mainKeyword, ks[i], e.defaultValue);
      if c[i].vendorID == VendorID(e.mainKeyword, e.defaultValue) {
        FirstIndexIsFirst(ks, e.defaultValue, i);
        return c[i := c[i].(isDefault := true)];
      }
    }
    assert ks[..|c|] == ks;
    return c[0 := c[0].(isDefault := true)];
  }

  /** The three groups one after the other are all options by tint, each with its type. */
  ghost predicate IsTyped(c: seq<ColorOption>, e: Entry, r: ColorRules) {
    var sorted := ByTint(e, r);
    && |c| == |sorted|
    && forall i :: 0 <= i < |c| ==> c[i] == ColorOptionOf(e, sorted[i], TypeOfTint(e, r, TintOf(sorted[i], r)), r)
  }

  method AppendTints(e: Entry, colors: seq<Statement>, grays: seq<Statement>, others: seq<Statement>, r: ColorRules)
    returns (c: seq<ColorOption>)
    requires colors == Tints(e, r, Color) && grays == Tints(e, r, Gray) && others == Tints(e, r, Neither)
    ensures IsTyped(c, e, r)
  {
    ghost var sorted := ByTint(e, r);
    c := AppendColors([], e, colors, if |colors| == 1 then StandardColor else CustomColor, r);
    ghost var l1 := c;
    c := AppendColors(c, e, grays, if |grays| == 1 then StandardMonochrome else CustomMonochrome, r);
    ghost var l2 := c;
    c := AppendColors(c, e, others, CustomMonochrome, r);
    hide Tints, TintOf, ColorOptionOf;
    forall i | 0 <= i < |c| ensures c[i] == ColorOptionOf(e, sorted[i], TypeOfTint(e, r, TintOf(sorted[i], r)), r) {
      ByTintIs(e, r, i);
      assert i < |l2| ==> c[i] == l2[i];
      assert i < |l1| ==> l2[i] == l1[i];
    }
  }

  method ConvertColor(e: Entry, r: ColorRules) returns (c: Option<seq<ColorOption>>)
    ensures c.None? <==> e.options == []
    ensures c.Some? ==> IsColor(c.value, e, r)
  {
    var colors, grays, others := SplitTints(e, r);
    var list := AppendTints(e, colors, grays, others, r);
    ghost var sorted := ByTint(e, r);
    if e.options != [] { ByTintIsEverything(e, r, e.options[0]); }
    if sorted != [] { ByTintIs(e, r, 0); }
    hide ByTint, TypeOfTint, TintOf;
    if |list| == 0 { return None; }
    list := MarkDefault(list, e, Keywords(sorted));
    return Some(list);
  }

  lemma {:induction false} FirstIndexInRange(ks: seq<string>, d: string)
    requires ks != []
    ensures FirstIndex(ks, d) < |ks| && (d in ks ==> ks[FirstIndex(ks, d)] == d)
  {
    if d in ks && ks[0] != d { FirstIndexInRange(ks[1..], d); }
  }

  /** Every option of the entry is advertised. */
  lemma ColorIsComplete(c: seq<ColorOption>, e: Entry, r: ColorRules, s: Statement) returns (i: nat)
    requires IsColor(c, e, r) && s in e.options
    ensures i < |c| && c[i].vendorID == VendorID(e.mainKeyword, s.optionKeyword)
  {
    ByTintIsEverything(e, r, s);
    var sorted := ByTint(e, r);
    i :| 0 <= i < |sorted| && sorted[i] == s;
    hide VendorID, TypeOfTint, TintOf, ByTint;
  }

  /** Every advertised colour is an option of the entry. */
  lemma ColorIsSound(c: seq<ColorOption>, e: Entry, r: ColorRules, i: nat) returns (s: Statement)
    requires IsColor(c, e, r) && i < |c|
    ensures s in e.options && c[i].vendorID == VendorID(e.mainKeyword, s.optionKeyword)
  {
    ByTintIs(e, r, i);
    s := ByTint(e, r)[i];
    hide VendorID, TypeOfTint, TintOf, ByTint;
  }

  /** No other option is gray. */
  predicate OnlyGray(e: Entry, r: ColorRules, k: nat) {
    forall j :: 0 <= j < |e.options| && j != k ==> !r.isGray(e.options[j].optionKeyword)
  }

  /** No other option is a colour without being gray. */
  predicate OnlyColor(e: Entry, r: ColorRules, k: nat) {
    forall j :: 0 <= j < |e.options| && j != k ==>
      r.isGray(e.options[j].optionKeyword) || !r.isColor(e.options[j].optionKeyword)
  }

  /** The ID, the name and the type of an advertised colour, by the keyword and the translation of its option. */
  lemma ColorMeans(c: seq<ColorOption>, e: Entry, r: ColorRules, i: nat) returns (k: nat)
    requires IsColor(c, e, r) && i < |c|
    ensures k < |e.options|
    ensures var o := e.options[k];
            && c[i].vendorID == e.mainKeyword + ":" + o.optionKeyword && c[i].name == r.nameOf(o.optionKeyword, o.translation)
            && (r.isGray(o.optionKeyword) ==> c[i].ctype == if OnlyGray(e, r, k) then StandardMonochrome else CustomMonochrome)
            && (!r.isGray(o.optionKeyword) && r.isColor(o.optionKeyword) ==>
                  c[i].ctype == if OnlyColor(e, r, k) then StandardColor else CustomColor)
            && (!r.isGray(o.optionKeyword) && !r.isColor(o.optionKeyword) ==> c[i].ctype == CustomMonochrome)
  {
    ByTintIs(e, r, i);
    k :| 0 <= k < |e.options| && e.options[k] == ByTint(e, r)[i];
    hide ByTint, FirstIndex, Keywords, Filter;
    var t := TintOf(e.options[k], r);
    FilterSingle(Tinted(r, t), e.options, k);
  }

  /** The colours come first. */
  lemma ColorsComeFirst(c: seq<ColorOption>, e: Entry, r: ColorRules, i: nat, j: nat)
    requires IsColor(c, e, r) && i < j < |c| && c[j].ctype in {StandardColor, CustomColor}
    ensures c[i].ctype in {StandardColor, CustomColor}
  {
    ByTintIs(e, r, i);
    ByTintIs(e, r, j);
    hide Tints, TintOf;
  }

  function ColorDefaults(c: seq<ColorOption>): seq<bool> { seq(|c|, i requires 0 <= i < |c| => c[i].isDefault) }

  /** One colour is the default, and it is the entry's default if that is advertised. */
  lemma ColorHasOneDefault(c: seq<ColorOption>, e: Entry, r: ColorRules)
    requires IsColor(c, e, r) && e.options != []
    ensures OneDefault(ColorDefaults(c))
    ensures forall i :: 0 <= i < |c| && c[i].isDefault && HasKeyword(e.options, e.defaultValue) ==>
              c[i].vendorID == VendorID(e.mainKeyword, e.defaultValue)
  {
    var sorted := ByTint(e, r);
    var ks := Keywords(sorted);
    ByTintIsEverything(e, r, e.options[0]);
    FirstIndexInRange(ks, e.defaultValue);
    var d := FirstIndex(ks, e.defaultValue);
    var flags := ColorDefaults(c);
    assert flags[d] && forall j :: 0 <= j < |flags| && j != d ==> !flags[j];
    if k :| 0 <= k < |e.options| && e.options[k].optionKeyword == e.defaultValue {
      ByTintIsEverything(e, r, e.options[k]);
      var i :| 0 <= i < |sorted| && sorted[i] == e.options[k];
      assert ks[i] == e.defaultValue;
    }
    hide VendorID, TypeOfTint, TintOf, ByTint, OneDefault, FirstIndex;
  }

  /** A standard type names one option only, so a ticket that gives no vendor ID is unambiguous for it. */
  lemma StandardTypesAreUnique(c: seq<ColorOption>, e: Entry, r: ColorRules, i: nat, j: nat)
    requires IsColor(c, e, r) && i < |c| && j < |c| && c[i].ctype == c[j].ctype
    requires c[i].ctype in {StandardColor, StandardMonochrome}
    ensures i == j
  {
    ByTintIs(e, r, i);
    ByTintIs(e, r, j);
    hide Tints, TintOf;
  }

  // ---- Resolution (convertDPI) ----

  datatype DPIOption = DPIOption(horizontal: int, vertical: int, vendorID: string, name: string, isDefault: bool)

  type ResolutionParser = string -> Option<(int, int)>

  function IsResolution(parse: ResolutionParser): Statement -> bool { (s: Statement) => parse(s.optionKeyword).Some? }

  ghost predicate IsDPI(d: seq<DPIOption>, e: Entry, parse: ResolutionParser) {
    var kept := Filter(IsResolution(parse), e.options);
    && |d| == |kept|
    && forall i :: 0 <= i < |d| ==>
         && parse(kept[i].optionKeyword) == Some((d[i].horizontal, d[i].vertical))
         && d[i].vendorID == kept[i].optionKeyword && d[i].name == kept[i].translation
         && d[i].isDefault == (i == FirstIndex(Keywords(kept), e.defaultValue))
  }

  ghost predicate DPISoFar(d: seq<DPIOption>, kept: seq<Statement>, parse: ResolutionParser) {
    && |d| == |kept|
    && forall k :: 0 <= k < |d| ==>
         && parse(kept[k].optionKeyword) == Some((d[k].horizontal, d[k].vertical))
         && d[k].vendorID == kept[k].optionKeyword && d[k].name == kept[k].translation && !d[k].isDefault
  }

  method MarkDPI(d: seq<DPIOption>, default: string, ghost kept: seq<Statement>, ghost parse: ResolutionParser)
    returns (m: seq<DPIOption>)
    requires d != [] && DPISoFar(d, kept, parse)
    ensures |m| == |d| && forall i :: 0 <= i < |d| ==> m[i] == d[i].(isDefault := i == FirstIndex(Keywords(kept), default))
  {
    ghost var ks := Keywords(kept);
    for i := 0 to |d|
      invariant default !in ks[..i]
    {
      if d[i].vendorID == default {
        FirstIndexIsFirst(ks, default, i);
        return d[i := d[i].(isDefault := true)];
      }
    }
    assert ks[..|d|] == ks;
    return d[0 := d[0].(isDefault := true)];
  }

  method ConvertDPI(e: Entry, parse: ResolutionParser) returns (r: Option<seq<DPIOption>>)
    ensures r.None? <==> Filter(IsResolution(parse), e.options) == []
    ensures r.Some? ==> IsDPI(r.value, e, parse)
  {
    var d: seq<DPIOption> := [];
    for i := 0 to |e.options|
      invariant DPISoFar(d, Filter(IsResolution(parse), e.options[..i]), parse)
    {
      FilterStep(IsResolution(parse), e.options, i);
      hide Filter;
      var o := e.options[i];
      var found := parse(o.optionKeyword);
      if found.None? { continue; }
      d := d + [DPIOption(found.value.0, found.value.1, o.optionKeyword, o.translation, false)];
    }
    assert e.options[..|e.options|] == e.options;
    hide Filter;
    if |d| == 0 { return None; }
    d := MarkDPI(d, e.defaultValue, Filter(IsResolution(parse), e.options), parse);
    return Some(d);
  }

  function DPIDefaults(d: seq<DPIOption>): seq<bool> { seq(|d|, i requires 0 <= i < |d| => d[i].isDefault) }

  lemma DPIHasOneDefault(d: seq<DPIOption>, e: Entry, parse: ResolutionParser)
    requires IsDPI(d, e, parse) && d != []
    ensures OneDefault(DPIDefaults(d))
    ensures forall i, j :: 0 <= i < |d| && d[i].isDefault && 0 <= j < |d| && d[j].vendorID == e.defaultValue ==>
              d[i].vendorID == e.defaultValue
  {
    var ks := Keywords(Filter(IsResolution(parse), e.options));
    FirstIndexInRange(ks, e.defaultValue);
    var k, flags := FirstIndex(ks, e.defaultValue), DPIDefaults(d);
    assert flags[k] && forall j :: 0 <= j < |flags| && j != k ==> !flags[j];
    hide OneDefault, FirstIndex, Filter, Keywords;
  }

  // ---- Media size (convertMediaSize) ----

  datatype MediaSizeOption = MediaSizeOption(name: string, width: int, height: int, vendorID: string, isDefault: bool)

  /** The table of known sizes and, failing that, the parser of custom ones; from keyword and translation. */
  type MediaSizes = (string, string) -> Option<MediaSizeOption>

  /** The table's keys are its vendor IDs, a custom size has the keyword for its ID, and none is a default yet. */
  ghost predicate Keyed(sizes: MediaSizes) {
    forall k, t :: sizes(k, t).Some? ==> sizes(k, t).value.vendorID == k && !sizes(k, t).value.isDefault
  }

  predicate IsFullBleed(keyword: string) { |keyword| >= 10 && keyword[|keyword| - 10..] == ".FullBleed" }

  function HasSize(sizes: MediaSizes): Statement -> bool {
    (s: Statement) => !IsFullBleed(s.optionKeyword) && sizes(s.optionKeyword, s.translation).Some?
  }

  ghost predicate IsMediaSize(m: seq<MediaSizeOption>, e: Entry, sizes: MediaSizes) {
    var kept := Filter(HasSize(sizes), e.options);
    && |m| == |kept|
    && forall i :: 0 <= i < |m| ==>
         && Some(m[i].(isDefault := false)) == sizes(kept[i].optionKeyword, kept[i].translation)
         && m[i].isDefault == Flagged(Keywords(kept), e.defaultValue, i)
  }

  ghost predicate SizesSoFar(
    m: seq<MediaSizeOption>, foundDefault: bool, kept: seq<Statement>, default: string, sizes: MediaSizes)
  {
    && |m| == |kept| && (foundDefault <==> default in Keywords(kept))
    && forall k :: 0 <= k < |m| ==>
         && Some(m[k].(isDefault := false)) == sizes(kept[k].optionKeyword, kept[k].translation)
         && m[k].isDefault == (kept[k].optionKeyword == default)
  }

  lemma KeywordsNext(kept: seq<Statement>, o: Statement)
    ensures Keywords(kept + [o]) == Keywords(kept) + [o.optionKeyword]
  {
    assert (kept + [o])[..|kept|] == kept;
  }

  lemma FlagsAre(kept: seq<Statement>, default: string)
    ensures forall i :: 0 <= i < |kept| ==>
              Flagged(Keywords(kept), default, i)
              == if default in Keywords(kept) then kept[i].optionKeyword == default else i == 0
  {
    var ks := Keywords(kept);
    forall i | 0 <= i < |kept|
      ensures Flagged(ks, default, i) == if default in ks then kept[i].optionKeyword == default else i == 0
    {
      assert ks[i] in ks;
    }
  }

  lemma SizesNext(
    m: seq<MediaSizeOption>, foundDefault: bool, kept: seq<Statement>, default: string, sizes: MediaSizes,
    s: Statement, o: MediaSizeOption)
    requires SizesSoFar(m, foundDefault, kept, default, sizes)
    requires sizes(s.optionKeyword, s.translation) == Some(o) && !o.isDefault
    ensures var def := default == s.optionKeyword;
            SizesSoFar(m + [o.(isDefault := def)], foundDefault || def, kept + [s], default, sizes)
  {
    KeywordsNext(kept, s);
    hide Keywords;
  }

  lemma SizesDone(m: seq<MediaSizeOption>, foundDefault: bool, e: Entry, sizes: MediaSizes)
    requires SizesSoFar(m, foundDefault, Filter(HasSize(sizes), e.options), e.defaultValue, sizes)
    ensures m == [] <==> Filter(HasSize(sizes), e.options) == []
    ensures m != [] ==> IsMediaSize(if foundDefault then m else m[0 := m[0].(isDefault := true)], e, sizes)
  {
    FlagsAre(Filter(HasSize(sizes), e.options), e.defaultValue);
    hide Filter, Keywords, Flagged;
  }

  /** One round of the loop: a further option is added, if it has a size. */
  method AddSize(
    m: seq<MediaSizeOption>, foundDefault: bool, e: Entry, i: nat, sizes: MediaSizes)
    returns (n: seq<MediaSizeOption>, found: bool)
    requires Keyed(sizes) && i < |e.options|
    requires SizesSoFar(m, foundDefault, Filter(HasSize(sizes), e.options[..i]), e.defaultValue, sizes)
    ensures SizesSoFar(n, found, Filter(HasSize(sizes), e.options[..i + 1]), e.defaultValue, sizes)
  {
    n, found := m, foundDefault;
    FilterStep(HasSize(sizes), e.options, i);
    hide Filter, IsFullBleed, SizesSoFar;
    var option := e.options[i];
    if IsFullBleed(option.optionKeyword) { return; }
    var size := sizes(option.optionKeyword, option.translation);
    if size.None? { return; }
    var o := size.value;
    SizesNext(m, foundDefault, Filter(HasSize(sizes), e.options[..i]), e.defaultValue, sizes, option, o);
    if e.defaultValue == option.optionKeyword {
      o := o.(isDefault := true);
      found := true;
    }
    n := m + [o];
  }

  method ConvertMediaSize(e: Entry, sizes: MediaSizes) returns (r: Option<seq<MediaSizeOption>>)
    requires Keyed(sizes)
    ensures r.None? <==> Filter(HasSize(sizes), e.options) == []
    ensures r.Some? ==> IsMediaSize(r.value, e, sizes)
  {
    var foundDefault := false;
    var m: seq<MediaSizeOption> := [];
    for i := 0 to |e.options|
      invariant SizesSoFar(m, foundDefault, Filter(HasSize(sizes), e.options[..i]), e.defaultValue, sizes)
    {
      m, foundDefault := AddSize(m, foundDefault, e, i, sizes);
    }
    assert e.options[..|e.options|] == e.options;
    hide Filter, SizesSoFar, IsMediaSize;
    SizesDone(m, foundDefault, e, sizes);
    if |m| == 0 { return None; }
    if !foundDefault {
      m := m[0 := m[0].(isDefault := true)];
    }
    return Some(m);
  }

  predicate EndsFullBleed(k: string) { exists i :: 0 <= i <= |k| && k[i..] == ".FullBleed" }

  lemma FullBleedMeans(k: string)
    ensures IsFullBleed(k) <==> EndsFullBleed(k)
  {
    assert |".FullBleed"| == 10;
    if i :| 0 <= i <= |k| && k[i..] == ".FullBleed" { assert i == |k| - 10; }
  }

  /** Advertised are the options that have a size and whose keyword does not end in ".FullBleed", with that size. */
  lemma MediaSizesMean(m: seq<MediaSizeOption>, e: Entry, sizes: MediaSizes, s: Statement)
    requires Keyed(sizes) && IsMediaSize(m, e, sizes) && s in e.options
    ensures EndsFullBleed(s.optionKeyword) ==> forall i :: 0 <= i < |m| ==> m[i].vendorID != s.optionKeyword
    ensures !EndsFullBleed(s.optionKeyword) && sizes(s.optionKeyword, s.translation).Some? ==>
              exists i :: 0 <= i < |m| && m[i].(isDefault := false) == sizes(s.optionKeyword, s.translation).value
  {
    var kept := Filter(HasSize(sizes), e.options);
    FilterMembers(HasSize(sizes), e.options, s);
    FullBleedMeans(s.optionKeyword);
    forall i | 0 <= i < |m| ensures kept[i] in e.options && HasSize(sizes)(kept[i]) && m[i].vendorID == kept[i].optionKeyword {
      FilterAt(HasSize(sizes), e.options, i);
    }
    hide Filter, Flagged, IsFullBleed, EndsFullBleed;
    if s in kept {
      var i :| 0 <= i < |kept| && kept[i] == s;
      assert m[i].(isDefault := false) == sizes(s.optionKeyword, s.translation).value;
    }
  }

  function MediaSizeDefaults(m: seq<MediaSizeOption>): seq<bool> { seq(|m|, i requires 0 <= i < |m| => m[i].isDefault) }

  lemma MediaSizeHasOneDefault(m: seq<MediaSizeOption>, e: Entry, sizes: MediaSizes)
    requires IsMediaSize(m, e, sizes) && m != []
    ensures OneDefault(MediaSizeDefaults(m)) <==> AtMostOnce(Keywords(Filter(HasSize(sizes), e.options)), e.defaultValue)
  {
    hide Flagged, OneDefault, AtMostOnce;
    FlagsOneDefault(MediaSizeDefaults(m), Keywords(Filter(HasSize(sizes), e.options)), e.defaultValue);
  }

  // ---- Duplex (convertDuplex) ----

  datatype DuplexOption = DuplexOption(dtype: DuplexType, isDefault: bool)

  function DuplexTypeOf(keyword: string): Option<DuplexType> {
    if keyword == "None" || keyword == "False" || keyword == "Single" then Some(NoDuplex)
    else if keyword == "DuplexNoTumble" || keyword == "True" || keyword == "Double" then Some(LongEdge)
    else if keyword == "DuplexTumble" || keyword == "Booklet" then Some(ShortEdge)
    else if HasPrefix(keyword, "1") then Some(NoDuplex)
    else if HasPrefix(keyword, "2") then Some(LongEdge)
    else None
  }

  function IsDuplexKeyword(): Statement -> bool { (s: Statement) => DuplexTypeOf(s.optionKeyword).Some? }

  ghost predicate IsDuplex(d: seq<DuplexOption>, m: DuplexVendorMap, e: Entry) {
    var kept := Filter(IsDuplexKeyword(), e.options);
    && |d| == |kept|
    && (forall i :: 0 <= i < |d| ==>
          && DuplexTypeOf(kept[i].optionKeyword) == Some(d[i].dtype)
          && d[i].isDefault == Flagged(Keywords(kept), e.defaultValue, i))
    && IsDuplexMap(m, kept, e.mainKeyword)
  }

  /** Each type is mapped to the last option of that type. */
  ghost predicate IsDuplexMap(m: DuplexVendorMap, kept: seq<Statement>, mainKeyword: string) {
    && (forall t :: t in m ==> exists i :: IsLastOfType(m[t], t, kept, mainKeyword, i))
    && (forall i :: 0 <= i < |kept| && DuplexTypeOf(kept[i].optionKeyword).Some? ==> DuplexTypeOf(kept[i].optionKeyword).value in m)
  }

  ghost predicate IsLastOfType(id: string, t: DuplexType, kept: seq<Statement>, mainKeyword: string, i: int) {
    && 0 <= i < |kept| && DuplexTypeOf(kept[i].optionKeyword) == Some(t) && id == VendorID(mainKeyword, kept[i].optionKeyword)
    && forall j :: i < j < |kept| ==> DuplexTypeOf(kept[j].optionKeyword) != Some(t)
  }

  lemma DuplexMapNext(m: DuplexVendorMap, kept: seq<Statement>, mainKeyword: string, o: Statement)
    requires IsDuplexMap(m, kept, mainKeyword) && DuplexTypeOf(o.optionKeyword).Some?
    ensures IsDuplexMap(m[DuplexTypeOf(o.optionKeyword).value := VendorID(mainKeyword, o.optionKeyword)], kept + [o], mainKeyword)
  {
    hide DuplexTypeOf, VendorID;
    var t, id := DuplexTypeOf(o.optionKeyword).value, VendorID(mainKeyword, o.optionKeyword);
    var n := m[t := id];
    forall u | u in n ensures exists i :: IsLastOfType(n[u], u, kept + [o], mainKeyword, i) {
      if u == t {
        assert IsLastOfType(id, t, kept + [o], mainKeyword, |kept|);
      } else {
        var i :| IsLastOfType(m[u], u, kept, mainKeyword, i);
        assert IsLastOfType(m[u], u, kept + [o], mainKeyword, i);
      }
    }
    assert forall i :: 0 <= i < |kept| ==> (kept + [o])[i] == kept[i];
  }

  ghost predicate DuplexSoFar(d: seq<DuplexOption>, foundDefault: bool, kept: seq<Statement>, default: string) {
    && |d| == |kept| && (foundDefault <==> default in Keywords(kept))
    && forall k :: 0 <= k < |d| ==>
         && DuplexTypeOf(kept[k].optionKeyword) == Some(d[k].dtype)
         && d[k].isDefault == (kept[k].optionKeyword == default)
  }

  lemma DuplexNext(d: seq<DuplexOption>, foundDefault: bool, kept: seq<Statement>, default: string, s: Statement)
    requires DuplexSoFar(d, foundDefault, kept, default) && DuplexTypeOf(s.optionKeyword).Some?
    ensures var def := s.optionKeyword == default;
            DuplexSoFar(d + [DuplexOption(DuplexTypeOf(s.optionKeyword).value, def)], foundDefault || def, kept + [s], default)
  {
    KeywordsNext(kept, s);
    hide Keywords, DuplexTypeOf;
  }

  lemma DuplexDone(d: seq<DuplexOption>, foundDefault: bool, m: DuplexVendorMap, e: Entry)
    requires DuplexSoFar(d, foundDefault, Filter(IsDuplexKeyword(), e.options), e.defaultValue)
    requires IsDuplexMap(m, Filter(IsDuplexKeyword(), e.options), e.mainKeyword)
    ensures d == [] <==> Filter(IsDuplexKeyword(), e.options) == []
    ensures d != [] ==> IsDuplex(if foundDefault then d else d[0 := d[0].(isDefault := true)], m, e)
  {
    FlagsAre(Filter(IsDuplexKeyword(), e.options), e.defaultValue);
    hide Filter, Keywords, Flagged, DuplexTypeOf, IsDuplexMap;
  }

  /** One round of the loop: a further option is added, if its keyword is known. */
  method AddDuplex(d: seq<DuplexOption>, m: DuplexVendorMap, foundDefault: bool, e: Entry, i: nat)
    returns (d': seq<DuplexOption>, m': DuplexVendorMap, found: bool)
    requires i < |e.options|
    requires DuplexSoFar(d, foundDefault, Filter(IsDuplexKeyword(), e.options[..i]), e.defaultValue)
    requires IsDuplexMap(m, Filter(IsDuplexKeyword(), e.options[..i]), e.mainKeyword)
    ensures DuplexSoFar(d', found, Filter(IsDuplexKeyword(), e.options[..i + 1]), e.defaultValue)
    ensures IsDuplexMap(m', Filter(IsDuplexKeyword(), e.options[..i + 1]), e.mainKeyword)
  {
    d', m', found := d, m, foundDefault;
    FilterStep(IsDuplexKeyword(), e.options, i);
    hide Filter, DuplexTypeOf, IsDuplexMap, DuplexSoFar, VendorID;
    var o := e.options[i];
    var def := o.optionKeyword == e.defaultValue;
    var t := DuplexTypeOf(o.optionKeyword);
    if t.Some? {
      DuplexMapNext(m, Filter(IsDuplexKeyword(), e.options[..i]), e.mainKeyword, o);
      DuplexNext(d, foundDefault, Filter(IsDuplexKeyword(), e.options[..i]), e.defaultValue, o);
      d' := d + [DuplexOption(t.value, def)];
      m' := m[t.value := VendorID(e.mainKeyword, o.optionKeyword)];
      found := foundDefault || def;
    }
  }

  method ConvertDuplex(e: Entry) returns (r: Option<(seq<DuplexOption>, DuplexVendorMap)>)
    ensures r.None? <==> Filter(IsDuplexKeyword(), e.options) == []
    ensures r.Some? ==> IsDuplex(r.value.0, r.value.1, e)
  {
    var d: seq<DuplexOption>, m: DuplexVendorMap, foundDefault := [], map[], false;
    for i := 0 to |e.options|
      invariant DuplexSoFar(d, foundDefault, Filter(IsDuplexKeyword(), e.options[..i]), e.defaultValue)
      invariant IsDuplexMap(m, Filter(IsDuplexKeyword(), e.options[..i]), e.mainKeyword)
    {
      d, m, foundDefault := AddDuplex(d, m, foundDefault, e, i);
    }
    assert e.options[..|e.options|] == e.options;
    hide Filter, DuplexTypeOf, IsDuplexMap, DuplexSoFar, IsDuplex;
    DuplexDone(d, foundDefault, m, e);
    if |d| == 0 { return None; }
    if !foundDefault {
      d := d[0 := d[0].(isDefault := true)];
    }
    return Some((d, m));
  }

  /** One-sided, or a paper tray of a one-sided printer. */
  predicate MeansNoDuplex(k: string) { k == "None" || k == "False" || k == "Single" || "1" <= k }

  predicate MeansLongEdge(k: string) { k == "DuplexNoTumble" || k == "True" || k == "Double" || "2" <= k }

  predicate MeansShortEdge(k: string) { k == "DuplexTumble" || k == "Booklet" }

  predicate Means(t: DuplexType, k: string) {
    match t
    case NoDuplex => MeansNoDuplex(k)
    case LongEdge => MeansLongEdge(k)
    case ShortEdge => MeansShortEdge(k)
  }

  lemma DuplexTypeMeans(k: string, t: DuplexType)
    ensures DuplexTypeOf(k) == Some(t) <==> Means(t, k)
  {
    assert "None"[0] == 'N' && "False"[0] == 'F' && "Single"[0] == 'S' && "DuplexNoTumble"[0] == 'D' && "True"[0] == 'T';
    assert "Double"[0] == 'D' && "DuplexTumble"[0] == 'D' && "Booklet"[0] == 'B' && "1"[0] == '1' && "2"[0] == '2';
    assert |"DuplexNoTumble"| == 14 && |"DuplexTumble"| == 12 && |"Double"| == 6;
    assert "1" <= k ==> k[0] == '1';
    assert "2" <= k ==> k[0] == '2';
  }

  /** The last of the options whose keyword means this type, with the vendor ID of that option. */
  predicate IsLastMeaning(options: seq<Statement>, t: DuplexType, mainKeyword: string, id: string, i: int) {
    && 0 <= i < |options| && Means(t, options[i].optionKeyword) && id == mainKeyword + ":" + options[i].optionKeyword
    && forall j :: i < j < |options| ==> !Means(t, options[j].optionKeyword)
  }

  /** A type is advertised, and mapped to an option, exactly when the keyword of an option means it. */
  lemma DuplexIsComplete(d: seq<DuplexOption>, m: DuplexVendorMap, e: Entry, t: DuplexType)
    requires IsDuplex(d, m, e)
    ensures (exists i :: 0 <= i < |d| && d[i].dtype == t) <==> exists s :: s in e.options && Means(t, s.optionKeyword)
    ensures t in m <==> exists s :: s in e.options && Means(t, s.optionKeyword)
  {
    var kept := Filter(IsDuplexKeyword(), e.options);
    forall s: Statement ensures DuplexTypeOf(s.optionKeyword) == Some(t) <==> Means(t, s.optionKeyword) {
      DuplexTypeMeans(s.optionKeyword, t);
    }
    MappedIsAdvertised(d, m, e, t);
    hide Means, Flagged, Filter, DuplexTypeOf, IsDuplexMap;
    if s :| s in e.options && Means(t, s.optionKeyword) {
      FilterMembers(IsDuplexKeyword(), e.options, s);
      var i :| 0 <= i < |kept| && kept[i] == s;
      assert d[i].dtype == t;
    }
    if i :| 0 <= i < |d| && d[i].dtype == t {
      FilterAt(IsDuplexKeyword(), e.options, i);
      assert kept[i] in e.options && Means(t, kept[i].optionKeyword);
    }
  }

  lemma MappedIsAdvertised(d: seq<DuplexOption>, m: DuplexVendorMap, e: Entry, t: DuplexType)
    requires IsDuplex(d, m, e)
    ensures t in m <==> exists i :: 0 <= i < |d| && d[i].dtype == t
  {
    var kept := Filter(IsDuplexKeyword(), e.options);
    hide Flagged, Filter, DuplexTypeOf, VendorID;
    if t in m {
      var k :| IsLastOfType(m[t], t, kept, e.mainKeyword, k);
      assert d[k].dtype == t;
    }
  }

  /** It is mapped to the last such option. */
  lemma DuplexIsMappedToLast(d: seq<DuplexOption>, m: DuplexVendorMap, e: Entry, t: DuplexType)
    requires IsDuplex(d, m, e) && t in m
    ensures exists i :: IsLastMeaning(e.options, t, e.mainKeyword, m[t], i)
  {
    var k :| IsLastOfType(m[t], t, Filter(IsDuplexKeyword(), e.options), e.mainKeyword, k);
    hide *;
    var i := LastMeaning(e, t, m[t], k);
  }

  /** The last of a type among the options that are kept is the last among all. */
  lemma LastMeaning(e: Entry, t: DuplexType, id: string, k: nat) returns (i: nat)
    requires IsLastOfType(id, t, Filter(IsDuplexKeyword(), e.options), e.mainKeyword, k)
    ensures IsLastMeaning(e.options, t, e.mainKeyword, id, i)
  {
    i := FilterRest(IsDuplexKeyword(), e.options, k);
    forall j | 0 <= j < |e.options|
      ensures DuplexTypeOf(e.options[j].optionKeyword) == Some(t) <==> Means(t, e.options[j].optionKeyword)
    {
      DuplexTypeMeans(e.options[j].optionKeyword, t);
    }
    hide Means, DuplexTypeOf, Filter;
  }

  function DuplexDefaults(d: seq<DuplexOption>): seq<bool> { seq(|d|, i requires 0 <= i < |d| => d[i].isDefault) }

  lemma DuplexHasOneDefault(d: seq<DuplexOption>, m: DuplexVendorMap, e: Entry)
    requires IsDuplex(d, m, e) && d != []
    ensures OneDefault(DuplexDefaults(d)) <==> AtMostOnce(Keywords(Filter(IsDuplexKeyword(), e.options)), e.defaultValue)
  {
    hide Flagged, OneDefault, AtMostOnce, DuplexTypeOf, IsDuplexMap;
    FlagsOneDefault(DuplexDefaults(d), Keywords(Filter(IsDuplexKeyword(), e.options)), e.defaultValue);
  }

  // ---- Vendor capabilities ----

  datatype SelectOption = SelectOption(value: string, name: string, isDefault: bool)

  datatype VendorCapability =
    | Select(id: string, name: string, options: seq<SelectOption>)
    | Flag(id: string, name: string, default: string)
    | Password(id: string)

  const JOB_TYPE := "JobType"
  const LOCKED_PRINT := "LockedPrint"
  const LOCKED_PRINT_PASSWORD := "LockedPrintPassword"
  const RICOH_PASSWORD := VendorID(JOB_TYPE, LOCKED_PRINT) + "/" + LOCKED_PRINT_PASSWORD

  lemma RicohIs()
    ensures RICOH_PASSWORD == "JobType:LockedPrint/LockedPrintPassword"
  {
    assert "JobType:" + "LockedPrint" == "JobType:LockedPrint";
    assert "JobType:LockedPrint/" + "LockedPrintPassword" == "JobType:LockedPrint/LockedPrintPassword";
  }

  ghost predicate IsSelect(c: seq<SelectOption>, e: Entry) {
    && |c| == |e.options|
    && forall i :: 0 <= i < |c| ==>
         c[i] == SelectOption(e.options[i].optionKeyword, e.options[i].translation,
                              Flagged(Keywords(e.options), e.defaultValue, i))
  }

  /** convertVendorCapability: without an option, its first index is out of range. */
  method ConvertVendorCapability(e: Entry) returns (vc: VendorCapability)
    requires e.options != []
    ensures vc.id == e.mainKeyword && !vc.Password?
    ensures e.entryType == PickOne ==> vc.Select? && IsSelect(vc.options, e)
    ensures e.entryType == Boolean ==> vc == Flag(e.mainKeyword, e.translation, e.defaultValue)
  {
    if e.entryType == Boolean { return Flag(e.mainKeyword, e.translation, e.defaultValue); }
    var options: seq<SelectOption>, foundDefault := [], false;
    for i := 0 to |e.options|
      invariant |options| == i
      invariant foundDefault <==> exists k :: 0 <= k < i && e.options[k].optionKeyword == e.defaultValue
      invariant forall k :: 0 <= k < i ==>
                  options[k] == SelectOption(e.options[k].optionKeyword, e.options[k].translation,
                                             e.options[k].optionKeyword == e.defaultValue)
    {
      var o := e.options[i];
      if e.defaultValue == o.optionKeyword { foundDefault := true; }
      options := options + [SelectOption(o.optionKeyword, o.translation, e.defaultValue == o.optionKeyword)];
    }
    ghost var ks := Keywords(e.options);
    assert foundDefault <==> e.defaultValue in ks by {
      assert forall k :: 0 <= k < |ks| ==> ks[k] == e.options[k].optionKeyword;
    }
    if !foundDefault {
      options := options[0 := options[0].(isDefault := true)];
    }
    return Select(e.mainKeyword, e.translation, options);
  }

  function SelectDefaults(c: seq<SelectOption>): seq<bool> { seq(|c|, i requires 0 <= i < |c| => c[i].isDefault) }

  lemma SelectHasOneDefault(c: seq<SelectOption>, e: Entry)
    requires IsSelect(c, e) && c != []
    ensures OneDefault(SelectDefaults(c)) <==> AtMostOnce(Keywords(e.options), e.defaultValue)
  {
    hide Flagged, OneDefault, AtMostOnce;
    FlagsOneDefault(SelectDefaults(c), Keywords(e.options), e.defaultValue);
  }

  // ---- The fallback for a missing default ----

  /** No statement of the group gives a usable default. */
  predicate FallsBack(g: seq<Statement>)
    requires g != []
  {
    EntryOf(g).Some? && !HasKeyword(EntryOf(g).value.options, DefaultOf(g))
  }

  /** The first of some statements has this keyword, or none has it. */
  predicate FirstOrNone(s: seq<Statement>, keyword: string) {
    s != [] && (!HasKeyword(s, keyword) || s[0].optionKeyword == keyword)
  }

  lemma FirstFlag(s: seq<Statement>, keyword: string)
    requires s != []
    ensures Flagged(Keywords(s), keyword, 0) <==> FirstOrNone(s, keyword)
    ensures FirstIndex(Keywords(s), keyword) == 0 <==> FirstOrNone(s, keyword)
  {
    var ks := Keywords(s);
    assert HasKeyword(s, keyword) <==> keyword in ks by {
      if i :| 0 <= i < |ks| && ks[i] == keyword { assert s[i].optionKeyword == keyword; }
      if i :| 0 <= i < |s| && s[i].optionKeyword == keyword { assert ks[i] == keyword; }
    }
  }

  /** The entry then falls back on the first option's value, which is compared with keywords from here on. */
  lemma FallbackIsValue(g: seq<Statement>)
    requires g != [] && FallsBack(g)
    ensures EntryOf(g).value.options != [] && EntryOf(g).value.defaultValue == EntryOf(g).value.options[0].value
  {
  }

  /**
   * So the first value of a select capability is its default if and only if no option has the first
   * option's value for its keyword, or the first option has.
   */
  lemma SelectFallback(c: seq<SelectOption>, g: seq<Statement>)
    requires g != [] && FallsBack(g) && IsSelect(c, EntryOf(g).value)
    ensures var options := EntryOf(g).value.options;
            options != [] && (c[0].isDefault <==> FirstOrNone(options, options[0].value))
  {
    FallbackIsValue(g);
    FirstFlag(EntryOf(g).value.options, EntryOf(g).value.defaultValue);
    hide EntryOf, Flagged, FirstIndex, Keywords;
  }

  /** Likewise among the colours, which are sorted by tint. */
  lemma ColorFallback(c: seq<ColorOption>, g: seq<Statement>, r: ColorRules)
    requires g != [] && FallsBack(g) && IsColor(c, EntryOf(g).value, r)
    ensures var e := EntryOf(g).value;
            c != [] && e.options != [] && (c[0].isDefault <==> FirstOrNone(ByTint(e, r), e.options[0].value))
  {
    FallbackIsValue(g);
    var e := EntryOf(g).value;
    ByTintIsEverything(e, r, e.options[0]);
    hide ByTint;
    FirstFlag(ByTint(e, r), e.defaultValue);
    hide EntryOf, Flagged, FirstIndex, Keywords, TypeOfTint, TintOf, ColorOptionOf;
  }

  /** Among the resolutions that parse. */
  lemma DPIFallback(d: seq<DPIOption>, g: seq<Statement>, parse: ResolutionParser)
    requires g != [] && FallsBack(g) && IsDPI(d, EntryOf(g).value, parse) && d != []
    ensures var e := EntryOf(g).value;
            e.options != [] && (d[0].isDefault <==> FirstOrNone(Filter(IsResolution(parse), e.options), e.options[0].value))
  {
    FallbackIsValue(g);
    var e := EntryOf(g).value;
    FirstFlag(Filter(IsResolution(parse), e.options), e.defaultValue);
    hide EntryOf, Flagged, FirstIndex, Keywords, Filter;
  }

  /** Among the media sizes that are known and not full-bleed. */
  lemma MediaSizeFallback(m: seq<MediaSizeOption>, g: seq<Statement>, sizes: MediaSizes)
    requires g != [] && FallsBack(g) && IsMediaSize(m, EntryOf(g).value, sizes) && m != []
    ensures var e := EntryOf(g).value;
            e.options != [] && (m[0].isDefault <==> FirstOrNone(Filter(HasSize(sizes), e.options), e.options[0].value))
  {
    FallbackIsValue(g);
    var e := EntryOf(g).value;
    FirstFlag(Filter(HasSize(sizes), e.options), e.defaultValue);
    hide EntryOf, Flagged, FirstIndex, Keywords, Filter;
  }

  /** Among the duplex options that are known. */
  lemma DuplexFallback(d: seq<DuplexOption>, m: DuplexVendorMap, g: seq<Statement>)
    requires g != [] && FallsBack(g) && IsDuplex(d, m, EntryOf(g).value) && d != []
    ensures var e := EntryOf(g).value;
            e.options != [] && (d[0].isDefault <==> FirstOrNone(Filter(IsDuplexKeyword(), e.options), e.options[0].value))
  {
    FallbackIsValue(g);
    var e := EntryOf(g).value;
    FirstFlag(Filter(IsDuplexKeyword(), e.options), e.defaultValue);
    hide EntryOf, Flagged, FirstIndex, Keywords, Filter, DuplexTypeOf, IsDuplexMap;
  }

  lemma OptionsNext(g: seq<Statement>, s: Statement, main: string)
    ensures OptionsOf(g + [s], main) == if IsOption(s, main) then OptionsOf(g, main) + [s] else OptionsOf(g, main)
    ensures DefaultOf(g + [s]) == if IsDefault(s) then s.value else DefaultOf(g)
  {
    FilterNext(IsOptionOf(main), g, s);
    assert (g + [s])[..|g|] == g;
  }

  lemma TwoOptions(h: Statement, a: Statement, b: Statement, main: string)
    requires !IsDefault(h) && !IsDefault(a) && !IsDefault(b)
    requires !IsOption(h, main) && IsOption(a, main) && IsOption(b, main)
    ensures DefaultOf([h, a, b]) == "" && OptionsOf([h, a, b], main) == [a, b]
  {
    assert OptionsOf([], main) == [] && DefaultOf([]) == "";
    hide IsDefault, IsOption, OptionsOf, DefaultOf;
    assert [] + [h] == [h] && [h] + [a] == [h, a] && [h, a] + [b] == [h, a, b];
    OptionsNext([], h, main);
    OptionsNext([h], a, main);
    OptionsNext([h, a], b, main);
  }

  lemma TwoKeywords(a: Statement, b: Statement)
    requires a.optionKeyword != b.optionKeyword
    ensures Flagged(Keywords([a, b]), b.optionKeyword, 1) && !Flagged(Keywords([a, b]), b.optionKeyword, 0)
  {
    var ks := Keywords([a, b]);
    assert ks[0] == a.optionKeyword && ks[1] == b.optionKeyword && ks[1] in ks;
  }

  /** An entry without a default statement, whose default is not its first option. */
  lemma FallbackMisfires(h: Statement, a: Statement, b: Statement, main: string)
    requires !IsDefault(h) && !IsDefault(a) && !IsDefault(b)
    requires h.optionKeyword == "*" + main && h.value == "PickOne"
    requires !IsOption(h, main) && IsOption(a, main) && IsOption(b, main)
    requires a.optionKeyword != "" && b.optionKeyword != "" && a.optionKeyword != b.optionKeyword == a.value
    ensures DefaultOf([h, a, b]) == "" && EntryOf([h, a, b]).Some?
    ensures var e := EntryOf([h, a, b]).value;
            e.options == [a, b] && Flagged(Keywords(e.options), e.defaultValue, 1) && !Flagged(Keywords(e.options), e.defaultValue, 0)
  {
    TwoOptions(h, a, b, main);
    TwoKeywords(a, b);
    assert h.optionKeyword[1..] == main;
    assert !HasKeyword([a, b], "");
    hide IsDefault, IsOption, Keywords, Flagged, OptionsOf, DefaultOf;
  }

  /** convertRicohLockedPrintPassword. */
  method ConvertRicohLockedPrintPassword(jobType: Entry) returns (vc: Option<VendorCapability>)
    ensures vc.Some? <==> HasKeyword(jobType.options, LOCKED_PRINT)
    ensures vc.Some? ==> vc.value == Password(RICOH_PASSWORD)
  {
    for i := 0 to |jobType.options|
      invariant forall k :: 0 <= k < i ==> jobType.options[k].optionKeyword != LOCKED_PRINT
    {
      if jobType.options[i].optionKeyword == LOCKED_PRINT { return Some(Password(RICOH_PASSWORD)); }
    }
    return None;
  }
}
