/** What the statements outside all UIs say of a printer (the end of translatePPD in cups/translate-ppd.go). */
module PpdStandAlones {
  import opened Collections
  import opened Ppd
  import opened PpdEntries
  import opened Capabilities

  const MANUFACTURER := "Manufacturer"
  const NICK_NAME := "NickName"
  const HW_MARGINS := "HWMargins"
  const THROUGHPUT := "Throughput"

  /**
   * Patterns and number conversions: strip deletes what is superfluous in a model, numbers are the four numbers of
   * hardware margins, integer reads 32 bits, and microns converts points.
   */
  datatype Texts = Texts(
    strip: string -> string, numbers: string -> Option<seq<string>>, integer: string -> Option<int>, microns: int -> int)

  /** Deleting matches shortens a text, if there is anything to delete; margins have four numbers. */
  ghost predicate Sensible(t: Texts) {
    && (forall s :: |t.strip(s)| < |s| || t.strip(s) == s)
    && forall s :: t.numbers(s).Some? ==> |t.numbers(s).value| == 4
  }

  // ---- The model ----

  function TrimSuffix(s: string, suffix: string): (r: string)
    ensures r == s || r + suffix == s
    ensures |suffix| <= |s| && s[|s| - |suffix|..] == suffix ==> r + suffix == s
    ensures |r| <= |s| && (|r| == |s| ==> r == s)
  {
    if |suffix| <= |s| && s[|s| - |suffix|..] == suffix then s[..|s| - |suffix|] else s
  }

  function CleanStep(s: string, t: Texts): string { TrimSuffix(TrimSuffix(t.strip(s), ","), "(PS)") }

  /** The model with all that is superfluous taken off, over and over. */
  ghost function Cleaned(s: string, t: Texts): (r: string)
    requires Sensible(t)
    ensures CleanStep(r, t) == r
    decreases |s|
  {
    if CleanStep(s, t) == s then s else Cleaned(CleanStep(s, t), t)
  }

  /** The model after n rounds: superfluous words are deleted, then a comma at the end, then "(PS)" at the end. */
  function AfterSteps(s: string, t: Texts, n: nat): string {
    if n == 0 then s else TrimSuffix(TrimSuffix(t.strip(AfterSteps(s, t, n - 1)), ","), "(PS)")
  }

  predicate EndsWith(s: string, suffix: string) { |suffix| <= |s| && s[|s| - |suffix|..] == suffix }

  lemma {:induction false} StepFirst(s: string, t: Texts, n: nat)
    ensures AfterSteps(CleanStep(s, t), t, n) == AfterSteps(s, t, n + 1)
  {
    hide TrimSuffix, CleanStep, AfterSteps;
    NextStep(s, t, n);
    NextStep(CleanStep(s, t), t, if n > 0 then n - 1 else 0);
    if n > 0 { StepFirst(s, t, n - 1); }
  }

  lemma NextStep(s: string, t: Texts, n: nat)
    ensures AfterSteps(s, t, n + 1) == CleanStep(AfterSteps(s, t, n), t) && AfterSteps(s, t, 0) == s
  {
    hide TrimSuffix;
  }

  /** So the clean-up takes off nothing else, and leaves nothing superfluous. */
  lemma {:induction false} CleanedIsClean(s: string, t: Texts) returns (n: nat)
    requires Sensible(t)
    ensures Cleaned(s, t) == AfterSteps(s, t, n)
    ensures var r := Cleaned(s, t); t.strip(r) == r && !EndsWith(r, ",") && !EndsWith(r, "(PS)")
    decreases |s|
  {
    NothingLeft(Cleaned(s, t), t);
    if CleanStep(s, t) == s {
      n := 0;
    } else {
      n := CleanedIsClean(CleanStep(s, t), t);
      hide TrimSuffix;
      StepFirst(s, t, n);
      n := n + 1;
    }
  }

  lemma NothingLeft(r: string, t: Texts)
    requires Sensible(t) && CleanStep(r, t) == r
    ensures t.strip(r) == r && !EndsWith(r, ",") && !EndsWith(r, "(PS)")
  {
    var a := t.strip(r);
    var b := TrimSuffix(a, ",");
    assert |TrimSuffix(b, "(PS)")| <= |b| <= |a| <= |r|;
    assert |","| == 1 && |"(PS)"| == 4;
  }

  /** cleanupModel ends, with nothing superfluous left. */
  method CleanupModel(model: string, t: Texts) returns (r: string)
    requires Sensible(t)
    ensures r == Cleaned(model, t)
  {
    r := model;
    while true
      invariant Cleaned(r, t) == Cleaned(model, t)
      decreases |r|
    {
      var newModel := t.strip(r);
      newModel := TrimSuffix(newModel, ",");
      newModel := TrimSuffix(newModel, "(PS)");
      if r == newModel { break; }
      r := newModel;
    }
  }

  /** Without the spaces at the beginning. */
  function TrimLeft(s: string): (r: string)
    ensures r == "" || r[0] != ' '
    ensures |r| <= |s| && s[|s| - |r|..] == r && forall i :: 0 <= i < |s| - |r| ==> s[i] == ' '
  {
    if s != "" && s[0] == ' ' then TrimLeft(s[1..]) else s
  }

  // ---- Margins and speed ----

  /** In microns; borderless margins are not standard. */
  datatype HardwareMargins = HardwareMargins(standard: bool, left: int, bottom: int, right: int, top: int)

  datatype PrintingSpeed = PrintingSpeed(pagesPerMinute: int, types: Option<set<ColorType>>)

  ghost predicate AreMargins(m: Option<HardwareMargins>, value: string, t: Texts)
    requires Sensible(t)
  {
    var n := t.numbers(value);
    && (m.Some? <==> n.Some? && forall i :: 0 <= i < 4 ==> t.integer(n.value[i]).Some?)
    && (m.Some? ==>
          var left, bottom := t.integer(n.value[0]).value, t.integer(n.value[1]).value;
          var right, top := t.integer(n.value[2]).value, t.integer(n.value[3]).value;
          && (m.value.standard <==> left > 0 || bottom > 0 || right > 0 || top > 0)
          && m.value.left == t.microns(left) && m.value.bottom == t.microns(bottom)
          && m.value.right == t.microns(right) && m.value.top == t.microns(top))
  }

  /** convertMargins: the numbers are for left, bottom, right, top; all zero is borderless. */
  method ConvertMargins(value: string, t: Texts) returns (m: Option<HardwareMargins>)
    requires Sensible(t)
    ensures AreMargins(m, value, t)
    ensures m.Some? ==>
              var n := t.numbers(value).value;
              && t.integer(n[0]).Some? && m.value.left == t.microns(t.integer(n[0]).value)
              && t.integer(n[1]).Some? && m.value.bottom == t.microns(t.integer(n[1]).value)
              && t.integer(n[2]).Some? && m.value.right == t.microns(t.integer(n[2]).value)
              && t.integer(n[3]).Some? && m.value.top == t.microns(t.integer(n[3]).value)
  {
    var found := t.numbers(value);
    if found.None? { return None; }
    var standard, microns: seq<int> := false, [];
    for i := 0 to |found.value|
      invariant |microns| == i
      invariant forall k :: 0 <= k < i ==>
                  t.integer(found.value[k]).Some? && microns[k] == t.microns(t.integer(found.value[k]).value)
      invariant standard <==> exists k :: 0 <= k < i && t.integer(found.value[k]).value > 0
    {
      var points := t.integer(found.value[i]);
      if points.None? { return None; }
      if points.value > 0 { standard := true; }
      microns := microns + [t.microns(points.value)];
    }
    assert forall k :: 0 <= k < 4 ==> t.integer(found.value[k]).Some?;
    return Some(HardwareMargins(standard, microns[0], microns[1], microns[2], microns[3]));
  }

  ghost function TypesOf(color: seq<ColorOption>): set<ColorType> { set o | o in color :: o.ctype }

  ghost function SpeedOf(throughput: string, color: Option<seq<ColorOption>>, t: Texts): Option<PrintingSpeed> {
    var n := t.integer(throughput);
    if n.None? then None
    else Some(PrintingSpeed(n.value, if color.None? then None else Some(TypesOf(color.value))))
  }

  /** convertPrintingSpeed: the speed is for all colour types that the printer advertises, each once. */
  method ConvertPrintingSpeed(throughput: string, color: Option<seq<ColorOption>>, t: Texts) returns (s: Option<PrintingSpeed>)
    ensures s == SpeedOf(throughput, color, t)
    ensures s.Some? ==>
              && t.integer(throughput) == Some(s.value.pagesPerMinute) && (s.value.types.Some? <==> color.Some?)
              && (color.Some? ==> forall x :: x in s.value.types.value <==> exists o :: o in color.value && o.ctype == x)
  {
    var n := t.integer(throughput);
    if n.None? { return None; }
    var types: Option<set<ColorType>> := None;
    if color.Some? {
      var all: set<ColorType> := {};
      for i := 0 to |color.value|
        invariant all == TypesOf(color.value[..i])
      {
        TypesNext(color.value, i);
        hide TypesOf;
        all := all + {color.value[i].ctype};
      }
      assert color.value[..|color.value|] == color.value;
      types := Some(all);
    }
    return Some(PrintingSpeed(n.value, types));
  }

  lemma TypesNext(color: seq<ColorOption>, i: nat)
    requires i < |color|
    ensures TypesOf(color[..i + 1]) == TypesOf(color[..i]) + {color[i].ctype}
  {
    assert color[..i + 1] == color[..i] + [color[i]];
    forall x | x in TypesOf(color[..i + 1]) ensures x in TypesOf(color[..i]) + {color[i].ctype} {
      var o :| o in color[..i + 1] && o.ctype == x;
    }
  }

  // ---- All of them ----

  /** The value of the last statement with a keyword. */
  function LastValue(s: seq<Statement>, keyword: string): Option<string> {
    if s == [] then None
    else if s[|s| - 1].mainKeyword == keyword then Some(s[|s| - 1].value)
    else LastValue(s[..|s| - 1], keyword)
  }

  function Or(o: Option<string>, otherwise: string): string { if o.Some? then o.value else otherwise }

  datatype StandAlone = StandAlone(
    manufacturer: string, model: string, margins: Option<HardwareMargins>, speed: Option<PrintingSpeed>)

  ghost function NamedModel(s: seq<Statement>, t: Texts): string
    requires Sensible(t)
  {
    var nickName := LastValue(s, NICK_NAME);
    if nickName.None? then "" else Cleaned(nickName.value, t)
  }

  /** Of each kind of statement the last one counts. */
  ghost predicate SaysSoFar(s: seq<Statement>, color: Option<seq<ColorOption>>, t: Texts, r: StandAlone, model: string)
    requires Sensible(t)
  {
    var margins, throughput := LastValue(s, HW_MARGINS), LastValue(s, THROUGHPUT);
    && r.manufacturer == Or(LastValue(s, MANUFACTURER), "") && r.model == model
    && (if margins.None? then r.margins == None else AreMargins(r.margins, margins.value, t))
    && r.speed == (if throughput.None? then None else SpeedOf(throughput.value, color, t))
  }

  /** And the model does not repeat the manufacturer. */
  ghost predicate Says(s: seq<Statement>, color: Option<seq<ColorOption>>, t: Texts, r: StandAlone)
    requires Sensible(t)
  {
    SaysSoFar(s, color, t, r, TrimLeft(TrimPrefix(NamedModel(s, t), r.manufacturer)))
  }

  lemma KeywordsDiffer()
    ensures |{MANUFACTURER, NICK_NAME, HW_MARGINS, THROUGHPUT}| == 4
  {
    assert |MANUFACTURER| == 12 && |NICK_NAME| == 8 && |HW_MARGINS| == 9 && |THROUGHPUT| == 10;
  }

  lemma LastValueNext(s: seq<Statement>, i: nat, keyword: string)
    requires i < |s|
    ensures LastValue(s[..i + 1], keyword) == if s[i].mainKeyword == keyword
        then Some(s[i].value) else LastValue(s[..i], keyword)
  {
    assert s[..i + 1][..i] == s[..i];
  }

  /** One round of the loop. */
  method ReadOne(r: StandAlone, standAlones: seq<Statement>, i: nat, color: Option<seq<ColorOption>>,
      t: Texts) returns (n: StandAlone)
    requires Sensible(t) && i < |standAlones| && SaysSoFar(standAlones[..i], color, t, r, NamedModel(standAlones[..i], t))
    ensures SaysSoFar(standAlones[..i + 1], color, t, n, NamedModel(standAlones[..i + 1], t))
  {
    var s := standAlones[i];
    LastValueNext(standAlones, i, MANUFACTURER);
    LastValueNext(standAlones, i, NICK_NAME);
    LastValueNext(standAlones, i, HW_MARGINS);
    LastValueNext(standAlones, i, THROUGHPUT);
    KeywordsDiffer();
    hide LastValue, Cleaned, AreMargins, SpeedOf, Sensible;
    n := r;
    if s.mainKeyword == MANUFACTURER {
      n := n.(manufacturer := s.value);
    } else if s.mainKeyword == NICK_NAME {
      var model := CleanupModel(s.value, t);
      n := n.(model := model);
    } else if s.mainKeyword == HW_MARGINS {
      var margins := ConvertMargins(s.value, t);
      n := n.(margins := margins);
    } else if s.mainKeyword == THROUGHPUT {
      var speed := ConvertPrintingSpeed(s.value, color, t);
      n := n.(speed := speed);
    }
  }

  /** Statement i is the last one with this keyword. */
  predicate IsLastOf(s: seq<Statement>, keyword: string, i: int) {
    && 0 <= i < |s| && s[i].mainKeyword == keyword && forall j :: i < j < |s| ==> s[j].mainKeyword != keyword
  }

  predicate NoneOf(s: seq<Statement>, keyword: string) { forall j :: 0 <= j < |s| ==> s[j].mainKeyword != keyword }

  lemma {:induction false} LastValueIsLast(s: seq<Statement>, keyword: string, i: int)
    ensures IsLastOf(s, keyword, i) ==> LastValue(s, keyword) == Some(s[i].value)
    ensures NoneOf(s, keyword) ==> LastValue(s, keyword).None?
  {
    if s != [] { LastValueIsLast(s[..|s| - 1], keyword, i); }
  }

  /** What the stand-alone statements say, by their keywords; of each kind the last one. */
  lemma SaysMeans(s: seq<Statement>, color: Option<seq<ColorOption>>, t: Texts, r: StandAlone, i: nat)
    requires Sensible(t) && Says(s, color, t, r) && i < |s|
    ensures IsLastOf(s, "Manufacturer", i) ==> r.manufacturer == s[i].value
    ensures IsLastOf(s, "NickName", i) ==> r.model == TrimLeft(TrimPrefix(Cleaned(s[i].value, t), r.manufacturer))
    ensures IsLastOf(s, "HWMargins", i) ==> AreMargins(r.margins, s[i].value, t)
    ensures IsLastOf(s, "Throughput", i) ==> r.speed == SpeedOf(s[i].value, color, t)
  {
    LastValueIsLast(s, MANUFACTURER, i);
    LastValueIsLast(s, NICK_NAME, i);
    LastValueIsLast(s, HW_MARGINS, i);
    LastValueIsLast(s, THROUGHPUT, i);
    hide LastValue, Cleaned, AreMargins, SpeedOf, Sensible, IsLastOf, NoneOf, TrimLeft, TrimPrefix;
  }

  lemma SaysNothing(s: seq<Statement>, color: Option<seq<ColorOption>>, t: Texts, r: StandAlone)
    requires Sensible(t) && Says(s, color, t, r)
    ensures NoneOf(s, "Manufacturer") ==> r.manufacturer == ""
    ensures NoneOf(s, "NickName") ==> r.model == ""
    ensures NoneOf(s, "HWMargins") ==> r.margins == None
    ensures NoneOf(s, "Throughput") ==> r.speed == None
  {
    LastValueIsLast(s, MANUFACTURER, 0);
    LastValueIsLast(s, NICK_NAME, 0);
    LastValueIsLast(s, HW_MARGINS, 0);
    LastValueIsLast(s, THROUGHPUT, 0);
    NothingToTrim(r.manufacturer);
    hide LastValue, Cleaned, AreMargins, SpeedOf, Sensible, IsLastOf, NoneOf, TrimLeft, TrimPrefix;
  }

  lemma NothingToTrim(prefix: string)
    ensures TrimLeft(TrimPrefix("", prefix)) == ""
  {
  }

  method ReadStandAlones(standAlones: seq<Statement>, color: Option<seq<ColorOption>>, t: Texts) returns (r: StandAlone)
    requires Sensible(t)
    ensures Says(standAlones, color, t, r)
  {
    r := StandAlone("", "", None, None);
    for i := 0 to |standAlones|
      invariant SaysSoFar(standAlones[..i], color, t, r, NamedModel(standAlones[..i], t))
    {
      hide SaysSoFar;
      r := ReadOne(r, standAlones, i, color, t);
    }
    assert standAlones[..|standAlones|] == standAlones;
    r := r.(model := TrimLeft(TrimPrefix(r.model, r.manufacturer)));
  }
}
