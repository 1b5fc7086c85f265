/** Native and cloud printers, and the diff between them (lib/printer.go). */
module Printers {
  import opened Cdd
  import opened Collections

  /** A deeply compared section (printer state or description), as its rendering. */
  type Section = string

  /** The identity of a semaphore object: who created it, and in which synchronisation. */
  datatype SemaphoreRef = SemaphoreRef(round: nat, owner: string)

  datatype Printer = Printer(
    gcpID: string,
    name: string,
    defaultDisplayName: string,
    uuid: string,
    manufacturer: string,
    model: string,
    gcpVersion: string,
    setupURL: string,
    supportURL: string,
    updateURL: string,
    connectorVersion: string,
    state: Option<Section>,
    description: Option<Section>,
    capsHash: string,
    tags: map<string, string>,
    duplexMap: Option<DuplexVendorMap>,
    semaphore: Option<SemaphoreRef>,
    quotaEnabled: bool,
    dailyQuota: int,
    notificationChannel: string)

  /** The Go zero value, sent when a printer is to be forgotten. */
  const NoPrinter := Printer("", "", "", "", "", "", "", "", "", "", "", None, None, "", map[], None, None, false, 0, "")

  const TAGSHASH := "tagshash"

  /** Tags count as equal when both carry a tagshash and the two agree. */
  predicate SameTagsHash(a: map<string, string>, b: map<string, string>) {
    TAGSHASH in a && TAGSHASH in b && a[TAGSHASH] == b[TAGSHASH]
  }

  /** No compared field differs. */
  predicate InSync(pn: Printer, pg: Printer) {
    && pg.defaultDisplayName == pn.defaultDisplayName
    && pg.manufacturer == pn.manufacturer
    && pg.model == pn.model
    && pg.gcpVersion == pn.gcpVersion
    && pg.setupURL == pn.setupURL
    && pg.supportURL == pn.supportURL
    && pg.updateURL == pn.updateURL
    && pg.connectorVersion == pn.connectorVersion
    && pg.state == pn.state
    && pg.description == pn.description
    && pg.capsHash == pn.capsHash
    && SameTagsHash(pg.tags, pn.tags)
    && pg.duplexMap == pn.duplexMap
    && pg.quotaEnabled == pn.quotaEnabled
    && pg.dailyQuota == pn.dailyQuota
    && pg.notificationChannel == pn.notificationChannel
  }

  /** The sixteen Changed flags. */
  datatype Changes = Changes(
    displayName: bool, manufacturer: bool, model: bool, gcpVersion: bool,
    setupURL: bool, supportURL: bool, updateURL: bool, connectorVersion: bool,
    state: bool, description: bool, capsHash: bool, tags: bool,
    duplexMap: bool, quotaEnabled: bool, dailyQuota: bool, notificationChannel: bool)
  {
    predicate Any() {
      displayName || manufacturer || model || gcpVersion ||
      setupURL || supportURL || updateURL || connectorVersion ||
      state || description || capsHash || tags ||
      duplexMap || quotaEnabled || dailyQuota || notificationChannel
    }
  }

  const UNCHANGED := Changes(false, false, false, false, false, false, false, false, false, false, false, false, false, false, false, false)

  datatype Operation = Register | Update | Delete | NoChange

  datatype PrinterDiff = PrinterDiff(operation: Operation, printer: Printer, changed: Changes)

  /** The cloud holds a newer API version than the native side: the diff panics. */
  predicate Downgrades(pn: Printer, pg: Printer) {
    StringLess(pn.gcpVersion, pg.gcpVersion)
  }

  function ChangesOf(pn: Printer, pg: Printer): Changes {
    Changes(
      pg.defaultDisplayName != pn.defaultDisplayName,
      pg.manufacturer != pn.manufacturer,
      pg.model != pn.model,
      pg.gcpVersion != pn.gcpVersion,
      pg.setupURL != pn.setupURL,
      pg.supportURL != pn.supportURL,
      pg.updateURL != pn.updateURL,
      pg.connectorVersion != pn.connectorVersion,
      pg.state != pn.state,
      pg.description != pn.description,
      pg.capsHash != pn.capsHash,
      !SameTagsHash(pg.tags, pn.tags),
      pg.duplexMap != pn.duplexMap,
      pg.quotaEnabled != pn.quotaEnabled,
      pg.dailyQuota != pn.dailyQuota,
      pg.notificationChannel != pn.notificationChannel)
  }

  function FieldDiff(pn: Printer, pg: Printer): PrinterDiff {
    if !InSync(pn, pg) then PrinterDiff(Update, pn, ChangesOf(pn, pg))
    else PrinterDiff(NoChange, pg, UNCHANGED)
  }

  lemma AnyMeans(pn: Printer, pg: Printer)
    ensures ChangesOf(pn, pg).Any() <==> !InSync(pn, pg)
  {
  }

  /** diffPrinter; None is a panic. */
  method DiffPrinter(pn: Printer, pg: Printer) returns (r: Option<PrinterDiff>)
    ensures r == if Downgrades(pn, pg) then None else Some(FieldDiff(pn, pg))
  {
    StringLessIrreflexive(pn.gcpVersion);
    if pg.gcpVersion != pn.gcpVersion {
      if StringLess(pn.gcpVersion, pg.gcpVersion) { return None; }
    }
    var tagsChanged :=
      TAGSHASH !in pg.tags || TAGSHASH !in pn.tags || pg.tags[TAGSHASH] != pn.tags[TAGSHASH];
    var changed := Changes(
      pg.defaultDisplayName != pn.defaultDisplayName, pg.manufacturer != pn.manufacturer, pg.model != pn.model,
      pg.gcpVersion != pn.gcpVersion, pg.setupURL != pn.setupURL, pg.supportURL != pn.supportURL,
      pg.updateURL != pn.updateURL, pg.connectorVersion != pn.connectorVersion, pg.state != pn.state,
      pg.description != pn.description, pg.capsHash != pn.capsHash, tagsChanged, pg.duplexMap != pn.duplexMap,
      pg.quotaEnabled != pn.quotaEnabled, pg.dailyQuota != pn.dailyQuota,
      pg.notificationChannel != pn.notificationChannel);
    assert changed == ChangesOf(pn, pg);
    AnyMeans(pn, pg);
    hide InSync, ChangesOf, Changes.Any;
    return Some(if changed.Any() then PrinterDiff(Update, pn, changed) else PrinterDiff(NoChange, pg, UNCHANGED));
  }

  lemma {:induction false} StringLessIrreflexive(s: string)
    ensures !StringLess(s, s)
  {
    if s != "" { StringLessIrreflexive(s[1..]); }
  }

  // ---- DiffPrinters ----

  /** printerSliceToMapByName: the last printer of a name wins. */
  function ByName(ps: seq<Printer>): map<string, Printer> {
    if ps == [] then map[] else ByName(ps[..|ps| - 1])[ps[|ps| - 1].name := ps[|ps| - 1]]
  }

  lemma {:induction false} ByNameMembers(ps: seq<Printer>)
    ensures forall n :: n in ByName(ps) <==> exists i :: 0 <= i < |ps| && ps[i].name == n
    ensures forall n :: n in ByName(ps) ==> ByName(ps)[n] in ps && ByName(ps)[n].name == n
  {
    if ps != [] {
      var rest := ps[..|ps| - 1];
      ByNameMembers(rest);
      forall n ensures n in ByName(ps) <==> exists i :: 0 <= i < |ps| && ps[i].name == n {
        if n in ByName(rest) {
          var i :| 0 <= i < |rest| && rest[i].name == n;
          assert ps[i].name == n;
        } else if n in ByName(ps) {
          assert ps[|ps| - 1].name == n;
        } else {
          assert forall i :: 0 <= i < |rest| ==> rest[i] == ps[i];
        }
      }
    }
  }

  predicate DistinctNames(ps: seq<Printer>) {
    forall i, j :: 0 <= i < j < |ps| ==> ps[i].name != ps[j].name
  }

  /** With distinct names, the index and the slice say the same. */
  lemma {:induction false} ByNameAt(ps: seq<Printer>)
    requires DistinctNames(ps)
    ensures forall i :: 0 <= i < |ps| ==> ps[i].name in ByName(ps) && ByName(ps)[ps[i].name] == ps[i]
  {
    if ps != [] {
      ByNameAt(ps[..|ps| - 1]);
      assert forall i :: 0 <= i < |ps| - 1 ==> ps[..|ps| - 1][i] == ps[i];
    }
  }

  /** The native printer as diffPrinter sees it: the cloud ID and the semaphore carried over. */
  function Carried(native: Printer, known: Printer): Printer {
    native.(gcpID := known.gcpID, semaphore := known.semaphore)
  }

  predicate FirstOfName(gcp: seq<Printer>, i: nat)
    requires i < |gcp|
  {
    forall j :: 0 <= j < i ==> gcp[j].name != gcp[i].name
  }

  /** Cloud printer i is matched with a native printer: it has one, and is the first of its name. */
  predicate Matched(native: seq<Printer>, gcp: seq<Printer>, i: nat)
    requires i < |gcp|
  {
    FirstOfName(gcp, i) && gcp[i].name in ByName(native)
  }

  function Match(native: seq<Printer>, gcp: seq<Printer>, i: nat): Printer
    requires i < |gcp| && Matched(native, gcp, i)
  {
    Carried(ByName(native)[gcp[i].name], gcp[i])
  }

  /** What becomes of cloud printer i: the first of its name is compared, all others are deleted. */
  ghost function CloudDiff(native: seq<Printer>, gcp: seq<Printer>, i: nat): PrinterDiff
    requires i < |gcp|
  {
    if Matched(native, gcp, i) then FieldDiff(Match(native, gcp, i), gcp[i])
    else PrinterDiff(Delete, gcp[i], UNCHANGED)
  }

  ghost function NamesOf(ps: seq<Printer>): set<string> {
    set p | p in ps :: p.name
  }

  /** Native printers unknown to the cloud are registered, in order. */
  function Registrations(native: seq<Printer>, names: set<string>): seq<PrinterDiff> {
    if native == [] then []
    else
      var last := native[|native| - 1];
      Registrations(native[..|native| - 1], names)
      + if last.name in names then [] else [PrinterDiff(Register, last, UNCHANGED)]
  }

  ghost function AllDiffs(native: seq<Printer>, gcp: seq<Printer>): seq<PrinterDiff> {
    seq(|gcp|, i requires 0 <= i < |gcp| => CloudDiff(native, gcp, i)) + Registrations(native, NamesOf(gcp))
  }

  ghost predicate SomeDowngrade(native: seq<Printer>, gcp: seq<Printer>) {
    exists i :: 0 <= i < |gcp| && DowngradeAt(native, gcp, i)
  }

  ghost predicate NothingToDo(diffs: seq<PrinterDiff>) {
    forall d :: d in diffs ==> d.operation == NoChange
  }

  datatype DiffResult = Panicked | Clean | Dirty(diffs: seq<PrinterDiff>)

  ghost function DiffOf(native: seq<Printer>, gcp: seq<Printer>): DiffResult {
    if SomeDowngrade(native, gcp) then Panicked
    else if NothingToDo(AllDiffs(native, gcp)) then Clean
    else Dirty(AllDiffs(native, gcp))
  }

  method SliceToMapByName(s: seq<Printer>) returns (m: map<string, Printer>)
    ensures m == ByName(s)
  {
    m := map[];
    for i := 0 to |s|
      invariant m == ByName(s[..i])
    {
      m := m[s[i].name := s[i]];
      assert s[..i + 1][..i] == s[..i];
    }
    assert s[..|s|] == s;
  }

  lemma AppendDirty(diffs: seq<PrinterDiff>, d: PrinterDiff)
    ensures NothingToDo(diffs + [d]) <==> NothingToDo(diffs) && d.operation == NoChange
  {
  }

  lemma {:induction false} AppendRegistrations(diffs: seq<PrinterDiff>, native: seq<Printer>, names: set<string>)
    ensures var regs := Registrations(native, names);
            NothingToDo(diffs + regs) <==> NothingToDo(diffs) && regs == []
  {
    var regs := Registrations(native, names);
    if regs == [] {
      assert diffs + regs == diffs;
    } else {
      RegistersOnly(native, names);
      assert regs[0] in regs && regs[0] in diffs + regs && regs[0].operation != NoChange;
    }
  }

  lemma {:induction false} RegistersOnly(native: seq<Printer>, names: set<string>)
    ensures forall d :: d in Registrations(native, names) ==> d.operation == Register
  {
    if native != [] { RegistersOnly(native[..|native| - 1], names); }
  }

  lemma NamesOfAppend(gcp: seq<Printer>, i: nat)
    requires i < |gcp|
    ensures NamesOf(gcp[..i + 1]) == NamesOf(gcp[..i]) + {gcp[i].name}
    ensures gcp[i].name in NamesOf(gcp[..i]) <==> !FirstOfName(gcp, i)
  {
    assert gcp[..i + 1] == gcp[..i] + [gcp[i]];
    assert forall j :: 0 <= j < i ==> gcp[..i][j] == gcp[j] && gcp[j] in gcp[..i];
  }

  /** The comparison of cloud printer i panics. */
  predicate DowngradeAt(native: seq<Printer>, gcp: seq<Printer>, i: nat)
    requires i < |gcp|
  {
    Matched(native, gcp, i) && Downgrades(Match(native, gcp, i), gcp[i])
  }

  /** The body of the first loop, for one cloud printer; None is a panic. */
  method DiffKnown(nativeByName: map<string, Printer>, considered: set<string>, native: seq<Printer>, gcp: seq<Printer>, i: nat)
    returns (d: Option<PrinterDiff>)
    requires i < |gcp| && nativeByName == ByName(native)
    requires considered == NamesOf(gcp[..i])
    ensures d == if DowngradeAt(native, gcp, i) then None else Some(CloudDiff(native, gcp, i))
  {
    NamesOfAppend(gcp, i);
    if gcp[i].name !in considered && gcp[i].name in nativeByName {
      d := DiffPrinter(Carried(nativeByName[gcp[i].name], gcp[i]), gcp[i]);
    } else {
      d := Some(PrinterDiff(Delete, gcp[i], UNCHANGED));
    }
  }

  /** The second loop: native printers that no cloud printer was considered for. */
  method DiffUnknown(native: seq<Printer>, considered: set<string>) returns (diffs: seq<PrinterDiff>)
    ensures diffs == Registrations(native, considered)
  {
    diffs := [];
    for i := 0 to |native|
      invariant diffs == Registrations(native[..i], considered)
    {
      assert native[..i + 1][..i] == native[..i];
      if native[i].name !in considered {
        diffs := diffs + [PrinterDiff(Register, native[i], UNCHANGED)];
      }
    }
    assert native[..|native|] == native;
  }

  /** DiffPrinters. Clean is the nil slice. */
  method DiffPrinters(native: seq<Printer>, gcp: seq<Printer>) returns (r: DiffResult)
    ensures r == DiffOf(native, gcp)
  {
    hide CloudDiff, Matched, Match, Downgrades;
    var dirty := false;
    var diffs: seq<PrinterDiff> := [];
    var considered: set<string> := {};
    var nativeByName := SliceToMapByName(native);

    for i := 0 to |gcp|
      invariant considered == NamesOf(gcp[..i])
      invariant |diffs| == i
      invariant forall j :: 0 <= j < i ==> diffs[j] == CloudDiff(native, gcp, j)
      invariant forall j :: 0 <= j < i ==> !DowngradeAt(native, gcp, j)
      invariant dirty <==> !NothingToDo(diffs)
    {
      var diff := DiffKnown(nativeByName, considered, native, gcp, i);
      if diff == None { return Panicked; }
      AppendDirty(diffs, diff.value);
      NamesOfAppend(gcp, i);
      considered := considered + {gcp[i].name};
      diffs := diffs + [diff.value];
      if diff.value.operation != NoChange { dirty := true; }
    }
    assert gcp[..|gcp|] == gcp;

    var registrations := DiffUnknown(native, considered);
    AppendRegistrations(diffs, native, considered);
    diffs := diffs + registrations;
    if registrations != [] { dirty := true; }
    assert diffs == AllDiffs(native, gcp);
    return if dirty then Dirty(diffs) else Clean;
  }

  // ---- What the diff is, by positions ----

  /** Printer i is the last one of this name. */
  predicate IsLastNamed(ps: seq<Printer>, name: string, i: nat) {
    i < |ps| && ps[i].name == name && forall j :: i < j < |ps| ==> ps[j].name != name
  }

  lemma {:induction false} ByNameIsLast(ps: seq<Printer>, name: string, i: nat)
    ensures IsLastNamed(ps, name, i) ==> name in ByName(ps) && ByName(ps)[name] == ps[i]
  {
    if ps != [] && i < |ps| - 1 { ByNameIsLast(ps[..|ps| - 1], name, i); }
  }

  predicate NoneNamed(ps: seq<Printer>, name: string) { forall i :: 0 <= i < |ps| ==> ps[i].name != name }

  /**
   * Cloud printer i is deleted if another of its name comes before it, or no native printer has its name; otherwise it is
   * compared with the last native one of that name, which takes over its ID and semaphore.
   */
  lemma DiffMeans(native: seq<Printer>, gcp: seq<Printer>, i: nat, k: nat)
    requires i < |gcp|
    ensures |AllDiffs(native, gcp)| >= |gcp|
    ensures !NoneNamed(gcp[..i], gcp[i].name) || NoneNamed(native, gcp[i].name) ==>
              AllDiffs(native, gcp)[i] == PrinterDiff(Delete, gcp[i], UNCHANGED)
    ensures NoneNamed(gcp[..i], gcp[i].name) && IsLastNamed(native, gcp[i].name, k) ==>
              var p := native[k].(gcpID := gcp[i].gcpID, semaphore := gcp[i].semaphore);
              AllDiffs(native, gcp)[i] == if InSync(p, gcp[i]) then PrinterDiff(NoChange, gcp[i], UNCHANGED)
                                          else PrinterDiff(Update, p, ChangesOf(p, gcp[i]))
  {
    ByNameIsLast(native, gcp[i].name, k);
    ByNameMembers(native);
    assert AllDiffs(native, gcp)[i] == CloudDiff(native, gcp, i);
    assert FirstOfName(gcp, i) <==> NoneNamed(gcp[..i], gcp[i].name);
    hide ByName, InSync, ChangesOf, Registrations;
  }

  function IsUnknown(gcp: seq<Printer>): Printer -> bool { (p: Printer) => NoneNamed(gcp, p.name) }

  /** After these, every native printer whose name the cloud does not have is registered, in order. */
  lemma {:induction false} RegistrationsMean(native: seq<Printer>, gcp: seq<Printer>)
    ensures var unknown, regs := Filter(IsUnknown(gcp), native), Registrations(native, NamesOf(gcp));
            |regs| == |unknown| && forall i :: 0 <= i < |regs| ==> regs[i] == PrinterDiff(Register, unknown[i], UNCHANGED)
    ensures AllDiffs(native, gcp)[|gcp|..] == Registrations(native, NamesOf(gcp))
  {
    if native != [] {
      var rest, last := native[..|native| - 1], native[|native| - 1];
      RegistrationsMean(rest, gcp);
      assert last.name in NamesOf(gcp) <==> !NoneNamed(gcp, last.name);
      hide NamesOf, NoneNamed;
    }
    hide CloudDiff;
  }
}
