/** Printer synchronisation (manager/printermanager.go): diff, concurrent apply, fan-in, refresh. */
module Sync {
  import opened Collections
  import opened Printers
  import opened PrinterMap

  /**
   * The cloud's answer to the one call made for a printer; the rest is for a registration: the ID that it
   * yields, and the quota that the cloud gives the new printer.
   */
  datatype Reply = Reply(ok: bool, newID: string, quotaEnabled: bool, dailyQuota: int)

  type Replies = string -> Reply

  /** What distinguishes one round of synchronisation from another. */
  datatype Round = Round(number: nat, inCloud: bool, replies: Replies) {
    predicate Registers(name: string) { !inCloud || replies(name).ok }
  }

  /** A newly registered printer: its ID from the cloud, and a semaphore of its own. */
  function Registered(p: Printer, r: Round): Printer {
    p.(gcpID := if r.inCloud then r.replies(p.name).newID else p.gcpID,
       semaphore := Some(SemaphoreRef(r.number, p.name)))
  }

  /** The one message a goroutine sends; the zero printer means "forget it". */
  function Message(d: PrinterDiff, r: Round): Printer {
    match d.operation
    case Register => if r.Registers(d.printer.name) then Registered(d.printer, r) else NoPrinter
    case Update => d.printer
    case Delete => NoPrinter
    case NoChange => d.printer
  }

  /** The buffered channel the goroutines send on, and the collector receives from. */
  class Channel {
    var sent: seq<Printer>

    constructor ()
      ensures sent == []
    {
      sent := [];
    }

    method Send(p: Printer)
      modifies this
      ensures sent == old(sent) + [p]
    {
      sent := sent + [p];
    }

    method Receive() returns (p: Printer)
      requires sent != []
      modifies this
      ensures [p] + sent == old(sent)
    {
      p := sent[0];
      sent := sent[1..];
    }
  }

  /** The snapshot after the hashes and the notification channel are filled in. */
  ghost predicate Prepared(native: seq<Printer>) {
    forall i :: 0 <= i < |native| ==> TAGSHASH in native[i].tags
  }

  ghost predicate GoodSnapshot(native: seq<Printer>) {
    DistinctNames(native) && forall i :: 0 <= i < |native| ==> native[i].name != ""
  }

  /** What a known printer becomes: the native printer under the known ID and semaphore. */
  function Merged(native: Printer, known: Printer): Printer {
    if InSync(Carried(native, known), known) then known else Carried(native, known)
  }

  /** The printers known after a round, name by name. */
  function Synced(known: map<string, Printer>, native: seq<Printer>, r: Round): map<string, Printer> {
    var want := ByName(native);
    map n | n in want && (n in known || r.Registers(n)) ::
      if n in known then Merged(want[n], known[n]) else Registered(want[n], r)
  }

  lemma {:induction false} RegistrationsAre(native: seq<Printer>, names: set<string>)
    ensures forall d :: d in Registrations(native, names) <==>
              d.operation == Register && d.changed == UNCHANGED && d.printer in native && d.printer.name !in names
  {
    if native != [] {
      var rest, last := native[..|native| - 1], native[|native| - 1];
      RegistrationsAre(rest, names);
      assert native == rest + [last];
    }
  }

  ghost predicate DistinctPrinters(ds: seq<PrinterDiff>) {
    forall i, j :: 0 <= i < j < |ds| ==> ds[i].printer.name != ds[j].printer.name
  }

  lemma DistinctConcat(a: seq<PrinterDiff>, b: seq<PrinterDiff>)
    requires DistinctPrinters(a) && DistinctPrinters(b)
    requires forall x, y :: x in a && y in b ==> x.printer.name != y.printer.name
    ensures DistinctPrinters(a + b)
  {
    var c := a + b;
    forall i, j | 0 <= i < j < |c| ensures c[i].printer.name != c[j].printer.name {
      if i < |a| <= j {
        assert c[i] in a && c[j] in b;
      } else if |a| <= i {
        assert c[i] == b[i - |a|] && c[j] == b[j - |a|];
      }
    }
  }

  lemma {:induction false} RegistrationsDistinct(native: seq<Printer>, names: set<string>)
    requires DistinctNames(native)
    ensures DistinctPrinters(Registrations(native, names))
  {
    if native != [] {
      var rest, last := native[..|native| - 1], native[|native| - 1];
      RegistrationsDistinct(rest, names);
      RegistrationsAre(rest, names);
      forall d | d in Registrations(rest, names) ensures d.printer.name != last.name {
        var k :| 0 <= k < |rest| && rest[k] == d.printer;
        assert native[k].name != native[|rest|].name;
      }
      DistinctConcat(Registrations(rest, names),
                     if last.name in names then [] else [PrinterDiff(Register, last, UNCHANGED)]);
    }
  }

  /** Cloud printer i, under distinct names: compared if it has a native counterpart, else deleted. */
  lemma CloudDiffIs(native: seq<Printer>, gcp: seq<Printer>, i: nat)
    requires i < |gcp| && DistinctNames(gcp)
    ensures CloudDiff(native, gcp, i) ==
            if gcp[i].name in ByName(native)
            then FieldDiff(Carried(ByName(native)[gcp[i].name], gcp[i]), gcp[i])
            else PrinterDiff(Delete, gcp[i], UNCHANGED)
    ensures CloudDiff(native, gcp, i).printer.name == gcp[i].name
  {
    hide InSync, ChangesOf;
    ByNameMembers(native);
  }

  lemma DiffsHaveDistinctNames(native: seq<Printer>, gcp: seq<Printer>)
    requires DistinctNames(native) && DistinctNames(gcp)
    ensures DistinctPrinters(AllDiffs(native, gcp))
  {
    var cloud := seq(|gcp|, i requires 0 <= i < |gcp| => CloudDiff(native, gcp, i));
    RegistrationsDistinct(native, NamesOf(gcp));
    RegistrationsAre(native, NamesOf(gcp));
    forall i | 0 <= i < |gcp| ensures cloud[i].printer.name == gcp[i].name && cloud[i].printer.name in NamesOf(gcp) {
      CloudDiffIs(native, gcp, i);
      assert gcp[i] in gcp;
    }
    hide CloudDiff, Registrations;
    DistinctConcat(cloud, Registrations(native, NamesOf(gcp)));
  }

  /** The diff of a name that is both known and native. */
  lemma KnownDiff(native: seq<Printer>, gcp: seq<Printer>, n: string) returns (d: PrinterDiff)
    requires DistinctNames(gcp) && n in ByName(gcp) && n in ByName(native)
    ensures d in AllDiffs(native, gcp) && d.operation in {Update, NoChange}
    ensures d.printer == Merged(ByName(native)[n], ByName(gcp)[n])
  {
    ByNameMembers(gcp);
    var i :| 0 <= i < |gcp| && gcp[i].name == n;
    ByNameAt(gcp);
    CloudDiffIs(native, gcp, i);
    hide InSync, ChangesOf;
    d := CloudDiff(native, gcp, i);
    assert AllDiffs(native, gcp)[i] == d;
  }

  /** The diff of a native name that is not known. */
  lemma NewDiff(native: seq<Printer>, gcp: seq<Printer>, n: string)
    requires n !in ByName(gcp) && n in ByName(native)
    ensures PrinterDiff(Register, ByName(native)[n], UNCHANGED) in AllDiffs(native, gcp)
  {
    ByNameMembers(gcp);
    ByNameMembers(native);
    RegistrationsAre(native, NamesOf(gcp));
    hide CloudDiff, Registrations;
    assert n !in NamesOf(gcp);
    var regs := Registrations(native, NamesOf(gcp));
    var d := PrinterDiff(Register, ByName(native)[n], UNCHANGED);
    assert d in regs;
    var i :| 0 <= i < |regs| && regs[i] == d;
    assert AllDiffs(native, gcp)[|gcp| + i] == d;
  }

  /** Conversely, every diff is one of these, or a deletion. */
  lemma DiffIs(native: seq<Printer>, gcp: seq<Printer>, d: PrinterDiff)
    requires DistinctNames(gcp) && DistinctNames(native)
    requires d in AllDiffs(native, gcp)
    ensures var n := d.printer.name;
            match d.operation
            case Register => n in ByName(native) && n !in ByName(gcp) && d.printer == ByName(native)[n]
            case Delete => n in ByName(gcp) && n !in ByName(native) && d.printer == ByName(gcp)[n]
            case _ => n in ByName(native) && n in ByName(gcp) && d.printer == Merged(ByName(native)[n], ByName(gcp)[n])
  {
    var i :| 0 <= i < |AllDiffs(native, gcp)| && AllDiffs(native, gcp)[i] == d;
    hide InSync, ChangesOf;
    ByNameMembers(gcp);
    ByNameMembers(native);
    if i < |gcp| {
      CloudDiffIs(native, gcp, i);
      ByNameAt(gcp);
    } else {
      RegistrationsAre(native, NamesOf(gcp));
      assert d in Registrations(native, NamesOf(gcp));
      ByNameAt(native);
    }
  }

  /** What the collector has, once everything has arrived. */
  ghost predicate Collected(got: seq<Printer>, diffs: seq<PrinterDiff>, r: Round) {
    && DistinctNames(got)
    && (forall p :: p in got ==> p.name != "" && exists d :: d in diffs && p == Message(d, r))
    && (forall d :: d in diffs && Message(d, r).name != "" ==> Message(d, r) in got)
  }

  lemma WantedIsCollected(got: seq<Printer>, native: seq<Printer>, gcp: seq<Printer>, r: Round, n: string)
    requires GoodSnapshot(native) && DistinctNames(gcp)
    requires Collected(got, AllDiffs(native, gcp), r)
    requires n in Synced(ByName(gcp), native, r)
    ensures n in ByName(got) && ByName(got)[n] == Synced(ByName(gcp), native, r)[n]
  {
    hide AllDiffs, Merged;
    ByNameMembers(native);
    ByNameMembers(gcp);
    if n in ByName(gcp) {
      var d := KnownDiff(native, gcp, n);
      MergedName(ByName(native)[n], ByName(gcp)[n]);
      assert Message(d, r) in got;
    } else {
      NewDiff(native, gcp, n);
      assert Message(PrinterDiff(Register, ByName(native)[n], UNCHANGED), r) in got;
    }
    ByNameIn(got);
  }

  lemma MergedName(native: Printer, known: Printer)
    requires native.name == known.name
    ensures Merged(native, known).name == native.name
  {
  }

  lemma CollectedIsWanted(got: seq<Printer>, native: seq<Printer>, gcp: seq<Printer>, r: Round, n: string)
    requires GoodSnapshot(native) && DistinctNames(gcp)
    requires Collected(got, AllDiffs(native, gcp), r)
    requires n in ByName(got)
    ensures n in Synced(ByName(gcp), native, r)
  {
    hide AllDiffs, Merged;
    ByNameMembers(got);
    ByNameMembers(native);
    ByNameMembers(gcp);
    var d :| d in AllDiffs(native, gcp) && ByName(got)[n] == Message(d, r);
    DiffIs(native, gcp, d);
    if d.operation != Register && d.operation != Delete {
      MergedName(ByName(native)[d.printer.name], ByName(gcp)[d.printer.name]);
    }
  }

  lemma CollectedIsSynced(got: seq<Printer>, native: seq<Printer>, gcp: seq<Printer>, r: Round)
    requires GoodSnapshot(native) && DistinctNames(gcp)
    requires Collected(got, AllDiffs(native, gcp), r)
    ensures ByName(got) == Synced(ByName(gcp), native, r)
  {
    hide *;
    forall n | n in Synced(ByName(gcp), native, r)
      ensures n in ByName(got) && ByName(got)[n] == Synced(ByName(gcp), native, r)[n]
    {
      WantedIsCollected(got, native, gcp, r, n);
    }
    forall n | n in ByName(got) ensures n in Synced(ByName(gcp), native, r) {
      CollectedIsWanted(got, native, gcp, r, n);
    }
  }
}
