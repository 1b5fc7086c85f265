/** The printer manager's synchronisation rounds (manager/printermanager.go), one and many. */
module Manager {
  import opened Collections
  import opened Printers
  import opened PrinterMap
  import opened Sync
  import opened Cloud
  import opened Rounds
  import opened CloudRuns

  datatype SyncResult = Failed | Crashed | AlreadyInSync | Done

  /** The Google Cloud Print service, as the calls of a round change it. */
  class Service {
    var records: Records

    constructor (records: Records)
      ensures this.records == records
    {
      this.records := records;
    }

    /** Register, Update or Delete, as the diff asks. */
    method Call(d: PrinterDiff, r: Round) returns (ok: bool)
      modifies this
      ensures ok == r.replies(d.printer.name).ok
      ensures records == Called(old(records), d, r)
    {
      var reply := r.replies(d.printer.name);
      ok := reply.ok;
      if !ok { return; }
      match d.operation {
        case Register =>
          records := records[reply.newID := Created(d.printer, reply)];
        case Update =>
          var form := FillForm(d);
          hide UpdateForm, Patched;
          if d.printer.gcpID in records {
            records := records[d.printer.gcpID := Patched(records[d.printer.gcpID], form)];
          }
        case Delete =>
          records := records - {d.printer.gcpID};
        case NoChange =>
      }
    }
  }

  /** The messages of the goroutines, in the order in which they were sent. */
  ghost function Messages(diffs: seq<PrinterDiff>, order: seq<nat>, r: Round): seq<Printer>
    requires Indexes(order, |diffs|)
  {
    seq(|order|, k requires 0 <= k < |order| => Message(diffs[order[k]], r))
  }

  lemma OneMore(records: Records, diffs: seq<PrinterDiff>, order: seq<nat>, i: nat, r: Round)
    requires Indexes(order, |diffs|) && i < |diffs|
    ensures Indexes(order + [i], |diffs|)
    ensures Messages(diffs, order + [i], r) == Messages(diffs, order, r) + [Message(diffs[i], r)]
    ensures CalledIn(records, diffs, order + [i], r) == Called(CalledIn(records, diffs, order, r), diffs[i], r)
  {
    hide Message, Called;
    assert (order + [i])[..|order|] == order;
  }

  function IsNamed(): Printer -> bool { (p: Printer) => p.name != "" }

  /** The collector drops the zero printer. */
  function Kept(ms: seq<Printer>): seq<Printer> { Filter(IsNamed(), ms) }

  lemma KeptAre(ms: seq<Printer>)
    ensures forall p :: p in Kept(ms) <==> p in ms && p.name != ""
  {
    forall p ensures p in Kept(ms) <==> p in ms && p.name != "" { FilterMembers(IsNamed(), ms, p); }
  }

  lemma KeptNext(ms: seq<Printer>, k: nat)
    requires k < |ms|
    ensures Kept(ms[..k + 1]) == if ms[k].name != "" then Kept(ms[..k]) + [ms[k]] else Kept(ms[..k])
  {
    FilterStep(IsNamed(), ms, k);
  }

  lemma {:induction false} KeptDistinct(ms: seq<Printer>)
    requires forall i, j :: 0 <= i < j < |ms| && ms[i].name != "" ==> ms[i].name != ms[j].name
    ensures DistinctNames(Kept(ms))
  {
    if ms != [] {
      var rest, last := ms[..|ms| - 1], ms[|ms| - 1];
      KeptDistinct(rest);
      KeptAre(rest);
      var kept := Kept(rest);
      forall i | 0 <= i < |kept| ensures kept[i].name != last.name {
        assert kept[i] in rest;
        var k :| 0 <= k < |rest| && rest[k] == kept[i];
        assert ms[k].name != ms[|rest|].name;
      }
      assert Kept(ms) == kept + if last.name != "" then [last] else [];
    }
  }

  lemma MessagesAreNamedApart(diffs: seq<PrinterDiff>, order: seq<nat>, r: Round, i: nat, j: nat)
    requires Indexes(order, |diffs|) && Distinct(order) && DistinctPrinters(diffs)
    requires i < j < |order|
    ensures var ms := Messages(diffs, order, r); ms[i].name != "" ==> ms[i].name != ms[j].name
  {
    assert order[i] != order[j];
    if order[i] < order[j] {} else {}
  }

  lemma EveryMessageIsSent(diffs: seq<PrinterDiff>, order: seq<nat>, r: Round, d: PrinterDiff)
    requires IsSchedule(order, |diffs|) && Indexes(order, |diffs|) && d in diffs
    ensures Message(d, r) in Messages(diffs, order, r)
  {
    hide Message;
    var i: nat :| i < |diffs| && diffs[i] == d;
    assert i in order;
    var k :| 0 <= k < |order| && order[k] == i;
    assert Messages(diffs, order, r)[k] == Message(d, r);
  }

  /** Whatever order the goroutines run in, the collector ends up with one message of each. */
  lemma EverythingArrives(diffs: seq<PrinterDiff>, order: seq<nat>, r: Round)
    requires IsSchedule(order, |diffs|) && Indexes(order, |diffs|)
    requires DistinctPrinters(diffs)
    ensures Collected(Kept(Messages(diffs, order, r)), diffs, r)
  {
    var ms := Messages(diffs, order, r);
    KeptAre(ms);
    forall i, j | 0 <= i < j < |ms| && ms[i].name != "" ensures ms[i].name != ms[j].name {
      MessagesAreNamedApart(diffs, order, r, i, j);
    }
    KeptDistinct(ms);
    forall d | d in diffs ensures Message(d, r) in ms { EveryMessageIsSent(diffs, order, r, d); }
    hide Message, DistinctNames, DistinctPrinters;
  }

  // ---- Confluence of the fan-in ----

  /** The goroutines that send printer p to be kept. */
  ghost function Senders(diffs: seq<PrinterDiff>, order: seq<nat>, r: Round, p: Printer): set<nat>
    requires Indexes(order, |diffs|)
  {
    set i | i in order && Message(diffs[i], r) == p && p.name != ""
  }

  lemma SendersNext(diffs: seq<PrinterDiff>, order: seq<nat>, i: nat, r: Round, p: Printer)
    requires Indexes(order, |diffs|) && i < |diffs| && i !in order && Indexes(order + [i], |diffs|)
    ensures |Senders(diffs, order + [i], r, p)| ==
            |Senders(diffs, order, r, p)| + if Message(diffs[i], r) == p && p.name != "" then 1 else 0
  {
    hide Message;
    assert Senders(diffs, order + [i], r, p) ==
           Senders(diffs, order, r, p) + if Message(diffs[i], r) == p && p.name != "" then {i} else {};
  }

  lemma MessagesNext(diffs: seq<PrinterDiff>, order: seq<nat>, i: nat, r: Round)
    requires Indexes(order, |diffs|) && i < |diffs| && Indexes(order + [i], |diffs|)
    ensures Kept(Messages(diffs, order + [i], r)) ==
            Kept(Messages(diffs, order, r)) + if Message(diffs[i], r).name != "" then [Message(diffs[i], r)] else []
  {
    OneMore(map[], diffs, order, i, r);
    hide Message;
    var ms := Messages(diffs, order + [i], r);
    assert Messages(diffs, order, r) == ms[..|order|] && ms[..|order| + 1] == ms;
    KeptNext(ms, |order|);
    hide Kept;
  }

  lemma CountNext<T>(s: seq<T>, t: seq<T>, x: T)
    ensures multiset(s + t)[x] == multiset(s)[x] + multiset(t)[x]
  {
  }

  /** The collector keeps a printer once for every goroutine that sends it. */
  lemma {:induction false} KeptOncePerSender(diffs: seq<PrinterDiff>, order: seq<nat>, r: Round, p: Printer)
    requires Indexes(order, |diffs|) && Distinct(order)
    ensures multiset(Kept(Messages(diffs, order, r)))[p] == |Senders(diffs, order, r, p)|
  {
    if order == [] {
      assert Senders(diffs, order, r, p) == {};
      KeptAre(Messages(diffs, order, r));
    } else {
      hide Messages, Message, Kept, Senders;
      var rest, last := order[..|order| - 1], order[|order| - 1];
      KeptOncePerSender(diffs, rest, r, p);
      assert order == rest + [last] && last !in rest;
      MessagesNext(diffs, rest, last, r);
      SendersNext(diffs, rest, last, r, p);
      var m := Message(diffs[last], r);
      CountNext(Kept(Messages(diffs, rest, r)), if m.name != "" then [m] else [], p);
    }
  }

  /** Two schedules of the same diffs: the collector has the same printers, and the rebuilt indexes are the same. */
  lemma FanInIsConfluent(diffs: seq<PrinterDiff>, order: seq<nat>, order': seq<nat>, r: Round)
    requires IsSchedule(order, |diffs|) && Indexes(order, |diffs|) && IsSchedule(order', |diffs|) && Indexes(order', |diffs|)
    ensures var got, got' := Kept(Messages(diffs, order, r)), Kept(Messages(diffs, order', r));
            && multiset(got) == multiset(got')
            && (DistinctPrinters(diffs) ==> ByName(got) == ByName(got'))
            && (DistinctPrinters(diffs) && IDsApart(ByName(got)) ==> ByID(got) == ByID(got') && Agree(ByName(got), ByID(got)))
  {
    var got, got' := Kept(Messages(diffs, order, r)), Kept(Messages(diffs, order', r));
    forall p ensures multiset(got)[p] == multiset(got')[p] {
      KeptOncePerSender(diffs, order, r, p);
      KeptOncePerSender(diffs, order', r, p);
      assert Senders(diffs, order, r, p) == Senders(diffs, order', r, p);
    }
    hide Kept, Messages, ByName, ByID, Agree, DistinctNames;
    if DistinctPrinters(diffs) {
      EverythingArrives(diffs, order, r);
      EverythingArrives(diffs, order', r);
      NameIndexIsOrderFree(got, got');
      if IDsApart(ByName(got)) {
        ApartAreDistinct(got);
        RefreshIsOrderFree(got, got');
      }
    }
  }

  /** The IDs of newly known printers are nobody else's. */
  ghost predicate NewIDsApart(known: map<string, Printer>, after: map<string, Printer>) {
    forall n, n' :: n in after && n' in after && n != n' && n !in known && after[n].gcpID != "" ==>
      after[n].gcpID != after[n'].gcpID
  }

  lemma SyncedKeepsIDsApart(known: map<string, Printer>, native: seq<Printer>, r: Round)
    requires IDsApart(known) && NewIDsApart(known, Synced(known, native, r))
    ensures IDsApart(Synced(known, native, r))
  {
    var after := Synced(known, native, r);
    hide Merged, Registered;
    forall n, n' | n in after && n' in after && n != n' && after[n].gcpID != "" ensures after[n].gcpID != after[n'].gcpID {
      if n in known && n' in known {
        MergedKeepsID(ByName(native)[n], known[n]);
        MergedKeepsID(ByName(native)[n'], known[n']);
      }
    }
  }

  /** Whichever way the round goes, the printers known afterwards are the synchronised ones. */
  lemma RoundIsSynced(native: seq<Printer>, gcp: seq<Printer>, r: Round, got: seq<Printer>)
    requires DistinctNames(gcp)
    ensures GoodSnapshot(native) ==> DistinctPrinters(AllDiffs(native, gcp))
    ensures DiffOf(native, gcp) == Clean ==> Synced(ByName(gcp), native, r) == ByName(gcp)
    ensures GoodSnapshot(native) && Collected(got, AllDiffs(native, gcp), r) ==> ByName(got) == Synced(ByName(gcp), native, r)
  {
    hide AllDiffs, Synced, Collected, DistinctPrinters;
    if GoodSnapshot(native) {
      DiffsHaveDistinctNames(native, gcp);
      if Collected(got, AllDiffs(native, gcp), r) { CollectedIsSynced(got, native, gcp, r); }
    }
    if DiffOf(native, gcp) == Clean { CleanIsSynced(native, gcp, r); }
  }

  /** The two indexes belong together. */
  lemma RoundIndexes(native: seq<Printer>, gcp: seq<Printer>, r: Round, got: seq<Printer>)
    requires DistinctNames(gcp) && GoodSnapshot(native) && Collected(got, AllDiffs(native, gcp), r)
    requires IDsApart(ByName(gcp)) && NewIDsApart(ByName(gcp), ByName(got))
    ensures IDsApart(ByName(got)) && Agree(ByName(got), ByID(got))
  {
    RoundIsSynced(native, gcp, r, got);
    assert DistinctNames(got);
    hide *;
    SyncedKeepsIDsApart(ByName(gcp), native, r);
    ApartAreDistinct(got);
    IndexesAgree(got);
  }

  /** What a round makes of the cloud and the two indexes, if something was to be done. */
  ghost predicate Applied(records: Records, known: map<string, Printer>, native: seq<Printer>, gcp: seq<Printer>,
                          order: seq<nat>, got: seq<Printer>, r: Round,
                          records': Records, byNativeName: map<string, Printer>, byGCPID: map<string, Printer>) {
    var diffs := AllDiffs(native, gcp);
    && IsSchedule(order, |diffs|) && Indexes(order, |diffs|)
    && records' == (if r.inCloud then CalledIn(records, diffs, order, r) else records)
    && got == Kept(Messages(diffs, order, r)) && byNativeName == ByName(got) && byGCPID == ByID(got)
    && (DistinctPrinters(diffs) ==> Collected(got, diffs, r))
    && (GoodSnapshot(native) ==>
          && byNativeName == Synced(known, native, r)
          && (IDsApart(known) && NewIDsApart(known, byNativeName) ==> IDsApart(byNativeName) && Agree(byNativeName, byGCPID)))
  }

  lemma RoundIsApplied(records: Records, native: seq<Printer>, gcp: seq<Printer>, order: seq<nat>, got: seq<Printer>, r: Round,
                       records': Records)
    requires DistinctNames(gcp) && IsSchedule(order, |AllDiffs(native, gcp)|) && Indexes(order, |AllDiffs(native, gcp)|)
    requires records' == if r.inCloud then CalledIn(records, AllDiffs(native, gcp), order, r) else records
    requires got == Kept(Messages(AllDiffs(native, gcp), order, r))
    ensures Applied(records, ByName(gcp), native, gcp, order, got, r, records', ByName(got), ByID(got))
  {
    hide AllDiffs, CalledIn, Synced, Collected, IDsApart, NewIDsApart, Agree, ByName, ByID, DistinctPrinters, GoodSnapshot, Kept,
      Messages;
    if DistinctPrinters(AllDiffs(native, gcp)) { EverythingArrives(AllDiffs(native, gcp), order, r); }
    RoundIsSynced(native, gcp, r, got);
    if GoodSnapshot(native) && IDsApart(ByName(gcp)) && NewIDsApart(ByName(gcp), ByName(got)) {
      RoundIndexes(native, gcp, r, got);
    }
  }

  lemma AppliedIsSynced(records: Records, known: map<string, Printer>, native: seq<Printer>, gcp: seq<Printer>,
                        order: seq<nat>, got: seq<Printer>, r: Round,
                        records': Records, byNativeName: map<string, Printer>, byGCPID: map<string, Printer>)
    requires Applied(records, known, native, gcp, order, got, r, records', byNativeName, byGCPID) && GoodSnapshot(native)
    ensures byNativeName == Synced(known, native, r)
  {
    hide Synced;
  }

  /** Any order will do for goroutines that call nothing. */
  lemma InOrder(n: nat) returns (order: seq<nat>)
    ensures IsSchedule(order, n) && Indexes(order, n)
  {
    order := [];
    if n > 0 {
      order := InOrder(n - 1);
      order := order + [n - 1];
    }
  }

  ghost function NativesOf(steps: seq<Step>): seq<seq<Printer>> {
    if steps == [] then [] else NativesOf(steps[..|steps| - 1]) + [steps[|steps| - 1].native]
  }

  /** One round of the manager is one step of its run. */
  lemma RoundIsStep(s: Sides, steps: seq<Step>, before: Sides, native: seq<Printer>, gcp: seq<Printer>, order: seq<nat>,
                    got: seq<Printer>, r: Round, after: Sides, byGCPID: map<string, Printer>)
    returns (more: seq<Step>)
    requires AllFair(s, steps) ==> Through(s, steps) == Some(before)
    requires Lists(gcp, before.known) && Prepared(native) && r.inCloud
    requires match DiffOf(native, gcp)
             case Panicked => false
             case Clean => after == before && after.known == Synced(before.known, native, r)
             case Dirty(_) => Applied(before.records, before.known, native, gcp, order, got, r, after.records,
                 after.known, byGCPID)
    ensures NativesOf(more) == NativesOf(steps) + [native]
    ensures AllFair(s, more) ==> Through(s, more) == Some(after)
  {
    var o := order;
    hide AllFair, Through, IsFair, Synced, Lists, Prepared, SomeDowngrade, Collected, Agree, FreshIDs;
    if DiffOf(native, gcp) == Clean {
      o := InOrder(|AllDiffs(native, gcp)|);
      NothingIsCalled(before.records, AllDiffs(native, gcp), o, r);
    }
    var e := Step(native, gcp, o, r);
    hide AllDiffs, CalledIn;
    ThroughNext(s, steps, before, e);
    more := steps + [e];
    assert more[..|steps|] == steps;
    if AllFair(s, more) { assert Then(before, e) == after by { FairIsGood(before, e); } }
  }

  lemma FairIsGood(s: Sides, e: Step)
    requires IsFair(s, e)
    ensures GoodSnapshot(e.native)
  {
  }

  class PrinterManager {
    const service: Service
    const inCloud: bool
    const tagsHash: map<string, string> -> string
    const capsHash: Option<Section> -> string
    const channel: string
    const printers: ConcurrentPrinterMap
    var rounds: nat

    /** NewPrinterManager, up to its first synchronisation: the cloud's printers get a semaphore each. */
    constructor (service: Service, inCloud: bool, gcpPrinters: seq<Printer>,
                 tagsHash: map<string, string> -> string, capsHash: Option<Section> -> string, channel: string)
      ensures printers.Valid() && fresh(printers) && this.service == service && this.inCloud == inCloud
      ensures this.tagsHash == tagsHash && this.capsHash == capsHash && this.channel == channel
      ensures printers.byNativeName == if inCloud then Opening(gcpPrinters) else map[]
      ensures rounds == 1
    {
      var ps: seq<Printer> := [];
      if inCloud {
        for i := 0 to |gcpPrinters|
          invariant |ps| == i
          invariant ByName(ps) == Opening(gcpPrinters[..i])
        {
          hide Opening, ByName;
          var p := gcpPrinters[i];
          OpeningNext(gcpPrinters, i);
          ByNameAppend(ps, p.(semaphore := Some(SemaphoreRef(0, p.name))));
          ps := ps + [p.(semaphore := Some(SemaphoreRef(0, p.name)))];
        }
        assert gcpPrinters[..|gcpPrinters|] == gcpPrinters;
      }
      hide Opening, ByName;
      this.service, this.inCloud, this.tagsHash, this.capsHash, this.channel := service, inCloud, tagsHash, capsHash, channel;
      rounds := 1;
      printers := new ConcurrentPrinterMap(ps);
    }

    /** The hashes and the channel that SyncPrinters adds to a native printer. */
    function Prepare(p: Printer): Printer {
      p.(tags := p.tags[TAGSHASH := tagsHash(p.tags)], capsHash := capsHash(p.description), notificationChannel := channel)
    }

    function PrepareAll(ps: seq<Printer>): (r: seq<Printer>)
      ensures |r| == |ps| && forall i :: 0 <= i < |ps| ==> r[i] == Prepare(ps[i])
    {
      seq(|ps|, i requires 0 <= i < |ps| => Prepare(ps[i]))
    }

    /** A known printer shows what a snapshot printer says, field by field; of the tags it shows the hash. */
    predicate Shows(p: Printer, s: Printer) {
      && p.defaultDisplayName == s.defaultDisplayName && p.manufacturer == s.manufacturer && p.model == s.model
      && p.gcpVersion == s.gcpVersion && p.setupURL == s.setupURL && p.supportURL == s.supportURL
      && p.updateURL == s.updateURL && p.connectorVersion == s.connectorVersion && p.state == s.state
      && p.description == s.description && p.duplexMap == s.duplexMap
      && p.quotaEnabled == s.quotaEnabled && p.dailyQuota == s.dailyQuota
      && "tagshash" in p.tags && p.tags["tagshash"] == tagsHash(s.tags)
      && p.capsHash == capsHash(s.description) && p.notificationChannel == channel
    }

    /** Names as DiffPrinters and the collector rely on them. */
    ghost predicate WellNamed(snapshot: seq<Printer>) {
      DistinctNames(snapshot) && forall i :: 0 <= i < |snapshot| ==> snapshot[i].name != ""
    }

    /** Exactly the snapshot's names are known, and what is known shows the snapshot. */
    ghost predicate IsUpToDate(known: map<string, Printer>, snapshot: seq<Printer>) {
      && (forall n :: n in known ==> exists i :: 0 <= i < |snapshot| && snapshot[i].name == n)
      && forall i :: 0 <= i < |snapshot| ==> snapshot[i].name in known && Shows(known[snapshot[i].name], snapshot[i])
    }

    /** What becomes of one snapshot printer: known by its ID and semaphore, or registered, or still unknown. */
    ghost predicate IsServed(s: Printer, known: map<string, Printer>, after: map<string, Printer>, r: Round) {
      && (s.name in after <==> s.name in known || !r.inCloud || r.replies(s.name).ok)
      && (s.name in after ==> after[s.name].name == s.name && Shows(after[s.name], s))
      && (s.name in known ==>
            && after[s.name].gcpID == known[s.name].gcpID && after[s.name].semaphore == known[s.name].semaphore
            && if Shows(known[s.name], s) then after[s.name] == known[s.name]
               else after[s.name].tags == s.tags["tagshash" := tagsHash(s.tags)] && after[s.name].uuid == s.uuid)
      && (s.name in after && s.name !in known ==>
            && after[s.name].tags == s.tags["tagshash" := tagsHash(s.tags)] && after[s.name].uuid == s.uuid
            && after[s.name].gcpID == (if r.inCloud then r.replies(s.name).newID else s.gcpID)
            && after[s.name].semaphore == Some(SemaphoreRef(r.number, s.name)))
    }

    /** What a round makes of a snapshot, in terms of the snapshot itself. */
    ghost predicate Achieves(snapshot: seq<Printer>, known: map<string, Printer>, after: map<string, Printer>, r: Round) {
      && (forall n :: n in after ==> exists i :: 0 <= i < |snapshot| && snapshot[i].name == n)
      && forall i :: 0 <= i < |snapshot| ==> IsServed(snapshot[i], known, after, r)
    }

    lemma InSyncShows(s: Printer, known: Printer)
      ensures InSync(Carried(Prepare(s), known), known) <==> Shows(known, s)
    {
    }

    lemma PreparedIndex(snapshot: seq<Printer>, i: nat)
      requires WellNamed(snapshot) && i < |snapshot|
      ensures GoodSnapshot(PrepareAll(snapshot))
      ensures var want := ByName(PrepareAll(snapshot));
              snapshot[i].name in want && want[snapshot[i].name] == Prepare(snapshot[i])
    {
      ByNameAt(PrepareAll(snapshot));
      hide ByName;
    }

    lemma PreparedNames(snapshot: seq<Printer>, n: string) returns (i: nat)
      requires n in ByName(PrepareAll(snapshot))
      ensures i < |snapshot| && snapshot[i].name == n
    {
      ByNameMembers(PrepareAll(snapshot));
      hide ByName;
      i :| 0 <= i < |snapshot| && PrepareAll(snapshot)[i].name == n;
    }

    lemma MergedShows(s: Printer, known: Printer)
      requires s.name == known.name
      ensures var after := Merged(Prepare(s), known);
              && after.name == s.name && Shows(after, s) && after.gcpID == known.gcpID && after.semaphore == known.semaphore
              && if Shows(known, s) then after == known
                 else after.tags == s.tags[TAGSHASH := tagsHash(s.tags)] && after.uuid == s.uuid
    {
      InSyncShows(s, known);
      hide InSync;
    }

    lemma RegisteredShows(s: Printer, r: Round)
      ensures var after := Registered(Prepare(s), r);
              && after.name == s.name && Shows(after, s) && after.tags == s.tags[TAGSHASH := tagsHash(s.tags)] && after.uuid == s.uuid
              && after.gcpID == (if r.inCloud then r.replies(s.name).newID else s.gcpID)
              && after.semaphore == Some(SemaphoreRef(r.number, s.name))
    {
    }

    lemma SyncedServes(snapshot: seq<Printer>, known: map<string, Printer>, r: Round, i: nat)
      requires WellNamed(snapshot) && i < |snapshot| && forall n :: n in known ==> known[n].name == n
      ensures IsServed(snapshot[i], known, Synced(known, PrepareAll(snapshot), r), r)
    {
      var s := snapshot[i];
      PreparedIndex(snapshot, i);
      RegisteredShows(s, r);
      if s.name in known { MergedShows(s, known[s.name]); }
      hide Prepare, PrepareAll, Shows, Merged, Registered, ByName, WellNamed;
    }

    /** The closed form of a round, in terms of the snapshot. */
    lemma SyncedAchieves(snapshot: seq<Printer>, known: map<string, Printer>, r: Round)
      requires WellNamed(snapshot) && forall n :: n in known ==> known[n].name == n
      ensures Achieves(snapshot, known, Synced(known, PrepareAll(snapshot), r), r)
    {
      forall i | 0 <= i < |snapshot| ensures IsServed(snapshot[i], known, Synced(known, PrepareAll(snapshot), r), r) {
        SyncedServes(snapshot, known, r, i);
      }
      hide ByName, Merged, Registered, IsServed;
      forall n | n in Synced(known, PrepareAll(snapshot), r) ensures exists i :: 0 <= i < |snapshot| && snapshot[i].name == n {
        var i := PreparedNames(snapshot, n);
      }
    }

    /** The diff is nil exactly when everything is up to date. */
    lemma CleanMeansUpToDate(snapshot: seq<Printer>, gcp: seq<Printer>, known: map<string, Printer>)
      requires WellNamed(snapshot) && Lists(gcp, known)
      ensures NothingToDo(AllDiffs(PrepareAll(snapshot), gcp)) <==> IsUpToDate(known, snapshot)
    {
      var native := PrepareAll(snapshot);
      if NothingToDo(AllDiffs(native, gcp)) { CleanIsUpToDate(snapshot, gcp, known); }
      if IsUpToDate(known, snapshot) { UpToDateIsClean(snapshot, gcp, known); }
    }

    lemma CleanIsUpToDate(snapshot: seq<Printer>, gcp: seq<Printer>, known: map<string, Printer>)
      requires WellNamed(snapshot) && Lists(gcp, known) && NothingToDo(AllDiffs(PrepareAll(snapshot), gcp))
      ensures IsUpToDate(known, snapshot)
    {
      var native := PrepareAll(snapshot);
      ByNameMembers(gcp);
      ByNameAt(gcp);
      hide AllDiffs, Shows, ByName, Prepare, InSync, ChangesOf;
      forall i | 0 <= i < |snapshot| ensures snapshot[i].name in known && Shows(known[snapshot[i].name], snapshot[i]) {
        PreparedIndex(snapshot, i);
        if snapshot[i].name !in known { NewDiff(native, gcp, snapshot[i].name); }
        var j :| 0 <= j < |gcp| && gcp[j].name == snapshot[i].name;
        CloudDiffIs(native, gcp, j);
        CloudDiffListed(native, gcp, j);
        InSyncShows(snapshot[i], gcp[j]);
      }
      forall n | n in known ensures exists i :: 0 <= i < |snapshot| && snapshot[i].name == n {
        var j :| 0 <= j < |gcp| && gcp[j].name == n;
        CloudDiffIs(native, gcp, j);
        CloudDiffListed(native, gcp, j);
        var i := PreparedNames(snapshot, n);
      }
    }

    lemma UpToDateIsClean(snapshot: seq<Printer>, gcp: seq<Printer>, known: map<string, Printer>)
      requires WellNamed(snapshot) && Lists(gcp, known) && IsUpToDate(known, snapshot)
      ensures NothingToDo(AllDiffs(PrepareAll(snapshot), gcp))
    {
      var native := PrepareAll(snapshot);
      ByNameAt(gcp);
      ByNameMembers(gcp);
      hide Shows, ByName, Prepare;
      forall d | d in AllDiffs(native, gcp) ensures d.operation == NoChange {
        var j :| 0 <= j < |AllDiffs(native, gcp)| && AllDiffs(native, gcp)[j] == d;
        if j < |gcp| {
          var i :| 0 <= i < |snapshot| && snapshot[i].name == gcp[j].name;
          PreparedIndex(snapshot, i);
          CloudDiffIs(native, gcp, j);
          InSyncShows(snapshot[i], gcp[j]);
          hide InSync, ChangesOf;
        } else {
          if snapshot != [] { PreparedIndex(snapshot, 0); }
          RegistrationsAre(native, NamesOf(gcp));
          assert d in Registrations(native, NamesOf(gcp));
          var i :| 0 <= i < |native| && native[i] == d.printer;
          PreparedIndex(snapshot, i);
        }
      }
    }

    /** A snapshot printer has an older API version than the printer known by its name. */
    ghost predicate SomeIsOlder(snapshot: seq<Printer>, known: map<string, Printer>) {
      exists i :: 0 <= i < |snapshot| && snapshot[i].name in known && StringLess(snapshot[i].gcpVersion, known[snapshot[i].name].gcpVersion)
    }

    /** The diff panics exactly then. */
    lemma CrashMeansOlder(snapshot: seq<Printer>, gcp: seq<Printer>, known: map<string, Printer>)
      requires WellNamed(snapshot) && Lists(gcp, known)
      ensures SomeDowngrade(PrepareAll(snapshot), gcp) <==> SomeIsOlder(snapshot, known)
    {
      var native := PrepareAll(snapshot);
      ByNameMembers(gcp);
      ByNameAt(gcp);
      hide ByName, StringLess, WellNamed;
      if j :| 0 <= j < |gcp| && DowngradeAt(native, gcp, j) {
        var i := PreparedNames(snapshot, gcp[j].name);
        PreparedIndex(snapshot, i);
      }
      if i :| 0 <= i < |snapshot| && snapshot[i].name in known && StringLess(snapshot[i].gcpVersion, known[snapshot[i].name].gcpVersion) {
        PreparedIndex(snapshot, i);
        var j :| 0 <= j < |gcp| && gcp[j].name == snapshot[i].name;
        assert DowngradeAt(native, gcp, j);
      }
    }

    /** A whole round, in terms of the snapshot. */
    ghost predicate Answers(result: SyncResult, snapshot: seq<Printer>, known: map<string, Printer>, after: map<string, Printer>, r: Round) {
      && (result == Crashed <==> SomeIsOlder(snapshot, known))
      && (result != Crashed ==>
            && (result == AlreadyInSync <==> IsUpToDate(known, snapshot))
            && Achieves(snapshot, known, after, r))
    }

    lemma RoundAnswers(result: SyncResult, snapshot: seq<Printer>, gcp: seq<Printer>, known: map<string, Printer>,
                       after: map<string, Printer>, r: Round)
      requires WellNamed(snapshot) && Lists(gcp, known) && forall n :: n in known ==> known[n].name == n
      requires match DiffOf(PrepareAll(snapshot), gcp)
               case Panicked => result == Crashed
               case Clean => result == AlreadyInSync && after == Synced(known, PrepareAll(snapshot), r)
               case Dirty(_) => result == Done && (GoodSnapshot(PrepareAll(snapshot)) ==> after == Synced(known, PrepareAll(snapshot), r))
      ensures Answers(result, snapshot, known, after, r)
    {
      CrashMeansOlder(snapshot, gcp, known);
      CleanMeansUpToDate(snapshot, gcp, known);
      SyncedAchieves(snapshot, known, r);
      PreparedIsGood(snapshot);
      hide SomeDowngrade, NothingToDo, AllDiffs, Synced, GoodSnapshot, WellNamed, SomeIsOlder, IsUpToDate, Achieves, PrepareAll, Lists;
    }

    lemma PreparedIsGood(snapshot: seq<Printer>)
      requires WellNamed(snapshot)
      ensures GoodSnapshot(PrepareAll(snapshot))
    {
    }

    /** One goroutine: every path makes its call, if any, and sends exactly one message. */
    method ApplyDiff(d: PrinterDiff, ch: Channel, r: Round)
      requires r.inCloud == inCloud
      modifies ch, service
      ensures ch.sent == old(ch.sent) + [Message(d, r)]
      ensures service.records == if inCloud then Called(old(service.records), d, r) else old(service.records)
    {
      match d.operation {
        case Register =>
          var p := d.printer;
          if inCloud {
            var ok := service.Call(d, r);
            if !ok {
              ch.Send(NoPrinter);
              return;
            }
            p := p.(gcpID := r.replies(p.name).newID);
          }
          p := p.(semaphore := Some(SemaphoreRef(r.number, p.name)));
          ch.Send(p);
        case Update =>
          if inCloud { var ok := service.Call(d, r); }
          ch.Send(d.printer);
        case Delete =>
          if inCloud { var ok := service.Call(d, r); }
          ch.Send(NoPrinter);
        case NoChange =>
          ch.Send(d.printer);
      }
    }

    /** The goroutines, in any order: each sends its one message, and nothing else is sent. */
    method RunAll(diffs: seq<PrinterDiff>, ch: Channel, r: Round) returns (ghost order: seq<nat>)
      requires r.inCloud == inCloud && ch.sent == []
      modifies ch, service
      ensures IsSchedule(order, |diffs|) && Indexes(order, |diffs|) && |order| == |diffs|
      ensures ch.sent == Messages(diffs, order, r)
      ensures service.records == if inCloud then CalledIn(old(service.records), diffs, order, r) else old(service.records)
    {
      order := [];
      var pending := Range(|diffs|);
      while pending != {}
        invariant forall i :: i in pending ==> 0 <= i < |diffs|
        invariant forall i: nat :: i < |diffs| ==> (i in pending <==> i !in order)
        invariant Indexes(order, |diffs|) && Distinct(order)
        invariant |order| + |pending| == |diffs|
        invariant ch.sent == Messages(diffs, order, r)
        invariant service.records ==
                  if inCloud then CalledIn(old(service.records), diffs, order, r) else old(service.records)
        decreases pending
      {
        hide Messages, CalledIn, Called, Message;
        var i :| i in pending;
        ApplyDiff(diffs[i], ch, r);
        OneMore(old(service.records), diffs, order, i, r);
        order, pending := order + [i], pending - {i};
      }
      assert forall i :: i in order ==> 0 <= i < |diffs|;
    }

    /** The collector receives as many messages as there are diffs, and keeps the named printers. */
    method Collect(ch: Channel, n: nat) returns (currentPrinters: seq<Printer>)
      requires |ch.sent| == n
      modifies ch
      ensures currentPrinters == Kept(old(ch.sent)) && ch.sent == []
    {
      currentPrinters := [];
      ghost var sent := ch.sent;
      for k := 0 to n
        invariant ch.sent == sent[k..]
        invariant currentPrinters == Kept(sent[..k])
      {
        KeptNext(sent, k);
        hide Kept;
        var p := ch.Receive();
        assert p == sent[k];
        if p.name != "" {
          currentPrinters := currentPrinters + [p];
        }
      }
      assert sent[..n] == sent;
      hide Kept;
    }

    /** The effective part of a round: apply the diffs, collect, refresh. */
    method ApplyAll(diffs: seq<PrinterDiff>, r: Round) returns (ghost order: seq<nat>, ghost got: seq<Printer>)
      requires r.inCloud == inCloud
      modifies printers, service
      ensures printers.Valid()
      ensures IsSchedule(order, |diffs|) && Indexes(order, |diffs|)
      ensures service.records == if inCloud then CalledIn(old(service.records), diffs, order, r) else old(service.records)
      ensures got == Kept(Messages(diffs, order, r))
      ensures printers.byNativeName == ByName(got) && printers.byGCPID == ByID(got)
    {
      var ch := new Channel();
      order := RunAll(diffs, ch, r);
      var currentPrinters := Collect(ch, |diffs|);
      printers.Refresh(currentPrinters);
      got := currentPrinters;
    }

    /**
     * SyncPrinters. The ghost results name the listing of the known printers that was compared, the
     * order in which the goroutines ran, and what was collected.
     */
    method SyncPrinters(snapshot: Option<seq<Printer>>, r: Round)
      returns (result: SyncResult, ghost gcp: seq<Printer>, ghost order: seq<nat>, ghost got: seq<Printer>)
      requires printers.Valid() && r.inCloud == inCloud && r.number == rounds
      modifies this`rounds, printers, service
      ensures printers.Valid() && rounds == old(rounds) + 1
      ensures snapshot.None? <==> result == Failed
      ensures result in {Failed, Crashed, AlreadyInSync} ==>
                printers.byNativeName == old(printers.byNativeName) && printers.byGCPID == old(printers.byGCPID)
                && service.records == old(service.records)
      ensures snapshot.Some? ==>
                var native := PrepareAll(snapshot.value);
                && Lists(gcp, old(printers.byNativeName))
                && (match DiffOf(native, gcp)
                    case Panicked => result == Crashed
                    case Clean =>
                      && result == AlreadyInSync
                      && printers.byNativeName == Synced(old(printers.byNativeName), native, r)
                    case Dirty(_) =>
                      && result == Done
                      && Applied(old(service.records), old(printers.byNativeName), native, gcp, order, got, r,
                                 service.records, printers.byNativeName, printers.byGCPID))
      ensures snapshot.Some? && WellNamed(snapshot.value) ==>
                Answers(result, snapshot.value, old(printers.byNativeName), printers.byNativeName, r)
    {
      gcp, order, got := [], [], [];
      rounds := rounds + 1;
      if snapshot.None? { return Failed, gcp, order, got; }
      var native := PrepareAll(snapshot.value);
      var known := printers.GetAll();
      gcp := known;
      var compared := DiffPrinters(native, known);
      assert Lists(known, old(printers.byNativeName)) && ByName(known) == old(printers.byNativeName) && DistinctNames(known);
      assert forall n :: n in old(printers.byNativeName) ==> old(printers.byNativeName)[n].name == n;
      assert compared.Dirty? ==> compared.diffs == AllDiffs(native, known);
      if compared.Panicked? {
        result := Crashed;
        hide *;
      } else if compared.Clean? {
        result := AlreadyInSync;
        hide *;
        RoundIsSynced(native, known, r, []);
      } else {
        result := Done;
        hide *;
        order, got := ApplyAll(compared.diffs, r);
        RoundIsApplied(old(service.records), native, known, order, got, r, service.records);
        if GoodSnapshot(native) {
          AppliedIsSynced(old(service.records), old(printers.byNativeName), native, known, order, got, r, service.records,
            printers.byNativeName, printers.byGCPID);
        }
      }
      hide *;
      if WellNamed(snapshot.value) {
        RoundAnswers(result, snapshot.value, known, old(printers.byNativeName), printers.byNativeName, r);
      }
    }

    /** The snapshots that could be taken, as they are compared. */
    function PrepareGiven(snapshots: seq<Option<seq<Printer>>>): seq<seq<Printer>> {
      if snapshots == [] then []
      else
        var last := snapshots[|snapshots| - 1];
        PrepareGiven(snapshots[..|snapshots| - 1]) + if last.Some? then [PrepareAll(last.value)] else []
    }

    lemma GivenNext(snapshots: seq<Option<seq<Printer>>>, i: nat)
      requires i < |snapshots|
      ensures PrepareGiven(snapshots[..i + 1]) ==
              PrepareGiven(snapshots[..i]) + if snapshots[i].Some? then [PrepareAll(snapshots[i].value)] else []
    {
      assert snapshots[..i + 1][..i] == snapshots[..i];
    }

    /** A round, recorded as a step of the run so far, unless the snapshot fails or the diff panics. */
    method SyncOnce(snapshot: Option<seq<Printer>>, r: Round, ghost s: Sides, ghost steps: seq<Step>)
      returns (result: SyncResult, ghost more: seq<Step>)
      requires printers.Valid() && inCloud && r.inCloud && r.number == rounds
      requires AllFair(s, steps) ==> Through(s, steps) == Some(Sides(service.records, printers.byNativeName))
      modifies this`rounds, printers, service
      ensures printers.Valid() && rounds == old(rounds) + 1
      ensures snapshot.None? <==> result == Failed
      ensures result != Crashed ==>
                NativesOf(more) == NativesOf(steps) + if snapshot.Some? then [PrepareAll(snapshot.value)] else []
      ensures AllFair(s, more) ==> Through(s, more) == Some(Sides(service.records, printers.byNativeName))
    {
      ghost var before := Sides(service.records, printers.byNativeName);
      ghost var gcp, order, got;
      result, gcp, order, got := SyncPrinters(snapshot, r);
      more := steps;
      if result != Failed && result != Crashed {
        ghost var native := PrepareAll(snapshot.value);
        assert Prepared(native);
        hide *;
        more := RoundIsStep(s, steps, before, native, gcp, order, got, r, Sides(service.records,
            printers.byNativeName), printers.byGCPID);
      }
    }

    /**
     * syncPrintersPeriodically: a round for every tick. Without a crash, the cloud and the known printers are
     * what the run of all rounds whose snapshot could be taken makes of them.
     */
    method SyncPeriodically(snapshots: seq<Option<seq<Printer>>>, rs: seq<Round>)
      returns (crashed: bool, ghost steps: seq<Step>)
      requires printers.Valid() && inCloud && |rs| == |snapshots|
      requires forall i :: 0 <= i < |rs| ==> rs[i].inCloud && rs[i].number == rounds + i
      modifies this`rounds, printers, service
      ensures printers.Valid()
      ensures !crashed ==> NativesOf(steps) == PrepareGiven(snapshots)
      ensures var s := Sides(old(service.records), old(printers.byNativeName));
              AllFair(s, steps) ==> Through(s, steps) == Some(Sides(service.records, printers.byNativeName))
    {
      crashed, steps := false, [];
      ghost var s := Sides(service.records, printers.byNativeName);
      for i := 0 to |snapshots|
        invariant printers.Valid() && rounds == old(rounds) + i
        invariant NativesOf(steps) == PrepareGiven(snapshots[..i])
        invariant AllFair(s, steps) ==> Through(s, steps) == Some(Sides(service.records, printers.byNativeName))
      {
        GivenNext(snapshots, i);
        hide *;
        var result, more := SyncOnce(snapshots[i], rs[i], s, steps);
        if result == Crashed { return true, more; }
        steps := more;
      }
      assert snapshots[..|snapshots|] == snapshots;
      hide *;
    }

    /**
     * Two rounds on one snapshot: if the first does not panic, the second neither fails nor panics, and
     * it finds everything in sync if and only if no registration failed in the first.
     */
    method SyncTwice(snapshot: seq<Printer>, r: Round, r': Round) returns (first: SyncResult, second: SyncResult)
      requires printers.Valid() && r.inCloud == r'.inCloud == inCloud && r.number == rounds && r'.number == rounds + 1
      requires GoodSnapshot(PrepareAll(snapshot))
      modifies this`rounds, printers, service
      ensures first != Failed
      ensures first != Crashed ==> second == AlreadyInSync || second == Done
      ensures first != Crashed ==>
                (second == AlreadyInSync <==>
                 forall n :: n in ByName(PrepareAll(snapshot)) ==> n in old(printers.byNativeName) || r.Registers(n))
    {
      second := Failed;
      ghost var native, known := PrepareAll(snapshot), printers.byNativeName;
      ghost var gcp, order, got;
      first, gcp, order, got := SyncPrinters(Some(snapshot), r);
      if first == Crashed { return; }
      assert printers.byNativeName == Synced(known, native, r);
      second, gcp, order, got := SyncPrinters(Some(snapshot), r');
      assert Prepared(native);
      hide *;
      SecondRound(known, native, r, gcp);
    }
  }
}
