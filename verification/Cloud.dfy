/** The cloud's side of a synchronisation: the update form (gcp/gcp.go) and what the calls add up to. */
module Cloud {
  import opened Collections
  import opened Printers
  import opened PrinterMap
  import opened Sync

  /** The fields an update request may carry; an absent field is left alone by the cloud. */
  datatype Form = Form(
    defaultDisplayName: Option<string>,
    manufacturer: Option<string>,
    model: Option<string>,
    gcpVersion: Option<string>,
    setupURL: Option<string>,
    supportURL: Option<string>,
    updateURL: Option<string>,
    firmware: Option<string>,
    notificationChannel: Option<string>,
    semanticState: Option<Option<Section>>,
    capabilities: Option<Option<Section>>,
    capsHash: Option<string>,
    tags: Option<map<string, string>>,
    quotaEnabled: Option<bool>,
    dailyQuota: Option<int>)

  function Given<T>(flag: bool, value: T): Option<T> {
    if flag then Some(value) else None
  }

  /** Update's request; state and capabilities are pushed again with a new description or API version. */
  function UpdateForm(d: PrinterDiff): Form {
    var c, p := d.changed, d.printer;
    Form(Given(c.displayName, p.defaultDisplayName), Given(c.manufacturer, p.manufacturer), Given(c.model, p.model),
         Given(c.gcpVersion, p.gcpVersion), Given(c.setupURL, p.setupURL), Given(c.supportURL, p.supportURL),
         Given(c.updateURL, p.updateURL), Given(c.connectorVersion, p.connectorVersion),
         Given(c.notificationChannel, p.notificationChannel),
         Given(c.state || c.description || c.gcpVersion, p.state),
         Given(c.capsHash || c.description || c.gcpVersion, p.description),
         Given(c.capsHash || c.description || c.gcpVersion, p.capsHash),
         Given(c.tags, p.tags), Given(c.quotaEnabled, p.quotaEnabled), Given(c.dailyQuota, p.dailyQuota))
  }

  /** form.Set under its flag. */
  method SetIf<T>(flag: bool, value: T) returns (field: Option<T>)
    ensures field == Given(flag, value)
  {
    field := None;
    if flag { field := Some(value); }
  }

  method FillNames(d: PrinterDiff) returns (form: Form)
    ensures form == UpdateForm(d).(semanticState := None, capabilities := None, capsHash := None, tags := None,
                                   quotaEnabled := None, dailyQuota := None)
  {
    var c, p := d.changed, d.printer;
    var defaultDisplayName := SetIf(c.displayName, p.defaultDisplayName);
    var manufacturer := SetIf(c.manufacturer, p.manufacturer);
    var model := SetIf(c.model, p.model);
    var gcpVersion := SetIf(c.gcpVersion, p.gcpVersion);
    var setupURL := SetIf(c.setupURL, p.setupURL);
    var supportURL := SetIf(c.supportURL, p.supportURL);
    var updateURL := SetIf(c.updateURL, p.updateURL);
    var firmware := SetIf(c.connectorVersion, p.connectorVersion);
    var notificationChannel := SetIf(c.notificationChannel, p.notificationChannel);
    return Form(defaultDisplayName, manufacturer, model, gcpVersion, setupURL, supportURL, updateURL, firmware,
                notificationChannel, None, None, None, None, None, None);
  }

  /** Update, up to its request: the form is filled field by field. */
  method FillForm(d: PrinterDiff) returns (form: Form)
    ensures form == UpdateForm(d)
  {
    var c, p := d.changed, d.printer;
    form := FillNames(d);
    var again := c.capsHash || c.description || c.gcpVersion;
    var semanticState := SetIf(c.state || c.description || c.gcpVersion, p.state);
    var capabilities := SetIf(again, p.description);
    var capsHash := SetIf(again, p.capsHash);
    var tags := SetIf(c.tags, p.tags);
    var quotaEnabled := SetIf(c.quotaEnabled, p.quotaEnabled);
    var dailyQuota := SetIf(c.dailyQuota, p.dailyQuota);
    form := form.(semanticState := semanticState, capabilities := capabilities, capsHash := capsHash, tags := tags,
                  quotaEnabled := quotaEnabled, dailyQuota := dailyQuota);
  }

  function Or<T>(o: Option<T>, kept: T): T {
    if o.Some? then o.value else kept
  }

  /** The cloud overwrites exactly the fields it is given. */
  function Patched(rec: Printer, f: Form): Printer {
    rec.(defaultDisplayName := Or(f.defaultDisplayName, rec.defaultDisplayName),
         manufacturer := Or(f.manufacturer, rec.manufacturer),
         model := Or(f.model, rec.model),
         gcpVersion := Or(f.gcpVersion, rec.gcpVersion),
         setupURL := Or(f.setupURL, rec.setupURL),
         supportURL := Or(f.supportURL, rec.supportURL),
         updateURL := Or(f.updateURL, rec.updateURL),
         connectorVersion := Or(f.firmware, rec.connectorVersion),
         notificationChannel := Or(f.notificationChannel, rec.notificationChannel),
         state := Or(f.semanticState, rec.state),
         description := Or(f.capabilities, rec.description),
         capsHash := Or(f.capsHash, rec.capsHash),
         tags := Or(f.tags, rec.tags),
         quotaEnabled := Or(f.quotaEnabled, rec.quotaEnabled),
         dailyQuota := Or(f.dailyQuota, rec.dailyQuota))
  }

  /** Register's request: every field but the quota. */
  function RegisterForm(p: Printer): Form {
    Form(Some(p.defaultDisplayName), Some(p.manufacturer), Some(p.model), Some(p.gcpVersion), Some(p.setupURL),
         Some(p.supportURL), Some(p.updateURL), Some(p.connectorVersion), Some(p.notificationChannel), Some(p.state),
         Some(p.description), Some(p.capsHash), Some(p.tags), None, None)
  }

  /** A new record; what the request does not say is up to the cloud. */
  function Created(p: Printer, reply: Reply): Printer {
    var blank := NoPrinter.(gcpID := reply.newID, name := p.name, uuid := p.uuid,
                            quotaEnabled := reply.quotaEnabled, dailyQuota := reply.dailyQuota);
    Patched(blank, RegisterForm(p))
  }

  // ---- How records compare ----

  /** Equal in the compared fields that the cloud stores and lists, tags aside. */
  predicate SameListed(a: Printer, b: Printer) {
    && a.name == b.name && a.defaultDisplayName == b.defaultDisplayName && a.manufacturer == b.manufacturer
    && a.model == b.model && a.gcpVersion == b.gcpVersion && a.setupURL == b.setupURL && a.supportURL == b.supportURL
    && a.updateURL == b.updateURL && a.connectorVersion == b.connectorVersion && a.state == b.state
    && a.description == b.description && a.capsHash == b.capsHash && a.notificationChannel == b.notificationChannel
  }

  /** The cloud stores the quota, but does not list it. */
  predicate SameQuota(a: Printer, b: Printer) {
    a.quotaEnabled == b.quotaEnabled && a.dailyQuota == b.dailyQuota
  }

  /** A known printer is what the cloud lists of its record, or what was last pushed to it. */
  predicate Backs(rec: Printer, known: Printer) {
    SameListed(rec, known) && (rec.tags == known.tags || SameTagsHash(rec.tags, known.tags))
  }

  /** Equal in every compared field that the cloud stores, except perhaps the quota. */
  predicate Twins(cloud: Printer, native: Printer) {
    SameListed(cloud, native) && SameTagsHash(cloud.tags, native.tags)
  }

  /** Equal in every compared field that the cloud stores: all but the duplex map. */
  predicate Mirrors(cloud: Printer, native: Printer) {
    Twins(cloud, native) && SameQuota(cloud, native)
  }

  /** So a mirror is what diffPrinter finds no difference in, the duplex map aside. */
  lemma MirrorsAreInSync(cloud: Printer, native: Printer)
    ensures Mirrors(cloud, native) <==> cloud.name == native.name && InSync(native, cloud.(duplexMap := native.duplexMap))
  {
  }

  // ---- The diff and the patch ----

  /** The record of known printer pg after the call for its diff with pn. */
  function PushedTo(rec: Printer, pn: Printer, pg: Printer): Printer {
    if InSync(pn, pg) then rec else Patched(rec, UpdateForm(PrinterDiff(Update, pn, ChangesOf(pn, pg))))
  }

  lemma NamesArePushed(rec: Printer, pn: Printer, pg: Printer)
    requires SameListed(rec, pg) && pn.name == pg.name
    ensures var q := Patched(rec, UpdateForm(PrinterDiff(Update, pn, ChangesOf(pn, pg))));
            && q.name == pn.name && q.defaultDisplayName == pn.defaultDisplayName && q.manufacturer == pn.manufacturer
            && q.model == pn.model && q.gcpVersion == pn.gcpVersion && q.setupURL == pn.setupURL
            && q.supportURL == pn.supportURL
  {
  }

  lemma SectionsArePushed(rec: Printer, pn: Printer, pg: Printer)
    requires SameListed(rec, pg) && pn.name == pg.name
    ensures var q := Patched(rec, UpdateForm(PrinterDiff(Update, pn, ChangesOf(pn, pg))));
            && q.updateURL == pn.updateURL && q.connectorVersion == pn.connectorVersion && q.state == pn.state
            && q.description == pn.description && q.capsHash == pn.capsHash && q.notificationChannel == pn.notificationChannel
  {
  }

  lemma TagsArePushed(rec: Printer, pn: Printer, pg: Printer)
    requires Backs(rec, pg) && TAGSHASH in pn.tags
    ensures SameTagsHash(Patched(rec, UpdateForm(PrinterDiff(Update, pn, ChangesOf(pn, pg)))).tags, pn.tags)
  {
    hide SameListed;
  }

  /**
   * The diff and the patch belong together: if the record backs the known printer, then pushing the
   * flagged fields makes it a twin of the native one; and it gets the native quota exactly where the
   * quota was flagged or already agreed.
   */
  lemma PatchMakesTwins(rec: Printer, pn: Printer, pg: Printer)
    requires Backs(rec, pg) && pn.name == pg.name && TAGSHASH in pn.tags
    ensures Twins(PushedTo(rec, pn, pg), pn)
    ensures SameQuota(PushedTo(rec, pn, pg), pn) <==>
              && (pg.quotaEnabled != pn.quotaEnabled || rec.quotaEnabled == pn.quotaEnabled)
              && (pg.dailyQuota != pn.dailyQuota || rec.dailyQuota == pn.dailyQuota)
  {
    if !InSync(pn, pg) {
      NamesArePushed(rec, pn, pg);
      SectionsArePushed(rec, pn, pg);
      TagsArePushed(rec, pn, pg);
      QuotaIsPushed(rec, pn, pg);
      hide Patched, UpdateForm, ChangesOf, SameTagsHash;
    }
    hide Patched, UpdateForm, ChangesOf;
  }

  lemma QuotaIsPushed(rec: Printer, pn: Printer, pg: Printer)
    ensures var q := Patched(rec, UpdateForm(PrinterDiff(Update, pn, ChangesOf(pn, pg))));
            && q.quotaEnabled == (if pg.quotaEnabled != pn.quotaEnabled then pn.quotaEnabled else rec.quotaEnabled)
            && q.dailyQuota == (if pg.dailyQuota != pn.dailyQuota then pn.dailyQuota else rec.dailyQuota)
  {
  }

  /** A registration makes a twin, which has the native quota exactly if the cloud chose it. */
  lemma CreatedIsTwin(p: Printer, reply: Reply)
    requires TAGSHASH in p.tags
    ensures Twins(Created(p, reply), p) && Created(p, reply).gcpID == reply.newID
    ensures SameQuota(Created(p, reply), p) <==> reply.quotaEnabled == p.quotaEnabled && reply.dailyQuota == p.dailyQuota
  {
  }

  // ---- Calls against a cloud keyed by GCPID ----

  type Records = map<string, Printer>

  /** The ID a call is about. */
  function Target(d: PrinterDiff, r: Round): string {
    if d.operation == Register then r.replies(d.printer.name).newID else d.printer.gcpID
  }

  /** What a successful call leaves under its ID, given what was there. */
  function Effect(found: Option<Printer>, d: PrinterDiff, r: Round): Option<Printer> {
    match d.operation
    case Register => Some(Created(d.printer, r.replies(d.printer.name)))
    case Update => if found.Some? then Some(Patched(found.value, UpdateForm(d))) else None
    case Delete => None
    case NoChange => found
  }

  function Find(records: Records, id: string): Option<Printer> {
    if id in records then Some(records[id]) else None
  }

  function Called(records: Records, d: PrinterDiff, r: Round): Records {
    if d.operation == NoChange || !r.replies(d.printer.name).ok then records
    else
      var e := Effect(Find(records, Target(d, r)), d, r);
      if e.Some? then records[Target(d, r) := e.value] else records - {Target(d, r)}
  }

  ghost predicate Indexes(order: seq<nat>, n: nat) {
    forall k :: 0 <= k < |order| ==> order[k] < n
  }

  /** The cloud after the goroutines have made their calls in the given order. */
  ghost function CalledIn(records: Records, diffs: seq<PrinterDiff>, order: seq<nat>, r: Round): Records
    requires Indexes(order, |diffs|)
  {
    if order == [] then records
    else Called(CalledIn(records, diffs, order[..|order| - 1], r), diffs[order[|order| - 1]], r)
  }

  ghost predicate AllSucceed(diffs: seq<PrinterDiff>, r: Round) {
    forall d :: d in diffs ==> d.operation == NoChange || r.replies(d.printer.name).ok
  }

  ghost predicate DistinctTargets(diffs: seq<PrinterDiff>, r: Round) {
    forall i, j :: 0 <= i < |diffs| && 0 <= j < |diffs| && i != j ==> Target(diffs[i], r) != Target(diffs[j], r)
  }

  lemma CalledEffect(records: Records, d: PrinterDiff, r: Round, id: string)
    requires d.operation == NoChange || r.replies(d.printer.name).ok
    ensures Find(Called(records, d, r), id) ==
            if id == Target(d, r) then Effect(Find(records, id), d, r) else Find(records, id)
  {
  }

  /** Calls about different printers do not interfere, so their order does not show. */
  lemma {:induction false} CallsAreIndependent(records: Records, diffs: seq<PrinterDiff>, order: seq<nat>, r: Round)
    requires Indexes(order, |diffs|) && Distinct(order)
    requires AllSucceed(diffs, r) && DistinctTargets(diffs, r)
    ensures forall k :: 0 <= k < |order| ==>
              var d := diffs[order[k]];
              Find(CalledIn(records, diffs, order, r), Target(d, r)) == Effect(Find(records, Target(d, r)), d, r)
    ensures forall id :: (forall k :: 0 <= k < |order| ==> Target(diffs[order[k]], r) != id) ==>
              Find(CalledIn(records, diffs, order, r), id) == Find(records, id)
  {
    hide Effect, Target, Called, Find;
    if order != [] {
      var rest, last := order[..|order| - 1], order[|order| - 1];
      CallsAreIndependent(records, diffs, rest, r);
      var before := CalledIn(records, diffs, rest, r);
      assert diffs[last] in diffs;
      forall id ensures Find(Called(before, diffs[last], r), id) ==
                        if id == Target(diffs[last], r) then Effect(Find(before, id), diffs[last], r) else Find(before, id)
      {
        CalledEffect(before, diffs[last], r, id);
      }
      assert forall k :: 0 <= k < |rest| ==> rest[k] == order[k];
    }
  }

  // ---- One round ----

  /** Every listed printer has a record of its own that backs it. */
  ghost predicate Listed(records: Records, gcp: seq<Printer>) {
    && (forall i :: 0 <= i < |gcp| ==> gcp[i].gcpID in records && Backs(records[gcp[i].gcpID], gcp[i]))
    && (forall i, j :: 0 <= i < j < |gcp| ==> gcp[i].gcpID != gcp[j].gcpID)
  }

  /** A record that is not listed. */
  ghost predicate IsSurplus(records: Records, gcp: seq<Printer>, id: string) {
    id in records && forall i :: 0 <= i < |gcp| ==> gcp[i].gcpID != id
  }

  ghost predicate NoSurplus(records: Records, gcp: seq<Printer>) {
    forall id :: id in records ==> exists i :: 0 <= i < |gcp| && gcp[i].gcpID == id
  }

  /** The cloud holds exactly the listed printers. */
  ghost predicate Holds(records: Records, gcp: seq<Printer>) {
    Listed(records, gcp) && NoSurplus(records, gcp)
  }

  /** Native printer i is registered in this round, successfully. */
  ghost predicate Arrives(native: seq<Printer>, gcp: seq<Printer>, r: Round, i: nat)
    requires i < |native|
  {
    native[i].name !in NamesOf(gcp) && r.replies(native[i].name).ok
  }

  /** The cloud hands out IDs that are new and all different. */
  ghost predicate FreshIDs(records: Records, native: seq<Printer>, gcp: seq<Printer>, r: Round) {
    && (forall i :: 0 <= i < |native| && Arrives(native, gcp, r, i) ==> r.replies(native[i].name).newID !in records)
    && (forall i, j :: 0 <= i < j < |native| && Arrives(native, gcp, r, i) && Arrives(native, gcp, r, j) ==>
          r.replies(native[i].name).newID != r.replies(native[j].name).newID)
  }

  /** Every cloud printer is the twin of a native one. */
  ghost predicate OnlyTwins(records: Records, native: seq<Printer>) {
    forall id :: id in records ==>
      records[id].name in ByName(native) && Twins(records[id], ByName(native)[records[id].name])
  }

  /** Every cloud printer equals a native one in every compared field that the cloud stores. */
  ghost predicate OnlyMirrors(records: Records, native: seq<Printer>) {
    forall id :: id in records ==>
      records[id].name in ByName(native) && Mirrors(records[id], ByName(native)[records[id].name])
  }

  /** Every native name is in the cloud. */
  ghost predicate AllServed(records: Records, native: seq<Printer>) {
    forall n :: n in ByName(native) ==> exists id :: id in records && records[id].name == n
  }

  /** No name is in the cloud twice. */
  ghost predicate NoneTwice(records: Records) {
    forall id, id' :: id in records && id' in records && records[id].name == records[id'].name ==> id == id'
  }

  /** The cloud has one printer per native name, its twin. */
  ghost predicate Twinned(records: Records, native: seq<Printer>) {
    OnlyTwins(records, native) && AllServed(records, native) && NoneTwice(records)
  }

  /** The cloud has one printer per native name, its mirror. */
  ghost predicate Mirrored(records: Records, native: seq<Printer>) {
    OnlyMirrors(records, native) && AllServed(records, native) && NoneTwice(records)
  }

  /** The quota of the record of known printer pg will be that of native printer pn. */
  predicate QuotaFits(rec: Printer, pn: Printer, pg: Printer) {
    && (pg.quotaEnabled != pn.quotaEnabled || rec.quotaEnabled == pn.quotaEnabled)
    && (pg.dailyQuota != pn.dailyQuota || rec.dailyQuota == pn.dailyQuota)
  }

  /** The call about cloud printer i leaves the twin of its native printer, or nothing. */
  lemma KnownOutcome(native: seq<Printer>, gcp: seq<Printer>, i: nat, rec: Printer, r: Round)
    requires i < |gcp| && Prepared(native) && Backs(rec, gcp[i])
    ensures var d := CloudDiff(native, gcp, i);
            var e := Effect(Some(rec), d, r);
            && d.operation != Register && Target(d, r) == gcp[i].gcpID && d.printer.name == gcp[i].name
            && (e.Some? <==> Matched(native, gcp, i))
            && (e.Some? ==>
                  && Twins(e.value, ByName(native)[gcp[i].name])
                  && (SameQuota(e.value, ByName(native)[gcp[i].name]) <==> QuotaFits(rec, ByName(native)[gcp[i].name], gcp[i])))
  {
    ByNameMembers(native);
    if Matched(native, gcp, i) {
      var n := ByName(native)[gcp[i].name];
      var pn := Carried(n, gcp[i]);
      assert TAGSHASH in n.tags;
      PatchMakesTwins(rec, pn, gcp[i]);
      CarriedAlike(PushedTo(rec, pn, gcp[i]), n, gcp[i]);
      hide UpdateForm, Patched, ChangesOf, InSync, Twins, SameQuota;
      assert Effect(Some(rec), FieldDiff(pn, gcp[i]), r) == Some(PushedTo(rec, pn, gcp[i]));
    }
    hide UpdateForm, Patched, ChangesOf, InSync, Twins, SameQuota, Backs, ByName;
  }

  /** The ID and the semaphore that a native printer is compared with do not show. */
  lemma CarriedAlike(rec: Printer, native: Printer, known: Printer)
    ensures Twins(rec, Carried(native, known)) == Twins(rec, native)
    ensures SameQuota(rec, Carried(native, known)) == SameQuota(rec, native)
  {
  }

  /** Diff number |gcp| + k registers a native printer whose name the cloud does not have. */
  lemma RegistrationAt(native: seq<Printer>, gcp: seq<Printer>, j: nat) returns (m: nat)
    requires |gcp| <= j < |AllDiffs(native, gcp)| && DistinctNames(native)
    ensures m < |native| && native[m].name !in NamesOf(gcp)
    ensures AllDiffs(native, gcp)[j] == PrinterDiff(Register, native[m], UNCHANGED)
    ensures native[m].name in ByName(native) && ByName(native)[native[m].name] == native[m]
  {
    hide CloudDiff;
    RegistrationsAre(native, NamesOf(gcp));
    var d := AllDiffs(native, gcp)[j];
    assert d == Registrations(native, NamesOf(gcp))[j - |gcp|];
    assert d in Registrations(native, NamesOf(gcp));
    hide AllDiffs;
    m :| 0 <= m < |native| && native[m] == d.printer;
    ByNameAt(native);
  }

  lemma CloudTarget(native: seq<Printer>, gcp: seq<Printer>, i: nat, r: Round)
    requires i < |gcp|
    ensures var d := CloudDiff(native, gcp, i);
            d.operation != Register && Target(d, r) == gcp[i].gcpID && d.printer.name == gcp[i].name
  {
    ByNameMembers(native);
    hide InSync, ChangesOf, ByName;
  }

  lemma TargetsAreDistinct(records: Records, native: seq<Printer>, gcp: seq<Printer>, r: Round)
    requires DistinctNames(native) && Listed(records, gcp) && FreshIDs(records, native, gcp, r)
    requires AllSucceed(AllDiffs(native, gcp), r)
    ensures DistinctTargets(AllDiffs(native, gcp), r)
  {
    var ds := AllDiffs(native, gcp);
    forall i, j | 0 <= i < j < |ds| ensures Target(ds[i], r) != Target(ds[j], r) {
      hide CloudDiff, Registrations, Backs;
      if i < |gcp| {
        CloudTarget(native, gcp, i, r);
        if j < |gcp| {
          CloudTarget(native, gcp, j, r);
        } else {
          var m := RegistrationAt(native, gcp, j);
        }
      } else {
        RegistrationsDistinct(native, NamesOf(gcp));
        assert ds[i] == Registrations(native, NamesOf(gcp))[i - |gcp|];
        assert ds[j] == Registrations(native, NamesOf(gcp))[j - |gcp|];
        var m := RegistrationAt(native, gcp, i);
        var m' := RegistrationAt(native, gcp, j);
        assert m != m';
      }
    }
  }

  /** A round in which all calls succeed. */
  ghost predicate GoodRound(records: Records, native: seq<Printer>, gcp: seq<Printer>, order: seq<nat>, r: Round) {
    && DistinctNames(native) && Prepared(native) && Listed(records, gcp) && FreshIDs(records, native, gcp, r)
    && AllSucceed(AllDiffs(native, gcp), r) && IsSchedule(order, |AllDiffs(native, gcp)|)
    && Indexes(order, |AllDiffs(native, gcp)|)
  }

  /** Diff i leaves a printer with the native quota. */
  ghost predicate QuotaAt(records: Records, native: seq<Printer>, gcp: seq<Printer>, r: Round, i: nat)
    requires i < |AllDiffs(native, gcp)|
  {
    var d := AllDiffs(native, gcp)[i];
    d.printer.name in ByName(native) &&
    var n := ByName(native)[d.printer.name];
    if i < |gcp| then gcp[i].gcpID in records && QuotaFits(records[gcp[i].gcpID], n, gcp[i])
    else SameQuotaAs(r.replies(n.name), n)
  }

  predicate SameQuotaAs(reply: Reply, p: Printer) {
    reply.quotaEnabled == p.quotaEnabled && reply.dailyQuota == p.dailyQuota
  }

  /** Diff i leaves a printer behind. */
  ghost predicate Leaves(native: seq<Printer>, gcp: seq<Printer>, i: nat) {
    i >= |gcp| || Matched(native, gcp, i)
  }

  /** What the calls leave under the ID that diff i is about. */
  lemma Outcome(records: Records, native: seq<Printer>, gcp: seq<Printer>, order: seq<nat>, r: Round, i: nat)
    requires GoodRound(records, native, gcp, order, r) && i < |AllDiffs(native, gcp)|
    ensures var d := AllDiffs(native, gcp)[i];
            var left := Find(CalledIn(records, AllDiffs(native, gcp), order, r), Target(d, r));
            && (i < |gcp| ==> Target(d, r) == gcp[i].gcpID && d.printer.name == gcp[i].name)
            && (left.Some? <==> Leaves(native, gcp, i))
            && (left.Some? ==>
                  && d.printer.name in ByName(native) && Twins(left.value, ByName(native)[d.printer.name])
                  && (SameQuota(left.value, ByName(native)[d.printer.name]) <==> QuotaAt(records, native, gcp, r, i)))
  {
    var ds := AllDiffs(native, gcp);
    TargetsAreDistinct(records, native, gcp, r);
    CallsAreIndependent(records, ds, order, r);
    assert i in order;
    var k :| 0 <= k < |order| && order[k] == i;
    hide CloudDiff, Registrations, CalledIn, Patched, RegisterForm, Twins, SameQuota, Backs;
    if i < |gcp| {
      KnownOutcome(native, gcp, i, records[gcp[i].gcpID], r);
    } else {
      var m := RegistrationAt(native, gcp, i);
      CreatedIsTwin(native[m], r.replies(native[m].name));
    }
  }

  /** Whatever is in the cloud afterwards is surplus, as it was, or was left there by a call of this round. */
  lemma LeftBy(records: Records, native: seq<Printer>, gcp: seq<Printer>, order: seq<nat>, r: Round, id: string)
    returns (i: nat)
    requires GoodRound(records, native, gcp, order, r)
    requires id in CalledIn(records, AllDiffs(native, gcp), order, r) && !IsSurplus(records, gcp, id)
    ensures i < |AllDiffs(native, gcp)| && Target(AllDiffs(native, gcp)[i], r) == id && Leaves(native, gcp, i)
  {
    var ds := AllDiffs(native, gcp);
    if k :| 0 <= k < |order| && Target(ds[order[k]], r) == id {
      i := order[k];
    } else {
      TargetsAreDistinct(records, native, gcp, r);
      CallsAreIndependent(records, ds, order, r);
      assert Find(CalledIn(records, ds, order, r), id) == Find(records, id);
      i :| 0 <= i < |gcp| && gcp[i].gcpID == id;
      CloudTarget(native, gcp, i, r);
    }
    Outcome(records, native, gcp, order, r, i);
    hide *;
  }

  lemma SurplusStays(records: Records, native: seq<Printer>, gcp: seq<Printer>, order: seq<nat>, r: Round, id: string)
    requires GoodRound(records, native, gcp, order, r) && IsSurplus(records, gcp, id)
    ensures Find(CalledIn(records, AllDiffs(native, gcp), order, r), id) == Some(records[id])
  {
    var ds := AllDiffs(native, gcp);
    forall k | 0 <= k < |ds| ensures Target(ds[k], r) != id {
      hide CloudDiff, Registrations;
      if k < |gcp| { CloudTarget(native, gcp, k, r); } else { var m := RegistrationAt(native, gcp, k); }
    }
    TargetsAreDistinct(records, native, gcp, r);
    CallsAreIndependent(records, ds, order, r);
    hide AllDiffs, CalledIn, Target;
  }

  lemma {:induction false} FirstIndex(gcp: seq<Printer>, i: nat) returns (first: nat)
    requires i < |gcp|
    ensures first <= i && gcp[first].name == gcp[i].name && FirstOfName(gcp, first)
  {
    first := i;
    if j :| 0 <= j < i && gcp[j].name == gcp[i].name { first := FirstIndex(gcp, j); }
  }

  /** Every native name has a diff that leaves a printer of that name. */
  lemma ServingDiff(native: seq<Printer>, gcp: seq<Printer>, n: string) returns (i: nat)
    requires DistinctNames(native) && n in ByName(native)
    ensures i < |AllDiffs(native, gcp)| && AllDiffs(native, gcp)[i].printer.name == n && Leaves(native, gcp, i)
  {
    var ds := AllDiffs(native, gcp);
    hide CloudDiff, Registrations;
    if n in NamesOf(gcp) {
      var p :| p in gcp && p.name == n;
      i :| 0 <= i < |gcp| && gcp[i] == p;
      i := FirstIndex(gcp, i);
      CloudName(native, gcp, i);
    } else {
      ByNameMembers(gcp);
      NewDiff(native, gcp, n);
      ByNameMembers(native);
      i :| 0 <= i < |ds| && ds[i] == PrinterDiff(Register, ByName(native)[n], UNCHANGED);
      if i < |gcp| { CloudName(native, gcp, i); }
    }
  }

  lemma CloudName(native: seq<Printer>, gcp: seq<Printer>, i: nat)
    requires i < |gcp|
    ensures CloudDiff(native, gcp, i).operation != Register && CloudDiff(native, gcp, i).printer.name == gcp[i].name
  {
    ByNameMembers(native);
    hide InSync, ChangesOf, ByName;
  }

  /** Two diffs that both leave a printer leave printers of different names. */
  lemma ServedOnce(native: seq<Printer>, gcp: seq<Printer>, i: nat, j: nat)
    requires DistinctNames(native) && i < |AllDiffs(native, gcp)| && j < |AllDiffs(native, gcp)|
    requires Leaves(native, gcp, i) && Leaves(native, gcp, j)
    requires AllDiffs(native, gcp)[i].printer.name == AllDiffs(native, gcp)[j].printer.name
    ensures i == j
  {
    hide CloudDiff, Registrations;
    var ds := AllDiffs(native, gcp);
    if i >= |gcp| && j >= |gcp| {
      RegistrationsDistinct(native, NamesOf(gcp));
      assert ds[i] == Registrations(native, NamesOf(gcp))[i - |gcp|];
      assert ds[j] == Registrations(native, NamesOf(gcp))[j - |gcp|];
    } else if i >= |gcp| {
      CloudName(native, gcp, j);
      assert gcp[j] in gcp;
      var m := RegistrationAt(native, gcp, i);
    } else if j >= |gcp| {
      CloudName(native, gcp, i);
      assert gcp[i] in gcp;
      var m := RegistrationAt(native, gcp, j);
    } else {
      CloudName(native, gcp, i);
      CloudName(native, gcp, j);
    }
  }

  /** The cloud at the end of a round. */
  ghost function Afterwards(records: Records, native: seq<Printer>, gcp: seq<Printer>, order: seq<nat>, r: Round): Records
    requires Indexes(order, |AllDiffs(native, gcp)|)
  {
    CalledIn(records, AllDiffs(native, gcp), order, r)
  }

  /** Every printer that the round leaves behind gets the native quota. */
  ghost predicate QuotaKept(records: Records, native: seq<Printer>, gcp: seq<Printer>, r: Round) {
    forall i: nat :: i < |AllDiffs(native, gcp)| && Leaves(native, gcp, i) ==> QuotaAt(records, native, gcp, r, i)
  }

  lemma OnlyTwinsAreLeft(records: Records, native: seq<Printer>, gcp: seq<Printer>, order: seq<nat>, r: Round, id: string)
    requires GoodRound(records, native, gcp, order, r)
    requires id in Afterwards(records, native, gcp, order, r) && !IsSurplus(records, gcp, id)
    ensures var p := Afterwards(records, native, gcp, order, r)[id];
            && p.name in ByName(native) && Twins(p, ByName(native)[p.name])
            && (QuotaKept(records, native, gcp, r) ==> Mirrors(p, ByName(native)[p.name]))
  {
    hide AllDiffs, CalledIn, Twins, SameQuota, QuotaAt, Leaves;
    var i := LeftBy(records, native, gcp, order, r, id);
    Outcome(records, native, gcp, order, r, i);
    var n := AllDiffs(native, gcp)[i].printer.name;
    TwinsName(Afterwards(records, native, gcp, order, r)[id], ByName(native)[n]);
    ByNameMembers(native);
    hide GoodRound;
  }

  lemma TwinsName(cloud: Printer, native: Printer)
    requires Twins(cloud, native)
    ensures cloud.name == native.name
  {
  }

  /** Every native name is in the cloud afterwards, under an ID that was not surplus. */
  lemma NameIsServed(records: Records, native: seq<Printer>, gcp: seq<Printer>, order: seq<nat>, r: Round, n: string)
    returns (id: string)
    requires GoodRound(records, native, gcp, order, r) && n in ByName(native)
    ensures id in Afterwards(records, native, gcp, order, r) && Afterwards(records, native, gcp, order, r)[id].name == n
    ensures !IsSurplus(records, gcp, id)
  {
    hide CloudDiff, Registrations, CalledIn, Twins, SameQuota, QuotaAt, Backs;
    var i := ServingDiff(native, gcp, n);
    Outcome(records, native, gcp, order, r, i);
    var d := AllDiffs(native, gcp)[i];
    id := Target(d, r);
    TwinsName(Afterwards(records, native, gcp, order, r)[id], ByName(native)[n]);
    ByNameMembers(native);
    if i >= |gcp| { var m := RegistrationAt(native, gcp, i); assert d in AllDiffs(native, gcp); }
  }

  lemma NameIsServedOnce(
    records: Records, native: seq<Printer>, gcp: seq<Printer>, order: seq<nat>, r: Round, id: string, id': string)
    requires GoodRound(records, native, gcp, order, r)
    requires !IsSurplus(records, gcp, id) && !IsSurplus(records, gcp, id')
    requires var after := Afterwards(records, native, gcp, order, r);
             id in after && id' in after && after[id].name == after[id'].name
    ensures id == id'
  {
    hide AllDiffs, CalledIn, Twins, SameQuota, QuotaAt, Leaves;
    var i := LeftBy(records, native, gcp, order, r, id);
    var i' := LeftBy(records, native, gcp, order, r, id');
    Outcome(records, native, gcp, order, r, i);
    Outcome(records, native, gcp, order, r, i');
    var ds, after := AllDiffs(native, gcp), Afterwards(records, native, gcp, order, r);
    TwinsName(after[id], ByName(native)[ds[i].printer.name]);
    TwinsName(after[id'], ByName(native)[ds[i'].printer.name]);
    ByNameMembers(native);
    hide GoodRound;
    ServedOnce(native, gcp, i, i');
  }

  /** A surplus record contradicts any one of the three parts: its name is not native, or it is served elsewhere too. */
  lemma SurplusIsNoTwin(records: Records, native: seq<Printer>, gcp: seq<Printer>, order: seq<nat>, r: Round, id: string)
    requires GoodRound(records, native, gcp, order, r) && IsSurplus(records, gcp, id)
    ensures !Twinned(Afterwards(records, native, gcp, order, r), native)
  {
    var after := Afterwards(records, native, gcp, order, r);
    hide GoodRound, AllDiffs, CalledIn, Twins, ByName;
    SurplusStays(records, native, gcp, order, r, id);
    if after[id].name in ByName(native) {
      var id' := NameIsServed(records, native, gcp, order, r, after[id].name);
      assert id' != id;
    }
  }

  /**
   * For any list of cloud printers, repeated names included, and any order of successful calls: the
   * cloud ends up with exactly one twin per native name if and only if it held nothing else before.
   */
  lemma CloudBecomesTwin(records: Records, native: seq<Printer>, gcp: seq<Printer>, order: seq<nat>, r: Round)
    requires GoodRound(records, native, gcp, order, r)
    ensures Twinned(Afterwards(records, native, gcp, order, r), native) <==> NoSurplus(records, gcp)
  {
    var after := Afterwards(records, native, gcp, order, r);
    hide GoodRound, AllDiffs, CalledIn, Twins, ByName;
    if id :| id in records && IsSurplus(records, gcp, id) {
      SurplusIsNoTwin(records, native, gcp, order, r, id);
    } else {
      forall id | id in after ensures after[id].name in ByName(native) && Twins(after[id], ByName(native)[after[id].name]) {
        OnlyTwinsAreLeft(records, native, gcp, order, r, id);
      }
      forall n | n in ByName(native) ensures exists id :: id in after && after[id].name == n {
        var id := NameIsServed(records, native, gcp, order, r, n);
      }
      forall id, id' | id in after && id' in after && after[id].name == after[id'].name ensures id == id' {
        NameIsServedOnce(records, native, gcp, order, r, id, id');
      }
    }
  }

  /** And if they are mirrors, then so much for the quota. */
  lemma MirrorsKeepQuota(records: Records, native: seq<Printer>, gcp: seq<Printer>, order: seq<nat>, r: Round)
    requires GoodRound(records, native, gcp, order, r) && OnlyMirrors(Afterwards(records, native, gcp, order, r), native)
    ensures QuotaKept(records, native, gcp, r)
  {
    var after := Afterwards(records, native, gcp, order, r);
    hide CalledIn, AllDiffs, Twins, SameQuota, QuotaAt, Leaves, GoodRound;
    forall i: nat | i < |AllDiffs(native, gcp)| && Leaves(native, gcp, i) ensures QuotaAt(records, native, gcp, r, i) {
      Outcome(records, native, gcp, order, r, i);
      var d := AllDiffs(native, gcp)[i];
      TwinsName(after[Target(d, r)], ByName(native)[d.printer.name]);
      ByNameMembers(native);
    }
  }

  /**
   * They are mirrors, equal in every compared field that the cloud stores, if and only if moreover the
   * quota of every printer agrees or is pushed, and that of every new one is what the cloud chose.
   */
  lemma CloudBecomesMirror(records: Records, native: seq<Printer>, gcp: seq<Printer>, order: seq<nat>, r: Round)
    requires GoodRound(records, native, gcp, order, r)
    ensures Mirrored(Afterwards(records, native, gcp, order, r), native) <==>
            NoSurplus(records, gcp) && QuotaKept(records, native, gcp, r)
  {
    var after := Afterwards(records, native, gcp, order, r);
    hide GoodRound, AllDiffs, CalledIn, Twins, ByName, SameQuota, QuotaKept;
    CloudBecomesTwin(records, native, gcp, order, r);
    if OnlyMirrors(after, native) { MirrorsKeepQuota(records, native, gcp, order, r); }
    if NoSurplus(records, gcp) && QuotaKept(records, native, gcp, r) {
      forall id | id in after ensures after[id].name in ByName(native) && Mirrors(after[id], ByName(native)[after[id].name]) {
        OnlyTwinsAreLeft(records, native, gcp, order, r, id);
      }
    }
  }

  lemma {:induction false} UntouchedStays(records: Records, diffs: seq<PrinterDiff>, order: seq<nat>, r: Round, id: string)
    requires Indexes(order, |diffs|)
    requires forall i :: 0 <= i < |diffs| && r.replies(diffs[i].printer.name).ok ==> Target(diffs[i], r) != id
    ensures Find(CalledIn(records, diffs, order, r), id) == Find(records, id)
  {
    if order != [] {
      UntouchedStays(records, diffs, order[..|order| - 1], r, id);
      hide Effect;
    }
  }
}
