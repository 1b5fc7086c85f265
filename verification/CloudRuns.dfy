/** The cloud and the known printers over runs of rounds (manager/printermanager.go). */
module CloudRuns {
  import opened Collections
  import opened Printers
  import opened PrinterMap
  import opened Sync
  import opened Cloud

  /** What the manager knows of the cloud's printers when it starts: one of each name, with a new semaphore. */
  ghost function Opening(cloudList: seq<Printer>): map<string, Printer> {
    map n | n in ByName(cloudList) :: ByName(cloudList)[n].(semaphore := Some(SemaphoreRef(0, n)))
  }

  lemma OpeningNext(cloudList: seq<Printer>, i: nat)
    requires i < |cloudList|
    ensures Opening(cloudList[..i + 1]) ==
            Opening(cloudList[..i])[cloudList[i].name := cloudList[i].(semaphore := Some(SemaphoreRef(0, cloudList[i].name)))]
  {
    assert cloudList[..i + 1][..i] == cloudList[..i];
  }

  /** The cloud's records, and the printers that the manager knows. */
  datatype Sides = Sides(records: Records, known: map<string, Printer>)

  /** A round: the snapshot, the listing of the known printers, the order of the goroutines, the cloud's answers. */
  datatype Step = Step(native: seq<Printer>, gcp: seq<Printer>, order: seq<nat>, round: Round) {
    ghost function Diffs(): seq<PrinterDiff> { AllDiffs(native, gcp) }
  }

  /** The manager compares with a listing of what it knows, and its goroutines run in some order. */
  ghost predicate Possible(s: Sides, e: Step) {
    && Prepared(e.native) && Lists(e.gcp, s.known) && e.round.inCloud
    && IsSchedule(e.order, |e.Diffs()|) && Indexes(e.order, |e.Diffs()|)
  }

  /** The native printers have names, all different, and the cloud hands out new IDs. */
  ghost predicate IsFair(s: Sides, e: Step) {
    GoodSnapshot(e.native) && FreshIDs(s.records, e.native, e.gcp, e.round)
  }

  ghost function Then(s: Sides, e: Step): Sides
    requires Indexes(e.order, |e.Diffs()|)
  {
    Sides(Afterwards(s.records, e.native, e.gcp, e.order, e.round), Synced(s.known, e.native, e.round))
  }

  /** Both sides after a run of rounds, if each of them was possible and fair. */
  ghost function Through(s: Sides, steps: seq<Step>): Option<Sides> {
    if steps == [] then Some(s)
    else
      var before := Through(s, steps[..|steps| - 1]);
      var e := steps[|steps| - 1];
      if before.Some? && Possible(before.value, e) && IsFair(before.value, e) then Some(Then(before.value, e)) else None
  }

  /** No round of the run is unfair. */
  ghost predicate AllFair(s: Sides, steps: seq<Step>) {
    forall k :: 0 <= k < |steps| && Through(s, steps[..k]).Some? ==> IsFair(Through(s, steps[..k]).value, steps[k])
  }

  lemma ThroughNext(s: Sides, steps: seq<Step>, before: Sides, e: Step)
    requires AllFair(s, steps) ==> Through(s, steps) == Some(before)
    requires Possible(before, e)
    ensures AllFair(s, steps + [e]) ==> IsFair(before, e) && Through(s, steps + [e]) == Some(Then(before, e))
  {
    hide Possible, IsFair, Then;
    var more := steps + [e];
    assert more[..|steps|] == steps;
    assert forall k :: 0 <= k < |steps| ==> more[..k] == steps[..k];
    if AllFair(s, more) {
      assert AllFair(s, steps);
      assert Through(s, more[..|steps|]).Some?;
    }
  }

  /** A round whose diff is nil calls nothing. */
  lemma {:induction false} NothingIsCalled(records: Records, diffs: seq<PrinterDiff>, order: seq<nat>, r: Round)
    requires NothingToDo(diffs) && Indexes(order, |diffs|)
    ensures CalledIn(records, diffs, order, r) == records
  {
    if order != [] {
      NothingIsCalled(records, diffs, order[..|order| - 1], r);
      assert diffs[order[|order| - 1]] in diffs;
    }
  }

  /** A cloud printer that the manager does not know. */
  ghost predicate IsAstray(s: Sides, id: string) {
    id in s.records && forall n :: n in s.known ==> s.known[n].gcpID != id
  }

  // ---- Whatever the answers ----

  /** The listing and the index are about the same cloud printers. */
  lemma AstrayIsSurplus(s: Sides, gcp: seq<Printer>, id: string)
    requires Lists(gcp, s.known)
    ensures IsAstray(s, id) <==> IsSurplus(s.records, gcp, id)
  {
    ByNameAt(gcp);
    ByNameMembers(gcp);
  }

  lemma NewNameArrives(known: map<string, Printer>, native: seq<Printer>, gcp: seq<Printer>, r: Round, n: string)
    returns (m: nat)
    requires Lists(gcp, known) && n in Synced(known, native, r) && n !in known && r.inCloud
    ensures m < |native| && native[m] == ByName(native)[n] && native[m].name == n && Arrives(native, gcp, r, m)
    ensures Synced(known, native, r)[n] == Registered(native[m], r)
  {
    ByNameMembers(native);
    ByNameMembers(gcp);
    var p := ByName(native)[n];
    m :| 0 <= m < |native| && native[m] == p;
  }

  lemma MergedKeepsID(native: Printer, known: Printer)
    ensures Merged(native, known).gcpID == known.gcpID
  {
  }

  lemma AstrayStays(s: Sides, e: Step, id: string)
    requires Possible(s, e) && IsFair(s, e) && IsAstray(s, id)
    ensures IsAstray(Then(s, e), id) && Then(s, e).records[id] == s.records[id]
  {
    var ds := AllDiffs(e.native, e.gcp);
    AstrayIsSurplus(s, e.gcp, id);
    hide ByName;
    forall i | 0 <= i < |ds| && e.round.replies(ds[i].printer.name).ok ensures Target(ds[i], e.round) != id {
      hide CloudDiff, Registrations;
      if i < |e.gcp| {
        CloudTarget(e.native, e.gcp, i, e.round);
      } else {
        var m := RegistrationAt(e.native, e.gcp, i);
        assert Arrives(e.native, e.gcp, e.round, m);
      }
    }
    UntouchedStays(s.records, ds, e.order, e.round, id);
    hide CalledIn, AllDiffs, Target, Merged;
    var known := Synced(s.known, e.native, e.round);
    forall n | n in known ensures known[n].gcpID != id {
      if n in s.known {
        MergedKeepsID(ByName(e.native)[n], s.known[n]);
      } else {
        var m := NewNameArrives(s.known, e.native, e.gcp, e.round, n);
      }
    }
  }

  /**
   * A cloud printer that the manager does not know is never deleted or changed, in any run of rounds,
   * whatever is native and whatever the cloud answers.
   */
  lemma {:induction false} SurplusSurvives(s: Sides, steps: seq<Step>, id: string)
    requires IsAstray(s, id) && Through(s, steps).Some?
    ensures IsAstray(Through(s, steps).value, id) && Through(s, steps).value.records[id] == s.records[id]
  {
    if steps != [] {
      SurplusSurvives(s, steps[..|steps| - 1], id);
      AstrayStays(Through(s, steps[..|steps| - 1]).value, steps[|steps| - 1], id);
      hide Then, Possible, IsFair;
    }
  }

  /** Name n is known by the listed printer that the index holds. */
  lemma OpeningAt(cloudList: seq<Printer>, n: string) returns (i: nat)
    requires n in Opening(cloudList)
    ensures i < |cloudList| && cloudList[i].name == n && ByName(cloudList)[n] == cloudList[i]
    ensures Opening(cloudList)[n] == cloudList[i].(semaphore := Some(SemaphoreRef(0, n)))
  {
    ByNameMembers(cloudList);
    hide ByName;
    i :| 0 <= i < |cloudList| && cloudList[i] == ByName(cloudList)[n];
  }

  lemma IDsAreApart(records: Records, cloudList: seq<Printer>, i: nat, j: nat)
    requires Listed(records, cloudList) && i < |cloudList| && j < |cloudList| && cloudList[i].gcpID == cloudList[j].gcpID
    ensures i == j
  {
    hide Backs;
    if i < j {} else if j < i {}
  }

  lemma NoneAstray(records: Records, cloudList: seq<Printer>, id: string)
    requires Holds(records, cloudList) && DistinctNames(cloudList) && id in records
    ensures !IsAstray(Sides(records, Opening(cloudList)), id)
  {
    hide Listed;
    ByNameAt(cloudList);
    var i :| 0 <= i < |cloudList| && cloudList[i].gcpID == id;
    hide ByName;
    assert Opening(cloudList)[cloudList[i].name].gcpID == id;
  }

  /** Of two printers of one name, the index holds one at most. */
  lemma OneIsAstray(records: Records, cloudList: seq<Printer>, i: nat)
    requires Holds(records, cloudList) && i < |cloudList|
    requires cloudList[i].name in ByName(cloudList) && ByName(cloudList)[cloudList[i].name] != cloudList[i]
    ensures IsAstray(Sides(records, Opening(cloudList)), cloudList[i].gcpID)
  {
    hide ByName, Backs;
    forall n | n in Opening(cloudList) ensures Opening(cloudList)[n].gcpID != cloudList[i].gcpID {
      var j := OpeningAt(cloudList, n);
      if Opening(cloudList)[n].gcpID == cloudList[i].gcpID { IDsAreApart(records, cloudList, i, j); }
    }
  }

  /** There is such a printer at the start if and only if the cloud has two printers of one name. */
  lemma SurplusAtStart(records: Records, cloudList: seq<Printer>)
    requires Holds(records, cloudList)
    ensures (exists id :: IsAstray(Sides(records, Opening(cloudList)), id)) <==> !DistinctNames(cloudList)
  {
    ByNameMembers(cloudList);
    hide ByName, Opening, Listed, NoSurplus;
    if DistinctNames(cloudList) {
      forall id ensures !IsAstray(Sides(records, Opening(cloudList)), id) {
        if id in records { NoneAstray(records, cloudList, id); }
      }
    } else {
      var i, j :| 0 <= i < j < |cloudList| && cloudList[i].name == cloudList[j].name;
      if cloudList[i] == cloudList[j] { IDsAreApart(records, cloudList, i, j); }
      OneIsAstray(records, cloudList, if ByName(cloudList)[cloudList[i].name] == cloudList[i] then j else i);
    }
  }

  // ---- When all calls succeed ----

  ghost predicate Succeeds(e: Step) {
    AllSucceed(e.Diffs(), e.round)
  }

  /** Every known printer has a record of its own that backs it. */
  ghost predicate Tracks(s: Sides) {
    && (forall n :: n in s.known ==>
          s.known[n].name == n && s.known[n].gcpID in s.records && Backs(s.records[s.known[n].gcpID], s.known[n]))
    && (forall n, n' :: n in s.known && n' in s.known && n != n' ==> s.known[n].gcpID != s.known[n'].gcpID)
  }

  lemma TracksListed(s: Sides, gcp: seq<Printer>)
    requires Tracks(s) && Lists(gcp, s.known)
    ensures Listed(s.records, gcp)
  {
    ByNameAt(gcp);
    hide Backs, ByName;
  }

  lemma StartTracks(records: Records, cloudList: seq<Printer>)
    requires Holds(records, cloudList)
    ensures Tracks(Sides(records, Opening(cloudList)))
  {
    var known := Opening(cloudList);
    hide ByName, NoSurplus, Opening;
    forall n | n in known
      ensures known[n].name == n && known[n].gcpID in records && Backs(records[known[n].gcpID], known[n])
    {
      var i := OpeningAt(cloudList, n);
    }
    hide Backs;
    forall n, n' | n in known && n' in known && n != n' ensures known[n].gcpID != known[n'].gcpID {
      var i := OpeningAt(cloudList, n);
      var j := OpeningAt(cloudList, n');
      if known[n].gcpID == known[n'].gcpID { IDsAreApart(records, cloudList, i, j); }
    }
  }

  /** If the record of a native printer is its twin, it backs what the manager then knows. */
  lemma TwinBacks(rec: Printer, native: Printer, known: Printer)
    requires Twins(rec, native) && native.name == known.name
    ensures Backs(rec, Merged(native, known))
  {
  }

  lemma TwinBacksNew(rec: Printer, native: Printer, r: Round)
    requires Twins(rec, native)
    ensures Backs(rec, Registered(native, r))
  {
  }

  ghost predicate GoodStep(s: Sides, e: Step) {
    Possible(s, e) && IsFair(s, e) && Succeeds(e) && Tracks(s)
  }

  lemma GoodStepIsGoodRound(s: Sides, e: Step)
    requires GoodStep(s, e)
    ensures GoodRound(s.records, e.native, e.gcp, e.order, e.round)
  {
    TracksListed(s, e.gcp);
    hide AllDiffs, Listed, Lists;
  }

  /** The diff about a known printer that is still native leaves the twin of the native one. */
  lemma KnownIsTwinned(s: Sides, e: Step, n: string)
    requires GoodStep(s, e) && n in s.known && n in ByName(e.native)
    ensures var id := s.known[n].gcpID; var t := Then(s, e);
            id in t.records && Twins(t.records[id], ByName(e.native)[n])
  {
    GoodStepIsGoodRound(s, e);
    ByNameMembers(e.gcp);
    ByNameAt(e.gcp);
    hide ByName, CloudDiff, Registrations, CalledIn, Twins, QuotaAt, SameQuota, GoodRound, Tracks, Succeeds;
    var i :| 0 <= i < |e.gcp| && e.gcp[i].name == n;
    Outcome(s.records, e.native, e.gcp, e.order, e.round, i);
  }

  lemma NewIsTwinned(s: Sides, e: Step, n: string)
    requires GoodStep(s, e) && n in Then(s, e).known && n !in s.known
    ensures var id := Then(s, e).known[n].gcpID; var t := Then(s, e);
            && id in t.records && Twins(t.records[id], ByName(e.native)[n])
            && t.known[n] == Registered(ByName(e.native)[n], e.round)
  {
    GoodStepIsGoodRound(s, e);
    hide ByName, CloudDiff, Registrations, CalledIn, Twins, QuotaAt, SameQuota, GoodRound, Tracks, Succeeds;
    var m := NewNameArrives(s.known, e.native, e.gcp, e.round, n);
    NewDiff(e.native, e.gcp, n);
    var d := PrinterDiff(Register, ByName(e.native)[n], UNCHANGED);
    var i :| 0 <= i < |e.Diffs()| && e.Diffs()[i] == d;
    if i < |e.gcp| { CloudName(e.native, e.gcp, i); }
    Outcome(s.records, e.native, e.gcp, e.order, e.round, i);
  }

  lemma KnownIsBacked(s: Sides, e: Step, n: string)
    requires GoodStep(s, e) && n in Then(s, e).known
    ensures var t := Then(s, e);
            t.known[n].name == n && t.known[n].gcpID in t.records && Backs(t.records[t.known[n].gcpID], t.known[n])
    ensures n in s.known ==> Then(s, e).known[n].gcpID == s.known[n].gcpID
  {
    ByNameMembers(e.native);
    hide ByName, Afterwards, Backs, Twins, Merged, Registered;
    var t, p := Then(s, e), ByName(e.native)[n];
    if n in s.known {
      assert t.known[n] == Merged(p, s.known[n]);
      KnownIsTwinned(s, e, n);
      TwinBacks(t.records[s.known[n].gcpID], p, s.known[n]);
      MergedKeepsID(p, s.known[n]);
      MergedName(p, s.known[n]);
    } else {
      NewIsTwinned(s, e, n);
      TwinBacksNew(t.records[t.known[n].gcpID], p, e.round);
      NewName(p, e.round);
    }
  }

  lemma NewName(p: Printer, r: Round)
    ensures Registered(p, r).name == p.name
    ensures r.inCloud ==> Registered(p, r).gcpID == r.replies(p.name).newID
  {
  }

  lemma NewIDIsNew(s: Sides, e: Step, n: string) returns (m: nat)
    requires Possible(s, e) && IsFair(s, e) && n in Then(s, e).known && n !in s.known
    ensures m < |e.native| && e.native[m].name == n && Arrives(e.native, e.gcp, e.round, m)
    ensures Then(s, e).known[n].gcpID == e.round.replies(n).newID && Then(s, e).known[n].gcpID !in s.records
  {
    hide Afterwards, ByName, AllDiffs;
    m := NewNameArrives(s.known, e.native, e.gcp, e.round, n);
  }

  lemma IDsStayApart(s: Sides, e: Step, n: string, n': string)
    requires GoodStep(s, e) && n in Then(s, e).known && n' in Then(s, e).known && n != n'
    ensures Then(s, e).known[n].gcpID != Then(s, e).known[n'].gcpID
  {
    KnownIsBacked(s, e, n);
    KnownIsBacked(s, e, n');
    hide Afterwards, Synced, Backs, AllDiffs;
    if n !in s.known {
      var m := NewIDIsNew(s, e, n);
      if n' !in s.known {
        var m' := NewIDIsNew(s, e, n');
        if m < m' {} else {}
      }
    } else if n' !in s.known {
      var m' := NewIDIsNew(s, e, n');
    }
  }

  lemma TracksKept(s: Sides, e: Step)
    requires GoodStep(s, e)
    ensures Tracks(Then(s, e))
  {
    var t := Then(s, e);
    hide GoodStep, Then;
    forall n | n in t.known
      ensures t.known[n].name == n && t.known[n].gcpID in t.records && Backs(t.records[t.known[n].gcpID], t.known[n])
    {
      KnownIsBacked(s, e, n);
    }
    hide Backs;
    forall n, n' | n in t.known && n' in t.known && n != n' ensures t.known[n].gcpID != t.known[n'].gcpID {
      IDsStayApart(s, e, n, n');
    }
  }

  /** What a diff leaves, the manager knows afterwards. */
  lemma LeftIsKnown(s: Sides, e: Step, i: nat) returns (n: string)
    requires GoodStep(s, e) && i < |e.Diffs()| && Leaves(e.native, e.gcp, i)
    ensures n in Then(s, e).known && Then(s, e).known[n].gcpID == Target(e.Diffs()[i], e.round)
  {
    hide CloudDiff, Registrations, Afterwards, Tracks, FreshIDs;
    if i < |e.gcp| {
      n := e.gcp[i].name;
      CloudTarget(e.native, e.gcp, i, e.round);
      ByNameAt(e.gcp);
      MergedKeepsID(ByName(e.native)[n], s.known[n]);
      hide Merged;
    } else {
      var m := RegistrationAt(e.native, e.gcp, i);
      n := e.native[m].name;
      assert e.Diffs()[i] in e.Diffs();
      ByNameMembers(e.gcp);
      assert n !in s.known;
    }
  }

  /** No printer goes astray in a round in which all calls succeed. */
  lemma NoneGoesAstray(s: Sides, e: Step, id: string)
    requires GoodStep(s, e) && IsAstray(Then(s, e), id)
    ensures IsAstray(s, id)
  {
    if !IsAstray(s, id) {
      GoodStepIsGoodRound(s, e);
      AstrayIsSurplus(s, e.gcp, id);
      hide AllDiffs, Leaves, Target, GoodRound, CalledIn, Synced;
      var i := LeftBy(s.records, e.native, e.gcp, e.order, e.round, id);
      var n := LeftIsKnown(s, e, i);
    }
  }

  /** Over a run in which all calls succeed, the manager keeps track, and exactly the same printers stay astray. */
  lemma {:induction false} RunKeepsTrack(s: Sides, steps: seq<Step>)
    requires Tracks(s) && Through(s, steps).Some? && forall e :: e in steps ==> Succeeds(e)
    ensures Tracks(Through(s, steps).value)
    ensures forall id :: IsAstray(Through(s, steps).value, id) <==> IsAstray(s, id)
  {
    if steps != [] {
      var rest, e := steps[..|steps| - 1], steps[|steps| - 1];
      RunKeepsTrack(s, rest);
      hide Then, Possible, IsFair, Tracks, Succeeds, IsAstray;
      var before := Through(s, rest).value;
      TracksKept(before, e);
      forall id ensures IsAstray(Then(before, e), id) <==> IsAstray(before, id) {
        if IsAstray(before, id) { AstrayStays(before, e, id); }
        if IsAstray(Then(before, e), id) { NoneGoesAstray(before, e, id); }
      }
    }
  }

  /**
   * The cloud after any run of rounds in which all calls succeed: exactly one twin per name of the last
   * snapshot, if and only if no name occurs twice in the list that the manager started from; and exactly
   * one mirror, if and only if moreover the last round keeps the quotas.
   */
  lemma CloudFollows(records: Records, cloudList: seq<Printer>, steps: seq<Step>, e: Step)
    requires Holds(records, cloudList) && forall e' :: e' in steps + [e] ==> Succeeds(e')
    requires Through(Sides(records, Opening(cloudList)), steps).Some?
    requires var before := Through(Sides(records, Opening(cloudList)), steps).value; Possible(before, e) && IsFair(before, e)
    ensures var before := Through(Sides(records, Opening(cloudList)), steps).value;
            var after := Then(before, e).records;
            && (Twinned(after, e.native) <==> DistinctNames(cloudList))
            && (Mirrored(after, e.native) <==>
                  DistinctNames(cloudList) && QuotaKept(before.records, e.native, e.gcp, e.round))
  {
    var s := Sides(records, Opening(cloudList));
    StartTracks(records, cloudList);
    SurplusAtStart(records, cloudList);
    RunKeepsTrack(s, steps);
    var before := Through(s, steps).value;
    assert Succeeds(e);
    assert GoodStep(before, e);
    assert Lists(e.gcp, before.known) && Indexes(e.order, |AllDiffs(e.native, e.gcp)|);
    hide Through, Tracks, Succeeds, Holds, Opening, GoodStep, IsAstray, IsSurplus, Twinned, Mirrored, QuotaKept,
        Possible, IsFair, Afterwards;
    GoodStepIsGoodRound(before, e);
    forall id ensures IsAstray(s, id) <==> IsSurplus(before.records, e.gcp, id) { AstrayIsSurplus(before, e.gcp, id); }
    SurplusOrNot(before.records, e.gcp);
    CloudBecomesTwin(before.records, e.native, e.gcp, e.order, e.round);
    CloudBecomesMirror(before.records, e.native, e.gcp, e.order, e.round);
  }

  lemma SurplusOrNot(records: Records, gcp: seq<Printer>)
    ensures NoSurplus(records, gcp) <==> !exists id :: IsSurplus(records, gcp, id)
  {
    if !NoSurplus(records, gcp) {
      var id :| id in records && forall i :: 0 <= i < |gcp| ==> gcp[i].gcpID != id;
      assert IsSurplus(records, gcp, id);
    }
  }
}
