/** The life of print jobs in the manager (manager/printermanager.go), under every interleaving. */
module Jobs {
  import opened Collections

  datatype StateType = Draft | Held | Queued | InProgress | Stopped | Done | Aborted

  datatype Cause = NoCause | UserCanceled | DevicePrintFailure | DeviceOther | PrinterDeleted

  datatype JobState = JobState(kind: StateType, cause: Cause)

  /** cdd.PrintJobStateDiff; pages are carried along. */
  datatype StateDiff = StateDiff(state: Option<JobState>, pages: Option<int>)

  const ZERO := StateDiff(None, None)

  /** convertJobState; the codes are those of the job-state enum, RFC 8011 section 5.3.7. */
  function ConvertJobState(cupsState: int): StateDiff {
    match cupsState
    case 3 => StateDiff(Some(JobState(InProgress, NoCause)), None)
    case 4 => StateDiff(Some(JobState(InProgress, NoCause)), None)
    case 5 => StateDiff(Some(JobState(InProgress, NoCause)), None)
    case 6 => StateDiff(Some(JobState(Stopped, DeviceOther)), None)
    case 7 => StateDiff(Some(JobState(Aborted, UserCanceled)), None)
    case 8 => StateDiff(Some(JobState(Aborted, DevicePrintFailure)), None)
    case 9 => StateDiff(Some(JobState(Done, NoCause)), None)
    case _ => ZERO
  }

  predicate Ongoing(d: StateDiff) {
    d.state.Some? && d.state.value.kind in {InProgress, Stopped}
  }

  predicate Terminal(d: StateDiff) {
    d.state.Some? && d.state.value.kind !in {InProgress, Stopped}
  }

  function AbortReport(cause: Cause, pages: Option<int>): StateDiff {
    StateDiff(Some(JobState(Aborted, cause)), pages)
  }

  // ---- The reports of one job ----

  function LastOr(s: seq<StateDiff>): StateDiff {
    if s == [] then ZERO else s[|s| - 1]
  }

  /** The polled states without consecutive repeats; before the first poll the state is the zero value. */
  function Squeezed(s: seq<StateDiff>): seq<StateDiff> {
    if s == [] then []
    else
      var rest := s[..|s| - 1];
      Squeezed(rest) + if s[|s| - 1] == LastOr(rest) then [] else [s[|s| - 1]]
  }

  /** t repeats each report of r one or more times, in order. */
  ghost predicate Stutters(t: seq<StateDiff>, r: seq<StateDiff>) {
    if t == [] then r == []
    else r != [] && t[|t| - 1] == r[|r| - 1]
         && (Stutters(t[..|t| - 1], r) || Stutters(t[..|t| - 1], r[..|r| - 1]))
  }

  /** Squeezing removes exactly the repeats: nothing is lost, and no two neighbours are equal. */
  lemma {:induction false} SqueezedStutters(s: seq<StateDiff>)
    requires forall i :: 0 <= i < |s| ==> s[i] != ZERO
    ensures Stutters(s, Squeezed(s)) && LastOr(Squeezed(s)) == LastOr(s)
    ensures var r := Squeezed(s); forall i :: 0 < i < |r| ==> r[i - 1] != r[i]
  {
    if s != [] {
      var rest, last := s[..|s| - 1], s[|s| - 1];
      SqueezedStutters(rest);
      if last != LastOr(rest) {
        assert Squeezed(s)[..|Squeezed(s)| - 1] == Squeezed(rest);
      } else {
        assert Squeezed(s) == Squeezed(rest);
      }
    }
  }

  lemma {:induction false} SqueezedMembers(s: seq<StateDiff>)
    ensures forall d :: d in Squeezed(s) ==> d in s
    ensures s != [] && s[|s| - 1] != LastOr(s[..|s| - 1]) ==>
              Squeezed(s) == Squeezed(s[..|s| - 1]) + [s[|s| - 1]]
  {
    if s != [] { SqueezedMembers(s[..|s| - 1]); }
  }

  // ---- Goroutines ----

  /** Where a printJob goroutine is. */
  datatype Phase =
    | Starting                       // about to call addInFlightJob
    | Rejected                       // a duplicate: returned at once
    | LookingUp                      // in the set; looking for the printer
    | Submitting                     // calling Print
    | Failing(report: StateDiff)     // about to count the failure, then report it
    | Aborting(report: StateDiff)    // failure counted, about to report it
    | Polling(last: StateDiff)       // waiting for the next tick
    | Reporting(now: StateDiff)      // a new state, about to call updateJob
    | Checking(now: StateDiff)       // about to look whether the job has finished
    | Losing(last: StateDiff)        // GetJobState failed, about to report it
    | Counting(success: bool)        // about to count the result
    | Crashing                       // nil dereference: the process dies
    | Leaving                        // about to call deleteInFlightJob
    | Ended

  /** A goroutine with what it has seen and said; verdict is the count it has contributed. */
  datatype Thread = Thread(
    jobID: string, phase: Phase, polled: seq<StateDiff>, reports: seq<StateDiff>,
    submitted: bool, lost: bool, verdict: Option<bool>)
  {
    predicate Accepted() { phase != Starting && phase != Rejected }
    predicate Active() { Accepted() && phase != Ended }
  }

  /** The manager's shared fields; otherErrors is the share of jobsError that printJob did not count. */
  datatype State = State(
    threads: map<nat, Thread>, inFlight: set<string>, jobsDone: nat, jobsError: nat, otherErrors: nat, crashed: bool)

  const INITIAL := State(map[], {}, 0, 0, 0, false)

  datatype Event =
    | Spawn(id: nat, jobID: string)             // a job is received
    | Enter(id: nat)                            // addInFlightJob
    | LookUp(id: nat, exists_: bool)
    | Submit(id: nat, ok: bool)
    | Poll(id: nat, polled: Option<StateDiff>)  // a tick and GetJobState; None is an error
    | Report(id: nat)                           // updateJob
    | Check(id: nat)
    | Count(id: nat)                            // incrementJobsProcessed
    | Leave(id: nat)                            // deleteInFlightJob
    | OtherFailure                              // a job failed before it reached printJob

  /**
   * One atomic step of a goroutine on its own variables; None when it is not at that step. The flag
   * says whether its job ID is in the in-flight set.
   */
  function Local(th: Thread, e: Event, taken: bool): Option<Thread> {
    match (e, th.phase)
    case (Enter(_), Starting) => Some(th.(phase := if taken then Rejected else LookingUp))
    case (LookUp(_, found), LookingUp) =>
      Some(th.(phase := if found then Submitting else Failing(AbortReport(PrinterDeleted, None))))
    case (Submit(_, ok), Submitting) =>
      Some(if ok then th.(phase := Polling(ZERO), submitted := true)
           else th.(phase := Failing(AbortReport(DevicePrintFailure, None))))
    case (Count(_), Failing(report)) => Some(th.(phase := Aborting(report), verdict := Some(false)))
    case (Report(_), Aborting(report)) => Some(th.(phase := Leaving, reports := th.reports + [report]))
    case (Poll(_, native), Polling(last)) =>
      Some(if native.None? then th.(phase := Losing(last))
           else th.(phase := if native.value != last then Reporting(native.value) else Checking(last),
                    polled := th.polled + [native.value]))
    case (Report(_), Reporting(now)) => Some(th.(phase := Checking(now), reports := th.reports + [now]))
    case (Check(_), Checking(now)) =>
      Some(if now.state.None? then th.(phase := Crashing)
           else th.(phase := if Ongoing(now) then Polling(now) else Counting(now.state.value.kind == Done)))
    case (Report(_), Losing(last)) =>
      Some(th.(phase := Counting(false), lost := true, reports := th.reports + [AbortReport(DeviceOther, last.pages)]))
    case (Count(_), Counting(success)) => Some(th.(phase := Leaving, verdict := Some(success)))
    case (Leave(_), Leaving) => Some(th.(phase := Ended))
    case _ => None
  }

  /** The step on the shared fields. */
  function Next(s: State, e: Event): Option<State> {
    if s.crashed then None
    else if e.OtherFailure? then Some(s.(jobsError := s.jobsError + 1, otherErrors := s.otherErrors + 1))
    else if e.Spawn? then
      if e.id in s.threads then None
      else Some(s.(threads := s.threads[e.id := Thread(e.jobID, Starting, [], [], false, false, None)]))
    else if e.id !in s.threads then None
    else
      var th := s.threads[e.id];
      var moved := Local(th, e, th.jobID in s.inFlight);
      if moved.None? then None
      else
        var th' := moved.value;
        var t := s.(threads := s.threads[e.id := th']);
        match e
        case Enter(_) => Some(if th'.phase == Rejected then t else t.(inFlight := s.inFlight + {th.jobID}))
        case Leave(_) => Some(t.(inFlight := s.inFlight - {th.jobID}))
        case Count(_) =>
          Some(if th'.verdict == Some(true) then t.(jobsDone := s.jobsDone + 1) else t.(jobsError := s.jobsError + 1))
        case Check(_) => Some(if th'.phase.Crashing? then t.(crashed := true) else t)
        case _ => Some(t)
  }

  ghost function After(events: seq<Event>): Option<State> {
    if events == [] then Some(INITIAL)
    else
      var before := After(events[..|events| - 1]);
      if before.None? then None else Next(before.value, events[|events| - 1])
  }

  // ---- Exactly-once accounting ----

  /** The in-flight set holds the IDs of the active goroutines, ... */
  ghost predicate InFlightIsActive(s: State) {
    && (forall id :: id in s.threads && s.threads[id].Active() ==> s.threads[id].jobID in s.inFlight)
    && (forall j :: j in s.inFlight ==> exists id :: id in s.threads && s.threads[id].Active() && s.threads[id].jobID == j)
  }

  /** ... one goroutine each. */
  ghost predicate ActiveApart(s: State) {
    forall id, id' ::
      (id in s.threads && id' in s.threads && s.threads[id].Active() && s.threads[id'].Active()
       && s.threads[id].jobID == s.threads[id'].jobID) ==> id == id'
  }

  ghost predicate OneEach(s: State) {
    InFlightIsActive(s) && ActiveApart(s)
  }

  /** A goroutine has been counted exactly when it is past its count. */
  predicate CountedWhenPast(th: Thread) {
    th.verdict.Some? <==> th.phase.Aborting? || th.phase.Leaving? || th.phase.Ended?
  }

  function AcceptedIDs(s: State): set<nat> { set id | id in s.threads && s.threads[id].Accepted() }

  function VerdictIDs(s: State, v: Option<bool>): set<nat> {
    set id | id in s.threads && s.threads[id].Accepted() && s.threads[id].verdict == v
  }

  ghost predicate Balanced(s: State) {
    && s.jobsDone == |VerdictIDs(s, Some(true))|
    && s.jobsError == s.otherErrors + |VerdictIDs(s, Some(false))|
  }

  ghost predicate Inv(s: State) {
    && OneEach(s) && Balanced(s)
    && (forall id :: id in s.threads ==> CountedWhenPast(s.threads[id]))
  }

  /** What a step does to its goroutine is one of these. */
  ghost predicate StepShape(th: Thread, th': Thread) {
    && th'.jobID == th.jobID
    && (th.Accepted() ==> th'.Accepted())
    && (th'.verdict != th.verdict ==> th.verdict.None? && th'.verdict.Some? && th.Accepted())
  }

  lemma LocalShape(th: Thread, e: Event, taken: bool)
    requires Local(th, e, taken).Some? && CountedWhenPast(th)
    ensures var th' := Local(th, e, taken).value;
            && StepShape(th, th') && CountedWhenPast(th')
            && (th'.verdict != th.verdict <==> e.Count?)
            && (th'.Active() != th.Active() <==> (e.Enter? && th'.phase != Rejected) || e.Leave?)
            && (e.Enter? ==> !th.Active() && (th'.phase == Rejected <==> taken))
            && (e.Leave? ==> th.Active())
            && (th'.phase.Crashing? <==> e.Check? && th.phase.now.state.None?)
  {
  }

  /** A step of goroutine id, seen from the in-flight set. */
  ghost predicate SetStep(s: State, t: State, id: nat) {
    && id in t.threads
    && (id in s.threads ==> t.threads == s.threads[id := t.threads[id]] && t.threads[id].jobID == s.threads[id].jobID)
    && (id !in s.threads ==> t.threads == s.threads[id := t.threads[id]] && !t.threads[id].Active())
    && var was := id in s.threads && s.threads[id].Active();
       var j := t.threads[id].jobID;
       if was == t.threads[id].Active() then t.inFlight == s.inFlight
       else if was then t.inFlight == s.inFlight - {j}
       else j !in s.inFlight && t.inFlight == s.inFlight + {j}
  }

  /** The same, with the shared fields. */
  lemma NextShape(s: State, e: Event)
    requires Next(s, e).Some? && !e.OtherFailure? && !e.Spawn?
    requires forall id :: id in s.threads ==> CountedWhenPast(s.threads[id])
    ensures e.id in s.threads
    ensures var t := Next(s, e).value;
            && e.id in t.threads && t.threads == s.threads[e.id := t.threads[e.id]]
            && StepShape(s.threads[e.id], t.threads[e.id]) && CountedWhenPast(t.threads[e.id])
            && SetStep(s, t, e.id)
    ensures var th, th', t := s.threads[e.id], Next(s, e).value.threads[e.id], Next(s, e).value;
            && t.otherErrors == s.otherErrors
            && t.jobsDone == s.jobsDone + (if th'.verdict != th.verdict && th'.verdict == Some(true) then 1 else 0)
            && t.jobsError == s.jobsError + (if th'.verdict != th.verdict && th'.verdict == Some(false) then 1 else 0)
  {
    LocalShape(s.threads[e.id], e, s.threads[e.id].jobID in s.inFlight);
    hide Local, CountedWhenPast;
  }

  lemma VerdictsChange(s: State, t: State, id: nat, v: Option<bool>)
    requires id in s.threads && id in t.threads && t.threads == s.threads[id := t.threads[id]]
    requires StepShape(s.threads[id], t.threads[id]) && v.Some?
    requires !s.threads[id].Accepted() ==> s.threads[id].verdict.None? && t.threads[id].verdict.None?
    ensures |VerdictIDs(t, v)| == |VerdictIDs(s, v)| +
              if t.threads[id].verdict != s.threads[id].verdict && t.threads[id].verdict == v then 1 else 0
  {
    if t.threads[id].verdict != s.threads[id].verdict && t.threads[id].verdict == v {
      assert VerdictIDs(t, v) == VerdictIDs(s, v) + {id};
    } else {
      assert VerdictIDs(t, v) == VerdictIDs(s, v);
    }
  }

  lemma StepKeepsInFlight(s: State, t: State, id: nat)
    requires OneEach(s) && SetStep(s, t, id)
    ensures InFlightIsActive(t)
  {
    forall j | j in t.inFlight ensures exists k :: k in t.threads && t.threads[k].Active() && t.threads[k].jobID == j {
      if j in s.inFlight {
        var k :| k in s.threads && s.threads[k].Active() && s.threads[k].jobID == j;
        assert t.threads[k].jobID == j && t.threads[k].Active();
      } else {
        assert t.threads[id].Active();
      }
    }
  }

  lemma StepKeepsApart(s: State, t: State, id: nat)
    requires OneEach(s) && SetStep(s, t, id)
    ensures ActiveApart(t)
  {
  }

  lemma NextKeepsOneEach(s: State, e: Event)
    requires Inv(s) && Next(s, e).Some?
    ensures OneEach(Next(s, e).value)
  {
    var t := Next(s, e).value;
    hide Balanced, InFlightIsActive, ActiveApart;
    if e.OtherFailure? {
      SameThreads(s, t);
    } else {
      if !e.Spawn? { NextShape(s, e); }
      assert SetStep(s, t, e.id);
      hide Next;
      StepKeepsInFlight(s, t, e.id);
      StepKeepsApart(s, t, e.id);
    }
  }

  lemma SameThreads(s: State, t: State)
    requires OneEach(s) && t.threads == s.threads && t.inFlight == s.inFlight
    ensures OneEach(t)
  {
  }

  lemma NextKeepsBalanced(s: State, e: Event)
    requires Inv(s) && Next(s, e).Some?
    ensures Balanced(Next(s, e).value)
  {
    var t := Next(s, e).value;
    hide OneEach;
    if e.OtherFailure? || e.Spawn? {
      OpenVerdicts(s, t, e);
    } else {
      NextShape(s, e);
      hide Next, VerdictIDs;
      VerdictsChange(s, t, e.id, Some(true));
      VerdictsChange(s, t, e.id, Some(false));
    }
  }

  lemma OpenVerdicts(s: State, t: State, e: Event)
    requires Next(s, e) == Some(t) && (e.OtherFailure? || e.Spawn?)
    ensures VerdictIDs(t, Some(true)) == VerdictIDs(s, Some(true)) && VerdictIDs(t, Some(false)) == VerdictIDs(s, Some(false))
    ensures t.jobsDone == s.jobsDone && t.jobsError - t.otherErrors == s.jobsError - s.otherErrors
  {
  }

  lemma NextKeepsInv(s: State, e: Event)
    requires Inv(s) && Next(s, e).Some?
    ensures Inv(Next(s, e).value)
  {
    NextKeepsOneEach(s, e);
    NextKeepsBalanced(s, e);
    if !e.OtherFailure? && !e.Spawn? { NextShape(s, e); }
    hide OneEach, Balanced, Local;
  }

  lemma {:induction false} RunKeepsInv(events: seq<Event>)
    requires After(events).Some?
    ensures Inv(After(events).value)
  {
    if events != [] {
      RunKeepsInv(events[..|events| - 1]);
      NextKeepsInv(After(events[..|events| - 1]).value, events[|events| - 1]);
    } else {
      assert VerdictIDs(INITIAL, Some(true)) == {} && VerdictIDs(INITIAL, Some(false)) == {};
    }
  }

  lemma AcceptedSplit(s: State)
    ensures |AcceptedIDs(s)| == |VerdictIDs(s, Some(true))| + |VerdictIDs(s, Some(false))| + |VerdictIDs(s, None)|
  {
    var yes, no, open := VerdictIDs(s, Some(true)), VerdictIDs(s, Some(false)), VerdictIDs(s, None);
    forall id | id in AcceptedIDs(s) ensures id in yes + no + open {
      match s.threads[id].verdict case None => case Some(b) => if b {} else {}
    }
    assert AcceptedIDs(s) == yes + no + open;
    assert |yes + no| == |yes| + |no| && |yes + no + open| == |yes + no| + |open|;
  }

  /**
   * At every point of every interleaving: at most one accepted goroutine per job ID is active, and
   * the accepted jobs are those done, plus printJob's share of the errors, plus those not yet
   * counted.
   */
  lemma ExactlyOnceAccounting(events: seq<Event>)
    requires After(events).Some?
    ensures var s := After(events).value;
            && (forall id, id' ::
                  (id in s.threads && id' in s.threads && s.threads[id].Active() && s.threads[id'].Active()
                   && s.threads[id].jobID == s.threads[id'].jobID) ==> id == id')
            && |AcceptedIDs(s)| == s.jobsDone + (s.jobsError - s.otherErrors) + |VerdictIDs(s, None)|
            && (forall id :: id in VerdictIDs(s, None) ==> s.threads[id].Active())
  {
    RunKeepsInv(events);
    hide After, AcceptedIDs, InFlightIsActive;
    AcceptedSplit(After(events).value);
  }

  lemma AfterStep(events: seq<Event>, e: Event)
    requires After(events).Some?
    ensures After(events + [e]) == Next(After(events).value, e)
  {
    assert (events + [e])[..|events|] == events;
    hide Next;
  }

  /** A goroutine that was rejected does nothing more. */
  lemma {:induction false} RejectedStays(events: seq<Event>, more: seq<Event>, id: nat)
    requires After(events).Some? && id in After(events).value.threads && After(events).value.threads[id].phase == Rejected
    requires After(events + more).Some?
    ensures id in After(events + more).value.threads
    ensures After(events + more).value.threads[id] == After(events).value.threads[id]
  {
    if more == [] {
      assert events + more == events;
    } else {
      var rest, e := more[..|more| - 1], more[|more| - 1];
      assert (events + more)[..|events + more| - 1] == events + rest && (events + more)[|events + more| - 1] == e;
      assert After(events + rest).Some?;
      RejectedStays(events, rest, id);
      hide After;
      RejectedIsStuck(After(events + rest).value, e, id);
    }
  }

  lemma RejectedIsStuck(s: State, e: Event, id: nat)
    requires id in s.threads && s.threads[id].phase == Rejected && Next(s, e).Some?
    ensures id in Next(s, e).value.threads && Next(s, e).value.threads[id] == s.threads[id]
  {
  }

  lemma RejectionShape(s: State, id: nat)
    requires Inv(s) && !s.crashed && id in s.threads && s.threads[id].phase == Starting
    ensures (exists other :: other in s.threads && s.threads[other].Active() && s.threads[other].jobID == s.threads[id].jobID)
            <==> Next(s, Enter(id)).value.threads[id].phase == Rejected
    ensures Next(s, Enter(id)).value.threads[id].phase == Rejected ==>
              Next(s, Enter(id)).value == s.(threads := s.threads[id := s.threads[id].(phase := Rejected)])
  {
    var j := s.threads[id].jobID;
    assert j in s.inFlight <==>
           exists other :: other in s.threads && s.threads[other].Active() && s.threads[other].jobID == j;
  }

  /**
   * In every run: a job is rejected exactly when an active job has its ID; that changes no counter and nothing in the
   * set, and the goroutine stays as it is in whatever follows.
   */
  lemma DuplicatesAreInert(events: seq<Event>, id: nat, more: seq<Event>)
    requires After(events).Some? && !After(events).value.crashed
    requires id in After(events).value.threads && After(events).value.threads[id].phase == Starting
    ensures var s, t := After(events).value, After(events + [Enter(id)]).value;
            && (t.threads[id].phase == Rejected <==>
                exists other ::
                  other in s.threads && s.threads[other].Active() && s.threads[other].jobID == s.threads[id].jobID)
            && (t.threads[id].phase == Rejected ==>
                  && t == s.(threads := s.threads[id := s.threads[id].(phase := Rejected)])
                  && (After(events + [Enter(id)] + more).Some? ==>
                        id in After(events + [Enter(id)] + more).value.threads
                        && After(events + [Enter(id)] + more).value.threads[id] == t.threads[id]))
  {
    RunKeepsInv(events);
    AfterStep(events, Enter(id));
    RejectionShape(After(events).value, id);
    hide After, Inv, Next;
    var t := After(events + [Enter(id)]).value;
    if t.threads[id].phase == Rejected && After(events + [Enter(id)] + more).Some? {
      RejectedStays(events + [Enter(id)], more, id);
    }
  }

  // ---- The report trace ----

  ghost predicate AllOngoing(s: seq<StateDiff>) {
    forall i :: 0 <= i < |s| ==> Ongoing(s[i])
  }

  /** What a finished poll loop has seen and said. */
  ghost predicate Finished(th: Thread) {
    if th.lost then
      AllOngoing(th.polled) && th.reports == Squeezed(th.polled) + [AbortReport(DeviceOther, LastOr(th.polled).pages)]
    else
      th.polled != [] && AllOngoing(th.polled[..|th.polled| - 1]) && Terminal(LastOr(th.polled))
      && th.reports == Squeezed(th.polled)
  }

  predicate SaysDone(d: StateDiff) {
    d.state.Some? && d.state.value.kind == Done
  }

  ghost predicate TraceInv(th: Thread) {
    var before := if th.polled == [] then [] else th.polled[..|th.polled| - 1];
    match th.phase
    case Polling(last) =>
      th.submitted && !th.lost && AllOngoing(th.polled) && last == LastOr(th.polled) && th.reports == Squeezed(th.polled)
    case Losing(last) =>
      th.submitted && !th.lost && AllOngoing(th.polled) && last == LastOr(th.polled) && th.reports == Squeezed(th.polled)
    case Crashing => th.polled != [] && LastOr(th.polled).state.None?
    case Reporting(now) =>
      th.submitted && !th.lost && th.polled != [] && AllOngoing(before) && now == LastOr(th.polled)
      && now != LastOr(before) && th.reports == Squeezed(before)
    case Checking(now) =>
      th.submitted && !th.lost && th.polled != [] && AllOngoing(before) && now == LastOr(th.polled)
      && th.reports == Squeezed(th.polled)
    case Counting(success) =>
      th.submitted && Finished(th) && success == (!th.lost && SaysDone(LastOr(th.polled)))
    case Leaving => EndInv(th)
    case Ended => EndInv(th)
    case Failing(report) => th.polled == th.reports == [] && !th.submitted && Terminal(report) && !SaysDone(report)
    case Aborting(report) =>
      th.polled == th.reports == [] && !th.submitted && Terminal(report) && !SaysDone(report) && th.verdict == Some(false)
    case _ => th.polled == th.reports == [] && !th.submitted && !th.lost
  }

  ghost predicate EndInv(th: Thread) {
    if th.submitted then
      Finished(th) && th.verdict == Some(!th.lost && SaysDone(LastOr(th.polled)))
    else
      |th.reports| == 1 && Terminal(th.reports[0]) && !SaysDone(th.reports[0]) && th.verdict == Some(false)
  }

  ghost predicate TracesInv(s: State) {
    && (forall id :: id in s.threads ==> TraceInv(s.threads[id]))
    && (s.crashed ==> exists id :: id in s.threads && s.threads[id].phase.Crashing?)
  }

  lemma PollKeepsTrace(th: Thread, native: StateDiff)
    requires th.phase.Polling? && TraceInv(th)
    ensures TraceInv(th.(phase := if native != th.phase.last then Reporting(native) else Checking(th.phase.last),
                         polled := th.polled + [native]))
  {
    assert (th.polled + [native])[..|th.polled|] == th.polled;
  }

  lemma CheckKeepsTrace(th: Thread)
    requires th.phase.Checking? && th.phase.now.state.Some? && TraceInv(th)
    ensures Ongoing(th.phase.now) ==> TraceInv(th.(phase := Polling(th.phase.now)))
    ensures !Ongoing(th.phase.now) ==> TraceInv(th.(phase := Counting(th.phase.now.state.value.kind == Done)))
  {
    hide Squeezed;
    assert th.polled == th.polled[..|th.polled| - 1] + [LastOr(th.polled)];
  }

  lemma ReportKeepsTrace(th: Thread)
    requires th.phase.Reporting? && TraceInv(th)
    ensures TraceInv(th.(phase := Checking(th.phase.now), reports := th.reports + [th.phase.now]))
  {
    SqueezedMembers(th.polled);
  }

  /** The remaining steps neither poll nor look at what was polled. */
  lemma PlainStepKeepsTrace(th: Thread, e: Event, taken: bool)
    requires TraceInv(th) && Local(th, e, taken).Some?
    requires !(e.Poll? && e.polled.Some?) && !e.Check? && !(e.Report? && th.phase.Reporting?)
    ensures TraceInv(Local(th, e, taken).value)
  {
    assert Squeezed([]) == [] && AllOngoing([]);
    hide Squeezed, AllOngoing;
  }

  lemma LocalKeepsTrace(th: Thread, e: Event, taken: bool)
    requires TraceInv(th) && Local(th, e, taken).Some?
    ensures TraceInv(Local(th, e, taken).value)
  {
    if e.Poll? && e.polled.Some? {
      hide TraceInv;
      PollKeepsTrace(th, e.polled.value);
    } else if e.Check? {
      hide Squeezed, AllOngoing;
      if th.phase.now.state.Some? { CheckKeepsTrace(th); }
    } else if e.Report? && th.phase.Reporting? {
      hide TraceInv;
      ReportKeepsTrace(th);
    } else {
      hide TraceInv, Local;
      PlainStepKeepsTrace(th, e, taken);
    }
  }

  lemma NextKeepsTraces(s: State, e: Event)
    requires TracesInv(s) && Next(s, e).Some?
    ensures TracesInv(Next(s, e).value)
  {
    var t := Next(s, e).value;
    if e.Spawn? {
      assert TraceInv(t.threads[e.id]);
    } else if !e.OtherFailure? {
      LocalKeepsTrace(s.threads[e.id], e, s.threads[e.id].jobID in s.inFlight);
      hide Local;
      assert t.crashed ==> t.threads[e.id].phase.Crashing?;
    }
    hide Local, TraceInv;
  }

  lemma {:induction false} RunKeepsTraces(events: seq<Event>)
    requires After(events).Some?
    ensures TracesInv(After(events).value)
  {
    if events != [] {
      RunKeepsTraces(events[..|events| - 1]);
      NextKeepsTraces(After(events[..|events| - 1]).value, events[|events| - 1]);
    }
  }

  lemma {:induction false} SqueezedOngoing(s: seq<StateDiff>)
    requires AllOngoing(s)
    ensures AllOngoing(Squeezed(s))
  {
    if s != [] { SqueezedOngoing(s[..|s| - 1]); }
  }

  lemma FinishedReports(th: Thread)
    requires Finished(th)
    ensures th.reports == Squeezed(th.polled) + (if th.lost then [AbortReport(DeviceOther, LastOr(th.polled).pages)] else [])
    ensures th.reports != [] && AllOngoing(th.reports[..|th.reports| - 1]) && Terminal(LastOr(th.reports))
    ensures SaysDone(LastOr(th.reports)) <==> !th.lost && SaysDone(LastOr(th.polled))
  {
    if th.lost {
      SqueezedOngoing(th.polled);
      assert th.reports[..|th.reports| - 1] == Squeezed(th.polled);
    } else {
      var rest := th.polled[..|th.polled| - 1];
      assert LastOr(th.polled) != LastOr(rest) by { if rest != [] { assert Ongoing(rest[|rest| - 1]); } }
      SqueezedMembers(th.polled);
      SqueezedOngoing(rest);
      assert th.reports[..|th.reports| - 1] == Squeezed(rest);
    }
  }

  lemma EndedThread(s: State, id: nat)
    requires TracesInv(s) && id in s.threads && s.threads[id].submitted
    requires s.threads[id].phase.Leaving? || s.threads[id].phase.Ended?
    ensures Finished(s.threads[id])
    ensures s.threads[id].verdict == Some(!s.threads[id].lost && SaysDone(LastOr(s.threads[id].polled)))
  {
    hide Finished, Squeezed;
    assert TraceInv(s.threads[id]);
  }

  // ---- The trace by events ----

  /** What has happened to one goroutine: the states that it polled, and what went wrong. */
  datatype History = History(polled: seq<StateDiff>, lost: bool, submitted: bool, missing: bool, refused: bool)

  function Happened(h: History, e: Event, id: nat): History {
    match e
    case Poll(i, d) =>
      if i != id then h else if d.Some? then h.(polled := h.polled + [d.value]) else h.(lost := true)
    case LookUp(i, found) => if i == id && !found then h.(missing := true) else h
    case Submit(i, ok) => if i != id then h else if ok then h.(submitted := true) else h.(refused := true)
    case _ => h
  }

  function HistoryOf(events: seq<Event>, id: nat): History {
    if events == [] then History([], false, false, false, false)
    else Happened(HistoryOf(events[..|events| - 1], id), events[|events| - 1], id)
  }

  /** The goroutine knows its history. */
  ghost predicate Remembers(th: Thread, h: History) {
    var failure := AbortReport(if h.missing then PrinterDeleted else DevicePrintFailure, None);
    && th.polled == h.polled && th.submitted == h.submitted && (th.lost || th.phase.Losing?) == h.lost
    && match th.phase
       case Failing(report) => !th.submitted && h.missing != h.refused && report == failure
       case Aborting(report) => !th.submitted && h.missing != h.refused && report == failure
       case Leaving => if th.submitted then !h.missing && !h.refused else h.missing != h.refused && th.reports == [failure]
       case Ended => if th.submitted then !h.missing && !h.refused else h.missing != h.refused && th.reports == [failure]
       case Starting => !th.submitted && !h.missing && !h.refused
       case Rejected => !th.submitted && !h.missing && !h.refused
       case LookingUp => !th.submitted && !h.missing && !h.refused
       case Submitting => !th.submitted && !h.missing && !h.refused
       case _ => th.submitted && !h.missing && !h.refused
  }

  lemma LocalRemembers(th: Thread, e: Event, taken: bool, h: History, id: nat)
    requires Remembers(th, h) && TraceInv(th) && Local(th, e, taken).Some? && !e.OtherFailure? && !e.Spawn? && e.id == id
    ensures Remembers(Local(th, e, taken).value, Happened(h, e, id))
  {
    hide Squeezed, AllOngoing, Finished, Terminal, SaysDone, Ongoing;
  }

  /** A goroutine that was not spawned has no history. */
  ghost predicate AllRemember(s: State, events: seq<Event>, id: nat) {
    if id in s.threads then Remembers(s.threads[id], HistoryOf(events, id))
    else HistoryOf(events, id) == History([], false, false, false, false)
  }

  lemma {:induction false} RunRemembers(events: seq<Event>, id: nat)
    requires After(events).Some?
    ensures AllRemember(After(events).value, events, id)
  {
    if events != [] {
      var rest, e := events[..|events| - 1], events[|events| - 1];
      RunRemembers(rest, id);
      RunKeepsTraces(rest);
      var s := After(rest).value;
      NextRemembers(s, e, HistoryOf(rest, id), id);
      hide Next, Remembers, Happened, TraceInv;
    }
  }

  lemma NextRemembers(s: State, e: Event, h: History, id: nat)
    requires Next(s, e).Some? && TracesInv(s)
    requires if id in s.threads then Remembers(s.threads[id], h) else h == History([], false, false, false, false)
    ensures var t := Next(s, e).value;
            if id in t.threads then Remembers(t.threads[id], Happened(h, e, id))
            else Happened(h, e, id) == History([], false, false, false, false)
  {
    if id in s.threads && !e.OtherFailure? && !e.Spawn? && e.id == id {
      LocalRemembers(s.threads[id], e, s.threads[id].jobID in s.inFlight, h, id);
      hide Local, Remembers;
    } else {
      NextLeaves(s, e, id);
      hide Next, TraceInv;
    }
  }

  /** A step is about one goroutine, which is there unless it is spawned. */
  lemma NextLeaves(s: State, e: Event, id: nat)
    requires Next(s, e).Some? && !(id in s.threads && !e.OtherFailure? && !e.Spawn? && e.id == id)
    ensures Happened(History([], false, false, false, false), e, id) == History([], false, false, false, false)
    ensures forall h :: Happened(h, e, id) == h
    ensures var t := Next(s, e).value;
            if id in s.threads then id in t.threads && t.threads[id] == s.threads[id]
            else id in t.threads ==> t.threads[id].phase == Starting && t.threads[id].polled == [] && !t.threads[id].submitted
                                     && !t.threads[id].lost
  {
    hide Local;
  }

  /** The states that a goroutine polls, in order. */
  function Polls(events: seq<Event>, id: nat): seq<StateDiff> {
    if events == [] then []
    else
      var e := events[|events| - 1];
      Polls(events[..|events| - 1], id) + if e.Poll? && e.id == id && e.polled.Some? then [e.polled.value] else []
  }

  lemma {:induction false} HistoryIs(events: seq<Event>, id: nat)
    ensures HistoryOf(events, id) ==
            History(Polls(events, id), Poll(id, None) in events, Submit(id, true) in events, LookUp(id, false) in events,
                    Submit(id, false) in events)
  {
    if events != [] {
      HistoryIs(events[..|events| - 1], id);
      assert events == events[..|events| - 1] + [events[|events| - 1]];
      hide Polls;
      assert Polls(events, id) == HistoryOf(events, id).polled by { PollsNext(events, id); }
    }
  }

  lemma PollsNext(events: seq<Event>, id: nat)
    requires events != []
    ensures var e := events[|events| - 1];
            Polls(events, id) == Polls(events[..|events| - 1], id)
                                 + if e.Poll? && e.id == id && e.polled.Some? then [e.polled.value] else []
  {
  }

  /** A job that is over without having been submitted makes one report, which says why, and counts as an error. */
  lemma FailureReport(events: seq<Event>, id: nat)
    requires After(events).Some? && id in After(events).value.threads
    requires var th := After(events).value.threads[id]; !th.submitted && (th.phase.Leaving? || th.phase.Ended?)
    ensures After(events).value.threads[id].verdict == Some(false)
    ensures Submit(id, true) !in events && (LookUp(id, false) in events <==> Submit(id, false) !in events)
    ensures LookUp(id, false) in events ==>
              After(events).value.threads[id].reports == [StateDiff(Some(JobState(Aborted, PrinterDeleted)), None)]
    ensures Submit(id, false) in events ==>
              After(events).value.threads[id].reports == [StateDiff(Some(JobState(Aborted, DevicePrintFailure)), None)]
  {
    RunRemembers(events, id);
    HistoryIs(events, id);
    RunKeepsTraces(events);
    assert TraceInv(After(events).value.threads[id]);
    hide After, Polls, HistoryOf, Finished, SaysDone, Terminal;
  }

  /**
   * The reports of a submitted job that has finished, in any interleaving: the polled states without
   * consecutive repeats, plus one abort if polling failed. All but the last are ongoing, the last is
   * not, and the job counts as done exactly when the last says so.
   */
  lemma ReportTrace(events: seq<Event>, id: nat)
    requires After(events).Some? && id in After(events).value.threads
    requires var th := After(events).value.threads[id]; th.submitted && (th.phase.Leaving? || th.phase.Ended?)
    ensures var th := After(events).value.threads[id];
            && th.polled == Polls(events, id) && (th.lost <==> Poll(id, None) in events)
            && th.reports ==
                 Squeezed(th.polled)
                 + (if th.lost then [StateDiff(Some(JobState(Aborted, DeviceOther)), LastOr(th.polled).pages)] else [])
            && th.reports != [] && AllOngoing(th.reports[..|th.reports| - 1]) && Terminal(LastOr(th.reports))
            && th.verdict == Some(SaysDone(LastOr(th.reports)))
  {
    RunKeepsTraces(events);
    EndedThread(After(events).value, id);
    FinishedReports(After(events).value.threads[id]);
    RunRemembers(events, id);
    HistoryIs(events, id);
    hide After, TracesInv, Polls, HistoryOf, Squeezed, AllOngoing, Finished;
  }

  lemma CrashedThread(s: State) returns (id: nat)
    requires TracesInv(s) && s.crashed
    ensures id in s.threads && var p := s.threads[id].polled; p != [] && p[|p| - 1].state.None?
  {
    id :| id in s.threads && s.threads[id].phase.Crashing?;
    assert TraceInv(s.threads[id]);
    hide Squeezed, AllOngoing, Finished;
  }

  /** The process dies only on a native state that the translation of job states does not know. */
  lemma CrashNeedsUnknownState(events: seq<Event>)
    requires After(events).Some? && After(events).value.crashed
    ensures exists i :: 0 <= i < |events| && events[i].Poll? && events[i].polled.Some? && events[i].polled.value.state.None?
  {
    RunKeepsTraces(events);
    hide *;
    var id := CrashedThread(After(events).value);
    var polled := After(events).value.threads[id].polled;
    PolledByEvent(events, id, |polled| - 1);
  }

  lemma {:induction false} PolledByEvent(events: seq<Event>, id: nat, k: nat)
    requires After(events).Some? && id in After(events).value.threads && k < |After(events).value.threads[id].polled|
    ensures exists i :: 0 <= i < |events| && events[i] == Poll(id, Some(After(events).value.threads[id].polled[k]))
  {
    var rest, last := events[..|events| - 1], events[|events| - 1];
    assert events == rest + [last];
    var before, after := After(rest).value, After(events).value;
    NextPolls(before, last, id);
    hide Next;
    if id in before.threads && k < |before.threads[id].polled| {
      PolledByEvent(rest, id, k);
      var i :| 0 <= i < |rest| && rest[i] == Poll(id, Some(before.threads[id].polled[k]));
      assert events[i] == rest[i];
    } else {
      assert events[|events| - 1] == last;
    }
  }

  lemma NextPolls(s: State, e: Event, id: nat)
    requires Next(s, e).Some? && id in Next(s, e).value.threads
    ensures var was := if id in s.threads then s.threads[id].polled else [];
            var now := Next(s, e).value.threads[id].polled;
            now == was || exists d :: e == Poll(id, Some(d)) && now == was + [d]
  {
  }

  /** The steps of one goroutine after it has polled d. */
  function CrashSteps(id: nat, last: StateDiff, d: StateDiff): seq<Event> {
    [Poll(id, Some(d))] + (if d != last then [Report(id)] else []) + [Check(id)]
  }

  /** The goroutine is there, in this phase, and the process alive. */
  predicate At(s: State, id: nat, phase: Phase) {
    !s.crashed && id in s.threads && s.threads[id].phase == phase
  }

  lemma PollStep(s: State, id: nat, last: StateDiff, d: StateDiff)
    requires At(s, id, Polling(last))
    ensures Next(s, Poll(id, Some(d))).Some?
    ensures At(Next(s, Poll(id, Some(d))).value, id, if d != last then Reporting(d) else Checking(d))
  {
  }

  lemma ReportStep(s: State, id: nat, d: StateDiff)
    requires At(s, id, Reporting(d))
    ensures Next(s, Report(id)).Some? && At(Next(s, Report(id)).value, id, Checking(d))
  {
  }

  lemma CheckStep(s: State, id: nat, d: StateDiff)
    requires At(s, id, Checking(d))
    ensures Next(s, Check(id)).Some? && (Next(s, Check(id)).value.crashed <==> d.state.None?)
  {
  }

  /**
   * And each such state kills it: when a goroutine that is waiting for the next tick polls d, then its own next steps
   * crash the process if and only if d has no job state.
   */
  lemma CrashesExactlyOnUnknown(events: seq<Event>, id: nat, last: StateDiff, d: StateDiff)
    requires After(events).Some? && At(After(events).value, id, Polling(last))
    ensures var after := After(events + CrashSteps(id, last, d));
            after.Some? && (after.value.crashed <==> d.state.None?)
  {
    hide After, Next, At;
    var polled := events + [Poll(id, Some(d))];
    PollStep(After(events).value, id, last, d);
    AfterStep(events, Poll(id, Some(d)));
    var reported := polled;
    if d != last {
      ReportStep(After(polled).value, id, d);
      AfterStep(polled, Report(id));
      reported := polled + [Report(id)];
    }
    CheckStep(After(reported).value, id, d);
    AfterStep(reported, Check(id));
    assert events + CrashSteps(id, last, d) == reported + [Check(id)];
  }

  // ---- Every job comes to its end ----

  /** A next step of goroutine id; all that it needs from outside is an answer, which may be a failure. */
  function EndingStep(id: nat, p: Phase): Event {
    match p
    case Starting => Enter(id)
    case LookingUp => LookUp(id, false)
    case Submitting => Submit(id, false)
    case Polling(_) => Poll(id, None)
    case Failing(_) => Count(id)
    case Counting(_) => Count(id)
    case Checking(_) => Check(id)
    case Leaving => Leave(id)
    case _ => Report(id)
  }

  function StepsToEnd(p: Phase): nat {
    match p
    case Starting => 5
    case LookingUp => 4
    case Submitting => 4
    case Polling(_) => 4
    case Reporting(_) => 6
    case Checking(_) => 5
    case Failing(_) => 3
    case Losing(_) => 3
    case Aborting(_) => 2
    case Counting(_) => 2
    case Leaving => 1
    case _ => 0
  }

  predicate IsOver(p: Phase) { p == Rejected || p == Ended }

  /** It has polled a state that is not known, and has not looked at it yet. */
  predicate WillCrash(p: Phase) {
    match p
    case Reporting(now) => now.state.None?
    case Checking(now) => now.state.None?
    case _ => false
  }

  lemma EndingStepMoves(th: Thread, id: nat, taken: bool)
    requires !IsOver(th.phase) && !th.phase.Crashing?
    ensures var n := Local(th, EndingStep(id, th.phase), taken);
            && n.Some? && StepsToEnd(n.value.phase) < StepsToEnd(th.phase)
            && (n.value.phase.Crashing? ==> WillCrash(th.phase) && th.phase.Checking?)
            && (WillCrash(n.value.phase) ==> WillCrash(th.phase))
  {
  }

  lemma EndingStepWorks(s: State, id: nat)
    requires !s.crashed && id in s.threads && !IsOver(s.threads[id].phase) && !s.threads[id].phase.Crashing?
    ensures var n := Next(s, EndingStep(id, s.threads[id].phase));
            && n.Some? && id in n.value.threads
            && StepsToEnd(n.value.threads[id].phase) < StepsToEnd(s.threads[id].phase)
            && (n.value.crashed ==> WillCrash(s.threads[id].phase))
            && (n.value.crashed <==> n.value.threads[id].phase.Crashing?)
            && (WillCrash(n.value.threads[id].phase) ==> WillCrash(s.threads[id].phase))
  {
    EndingStepMoves(s.threads[id], id, s.threads[id].jobID in s.inFlight);
    hide Local, WillCrash, StepsToEnd, IsOver;
  }

  /** An event of this goroutine. */
  predicate IsOf(e: Event, id: nat) { !e.OtherFailure? && e.id == id }

  lemma EndingStepIsOf(id: nat, p: Phase)
    ensures IsOf(EndingStep(id, p), id)
  {
  }

  lemma StepsAtMost(p: Phase)
    ensures StepsToEnd(p) <= 6
  {
  }

  /**
   * At every point of every interleaving, each goroutine can be brought to its end by at most six of its own steps, for
   * which the spooler need not work; except that it kills the process if it has polled an unknown state.
   */
  lemma {:induction false} EveryJobCanEnd(events: seq<Event>, id: nat) returns (more: seq<Event>)
    requires After(events).Some? && !After(events).value.crashed && id in After(events).value.threads
    requires !After(events).value.threads[id].phase.Crashing?
    ensures |more| <= StepsToEnd(After(events).value.threads[id].phase) <= 6 && forall e :: e in more ==> IsOf(e, id)
    ensures After(events + more).Some? && id in After(events + more).value.threads
    ensures After(events + more).value.crashed ==> WillCrash(After(events).value.threads[id].phase)
    ensures !After(events + more).value.crashed ==> IsOver(After(events + more).value.threads[id].phase)
    decreases StepsToEnd(After(events).value.threads[id].phase)
  {
    StepsAtMost(After(events).value.threads[id].phase);
    hide Next, After, WillCrash, StepsToEnd, IsOver;
    var s := After(events).value;
    if IsOver(s.threads[id].phase) {
      more := [];
      assert events + more == events;
    } else {
      var e := EndingStep(id, s.threads[id].phase);
      EndingStepWorks(s, id);
      AfterStep(events, e);
      EndingStepIsOf(id, s.threads[id].phase);
      hide EndingStep, IsOf;
      if After(events + [e]).value.crashed {
        more := [e];
      } else {
        var rest := EveryJobCanEnd(events + [e], id);
        more := [e] + rest;
        assert events + more == (events + [e]) + rest;
      }
    }
  }

  /** The manager's state with one goroutine more. */
  function With(s: State, id: nat, th: Thread): State {
    s.(threads := s.threads[id := th], inFlight := if th.Active() then s.inFlight + {th.jobID} else s.inFlight,
       jobsDone := s.jobsDone + (if th.verdict == Some(true) then 1 else 0),
       jobsError := s.jobsError + (if th.verdict == Some(false) then 1 else 0))
  }

  /** A step that neither spawns nor crashes. */
  ghost predicate Moves(th: Thread, e: Event, id: nat, th': Thread) {
    && IsOf(e, id) && !e.Spawn? && CountedWhenPast(th) && !th'.phase.Crashing?
    && Local(th, e, th.Active()) == Some(th')
  }

  lemma MovesOn(s: State, id: nat, th: Thread, e: Event, th': Thread)
    requires !s.crashed && th.jobID !in s.inFlight && Moves(th, e, id, th')
    ensures Next(With(s, id, th), e) == Some(With(s, id, th')) && th'.jobID == th.jobID
  {
    LocalShape(th, e, th.Active());
    assert s.threads[id := th][id := th'] == s.threads[id := th'];
    assert s.inFlight + {th.jobID} - {th.jobID} == s.inFlight;
    hide Local, CountedWhenPast;
  }

  lemma {:induction false} MovesAll(events: seq<Event>, s: State, id: nat, ths: seq<Thread>, es: seq<Event>)
    requires |ths| == |es| + 1 && !s.crashed && ths[0].jobID !in s.inFlight && After(events) == Some(With(s, id, ths[0]))
    requires forall i :: 0 <= i < |es| ==> Moves(ths[i], es[i], id, ths[i + 1])
    ensures After(events + es) == Some(With(s, id, ths[|es|])) && ths[|es|].jobID == ths[0].jobID
  {
    hide After, Next, With, Moves;
    if es == [] {
      assert events + es == events;
    } else {
      var n := |es| - 1;
      MovesAll(events, s, id, ths[..n + 1], es[..n]);
      MovesOn(s, id, ths[n], es[n], ths[n + 1]);
      AfterStep(events + es[..n], es[n]);
      assert events + es == (events + es[..n]) + [es[n]];
    }
  }

  /** What one goroutine does when all goes well. */
  function GoodSteps(id: nat, d: StateDiff): seq<Event> {
    [Enter(id), LookUp(id, true), Submit(id, true), Poll(id, Some(d)), Report(id), Check(id), Count(id), Leave(id)]
  }

  function NewThread(jobID: string): Thread { Thread(jobID, Starting, [], [], false, false, None) }

  /** The goroutine after i of these steps. */
  function GoodThread(jobID: string, d: StateDiff, i: nat): Thread
    requires Terminal(d)
  {
    var done := d.state.value.kind == Done;
    if i == 0 then NewThread(jobID)
    else if i == 1 then Thread(jobID, LookingUp, [], [], false, false, None)
    else if i == 2 then Thread(jobID, Submitting, [], [], false, false, None)
    else if i == 3 then Thread(jobID, Polling(ZERO), [], [], true, false, None)
    else if i == 4 then Thread(jobID, Reporting(d), [d], [], true, false, None)
    else if i == 5 then Thread(jobID, Checking(d), [d], [d], true, false, None)
    else if i == 6 then Thread(jobID, Counting(done), [d], [d], true, false, None)
    else if i == 7 then Thread(jobID, Leaving, [d], [d], true, false, Some(done))
    else Thread(jobID, Ended, [d], [d], true, false, Some(done))
  }

  lemma GoodMove(id: nat, jobID: string, d: StateDiff, i: nat)
    requires Terminal(d) && i < 8
    ensures Moves(GoodThread(jobID, d, i), GoodSteps(id, d)[i], id, GoodThread(jobID, d, i + 1))
  {
    assert [] + [d] == [d];
    var th, e := GoodThread(jobID, d, i), GoodSteps(id, d)[i];
    assert Local(th, e, th.Active()) == Some(GoodThread(jobID, d, i + 1));
    hide Local;
  }

  lemma SpawnStep(s: State, id: nat, jobID: string)
    requires !s.crashed && id !in s.threads
    ensures Next(s, Spawn(id, jobID)) == Some(With(s, id, NewThread(jobID)))
  {
  }

  lemma EightSteps(id: nat, d: StateDiff)
    ensures |GoodSteps(id, d)| == 8
  {
  }

  lemma GoodEnds(jobID: string, d: StateDiff)
    requires Terminal(d)
    ensures GoodThread(jobID, d, 0) == NewThread(jobID)
    ensures GoodThread(jobID, d, 8) == Thread(jobID, Ended, [d], [d], true, false, Some(d.state.value.kind == Done))
  {
  }

  lemma GoodRun(events: seq<Event>, s: State, id: nat, jobID: string, d: StateDiff)
    requires !s.crashed && jobID !in s.inFlight && Terminal(d) && After(events) == Some(With(s, id, NewThread(jobID)))
    ensures After(events + GoodSteps(id, d)) ==
            Some(With(s, id, Thread(jobID, Ended, [d], [d], true, false, Some(d.state.value.kind == Done))))
  {
    GoodEnds(jobID, d);
    EightSteps(id, d);
    hide *;
    var ths := seq(9, i requires 0 <= i < 9 => GoodThread(jobID, d, i));
    assert ths[0].jobID == jobID by { NewHasID(jobID); }
    forall i | 0 <= i < 8 ensures Moves(ths[i], GoodSteps(id, d)[i], id, ths[i + 1]) { GoodMove(id, jobID, d, i); }
    MovesAll(events, s, id, ths, GoodSteps(id, d));
  }

  lemma NewHasID(jobID: string)
    ensures NewThread(jobID).jobID == jobID
  {
  }

  /**
   * A job whose ID is not in flight can be printed at any point: it is submitted, its final state is reported and
   * counted, and the set and all other goroutines are as before.
   */
  lemma JobsCanBePrinted(events: seq<Event>, id: nat, jobID: string, d: StateDiff)
    requires After(events).Some? && !After(events).value.crashed && Terminal(d)
    requires id !in After(events).value.threads && jobID !in After(events).value.inFlight
    ensures var s, done := After(events).value, d.state.value.kind == Done;
            After(events + [Spawn(id, jobID)] + GoodSteps(id, d)) ==
              Some(s.(threads := s.threads[id := Thread(jobID, Ended, [d], [d], true, false, Some(done))],
                      jobsDone := s.jobsDone + (if done then 1 else 0), jobsError := s.jobsError + (if done then 0 else 1)))
  {
    hide After, Next, GoodSteps;
    var s := After(events).value;
    AfterStep(events, Spawn(id, jobID));
    SpawnStep(s, id, jobID);
    GoodRun(events + [Spawn(id, jobID)], s, id, jobID, d);
  }

  /** The job states of RFC 8011 section 5.3.7 and what the cloud is told; no other code is known. */
  lemma KnownNativeStates(cups: int)
    ensures ConvertJobState(cups).state.Some? <==> 3 <= cups <= 9
    ensures cups in {3, 4, 5} ==> ConvertJobState(cups).state == Some(JobState(InProgress, NoCause))
    ensures cups == 6 ==> ConvertJobState(cups).state == Some(JobState(Stopped, DeviceOther))
    ensures cups == 7 ==> ConvertJobState(cups).state == Some(JobState(Aborted, UserCanceled))
    ensures cups == 8 ==> ConvertJobState(cups).state == Some(JobState(Aborted, DevicePrintFailure))
    ensures cups == 9 ==> ConvertJobState(cups).state == Some(JobState(Done, NoCause))
    ensures ConvertJobState(cups).pages.None?
    ensures Ongoing(ConvertJobState(cups)) <==> 3 <= cups <= 6
    ensures SaysDone(ConvertJobState(cups)) <==> cups == 9
  {
  }
}
