/** The Privet job cache (privet/jobcache.go): job IDs, expiry timers and reported states. */
module JobCache {
  import opened Collections
  import opened Jobs

  // ---- Job IDs ----

  const TWO63: int := 0x8000_0000_0000_0000
  const TWO64: int := 0x1_0000_0000_0000_0000

  predicate IsInt64(n: int) { -TWO63 <= n < TWO63 }

  /** Two's complement int64 arithmetic. */
  function Wrap64(n: int): (r: int)
    ensures IsInt64(r) && (IsInt64(n) ==> r == n)
  {
    (n + TWO63) % TWO64 - TWO63
  }

  function Digit(d: nat): char
    requires d < 36
  {
    if d < 10 then '0' + d as char else 'a' + (d - 10) as char
  }

  lemma DigitsAre(d: nat)
    requires d < 36
    ensures Digit(d) == "0123456789abcdefghijklmnopqrstuvwxyz"[d]
  {
  }

  function DigitValue(c: char): int {
    if '0' <= c <= '9' then c as int - '0' as int else c as int - 'a' as int + 10
  }

  /** strconv.FormatInt(n, 36). */
  function FormatNat(n: nat): string {
    if n < 36 then [Digit(n)] else FormatNat(n / 36) + [Digit(n % 36)]
  }

  function FormatInt(n: int): string {
    if n < 0 then "-" + FormatNat(-n) else FormatNat(n)
  }

  function ParseNat(s: string): int {
    if s == "" then 0 else 36 * ParseNat(s[..|s| - 1]) + DigitValue(s[|s| - 1])
  }

  lemma {:induction false} ParseFormat(n: nat)
    ensures ParseNat(FormatNat(n)) == n && FormatNat(n) != "" && FormatNat(n)[0] != '-'
  {
    if n < 36 {
      assert [Digit(n)][..0] == "";
    } else {
      ParseFormat(n / 36);
      assert FormatNat(n)[..|FormatNat(n)| - 1] == FormatNat(n / 36);
    }
  }

  /** Different numbers never print the same. */
  lemma FormatIsInjective(m: int, n: int)
    requires FormatInt(m) == FormatInt(n)
    ensures m == n
  {
    ParseFormat(if m < 0 then -m else m);
    ParseFormat(if n < 0 then -n else n);
    assert m < 0 ==> FormatInt(m)[0] == '-' && FormatInt(m)[1..] == FormatNat(-m);
    assert n < 0 ==> FormatInt(n)[0] == '-' && FormatInt(n)[1..] == FormatNat(-n);
  }

  /** The ID of the k-th job after a counter that stood at start. */
  function IDAfter(start: int, k: nat): string {
    FormatInt(Wrap64(start + k))
  }

  /** IDs repeat only after the counter has gone all the way round. */
  lemma IDsAreNotReused(start: int, j: nat, k: nat)
    requires j < k
    ensures k - j < TWO64 ==> IDAfter(start, j) != IDAfter(start, k)
    ensures k - j == TWO64 ==> IDAfter(start, j) == IDAfter(start, k)
  {
    WrapsApart(start + j, start + k);
    hide Wrap64, FormatInt;
    if IDAfter(start, j) == IDAfter(start, k) {
      FormatIsInjective(Wrap64(start + j), Wrap64(start + k));
    }
  }

  lemma WrapsApart(a: int, b: int)
    requires a < b
    ensures b - a < TWO64 ==> Wrap64(a) != Wrap64(b)
    ensures b - a == TWO64 ==> Wrap64(a) == Wrap64(b)
  {
  }

  /** An ID given out among the first n. */
  ghost predicate Issued(id: string, start: int, n: nat) {
    exists k: nat :: 0 < k <= n && id == IDAfter(start, k)
  }

  ghost predicate AllIssued(ids: set<string>, start: int, n: nat) {
    forall id :: id in ids ==> Issued(id, start, n)
  }

  lemma NextIDIsNew(ids: set<string>, start: int, n: nat)
    requires n + 1 < TWO64 && AllIssued(ids, start, n)
    ensures var id := IDAfter(start, n + 1); id !in ids && AllIssued(ids + {id}, start, n + 1)
  {
    forall k: nat | 0 < k <= n ensures IDAfter(start, k) != IDAfter(start, n + 1) { IDsAreNotReused(start, k, n + 1); }
    hide IDAfter;
    assert !Issued(IDAfter(start, n + 1), start, n) && Issued(IDAfter(start, n + 1), start, n + 1);
  }

  // ---- Entries ----

  /** Jobs expire after an hour. */
  const LIFETIME: int := 3600

  datatype Ticket = Ticket(content: string)

  datatype Entry = Entry(
    ticket: Option<Ticket>, expiresAt: int, state: JobState, pages: Option<int>,
    name: string, kind: string, size: int)

  function NewEntry(ticket: Option<Ticket>, now: int): Entry {
    Entry(ticket, now + LIFETIME, JobState(if ticket.None? then Draft else Queued, NoCause), None, "", "", 0)
  }

  function ExpiresIn(e: Entry, now: int): int {
    if e.expiresAt < now then 0 else e.expiresAt - now
  }

  /** updateJob merges the fields that the report carries. */
  function Updated(e: Entry, d: StateDiff): Entry {
    e.(state := if d.state.Some? then d.state.value else e.state, pages := if d.pages.Some? then d.pages else e.pages)
  }

  function Submitted(e: Entry, name: string, kind: string, size: int): Entry {
    e.(name := name, kind := kind, size := size)
  }

  type Entries = map<string, Entry>

  /** What the methods of the cache do to the entries. */
  datatype Op =
    | Create(id: string, ticket: Option<Ticket>, now: int)
    | Update(id: string, report: StateDiff)
    | Submit(id: string, name: string, kind: string, size: int)
    | Drop(id: string)  // deleted, or expired

  function ApplyOp(entries: Entries, op: Op): Entries {
    match op
    case Create(id, ticket, now) => entries[id := NewEntry(ticket, now)]
    case Update(id, report) => if id in entries then entries[id := Updated(entries[id], report)] else entries
    case Submit(id, name, kind, size) =>
      if id in entries then entries[id := Submitted(entries[id], name, kind, size)] else entries
    case Drop(id) => entries - {id}
  }

  /** Every job is in the cache until it expires or is deleted, and has one timer, set to its expiry. */
  ghost predicate Timed(
    entries: map<string, Entry>, timers: map<string, int>, expiry: map<string, int>, cancelled: set<string>, clock: int)
  {
    && (forall id :: id in entries ==> id in expiry && entries[id].expiresAt == expiry[id])
    && timers.Keys == entries.Keys && (forall id :: id in timers ==> timers[id] == expiry[id])
    && (forall id :: id in expiry ==> id in entries || id in cancelled || expiry[id] <= clock)
  }

  lemma CreateKeepsTimed(
    entries: map<string, Entry>, timers: map<string, int>, expiry: map<string, int>, cancelled: set<string>, clock: int,
    id: string, e: Entry, now: int)
    requires Timed(entries, timers, expiry, cancelled, clock) && clock <= now && id !in expiry
    ensures Timed(entries[id := e], timers[id := e.expiresAt], expiry[id := e.expiresAt], cancelled, now)
  {
  }

  class Cache {
    var nextJobID: int
    var entries: map<string, Entry>
    var timers: map<string, int>  // running timers: the job they delete, and when
    ghost var start: int
    ghost var created: nat
    ghost var expiry: map<string, int>  // every job ever created, and when it expires
    ghost var cancelled: set<string>    // jobs deleted early
    ghost var clock: int

    ghost predicate Valid()
      reads this
    {
      && created < TWO64 && nextJobID == Wrap64(start + created)
      && AllIssued(expiry.Keys, start, created)
      && Timed(entries, timers, expiry, cancelled, clock)
    }

    constructor (now: int)
      ensures Valid() && entries == map[] && created == 0 && clock == now && nextJobID == Wrap64(now * 1_000_000_000)
    {
      start := Wrap64(now * 1_000_000_000);
      nextJobID := Wrap64(now * 1_000_000_000);
      entries, timers := map[], map[];
      created, expiry, cancelled, clock := 0, map[], {}, now;
    }

    /** getNextJobID. */
    method GetNextJobID() returns (id: string)
      requires Valid() && created + 1 < TWO64
      modifies this`nextJobID, this`created
      ensures created == old(created) + 1 && nextJobID == Wrap64(start + created)
      ensures nextJobID == Wrap64(old(nextJobID) + 1) && id == FormatInt(nextJobID)
      ensures id !in expiry && AllIssued(expiry.Keys + {id}, start, created)
    {
      hide AllIssued, Wrap64, FormatInt, Timed;
      WrapSuccessor(start + created);
      NextIDIsNew(expiry.Keys, start, created);
      nextJobID := Wrap64(nextJobID + 1);
      created := created + 1;
      id := FormatInt(nextJobID);
    }

    /** createJob: a new ID, a new entry and a timer. */
    method CreateJob(ticket: Option<Ticket>, now: int) returns (id: string, expiresIn: int)
      requires Valid() && clock <= now && created + 1 < TWO64
      modifies this
      ensures Valid() && clock == now && created == old(created) + 1 && cancelled == old(cancelled)
      ensures nextJobID == Wrap64(old(nextJobID) + 1) && id == FormatInt(nextJobID)
      ensures id !in old(expiry) && expiry == old(expiry)[id := now + LIFETIME]
      ensures entries == ApplyOp(old(entries), Create(id, ticket, now)) && expiresIn == 3600
      ensures id in entries && entries[id].ticket == ticket && entries[id].expiresAt == now + 3600
      ensures entries[id].state == JobState(if ticket.None? then Draft else Queued, NoCause) && entries[id].pages.None?
    {
      hide AllIssued, Wrap64;
      id := GetNextJobID();
      assert expiry[id := now + LIFETIME].Keys == expiry.Keys + {id};
      CreateKeepsTimed(entries, timers, expiry, cancelled, clock, id, NewEntry(ticket, now), now);
      hide Timed;
      clock := now;
      entries := entries[id := NewEntry(ticket, now)];
      timers := timers[id := now + LIFETIME];
      expiry := expiry[id := now + LIFETIME];
      expiresIn := LIFETIME;
    }

    /** updateJob; a job that is no longer there is ignored. */
    method UpdateJob(id: string, d: StateDiff)
      requires Valid()
      modifies this`entries
      ensures Valid()
      ensures entries == ApplyOp(old(entries), Update(id, d))
      ensures entries.Keys == old(entries).Keys && forall j :: j in entries && j != id ==> entries[j] == old(entries)[j]
      ensures id in entries ==>
                entries[id] == old(entries)[id].(state := if d.state.Some? then d.state.value else old(entries)[id].state,
                                                 pages := if d.pages.Some? then d.pages else old(entries)[id].pages)
    {
      if id in entries {
        entries := entries[id := Updated(entries[id], d)];
      }
    }

    method SubmitJob(id: string, name: string, kind: string, size: int, now: int) returns (expiresIn: int)
      requires Valid()
      modifies this`entries
      ensures Valid() && expiresIn == if id in old(entries) then ExpiresIn(old(entries)[id], now) else 0
      ensures entries == ApplyOp(old(entries), Op.Submit(id, name, kind, size))
      ensures id in entries ==> entries[id] == old(entries)[id].(name := name, kind := kind, size := size)
    {
      expiresIn := 0;
      if id in entries {
        expiresIn := ExpiresIn(entries[id], now);
        entries := entries[id := entries[id].(name := name, kind := kind, size := size)];
      }
    }

    /** deleteJob, called early: the timer is stopped. */
    method DeleteJob(id: string)
      requires Valid()
      modifies this
      ensures Valid() && entries == ApplyOp(old(entries), Drop(id)) && timers == old(timers) - {id}
      ensures clock == old(clock) && created == old(created) && expiry == old(expiry) && cancelled == old(cancelled) + {id}
    {
      hide AllIssued, Wrap64;
      entries, timers := entries - {id}, timers - {id};
      cancelled := cancelled + {id};
    }

    /** A timer fires, no earlier than it was set for, and deletes its job. */
    method Fire(id: string, now: int)
      requires Valid() && clock <= now && id in timers && timers[id] <= now
      modifies this
      ensures Valid() && entries == ApplyOp(old(entries), Drop(id)) && clock == now
      ensures created == old(created) && expiry == old(expiry) && cancelled == old(cancelled)
    {
      hide AllIssued, Wrap64;
      entries, timers, clock := entries - {id}, timers - {id}, now;
    }

    /** getJobExpiresIn. */
    method GetJobExpiresIn(id: string, now: int) returns (expiresIn: int, ticket: Option<Ticket>, ok: bool)
      requires Valid() && clock <= now
      ensures ok <==> id in entries
      ensures ok ==> ticket == entries[id].ticket && expiresIn == (if expiry[id] < now then 0 else expiry[id] - now)
      ensures id in expiry && id !in cancelled && clock < expiry[id] ==> ok
    {
      if id !in entries { return 0, None, false; }
      return ExpiresIn(entries[id], now), entries[id].ticket, true;
    }

    /** jobState, as far as the state goes; an unexpired job that was not deleted is always there. */
    method State(id: string) returns (state: Option<JobState>)
      requires Valid()
      ensures state == if id in entries then Some(entries[id].state) else None
      ensures id in expiry && id !in cancelled && clock < expiry[id] ==> state.Some?
    {
      return if id in entries then Some(entries[id].state) else None;
    }
  }

  lemma WrapSuccessor(n: int)
    ensures Wrap64(Wrap64(n) + 1) == Wrap64(n + 1)
  {
  }

  // ---- Reports reaching the cache ----

  function UpdatedAll(e: Entry, reports: seq<StateDiff>): Entry {
    if reports == [] then e else Updated(UpdatedAll(e, reports[..|reports| - 1]), reports[|reports| - 1])
  }

  function ApplyAll(entries: Entries, ops: seq<Op>): Entries {
    if ops == [] then entries else ApplyOp(ApplyAll(entries, ops[..|ops| - 1]), ops[|ops| - 1])
  }

  /** The reports about one job, among calls of all kinds about all jobs. */
  function ReportsAbout(ops: seq<Op>, id: string): seq<StateDiff> {
    if ops == [] then []
    else
      var last := ops[|ops| - 1];
      ReportsAbout(ops[..|ops| - 1], id) + if last.Update? && last.id == id then [last.report] else []
  }

  /** The job is neither created again nor dropped. */
  predicate Keeps(ops: seq<Op>, id: string) {
    forall i :: 0 <= i < |ops| ==> !((ops[i].Create? || ops[i].Drop?) && ops[i].id == id)
  }

  predicate SameShown(a: Entry, b: Entry) {
    a.state == b.state && a.pages == b.pages && a.expiresAt == b.expiresAt && a.ticket == b.ticket
  }

  lemma UpdatedNext(e: Entry, reports: seq<StateDiff>, d: StateDiff)
    ensures UpdatedAll(e, reports + [d]) == Updated(UpdatedAll(e, reports), d)
  {
    assert (reports + [d])[..|reports|] == reports;
  }

  /** While a job is in the cache, its entry shows exactly its own reports, whatever else is called in between. */
  lemma {:induction false} EntryShowsReports(entries: Entries, ops: seq<Op>, id: string)
    requires id in entries && Keeps(ops, id)
    ensures id in ApplyAll(entries, ops)
    ensures SameShown(ApplyAll(entries, ops)[id], UpdatedAll(entries[id], ReportsAbout(ops, id)))
  {
    if ops != [] {
      var rest, op := ops[..|ops| - 1], ops[|ops| - 1];
      EntryShowsReports(entries, rest, id);
      if op.Update? && op.id == id {
        UpdatedNext(entries[id], ReportsAbout(rest, id), op.report);
      } else {
        assert ReportsAbout(rest, id) + [] == ReportsAbout(rest, id);
      }
      hide UpdatedAll;
    }
  }

  /** The reports that goroutines make about a job, in the order in which they make them. */
  ghost function ReportsMade(events: seq<Event>, jobID: string): seq<StateDiff> {
    if events == [] then []
    else
      var before, e := events[..|events| - 1], events[|events| - 1];
      ReportsMade(before, jobID) + NewReport(After(before), After(events), e, jobID)
  }

  ghost function NewReport(before: Option<State>, after: Option<State>, e: Event, jobID: string): seq<StateDiff> {
    if e.Report? && before.Some? && after.Some? && e.id in after.value.threads && after.value.threads[e.id].jobID == jobID
    then [LastOr(after.value.threads[e.id].reports)] else []
  }

  /** No other goroutine was accepted with this job ID. */
  ghost predicate OnlyOne(s: State, id: nat, jobID: string) {
    forall other :: other in s.threads && s.threads[other].jobID == jobID && s.threads[other].Accepted() ==> other == id
  }

  /** What a step does to what was accepted and reported. */
  lemma StepReports(s: State, e: Event, other: nat)
    requires Next(s, e).Some? && other in Next(s, e).value.threads
    ensures var was := if other in s.threads then s.threads[other].reports else [];
            var th := Next(s, e).value.threads[other];
            && (other in s.threads ==> s.threads[other].jobID == th.jobID && (s.threads[other].Accepted() ==> th.Accepted()))
            && (e.Report? && e.id == other ==> other in s.threads && th.Accepted() && th.reports == was + [LastOr(th.reports)])
            && (!(e.Report? && e.id == other) ==> th.reports == was)
  {
  }

  lemma OnlyOneBefore(s: State, e: Event, id: nat, jobID: string)
    requires Next(s, e).Some? && OnlyOne(Next(s, e).value, id, jobID)
    ensures OnlyOne(s, id, jobID)
  {
    forall other | other in s.threads && s.threads[other].jobID == jobID && s.threads[other].Accepted() ensures other == id {
      NextHasThreads(s, e, other);
      StepReports(s, e, other);
    }
  }

  lemma NextHasThreads(s: State, e: Event, other: nat)
    requires Next(s, e).Some? && other in s.threads
    ensures other in Next(s, e).value.threads
  {
  }

  /** If only one goroutine was accepted with a job ID, its reports are all that were made. */
  lemma {:induction false} ReportsAreItsOwn(events: seq<Event>, id: nat, jobID: string)
    requires After(events).Some? && OnlyOne(After(events).value, id, jobID)
    requires id in After(events).value.threads ==> After(events).value.threads[id].jobID == jobID
    ensures ReportsMade(events, jobID) ==
            if id in After(events).value.threads then After(events).value.threads[id].reports else []
  {
    if events != [] {
      var rest, e := events[..|events| - 1], events[|events| - 1];
      var s, t := After(rest).value, After(events).value;
      OnlyOneBefore(s, e, id, jobID);
      if id in s.threads { NextHasThreads(s, e, id); StepReports(s, e, id); }
      ReportsAreItsOwn(rest, id, jobID);
      if id in t.threads { StepReports(s, e, id); }
      if e.Report? && e.id in t.threads { StepReports(s, e, e.id); }
      hide Next;
    }
  }

  /** The entry shows the state of the last report that has one. */
  lemma {:induction false} ShownStateIsLast(e: Entry, reports: seq<StateDiff>, i: nat)
    requires i < |reports| && reports[i].state.Some? && forall j :: i < j < |reports| ==> reports[j].state.None?
    ensures UpdatedAll(e, reports).state == reports[i].state.value
  {
    if i < |reports| - 1 { ShownStateIsLast(e, reports[..|reports| - 1], i); }
  }

  /** Likewise the pages. */
  lemma {:induction false} ShownPagesAreLast(e: Entry, reports: seq<StateDiff>, i: nat)
    requires i < |reports| && reports[i].pages.Some? && forall j :: i < j < |reports| ==> reports[j].pages.None?
    ensures UpdatedAll(e, reports).pages == reports[i].pages
  {
    if i < |reports| - 1 { ShownPagesAreLast(e, reports[..|reports| - 1], i); }
  }

  /** What no report is about stays. */
  lemma {:induction false} UnreportedStays(e: Entry, reports: seq<StateDiff>)
    ensures UpdatedAll(e, reports) == e.(state := UpdatedAll(e, reports).state, pages := UpdatedAll(e, reports).pages)
    ensures (forall i :: 0 <= i < |reports| ==> reports[i].state.None?) ==> UpdatedAll(e, reports).state == e.state
    ensures (forall i :: 0 <= i < |reports| ==> reports[i].pages.None?) ==> UpdatedAll(e, reports).pages == e.pages
  {
    if reports != [] { UnreportedStays(e, reports[..|reports| - 1]); }
  }

  lemma LastShown(e: Entry, reports: seq<StateDiff>)
    requires reports != [] && LastOr(reports).state.Some?
    ensures UpdatedAll(e, reports).state == LastOr(reports).state.value
  {
  }

  /**
   * Goroutines and cache together: when a submitted job has finished, and the cache has received the reports about it
   * in their order, among any other calls, then its entry shows the last reported state, and the manager counted the
   * job as done exactly when that state is DONE.
   */
  lemma CacheShowsLastReport(events: seq<Event>, id: nat, entries: Entries, ops: seq<Op>)
    requires After(events).Some? && id in After(events).value.threads
    requires var th := After(events).value.threads[id];
             && th.submitted && (th.phase.Leaving? || th.phase.Ended?)
             && OnlyOne(After(events).value, id, th.jobID)
             && th.jobID in entries && Keeps(ops, th.jobID) && ReportsAbout(ops, th.jobID) == ReportsMade(events, th.jobID)
    ensures var th := After(events).value.threads[id];
            var now := ApplyAll(entries, ops);
            && th.jobID in now
            && LastOr(th.reports).state == Some(now[th.jobID].state) && now[th.jobID].state.kind !in {InProgress, Stopped}
            && th.verdict == Some(now[th.jobID].state.kind == Done)
  {
    var th := After(events).value.threads[id];
    ReportTrace(events, id);
    ReportsAreItsOwn(events, id, th.jobID);
    EntryShowsReports(entries, ops, th.jobID);
    LastShown(entries[th.jobID], th.reports);
    hide After, ReportsMade, ReportsAbout, UpdatedAll, ApplyAll, Keeps, OnlyOne;
  }
}
