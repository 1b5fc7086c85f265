/** What one synchronisation round achieves, and what any run of rounds keeps. */
module Rounds {
  import opened Collections
  import opened Printers
  import opened PrinterMap
  import opened Sync

  /** A nil diff means that the round would have changed nothing. */
  lemma CleanIsSynced(native: seq<Printer>, gcp: seq<Printer>, r: Round)
    requires DistinctNames(gcp) && NothingToDo(AllDiffs(native, gcp))
    ensures Synced(ByName(gcp), native, r) == ByName(gcp)
  {
    var known, want := ByName(gcp), ByName(native);
    ByNameMembers(gcp);
    hide AllDiffs, InSync;
    forall n | n in known ensures n in want && Merged(want[n], known[n]) == known[n] {
      var i :| 0 <= i < |gcp| && gcp[i].name == n;
      CloudDiffIs(native, gcp, i);
      CloudDiffListed(native, gcp, i);
      ByNameAt(gcp);
      ByNameMembers(native);
    }
    forall n | n in want ensures n in known {
      if n !in known { NewDiff(native, gcp, n); }
    }
  }

  lemma CloudDiffListed(native: seq<Printer>, gcp: seq<Printer>, i: nat)
    requires i < |gcp|
    ensures CloudDiff(native, gcp, i) in AllDiffs(native, gcp)
  {
    hide CloudDiff;
    assert AllDiffs(native, gcp)[i] == CloudDiff(native, gcp, i);
  }

  /**
   * One round suffices, whatever becomes of the update and delete calls: afterwards the known names
   * are the native ones except those whose registration failed, and each known printer equals its
   * native one in every compared field.
   */
  lemma OneRoundConverges(known: map<string, Printer>, native: seq<Printer>, r: Round)
    requires Prepared(native)
    ensures var after := Synced(known, native, r);
            && (forall n :: n in after <==> n in ByName(native) && (n in known || r.Registers(n)))
            && (forall n :: n in after ==> InSync(Carried(ByName(native)[n], after[n]), after[n]))
  {
    var after, want := Synced(known, native, r), ByName(native);
    ByNameMembers(native);
    hide InSync, Merged, Registered;
    forall n | n in after ensures InSync(Carried(want[n], after[n]), after[n]) {
      assert TAGSHASH in want[n].tags;
      if n in known { MergedConverges(want[n], known[n]); } else { RegisteredConverges(want[n], r); }
    }
  }

  lemma MergedConverges(native: Printer, known: Printer)
    requires TAGSHASH in native.tags
    ensures InSync(Carried(native, Merged(native, known)), Merged(native, known))
    ensures Merged(native, known).semaphore == known.semaphore
  {
  }

  lemma RegisteredConverges(native: Printer, r: Round)
    requires TAGSHASH in native.tags
    ensures InSync(Carried(native, Registered(native, r)), Registered(native, r))
  {
  }

  /**
   * The next round on the same snapshot never panics, repeats exactly the failed registrations, and
   * finds nothing else to do; so it gets the nil diff if and only if no registration failed. In
   * particular a failed update or deletion is not tried again.
   */
  lemma SecondRound(known: map<string, Printer>, native: seq<Printer>, r: Round, gcp: seq<Printer>)
    requires Prepared(native) && DistinctNames(native)
    requires Lists(gcp, Synced(known, native, r))
    ensures !SomeDowngrade(native, gcp)
    ensures forall d :: d in AllDiffs(native, gcp) ==>
              d.operation == NoChange || (d.operation == Register && d.printer.name !in known && !r.Registers(d.printer.name))
    ensures forall n :: n in ByName(native) && n !in known && !r.Registers(n) ==>
              PrinterDiff(Register, ByName(native)[n], UNCHANGED) in AllDiffs(native, gcp)
    ensures NothingToDo(AllDiffs(native, gcp)) <==> forall n :: n in ByName(native) ==> n in known || r.Registers(n)
  {
    var after, want := Synced(known, native, r), ByName(native);
    OneRoundConverges(known, native, r);
    hide Synced;
    forall i | 0 <= i < |gcp| ensures !DowngradeAt(native, gcp, i) { NoDowngradeLeft(native, gcp, i); }
    forall d | d in AllDiffs(native, gcp)
      ensures d.operation == NoChange || (d.operation == Register && d.printer.name !in known && !r.Registers(d.printer.name))
    {
      SecondDiff(native, gcp, d);
    }
    hide AllDiffs;
    forall n | n in want && n !in known && !r.Registers(n)
      ensures PrinterDiff(Register, want[n], UNCHANGED) in AllDiffs(native, gcp)
    {
      NewDiff(native, gcp, n);
    }
    if d :| d in AllDiffs(native, gcp) && d.operation == Register { DiffIs(native, gcp, d); }
  }

  ghost predicate Converged(native: seq<Printer>, known: map<string, Printer>) {
    forall n :: n in known ==> n in ByName(native) && InSync(Carried(ByName(native)[n], known[n]), known[n])
  }

  lemma NoDowngradeLeft(native: seq<Printer>, gcp: seq<Printer>, i: nat)
    requires i < |gcp| && DistinctNames(gcp) && Converged(native, ByName(gcp))
    ensures !DowngradeAt(native, gcp, i)
  {
    ByNameAt(gcp);
    StringLessIrreflexive(gcp[i].gcpVersion);
  }

  lemma SecondDiff(native: seq<Printer>, gcp: seq<Printer>, d: PrinterDiff)
    requires DistinctNames(native) && DistinctNames(gcp) && Converged(native, ByName(gcp))
    requires d in AllDiffs(native, gcp)
    ensures d.operation == NoChange
            || (d.operation == Register && d.printer.name in ByName(native) && d.printer.name !in ByName(gcp))
  {
    var i :| 0 <= i < |AllDiffs(native, gcp)| && AllDiffs(native, gcp)[i] == d;
    hide InSync, ChangesOf;
    if i < |gcp| {
      CloudDiffIs(native, gcp, i);
      ByNameAt(gcp);
    } else {
      DiffIs(native, gcp, d);
      RegistrationsAre(native, NamesOf(gcp));
      assert d in Registrations(native, NamesOf(gcp));
    }
  }

  // ---- Runs of rounds ----

  datatype Input = Input(native: seq<Printer>, round: Round)

  /** The known printers after a run of rounds. */
  ghost function Run(known: map<string, Printer>, inputs: seq<Input>): map<string, Printer> {
    if inputs == [] then known
    else
      var last := inputs[|inputs| - 1];
      Synced(Run(known, inputs[..|inputs| - 1]), last.native, last.round)
  }

  /** Every known printer has a job semaphore, made for it in a round before this one. */
  ghost predicate HasSemaphores(known: map<string, Printer>, rounds: nat) {
    forall n :: n in known ==>
      known[n].semaphore.Some? && known[n].semaphore.value.owner == n && known[n].semaphore.value.round < rounds
  }

  /** The rounds are numbered in the order in which they happen. */
  ghost predicate Numbered(inputs: seq<Input>, first: nat) {
    forall i :: 0 <= i < |inputs| ==> inputs[i].round.number == first + i
  }

  /** No known printer is ever without a semaphore, and no two share one. */
  lemma {:induction false} SemaphoresAlways(known: map<string, Printer>, inputs: seq<Input>, first: nat)
    requires HasSemaphores(known, first) && Numbered(inputs, first)
    ensures HasSemaphores(Run(known, inputs), first + |inputs|)
    ensures forall n, n' :: n in Run(known, inputs) && n' in Run(known, inputs) && n != n' ==>
              Run(known, inputs)[n].semaphore != Run(known, inputs)[n'].semaphore
  {
    if inputs != [] {
      var rest, last := inputs[..|inputs| - 1], inputs[|inputs| - 1];
      SemaphoresAlways(known, rest, first);
      RoundKeepsSemaphores(Run(known, rest), last.native, last.round);
    }
  }

  lemma SyncedSemaphore(known: map<string, Printer>, native: seq<Printer>, r: Round, n: string)
    requires n in Synced(known, native, r)
    ensures n in ByName(native)
    ensures Synced(known, native, r)[n].semaphore == if n in known then known[n].semaphore else Some(SemaphoreRef(r.number, n))
  {
    ByNameMembers(native);
    hide InSync, ByName;
  }

  lemma RoundKeepsSemaphores(known: map<string, Printer>, native: seq<Printer>, r: Round)
    requires HasSemaphores(known, r.number)
    ensures HasSemaphores(Synced(known, native, r), r.number + 1)
    ensures forall n :: n in known ==> (n in Synced(known, native, r) <==> n in ByName(native))
    ensures forall n :: n in Synced(known, native, r) ==>
              Synced(known, native, r)[n].semaphore == if n in known
                  then known[n].semaphore else Some(SemaphoreRef(r.number, n))
  {
    hide Merged, Registered, ByName;
    forall n | n in Synced(known, native, r)
      ensures Synced(known, native, r)[n].semaphore == if n in known
          then known[n].semaphore else Some(SemaphoreRef(r.number, n))
    {
      SyncedSemaphore(known, native, r, n);
    }
  }

  /** While a name stays native, its semaphore object stays the same, through all updates. */
  lemma {:induction false} SemaphoreContinuity(known: map<string, Printer>, inputs: seq<Input>, first: nat, n: string)
    requires HasSemaphores(known, first) && Numbered(inputs, first)
    requires n in known && forall i :: 0 <= i < |inputs| ==> n in ByName(inputs[i].native)
    ensures n in Run(known, inputs) && Run(known, inputs)[n].semaphore == known[n].semaphore
  {
    if inputs != [] {
      var rest, last := inputs[..|inputs| - 1], inputs[|inputs| - 1];
      SemaphoreContinuity(known, rest, first, n);
      SemaphoresAlways(known, rest, first);
      RoundKeepsSemaphores(Run(known, rest), last.native, last.round);
    }
  }

  // ---- Print calls under the semaphores ----

  /** A print call in progress, with the semaphore of the printer record it looked up. */
  datatype Call = Call(id: nat, name: string, semaphore: SemaphoreRef)

  datatype State = State(known: map<string, Printer>, rounds: nat, waiting: set<Call>, printing: set<Call>)

  /** What a synchronisation sees and hears. */
  datatype Outside = Outside(native: seq<Printer>, inCloud: bool, replies: Replies)

  datatype Event =
    | SyncRound(outside: Outside)
    | LookUp(id: nat, name: string)
    | Acquire(call: Call)
    | Release(released: Call)

  function HoldersOf(calls: set<Call>, sem: SemaphoreRef): set<Call> {
    set c | c in calls && c.semaphore == sem
  }

  function CallsTo(calls: set<Call>, name: string): set<Call> {
    set c | c in calls && c.name == name
  }

  function SyncedBy(known: map<string, Printer>, number: nat, o: Outside): map<string, Printer> {
    Synced(known, o.native, Round(number, o.inCloud, o.replies))
  }

  /** One step of any goroutine; None when the step is not enabled (Acquire blocks when the semaphore is full). */
  function Next(s: State, e: Event, size: nat): Option<State> {
    match e
    case SyncRound(outside) =>
      Some(s.(known := SyncedBy(s.known, s.rounds, outside), rounds := s.rounds + 1))
    case LookUp(id, name) =>
      if name in s.known && s.known[name].semaphore.Some?
      then Some(s.(waiting := s.waiting + {Call(id, name, s.known[name].semaphore.value)}))
      else None
    case Acquire(c) =>
      if c in s.waiting && c !in s.printing && |HoldersOf(s.printing, c.semaphore)| < size
      then Some(s.(waiting := s.waiting - {c}, printing := s.printing + {c}))
      else None
    case Release(c) =>
      if c in s.printing then Some(s.(printing := s.printing - {c})) else None
  }

  /** The state after a run of events, if all of them were enabled. */
  ghost function After(s: State, events: seq<Event>, size: nat): Option<State> {
    if events == [] then Some(s)
    else
      var before := After(s, events[..|events| - 1], size);
      if before.None? then None else Next(before.value, events[|events| - 1], size)
  }

  /** The synchronisations among the events. */
  ghost function RoundsOf(events: seq<Event>): seq<Outside> {
    if events == [] then []
    else
      var last := events[|events| - 1];
      RoundsOf(events[..|events| - 1]) + if last.SyncRound? then [last.outside] else []
  }

  /** The printers known after some synchronisations, whatever happens in between. */
  ghost function KnownAfter(known: map<string, Printer>, first: nat, rounds: seq<Outside>): map<string, Printer> {
    if rounds == [] then known
    else SyncedBy(KnownAfter(known, first, rounds[..|rounds| - 1]), first + |rounds| - 1, rounds[|rounds| - 1])
  }

  ghost predicate Bounded(s: State, size: nat) {
    forall sem :: |HoldersOf(s.printing, sem)| <= size
  }

  /** All calls to a printer go by one semaphore, the one it is known with. */
  ghost predicate OneSemaphore(s: State, name: string) {
    && name in s.known && s.known[name].semaphore.Some?
    && GoBy(s, name, s.known[name].semaphore.value)
  }

  /** All calls to a printer go by this semaphore, and so does the printer as long as it is known. */
  ghost predicate GoBy(s: State, name: string, sem: SemaphoreRef) {
    && (name in s.known ==> s.known[name].semaphore == Some(sem))
    && forall c :: c in s.waiting + s.printing && c.name == name ==> c.semaphore == sem
  }

  /** Print calls are limited by the semaphores. */
  ghost predicate Limited(s: State, size: nat, name: string) {
    HasSemaphores(s.known, s.rounds) && OneSemaphore(s, name) && Bounded(s, size)
  }

  /** The printer is forgotten in some round, and known again after a later one. */
  ghost predicate Returns(s: State, rounds: seq<Outside>, name: string) {
    exists i, j :: 0 <= i < j <= |rounds| && name !in KnownAfter(s.known, s.rounds, rounds[..i])
        && name in KnownAfter(s.known, s.rounds, rounds[..j])
  }

  /** The run is possible, and has too many calls to the printer under way at its end. */
  ghost predicate Exceeds(s: State, events: seq<Event>, size: nat, name: string) {
    After(s, events, size).Some? && |CallsTo(After(s, events, size).value.printing, name)| > size
  }

  // ---- Without a return, the limit holds ----

  lemma {:induction false} SubsetSize<T>(a: set<T>, b: set<T>)
    requires a <= b
    ensures |a| <= |b|
  {
    assert b == a + (b - a);
  }

  lemma NextKeepsBound(s: State, e: Event, size: nat)
    requires Bounded(s, size) && Next(s, e, size).Some?
    ensures Bounded(Next(s, e, size).value, size)
  {
    hide SyncedBy;
    var t := Next(s, e, size).value;
    forall sem ensures |HoldersOf(t.printing, sem)| <= size {
      assert |HoldersOf(s.printing, sem)| <= size;
      match e
      case Acquire(c) =>
        if c.semaphore == sem {
          assert HoldersOf(t.printing, sem) == HoldersOf(s.printing, sem) + {c};
        } else {
          assert HoldersOf(t.printing, sem) == HoldersOf(s.printing, sem);
        }
      case Release(c) => SubsetSize(HoldersOf(t.printing, sem), HoldersOf(s.printing, sem));
      case _ =>
    }
  }

  lemma NextKeepsSemaphore(s: State, e: Event, size: nat, name: string, sem: SemaphoreRef)
    requires HasSemaphores(s.known, s.rounds) && GoBy(s, name, sem) && Next(s, e, size).Some?
    requires e.SyncRound? && name !in s.known ==> name !in SyncedBy(s.known, s.rounds, e.outside)
    ensures HasSemaphores(Next(s, e, size).value.known, Next(s, e, size).value.rounds)
    ensures GoBy(Next(s, e, size).value, name, sem)
  {
    hide Synced;
    if e.SyncRound? {
      RoundKeepsSemaphores(s.known, e.outside.native, Round(s.rounds, e.outside.inCloud, e.outside.replies));
    }
  }

  lemma RoundsNext(events: seq<Event>)
    requires events != []
    ensures var rest, e := events[..|events| - 1], events[|events| - 1];
            RoundsOf(events) == if e.SyncRound? then RoundsOf(rest) + [e.outside] else RoundsOf(rest)
  {
  }

  lemma KnownAfterNext(known: map<string, Printer>, first: nat, rounds: seq<Outside>, o: Outside)
    ensures KnownAfter(known, first, rounds + [o]) == SyncedBy(KnownAfter(known, first, rounds), first + |rounds|, o)
  {
    hide SyncedBy;
    assert (rounds + [o])[..|rounds|] == rounds;
  }

  lemma NextKnown(s: State, e: Event, size: nat)
    requires Next(s, e, size).Some?
    ensures var t := Next(s, e, size).value;
            if e.SyncRound? then t.known == SyncedBy(s.known, s.rounds, e.outside) && t.rounds == s.rounds + 1
            else t.known == s.known && t.rounds == s.rounds
  {
    hide SyncedBy;
  }

  /** The known printers depend on the synchronisations alone. */
  lemma {:induction false} KnownIsAfterRounds(s: State, events: seq<Event>, size: nat)
    requires After(s, events, size).Some?
    ensures var t := After(s, events, size).value;
            t.known == KnownAfter(s.known, s.rounds, RoundsOf(events)) && t.rounds == s.rounds + |RoundsOf(events)|
  {
    if events != [] {
      var rest, e := events[..|events| - 1], events[|events| - 1];
      KnownIsAfterRounds(s, rest, size);
      RoundsNext(events);
      NextKnown(After(s, rest, size).value, e, size);
      hide Next, SyncedBy, KnownAfter, RoundsOf;
      if e.SyncRound? { KnownAfterNext(s.known, s.rounds, RoundsOf(rest), e.outside); }
    }
  }

  lemma ReturnsLater(s: State, before: seq<Outside>, after: seq<Outside>, name: string)
    requires Returns(s, before, name) && |before| <= |after| && after[..|before|] == before
    ensures Returns(s, after, name)
  {
    hide KnownAfter;
    var i, j :| 0 <= i < j <= |before| && name !in KnownAfter(s.known, s.rounds, before[..i])
        && name in KnownAfter(s.known, s.rounds, before[..j]);
    assert after[..i] == before[..i] && after[..j] == before[..j];
  }

  lemma ReturnsNow(s: State, before: seq<Outside>, o: Outside, name: string)
    requires name !in KnownAfter(s.known, s.rounds, before) && name in KnownAfter(s.known, s.rounds, before + [o])
    ensures Returns(s, before + [o], name)
  {
    hide KnownAfter;
    var after := before + [o];
    assert after[..|before|] == before && after[..|after|] == after;
  }

  /** A run without a return does not return before its last event, nor with it. */
  lemma NoReturnBefore(s: State, events: seq<Event>, name: string)
    requires events != [] && !Returns(s, RoundsOf(events), name)
    ensures !Returns(s, RoundsOf(events[..|events| - 1]), name)
    ensures events[|events| - 1].SyncRound? && name !in KnownAfter(s.known, s.rounds, RoundsOf(events[..|events| - 1])) ==>
              name !in KnownAfter(s.known, s.rounds, RoundsOf(events))
  {
    var rest, e := events[..|events| - 1], events[|events| - 1];
    RoundsNext(events);
    hide KnownAfter, RoundsOf, Returns;
    if Returns(s, RoundsOf(rest), name) { ReturnsLater(s, RoundsOf(rest), RoundsOf(events), name); }
    if e.SyncRound? && name !in KnownAfter(s.known, s.rounds, RoundsOf(rest)) && name in KnownAfter(s.known,
        s.rounds, RoundsOf(events)) {
      ReturnsNow(s, RoundsOf(rest), e.outside, name);
    }
  }

  /** Without a return, the calls to a printer keep going by one semaphore. */
  lemma {:induction false} NoReturnOneSemaphore(s: State, events: seq<Event>, size: nat, name: string)
    requires Limited(s, size, name) && After(s, events, size).Some? && !Returns(s, RoundsOf(events), name)
    ensures var t := After(s, events, size).value;
            HasSemaphores(t.known, t.rounds) && Bounded(t, size) && GoBy(t, name, s.known[name].semaphore.value)
  {
    if events != [] {
      var rest, e := events[..|events| - 1], events[|events| - 1];
      NoReturnBefore(s, events, name);
      NoReturnOneSemaphore(s, rest, size, name);
      KnownIsAfterRounds(s, rest, size);
      KnownIsAfterRounds(s, events, size);
      hide KnownAfter, RoundsOf, Returns, HasSemaphores, Bounded, GoBy, SyncedBy;
      NextKeepsSemaphore(After(s, rest, size).value, e, size, name, s.known[name].semaphore.value);
      NextKeepsBound(After(s, rest, size).value, e, size);
    }
  }

  lemma NoReturnNoExcess(s: State, events: seq<Event>, size: nat, name: string)
    requires Limited(s, size, name) && !Returns(s, RoundsOf(events), name)
    ensures !Exceeds(s, events, size, name)
  {
    if After(s, events, size).Some? {
      NoReturnOneSemaphore(s, events, size, name);
      var t := After(s, events, size).value;
      hide After, RoundsOf, Returns;
      SubsetSize(CallsTo(t.printing, name), HoldersOf(t.printing, s.known[name].semaphore.value));
    }
  }

  // ---- With a return, it can be exceeded ----

  /** These events lead from s to t, with these synchronisations among them. */
  ghost predicate Leads(s: State, events: seq<Event>, t: State, rounds: seq<Outside>, size: nat) {
    After(s, events, size) == Some(t) && RoundsOf(events) == rounds
  }

  lemma {:induction false} LeadsOn(s: State, a: seq<Event>, t: State, before: seq<Outside>,
                                   b: seq<Event>, u: State, after: seq<Outside>, size: nat)
    requires Leads(s, a, t, before, size) && Leads(t, b, u, after, size)
    ensures Leads(s, a + b, u, before + after, size)
    decreases b
  {
    if b == [] {
      assert a + b == a && before + after == before;
    } else {
      var rest, last := b[..|b| - 1], b[|b| - 1];
      var m := After(t, rest, size).value;
      LeadsOn(s, a, t, before, rest, m, RoundsOf(rest), size);
      hide Next;
      assert (a + b)[..|a + b| - 1] == a + rest && (a + b)[|a + b| - 1] == last;
      assert before + RoundsOf(b) == before + RoundsOf(rest) + if last.SyncRound? then [last.outside] else [];
    }
  }

  /** Without synchronisations on either side. */
  lemma LeadsOnQuietly(s: State, a: seq<Event>, t: State, b: seq<Event>, u: State, size: nat)
    requires Leads(s, a, t, [], size) && Leads(t, b, u, [], size)
    ensures Leads(s, a + b, u, [], size)
  {
    hide Leads;
    var none: seq<Outside> := [];
    assert none + none == none;
    LeadsOn(s, a, t, none, b, u, none, size);
  }

  lemma LeadsByOne(s: State, e: Event, t: State, size: nat)
    requires Next(s, e, size) == Some(t)
    ensures Leads(s, [e], t, if e.SyncRound? then [e.outside] else [], size)
  {
    hide Next;
    assert [e][..|[e]| - 1] == [];
    assert After(s, [], size) == Some(s) && RoundsOf([]) == [];
    assert After(s, [e], size) == Some(t);
  }

  /** Every call under way can end. */
  lemma {:induction false} EndAll(s: State, size: nat) returns (events: seq<Event>)
    ensures Leads(s, events, s.(printing := {}), [], size)
    decreases |s.printing|
  {
    events := [];
    if s.printing != {} {
      var c :| c in s.printing;
      var t := s.(printing := s.printing - {c});
      events := EndAll(t, size);
      LeadsByOne(s, Release(c), t, size);
      hide Leads;
      LeadsOnQuietly(s, [Release(c)], t, events, t.(printing := {}), size);
      events := [Release(c)] + events;
    }
  }

  /** A new print call goes ahead while its semaphore is not full. */
  lemma StartOne(s: State, id: nat, name: string, size: nat) returns (events: seq<Event>, waiting: set<Call>)
    requires name in s.known && s.known[name].semaphore.Some?
    requires var sem := s.known[name].semaphore.value;
             Call(id, name, sem) !in s.printing && |HoldersOf(s.printing, sem)| < size
    ensures var c := Call(id, name, s.known[name].semaphore.value);
            Leads(s, events, s.(waiting := waiting, printing := s.printing + {c}), [], size)
  {
    var c := Call(id, name, s.known[name].semaphore.value);
    waiting := s.waiting + {c} - {c};
    var t := s.(waiting := s.waiting + {c});
    LeadsByOne(s, LookUp(id, name), t, size);
    LeadsByOne(t, Acquire(c), s.(waiting := waiting, printing := s.printing + {c}), size);
    hide HoldersOf, Leads;
    LeadsOnQuietly(s, [LookUp(id, name)], t, [Acquire(c)], s.(waiting := waiting, printing := s.printing + {c}), size);
    events := [LookUp(id, name)] + [Acquire(c)];
  }

  /** The calls that the construction starts. */
  function Batch(n: nat, name: string, sem: SemaphoreRef): (calls: set<Call>)
    ensures |calls| == n && forall c :: c in calls <==> c.name == name && c.semaphore == sem && c.id < n
  {
    if n == 0 then {} else Batch(n - 1, name, sem) + {Call(n - 1, name, sem)}
  }

  lemma BatchHolds(n: nat, name: string, sem: SemaphoreRef, sem': SemaphoreRef)
    ensures HoldersOf(Batch(n, name, sem), sem') == if sem == sem' then Batch(n, name, sem) else {}
  {
    var calls := Batch(n, name, sem);
    if sem == sem' { assert HoldersOf(calls, sem') == calls; } else { assert HoldersOf(calls, sem') == {}; }
  }

  /** One call more than the n calls of a batch. */
  lemma StartNext(s: State, n: nat, name: string, size: nat) returns (events: seq<Event>, waiting: set<Call>)
    requires name in s.known && s.known[name].semaphore.Some? && n < size
    requires s.printing == Batch(n, name, s.known[name].semaphore.value)
    ensures Leads(s, events, s.(waiting := waiting, printing := Batch(n + 1, name, s.known[name].semaphore.value)), [], size)
  {
    var sem := s.known[name].semaphore.value;
    BatchHolds(n, name, sem, sem);
    assert Batch(n + 1, name, sem) == s.printing + {Call(n, name, sem)};
    hide *;
    events, waiting := StartOne(s, n, name, size);
  }

  /** As many calls go ahead as the semaphore lets in. */
  lemma {:induction false} StartBatch(s: State, n: nat, name: string, size: nat)
    returns (events: seq<Event>, waiting: set<Call>)
    requires name in s.known && s.known[name].semaphore.Some? && s.printing == {} && n <= size
    ensures Leads(s, events, s.(waiting := waiting, printing := Batch(n, name, s.known[name].semaphore.value)), [], size)
  {
    if n == 0 {
      events, waiting := [], s.waiting;
      assert s == s.(waiting := waiting, printing := Batch(n, name, s.known[name].semaphore.value));
    } else {
      events, waiting := StartBatch(s, n - 1, name, size);
      var t := s.(waiting := waiting, printing := Batch(n - 1, name, s.known[name].semaphore.value));
      hide *;
      var more, waiting' := StartNext(t, n - 1, name, size);
      var u := s.(waiting := waiting', printing := Batch(n, name, s.known[name].semaphore.value));
      LeadsOnQuietly(s, events, t, more, u, size);
      events, waiting := events + more, waiting';
    }
  }

  /** Rounds can happen one after the other, with nothing in between. */
  lemma {:induction false} PlayAll(s: State, rounds: seq<Outside>, size: nat) returns (events: seq<Event>)
    ensures Leads(s, events, s.(known := KnownAfter(s.known, s.rounds, rounds), rounds := s.rounds + |rounds|), rounds, size)
  {
    events := [];
    if rounds != [] {
      var rest, last := rounds[..|rounds| - 1], rounds[|rounds| - 1];
      events := PlayAll(s, rest, size);
      var t := s.(known := KnownAfter(s.known, s.rounds, rest), rounds := s.rounds + |rest|);
      var u := s.(known := KnownAfter(s.known, s.rounds, rounds), rounds := s.rounds + |rounds|);
      assert u.known == SyncedBy(t.known, t.rounds, last);
      hide SyncedBy, Leads;
      assert rounds == rest + [last];
      hide KnownAfter;
      assert Next(t, SyncRound(last), size) == Some(u);
      LeadsByOne(t, SyncRound(last), u, size);
      LeadsOn(s, events, t, rest, [SyncRound(last)], u, [last], size);
      events := events + [SyncRound(last)];
    }
  }

  lemma {:induction false} KnownHasSemaphores(known: map<string, Printer>, first: nat, rounds: seq<Outside>)
    requires HasSemaphores(known, first)
    ensures HasSemaphores(KnownAfter(known, first, rounds), first + |rounds|)
  {
    if rounds != [] {
      var rest, o := rounds[..|rounds| - 1], rounds[|rounds| - 1];
      KnownHasSemaphores(known, first, rest);
      hide Synced, HasSemaphores;
      RoundKeepsSemaphores(KnownAfter(known, first, rest), o.native, Round(first + |rest|, o.inCloud, o.replies));
    }
  }

  /** A printer that was not known after i rounds has a semaphore made since. */
  lemma {:induction false} ReturnsWithNewSemaphore(known: map<string, Printer>, first: nat, rounds: seq<Outside>,
      name: string, i: nat)
    requires HasSemaphores(known, first) && i < |rounds|
    requires name !in KnownAfter(known, first, rounds[..i]) && name in KnownAfter(known, first, rounds)
    ensures var after := KnownAfter(known, first, rounds);
            after[name].semaphore.Some? && after[name].semaphore.value.round >= first + i
  {
    var rest, o := rounds[..|rounds| - 1], rounds[|rounds| - 1];
    assert rest[..i] == rounds[..i];
    if i == |rest| { assert rest[..i] == rest; }
    if name in KnownAfter(known, first, rest) { ReturnsWithNewSemaphore(known, first, rest, name, i); }
    KnownHasSemaphores(known, first, rest);
    hide Synced, HasSemaphores;
    RoundKeepsSemaphores(KnownAfter(known, first, rest), o.native, Round(first + |rest|, o.inCloud, o.replies));
  }

  /** All calls end, and as many as allowed are started. */
  lemma Fill(s: State, size: nat, name: string) returns (events: seq<Event>, t: State)
    requires name in s.known && s.known[name].semaphore.Some?
    ensures Leads(s, events, t, [], size) && t.known == s.known && t.rounds == s.rounds
    ensures t.printing == Batch(size, name, s.known[name].semaphore.value)
  {
    hide *;
    events := EndAll(s, size);
    var a := s.(printing := {});
    var more, waiting := StartBatch(a, size, name, size);
    t := a.(waiting := waiting, printing := Batch(size, name, s.known[name].semaphore.value));
    LeadsOnQuietly(s, events, a, more, t, size);
    events := events + more;
  }

  /** Up to the return: as many calls as allowed before the printer goes, and the semaphore it then has is empty. */
  lemma FillBefore(s: State, rounds: seq<Outside>, size: nat, name: string, i: nat)
    returns (events: seq<Event>, t: State)
    requires Limited(s, size, name) && i < |rounds|
    requires name !in KnownAfter(s.known, s.rounds, rounds[..i]) && name in KnownAfter(s.known, s.rounds, rounds)
    ensures Leads(s, events, t, rounds, size) && name in s.known && s.known[name].semaphore.Some?
    ensures name in t.known && t.known[name].semaphore.Some? && t.printing == Batch(size, name, s.known[name].semaphore.value)
    ensures HoldersOf(t.printing, t.known[name].semaphore.value) == {}
  {
    ReturnsWithNewSemaphore(s.known, s.rounds, rounds, name, i);
    var sem, after := s.known[name].semaphore.value, KnownAfter(s.known, s.rounds, rounds);
    assert sem.round < s.rounds;
    hide *;
    BatchHolds(size, name, sem, after[name].semaphore.value);
    var b;
    events, b := Fill(s, size, name);
    var more := PlayAll(b, rounds, size);
    t := b.(known := after, rounds := s.rounds + |rounds|);
    LeadsOn(s, events, b, [], more, t, rounds, size);
    assert [] + rounds == rounds;
    events := events + more;
  }

  lemma OneMoreCall(n: nat, name: string, sem: SemaphoreRef, c: Call)
    requires c.name == name && c.id == n
    ensures |CallsTo(Batch(n, name, sem) + {c}, name)| == n + 1 && c !in Batch(n, name, sem)
  {
    assert CallsTo(Batch(n, name, sem) + {c}, name) == Batch(n, name, sem) + {c};
  }

  /** A printer that returns can be sent `size` calls before it goes, and one more when it is back. */
  lemma ReturnExceeds(s: State, rounds: seq<Outside>, size: nat, name: string, i: nat, j: nat) returns (events: seq<Event>)
    requires size > 0 && Limited(s, size, name) && i < j <= |rounds|
    requires name !in KnownAfter(s.known, s.rounds, rounds[..i]) && name in KnownAfter(s.known, s.rounds, rounds[..j])
    ensures RoundsOf(events) == rounds && Exceeds(s, events, size, name)
  {
    var early, late := rounds[..j], rounds[j..];
    assert early[..i] == rounds[..i] && early + late == rounds;
    hide *;
    var t;
    events, t := FillBefore(s, early, size, name, i);
    var c := Call(size, name, t.known[name].semaphore.value);
    OneMoreCall(size, name, s.known[name].semaphore.value, c);
    var more, waiting := StartOne(t, size, name, size);
    var u := t.(waiting := waiting, printing := t.printing + {c});
    LeadsOn(s, events, t, early, more, u, [], size);
    events := events + more;
    more := PlayAll(u, late, size);
    var v := u.(known := KnownAfter(u.known, u.rounds, late), rounds := u.rounds + |late|);
    assert early + [] == early;
    LeadsOn(s, events, u, early, more, v, late, size);
    events := events + more;
    assert Leads(s, events, v, rounds, size);
    LeadsToExcess(s, events, v, rounds, size, name);
  }

  lemma LeadsToExcess(s: State, events: seq<Event>, t: State, rounds: seq<Outside>, size: nat, name: string)
    requires Leads(s, events, t, rounds, size) && |CallsTo(t.printing, name)| > size
    ensures RoundsOf(events) == rounds && Exceeds(s, events, size, name)
  {
  }

  /**
   * The limit on concurrent print calls to a printer, exactly: given the synchronisations, some interleaving
   * with lookups, acquisitions and releases exceeds it if and only if the printer is forgotten in one of them
   * and known again after a later one.
   */
  lemma LimitFailsExactlyOnReturn(s: State, rounds: seq<Outside>, size: nat, name: string)
    requires size > 0 && Limited(s, size, name)
    ensures (exists events :: RoundsOf(events) == rounds && Exceeds(s, events, size, name)) <==> Returns(s, rounds, name)
  {
    hide Exceeds, Limited, RoundsOf, KnownAfter;
    if Returns(s, rounds, name) {
      var i, j :| 0 <= i < j <= |rounds| && name !in KnownAfter(s.known, s.rounds, rounds[..i])
          && name in KnownAfter(s.known, s.rounds, rounds[..j]);
      var events := ReturnExceeds(s, rounds, size, name, i, j);
    } else {
      forall events | RoundsOf(events) == rounds ensures !Exceeds(s, events, size, name) {
        NoReturnNoExcess(s, events, size, name);
      }
    }
  }

  ghost predicate StaysNative(e: Event, name: string) {
    e.SyncRound? ==> name in ByName(e.outside.native)
  }

  lemma {:induction false} StaysKnown(known: map<string, Printer>, first: nat, rounds: seq<Outside>, name: string)
    requires name in known && forall o :: o in rounds ==> name in ByName(o.native)
    ensures name in KnownAfter(known, first, rounds)
  {
    if rounds != [] {
      StaysKnown(known, first, rounds[..|rounds| - 1], name);
      assert rounds[|rounds| - 1] in rounds;
    }
  }

  lemma {:induction false} RoundsAre(events: seq<Event>, o: Outside)
    requires o in RoundsOf(events)
    ensures SyncRound(o) in events
  {
    var rest := events[..|events| - 1];
    if o in RoundsOf(rest) { RoundsAre(rest, o); }
  }

  /** So it holds in every interleaving as long as the printer stays native. */
  lemma PrintLimitHolds(s: State, events: seq<Event>, size: nat, name: string)
    requires Limited(s, size, name) && After(s, events, size).Some?
    requires forall i :: 0 <= i < |events| ==> StaysNative(events[i], name)
    ensures |CallsTo(After(s, events, size).value.printing, name)| <= size
  {
    var rounds := RoundsOf(events);
    forall o | o in rounds ensures name in ByName(o.native) {
      RoundsAre(events, o);
      var i :| 0 <= i < |events| && events[i] == SyncRound(o);
      assert StaysNative(events[i], name);
    }
    forall k | 0 <= k <= |rounds| ensures name in KnownAfter(s.known, s.rounds, rounds[..k]) {
      StaysKnown(s.known, s.rounds, rounds[..k], name);
    }
    hide RoundsOf, KnownAfter, After, Limited;
    NoReturnNoExcess(s, events, size, name);
  }
}
