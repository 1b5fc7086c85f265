/**
 * The XMPP keep-alive protocol (xmpp/internal-xmpp.go and xmpp/xmpp.go), as steps over channels. A
 * connection starts after its subscription. Pings follow XEP-0199, section 4.2.
 */
module Xmpp {
  import opened Collections

  // ---- One connection ----

  /** A message on the pong channel: its 8-bit ID, and the ping that it answers, if any. */
  datatype Pong = Pong(id: nat, origin: Option<nat>)

  datatype Dispatcher = Reading | Passing(pong: Pong) | Notifying | Stopping | Exited

  /**
   * The goroutine that pings: first newInternalXMPP itself with the initial ping, then pingPeriodically.
   * It is Gone if the initial ping failed, and Done when it has signalled the death.
   */
  datatype Pinger = Initial(ping: nat) | InitialFailed | Idle | Waiting(ping: nat) | Failed | Dying | Done | Gone

  /** `sent` counts the pings; `unanswered` are those that reached the server and have no reply yet. */
  datatype Conn = Conn(
    dispatcher: Dispatcher, pinger: Pinger, sent: nat, unanswered: set<nat>, pongs: seq<Pong>, open: bool, deaths: nat)

  const CAPACITY := 10

  function IDOf(ping: nat): nat { ping % 256 }

  datatype ConnEvent =
    | Answer(ping: nat)                     // the dispatcher reads the server's reply to a ping
    | Intrude(id: nat)                      // ... or an iq with a number for an ID that is no reply
    | Notification                          // ... or a printer notification
    | Ignored                               // ... or anything else
    | ReadError
    | Notified                              // the notification is taken
    | PushPong
    | Tick(encoded: bool, delivered: bool)  // the timer fires and a ping is sent
    | TakePong
    | Timeout
    | Die                                   // the dying channel
    | SignalDeath                           // the dead channel
    | Close

  /** newInternalXMPP after the subscription: the dispatcher starts, and the first ping goes out. */
  function Fresh(encoded: bool, delivered: bool): Conn {
    Conn(Reading, if encoded then Initial(0) else InitialFailed, 1, if delivered then {0} else {}, [], encoded, 0)
  }

  /** One step; None if it is not enabled. */
  function Local(c: Conn, e: ConnEvent): Option<Conn> {
    match e
    case Answer(n) =>
      if c.dispatcher == Reading && n in c.unanswered
      then Some(c.(dispatcher := Passing(Pong(IDOf(n), Some(n))), unanswered := c.unanswered - {n})) else None
    case Intrude(id) =>
      if c.dispatcher == Reading && id < 256 then Some(c.(dispatcher := Passing(Pong(id, None)))) else None
    case Notification => if c.dispatcher == Reading then Some(c.(dispatcher := Notifying)) else None
    case Ignored => if c.dispatcher == Reading then Some(c) else None
    case ReadError => if c.dispatcher == Reading then Some(c.(dispatcher := Stopping)) else None
    case Notified => if c.dispatcher == Notifying then Some(c.(dispatcher := Reading)) else None
    case PushPong =>
      if c.dispatcher.Passing? && |c.pongs| < CAPACITY
      then Some(c.(dispatcher := Reading, pongs := c.pongs + [c.dispatcher.pong])) else None
    case Tick(encoded, delivered) =>
      if c.pinger == Idle && (encoded ==> delivered) then
        Some(c.(pinger := if encoded then Waiting(c.sent) else Failed,
                sent := c.sent + 1,
                unanswered := if delivered then c.unanswered + {c.sent} else c.unanswered,
                open := c.open && encoded))
      else None
    case TakePong =>
      if (c.pinger.Initial? || c.pinger.Waiting?) && c.pongs != [] then
        Some(c.(pongs := c.pongs[1..], pinger := if c.pongs[0].id == IDOf(c.pinger.ping) then Idle else c.pinger))
      else None
    case Timeout =>
      if c.pinger.Initial? then Some(c.(pinger := InitialFailed, open := false))
      else if c.pinger.Waiting? then Some(c.(pinger := Failed, open := false))
      else None
    case Die =>
      if c.dispatcher == Stopping && c.pinger == InitialFailed then Some(c.(dispatcher := Exited, pinger := Gone))
      else if c.dispatcher == Stopping && (c.pinger == Idle || c.pinger == Failed) then Some(c.(dispatcher := Exited, pinger := Dying))
      else None
    case SignalDeath =>
      if c.pinger == Dying then Some(c.(pinger := Done, deaths := c.deaths + 1)) else None
    case Close => Some(c.(open := false))
  }

  /** A pong on its way, and the ping it is for. */
  ghost predicate ForLast(p: Pong, sent: nat) { sent > 0 && p == Pong(IDOf(sent - 1), Some(sent - 1)) }

  function InFlight(c: Conn): nat {
    |c.unanswered| + |c.pongs| + if c.dispatcher.Passing? then 1 else 0
  }

  ghost predicate ConnInv(c: Conn) {
    && c.sent > 0
    && (c.dispatcher == Exited <==> c.pinger.Dying? || c.pinger.Done? || c.pinger.Gone?)
    && c.deaths == (if c.pinger == Done then 1 else 0)
    && InFlight(c) <= (if c.pinger == Idle then 0 else 1)
    && (forall n :: n in c.unanswered ==> n == c.sent - 1)
    && (forall p :: p in c.pongs ==> ForLast(p, c.sent))
    && (c.dispatcher.Passing? ==> ForLast(c.dispatcher.pong, c.sent))
    && (c.pinger.Initial? || c.pinger.Waiting? ==> c.pinger.ping == c.sent - 1)
  }

  /** Steps of a server that sends an iq with a number only as a reply. */
  predicate Polite(e: ConnEvent) { !e.Intrude? }

  lemma SmallerSet(s: set<nat>, n: nat)
    requires n in s
    ensures |s - {n}| == |s| - 1
  {
  }

  lemma FreshIsSafe(encoded: bool, delivered: bool)
    requires encoded ==> delivered
    ensures ConnInv(Fresh(encoded, delivered))
  {
  }

  lemma AnswerKeepsInv(c: Conn, n: nat)
    requires ConnInv(c) && Local(c, Answer(n)).Some?
    ensures ConnInv(Local(c, Answer(n)).value)
  {
    SmallerSet(c.unanswered, n);
  }

  lemma PushKeepsInv(c: Conn)
    requires ConnInv(c) && Local(c, PushPong).Some?
    ensures ConnInv(Local(c, PushPong).value)
  {
  }

  lemma TickKeepsInv(c: Conn, encoded: bool, delivered: bool)
    requires ConnInv(c) && Local(c, Tick(encoded, delivered)).Some?
    ensures ConnInv(Local(c, Tick(encoded, delivered)).value)
  {
    assert c.unanswered == {};
  }

  lemma TakeKeepsInv(c: Conn)
    requires ConnInv(c) && Local(c, TakePong).Some?
    ensures ConnInv(Local(c, TakePong).value)
  {
    assert c.pongs[0] in c.pongs;
  }

  lemma LocalKeepsInv(c: Conn, e: ConnEvent)
    requires ConnInv(c) && Polite(e) && Local(c, e).Some?
    ensures ConnInv(Local(c, e).value)
  {
    match e
    case Answer(n) => AnswerKeepsInv(c, n);
    case PushPong => PushKeepsInv(c);
    case Tick(encoded, delivered) => TickKeepsInv(c, encoded, delivered);
    case TakePong => TakeKeepsInv(c);
    case _ =>
  }

  predicate Over(p: Pinger) { p.InitialFailed? || p.Failed? || p.Dying? || p.Done? || p.Gone? }

  /** No ping follows a failed one. */
  lemma FailureIsFinal(c: Conn, e: ConnEvent)
    requires Over(c.pinger) && Local(c, e).Some?
    ensures var n := Local(c, e).value; n.sent == c.sent && Over(n.pinger) && n.deaths >= c.deaths
  {
  }

  /** A server that breaks the rule is believed: a ping succeeds that nobody answered. */
  lemma IntruderIsBelieved(c: Conn) returns (events: seq<ConnEvent>, last: Conn)
    requires c.dispatcher == Reading && c.pinger == Idle && c.pongs == []
    ensures events == [Intrude(IDOf(c.sent)), PushPong, Tick(true, true), TakePong]
    ensures RunLocal(c, events) == Some(last) && last.pinger == Idle && c.sent in last.unanswered && last.sent == c.sent + 1
  {
    var id := IDOf(c.sent);
    events := [Intrude(id), PushPong, Tick(true, true), TakePong];
    var c1 := Local(c, events[0]).value;
    var c2 := Local(c1, events[1]).value;
    var c3 := Local(c2, events[2]).value;
    last := Local(c3, events[3]).value;
    assert events[..3][..2][..1][..0] == [] && events[..3][..2][..1] == [events[0]] && events[..3][..2] == events[..2];
    assert RunLocal(c, []) == Some(c);
    RunStep(c, [], events[0]);
    RunStep(c, [events[0]], events[1]);
    RunStep(c, [events[0], events[1]], events[2]);
    RunStep(c, [events[0], events[1], events[2]], events[3]);
    assert [] + [events[0]] == [events[0]] && [events[0]] + [events[1]] == [events[0], events[1]];
    assert [events[0], events[1]] + [events[2]] == [events[0], events[1], events[2]];
    assert [events[0], events[1], events[2]] + [events[3]] == events;
    hide RunLocal;
  }

  lemma RunStep(c: Conn, events: seq<ConnEvent>, e: ConnEvent)
    ensures RunLocal(c, events + [e]) == var m := RunLocal(c, events); if m.None? then None else Local(m.value, e)
  {
    assert (events + [e])[..|events|] == events;
    hide Local;
  }

  function RunLocal(c: Conn, events: seq<ConnEvent>): Option<Conn> {
    if events == [] then Some(c)
    else
      var m := RunLocal(c, events[..|events| - 1]);
      if m.None? then None else Local(m.value, events[|events| - 1])
  }

  // ---- The supervisor ----

  /** startXMPP between attempts, or in newInternalXMPP; keepXMPPAlive waiting; and after its return. */
  datatype Supervisor = Starting | Connecting | Running | Stopped

  datatype Quitter = NotCalled | AwaitingDeath | Returned

  /** All connections ever made, the current one last. */
  datatype System = System(conns: seq<Conn>, supervisor: Supervisor, established: bool, quitter: Quitter)

  datatype Event =
    | OnConn(i: nat, e: ConnEvent)         // a step that concerns one connection only
    | Dial(encoded: bool, delivered: bool)
    | InitialPong                          // the initial ping is answered: the connection is established
    | InitialDie                           // the initial ping failed, and the dispatcher has ended
    | DeathToSupervisor(i: nat)
    | DeathToQuitter(i: nat)
    | CallQuit
    | GiveUp
    | SupervisorQuits

  /** Steps of a connection that no other part takes part in. */
  predicate IsOwn(c: Conn, e: ConnEvent) {
    && !e.SignalDeath?
    && (e.TakePong? && c.pinger.Initial? && Local(c, e).Some? ==> Local(c, e).value.pinger != Idle)
    && (e.Die? ==> c.pinger != InitialFailed)
  }

  function SetLast(s: System, c: Conn, supervisor: Supervisor): System
    requires s.conns != []
  {
    s.(conns := s.conns[|s.conns| - 1 := c], supervisor := supervisor)
  }

  function Next(s: System, e: Event): Option<System> {
    var last := |s.conns| - 1;
    match e
    case OnConn(i, ce) =>
      if i < |s.conns| && IsOwn(s.conns[i], ce) && Local(s.conns[i], ce).Some?
      then Some(s.(conns := s.conns[i := Local(s.conns[i], ce).value])) else None
    case Dial(encoded, delivered) =>
      if s.supervisor == Starting && (encoded ==> delivered)
      then Some(s.(conns := s.conns + [Fresh(encoded, delivered)], supervisor := Connecting)) else None
    case InitialPong =>
      if s.supervisor == Connecting && last >= 0 && s.conns[last].pinger.Initial? && Local(s.conns[last], TakePong).Some?
         && Local(s.conns[last], TakePong).value.pinger == Idle
      then Some(SetLast(s, Local(s.conns[last], TakePong).value, Running).(established := true)) else None
    case InitialDie =>
      if s.supervisor == Connecting && last >= 0 && s.conns[last].pinger == InitialFailed && Local(s.conns[last], Die).Some?
      then Some(SetLast(s, Local(s.conns[last], Die).value, Starting)) else None
    case DeathToSupervisor(i) =>
      // A death is received from any connection; startXMPP then closes the current one once more.
      if s.supervisor == Running && i < |s.conns| && Local(s.conns[i], SignalDeath).Some?
      then
        var conns := s.conns[i := Local(s.conns[i], SignalDeath).value];
        Some(s.(conns := conns[last := conns[last].(open := false)], supervisor := Starting))
      else None
    case DeathToQuitter(i) =>
      if s.quitter == AwaitingDeath && i < |s.conns| && Local(s.conns[i], SignalDeath).Some?
      then Some(s.(conns := s.conns[i := Local(s.conns[i], SignalDeath).value], quitter := Returned)) else None
    case CallQuit => if s.quitter == NotCalled && s.established then Some(s.(quitter := AwaitingDeath)) else None
    case GiveUp => if s.quitter == AwaitingDeath then Some(s.(quitter := Returned)) else None
    case SupervisorQuits =>
      if s.supervisor == Running && s.quitter != NotCalled && last >= 0
      then Some(SetLast(s, s.conns[last].(open := false), Stopped)) else None
  }

  const START := System([], Starting, false, NotCalled)

  /** A conversation whose dispatcher has ended for good. */
  predicate Ended(c: Conn) { c.pinger == Done || c.pinger == Gone }

  predicate Established(p: Pinger) { p.Idle? || p.Waiting? || p.Failed? || p.Dying? || p.Done? }

  ghost predicate SupervisorInv(s: System) {
    && (forall i :: 0 <= i < |s.conns| - 1 ==> Ended(s.conns[i]))
    && match s.supervisor
       case Starting => s.conns != [] ==> Ended(s.conns[|s.conns| - 1])
       case Stopped => s.quitter != NotCalled && s.conns != [] && Established(s.conns[|s.conns| - 1].pinger)
       case Connecting => s.conns != [] && (s.conns[|s.conns| - 1].pinger.Initial? || s.conns[|s.conns| - 1].pinger == InitialFailed)
       case _ => s.conns != [] && Established(s.conns[|s.conns| - 1].pinger)
  }

  ghost predicate Inv(s: System) {
    (forall i :: 0 <= i < |s.conns| ==> ConnInv(s.conns[i])) && SupervisorInv(s)
  }

  predicate PoliteEvent(e: Event) { e.OnConn? ==> Polite(e.e) }

  /** What an own step does to the phase of a connection. */
  lemma OwnStep(c: Conn, e: ConnEvent)
    requires IsOwn(c, e) && Local(c, e).Some?
    ensures var n := Local(c, e).value;
            && (Ended(c) <==> Ended(n))
            && (c.pinger.Initial? || c.pinger == InitialFailed <==> n.pinger.Initial? || n.pinger == InitialFailed)
            && (Established(c.pinger) <==> Established(n.pinger))
  {
  }

  lemma NextKeepsConns(s: System, e: Event)
    requires Inv(s) && PoliteEvent(e) && Next(s, e).Some?
    ensures var n := Next(s, e).value; forall i :: 0 <= i < |n.conns| ==> ConnInv(n.conns[i])
  {
    hide Local, IsOwn, SupervisorInv;
    match e
    case OnConn(i, ce) => LocalKeepsInv(s.conns[i], ce);
    case Dial(encoded, delivered) => FreshIsSafe(encoded, delivered);
    case InitialPong => LocalKeepsInv(s.conns[|s.conns| - 1], TakePong);
    case InitialDie => LocalKeepsInv(s.conns[|s.conns| - 1], Die);
    case DeathToSupervisor(i) => LocalKeepsInv(s.conns[i], SignalDeath);
    case DeathToQuitter(i) => LocalKeepsInv(s.conns[i], SignalDeath);
    case _ =>
  }

  lemma OwnKeepsSupervisor(s: System, i: nat, ce: ConnEvent)
    requires Inv(s) && Next(s, OnConn(i, ce)).Some?
    ensures SupervisorInv(Next(s, OnConn(i, ce)).value)
  {
    OwnShape(s, i, ce);
    OwnStep(s.conns[i], ce);
    hide Local, IsOwn, ConnInv, Next, Established, SupervisorInv, Ended;
    SupervisorKept(s, i, Local(s.conns[i], ce).value);
  }

  /** A connection that stays in its phase changes nothing for the supervisor. */
  lemma SupervisorKept(s: System, i: nat, n: Conn)
    requires SupervisorInv(s) && i < |s.conns| && (Ended(s.conns[i]) <==> Ended(n))
    requires var c := s.conns[i];
             && (c.pinger.Initial? || c.pinger == InitialFailed <==> n.pinger.Initial? || n.pinger == InitialFailed)
             && (Established(c.pinger) <==> Established(n.pinger))
    ensures SupervisorInv(s.(conns := s.conns[i := n]))
  {
    hide Ended, Established;
  }

  lemma OwnShape(s: System, i: nat, ce: ConnEvent)
    requires Next(s, OnConn(i, ce)).Some?
    ensures i < |s.conns| && IsOwn(s.conns[i], ce) && Local(s.conns[i], ce).Some?
    ensures Next(s, OnConn(i, ce)).value == s.(conns := s.conns[i := Local(s.conns[i], ce).value])
  {
    hide Local, IsOwn;
  }

  lemma DeathKeepsSupervisor(s: System, i: nat, e: Event)
    requires Inv(s) && (e == DeathToSupervisor(i) || e == DeathToQuitter(i)) && Next(s, e).Some?
    ensures SupervisorInv(Next(s, e).value)
  {
    assert Local(s.conns[i], SignalDeath).Some? ==> s.conns[i].pinger == Dying;
    assert i == |s.conns| - 1;
    hide ConnInv;
  }

  lemma NextKeepsSupervisor(s: System, e: Event)
    requires Inv(s) && Next(s, e).Some?
    ensures SupervisorInv(Next(s, e).value)
  {
    match e
    case OnConn(i, ce) => OwnKeepsSupervisor(s, i, ce);
    case DeathToSupervisor(i) => DeathKeepsSupervisor(s, i, e);
    case DeathToQuitter(i) => DeathKeepsSupervisor(s, i, e);
    case _ =>
  }

  ghost predicate IsRun(run: seq<System>, events: seq<Event>) {
    && |run| == |events| + 1 && run[0] == START
    && forall i :: 0 <= i < |events| ==> PoliteEvent(events[i]) && Next(run[i], events[i]) == Some(run[i + 1])
  }

  lemma RunAt(run: seq<System>, events: seq<Event>, i: nat)
    requires IsRun(run, events) && i < |events|
    ensures |run| == |events| + 1 && PoliteEvent(events[i]) && Next(run[i], events[i]) == Some(run[i + 1])
  {
    hide Next;
  }

  /** Every state of every run with a polite server is safe. */
  lemma {:induction false} RunIsSafe(run: seq<System>, events: seq<Event>, i: nat)
    requires IsRun(run, events) && i < |run|
    ensures Inv(run[i])
  {
    if i > 0 {
      RunIsSafe(run, events, i - 1);
      RunAt(run, events, i - 1);
      NextKeepsConns(run[i - 1], events[i - 1]);
      NextKeepsSupervisor(run[i - 1], events[i - 1]);
    }
    hide Next, ConnInv, SupervisorInv;
  }

  /** In every run, the pong channel of a connection holds one pong at most, and its dispatcher never waits for it. */
  lemma DispatcherNeverBlocks(run: seq<System>, events: seq<Event>, i: nat, k: nat)
    requires IsRun(run, events) && i < |run| && k < |run[i].conns|
    ensures var c := run[i].conns[k];
            |c.pongs| <= 1 && (c.dispatcher.Passing? ==> c.pongs == [] && Local(c, PushPong).Some?)
  {
    RunIsSafe(run, events, i);
    assert ConnInv(run[i].conns[k]);
    hide IsRun;
  }

  /** In every run, a pong that is taken answers the ping just sent, although IDs repeat after 256 pings. */
  lemma SuccessIsGenuine(run: seq<System>, events: seq<Event>, i: nat, k: nat)
    requires IsRun(run, events) && i < |run| && k < |run[i].conns| && Local(run[i].conns[k], TakePong).Some?
    ensures var c := run[i].conns[k];
            && c.pongs[0].origin == Some(c.sent - 1) && c.pinger.ping == c.sent - 1
            && Local(c, TakePong).value.pinger == Idle
  {
    RunIsSafe(run, events, i);
    var c := run[i].conns[k];
    assert ConnInv(c) && c.pongs[0] in c.pongs;
    hide IsRun;
  }

  /**
   * In every run, at most one conversation is live, each signals its death once at most, and only after its
   * dispatcher has ended.
   */
  lemma OneLiveConversation(run: seq<System>, events: seq<Event>, n: nat, i: nat, j: nat)
    requires IsRun(run, events) && n < |run| && i < |run[n].conns| && j < |run[n].conns|
    ensures var conns := run[n].conns;
            && (conns[i].dispatcher != Exited && conns[j].dispatcher != Exited ==> i == j == |conns| - 1)
            && conns[i].deaths <= 1 && (conns[i].deaths > 0 ==> conns[i].dispatcher == Exited)
  {
    RunIsSafe(run, events, n);
    assert ConnInv(run[n].conns[i]) && ConnInv(run[n].conns[j]);
    hide IsRun;
  }

  ghost predicate Silent(s: System, k: nat, sent: nat, deaths: nat) {
    k < |s.conns| && Over(s.conns[k].pinger) && s.conns[k].sent == sent && s.conns[k].deaths >= deaths
  }

  /** A connection that failed once sends no ping in the rest of the run. */
  lemma {:induction false} NoPingAfterFailure(run: seq<System>, events: seq<Event>, i: nat, j: nat, k: nat)
    requires IsRun(run, events) && i <= j < |run| && k < |run[i].conns| && Over(run[i].conns[k].pinger)
    ensures Silent(run[j], k, run[i].conns[k].sent, run[i].conns[k].deaths)
    decreases j
  {
    if i < j {
      hide IsRun, Next, Silent, Over;
      assert |run| == |events| + 1 by { RunLength(run, events); }
      NoPingAfterFailure(run, events, i, j - 1, k);
      RunAt(run, events, j - 1);
      OverStays(run[j - 1], events[j - 1], k, run[i].conns[k].sent, run[i].conns[k].deaths);
    }
    hide IsRun, Next;
  }

  lemma RunLength(run: seq<System>, events: seq<Event>)
    requires IsRun(run, events)
    ensures |run| == |events| + 1
  {
  }

  lemma OverStays(s: System, e: Event, k: nat, sent: nat, deaths: nat)
    requires Silent(s, k, sent, deaths) && Next(s, e).Some?
    ensures Silent(Next(s, e).value, k, sent, deaths)
  {
    match e
    case OnConn(i, ce) => if i == k { FailureIsFinal(s.conns[k], ce); }
    case _ =>
  }

  // ---- What keeps the conversation alive ----

  function Through(s: System, events: seq<Event>): Option<System> {
    if events == [] then Some(s)
    else
      var m := Through(s, events[..|events| - 1]);
      if m.None? then None else Next(m.value, events[|events| - 1])
  }

  lemma ThroughStep(s: System, events: seq<Event>, e: Event)
    ensures Through(s, []) == Some(s)
    ensures Through(s, events + [e]) == var m := Through(s, events); if m.None? then None else Next(m.value, e)
  {
    assert (events + [e])[..|events|] == events;
    hide Next;
  }

  /** What a goroutine of the current conversation does next by itself, once its connection is closed. */
  function ClosingStep(c: Conn): ConnEvent {
    if c.dispatcher.Passing? then PushPong
    else if c.dispatcher == Notifying then Notified
    else if c.dispatcher == Reading then ReadError
    else if c.pinger.Waiting? then Timeout
    else Die
  }

  /** How many such steps there are. */
  function StepsLeft(c: Conn): nat {
    (if c.pinger.Waiting? then 1 else 0)
    + match c.dispatcher
      case Passing(_) => 3
      case Notifying => 3
      case Reading => 2
      case Stopping => 1
      case Exited => 0
  }

  lemma ClosingStepWorks(c: Conn)
    requires ConnInv(c) && (c.pinger == Idle || c.pinger.Waiting? || c.pinger == Failed)
    ensures IsOwn(c, ClosingStep(c)) && Local(c, ClosingStep(c)).Some?
    ensures var n := Local(c, ClosingStep(c)).value;
            && StepsLeft(n) < StepsLeft(c) && n.deaths == c.deaths && n.sent == c.sent
            && (n.pinger == Idle || n.pinger.Waiting? || n.pinger == Failed || n.pinger == Dying)
  {
  }

  predicate IsLive(p: Pinger) { p.Idle? || p.Waiting? || p.Failed? || p.Dying? }

  lemma CloserToDying(s: System) returns (e: Event, m: System)
    requires Inv(s) && s.supervisor == Running && IsLive(s.conns[|s.conns| - 1].pinger) && s.conns[|s.conns| - 1].pinger != Dying
    ensures Next(s, e) == Some(m) && Inv(m) && m == s.(conns := m.conns) && |m.conns| == |s.conns|
    ensures e == OnConn(|s.conns| - 1, ClosingStep(s.conns[|s.conns| - 1]))
    ensures IsLive(m.conns[|s.conns| - 1].pinger) && StepsLeft(m.conns[|s.conns| - 1]) < StepsLeft(s.conns[|s.conns| - 1])
  {
    var k := |s.conns| - 1;
    assert ConnInv(s.conns[k]);
    ClosingStepWorks(s.conns[k]);
    e := OnConn(k, ClosingStep(s.conns[k]));
    m := Next(s, e).value;
    hide Local, ConnInv, SupervisorInv, IsOwn, StepsLeft;
    NextKeepsConns(s, e);
    NextKeepsSupervisor(s, e);
  }

  /** A step by which a conversation closes; none needs the server. */
  predicate IsClosing(e: Event, k: nat) { e.OnConn? && e.i == k && e.e in {PushPong, Notified, ReadError, Timeout, Die} }

  /** A conversation that has not signalled its death comes to its end by its own steps. */
  lemma {:induction false} ComesToDying(s: System) returns (events: seq<Event>, t: System)
    requires Inv(s) && s.supervisor == Running && IsLive(s.conns[|s.conns| - 1].pinger)
    ensures Through(s, events) == Some(t) && Inv(t) && |t.conns| == |s.conns| && t == s.(conns := t.conns)
    ensures t.conns[|t.conns| - 1].pinger == Dying
    ensures |events| <= StepsLeft(s.conns[|s.conns| - 1])
    ensures forall e :: e in events ==> IsClosing(e, |s.conns| - 1)
    decreases StepsLeft(s.conns[|s.conns| - 1])
  {
    if s.conns[|s.conns| - 1].pinger == Dying {
      events, t := [], s;
    } else {
      var e, m := CloserToDying(s);
      hide Inv, Next, StepsLeft, Through;
      var rest;
      rest, t := ComesToDying(m);
      events := [e] + rest;
      ThroughFirst(s, e, rest);
    }
  }

  lemma {:induction false} ThroughFirst(s: System, e: Event, rest: seq<Event>)
    requires Next(s, e).Some?
    ensures Through(s, [e] + rest) == Through(Next(s, e).value, rest)
  {
    hide Next;
    ThroughStep(s, [], e);
    assert [] + [e] == [e];
    if rest == [] {
      assert [e] + rest == [e];
    } else {
      var most, last := rest[..|rest| - 1], rest[|rest| - 1];
      ThroughFirst(s, e, most);
      ThroughStep(s, [e] + most, last);
      assert [e] + rest == ([e] + most) + [last];
    }
  }

  lemma DeathStep(s: System) returns (n: System)
    requires Inv(s) && s.supervisor == Running && s.conns[|s.conns| - 1].pinger == Dying
    ensures Next(s, DeathToSupervisor(|s.conns| - 1)) == Some(n)
    ensures n.supervisor == Starting && |n.conns| == |s.conns|
    ensures n.conns[|s.conns| - 1].pinger == Done && n.conns[|s.conns| - 1].deaths == 1
  {
    assert ConnInv(s.conns[|s.conns| - 1]);
    n := Next(s, DeathToSupervisor(|s.conns| - 1)).value;
  }

  lemma DialStep(s: System, encoded: bool, delivered: bool) returns (t: System)
    requires s.supervisor == Starting && (encoded ==> delivered)
    ensures Next(s, Dial(encoded, delivered)) == Some(t)
    ensures t.supervisor == Connecting && t.conns == s.conns + [Fresh(encoded, delivered)]
  {
    t := Next(s, Dial(encoded, delivered)).value;
  }

  /**
   * In every run, while the supervisor waits and has not missed the death, the current conversation can come to its
   * end without the server's help, whatever its goroutines are doing; its death is signalled once, and a new
   * connection is made.
   */
  lemma DeadIsReplaced(run: seq<System>, events: seq<Event>, i: nat, encoded: bool, delivered: bool)
    returns (closing: seq<Event>, t: System)
    requires IsRun(run, events) && i < |run| && (encoded ==> delivered)
    requires run[i].supervisor == Running && |run[i].conns| > 0 && IsLive(run[i].conns[|run[i].conns| - 1].pinger)
    ensures |closing| <= 4 && forall e :: e in closing ==> IsClosing(e, |run[i].conns| - 1)
    ensures Through(run[i], closing + [DeathToSupervisor(|run[i].conns| - 1)] + [Dial(encoded, delivered)]) == Some(t)
    ensures t.supervisor == Connecting && |t.conns| == |run[i].conns| + 1
    ensures t.conns[|run[i].conns|] == Fresh(encoded, delivered)
    ensures var last := t.conns[|run[i].conns| - 1]; Ended(last) && last.deaths == 1
  {
    RunIsSafe(run, events, i);
    hide IsRun, Local, ConnInv, SupervisorInv, Fresh, IsClosing, Next, Through;
    var s, k := run[i], |run[i].conns| - 1;
    var m;
    closing, m := ComesToDying(s);
    var n := DeathStep(m);
    t := DialStep(n, encoded, delivered);
    ThroughStep(s, closing, DeathToSupervisor(k));
    ThroughStep(s, closing + [DeathToSupervisor(k)], Dial(encoded, delivered));
  }

  /** An idle conversation can ping again, and is idle after the reply. */
  lemma PingSucceeds(run: seq<System>, events: seq<Event>, i: nat, k: nat) returns (steps: seq<Event>, t: System)
    requires IsRun(run, events) && i < |run| && k < |run[i].conns|
    requires run[i].conns[k].pinger == Idle && run[i].conns[k].dispatcher == Reading
    ensures Through(run[i], steps) == Some(t)
    ensures steps == [OnConn(k, Tick(true, true)), OnConn(k, Answer(run[i].conns[k].sent)), OnConn(k, PushPong), OnConn(k, TakePong)]
    ensures t == run[i].(conns := run[i].conns[k := run[i].conns[k].(sent := run[i].conns[k].sent + 1)])
  {
    RunIsSafe(run, events, i);
    var s, c := run[i], run[i].conns[k];
    assert ConnInv(c);
    hide IsRun, Local, Next, ConnInv, IsOwn;
    var c1, c2, c3 := PingReturns(c);
    var s1, s2, s3 := s.(conns := s.conns[k := c1]), s.(conns := s.conns[k := c2]), s.(conns := s.conns[k := c3]);
    t := s.(conns := s.conns[k := c.(sent := c.sent + 1)]);
    var e1, e2, e3, e4 := OnConn(k, Tick(true, true)), OnConn(k, Answer(c.sent)), OnConn(k, PushPong), OnConn(k, TakePong);
    OwnNext(s, k, e1.e, s1);
    OwnNext(s1, k, e2.e, s2);
    OwnNext(s2, k, e3.e, s3);
    OwnNext(s3, k, e4.e, t);
    ThroughStep(s, [], e1);
    ThroughStep(s, [e1], e2);
    ThroughStep(s, [e1, e2], e3);
    ThroughStep(s, [e1, e2, e3], e4);
    assert [] + [e1] == [e1] && [e1] + [e2] == [e1, e2] && [e1, e2] + [e3] == [e1, e2, e3];
    steps := [e1, e2, e3, e4];
    assert [e1, e2, e3] + [e4] == steps;
  }

  lemma PingReturns(c: Conn) returns (c1: Conn, c2: Conn, c3: Conn)
    requires ConnInv(c) && c.pinger == Idle && c.dispatcher == Reading
    ensures Local(c, Tick(true, true)) == Some(c1) && Local(c1, Answer(c.sent)) == Some(c2) && Local(c2, PushPong) == Some(c3)
    ensures Local(c3, TakePong) == Some(c.(sent := c.sent + 1))
    ensures IsOwn(c, Tick(true, true)) && IsOwn(c1, Answer(c.sent)) && IsOwn(c2, PushPong) && IsOwn(c3, TakePong)
  {
    assert c.unanswered == {} && c.pongs == [];
    c1 := c.(pinger := Waiting(c.sent), sent := c.sent + 1, unanswered := {c.sent});
    c2 := c1.(dispatcher := Passing(Pong(IDOf(c.sent), Some(c.sent))), unanswered := {});
    c3 := c2.(dispatcher := Reading, pongs := [Pong(IDOf(c.sent), Some(c.sent))]);
    assert c1.unanswered - {c.sent} == {} && c.unanswered + {c.sent} == {c.sent};
    assert c2.pongs + [c2.dispatcher.pong] == c3.pongs && c3.pongs[1..] == [];
  }

  lemma OwnNext(s: System, k: nat, e: ConnEvent, t: System)
    requires k < |s.conns| && IsOwn(s.conns[k], e) && Local(s.conns[k], e).Some?
    requires |t.conns| == |s.conns| && t == s.(conns := t.conns) && t.conns[k] == Local(s.conns[k], e).value
    requires forall i :: 0 <= i < |s.conns| && i != k ==> t.conns[i] == s.conns[i]
    ensures Next(s, OnConn(k, e)) == Some(t)
  {
    hide Local, IsOwn;
    assert t.conns == s.conns[k := t.conns[k]];
  }

  // ---- Deaths that nobody hears ----

  /** A conversation that is about to signal its death finds a receiver, unless Quit has stopped waiting. */
  lemma DeathIsHeard(run: seq<System>, events: seq<Event>, i: nat, k: nat)
    requires IsRun(run, events) && i < |run| && k < |run[i].conns| && run[i].conns[k].pinger == Dying
    ensures Next(run[i], DeathToSupervisor(k)).Some? || Next(run[i], DeathToQuitter(k)).Some? <==>
              !(run[i].supervisor == Stopped && run[i].quitter == Returned)
  {
    RunIsSafe(run, events, i);
    hide IsRun, ConnInv;
  }

  /** It then waits for ever. */
  ghost predicate IsStuck(s: System, k: nat) {
    k < |s.conns| && s.conns[k].pinger == Dying && s.supervisor == Stopped && s.quitter == Returned
  }

  lemma {:induction false} StuckStays(run: seq<System>, events: seq<Event>, i: nat, j: nat, k: nat)
    requires IsRun(run, events) && i <= j < |run| && IsStuck(run[i], k)
    ensures IsStuck(run[j], k)
    decreases j
  {
    if i < j {
      hide IsRun, Next, IsStuck;
      assert |run| == |events| + 1 by { RunLength(run, events); }
      StuckStays(run, events, i, j - 1, k);
      RunAt(run, events, j - 1);
      StuckStep(run[j - 1], events[j - 1], k);
    }
  }

  lemma StuckStep(s: System, e: Event, k: nat)
    requires IsStuck(s, k) && Next(s, e).Some?
    ensures IsStuck(Next(s, e).value, k)
  {
  }

  function OneConn(dispatcher: Dispatcher, pinger: Pinger, open: bool): Conn {
    Conn(dispatcher, pinger, 1, {}, [], open, 0)
  }

  /** A system with one connection. */
  function One(dispatcher: Dispatcher, pinger: Pinger, open: bool, supervisor: Supervisor, quitter: Quitter): System {
    System([OneConn(dispatcher, pinger, open)], supervisor, true, quitter)
  }

  lemma Connects() returns (s1: System, s2: System, s3: System)
    ensures Next(START, Dial(true, true)) == Some(s1) && Next(s1, OnConn(0, Answer(0))) == Some(s2)
    ensures Next(s2, OnConn(0, PushPong)) == Some(s3) && Next(s3, InitialPong) == Some(One(Reading, Idle, true, Running, NotCalled))
  {
    var c1, c2, c3 := FirstPing();
    hide Local, Fresh;
    s1, s2, s3 := System([c1], Connecting, false, NotCalled), System([c2], Connecting, false, NotCalled),
      System([c3], Connecting, false, NotCalled);
    assert [] + [c1] == [c1];
    OwnNext(s1, 0, Answer(0), s2);
    OwnNext(s2, 0, PushPong, s3);
    assert [c3][0 := OneConn(Reading, Idle, true)] == [OneConn(Reading, Idle, true)];
  }

  lemma FirstPing() returns (c1: Conn, c2: Conn, c3: Conn)
    ensures c1 == Fresh(true, true) && Local(c1, Answer(0)) == Some(c2) && Local(c2, PushPong) == Some(c3)
    ensures c3.pinger.Initial? && Local(c3, TakePong) == Some(OneConn(Reading, Idle, true))
    ensures IsOwn(c1, Answer(0)) && IsOwn(c2, PushPong)
  {
    c1 := Fresh(true, true);
    c2 := c1.(dispatcher := Passing(Pong(0, Some(0))), unanswered := {});
    c3 := c2.(dispatcher := Reading, pongs := [Pong(0, Some(0))]);
    assert c1.unanswered - {0} == {} && c2.pongs + [Pong(0, Some(0))] == c3.pongs && c3.pongs[1..] == [];
  }

  lemma QuitsInVain()
    ensures Next(One(Reading, Idle, true, Running, NotCalled), CallQuit) == Some(One(Reading, Idle, true, Running, AwaitingDeath))
    ensures Next(One(Reading, Idle, true, Running, AwaitingDeath), SupervisorQuits)
            == Some(One(Reading, Idle, false, Stopped, AwaitingDeath))
    ensures Next(One(Reading, Idle, false, Stopped, AwaitingDeath), GiveUp) == Some(One(Reading, Idle, false, Stopped, Returned))
  {
    hide Local;
    assert [OneConn(Reading, Idle, true)][0 := OneConn(Reading, Idle, false)] == [OneConn(Reading, Idle, false)];
  }

  lemma DiesUnheard()
    ensures Next(One(Reading, Idle, false, Stopped, Returned), OnConn(0, ReadError))
            == Some(One(Stopping, Idle, false, Stopped, Returned))
    ensures Next(One(Stopping, Idle, false, Stopped, Returned), OnConn(0, Die))
            == Some(One(Exited, Dying, false, Stopped, Returned))
  {
    var a, b, c := OneConn(Reading, Idle, false), OneConn(Stopping, Idle, false), OneConn(Exited, Dying, false);
    assert Local(a, ReadError) == Some(b) && Local(b, Die) == Some(c);
    hide Local;
    assert [a][0 := b] == [b] && [b][0 := c] == [c];
  }

  /** And there is such a run: the dispatcher notices the closed connection only after Quit has stopped waiting. */
  lemma StuckIsReached() returns (run: seq<System>, events: seq<Event>)
    ensures IsRun(run, events) && IsStuck(run[|events|], 0)
  {
    var s1, s2, s3 := Connects();
    QuitsInVain();
    DiesUnheard();
    hide Next;
    events := [Dial(true, true), OnConn(0, Answer(0)), OnConn(0, PushPong), InitialPong, CallQuit, SupervisorQuits, GiveUp,
               OnConn(0, ReadError), OnConn(0, Die)];
    run := [START, s1, s2, s3, One(Reading, Idle, true, Running, NotCalled), One(Reading, Idle, true, Running, AwaitingDeath),
            One(Reading, Idle, false, Stopped, AwaitingDeath), One(Reading, Idle, false, Stopped, Returned),
            One(Stopping, Idle, false, Stopped, Returned), One(Exited, Dying, false, Stopped, Returned)];
  }
}
