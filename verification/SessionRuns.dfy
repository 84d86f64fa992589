/** Safety over whole runs of the session state machine. */
module SessionRuns {
  import opened Messages
  import opened SessionHistory
  import opened SessionModel
  import opened SessionSafety
  import opened SessionHeld

  /** A new session, or one loaded from a history in which nobody is left behind. */
  predicate Init(s: Session) {
    && s.state == (if s.hist.size > 0 then Running else Initialization)
    && s.initUser == -1 && s.clients == [] && s.stream == [] && s.streamSize == 0
    && Coherent(s.hist) && Present(s.hist.msgs) == {} && Clamped(s.hist.limit, s.threshold)
    && s.autoReset == NotSent && s.seen.asked == [] && s.seen.resets == 0
    && !s.deleted && !s.seen.crashed && !s.seen.refused && !s.seen.unlisted && !s.seen.silent && !s.seen.early
  }

  lemma InitInv(s: Session)
    requires Init(s)
    ensures Inv(s)
  {
  }

  predicate Runnable(s: Session, events: seq<Event>)
    decreases |events|
  {
    events == [] || (Enabled(s, events[0]) && Runnable(Step(s, events[0]), events[1..]))
  }

  function Run(s: Session, events: seq<Event>): Session
    requires Runnable(s, events)
    decreases |events|
  {
    if events == [] then s else Run(Step(s, events[0]), events[1..])
  }

  lemma {:induction false} RunKeeps(s: Session, events: seq<Event>)
    requires Inv(s) && Runnable(s, events)
    ensures Inv(Run(s, events))
    decreases |events|
  {
    if events != [] {
      StepKeeps(s, events[0]);
      RunKeeps(Step(s, events[0]), events[1..]);
    }
  }

  // ---- State machine safety ----

  /** In every reachable state: no illegal state change has happened, a running session has no init
      user, a resetting one has a connected operator as its init user, only a session that still
      initializes has clients on hold or held messages, and the buffer size is what is buffered and
      within the limit. */
  lemma StateMachineSafety(s: Session, events: seq<Event>)
    requires Init(s) && Runnable(s, events)
    ensures var s' := Run(s, events);
            && !s'.seen.crashed
            && (s'.state == Running ==> s'.initUser == -1)
            && (s'.state == Resetting ==> Connected(s', s'.initUser) && IsOp(Get(s', s'.initUser)))
            && (s'.state != Initialization ==>
                  forall i :: 0 <= i < |s'.clients| ==> !s'.clients[i].held && s'.clients[i].queue == [])
            && s'.streamSize == TotalLength(s'.stream)
            && (s'.state == Resetting && s'.hist.limit > 0 ==> s'.streamSize <= s'.hist.limit)
            && (s'.state in {Initialization, Running} ==> s'.stream == [])
  {
    InitInv(s);
    RunKeeps(s, events);
    var s' := Run(s, events);
    forall i | s'.state != Initialization && 0 <= i < |s'.clients|
      ensures !s'.clients[i].held && s'.clients[i].queue == []
    {
      assert ClientOk(s'.clients[i]);
      var id := s'.clients[i].id;
      assert s'.clients[i].held ==> id in HeldIds(s'.clients);
    }
  }

  // ---- Presence ----

  /** In every reachable state of a session that was not shut down, if no join or leave message was
      refused since the last reset, the log names exactly the connected clients. */
  lemma PresenceLog(s: Session, events: seq<Event>)
    requires Init(s) && Runnable(s, events)
    requires !Run(s, events).deleted && !Run(s, events).seen.refused
    ensures Present(Run(s, events).hist.msgs) == Ids(Run(s, events).clients)
  {
    InitInv(s);
    RunKeeps(s, events);
  }

  /** One departure keeps log and client list in agreement exactly if the log has room. */
  lemma LeaveAgreesIff(s: Session, id: int)
    requires Inv(s) && !s.deleted && Connected(s, id) && Present(s.hist.msgs) == Ids(s.clients)
    ensures Present(RemoveUser(s, id).hist.msgs) == Ids(RemoveUser(s, id).clients) <==> !OutOfSpace(s.hist)
  {
    var user := Get(s, id).id;
    RemovesFollows(s, id);
    IdsMember(s.clients, user);
    LeaveLogged(s, id, UserLeave(user));
  }

  /** What the log says about who is present after one append. */
  lemma PresentAfter(s: Session, m: Message)
    requires LogOk(s) && s.state != Shutdown
    ensures Present(AddToHistory(s, m).hist.msgs) ==
            if OutOfSpace(s.hist) then Present(s.hist.msgs) else ApplyPresence(Present(s.hist.msgs), m)
  {
    AddsToLog(s, m);
    Stores(s.hist, m);
  }

  lemma DepartedLog(s: Session, id: int)
    requires Inv(s) && !s.deleted && Connected(s, id)
    ensures var d := Departed(s, id); d.hist == s.hist && LogOk(d) && d.state != Shutdown
  {
    DepartedFrame(s, id);
  }

  lemma LeaveLogged(s: Session, id: int, m: Message)
    requires Inv(s) && !s.deleted && Connected(s, id) && m == UserLeave(Get(s, id).id)
    ensures Present(RemoveUser(s, id).hist.msgs) ==
            if OutOfSpace(s.hist) then Present(s.hist.msgs) else ApplyPresence(Present(s.hist.msgs), m)
  {
    DepartedLog(s, id);
    PresentAfter(Departed(s, id), m);
    Removes(s, id);
  }

  lemma JoinLogged(s: Session, c: Client, trusted: bool)
    requires Inv(s) && Enabled(s, Join(c, trusted))
    ensures var s' := JoinUser(s, c, trusted, false);
            && Ids(s'.clients) == Ids(s.clients) + {c.id}
            && Present(s'.hist.msgs) ==
               if OutOfSpace(s.hist) then Present(s.hist.msgs) else ApplyPresence(Present(s.hist.msgs), c.join)
  {
    JoinsUser(s, c, trusted, false);
    PresentAfter(Entered(s, c, false), c.join);
  }

  /** And so does one arrival. */
  lemma JoinAgreesIff(s: Session, c: Client, trusted: bool)
    requires Inv(s) && Enabled(s, Join(c, trusted)) && Present(s.hist.msgs) == Ids(s.clients)
    ensures var s' := Step(s, Join(c, trusted));
            Present(s'.hist.msgs) == Ids(s'.clients) <==> !OutOfSpace(s.hist)
  {
    IdsMember(s.clients, c.id);
    JoinLogged(s, c, trusted);
  }

  /** A log of at least the limit is full. */
  lemma StaysFull(h: History, h': History)
    requires Coherent(h) && GoesOn(h, h') && OutOfSpace(h)
    ensures OutOfSpace(h')
  {
    LengthToPrefix(h.msgs, h'.msgs, |h.msgs|);
    LengthToAscends(h'.msgs, |h.msgs|, |h'.msgs|);
  }

  lemma JoinFillsLog(s: Session, host: Client, s1: Session)
    requires Init(s) && IsNew(s, host) && 0 < s.hist.limit <= Length(host.join) && s.hist.size == 0
    requires s1 == AddToHistory(Entered(s, host, true), host.join)
    ensures Coherent(s1.hist) && OutOfSpace(s1.hist) && !s1.seen.refused && !s1.deleted
  {
    Adds(Entered(s, host, true), host.join);
  }

  lemma HostAlone(s: Session, host: Client, s1: Session, s': Session)
    requires Init(s) && s.state == Initialization && IsNew(s, host)
    requires s1 == AddToHistory(Entered(s, host, true), host.join) && s' == JoinUser(s, host, false, true)
    ensures Inv(s') && Harmless(s1, s') && Ids(s'.clients) == {host.id}
  {
    InitInv(s);
    JoinsUser(s, host, false, true);
    assert Ids(s.clients) == {};
  }

  lemma HarmlessFull(s: Session, s': Session)
    requires Harmless(s, s') && Coherent(s.hist) && OutOfSpace(s.hist) && !s.seen.refused
    ensures OutOfSpace(s'.hist) && !s'.seen.refused && s'.deleted == s.deleted
  {
    StaysFull(s.hist, s'.hist);
  }

  /** A new session whose limit is used up by the host's join. */
  lemma HostFillsLog(s: Session, host: Client, s1: Session, s': Session)
    requires Init(s) && s.state == Initialization && IsNew(s, host) && 0 < s.hist.limit <= Length(host.join)
    requires s1 == AddToHistory(Entered(s, host, true), host.join) && s' == JoinUser(s, host, false, true)
    ensures Inv(s') && OutOfSpace(s'.hist) && !s'.seen.refused && !s'.deleted && Ids(s'.clients) == {host.id}
  {
    HostAlone(s, host, s1, s');
    JoinFillsLog(s, host, s1);
    HarmlessFull(s1, s');
  }

  lemma RunOn(s: Session, e: Event, rest: seq<Event>)
    requires Enabled(s, e) && Runnable(Step(s, e), rest)
    ensures Runnable(s, [e] + rest) && Run(s, [e] + rest) == Run(Step(s, e), rest)
  {
    assert ([e] + rest)[0] == e && ([e] + rest)[1..] == rest;
  }

  /** Such a log stays behind: the host leaves, and the log still has it. Another client joins, and the log
      does not have it. */
  lemma FullLogDisagrees(s: Session, host: Client, guest: Client)
    requires Init(s) && s.state == Initialization && IsNew(s, host) && 0 < s.hist.limit <= Length(host.join)
    requires IsNew(s, guest) && guest.id != host.id
    ensures var events := [HostJoin(host, false)] + ([Leave(host.id)] + []);
            Runnable(s, events) && Present(Run(s, events).hist.msgs) != Ids(Run(s, events).clients)
    ensures var events := [HostJoin(host, false)] + ([Join(guest, false)] + []);
            Runnable(s, events) && Present(Run(s, events).hist.msgs) != Ids(Run(s, events).clients)
  {
    var s' := Step(s, HostJoin(host, false));
    HostFillsLog(s, host, AddToHistory(Entered(s, host, true), host.join), s');
    IdsMember(s'.clients, host.id);
    IdsMember(s'.clients, guest.id);
    LeaveAgreesIff(s', host.id);
    JoinAgreesIff(s', guest, false);
    RunOn(s', Leave(host.id), []);
    RunOn(s', Join(guest, false), []);
    RunOn(s, HostJoin(host, false), [Leave(host.id)] + []);
    RunOn(s, HostJoin(host, false), [Join(guest, false)] + []);
  }

  // ---- Nothing is lost without a reset ----

  /** The init user ends its upload and with it Initialization. */
  predicate Begins(s: Session, id: Byte, input: Input)
    requires Connected(s, id)
  {
    s.state == Initialization && s.initUser == id && IsOp(Get(s, id)) && (input == Cmd(InitComplete) || input == Cmd(InitCancel))
  }

  /** What an event adds to what the log has from clients: nothing while the sender is on hold, and all that
      was held when the session starts. */
  function Sent(s: Session, e: Event): seq<Message>
    requires Enabled(s, e)
  {
    if !e.Recv? || Get(s, e.sender).held then []
    else if Begins(s, e.sender, e.input) then HeldSent(s.(initUser := -1), s.clients)
    else Relayed(s, e.sender, Stamp(s, e.sender, e.input))
  }

  /** Without a reset, the log was only added to, and what it has from clients by exactly these messages. */
  predicate Extends(s: Session, s': Session, out: seq<Message>) {
    && s'.hist.first == s.hist.first && s.hist.msgs <= s'.hist.msgs
    && FromClients(s'.hist.msgs) == FromClients(s.hist.msgs) + out
  }

  /** One step: without a reset, the log goes on. */
  predicate Moves(s: Session, s': Session, out: seq<Message>) {
    true == (
      && (s.state != Initialization ==> s'.state != Initialization) && s'.seen.resets >= s.seen.resets && s'.hist.limit == s.hist.limit
      && (s'.seen.resets == s.seen.resets ==> Extends(s, s', out)))
  }

  lemma UploadEnds(s: Session)
    requires Inv(s) && s.state == Resetting
    ensures Moves(s, FinishReset(s), [])
  {
    ResetOutcome(s, ServerSide(s.clients) + s.stream);
    assert FromClients(s.hist.msgs) + [] == FromClients(s.hist.msgs);
  }

  lemma StartMoves(s: Session)
    requires Inv(s) && s.state == Initialization
    ensures ClearStream(s) == s && Moves(s, StartSession(s), HeldSent(s.(initUser := -1), s.clients))
  {
    StartGrows(s);
  }

  lemma MessageMoves(s: Session, id: Byte, input: Input)
    requires Inv(s) && Connected(s, id) && !s.deleted && !Begins(s, id, input)
    ensures Moves(s, HandleMessage(s, id, input), Relayed(s, id, input))
  {
    assert FromClients(s.hist.msgs) + [] == FromClients(s.hist.msgs);
    if input == Cmd(InitComplete) || input == Cmd(InitCancel) {
      if IsOp(Get(s, id)) && s.initUser == id {
        var t := if input == Cmd(InitCancel) then ClearStream(s) else s;
        ClearsStream(s);
        UploadEnds(t);
      }
    } else {
      Dispatches(s, id, input);
    }
  }

  lemma ReceiveMoves(s: Session, id: Byte, input: Input)
    requires Inv(s) && Enabled(s, Recv(id, input))
    ensures Moves(s, Receive(s, id, input), Sent(s, Recv(id, input)))
  {
    assert FromClients(s.hist.msgs) + [] == FromClients(s.hist.msgs);
    if Get(s, id).held {
    } else if Begins(s, id, input) {
      StartMoves(s);
    } else {
      MessageMoves(s, id, Stamp(s, id, input));
    }
  }

  lemma NobodyHeld(s: Session, i: nat)
    requires Inv(s) && s.state != Initialization && i < |s.clients|
    ensures !s.clients[i].held
  {
    var id := s.clients[i].id;
    assert s.clients[i].held ==> id in HeldIds(s.clients);
  }

  lemma RevokeMoves(s: Session, id: Byte)
    requires Inv(s) && !s.deleted
    ensures Moves(s, Revoke(s, id), [])
  {
    var (s', ids) := UpdateOwnership(s, RemoveOne(AllOpIds(s), id));
    UpdatesOwnership(s, RemoveOne(AllOpIds(s), id));
    AddsServerMessage(s', SessionOwner(ids));
    HarmlessFollows(s', AddToHistory(s', SessionOwner(ids)));
    FollowsTrans(s, s', AddToHistory(s', SessionOwner(ids)), []);
  }

  lemma JoinMoves(s: Session, c: Client, trusted: bool, host: bool)
    requires Inv(s) && !s.deleted && IsNew(s, c) && (host ==> s.state == Initialization)
    ensures Moves(s, JoinUser(s, c, trusted, host), [])
  {
    JoinsUser(s, c, trusted, host);
    assert FromClients(s.hist.msgs) + [] == FromClients(s.hist.msgs);
  }

  lemma GrantMoves(s: Session, id: Byte)
    requires Inv(s)
    ensures Moves(s, Grant(s, id), [])
  {
    Grants(s, id);
    HarmlessFollows(s, Grant(s, id));
  }

  lemma AdminMoves(s: Session, id: Byte, op: bool)
    requires Inv(s) && Enabled(s, AdminOp(id, op))
    ensures Moves(s, Step(s, AdminOp(id, op)), [])
  {
    if Get(s, id).op == op {
      NothingHappens(s);
    } else if op {
      GrantMoves(s, id);
    } else {
      RevokeMoves(s, id);
    }
  }

  lemma StepMoves(s: Session, e: Event)
    requires Inv(s) && Enabled(s, e)
    ensures Moves(s, Step(s, e), Sent(s, e))
  {
    match e
    case HostJoin(c, trusted) => JoinMoves(s, c, trusted, true);
    case Join(c, trusted) => JoinMoves(s, c, trusted, false);
    case Leave(id) => RemovesFollows(s, id);
    case Recv(id, input) => ReceiveMoves(s, id, input);
    case AdminOp(id, op) => AdminMoves(s, id, op);
  }

  /** The size limit is the one thing no step changes. */
  lemma LimitStays(s: Session, e: Event)
    requires Inv(s) && Enabled(s, e)
    ensures Step(s, e).hist.limit == s.hist.limit
  {
    StepMoves(s, e);
  }

  /** Everything the clients sent over a run, as far as it was not filtered, uploaded or refused. */
  function AllSent(s: Session, events: seq<Event>): seq<Message>
    requires Runnable(s, events)
    decreases |events|
  {
    if events == [] then [] else Sent(s, events[0]) + AllSent(Step(s, events[0]), events[1..])
  }

  lemma MovesTrans(a: Session, b: Session, c: Session, x: seq<Message>, y: seq<Message>)
    requires Moves(a, b, x) && Moves(b, c, y)
    ensures Moves(a, c, x + y)
  {
  }

  /** Over every run without a successful reset, from a new session on: what the log has from clients grows by
      exactly what the clients sent, in order. */
  lemma {:induction false} RunMoves(s: Session, events: seq<Event>)
    requires Inv(s) && Runnable(s, events)
    ensures Moves(s, Run(s, events), AllSent(s, events))
    decreases |events|
  {
    if events == [] {
      assert FromClients(s.hist.msgs) + [] == FromClients(s.hist.msgs);
    } else {
      var s' := Step(s, events[0]);
      StepKeeps(s, events[0]);
      StepMoves(s, events[0]);
      RunMoves(s', events[1..]);
      MovesTrans(s, s', Run(s', events[1..]), Sent(s, events[0]), AllSent(s', events[1..]));
    }
  }

  /** A reset that does not succeed loses nothing: whatever ends it (cancel, disconnect, loss of the
      operator flag, an oversize upload or an image that does not fit), the log is the one from before
      the reset, followed by exactly what the other users sent meanwhile, in order, among joins, leaves
      and the server's own messages; and the buffer is empty. */
  lemma FailedReset(s: Session, events: seq<Event>)
    requires Inv(s) && s.state == Resetting && Runnable(s, events)
    requires Run(s, events).state == Running && Run(s, events).seen.resets == s.seen.resets
    ensures var s' := Run(s, events);
            && s.hist.msgs <= s'.hist.msgs && s'.hist.first == s.hist.first
            && FromClients(s'.hist.msgs[|s.hist.msgs|..]) == AllSent(s, events)
            && s'.stream == [] && s'.streamSize == 0 && s'.initUser == -1
  {
    RunKeeps(s, events);
    RunMoves(s, events);
    var h, h' := s.hist.msgs, Run(s, events).hist.msgs;
    assert h' == h + h'[|h|..];
    FromClientsConcat(h, h'[|h|..]);
    SamePrefix(FromClients(h), FromClients(h'[|h|..]), AllSent(s, events));
  }

  lemma {:induction false} FromClientsConcat(a: seq<Message>, b: seq<Message>)
    ensures FromClients(a + b) == FromClients(a) + FromClients(b)
  {
    if b == [] {
      assert a + b == a;
    } else {
      var b' := b[..|b| - 1];
      FromClientsConcat(a, b');
      assert a + b == (a + b') + [b[|b| - 1]];
      FromClientsSnoc(a + b', b[|b| - 1]);
    }
  }

  lemma SamePrefix(a: seq<Message>, b: seq<Message>, c: seq<Message>)
    requires a + b == a + c
    ensures b == c
  {
    assert b == (a + b)[|a|..] && c == (a + c)[|a|..];
  }

  // ---- Autoreset ----

  /** Between two successful resets at most one client is told to perform the reset. The query is sent for no
      log that does not want a reset, and no append leaves one that does (in particular, a full one)
      without it. */
  lemma AutoResetNegotiation(s: Session, events: seq<Event>)
    requires Init(s) && Runnable(s, events)
    ensures var s' := Run(s, events);
            && (forall i, j :: 0 <= i < j < |s'.seen.asked| ==> s'.seen.asked[i] < s'.seen.asked[j])
            && (forall i :: 0 <= i < |s'.seen.asked| ==> s'.seen.asked[i] <= s'.seen.resets)
            && !s'.seen.silent && !s'.seen.early
  {
    InitInv(s);
    RunKeeps(s, events);
  }

  // ---- Shutdown ----

  /** A held kill-session from a moderator takes effect when the hold is released. */
  lemma HeldKill(s: Session, i: nat)
    requires Distinct(s.clients) && i < |s.clients| && s.clients[i].mod && s.clients[i].queue == [Cmd(KillSession)]
    requires s.state == Initialization
    ensures Connected(s, s.clients[i].id) && Unlock(s, s.clients[i].id) == Kill(Freed(s, i))
  {
    IndexAt(s.clients, i);
    var f := Freed(s, i);
    assert Distinct(f.clients);
    IndexAt(f.clients, i);
    var queue := s.clients[i].queue;
    assert Dispatch(f, s.clients[i].id, queue[0]) == Kill(f);
    assert Replay(f, s.clients[i].id, queue, 0) == Replay(Kill(f), s.clients[i].id, queue, 1);
  }

  /** Shutdown is not the last state if a held message asks for it: the session whose host has just
      completed the upload is gone, and still ends up Running. */
  lemma KilledWhileStarting(s: Session)
    requires Inv(s) && s.state == Initialization && |s.clients| == 2
    requires s.clients[0].queue == [] && s.clients[1].mod && s.clients[1].queue == [Cmd(KillSession)]
    ensures StartSession(s).state == Running && StartSession(s).deleted && StartSession(s).clients == []
  {
    var s0 := s.(initUser := -1);
    IndexAt(s0.clients, 0);
    var f := Freed(s0, 0);
    assert Unlock(s0, s.clients[0].id) == f;
    HeldKill(f, 1);
    assert Release(s0, s.clients, 0) == Release(f, s.clients, 1);
    assert Release(f, s.clients, 1) == Release(Kill(Freed(f, 1)), s.clients, 2);
  }
}
