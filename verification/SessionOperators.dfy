/** Somebody is always in charge: operator existence over every run without the admin interface. */
module SessionOperators {
  import opened Wrappers
  import opened Messages
  import opened SessionHistory
  import opened SessionModel
  import opened SessionSafety
  import opened SessionRuns

  /** A non-empty session with no way to gain operator status unasked has an operator. */
  predicate Manned(s: Session) {
    s.clients != [] && !s.hasOpword && s.authOps == {} ==> HasOp(s.clients)
  }

  /** The clients, the opword and the remembered accounts are as before. */
  predicate SameCrew(s: Session, s': Session) {
    s'.clients == s.clients && s'.hasOpword == s.hasOpword && s'.authOps == s.authOps
  }

  lemma AddsSameCrew(s: Session, m: Message)
    ensures SameCrew(s, AddToHistory(s, m))
  {
  }

  lemma GrantsManned(s: Session, id: Byte)
    requires LogOk(s) && Connected(s, id)
    ensures Manned(Grant(s, id))
  {
    Grants(s, id);
    var i := Index(s.clients, id);
    assert IsOp(Grant(s, id).clients[i]);
  }

  lemma EnsuresManned(s: Session)
    requires LogOk(s)
    ensures Manned(EnsureOperatorExists(s))
  {
    if !s.hasOpword && s.authOps == {} && !HasOp(s.clients) && s.clients != [] {
      Grants(s, s.clients[0].id);
      assert IsOp(Grant(s, s.clients[0].id).clients[0]);
    }
  }

  lemma RemovesManned(s: Session, id: int)
    requires Removable(s, id)
    ensures Manned(RemoveUser(s, id))
  {
    var d := Departed(s, id);
    var m := UserLeave(Get(s, id).id);
    DepartedSound(s, id);
    Adds(d, m);
    var e := EnsureOperatorExists(AddToHistory(d, m));
    EnsuresManned(AddToHistory(d, m));
    if e.clients == [] && e.closed {
      AddsSameCrew(e.(closed := false), Properties(e.(closed := false)));
    }
  }

  lemma FinishesSameCrew(s: Session)
    ensures SameCrew(s, FinishReset(s))
  {
    AddsSameCrew(Reinstalled(s), Properties(Reinstalled(s)));
  }

  lemma RoutesManned(s: Session, id: Byte, m: Message)
    requires Inv(s) && Manned(s) && !IsPresence(m)
    ensures Manned(Route(s, id, m))
  {
    AddsSameCrew(s, m);
    if s.initUser == id && s.state == Resetting {
      BuffersOne(s, m);
      if s.hist.limit > 0 && Buffered(s, m).streamSize > s.hist.limit {
        RemovesManned(Buffered(s, m), s.initUser);
      }
    }
  }

  /** Whoever changes the operators stays one, so the change cannot leave the session unmanned. */
  lemma OwnershipManned(s: Session, ids: seq<Byte>, id: Byte)
    requires Inv(s) && Connected(s, id) && id in ids
    ensures Manned(UpdateOwnership(s, ids).0)
  {
    var f := FlagOps(s, ids);
    FlagsOps(s, ids);
    var i := Index(s.clients, id);
    assert IsOp(f.clients[i]);
    if Deposed(s, ids) {
      HarmlessSound(s, f);
      SameIndex(s.clients, f.clients, s.initUser);
      RemovesManned(f, s.initUser);
    }
  }

  lemma TrustManned(s: Session, ids: seq<Byte>)
    requires LogOk(s) && Manned(s)
    ensures Manned(UpdateTrusted(s, ids))
  {
    UpdatesTrusted(s, ids);
    if HasOp(s.clients) {
      var i :| 0 <= i < |s.clients| && IsOp(s.clients[i]);
      assert IsOp(UpdateTrusted(s, ids).clients[i]);
    }
  }

  lemma WireManned(s: Session, id: Byte, m: Message)
    requires Inv(s) && Connected(s, id) && Manned(s)
    ensures Manned(HandleWire(s, id, m))
  {
    if IsPresence(m) || m.kind in {MSG_SOFTRESET, MSG_DISCONNECT, MSG_COMMAND, MSG_PRIVATE_CHAT} {
    } else if m.kind == MSG_SESSION_OWNER {
      if IsOp(Get(s, id)) {
        var (s', ids) := UpdateOwnership(s, m.payload + [id]);
        OwnershipManned(s, m.payload + [id], id);
        UpdatesOwnership(s, m.payload + [id]);
        RoutesManned(s', id, m.(payload := ids));
      }
    } else if m.kind == MSG_TRUSTED_USERS {
      if IsOp(Get(s, id)) {
        var s' := UpdateTrusted(s, m.payload);
        TrustManned(s, m.payload);
        UpdatesTrusted(s, m.payload);
        HarmlessInv(s, s');
        RoutesManned(s', id, m.(payload := TrustedIds(s'.clients, |s'.clients|)));
      }
    } else {
      RoutesManned(s, id, m);
    }
  }

  lemma ConfigureManned(s: Session, id: Byte, c: Command)
    requires c.SessionConf? && Connected(s, id) && IsOp(Get(s, id)) && Manned(s)
    ensures Manned(Configure(s, c))
  {
    assert HasOp(Configured(s, c).clients);
    AddsSameCrew(Configured(s, c), Properties(Configured(s, c)));
  }

  lemma MuteManned(s: Session, target: Byte, on: bool)
    requires Manned(s)
    ensures Manned(SetMute(s, target, on))
  {
    if HasOp(s.clients) {
      var i :| 0 <= i < |s.clients| && IsOp(s.clients[i]);
      assert IsOp(SetMute(s, target, on).clients[i]);
    }
  }

  lemma CommandManned(s: Session, id: Byte, cmd: Command)
    requires Inv(s) && Connected(s, id) && Manned(s)
    ensures Manned(HandleCommand(s, id, cmd))
  {
    if Allowed(s, Get(s, id), cmd) {
      match cmd
      case Kick(target) => if Connected(s, target) { RemovesManned(s, target); }
      case GainOp(_) => GrantsManned(s, id);
      case SessionConf(_, _, _, _, _) => ConfigureManned(s, id, cmd);
      case Mute(target, on) => MuteManned(s, target, on);
      case _ =>
    }
  }

  lemma DispatchManned(s: Session, id: Byte, input: Input)
    requires Inv(s) && Connected(s, id) && Manned(s)
    ensures Manned(Dispatch(s, id, input))
  {
    match input
    case Wire(m) => WireManned(s, id, m);
    case Cmd(c) => CommandManned(s, id, c);
  }

  lemma HeldManned(s: Session, id: Byte, input: Input, s': Session)
    requires Inv(s) && s.state in {Initialization, Shutdown} && Connected(s, id) && Manned(s) && s' == Dispatch(s, id, input)
    ensures Inv(s') && s'.state in {Initialization, Shutdown} && Manned(s')
  {
    Dispatches(s, id, input);
    DispatchManned(s, id, input);
  }

  lemma {:induction false} ReplayManned(s: Session, id: Byte, queue: seq<Input>, k: nat)
    requires Inv(s) && s.state in {Initialization, Shutdown} && k <= |queue| && Manned(s)
    ensures Manned(Replay(s, id, queue, k))
    decreases |queue| - k
  {
    if k < |queue| && Connected(s, id) {
      var s' := Dispatch(s, id, queue[k]);
      HeldManned(s, id, queue[k], s');
      ReplayManned(s', id, queue, k + 1);
    }
  }

  lemma UnlockManned(s: Session, id: int)
    requires Inv(s) && s.state == Initialization && Connected(s, id) && Manned(s)
    ensures Manned(Unlock(s, id))
  {
    var i := Index(s.clients, id);
    FreedClients(s.clients, i);
    var f := Freed(s, i);
    if HasOp(s.clients) {
      var k :| 0 <= k < |s.clients| && IsOp(s.clients[k]);
      assert IsOp(f.clients[k]);
    }
    ReplayManned(f, s.clients[i].id, s.clients[i].queue, 0);
  }

  lemma {:induction false} ReleaseManned(s: Session, snapshot: seq<Client>, k: nat)
    requires Inv(s) && s.state in {Initialization, Shutdown} && k <= |snapshot| && Manned(s)
    ensures Manned(Release(s, snapshot, k))
    decreases |snapshot| - k
  {
    if k < |snapshot| {
      if Connected(s, snapshot[k].id) {
        Unlocks(s, snapshot[k].id);
        UnlockManned(s, snapshot[k].id);
        ReleaseManned(Unlock(s, snapshot[k].id), snapshot, k + 1);
      } else {
        ReleaseManned(s, snapshot, k + 1);
      }
    }
  }

  lemma SwitchManned(s: Session)
    requires Inv(s) && Manned(s)
    ensures Manned(SwitchToRunning(s))
  {
    FinishesSameCrew(s);
    if s.state == Initialization {
      ReleaseManned(s.(initUser := -1), s.clients, 0);
    }
  }

  lemma MessageManned(s: Session, id: Byte, input: Input)
    requires Inv(s) && Connected(s, id) && Manned(s)
    ensures Manned(HandleMessage(s, id, input))
  {
    if input == Cmd(InitComplete) || input == Cmd(InitCancel) {
      ClearsStream(s);
      SwitchManned(if input == Cmd(InitCancel) then ClearStream(s) else s);
    } else {
      DispatchManned(s, id, input);
    }
  }

  lemma ReceiveManned(s: Session, id: Byte, input: Input)
    requires Inv(s) && Connected(s, id) && Manned(s)
    ensures Manned(Receive(s, id, input))
  {
    var i := Index(s.clients, id);
    if s.clients[i].held {
      if HasOp(s.clients) {
        var k :| 0 <= k < |s.clients| && IsOp(s.clients[k]);
        assert IsOp(Receive(s, id, input).clients[k]);
      }
    } else {
      MessageManned(s, id, Stamp(s, id, input));
    }
  }

  lemma JoinManned(s: Session, c: Client, trusted: bool, host: bool)
    requires Inv(s) && !s.deleted && IsNew(s, c) && (host ==> s.state == Initialization)
    ensures Manned(JoinUser(s, c, trusted, host))
  {
    var s1 := AddToHistory(Entered(s, c, host), c.join);
    Enters(s, c, host);
    Adds(Entered(s, c, host), c.join);
    Grants(s1, c.id);
    var s2 := if IsOp(c) || c.auth in s.authOps then Grant(s1, c.id) else s1;
    ChangesTrusted(s2, c.id);
    var s3 := if trusted || c.auth in s.authTrusted then ChangeTrusted(s2, c.id) else s2;
    EnsuresManned(s3);
  }

  lemma StepManned(s: Session, e: Event)
    requires Inv(s) && Enabled(s, e) && Manned(s) && !e.AdminOp?
    ensures Manned(Step(s, e))
  {
    match e
    case HostJoin(c, trusted) => JoinManned(s, c, trusted, true);
    case Join(c, trusted) => JoinManned(s, c, trusted, false);
    case Leave(id) => RemovesManned(s, id);
    case Recv(id, input) => ReceiveManned(s, id, input);
  }

  /** Over every run of joins, departures and client messages. */
  lemma {:induction false} OperatorExists(s: Session, events: seq<Event>)
    requires Inv(s) && Manned(s) && Runnable(s, events)
    requires forall i :: 0 <= i < |events| ==> !events[i].AdminOp?
    ensures Manned(Run(s, events))
    decreases |events|
  {
    if events != [] {
      StepKeeps(s, events[0]);
      StepManned(s, events[0]);
      OperatorExists(Step(s, events[0]), events[1..]);
    }
  }

  // ---- The admin interface ----

  lemma {:induction false} OpIdsOnly(clients: seq<Client>, n: nat, x: Byte)
    requires n <= |clients| && x in OpIds(clients, n)
    ensures exists i :: 0 <= i < n && IsOp(clients[i]) && clients[i].id == x
  {
    if x in OpIds(clients, n - 1) {
      OpIdsOnly(clients, n - 1, x);
    }
  }

  lemma {:induction false} OpIdsUnique(clients: seq<Client>, n: nat)
    requires Distinct(clients) && n <= |clients|
    ensures NoRepeats(OpIds(clients, n))
  {
    if n > 0 {
      OpIdsUnique(clients, n - 1);
      if clients[n - 1].id in OpIds(clients, n - 1) {
        OpIdsOnly(clients, n - 1, clients[n - 1].id);
      }
    }
  }

  lemma {:induction false} RemoveOneRemoves(ids: seq<Byte>, id: Byte, x: Byte)
    requires NoRepeats(ids)
    ensures x in RemoveOne(ids, id) <==> x in ids && x != id
  {
    if ids != [] && ids[0] != id {
      RemoveOneRemoves(ids[1..], id, x);
    }
  }

  /** The operator list without one of them takes the flag from exactly that one. */
  lemma RevokesOne(s: Session, i: nat, k: nat, ids: seq<Byte>)
    requires ClientsOk(s.clients) && i < |s.clients| && k < |s.clients|
    requires ids == RemoveOne(AllOpIds(s), s.clients[i].id)
    ensures k != i ==> SetOp(s.clients[k], ids) == s.clients[k]
    ensures s.clients[i].id !in ids
  {
    var all := AllOpIds(s);
    OpIdsUnique(s.clients, |s.clients|);
    RemoveOneRemoves(all, s.clients[i].id, s.clients[i].id);
    if k != i {
      RemoveOneRemoves(all, s.clients[i].id, s.clients[k].id);
      if IsOp(s.clients[k]) {
        OpIdsMember(s.clients, |s.clients|, k);
      } else if s.clients[k].id in all {
        OpIdsOnly(s.clients, |s.clients|, s.clients[k].id);
      }
    }
  }

  /** The remembered accounts once the flag of client i is gone. */
  function Forgotten(s: Session, i: nat): set<string>
    requires i < |s.clients|
  {
    if s.clients[i].auth == "" || s.clients[i].mod then s.authOps else s.authOps - {s.clients[i].auth}
  }

  lemma {:induction false} ForgetsOne(s: Session, i: nat, ids: seq<Byte>, n: nat)
    requires ClientsOk(s.clients) && i < |s.clients| && n <= |s.clients| && s.clients[i].op
    requires ids == RemoveOne(AllOpIds(s), s.clients[i].id)
    ensures RememberOps(s.authOps, s.clients, ids, n) == if i < n then Forgotten(s, i) else s.authOps
  {
    if n > 0 {
      ForgetsOne(s, i, ids, n - 1);
      RevokesOne(s, i, n - 1, ids);
    }
  }

  predicate Replaceable(s: Session, i: nat)
    requires i < |s.clients|
  {
    || s.clients[i].mod || s.hasOpword || Forgotten(s, i) != {}
    || exists k :: 0 <= k < |s.clients| && k != i && IsOp(s.clients[k])
  }

  lemma FlaggedManned(s: Session, i: nat, ids: seq<Byte>, f: Session)
    requires LogOk(s) && ClientsOk(s.clients) && i < |s.clients| && s.clients[i].op
    requires ids == RemoveOne(AllOpIds(s), s.clients[i].id) && f == FlagOps(s, ids)
    ensures Manned(f) <==> Replaceable(s, i)
  {
    FlagsOps(s, ids);
    ForgetsOne(s, i, ids, |s.clients|);
    forall k | 0 <= k < |s.clients|
      ensures IsOp(f.clients[k]) <==> if k == i then s.clients[i].mod else IsOp(s.clients[k])
    {
      RevokesOne(s, i, k, ids);
    }
  }

  lemma DeposedIff(s: Session, i: nat, ids: seq<Byte>)
    requires Inv(s) && i < |s.clients| && s.clients[i].op && ids == RemoveOne(AllOpIds(s), s.clients[i].id)
    ensures Deposed(s, ids) <==> s.state == Resetting && s.initUser == s.clients[i].id && !s.clients[i].mod
  {
    if s.state == Resetting {
      RevokesOne(s, i, Index(s.clients, s.initUser), ids);
    }
  }

  /** Taking the flag from an operator through the admin interface leaves the session manned exactly
      if that was not the last hope: the client is a moderator, is kicked because it was resetting
      (which appoints somebody else), or there is another operator, an opword or another remembered
      account. */
  lemma RevokeMannedIff(s: Session, id: Byte)
    requires Inv(s) && !s.deleted && Connected(s, id) && Get(s, id).op
    ensures Manned(Step(s, AdminOp(id, false))) <==>
              Replaceable(s, Index(s.clients, id)) || (s.state == Resetting && s.initUser == id)
  {
    var i := Index(s.clients, id);
    var ids := RemoveOne(AllOpIds(s), id);
    var f := FlagOps(s, ids);
    FlaggedManned(s, i, ids, f);
    DeposedIff(s, i, ids);
    if Deposed(s, ids) {
      DeposedManned(s, ids, f);
    }
    var (s', truelist) := UpdateOwnership(s, ids);
    AddsSameCrew(s', SessionOwner(truelist));
  }

  lemma DeposedManned(s: Session, ids: seq<Byte>, f: Session)
    requires Inv(s) && Deposed(s, ids) && f == FlagOps(s, ids)
    ensures Manned(RemoveUser(f, s.initUser))
  {
    FlagsOps(s, ids);
    HarmlessSound(s, f);
    SameIndex(s.clients, f.clients, s.initUser);
    RemovesManned(f, s.initUser);
  }

  /** A guest alone. */
  predicate LoneGuest(s: Session, id: Byte) {
    && |s.clients| == 1 && s.clients[0].id == id && s.clients[0].op && !s.clients[0].mod && s.clients[0].auth == ""
    && s.clients[0].queue == [] && !s.clients[0].held
    && !s.hasOpword && s.authOps == {}
  }

  /** A session that a guest can host. */
  predicate Fresh(s: Session, host: Client) {
    && Init(s) && s.state == Initialization && !s.hasOpword && s.authOps == {} && s.authTrusted == {}
    && IsNew(s, host) && !host.op && !host.mod && host.auth == ""
  }

  lemma HostBecomesOperator(s: Session, host: Client, s1: Session)
    requires Fresh(s, host) && s1 == AddToHistory(Entered(s, host, true), host.join)
    ensures LoneGuest(EnsureOperatorExists(s1), host.id) && EnsureOperatorExists(s1).initUser == host.id
    ensures EnsureOperatorExists(s1).state == Initialization && !EnsureOperatorExists(s1).deleted
  {
    var e := Entered(s, host, true);
    Adds(e, host.join);
    assert s1.clients == [host];
    GrantsLone(s1, host.id);
  }

  lemma GrantsLone(s: Session, id: Byte)
    requires LogOk(s) && |s.clients| == 1 && s.clients[0].id == id && !s.clients[0].op && !s.clients[0].mod
    requires s.clients[0].auth == "" && s.clients[0].queue == [] && !s.clients[0].held && !s.hasOpword && s.authOps == {}
    ensures LoneGuest(EnsureOperatorExists(s), id) && EnsureOperatorExists(s).initUser == s.initUser
    ensures EnsureOperatorExists(s).state == s.state && EnsureOperatorExists(s).deleted == s.deleted
  {
    assert !HasOp(s.clients);
    var ids := AllOpIds(s) + [id];
    var f := FlagOps(s, ids);
    Grants(s, id);
    assert f.clients[0] == SetOp(s.clients[0], ids);
    assert RememberOps(s.authOps, s.clients, ids, 0) == s.authOps;
    AddsSameCrew(f, SessionOwner(AllOpIds(f)));
    EnsuresOperator(s);
  }

  /** The guarantee does not extend to the admin interface: in every new session hosted by a guest, once
      the host has completed the upload, the only operator can lose the flag. */
  lemma AdminCanUnman(s: Session, host: Client)
    requires Fresh(s, host)
    ensures var events := [HostJoin(host, false)]
                          + ([Recv(host.id, Cmd(InitComplete))] + ([AdminOp(host.id, false)] + []));
            Runnable(s, events) && !Manned(Run(s, events))
  {
    var s1 := Step(s, HostJoin(host, false));
    InitInv(s);
    StepKeeps(s, HostJoin(host, false));
    HostBecomesOperator(s, host, AddToHistory(Entered(s, host, true), host.join));
    UnmannedByAdmin(s1, host.id);
    RunOn(s, HostJoin(host, false), [Recv(host.id, Cmd(InitComplete))] + ([AdminOp(host.id, false)] + []));
  }

  lemma UnmannedByAdmin(s: Session, id: Byte)
    requires Inv(s) && LoneGuest(s, id) && s.state == Initialization && s.initUser == id && !s.deleted
    ensures var events := [Recv(id, Cmd(InitComplete))] + ([AdminOp(id, false)] + []);
            Runnable(s, events) && !Manned(Run(s, events))
  {
    assert Index(s.clients, id) == 0;
    StepKeeps(s, Recv(id, Cmd(InitComplete)));
    StartsLone(s, id);
    var s' := Step(s, Recv(id, Cmd(InitComplete)));
    assert s' == StartSession(s);
    assert Index(s'.clients, id) == 0;
    RevokeMannedIff(s', id);
    RunOn(s', AdminOp(id, false), []);
    RunOn(s, Recv(id, Cmd(InitComplete)), [AdminOp(id, false)] + []);
  }

  lemma StartsLone(s: Session, id: Byte)
    requires LoneGuest(s, id) && s.state == Initialization
    ensures LoneGuest(StartSession(s), id) && StartSession(s).state == Running && StartSession(s).deleted == s.deleted
  {
    var s0 := s.(initUser := -1);
    assert Index(s0.clients, id) == 0;
    assert Unlock(s0, id) == Freed(s0, 0);
    assert Release(s0, s.clients, 0) == Release(Freed(s0, 0), s.clients, 1) == Freed(s0, 0);
  }

  // ---- Shutting down while starting ----

  /** A moderator who has joined a session that still initializes and asked for its shutdown. */
  predicate HeldKiller(s: Session, host: Byte, killer: Client) {
    && Inv(s) && s.state == Initialization && s.initUser == host && !s.deleted && |s.clients| == 2
    && s.clients[0].id == host && IsOp(s.clients[0]) && s.clients[0].queue == [] && !s.clients[0].held
    && s.clients[1].id == killer.id && s.clients[1].mod && s.clients[1].held
  }

  lemma ModeratorHeld(s: Session, host: Byte, killer: Client)
    requires Inv(s) && LoneGuest(s, host) && s.state == Initialization && s.initUser == host && !s.deleted
    requires IsNew(s, killer) && killer.mod
    ensures var s' := Step(s, Join(killer, false)); HeldKiller(s', host, killer) && s'.clients[1].queue == []
  {
    var e := Entered(s, killer, false);
    var s' := Step(s, Join(killer, false));
    StepKeeps(s, Join(killer, false));
    JoinsUser(s, killer, false, false);
    Enters(s, killer, false);
    Adds(e, killer.join);
    assert e.clients == [s.clients[0], killer.(held := true)];
    assert SameClient(e.clients[0], s'.clients[0]) && SameClient(e.clients[1], s'.clients[1]);
  }

  lemma KillQueued(s: Session, host: Byte, killer: Client)
    requires HeldKiller(s, host, killer) && s.clients[1].queue == []
    ensures Enabled(s, Recv(killer.id, Cmd(KillSession)))
    ensures var s' := Step(s, Recv(killer.id, Cmd(KillSession)));
            HeldKiller(s', host, killer) && s'.clients[1].queue == [Cmd(KillSession)]
  {
    IndexAt(s.clients, 1);
    assert [] + [Cmd(KillSession)] == [Cmd(KillSession)];
    StepKeeps(s, Recv(killer.id, Cmd(KillSession)));
  }

  lemma KilledAtStart(s: Session, host: Byte, killer: Client)
    requires HeldKiller(s, host, killer) && s.clients[1].queue == [Cmd(KillSession)]
    ensures Enabled(s, Recv(host, Cmd(InitComplete)))
    ensures var s' := Step(s, Recv(host, Cmd(InitComplete))); s'.state == Running && s'.deleted && s'.clients == []
  {
    IndexAt(s.clients, 0);
    KilledWhileStarting(s);
  }

  /** Shutdown is not the last state: a guest hosts a session, a moderator joins it and asks for its shutdown
      while it still initializes, the host completes the upload; the session is gone, and Running. */
  lemma KilledAndRunning(s: Session, host: Client, killer: Client)
    requires Fresh(s, host) && IsNew(s, killer) && killer.id != host.id && killer.mod
    ensures var events := [HostJoin(host, false)] + ([Join(killer, false)]
                          + ([Recv(killer.id, Cmd(KillSession))] + ([Recv(host.id, Cmd(InitComplete))] + [])));
            Runnable(s, events) && Run(s, events).state == Running && Run(s, events).deleted && Run(s, events).clients == []
  {
    InitInv(s);
    StepKeeps(s, HostJoin(host, false));
    HostBecomesOperator(s, host, AddToHistory(Entered(s, host, true), host.join));
    var s1 := Step(s, HostJoin(host, false));
    KilledAfterHost(s1, host.id, killer);
    RunOn(s, HostJoin(host, false),
          [Join(killer, false)] + ([Recv(killer.id, Cmd(KillSession))] + ([Recv(host.id, Cmd(InitComplete))] + [])));
  }

  lemma KilledAfterHost(s: Session, host: Byte, killer: Client)
    requires Inv(s) && LoneGuest(s, host) && s.state == Initialization && s.initUser == host && !s.deleted
    requires IsNew(s, killer) && killer.mod
    ensures var events := [Join(killer, false)] + ([Recv(killer.id, Cmd(KillSession))] + ([Recv(host, Cmd(InitComplete))] + []));
            Runnable(s, events) && Run(s, events).state == Running && Run(s, events).deleted && Run(s, events).clients == []
  {
    ModeratorHeld(s, host, killer);
    var s2 := Step(s, Join(killer, false));
    KillQueued(s2, host, killer);
    var s3 := Step(s2, Recv(killer.id, Cmd(KillSession)));
    KilledAtStart(s3, host, killer);
    RunOn(s3, Recv(host, Cmd(InitComplete)), []);
    RunOn(s2, Recv(killer.id, Cmd(KillSession)), [Recv(host, Cmd(InitComplete))] + []);
    RunOn(s, Join(killer, false), [Recv(killer.id, Cmd(KillSession))] + ([Recv(host, Cmd(InitComplete))] + []));
  }

  // ---- Without privileges ----

  /** Whoever is not an operator and does not know the opword cannot change the session other than by adding
      a message to the log and, as a deputy, by a kick. */
  lemma UnprivilegedOnlySpeaks(s: Session, id: Byte, input: Input)
    requires Inv(s) && Connected(s, id) && !IsOp(Get(s, id))
    requires input.Cmd? && input.c.Kick? ==> !IsDeputy(s, Get(s, id))
    requires s.hasOpword ==> input != Cmd(GainOp(true))
    ensures HandleMessage(s, id, input) == s || (input.Wire? && HandleMessage(s, id, input) == AddToHistory(s, input.m))
  {
    match input
    case Wire(m) =>
      assert s.initUser == id ==> s.state == Initialization;
    case Cmd(c) =>
      match c {
        case GainOp(correct) =>
        case _ =>
      }
  }

  /** Whoever is protected from a kick stays: moderators, the sender itself and, if the sender is only a
      deputy, operators and trusted users. */
  predicate Protected(s: Session, id: Byte, c: Client)
    requires Connected(s, id)
  {
    c.mod || c.id == id || (IsDeputy(s, Get(s, id)) && (IsOp(c) || c.trusted))
  }

  lemma KickSparesProtected(s: Session, id: Byte, target: Byte, i: nat)
    requires Inv(s) && Connected(s, id) && i < |s.clients| && Protected(s, id, s.clients[i])
    ensures s.clients[i].id in Ids(KickUser(s, id, target).clients)
  {
    var user := s.clients[i].id;
    assert user in Ids(s.clients);
    IndexAt(s.clients, i);
    if Connected(s, target) {
      RemovesFollows(s, target);
    }
  }
}
