/** The list of operators that the log has last, and when it agrees with the flags of the clients. */
module SessionListing {
  import opened Wrappers
  import opened Messages
  import opened SessionHistory
  import opened SessionModel
  import opened SessionSafety
  import opened SessionRuns
  import opened SessionOperators

  /** The newest list of operators in a log. */
  function Newest(ms: seq<Message>): seq<Byte> {
    if ms == [] then []
    else if ms[|ms| - 1].kind == MSG_SESSION_OWNER then ms[|ms| - 1].payload
    else Newest(ms[..|ms| - 1])
  }

  predicate NoOwners(ms: seq<Message>) {
    forall i :: 0 <= i < |ms| ==> ms[i].kind != MSG_SESSION_OWNER
  }

  lemma NewestSnoc(ms: seq<Message>, m: Message)
    ensures Newest(ms + [m]) == if m.kind == MSG_SESSION_OWNER then m.payload else Newest(ms)
  {
    assert (ms + [m])[..|ms|] == ms;
  }

  lemma {:induction false} NewestSkips(a: seq<Message>, b: seq<Message>)
    requires NoOwners(b)
    ensures Newest(a + b) == Newest(a)
  {
    if b == [] {
      assert a + b == a;
    } else {
      var b' := b[..|b| - 1];
      NewestSkips(a, b');
      assert a + b == (a + b') + [b[|b| - 1]];
      NewestSnoc(a + b', b[|b| - 1]);
    }
  }

  // ---- Agreement ----

  /** The list names exactly the operators among these clients. */
  predicate Names(clients: seq<Client>, ids: seq<Byte>) {
    forall i :: 0 <= i < |clients| ==> (IsOp(clients[i]) <==> clients[i].id in ids)
  }

  predicate Listed(s: Session) {
    Names(s.clients, Newest(s.hist.msgs))
  }

  /** Unless a list was refused since the last reset, the newest one is right; and none is waiting in the
      reset buffer. */
  predicate ListOk(s: Session) {
    (s.seen.unlisted || Listed(s)) && NoOwners(s.stream)
  }

  lemma TrueList(clients: seq<Client>)
    requires Distinct(clients)
    ensures Names(clients, OpIds(clients, |clients|))
  {
    forall i | 0 <= i < |clients|
      ensures IsOp(clients[i]) <==> clients[i].id in OpIds(clients, |clients|)
    {
      if IsOp(clients[i]) {
        OpIdsMember(clients, |clients|, i);
      } else if clients[i].id in OpIds(clients, |clients|) {
        OpIdsOnly(clients, |clients|, clients[i].id);
      }
    }
  }

  predicate SameOps(clients: seq<Client>, clients': seq<Client>) {
    && |clients'| == |clients|
    && forall i :: 0 <= i < |clients| ==> clients'[i].id == clients[i].id && IsOp(clients'[i]) == IsOp(clients[i])
  }

  /** Neither flags, list nor buffer change. */
  predicate SameList(s: Session, s': Session) {
    && SameOps(s.clients, s'.clients) && Newest(s'.hist.msgs) == Newest(s.hist.msgs)
    && s'.seen.unlisted == s.seen.unlisted && s'.stream == s.stream
  }

  lemma SameListOk(s: Session, s': Session)
    requires SameList(s, s') && ListOk(s)
    ensures ListOk(s')
  {
  }

  /** An append of anything but a list. */
  lemma LogsOther(s: Session, m: Message)
    requires LogOk(s) && m.kind != MSG_SESSION_OWNER
    ensures SameList(s, AddToHistory(s, m)) && AddToHistory(s, m).clients == s.clients
  {
    Adds(s, m);
    NewestSnoc(s.hist.msgs, m);
  }

  /** An append of a list that is right. */
  lemma LogsList(s: Session, m: Message)
    requires LogOk(s) && s.state != Shutdown && m.kind == MSG_SESSION_OWNER && Names(s.clients, m.payload) && NoOwners(s.stream)
    ensures ListOk(AddToHistory(s, m))
  {
    Adds(s, m);
    NewestSnoc(s.hist.msgs, m);
  }

  lemma GrantsList(s: Session, id: Byte)
    requires LogOk(s) && s.state != Shutdown && Distinct(s.clients) && NoOwners(s.stream)
    ensures ListOk(Grant(s, id))
  {
    var ids := AllOpIds(s) + [id];
    var f := FlagOps(s, ids);
    FlagsOps(s, ids);
    FlaggedStays(s, f, ids);
    TrueList(f.clients);
    LogsList(f, SessionOwner(AllOpIds(f)));
  }

  lemma FlaggedStays(s: Session, f: Session, ids: seq<Byte>)
    requires LogOk(s) && f == FlagOps(s, ids)
    ensures LogOk(f) && f.stream == s.stream && f.state == s.state && (Distinct(s.clients) ==> Distinct(f.clients))
  {
    FlagsOps(s, ids);
  }

  lemma EnsuresList(s: Session)
    requires LogOk(s) && s.state != Shutdown && Distinct(s.clients) && ListOk(s)
    ensures ListOk(EnsureOperatorExists(s))
  {
    if s.clients != [] {
      GrantsList(s, s.clients[0].id);
    }
  }

  lemma SendsList(s: Session)
    requires LogOk(s)
    ensures SameList(s, SendProperties(s))
  {
    LogsOther(s, Properties(s));
  }

  // ---- Resets ----

  lemma ListThenOthers(a: seq<Message>, owner: Message, b: seq<Message>, c: seq<Message>)
    requires owner.kind == MSG_SESSION_OWNER && NoOwners(b) && NoOwners(c)
    ensures Newest(a + [owner] + b + c) == owner.payload
  {
    NewestSnoc(a, owner);
    NewestSkips(a + [owner], b);
    NewestSkips(a + [owner] + b, c);
  }

  /** A reset image without a list of its own leaves the server's list as the newest. */
  lemma NewestOfImage(clients: seq<Client>, stream: seq<Message>)
    requires NoOwners(stream)
    ensures Newest(ServerSide(clients) + stream) == OpIds(clients, |clients|)
  {
    var trusted := if TrustedIds(clients, |clients|) == [] then [] else [TrustedUsers(TrustedIds(clients, |clients|))];
    ListThenOthers(Joins(clients, |clients|), SessionOwner(OpIds(clients, |clients|)), trusted, stream);
  }

  lemma FinishesList(s: Session)
    requires Sound(s) && s.state == Resetting && ListOk(s)
    ensures ListOk(FinishReset(s))
  {
    if Installs(s) {
      var r := Reinstalled(s);
      NewestOfImage(s.clients, s.stream);
      TrueList(s.clients);
      Installing(s, r);
      SendsList(r);
    }
  }

  // ---- Leaving ----

  lemma WithoutNames(clients: seq<Client>, i: nat, ids: seq<Byte>)
    requires i < |clients| && Names(clients, ids)
    ensures Names(Without(clients, i), ids)
  {
    WithoutAt(clients, i);
  }

  lemma DepartsList(s: Session, id: int)
    requires Removable(s, id) && ListOk(s)
    ensures ListOk(Departed(s, id))
  {
    DepartedFrame(s, id);
    if Listed(s) {
      WithoutNames(s.clients, Index(s.clients, id), Newest(s.hist.msgs));
    }
  }

  lemma RemovesList(s: Session, id: int)
    requires Removable(s, id) && ListOk(s)
    ensures ListOk(RemoveUser(s, id))
  {
    var d := Departed(s, id);
    var m := UserLeave(Get(s, id).id);
    DepartsList(s, id);
    LeavesList(s, id, d, m);
    var a := AddToHistory(d, m);
    EnsuresList(a);
    EnsuresOperator(a);
    var e := EnsureOperatorExists(a);
    if e.clients == [] && e.closed {
      SendsList(e.(closed := false));
    }
  }

  lemma LeavesList(s: Session, id: int, d: Session, m: Message)
    requires Removable(s, id) && d == Departed(s, id) && ListOk(d) && m == UserLeave(Get(s, id).id)
    ensures var a := AddToHistory(d, m);
            ListOk(a) && LogOk(a) && a.state != Shutdown && Distinct(a.clients)
  {
    DepartedSound(s, id);
    DepartedFrame(s, id);
    LogsOther(d, m);
    Adds(d, m);
  }

  // ---- Client messages ----

  /** Nobody has to be appointed among these clients. */
  predicate NoneNeeded(s: Session, clients: seq<Client>) {
    s.hasOpword || s.authOps != {} || HasOp(clients) || clients == []
  }

  lemma KickKeepsFlags(s: Session, id: int)
    requires Removable(s, id) && NoneNeeded(s, Without(s.clients, Index(s.clients, id)))
    ensures RemoveUser(s, id).clients == Without(s.clients, Index(s.clients, id))
  {
    var d := Departed(s, id);
    var m := UserLeave(Get(s, id).id);
    DepartedFrame(s, id);
    DepartedSound(s, id);
    LogsOther(d, m);
    AddsSameCrew(d, m);
    var a := AddToHistory(d, m);
    assert EnsureOperatorExists(a) == a;
    if a.clients == [] && a.closed {
      AddsSameCrew(a.(closed := false), Properties(a.(closed := false)));
    }
  }

  lemma StillThere(clients: seq<Client>, i: nat, p: nat)
    requires i < |clients| && p < |clients| && p != i && IsOp(clients[p])
    ensures HasOp(Without(clients, i))
  {
    assert Without(clients, i)[if p < i then p else p - 1] == clients[p];
  }

  /** What changing the operators leaves, if somebody who stays one asks for it: the list is right for the
      clients that are left. */
  lemma OwnershipNames(s: Session, ids: seq<Byte>, id: Byte)
    requires Inv(s) && !s.deleted && Connected(s, id) && id in ids && (s.state == Resetting ==> s.initUser != id) && NoOwners(s.stream)
    ensures var (s', list) := UpdateOwnership(s, ids);
            && Names(s'.clients, list) && NoOwners(s'.stream) && LogOk(s') && s'.state != Shutdown
            && !(s'.state == Resetting && s'.initUser == id)
  {
    var f := FlagOps(s, ids);
    FlagsOps(s, ids);
    FlaggedStays(s, f, ids);
    TrueList(f.clients);
    UpdatesOwnership(s, ids);
    if Deposed(s, ids) {
      var p := Index(s.clients, id);
      HarmlessSound(s, f);
      SameIndex(s.clients, f.clients, s.initUser);
      SameIndex(s.clients, f.clients, id);
      assert IsOp(f.clients[p]);
      StillThere(f.clients, Index(f.clients, s.initUser), p);
      KickKeepsFlags(f, s.initUser);
      WithoutNames(f.clients, Index(f.clients, s.initUser), AllOpIds(f));
    }
  }

  lemma OwnerKeepsList(s: Session, id: Byte, m: Message)
    requires Inv(s) && !s.deleted && Connected(s, id) && ListOk(s) && m.kind == MSG_SESSION_OWNER
    requires s.state == Resetting ==> s.initUser != id
    ensures ListOk(HandleWire(s, id, m))
  {
    if IsOp(Get(s, id)) {
      var (s', ids) := UpdateOwnership(s, m.payload + [id]);
      OwnershipNames(s, m.payload + [id], id);
      UpdatesOwnership(s, m.payload + [id]);
      LogsList(s', m.(payload := ids));
    }
  }

  /** Any other message, logged or uploaded. */
  lemma RouteKeepsList(s: Session, id: Byte, m: Message)
    requires Inv(s) && !s.deleted && ListOk(s) && m.kind != MSG_SESSION_OWNER && !IsPresence(m)
    ensures ListOk(Route(s, id, m))
  {
    LogsOther(s, m);
    if s.initUser == id && s.state == Resetting {
      BuffersOne(s, m);
      var b := Buffered(s, m);
      assert ListOk(b);
      if s.hist.limit > 0 && b.streamSize > s.hist.limit {
        RemovesList(b, s.initUser);
      }
    } else {
      SameListOk(s, AddToHistory(s, m));
    }
  }

  lemma TrustKeepsFlags(s: Session, ids: seq<Byte>)
    ensures SameList(s, UpdateTrusted(s, ids))
  {
  }

  lemma WireKeepsList(s: Session, id: Byte, m: Message)
    requires Inv(s) && !s.deleted && Connected(s, id) && ListOk(s)
    requires s.state == Resetting && s.initUser == id ==> m.kind != MSG_SESSION_OWNER
    ensures ListOk(HandleWire(s, id, m))
  {
    if m.kind == MSG_SESSION_OWNER {
      OwnerKeepsList(s, id, m);
    } else if m.kind == MSG_TRUSTED_USERS && IsOp(Get(s, id)) {
      var s' := UpdateTrusted(s, m.payload);
      TrustKeepsFlags(s, m.payload);
      SameListOk(s, s');
      UpdatesTrusted(s, m.payload);
      HarmlessInv(s, s');
      RouteKeepsList(s', id, m.(payload := TrustedIds(s'.clients, |s'.clients|)));
    } else if !IsPresence(m) {
      RouteKeepsList(s, id, m);
    }
  }

  lemma MuteKeepsFlags(s: Session, target: Byte, on: bool)
    ensures SameList(s, SetMute(s, target, on))
  {
  }

  lemma ConfigureKeepsList(s: Session, c: Command)
    requires LogOk(s) && c.SessionConf? && ListOk(s)
    ensures ListOk(Configure(s, c))
  {
    var s' := Configured(s, c);
    assert LogOk(s') by {
      Configures(s, c);
    }
    SendsList(s');
  }

  lemma CommandKeepsList(s: Session, id: Byte, cmd: Command)
    requires Inv(s) && !s.deleted && Connected(s, id) && ListOk(s)
    ensures ListOk(HandleCommand(s, id, cmd))
  {
    if Allowed(s, Get(s, id), cmd) {
      match cmd
      case Kick(target) => if Connected(s, target) { RemovesList(s, target); }
      case GainOp(_) => GrantsList(s, id);
      case SessionConf(_, _, _, _, _) => ConfigureKeepsList(s, cmd);
      case Mute(target, on) => MuteKeepsFlags(s, target, on); SameListOk(s, SetMute(s, target, on));
      case _ =>
    }
  }

  /** A list that the resetter uploads is the one thing a client can send that breaks the agreement. */
  predicate UploadsList(s: Session, id: Byte, input: Input) {
    s.state == Resetting && s.initUser == id && input.Wire? && input.m.kind == MSG_SESSION_OWNER
  }

  lemma DispatchKeepsList(s: Session, id: Byte, input: Input)
    requires Inv(s) && !s.deleted && Connected(s, id) && ListOk(s) && !UploadsList(s, id, input)
    ensures ListOk(Dispatch(s, id, input))
  {
    match input
    case Wire(m) => WireKeepsList(s, id, m);
    case Cmd(c) => CommandKeepsList(s, id, c);
  }

  // ---- Leaving Initialization ----

  lemma HeldKeepsList(s: Session, id: Byte, input: Input, s': Session)
    requires Inv(s) && s.state in {Initialization, Shutdown} && Connected(s, id) && ListOk(s) && s' == Dispatch(s, id, input)
    ensures Inv(s') && s'.state in {Initialization, Shutdown} && ListOk(s')
  {
    Dispatches(s, id, input);
    DispatchKeepsList(s, id, input);
  }

  lemma {:induction false} ReplayKeepsList(s: Session, id: Byte, queue: seq<Input>, k: nat)
    requires Inv(s) && s.state in {Initialization, Shutdown} && k <= |queue| && ListOk(s)
    ensures ListOk(Replay(s, id, queue, k))
    decreases |queue| - k
  {
    if k < |queue| && Connected(s, id) {
      var s' := Dispatch(s, id, queue[k]);
      HeldKeepsList(s, id, queue[k], s');
      ReplayKeepsList(s', id, queue, k + 1);
    }
  }

  lemma UnlockKeepsList(s: Session, id: int)
    requires Inv(s) && s.state == Initialization && Connected(s, id) && ListOk(s)
    ensures ListOk(Unlock(s, id))
  {
    var i := Index(s.clients, id);
    FreedClients(s.clients, i);
    var f := Freed(s, i);
    assert SameList(s, f);
    ReplayKeepsList(f, s.clients[i].id, s.clients[i].queue, 0);
  }

  lemma {:induction false} ReleaseKeepsList(s: Session, snapshot: seq<Client>, k: nat)
    requires Inv(s) && s.state in {Initialization, Shutdown} && k <= |snapshot| && ListOk(s)
    ensures ListOk(Release(s, snapshot, k))
    decreases |snapshot| - k
  {
    if k < |snapshot| {
      if Connected(s, snapshot[k].id) {
        Unlocks(s, snapshot[k].id);
        UnlockKeepsList(s, snapshot[k].id);
        ReleaseKeepsList(Unlock(s, snapshot[k].id), snapshot, k + 1);
      } else {
        ReleaseKeepsList(s, snapshot, k + 1);
      }
    }
  }

  lemma SwitchKeepsList(s: Session)
    requires Inv(s) && s.state in {Initialization, Resetting} && ListOk(s)
    ensures ListOk(SwitchToRunning(s))
  {
    if s.state == Initialization {
      ReleaseKeepsList(s.(initUser := -1), s.clients, 0);
    } else {
      FinishesList(s);
    }
  }

  // ---- Steps ----

  lemma MessageKeepsList(s: Session, id: Byte, input: Input)
    requires Inv(s) && !s.deleted && Connected(s, id) && ListOk(s) && !UploadsList(s, id, input)
    ensures ListOk(HandleMessage(s, id, input))
  {
    if input == Cmd(InitComplete) || input == Cmd(InitCancel) {
      if IsOp(Get(s, id)) && s.initUser == id {
        ClearsStream(s);
        SwitchKeepsList(if input == Cmd(InitCancel) then ClearStream(s) else s);
      }
    } else {
      DispatchKeepsList(s, id, input);
    }
  }

  lemma ReceiveKeepsList(s: Session, id: Byte, input: Input)
    requires Inv(s) && !s.deleted && Connected(s, id) && ListOk(s) && !UploadsList(s, id, input)
    ensures ListOk(Receive(s, id, input))
  {
    var i := Index(s.clients, id);
    if s.clients[i].held {
      assert SameList(s, Queued(s, i, Stamp(s, id, input)));
    } else {
      MessageKeepsList(s, id, Stamp(s, id, input));
    }
  }

  /** A client that comes in without the flag, under an id that the newest list still has. */
  predicate Relisted(s: Session, c: Client) {
    !IsOp(c) && c.auth !in s.authOps && c.id in Newest(s.hist.msgs)
  }

  lemma EntersListed(s: Session, c: Client, host: bool)
    requires ListOk(s) && (s.seen.unlisted || (IsOp(c) <==> c.id in Newest(s.hist.msgs)))
    ensures ListOk(Entered(s, c, host))
  {
    if !s.seen.unlisted {
      var e := Entered(s, c, host);
      forall i | 0 <= i < |e.clients|
        ensures IsOp(e.clients[i]) <==> e.clients[i].id in Newest(s.hist.msgs)
      {
        if i < |s.clients| {
          assert e.clients[i] == s.clients[i];
        }
      }
    }
  }

  lemma JoinKeepsList(s: Session, c: Client, trusted: bool, host: bool)
    requires Inv(s) && !s.deleted && IsNew(s, c) && (host ==> s.state == Initialization) && ListOk(s) && !Relisted(s, c)
    ensures ListOk(JoinUser(s, c, trusted, host))
  {
    var e := Entered(s, c, host);
    Enters(s, c, host);
    Adds(e, c.join);
    LogsOther(e, c.join);
    var s1 := AddToHistory(e, c.join);
    var s2 := if IsOp(c) || c.auth in s.authOps then Grant(s1, c.id) else s1;
    Grants(s1, c.id);
    if IsOp(c) || c.auth in s.authOps {
      GrantsList(s1, c.id);
      SameIds(s1.clients, s2.clients);
    } else {
      EntersListed(s, c, host);
      SameListOk(e, s1);
    }
    WelcomeKeepsList(s2, c.id, trusted || c.auth in s.authTrusted);
  }

  lemma WelcomeKeepsList(s: Session, id: Byte, trust: bool)
    requires LogOk(s) && s.state != Shutdown && ClientsOk(s.clients) && ListOk(s)
    ensures ListOk(EnsureOperatorExists(if trust then ChangeTrusted(s, id) else s))
  {
    if trust {
      var ids := TrustedIds(s.clients, |s.clients|) + [id];
      var t := UpdateTrusted(s, ids);
      TrustKeepsFlags(s, ids);
      SameListOk(s, t);
      UpdatesTrusted(s, ids);
      LogsOther(t, TrustedUsers(TrustedIds(t.clients, |t.clients|)));
      SameListOk(t, ChangeTrusted(s, id));
      ChangesTrusted(s, id);
      SameIds(s.clients, ChangeTrusted(s, id).clients);
      EnsuresList(ChangeTrusted(s, id));
    } else {
      EnsuresList(s);
    }
  }

  /** The only operator, in the middle of a reset, with others who would have to be appointed. */
  predicate LoneResetter(s: Session, i: nat)
    requires i < |s.clients|
  {
    s.state == Resetting && s.initUser == s.clients[i].id && !Replaceable(s, i) && |s.clients| > 1
  }

  lemma RevokeNames(s: Session, i: nat, ids: seq<Byte>)
    requires Inv(s) && !s.deleted && i < |s.clients| && s.clients[i].op && NoOwners(s.stream) && !LoneResetter(s, i)
    requires ids == RemoveOne(AllOpIds(s), s.clients[i].id)
    ensures var (s', list) := UpdateOwnership(s, ids);
            Names(s'.clients, list) && NoOwners(s'.stream) && LogOk(s') && s'.state != Shutdown
  {
    var f := FlagOps(s, ids);
    FlagsOps(s, ids);
    FlaggedStays(s, f, ids);
    TrueList(f.clients);
    UpdatesOwnership(s, ids);
    DeposedIff(s, i, ids);
    if Deposed(s, ids) {
      HarmlessSound(s, f);
      SameIndex(s.clients, f.clients, s.initUser);
      IndexAt(s.clients, i);
      KickedNeedsNone(s, i, ids, f);
      KickKeepsFlags(f, s.initUser);
      WithoutNames(f.clients, i, AllOpIds(f));
    }
  }

  lemma KickedNeedsNone(s: Session, i: nat, ids: seq<Byte>, f: Session)
    requires Inv(s) && i < |s.clients| && s.clients[i].op && !s.clients[i].mod && (Replaceable(s, i) || |s.clients| == 1)
    requires ids == RemoveOne(AllOpIds(s), s.clients[i].id) && f == FlagOps(s, ids)
    ensures NoneNeeded(f, Without(f.clients, i))
  {
    ForgetsOne(s, i, ids, |s.clients|);
    if k :| 0 <= k < |s.clients| && k != i && IsOp(s.clients[k]) {
      RevokesOne(s, i, k, ids);
      StillThere(f.clients, i, k);
    }
  }

  lemma RevokeKeepsList(s: Session, id: Byte)
    requires Inv(s) && !s.deleted && Connected(s, id) && Get(s, id).op && ListOk(s) && !LoneResetter(s, Index(s.clients, id))
    ensures ListOk(Revoke(s, id))
  {
    var ids := RemoveOne(AllOpIds(s), id);
    RevokeNames(s, Index(s.clients, id), ids);
    LogsList(UpdateOwnership(s, ids).0, SessionOwner(UpdateOwnership(s, ids).1));
  }

  /** What must not happen: a resetter uploads a list, a client comes back under a listed id without the flag,
      or the admin interface deprives the only operator in the middle of a reset. */
  predicate Orderly(s: Session, e: Event)
    requires Enabled(s, e)
  {
    match e
    case HostJoin(c, _) => !Relisted(s, c)
    case Join(c, _) => !Relisted(s, c)
    case Leave(_) => true
    case Recv(id, input) => !UploadsList(s, id, input)
    case AdminOp(id, op) => op || !LoneResetter(s, Index(s.clients, id))
  }

  lemma StepKeepsList(s: Session, e: Event)
    requires Inv(s) && Enabled(s, e) && Orderly(s, e) && ListOk(s)
    ensures ListOk(Step(s, e))
  {
    match e
    case HostJoin(c, trusted) => JoinKeepsList(s, c, trusted, true);
    case Join(c, trusted) => JoinKeepsList(s, c, trusted, false);
    case Leave(id) => RemovesList(s, id);
    case Recv(id, input) => ReceiveKeepsList(s, id, input);
    case AdminOp(id, op) =>
      if Get(s, id).op != op {
        if op {
          GrantsList(s, id);
        } else {
          RevokeKeepsList(s, id);
        }
      }
  }

  predicate OrderlyRun(s: Session, events: seq<Event>)
    requires Runnable(s, events)
    decreases |events|
  {
    events == [] || (Orderly(s, events[0]) && OrderlyRun(Step(s, events[0]), events[1..]))
  }

  lemma {:induction false} RunKeepsList(s: Session, events: seq<Event>)
    requires Inv(s) && Runnable(s, events) && OrderlyRun(s, events) && ListOk(s)
    ensures ListOk(Run(s, events))
    decreases |events|
  {
    if events != [] {
      StepKeeps(s, events[0]);
      StepKeepsList(s, events[0]);
      RunKeepsList(Step(s, events[0]), events[1..]);
    }
  }

  /** Over every orderly run: unless a list was refused since the last reset, the newest list of operators in
      the log names exactly the operators among the connected clients. */
  lemma OperatorsListed(s: Session, events: seq<Event>)
    requires Init(s) && Runnable(s, events) && OrderlyRun(s, events) && !Run(s, events).seen.unlisted
    ensures Listed(Run(s, events))
  {
    InitInv(s);
    RunKeepsList(s, events);
  }

  // ---- Each of the conditions is needed ----

  /** A wrong list: it lacks an operator, or has somebody who is none. */
  lemma NotNamed(clients: seq<Client>, ids: seq<Byte>, i: nat)
    requires i < |clients| && (IsOp(clients[i]) <==> clients[i].id !in ids)
    ensures !Names(clients, ids)
  {
  }

  /** A resetter's list takes effect, but is only buffered. */
  lemma ListIsBuffered(s: Session, r: Byte, m: Message, f: Session)
    requires Inv(s) && s.state == Resetting && s.initUser == r && s.hist.limit == 0 && m.kind == MSG_SESSION_OWNER
    requires f == FlagOps(s, m.payload + [r])
    ensures Enabled(s, Recv(r, Wire(m)))
    ensures Step(s, Recv(r, Wire(m))) == Buffered(f, m.(payload := AllOpIds(f)))
  {
    NobodyHeld(s, Index(s.clients, r));
    FlagsOps(s, m.payload + [r]);
    assert !Deposed(s, m.payload + [r]);
  }

  /** If the reset is then cancelled, the list is lost: any client that was no operator before has the flag and
      is not on the newest list. */
  lemma UploadedListLost(s: Session, r: Byte, x: nat)
    requires Inv(s) && s.state == Resetting && s.initUser == r && s.hist.limit == 0 && Listed(s)
    requires x < |s.clients| && !IsOp(s.clients[x])
    ensures var upload := Recv(r, Wire(Message(MSG_SESSION_OWNER, r, [s.clients[x].id])));
            && Enabled(s, upload) && Enabled(Step(s, upload), Recv(r, Cmd(InitCancel)))
            && !Listed(Step(Step(s, upload), Recv(r, Cmd(InitCancel))))
  {
    var m := Message(MSG_SESSION_OWNER, r, [s.clients[x].id]);
    var f := FlagOps(s, m.payload + [r]);
    ListIsBuffered(s, r, m, f);
    FlagsOps(s, m.payload + [r]);
    var s1 := Step(s, Recv(r, Wire(m)));
    StepKeeps(s, Recv(r, Wire(m)));
    CancelKeepsLog(s1, r);
    assert IsOp(f.clients[x]);
    NotNamed(f.clients, Newest(s.hist.msgs), x);
  }

  lemma CancelKeepsLog(s: Session, r: Byte)
    requires Inv(s) && s.state == Resetting && s.initUser == r
    ensures Enabled(s, Recv(r, Cmd(InitCancel)))
    ensures var s' := Step(s, Recv(r, Cmd(InitCancel))); s'.hist == s.hist && s'.clients == s.clients
  {
    NobodyHeld(s, Index(s.clients, r));
    FinishesEmpty(s);
  }

  /** If the reset succeeds instead, the newest list is the buffered one; so what is installed agrees with the
      flags exactly if that list does at the end. */
  lemma InstalledListDecides(s: Session, before: seq<Message>, list: Message, rest: seq<Message>)
    requires Inv(s) && s.state == Resetting && Installs(s) && s.stream == before + [list] + rest
    requires list.kind == MSG_SESSION_OWNER && NoOwners(rest)
    ensures Newest(FinishReset(s).hist.msgs) == list.payload
    ensures Listed(FinishReset(s)) <==> Names(s.clients, list.payload)
  {
    var r := Reinstalled(s);
    var server := ServerSide(s.clients);
    assert server + s.stream == (server + before) + [list] + rest + [];
    ListThenOthers(server + before, list, rest, []);
    Installing(s, r);
    SendsList(r);
    Finishes(s);
  }

  /** So if, after the upload of a list, another operator makes somebody an operator, the successful reset
      brings the old list back. */
  lemma OldListComesBack(s: Session, r: Byte, p: nat, x: nat)
    requires Inv(s) && s.state == Resetting && s.initUser == r && s.hist.limit == 0 && s.stream == []
    requires p < |s.clients| && x < |s.clients| && IsOp(s.clients[p]) && !IsOp(s.clients[x]) && s.clients[p].id != r
    ensures var upload := Recv(r, Wire(Message(MSG_SESSION_OWNER, r, AllOpIds(s))));
            && Enabled(s, upload)
            && var s1 := Step(s, upload);
            var promote := Recv(s.clients[p].id, Wire(Message(MSG_SESSION_OWNER, r, AllOpIds(s) + [s.clients[x].id])));
            && Enabled(s1, promote)
            && var s2 := Step(s1, promote);
            && Enabled(s2, Recv(r, Cmd(InitComplete)))
            && !Listed(Step(s2, Recv(r, Cmd(InitComplete))))
            && Step(s2, Recv(r, Cmd(InitComplete))).seen.resets == s.seen.resets + 1
  {
    var m := Message(MSG_SESSION_OWNER, r, AllOpIds(s));
    var f := FlagOps(s, m.payload + [r]);
    ListIsBuffered(s, r, m, f);
    SameFlags(s, r, f);
    var s1 := Buffered(f, m);
    StepKeeps(s, Recv(r, Wire(m)));
    PromotesMeanwhile(s1, r, p, x, AllOpIds(s), m);
  }

  /** Listing exactly the operators changes nothing. */
  lemma SameFlags(s: Session, r: Byte, f: Session)
    requires Inv(s) && s.state == Resetting && s.initUser == r && f == FlagOps(s, AllOpIds(s) + [r])
    ensures f.clients == s.clients && AllOpIds(f) == AllOpIds(s)
  {
    TrueList(s.clients);
    FlagsOps(s, AllOpIds(s) + [r]);
    forall i | 0 <= i < |s.clients|
      ensures f.clients[i] == s.clients[i]
    {
      if s.clients[i].id == r {
        IndexAt(s.clients, i);
      }
    }
  }

  lemma PromotesMeanwhile(s: Session, r: Byte, p: nat, x: nat, ids: seq<Byte>, m: Message)
    requires Inv(s) && s.state == Resetting && s.initUser == r && s.hist.limit == 0 && s.stream == [m]
    requires ids == AllOpIds(s) && m.payload == ids && m.kind == MSG_SESSION_OWNER
    requires p < |s.clients| && x < |s.clients| && IsOp(s.clients[p]) && !IsOp(s.clients[x]) && s.clients[p].id != r
    ensures var promote := Recv(s.clients[p].id, Wire(Message(MSG_SESSION_OWNER, r, ids + [s.clients[x].id])));
            && Enabled(s, promote)
            && var s2 := Step(s, promote);
            && Enabled(s2, Recv(r, Cmd(InitComplete)))
            && !Listed(Step(s2, Recv(r, Cmd(InitComplete))))
            && Step(s2, Recv(r, Cmd(InitComplete))).seen.resets == s.seen.resets + 1
  {
    var id := s.clients[p].id;
    var m2 := Message(MSG_SESSION_OWNER, id, ids + [s.clients[x].id]);
    IndexAt(s.clients, p);
    NobodyHeld(s, p);
    var f := FlagOps(s, m2.payload + [id]);
    TrueList(s.clients);
    FlagsOps(s, m2.payload + [id]);
    assert !Deposed(s, m2.payload + [id]);
    var s2 := AddToHistory(f, m2.(payload := AllOpIds(f)));
    assert Step(s, Recv(id, Wire(m2.(ctx := r)))) == s2;
    StepKeeps(s, Recv(id, Wire(m2.(ctx := r))));
    Adds(f, m2.(payload := AllOpIds(f)));
    CompletesStale(s2, r, x, m);
  }

  lemma CompletesStale(s: Session, r: Byte, x: nat, m: Message)
    requires Inv(s) && s.state == Resetting && s.initUser == r && s.hist.limit == 0 && s.stream == [m]
    requires m.kind == MSG_SESSION_OWNER && x < |s.clients| && IsOp(s.clients[x]) && s.clients[x].id !in m.payload
    ensures Enabled(s, Recv(r, Cmd(InitComplete))) && !Listed(Step(s, Recv(r, Cmd(InitComplete))))
    ensures Step(s, Recv(r, Cmd(InitComplete))).seen.resets == s.seen.resets + 1
  {
    NobodyHeld(s, Index(s.clients, r));
    assert [] + [m] + [] == [m];
    InstalledListDecides(s, [], m, []);
    NotNamed(s.clients, m.payload, x);
    ResetOutcome(s, ServerSide(s.clients) + s.stream);
  }

  /** A client that comes back under a listed id without the flag is on the newest list all the same. */
  lemma RelistedJoins(s: Session, c: Client)
    requires Inv(s) && Enabled(s, Join(c, false)) && Relisted(s, c) && HasOp(s.clients) && c.auth !in s.authTrusted
    ensures !Listed(Step(s, Join(c, false)))
  {
    var e := Entered(s, c, false);
    Enters(s, c, false);
    LogsOther(e, c.join);
    var k :| 0 <= k < |s.clients| && IsOp(s.clients[k]);
    assert e.clients[k] == s.clients[k];
    assert HasOp(e.clients);
    NotNamed(e.clients, Newest(s.hist.msgs), |s.clients|);
  }

  /** Without the only operator, nobody has the flag, and there is no other way to get it. */
  lemma NobodyLeft(s: Session, i: nat, ids: seq<Byte>, f: Session)
    requires Inv(s) && i < |s.clients| && s.clients[i].op && !Replaceable(s, i)
    requires ids == RemoveOne(AllOpIds(s), s.clients[i].id) && f == FlagOps(s, ids)
    ensures !f.hasOpword && f.authOps == {} && !HasOp(f.clients) && AllOpIds(f) == []
  {
    FlagsOps(s, ids);
    ForgetsOne(s, i, ids, |s.clients|);
    forall k | 0 <= k < |s.clients|
      ensures !IsOp(f.clients[k])
    {
      RevokesOne(s, i, k, ids);
    }
    if AllOpIds(f) != [] {
      OpIdsOnly(f.clients, |f.clients|, AllOpIds(f)[0]);
    }
  }

  lemma EmptyListIsWrong(s: Session)
    requires LogOk(s) && s.state != Shutdown && s.hist.limit == 0 && s.clients != [] && IsOp(s.clients[0])
    ensures !Listed(AddToHistory(s, SessionOwner([])))
  {
    Adds(s, SessionOwner([]));
    NewestSnoc(s.hist.msgs, SessionOwner([]));
    NotNamed(s.clients, [], 0);
  }

  lemma Appoints(s: Session)
    requires LogOk(s) && !s.hasOpword && s.authOps == {} && !HasOp(s.clients) && s.clients != []
    ensures EnsureOperatorExists(s).clients != [] && IsOp(EnsureOperatorExists(s).clients[0])
  {
    Grants(s, s.clients[0].id);
  }

  lemma DepartedUnmanned(s: Session, id: int, d: Session)
    requires Removable(s, id) && d == Departed(s, id)
    requires !s.hasOpword && s.authOps == {} && !HasOp(s.clients) && |s.clients| > 1
    ensures LogOk(d) && !d.hasOpword && d.authOps == {} && !HasOp(d.clients) && d.clients != []
  {
    DepartedFrame(s, id);
    WithoutAt(s.clients, Index(s.clients, id));
  }

  lemma KickAppoints(s: Session, id: int)
    requires Removable(s, id) && !s.hasOpword && s.authOps == {} && !HasOp(s.clients) && |s.clients| > 1
    ensures RemoveUser(s, id).clients != [] && IsOp(RemoveUser(s, id).clients[0])
  {
    var d := Departed(s, id);
    var m := UserLeave(Get(s, id).id);
    DepartedUnmanned(s, id, d);
    AddsOk(d, m);
    AddsSameCrew(d, m);
    Appoints(AddToHistory(d, m));
  }

  lemma FlaggedRemovable(s: Session, f: Session, id: Byte)
    requires Inv(s) && s.state == Resetting && s.initUser == id && Harmless(s, f)
    ensures Removable(f, id) && |f.clients| == |s.clients|
  {
    HarmlessSound(s, f);
    SameIndex(s.clients, f.clients, id);
  }

  lemma RevokeKicks(s: Session, id: Byte, ids: seq<Byte>, f: Session)
    requires Enabled(s, AdminOp(id, false)) && Get(s, id).op && s.initUser == id
    requires ids == RemoveOne(AllOpIds(s), id) && f == FlagOps(s, ids) && Deposed(s, ids)
    ensures Step(s, AdminOp(id, false)) == AddToHistory(RemoveUser(f, id), SessionOwner(AllOpIds(f)))
  {
  }

  /** If the admin interface deprives the only operator in the middle of its reset, the kick appoints somebody
      else, and the list that is logged last has nobody. */
  lemma DeprivedInReset(s: Session, id: Byte)
    requires Inv(s) && !s.deleted && s.hist.limit == 0 && Connected(s, id) && Get(s, id).op && LoneResetter(s, Index(s.clients, id))
    ensures !Listed(Step(s, AdminOp(id, false)))
  {
    var i := Index(s.clients, id);
    var ids := RemoveOne(AllOpIds(s), id);
    var f := FlagOps(s, ids);
    assert Deposed(s, ids) by {
      DeposedIff(s, i, ids);
    }
    assert Removable(f, id) && |f.clients| > 1 && f.hist.limit == 0 by {
      FlagsOps(s, ids);
      FlaggedRemovable(s, f, id);
    }
    NobodyLeft(s, i, ids, f);
    RevokeKicks(s, id, ids, f);
    KickAppoints(f, id);
    Removes(f, id);
    EmptyListIsWrong(RemoveUser(f, id));
  }
}
