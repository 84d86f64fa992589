/** What the requests of clients and of the admin interface bring about, and for whom they do not. */
module SessionEffects {
  import opened Wrappers
  import opened Messages
  import opened SessionHistory
  import opened SessionModel
  import opened SessionSafety
  import opened SessionHeld
  import opened SessionRuns
  import opened ResetProtocol
  import opened SessionOperators
  import opened SessionListing
  import opened SessionSenders

  /** A client that the session can hear from. */
  predicate Hears(s: Session, id: Byte) {
    Inv(s) && !s.deleted && Connected(s, id)
  }

  /** Unless the sender is on hold, what it sends takes effect at once, a command as it is and a message
      under the sender's name. */
  lemma AtOnce(s: Session, id: Byte, input: Input)
    requires Hears(s, id) && !Get(s, id).held && input != Cmd(InitComplete) && input != Cmd(InitCancel)
    ensures var s' := Step(s, Recv(id, input));
            match input
            case Cmd(c) => s' == HandleCommand(s, id, c)
            case Wire(m) => s' == HandleWire(s, id, if s.initUser == id then m else m.(ctx := id))
  {
  }

  // ---- Kicks and mutes ----

  /** The sender may kick, and the target is not protected from it. */
  predicate MayKick(s: Session, id: Byte, target: Byte)
    requires Connected(s, id)
  {
    Connected(s, target) && (IsOp(Get(s, id)) || IsDeputy(s, Get(s, id))) && !Protected(s, id, Get(s, target))
  }

  lemma KicksOne(s: Session, id: Byte, target: Byte)
    requires Inv(s) && Connected(s, id) && (IsOp(Get(s, id)) || IsDeputy(s, Get(s, id)))
    ensures KickUser(s, id, target) == if MayKick(s, id, target) then RemoveUser(s, target) else s
  {
    if Connected(s, target) {
      assert ClientOk(Get(s, target));
    }
  }

  /** A kick removes exactly its target, and that exactly if the sender may kick it. */
  lemma KickIff(s: Session, id: Byte, target: Byte)
    requires Hears(s, id)
    ensures var s' := HandleCommand(s, id, Kick(target));
            if MayKick(s, id, target) then Ids(s'.clients) == Ids(s.clients) - {target} else s' == s
  {
    if IsOp(Get(s, id)) || IsDeputy(s, Get(s, id)) {
      KicksOne(s, id, target);
    }
    if Connected(s, target) {
      RemovesFollows(s, target);
    }
  }

  /** An operator mutes exactly whom it means to, and a muted client is not heard in the chat. */
  lemma MuteIff(s: Session, id: Byte, target: Byte, on: bool, i: nat)
    requires Hears(s, id) && i < |s.clients|
    ensures var s' := HandleCommand(s, id, Mute(target, on));
            && |s'.clients| == |s.clients| && s' == s.(clients := s'.clients)
            && s'.clients[i] == if IsOp(Get(s, id)) && s.clients[i].id == target then s.clients[i].(muted := on) else s.clients[i]
  {
    IndexAt(s.clients, i);
    assert ClientOk(s.clients[i]);
  }

  // ---- Operators ----

  /** Who has the flag after one more client got it. */
  predicate OneMore(clients: seq<Client>, clients': seq<Client>, id: Byte) {
    && SameUsers(clients, clients')
    && (forall i :: 0 <= i < |clients| ==> (IsOp(clients'[i]) <==> IsOp(clients[i]) || clients[i].id == id))
    && (forall i :: 0 <= i < |clients| ==> clients'[i].trusted == clients[i].trusted)
  }

  lemma GrantsOne(s: Session, id: Byte)
    requires LogOk(s) && Distinct(s.clients)
    ensures OneMore(s.clients, Grant(s, id).clients, id)
  {
    var ids := AllOpIds(s) + [id];
    Grants(s, id);
    FlagsOps(s, ids);
    TrueList(s.clients);
    AddsSameCrew(FlagOps(s, ids), SessionOwner(AllOpIds(FlagOps(s, ids))));
  }

  /** The opword makes an operator of whoever knows it, and of nobody else. */
  lemma GainOpIff(s: Session, id: Byte, correct: bool)
    requires Hears(s, id)
    ensures var s' := HandleCommand(s, id, GainOp(correct));
            if s.hasOpword && correct then OneMore(s.clients, s'.clients, id) else s' == s
  {
    GrantsOne(s, id);
  }

  lemma AdminGrants(s: Session, id: Byte)
    requires Inv(s) && Enabled(s, AdminOp(id, true)) && !Get(s, id).op
    ensures OneMore(s.clients, Step(s, AdminOp(id, true)).clients, id)
  {
    GrantsOne(s, id);
  }

  /** The admin interface takes the flag from exactly the client it names, unless that is a moderator; a
      client that was resetting goes with it. */
  lemma AdminRevokes(s: Session, i: nat, k: nat)
    requires Inv(s) && !s.deleted && i < |s.clients| && k < |s.clients| && s.clients[i].op
    requires Enabled(s, AdminOp(s.clients[i].id, false))
    ensures var s' := Step(s, AdminOp(s.clients[i].id, false));
            if s.state == Resetting && s.initUser == s.clients[i].id && !s.clients[i].mod
            then Ids(s'.clients) == Ids(s.clients) - {s.clients[i].id}
            else SameUsers(s.clients, s'.clients) && (IsOp(s'.clients[k]) <==> if k == i then s.clients[i].mod else IsOp(s.clients[k]))
  {
    var id := s.clients[i].id;
    var ids := RemoveOne(AllOpIds(s), id);
    var f := FlagOps(s, ids);
    IndexAt(s.clients, i);
    FlagsOps(s, ids);
    DeposedIff(s, i, ids);
    RevokesOne(s, i, k, ids);
    if Deposed(s, ids) {
      RevokedLeaves(s, ids, f);
    }
    AddsSameCrew(UpdateOwnership(s, ids).0, SessionOwner(AllOpIds(f)));
  }

  lemma RevokedLeaves(s: Session, ids: seq<Byte>, f: Session)
    requires Inv(s) && Deposed(s, ids) && f == FlagOps(s, ids)
    ensures Ids(RemoveUser(f, s.initUser).clients) == Ids(s.clients) - {Get(s, s.initUser).id}
  {
    FlagsOps(s, ids);
    HarmlessSound(s, f);
    SameIndex(s.clients, f.clients, s.initUser);
    RemovesFollows(f, s.initUser);
  }

  /** An operator's list makes operators of those it names, the sender and the moderators, and of nobody else. */
  predicate OwnersAre(clients: seq<Client>, clients': seq<Client>, id: Byte, ids: seq<Byte>) {
    && SameUsers(clients, clients')
    && forall i :: 0 <= i < |clients| ==>
         (IsOp(clients'[i]) <==> clients[i].id in ids || clients[i].id == id || clients[i].mod)
  }

  lemma FlagsOwners(s: Session, id: Byte, ids: seq<Byte>)
    requires LogOk(s) && ClientsOk(s.clients)
    ensures OwnersAre(s.clients, FlagOps(s, ids + [id]).clients, id, ids)
  {
    FlagsOps(s, ids + [id]);
  }

  /** The resetter is neither on the list nor a moderator. */
  predicate DropsResetter(s: Session, ids: seq<Byte>) {
    s.state == Resetting && s.initUser !in ids && Connected(s, s.initUser) && !Get(s, s.initUser).mod
  }

  lemma OwnersLogged(f: Session, m: Message)
    requires LogOk(f) && ClientsOk(f.clients) && f.state != Shutdown && m.kind == MSG_SESSION_OWNER && m.payload == AllOpIds(f)
    ensures AddToHistory(f, m).clients == f.clients && (!OutOfSpace(f.hist) ==> Listed(AddToHistory(f, m)))
  {
    Adds(f, m);
    TrueList(f.clients);
    NewestSnoc(f.hist.msgs, m);
  }

  lemma OwnersKept(s: Session, id: Byte, m: Message, f: Session)
    requires Hears(s, id) && IsOp(Get(s, id)) && m.kind == MSG_SESSION_OWNER && !Uploading(s, id)
    requires !DropsResetter(s, m.payload) && f == FlagOps(s, m.payload + [id])
    ensures !Deposed(s, m.payload + [id])
    ensures HandleWire(s, id, m) == AddToHistory(f, m.(payload := AllOpIds(f)))
  {
  }

  lemma DropDeposes(s: Session, id: Byte, ids: seq<Byte>)
    requires Hears(s, id) && !Uploading(s, id) && DropsResetter(s, ids)
    ensures Deposed(s, ids + [id]) && UpdateOwnership(s, ids + [id]).0.initUser == -1
  {
    UpdatesOwnership(s, ids + [id]);
  }

  lemma OwnersDropped(s: Session, id: Byte, m: Message, s': Session, list: seq<Byte>)
    requires Connected(s, id) && IsOp(Get(s, id)) && m.kind == MSG_SESSION_OWNER
    requires (s', list) == UpdateOwnership(s, m.payload + [id])
    ensures HandleWire(s, id, m) == Route(s', id, m.(payload := list))
  {
  }

  lemma RoutesOther(s: Session, id: Byte, m: Message)
    requires s.initUser != id
    ensures Route(s, id, m).state == s.state && Route(s, id, m).clients == s.clients
  {
    AddsState(s, m);
    AddsSameCrew(s, m);
  }

  lemma OwnersDrop(s: Session, id: Byte, m: Message, s': Session, list: seq<Byte>)
    requires Hears(s, id) && IsOp(Get(s, id)) && m.kind == MSG_SESSION_OWNER && !Uploading(s, id) && DropsResetter(s, m.payload)
    requires (s', list) == UpdateOwnership(s, m.payload + [id])
    ensures HandleWire(s, id, m).state == Running && Get(s, s.initUser).id !in Ids(HandleWire(s, id, m).clients)
  {
    DropDeposes(s, id, m.payload);
    UpdatesOwnership(s, m.payload + [id]);
    OwnersDropped(s, id, m, s', list);
    RoutesOther(s', id, m.(payload := list));
  }

  lemma OwnersGo(s: Session, id: Byte, ids: seq<Byte>, m: Message, f: Session)
    requires Hears(s, id) && f == FlagOps(s, ids + [id]) && m.kind == MSG_SESSION_OWNER && m.payload == AllOpIds(f)
    ensures OwnersAre(s.clients, AddToHistory(f, m).clients, id, ids) && (!OutOfSpace(s.hist) ==> Listed(AddToHistory(f, m)))
  {
    FlagsOwners(s, id, ids);
    FlagsOps(s, ids + [id]);
    HarmlessSound(s, f);
    OwnersLogged(f, m);
  }

  /** The list takes effect, and the log has it with exactly the operators named; but if it drops somebody
      who is resetting, that client is removed and the reset is over. (The list of a resetter itself is
      part of its upload.) */
  lemma OwnersTakeEffect(s: Session, id: Byte, m: Message)
    requires Hears(s, id) && IsOp(Get(s, id)) && m.kind == MSG_SESSION_OWNER && !Uploading(s, id)
    ensures var s' := HandleWire(s, id, m);
            if DropsResetter(s, m.payload) then s'.state == Running && Get(s, s.initUser).id !in Ids(s'.clients)
            else OwnersAre(s.clients, s'.clients, id, m.payload) && (!OutOfSpace(s.hist) ==> Listed(s'))
  {
    if DropsResetter(s, m.payload) {
      var (s', list) := UpdateOwnership(s, m.payload + [id]);
      OwnersDrop(s, id, m, s', list);
    } else {
      var f := FlagOps(s, m.payload + [id]);
      OwnersKept(s, id, m, f);
      OwnersGo(s, id, m.payload, m.(payload := AllOpIds(f)), f);
    }
  }

  // ---- Trusted users ----

  predicate NamesTrusted(clients: seq<Client>, ids: seq<Byte>) {
    && (forall i :: 0 <= i < |clients| ==> (clients[i].trusted <==> clients[i].id in ids))
    && (forall x :: x in ids ==> x in Ids(clients))
  }

  lemma {:induction false} TrustedIdsIff(clients: seq<Client>, n: nat, x: Byte)
    requires n <= |clients|
    ensures x in TrustedIds(clients, n) <==> exists i :: 0 <= i < n && clients[i].trusted && clients[i].id == x
  {
    if n > 0 {
      TrustedIdsIff(clients, n - 1, x);
    }
  }

  lemma TrueTrusted(clients: seq<Client>)
    requires Distinct(clients)
    ensures NamesTrusted(clients, TrustedIds(clients, |clients|))
  {
    forall x: Byte
      ensures x in TrustedIds(clients, |clients|) <==> exists i :: 0 <= i < |clients| && clients[i].trusted && clients[i].id == x
    {
      TrustedIdsIff(clients, |clients|, x);
    }
  }

  lemma UpdatesTrust(s: Session, ids: seq<Byte>, f: Session)
    requires Distinct(s.clients) && f == UpdateTrusted(s, ids)
    ensures |f.clients| == |s.clients| && f.hist == s.hist && f.state == s.state
    ensures forall i :: 0 <= i < |s.clients| ==> f.clients[i] == s.clients[i].(trusted := s.clients[i].id in ids)
    ensures NamesTrusted(f.clients, TrustedIds(f.clients, |f.clients|))
  {
    TrueTrusted(f.clients);
  }

  /** An operator's list decides who is trusted, nothing else about anybody, and the log has it with exactly
      the trusted users named. Anybody else's list does nothing. */
  lemma TrustTakesEffect(s: Session, id: Byte, m: Message)
    requires Hears(s, id) && m.kind == MSG_TRUSTED_USERS && !Uploading(s, id)
    ensures var s' := HandleWire(s, id, m);
            if !IsOp(Get(s, id)) then s' == s
            else
              && |s'.clients| == |s.clients|
              && (forall i :: 0 <= i < |s.clients| ==> s'.clients[i] == s.clients[i].(trusted := s.clients[i].id in m.payload))
              && (OutOfSpace(s.hist) || TrustLogged(s, s'))
  {
    if IsOp(Get(s, id)) {
      var f := UpdateTrusted(s, m.payload);
      var list := m.(payload := TrustedIds(f.clients, |f.clients|));
      UpdatesTrust(s, m.payload, f);
      AddsSettings(f, list);
    }
  }

  /** The log gained a list of the trusted users. */
  predicate TrustLogged(s: Session, s': Session) {
    && |s'.hist.msgs| == |s.hist.msgs| + 1 && s.hist.msgs <= s'.hist.msgs
    && s'.hist.msgs[|s.hist.msgs|].kind == MSG_TRUSTED_USERS
    && NamesTrusted(s'.clients, s'.hist.msgs[|s.hist.msgs|].payload)
  }

  /** A reset image says who is trusted, unless nobody is. */
  lemma ImageTrusted(clients: seq<Client>)
    requires ClientsOk(clients)
    ensures var last := ServerSide(clients)[|ServerSide(clients)| - 1];
            if exists i :: 0 <= i < |clients| && clients[i].trusted
            then last.kind == MSG_TRUSTED_USERS && NamesTrusted(clients, last.payload)
            else last.kind == MSG_SESSION_OWNER
  {
    var ids := TrustedIds(clients, |clients|);
    TrueTrusted(clients);
    if i :| 0 <= i < |clients| && clients[i].trusted {
      assert clients[i].id in ids;
    } else {
      assert ids != [] ==> ids[0] in Ids(clients);
    }
  }

  lemma {:induction false} JoinsAt(clients: seq<Client>, n: nat, i: nat)
    requires i < n <= |clients|
    ensures |Joins(clients, n)| == n && Joins(clients, n)[i] == clients[i].join
  {
    if n > 1 {
      JoinsAt(clients, n - 1, if i < n - 1 then i else 0);
    }
  }

  /** It begins with the join messages of the clients as they came, followed by a list of the operators. */
  lemma ImageBegins(clients: seq<Client>, i: nat)
    requires ClientsOk(clients) && i < |clients|
    ensures var image := ServerSide(clients);
            && |image| > |clients| && image[i] == clients[i].join
            && image[|clients|].kind == MSG_SESSION_OWNER && Names(clients, image[|clients|].payload)
  {
    JoinsAt(clients, |clients|, i);
    TrueList(clients);
  }

  // ---- Remembered accounts ----

  /** The flag of the client changes, and it has an account to remember that by. */
  predicate Changes(c: Client, ids: seq<Byte>) {
    c.auth != "" && !c.mod && (c.id in ids) != c.op
  }

  /** An account that no change concerns is remembered as before. */
  lemma {:induction false} OthersRemembered(auths: set<string>, clients: seq<Client>, ids: seq<Byte>, n: nat, auth: string)
    requires n <= |clients| && forall i :: 0 <= i < n && clients[i].auth == auth ==> !Changes(clients[i], ids)
    ensures auth in RememberOps(auths, clients, ids, n) <==> auth in auths
  {
    if n > 0 {
      OthersRemembered(auths, clients, ids, n - 1, auth);
    }
  }

  /** An account is remembered as an operator's from when its client gets the flag until it loses it. If
      several clients use it, the last change on the list decides. */
  lemma {:induction false} OperatorRemembered(auths: set<string>, clients: seq<Client>, ids: seq<Byte>, n: nat, i: nat)
    requires i < n <= |clients| && Changes(clients[i], ids)
    requires forall j :: i < j < n && clients[j].auth == clients[i].auth ==> !Changes(clients[j], ids)
    ensures clients[i].auth in RememberOps(auths, clients, ids, n) <==> clients[i].id in ids
  {
    if i < n - 1 {
      OperatorRemembered(auths, clients, ids, n - 1, i);
    }
  }

  lemma {:induction false} TrustRemembered(auths: set<string>, clients: seq<Client>, ids: seq<Byte>, n: nat, i: nat)
    requires i < n <= |clients| && clients[i].auth != "" && (clients[i].id in ids) != clients[i].trusted
    requires forall j :: i < j < n && clients[j].auth == clients[i].auth ==> (clients[j].id in ids) == clients[j].trusted
    ensures clients[i].auth in RememberTrust(auths, clients, ids, n) <==> clients[i].id in ids
  {
    if i < n - 1 {
      TrustRemembered(auths, clients, ids, n - 1, i);
    }
  }

  // ---- Autoreset ----

  /** The first operator to answer the query is told to reset, and only the first. */
  lemma FirstAnswerIff(s: Session, id: Byte)
    requires Hears(s, id)
    ensures var s' := HandleCommand(s, id, ReadyToAutoReset);
            if s.autoReset == Queried && IsOp(Get(s, id))
            then s'.autoReset == Requested && s'.seen.asked == s.seen.asked + [s.seen.resets]
            else s' == s
  {
  }

  /** After a reset the negotiation starts over: the query goes out again as soon as the log wants it. */
  lemma ResetRearms(s: Session)
    requires Inv(s) && s.state == Resetting && Installs(s)
    ensures var s' := FinishReset(s);
            s'.autoReset == if !OutOfSpace(Reinstalled(s).hist) && WantsReset(s'.hist, s'.threshold) then Queried else NotSent
  {
    var r := Reinstalled(s);
    if !OutOfSpace(r.hist) {
      QueryIff(AddMessage(r.hist, Properties(r)), r.threshold, r.autoReset);
    }
  }

  // ---- Settings ----

  /** An operator's settings take effect, the threshold within nine tenths of the limit, what is not named
      stays as it was, and the log has the settings as they then are. Nobody else has a say. */
  lemma SettingsTakeEffect(s: Session, id: Byte, c: Command)
    requires Hears(s, id) && c.SessionConf? && c != SessionConf(None, None, None, None, None)
    ensures var s' := HandleCommand(s, id, c);
            if !IsOp(Get(s, id)) then s' == s
            else
              && s'.clients == s.clients && s'.state == s.state && s'.authOps == s.authOps && s'.authTrusted == s.authTrusted
              && Set(c.setClosed, s.closed, s'.closed) && Set(c.setOpword, s.hasOpword, s'.hasOpword)
              && Set(c.setDeputies, s.deputies, s'.deputies) && Set(c.setOther, s.conf, s'.conf)
              && (c.setThreshold.None? ==> s'.threshold == s.threshold)
              && (c.setThreshold.Some? && Clamped(s.hist.limit, c.setThreshold.value) ==> s'.threshold == c.setThreshold.value)
              && (c.setThreshold.Some? && !Clamped(s.hist.limit, c.setThreshold.value) ==> s'.threshold == NineTenths(s.hist.limit))
              && s'.hist.msgs == s.hist.msgs + if OutOfSpace(s.hist) then [] else [Properties(s'.(hist := s.hist))]
  {
    if IsOp(Get(s, id)) {
      var t := Configured(s, c);
      AddsSettings(t, Properties(t));
    }
  }

  predicate Set<T(==)>(setting: Option<T>, before: T, after: T) {
    after == if setting.Some? then setting.value else before
  }

  lemma AddsSettings(s: Session, m: Message)
    requires s.state != Shutdown
    ensures var s' := AddToHistory(s, m);
            && s' == s.(hist := s'.hist, autoReset := s'.autoReset, seen := s'.seen)
            && s'.hist.msgs == s.hist.msgs + if OutOfSpace(s.hist) then [] else [m]
  {
  }

  lemma Reopens(s: Session)
    ensures !SetClosed(s, false).closed
  {
    AddsState(s.(closed := false), Properties(s.(closed := false)));
  }

  /** A session that the last user leaves is open again. */
  lemma LastLeaves(s: Session, id: Byte)
    requires Inv(s) && Enabled(s, Leave(id)) && |s.clients| == 1
    ensures Step(s, Leave(id)).clients == [] && !Step(s, Leave(id)).closed
  {
    Removes(s, id);
    Reopens(EnsureOperatorExists(AddToHistory(Departed(s, id), UserLeave(Get(s, id).id))));
  }

  // ---- Arrivals ----

  lemma TrustsOne(s: Session, k: nat)
    requires LogOk(s) && Distinct(s.clients) && k < |s.clients|
    ensures var s' := ChangeTrusted(s, s.clients[k].id);
            && |s'.clients| == |s.clients|
            && forall i :: 0 <= i < |s.clients| ==> s'.clients[i] == s.clients[i].(trusted := s.clients[i].trusted || i == k)
  {
    var ids := TrustedIds(s.clients, |s.clients|) + [s.clients[k].id];
    var f := UpdateTrusted(s, ids);
    TrueTrusted(s.clients);
    AddsSameCrew(f, TrustedUsers(TrustedIds(f.clients, |f.clients|)));
  }

  /** Nobody can be made an operator but the first client. */
  predicate Unmanned(s: Session) {
    s.clients != [] && !s.hasOpword && s.authOps == {} && !HasOp(s.clients)
  }

  lemma AppointsIff(s: Session)
    requires LogOk(s) && Distinct(s.clients)
    ensures var s' := EnsureOperatorExists(s);
            if Unmanned(s) then OneMore(s.clients, s'.clients, s.clients[0].id) else s' == s
  {
    if Unmanned(s) {
      GrantsOne(s, s.clients[0].id);
    }
  }

  /** Flags carried over to a list with one more client, who has the given ones. */
  predicate Arrived(clients: seq<Client>, clients': seq<Client>, op: bool, trusted: bool) {
    && |clients'| == |clients| + 1
    && (forall i :: 0 <= i < |clients| ==> IsOp(clients'[i]) == IsOp(clients[i]) && clients'[i].trusted == clients[i].trusted)
    && IsOp(clients'[|clients|]) == op && clients'[|clients|].trusted == trusted
  }

  lemma ArrivesAsOperator(s: Session, e: Session, c: Client, op: bool, e2: Session)
    requires LogOk(e) && Distinct(e.clients) && |e.clients| == |s.clients| + 1 && e.clients == s.clients + [e.clients[|s.clients|]]
    requires e.clients[|s.clients|].id == c.id && IsOp(e.clients[|s.clients|]) == IsOp(c) && !e.clients[|s.clients|].trusted
    requires e2 == if IsOp(c) || op then Grant(e, c.id) else e
    ensures LogOk(e2) && SameUsers(e.clients, e2.clients) && Arrived(s.clients, e2.clients, IsOp(c) || op, false)
  {
    GrantsOne(e, c.id);
    Grants(e, c.id);
    HarmlessSelf(e);
  }

  lemma ArrivesTrusted(s: Session, e: Session, op: bool, trust: bool, e2: Session)
    requires LogOk(e) && Distinct(e.clients) && Arrived(s.clients, e.clients, op, false)
    requires e2 == if trust then ChangeTrusted(e, e.clients[|s.clients|].id) else e
    ensures LogOk(e2) && SameUsers(e.clients, e2.clients) && Arrived(s.clients, e2.clients, op, trust)
    ensures e2.hasOpword == e.hasOpword && e2.authOps == e.authOps
  {
    if trust {
      TrustsOne(e, |s.clients|);
      ChangesTrusted(e, e.clients[|s.clients|].id);
      TrustKeepsAccounts(e, e.clients[|s.clients|].id);
    } else {
      HarmlessSelf(e);
    }
  }

  lemma TrustKeepsAccounts(s: Session, id: Byte)
    ensures ChangeTrusted(s, id).hasOpword == s.hasOpword && ChangeTrusted(s, id).authOps == s.authOps
  {
    var f := UpdateTrusted(s, TrustedIds(s.clients, |s.clients|) + [id]);
    AddsSameCrew(f, TrustedUsers(TrustedIds(f.clients, |f.clients|)));
  }

  /** Whoever is appointed when a client arrives and nobody can be an operator: the first on the list. */
  predicate Appointed(s: Session, op: bool) {
    !s.hasOpword && s.authOps == {} && !HasOp(s.clients) && !op
  }

  /** The flags once the newcomer is in: the others keep theirs, the newcomer is an operator if it came as
      one or its account is remembered for it, and trusted likewise; if that leaves nobody to be an
      operator, the first client on the list becomes one. */
  predicate Settled(s: Session, clients': seq<Client>, op: bool, trust: bool) {
    && |clients'| == |s.clients| + 1 && clients'[|s.clients|].trusted == trust
    && (IsOp(clients'[|s.clients|]) <==> op || (s.clients == [] && Appointed(s, op)))
    && forall i :: 0 <= i < |s.clients| ==>
         && clients'[i].trusted == s.clients[i].trusted
         && (IsOp(clients'[i]) <==> IsOp(s.clients[i]) || (i == 0 && Appointed(s, op)))
  }

  lemma Settles(s: Session, e: Session, op: bool, trust: bool)
    requires LogOk(e) && Distinct(e.clients) && Arrived(s.clients, e.clients, op, trust)
    requires !op ==> e.hasOpword == s.hasOpword && e.authOps == s.authOps
    ensures Settled(s, EnsureOperatorExists(e).clients, op, trust) && SameUsers(e.clients, EnsureOperatorExists(e).clients)
  {
    ArrivedOps(s.clients, e.clients, op, trust);
    AppointsIff(e);
    HarmlessSelf(e);
  }

  lemma ArrivedOps(clients: seq<Client>, clients': seq<Client>, op: bool, trust: bool)
    requires Arrived(clients, clients', op, trust)
    ensures HasOp(clients') <==> HasOp(clients) || op
  {
    if HasOp(clients) {
      var i :| 0 <= i < |clients| && IsOp(clients[i]);
      assert IsOp(clients'[i]);
    }
    if op {
      assert IsOp(clients'[|clients|]);
    }
  }

  lemma JoinTakesEffect(s: Session, c: Client, trusted: bool, host: bool)
    requires Inv(s) && !s.deleted && IsNew(s, c) && (host ==> s.state == Initialization)
    ensures var s' := JoinUser(s, c, trusted, host);
            && Settled(s, s'.clients, IsOp(c) || c.auth in s.authOps, trusted || c.auth in s.authTrusted)
            && SameUsers(s.clients + [c.(held := !host && s.state == Initialization)], s'.clients)
            && s'.initUser == (if host then c.id else s.initUser)
  {
    var e := Entered(s, c, host);
    Enters(s, c, host);
    Adds(e, c.join);
    var s1 := AddToHistory(e, c.join);
    Welcomed(s, s1, c, IsOp(c) || c.auth in s.authOps, trusted || c.auth in s.authTrusted);
    JoinsUser(s, c, trusted, host);
  }

  /** From the logged join on. */
  lemma Welcomed(s: Session, s1: Session, c: Client, op: bool, trust: bool)
    requires LogOk(s1) && ClientsOk(s1.clients) && |s1.clients| == |s.clients| + 1
    requires s1.clients == s.clients + [s1.clients[|s.clients|]] && (IsOp(c) ==> op)
    requires s1.clients[|s.clients|].id == c.id && IsOp(s1.clients[|s.clients|]) == IsOp(c) && !s1.clients[|s.clients|].trusted
    requires s1.hasOpword == s.hasOpword && s1.authOps == s.authOps
    ensures var s2 := if op then Grant(s1, c.id) else s1;
            var s3 := if trust then ChangeTrusted(s2, c.id) else s2;
            Settled(s, EnsureOperatorExists(s3).clients, op, trust)
  {
    var s2 := if op then Grant(s1, c.id) else s1;
    var s3 := if trust then ChangeTrusted(s2, c.id) else s2;
    ArrivesAsOperator(s, s1, c, op, s2);
    SameIds(s1.clients, s2.clients);
    assert SameClient(s1.clients[|s.clients|], s2.clients[|s.clients|]);
    ArrivesTrusted(s, s2, op, trust, s3);
    SameIds(s2.clients, s3.clients);
    Settles(s, s3, op, trust);
  }

  // ---- Shutting down ----

  lemma RemovesDeleted(s: Session, id: int)
    requires Removable(s, id)
    ensures RemoveUser(s, id).deleted == s.deleted
  {
    Removes(s, id);
    DepartedFrame(s, id);
    DepartedSound(s, id);
    Adds(Departed(s, id), UserLeave(Get(s, id).id));
  }

  lemma OwnershipDeleted(s: Session, ids: seq<Byte>)
    requires Inv(s)
    ensures UpdateOwnership(s, ids).0.deleted == s.deleted
  {
    var f := FlagOps(s, ids);
    FlagsOps(s, ids);
    if Deposed(s, ids) {
      HarmlessSound(s, f);
      SameIndex(s.clients, f.clients, s.initUser);
      RemovesDeleted(f, s.initUser);
    }
  }

  lemma RouteDeleted(s: Session, id: Byte, m: Message)
    requires Inv(s) && !IsPresence(m)
    ensures Route(s, id, m).deleted == s.deleted
  {
    Adds(s, m);
    if s.initUser == id && s.state == Resetting {
      BuffersOne(s, m);
      if s.hist.limit > 0 && Buffered(s, m).streamSize > s.hist.limit {
        RemovesDeleted(Buffered(s, m), s.initUser);
      }
    }
  }

  lemma WireDeleted(s: Session, id: Byte, m: Message)
    requires Inv(s) && Connected(s, id)
    ensures HandleWire(s, id, m).deleted == s.deleted
  {
    if IsPresence(m) {
    } else if m.kind == MSG_SESSION_OWNER {
      var (s', ids) := UpdateOwnership(s, m.payload + [id]);
      OwnershipDeleted(s, m.payload + [id]);
      UpdatesOwnership(s, m.payload + [id]);
      RouteDeleted(s', id, m.(payload := ids));
    } else if m.kind == MSG_TRUSTED_USERS {
      var s' := UpdateTrusted(s, m.payload);
      UpdatesTrusted(s, m.payload);
      HarmlessInv(s, s');
      RouteDeleted(s', id, m.(payload := TrustedIds(s'.clients, |s'.clients|)));
    } else {
      RouteDeleted(s, id, m);
    }
  }

  lemma CommandDeleted(s: Session, id: Byte, cmd: Command)
    requires Hears(s, id)
    ensures HandleCommand(s, id, cmd).deleted <==> cmd == KillSession && Get(s, id).mod
    ensures HandleCommand(s, id, cmd).deleted ==> HandleCommand(s, id, cmd).state == Shutdown
  {
    match cmd
    case Kick(target) => if Connected(s, target) { RemovesDeleted(s, target); }
    case GainOp(_) => Grants(s, id);
    case SessionConf(_, _, _, _, _) => Configures(s, cmd);
    case _ =>
  }

  lemma RevokeDeleted(s: Session, id: Byte)
    requires Inv(s)
    ensures Revoke(s, id).deleted == s.deleted
  {
    var (s', ids) := UpdateOwnership(s, RemoveOne(AllOpIds(s), id));
    OwnershipDeleted(s, RemoveOne(AllOpIds(s), id));
    UpdatesOwnership(s, RemoveOne(AllOpIds(s), id));
    Adds(s', SessionOwner(ids));
  }

  lemma RecvDeleted(s: Session, id: Byte, input: Input, s': Session)
    requires Hears(s, id) && !Begins(s, id, input) && s' == Step(s, Recv(id, input))
    ensures s'.deleted <==> !Get(s, id).held && input == Cmd(KillSession) && Get(s, id).mod
    ensures s'.deleted ==> s'.state == Shutdown
  {
    if Get(s, id).held {
    } else if input == Cmd(InitComplete) || input == Cmd(InitCancel) {
      if s.state == Resetting {
        FinishDeleted(s);
        FinishDeleted(ClearStream(s));
      }
    } else {
      AtOnce(s, id, input);
      match input
      case Cmd(c) => CommandDeleted(s, id, c);
      case Wire(m) => WireDeleted(s, id, if s.initUser == id then m else m.(ctx := id));
    }
  }

  lemma FinishDeleted(s: Session)
    requires s.state == Resetting
    ensures FinishReset(s).deleted == s.deleted
  {
    AddsSettings(Reinstalled(s), Properties(Reinstalled(s)));
  }

  /** Only a moderator shuts a session down, and at once, unless on hold. */
  lemma ShutdownIff(s: Session, e: Event)
    requires Inv(s) && Enabled(s, e) && !(e.Recv? && Begins(s, e.sender, e.input))
    ensures Step(s, e).deleted <==>
              e.Recv? && e.input == Cmd(KillSession) && Get(s, e.sender).mod && !Get(s, e.sender).held
    ensures Step(s, e).deleted ==> Step(s, e).state == Shutdown && Step(s, e).clients == []
  {
    StepKeeps(s, e);
    match e
    case HostJoin(c, trusted) => JoinDeleted(s, c, trusted, true);
    case Join(c, trusted) => JoinDeleted(s, c, trusted, false);
    case Leave(id) => RemovesDeleted(s, id);
    case Recv(id, input) => RecvDeleted(s, id, input, Step(s, e));
    case AdminOp(id, op) =>
      Grants(s, id);
      RevokeDeleted(s, id);
  }

  lemma JoinDeleted(s: Session, c: Client, trusted: bool, host: bool)
    requires Inv(s) && !s.deleted && IsNew(s, c) && (host ==> s.state == Initialization)
    ensures !JoinUser(s, c, trusted, host).deleted
  {
    JoinsUser(s, c, trusted, host);
    Enters(s, c, host);
    Adds(Entered(s, c, host), c.join);
  }
}
