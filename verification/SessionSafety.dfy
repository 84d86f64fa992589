/** What every step of the session state machine keeps. */
module SessionSafety {
  import opened Messages
  import opened SessionHistory
  import opened SessionModel

  // ---- The client list ----

  predicate Distinct(clients: seq<Client>) {
    forall i, j :: 0 <= i < j < |clients| ==> clients[i].id != clients[j].id
  }

  function Ids(clients: seq<Client>): set<Byte> {
    set i | 0 <= i < |clients| :: clients[i].id
  }

  function HeldIds(clients: seq<Client>): set<Byte> {
    set i | 0 <= i < |clients| && clients[i].held :: clients[i].id
  }

  predicate ClientOk(c: Client) {
    1 <= c.id <= 254 && c.join.kind == MSG_USER_JOIN && c.join.ctx == c.id && (!c.held ==> c.queue == [])
  }

  predicate ClientsOk(clients: seq<Client>) {
    Distinct(clients) && forall i :: 0 <= i < |clients| ==> ClientOk(clients[i])
  }

  /** The same people in the same order; only flags may differ. */
  predicate SameClient(c: Client, c': Client) {
    c'.id == c.id && c'.join == c.join && c'.mod == c.mod && c'.held == c.held && c'.queue == c.queue
  }

  predicate SameUsers(clients: seq<Client>, clients': seq<Client>) {
    |clients'| == |clients| && forall i :: 0 <= i < |clients| ==> SameClient(clients[i], clients'[i])
  }

  predicate KeepsOps(clients: seq<Client>, clients': seq<Client>)
    requires |clients| == |clients'|
  {
    forall i :: 0 <= i < |clients| ==> IsOp(clients[i]) ==> IsOp(clients'[i])
  }

  lemma IndexAt(clients: seq<Client>, i: nat)
    requires Distinct(clients) && i < |clients|
    ensures Index(clients, clients[i].id) == i
  {
  }

  lemma IdsMember(clients: seq<Client>, id: Byte)
    ensures id in Ids(clients) <==> Index(clients, id) < |clients|
  {
    var i := Index(clients, id);
    if i < |clients| {
      assert clients[i].id in Ids(clients);
    }
  }

  lemma SameIds(clients: seq<Client>, clients': seq<Client>)
    requires SameUsers(clients, clients')
    ensures Ids(clients') == Ids(clients) && HeldIds(clients') == HeldIds(clients)
    ensures ClientsOk(clients) ==> ClientsOk(clients')
    ensures forall id :: Index(clients', id) == Index(clients, id)
  {
    forall i | 0 <= i < |clients|
      ensures clients[i].id == clients'[i].id && clients[i].held == clients'[i].held
      ensures ClientOk(clients[i]) ==> ClientOk(clients'[i])
    {
      assert SameClient(clients[i], clients'[i]);
    }
    forall id
      ensures Index(clients', id) == Index(clients, id)
    {
      SameIndex(clients, clients', id);
    }
  }

  lemma SameIndex(clients: seq<Client>, clients': seq<Client>, id: int)
    requires SameUsers(clients, clients')
    ensures Index(clients', id) == Index(clients, id)
  {
    forall i | 0 <= i < |clients|
      ensures clients'[i].id == clients[i].id
    {
      assert SameClient(clients[i], clients'[i]);
    }
  }

  /** Where the remaining clients were before. */
  lemma WithoutAt(clients: seq<Client>, i: nat)
    requires i < |clients|
    ensures var w := Without(clients, i);
            && |w| == |clients| - 1
            && (forall k :: 0 <= k < |w| ==> w[k] == clients[if k < i then k else k + 1])
  {
  }

  lemma WithoutOk(clients: seq<Client>, i: nat)
    requires ClientsOk(clients) && i < |clients|
    ensures ClientsOk(Without(clients, i))
  {
    var w := Without(clients, i);
    WithoutAt(clients, i);
    assert Distinct(w);
  }

  lemma WithoutIds(clients: seq<Client>, i: nat)
    requires Distinct(clients) && i < |clients|
    ensures Ids(Without(clients, i)) == Ids(clients) - {clients[i].id}
    ensures HeldIds(Without(clients, i)) <= HeldIds(clients)
  {
    var w := Without(clients, i);
    WithoutAt(clients, i);
    forall id
      ensures id in Ids(w) <==> id in Ids(clients) && id != clients[i].id
    {
      if id in Ids(clients) && id != clients[i].id {
        var k :| 0 <= k < |clients| && clients[k].id == id;
        assert w[if k < i then k else k - 1].id == id;
      }
    }
  }

  // ---- The log ----

  /** Messages that came from clients carry the id of the sender; the server's own have none, or are
      joins and leaves. */
  predicate IsFromClient(m: Message) {
    !IsPresence(m) && m.ctx != 0
  }

  function FromClients(ms: seq<Message>): seq<Message> {
    if ms == [] then []
    else FromClients(ms[..|ms| - 1]) + if IsFromClient(ms[|ms| - 1]) then [ms[|ms| - 1]] else []
  }

  lemma FromClientsSnoc(ms: seq<Message>, m: Message)
    ensures FromClients(ms + [m]) == FromClients(ms) + if IsFromClient(m) then [m] else []
  {
    assert (ms + [m])[..|ms|] == ms;
  }

  /** The log went on without a reset, and says the same about who is present. */
  predicate GoesOn(h: History, h': History) {
    && h'.first == h.first && h'.limit == h.limit && h'.base == h.base && h.msgs <= h'.msgs
    && Coherent(h') && Present(h'.msgs) == Present(h.msgs)
  }

  /** At most one client was told to reset between any two resets. */
  predicate AskedOk(s: Session) {
    && (forall i, j :: 0 <= i < j < |s.seen.asked| ==> s.seen.asked[i] < s.seen.asked[j])
    && (forall i :: 0 <= i < |s.seen.asked| ==> s.seen.asked[i] <= s.seen.resets)
    && (s.autoReset != Requested ==> forall i :: 0 <= i < |s.seen.asked| ==> s.seen.asked[i] < s.seen.resets)
  }

  /** Flags may have changed and server messages may have been logged, but nothing else. */
  predicate Harmless(s: Session, s': Session) {
    true == (
      && SameUsers(s.clients, s'.clients) && GoesOn(s.hist, s'.hist) && FromClients(s'.hist.msgs) == FromClients(s.hist.msgs)
      && s'.state == s.state && s'.initUser == s.initUser && s'.stream == s.stream && s'.streamSize == s.streamSize
      && s'.deleted == s.deleted && s'.seen.crashed == s.seen.crashed && s'.seen.refused == s.seen.refused && s'.seen.resets == s.seen.resets
      && s'.seen.asked == s.seen.asked && AskedOk(s') && !s'.seen.silent && !s'.seen.early && Clamped(s'.hist.limit, s'.threshold))
  }

  predicate LogOk(s: Session) {
    Coherent(s.hist) && AskedOk(s) && !s.seen.silent && !s.seen.early && Clamped(s.hist.limit, s.threshold)
  }

  lemma HarmlessSelf(s: Session)
    requires LogOk(s)
    ensures Harmless(s, s) && KeepsOps(s.clients, s.clients)
  {
  }

  lemma HarmlessTrans(a: Session, b: Session, c: Session)
    requires Harmless(a, b) && Harmless(b, c)
    ensures Harmless(a, c)
  {
    forall i | 0 <= i < |a.clients|
      ensures SameClient(a.clients[i], c.clients[i])
    {
      assert SameClient(a.clients[i], b.clients[i]) && SameClient(b.clients[i], c.clients[i]);
    }
  }

  lemma HarmlessKeepsOps(a: Session, b: Session, c: Session)
    requires Harmless(a, b) && Harmless(b, c) && KeepsOps(a.clients, b.clients) && KeepsOps(b.clients, c.clients)
    ensures Harmless(a, c) && KeepsOps(a.clients, c.clients)
  {
    HarmlessTrans(a, b, c);
  }

  /** What one accepted message adds to what the log says. */
  lemma Stores(h: History, m: Message)
    requires Coherent(h)
    ensures Coherent(AddMessage(h, m)) && h.msgs <= AddMessage(h, m).msgs
    ensures !OutOfSpace(h) ==>
              && Present(AddMessage(h, m).msgs) == ApplyPresence(Present(h.msgs), m)
              && FromClients(AddMessage(h, m).msgs) == FromClients(h.msgs) + if IsFromClient(m) then [m] else []
  {
    TotalLengthSnoc(h.msgs, m);
    PresentSnoc(h.msgs, m);
    FromClientsSnoc(h.msgs, m);
  }

  lemma AddsToLog(s: Session, m: Message)
    requires s.state != Shutdown
    ensures AddToHistory(s, m).hist == AddMessage(s.hist, m) && AddToHistory(s, m).seen.resets == s.seen.resets
  {
    if OutOfSpace(s.hist) {
      assert AddMessage(s.hist, m) == s.hist;
    }
  }

  /** The query is sent exactly when the log wants a reset and it was not sent before. */
  lemma QueryIff(h: History, threshold: nat, status: AutoReset)
    requires Clamped(h.limit, threshold)
    ensures NextQuery(h, threshold, status) == if status == NotSent && WantsReset(h, threshold) then Queried else status
  {
    ThresholdIff(h, threshold);
  }

  lemma LoggedOk(s: Session, h: History)
    requires LogOk(s) && Coherent(h) && h.limit == s.hist.limit
    ensures LogOk(Logged(s, h))
  {
    QueryIff(h, s.threshold, s.autoReset);
  }

  lemma AddsOk(s: Session, m: Message)
    requires LogOk(s)
    ensures LogOk(AddToHistory(s, m))
  {
    if s.state != Shutdown && !OutOfSpace(s.hist) {
      Stores(s.hist, m);
      LoggedOk(s, AddMessage(s.hist, m));
    }
  }

  /** What one append does to everything an append can touch. */
  lemma Adds(s: Session, m: Message)
    requires LogOk(s)
    ensures var s' := AddToHistory(s, m);
            && s' == s.(hist := s'.hist, autoReset := s'.autoReset, seen := s'.seen)
            && s'.seen == s.seen.(refused := s'.seen.refused, unlisted := s'.seen.unlisted, silent := s'.seen.silent,
                                    early := s'.seen.early)
            && LogOk(s')
            && s'.hist == (if s.state == Shutdown then s.hist else AddMessage(s.hist, m))
            && (s'.seen.refused <==> s.seen.refused || (s.state != Shutdown && OutOfSpace(s.hist) && IsPresence(m)))
  {
    if s.state != Shutdown {
      AddsToLog(s, m);
    }
    AddsOk(s, m);
  }

  lemma AddsServerMessage(s: Session, m: Message)
    requires LogOk(s) && !IsPresence(m) && !IsFromClient(m)
    ensures Harmless(s, AddToHistory(s, m)) && KeepsOps(s.clients, AddToHistory(s, m).clients)
  {
    Adds(s, m);
    Stores(s.hist, m);
  }

  lemma SendsProperties(s: Session)
    requires LogOk(s)
    ensures Harmless(s, SendProperties(s)) && KeepsOps(s.clients, SendProperties(s).clients)
  {
    AddsServerMessage(s, Properties(s));
  }

  lemma SetsClosed(s: Session, closed: bool)
    requires LogOk(s)
    ensures Harmless(s, SetClosed(s, closed)) && KeepsOps(s.clients, SetClosed(s, closed).clients)
  {
    var s' := s.(closed := closed);
    assert Harmless(s, s');
    SendsProperties(s');
    HarmlessTrans(s, s', SendProperties(s'));
  }

  lemma FlagsOps(s: Session, ids: seq<Byte>)
    requires LogOk(s)
    ensures Harmless(s, FlagOps(s, ids))
    ensures forall i :: 0 <= i < |s.clients| ==> FlagOps(s, ids).clients[i] == SetOp(s.clients[i], ids)
  {
  }

  lemma {:induction false} OpIdsMember(clients: seq<Client>, n: nat, i: nat)
    requires i < n <= |clients| && IsOp(clients[i])
    ensures clients[i].id in OpIds(clients, n)
  {
    if i < n - 1 {
      OpIdsMember(clients, n - 1, i);
    }
  }

  /** Granting the flag takes it from nobody: in particular it never deposes a resetter, so the
      general update of the operator list has nobody to kick. */
  lemma Grants(s: Session, id: Byte)
    requires LogOk(s)
    ensures !Deposed(s, AllOpIds(s) + [id])
    ensures Harmless(s, Grant(s, id)) && KeepsOps(s.clients, Grant(s, id).clients)
    ensures forall i :: 0 <= i < |s.clients| && s.clients[i].id == id ==> IsOp(Grant(s, id).clients[i])
  {
    var ids := AllOpIds(s) + [id];
    var s' := FlagOps(s, ids);
    FlagsOps(s, ids);
    forall i | 0 <= i < |s.clients| && IsOp(s.clients[i])
      ensures IsOp(SetOp(s.clients[i], ids))
    {
      OpIdsMember(s.clients, |s.clients|, i);
    }
    AddsServerMessage(s', SessionOwner(AllOpIds(s')));
    HarmlessTrans(s, s', Grant(s, id));
  }

  lemma EnsuresOperator(s: Session)
    requires LogOk(s)
    ensures Harmless(s, EnsureOperatorExists(s)) && KeepsOps(s.clients, EnsureOperatorExists(s).clients)
  {
    if s.hasOpword || s.authOps != {} || HasOp(s.clients) || s.clients == [] {
      HarmlessSelf(s);
    } else {
      Grants(s, s.clients[0].id);
    }
  }

  lemma UpdatesTrusted(s: Session, ids: seq<Byte>)
    requires LogOk(s)
    ensures Harmless(s, UpdateTrusted(s, ids)) && KeepsOps(s.clients, UpdateTrusted(s, ids).clients)
  {
  }

  lemma ChangesTrusted(s: Session, id: Byte)
    requires LogOk(s)
    ensures Harmless(s, ChangeTrusted(s, id)) && KeepsOps(s.clients, ChangeTrusted(s, id).clients)
  {
    var ids := TrustedIds(s.clients, |s.clients|) + [id];
    var s' := UpdateTrusted(s, ids);
    UpdatesTrusted(s, ids);
    AddsServerMessage(s', TrustedUsers(TrustedIds(s'.clients, |s'.clients|)));
    HarmlessKeepsOps(s, s', ChangeTrusted(s, id));
  }

  lemma Configures(s: Session, c: Command)
    requires LogOk(s) && c.SessionConf?
    ensures Harmless(s, Configure(s, c)) && KeepsOps(s.clients, Configure(s, c).clients)
  {
    SendsProperties(Configured(s, c));
    HarmlessTrans(s, Configured(s, c), SendProperties(Configured(s, c)));
  }

  // ---- The invariant ----

  /** Client list, log, buffer size and autoreset bookkeeping are in order, no illegal state change
      happened, and only clients of a session that still initializes are on hold. */
  predicate Sound(s: Session) {
    true == (
      && !s.seen.crashed && ClientsOk(s.clients) && LogOk(s)
      && s.streamSize == TotalLength(s.stream) && NoPresence(s.stream)
      && (s.state == Shutdown ==> s.deleted) && (s.deleted ==> s.clients == [])
      && (s.state != Initialization ==> HeldIds(s.clients) == {}))
  }

  /** The log names exactly the connected users, unless a join or leave did not fit into it. */
  predicate Agrees(s: Session) {
    s.seen.refused || s.deleted || Present(s.hist.msgs) == Ids(s.clients)
  }

  predicate ResetterOk(s: Session) {
    Connected(s, s.initUser) && IsOp(Get(s, s.initUser)) && (s.hist.limit == 0 || s.streamSize <= s.hist.limit)
  }

  predicate Modes(s: Session) {
    true == (
      && (s.state == Running ==> s.initUser == -1)
      && (s.state == Resetting ==> ResetterOk(s))
      && (s.state in {Initialization, Running} ==> s.stream == []))
  }

  predicate Inv(s: Session) {
    Sound(s) && Agrees(s) && Modes(s)
  }

  lemma HarmlessSound(s: Session, s': Session)
    requires Harmless(s, s')
    ensures Sound(s) ==> Sound(s')
    ensures Agrees(s) ==> Agrees(s')
    ensures Ids(s'.clients) == Ids(s.clients) && HeldIds(s'.clients) == HeldIds(s.clients)
    ensures forall id :: Connected(s', id) <==> Connected(s, id)
  {
    SameIds(s.clients, s'.clients);
  }

  lemma HarmlessInv(s: Session, s': Session)
    requires Inv(s) && Harmless(s, s') && KeepsOps(s.clients, s'.clients)
    ensures Inv(s')
  {
    HarmlessSound(s, s');
    SameIndex(s.clients, s'.clients, s.initUser);
  }

  // ---- Resets ----

  lemma {:induction false} PresentJoins(clients: seq<Client>, n: nat)
    requires n <= |clients| && ClientsOk(clients)
    ensures Present(Joins(clients, n)) == Ids(clients[..n])
  {
    if n == 0 {
      assert Joins(clients, n) == [];
    } else {
      PresentJoins(clients, n - 1);
      PresentSnoc(Joins(clients, n - 1), clients[n - 1].join);
      assert ClientOk(clients[n - 1]);
      assert Ids(clients[..n]) == Ids(clients[..n - 1]) + {clients[n - 1].id} by {
        IdsSnoc(clients[..n - 1], clients[n - 1]);
        assert clients[..n - 1] + [clients[n - 1]] == clients[..n];
      }
    }
  }

  lemma IdsSnoc(clients: seq<Client>, c: Client)
    ensures Ids(clients + [c]) == Ids(clients) + {c.id}
    ensures HeldIds(clients + [c]) == HeldIds(clients) + if c.held then {c.id} else {}
  {
    var all := clients + [c];
    assert all[|clients|] == c;
    forall i | 0 <= i < |clients|
      ensures all[i] == clients[i]
    {
    }
  }

  /** A reset image starts by saying who is there. */
  lemma PresentImage(clients: seq<Client>, stream: seq<Message>)
    requires ClientsOk(clients) && NoPresence(stream)
    ensures Present(ServerSide(clients) + stream) == Ids(clients)
  {
    var joins := Joins(clients, |clients|);
    var rest := ServerSide(clients)[|joins|..] + stream;
    assert ServerSide(clients) + stream == joins + rest;
    PresentJoins(clients, |clients|);
    assert clients[..|clients|] == clients;
    PresentSkips(joins, rest);
  }

  /** With nothing uploaded, leaving the reset changes nothing but the state. */
  lemma FinishesEmpty(s: Session)
    ensures FinishReset(ClearStream(s)) == s.(initUser := -1, stream := [], streamSize := 0, state := Running)
  {
  }

  lemma Installing(s: Session, r: Session)
    requires Sound(s) && s.state == Resetting && Installs(s) && r == Reinstalled(s)
    ensures Sound(r) && Agrees(r)
  {
    PresentImage(s.clients, s.stream);
  }

  lemma InstalledLog(s: Session, image: seq<Message>, r: Session)
    requires s.state != Shutdown && Installs(s) && image == ServerSide(s.clients) + s.stream && r == Reinstalled(s)
    ensures var s' := SendProperties(r);
            && s'.hist.first == LastIndex(s.hist) + 1 && s'.hist.base == TotalLength(image) && s'.seen.resets == s.seen.resets + 1
            && s'.hist.msgs == image + (if OutOfSpace(r.hist) then [] else [Properties(r)])
            && (OutOfSpace(r.hist) <==> s.hist.limit > 0 && TotalLength(image) == s.hist.limit)
  {
    AddsToLog(r, Properties(r));
  }

  /** All or nothing: the new log is exactly the server's own messages, the uploaded image and the
      session settings (if there is still room for them), or the old log is untouched. */
  lemma ResetOutcome(s: Session, image: seq<Message>)
    requires s.state != Shutdown && image == ServerSide(s.clients) + s.stream
    ensures var s' := FinishReset(s);
            && s'.stream == [] && s'.initUser == -1
            && if s.stream == [] || !Fits(s.hist, image) then s'.hist == s.hist && s'.seen.resets == s.seen.resets
               else
                 && s'.hist.first == LastIndex(s.hist) + 1 && s'.hist.base == TotalLength(image) && s'.seen.resets == s.seen.resets + 1
                 && s'.hist.msgs == image + (if s.hist.limit > 0 && TotalLength(image) == s.hist.limit then []
                                             else [Properties(Reinstalled(s))])
  {
    if Installs(s) {
      InstalledLog(s, image, Reinstalled(s));
    }
  }

  /** Either way the session runs again, with the same clients and an empty buffer. */
  lemma Finishes(s: Session)
    requires Sound(s) && Agrees(s) && s.state == Resetting
    ensures Inv(FinishReset(s)) && FinishReset(s).state == Running && FinishReset(s).clients == s.clients
  {
    if Installs(s) {
      var r := Reinstalled(s);
      Installing(s, r);
      Adds(r, Properties(r));
      SendsProperties(r);
      HarmlessSound(r, SendProperties(r));
    }
  }

  // ---- Leaving ----

  /** What removing a user starts from; the invariant, except that the resetter itself may be removed
      because it is no longer fit. */
  predicate Removable(s: Session, id: int) {
    && Sound(s) && Agrees(s) && Connected(s, id)
    && (s.state == Running ==> s.initUser == -1)
    && (s.state == Resetting && id != s.initUser ==> ResetterOk(s))
    && (s.state in {Initialization, Running} ==> s.stream == [])
  }

  lemma DepartedFrame(s: Session, id: int)
    requires Connected(s, id)
    ensures var quits := id == s.initUser && s.state == Resetting;
            Departed(s, id) == s.(clients := Without(s.clients, Index(s.clients, id)),
                                  initUser := if quits then -1 else s.initUser,
                                  stream := if quits then [] else s.stream,
                                  streamSize := if quits then 0 else s.streamSize,
                                  state := if quits then Running else s.state)
  {
    FinishesEmpty(s.(clients := Without(s.clients, Index(s.clients, id))));
  }

  /** Another client's departure leaves the resetter where it can be found. */
  lemma WithoutKeeps(clients: seq<Client>, i: nat, id: int)
    requires i < |clients| && clients[i].id != id && Index(clients, id) < |clients|
    ensures var w := Without(clients, i);
            Index(w, id) < |w| && w[Index(w, id)] == clients[Index(clients, id)]
  {
    var w := Without(clients, i);
    var k := Index(clients, id);
    assert w[if k < i then k else k - 1] == clients[k];
    WithoutAt(clients, i);
  }

  lemma DepartedSound(s: Session, id: int)
    requires Removable(s, id)
    ensures Sound(Departed(s, id)) && Modes(Departed(s, id))
    ensures Ids(Departed(s, id).clients) == Ids(s.clients) - {Get(s, id).id}
    ensures HeldIds(Departed(s, id).clients) <= HeldIds(s.clients)
  {
    DepartedFrame(s, id);
    WithoutOk(s.clients, Index(s.clients, id));
    WithoutIds(s.clients, Index(s.clients, id));
    if s.state == Resetting && id != s.initUser {
      WithoutKeeps(s.clients, Index(s.clients, id), s.initUser);
    }
  }

  /** The log went on without a reset and without messages from clients. */
  predicate Continues(s: Session, s': Session) {
    true == (
      && s'.seen.resets == s.seen.resets && s'.hist.first == s.hist.first
      && s'.hist.limit == s.hist.limit && s'.hist.base == s.hist.base
      && s.hist.msgs <= s'.hist.msgs && FromClients(s'.hist.msgs) == FromClients(s.hist.msgs))
  }

  lemma LogsLeave(s: Session, id: Byte)
    requires Sound(s) && Modes(s) && !s.deleted && id !in Ids(s.clients)
    requires s.seen.refused || Present(s.hist.msgs) - {id} == Ids(s.clients)
    ensures Inv(AddToHistory(s, UserLeave(id))) && Continues(s, AddToHistory(s, UserLeave(id)))
  {
    Adds(s, UserLeave(id));
    Stores(s.hist, UserLeave(id));
  }

  lemma Removes(s: Session, id: int)
    requires Removable(s, id)
    ensures Inv(RemoveUser(s, id)) && Continues(s, RemoveUser(s, id))
    ensures SameUsers(Without(s.clients, Index(s.clients, id)), RemoveUser(s, id).clients)
    ensures RemoveUser(s, id).state == Departed(s, id).state && RemoveUser(s, id).initUser == Departed(s, id).initUser
    ensures RemoveUser(s, id).stream == Departed(s, id).stream
    ensures Harmless(AddToHistory(Departed(s, id), UserLeave(Get(s, id).id)), RemoveUser(s, id))
  {
    var d := Departed(s, id);
    var user := Get(s, id).id;
    DepartedFrame(s, id);
    DepartedSound(s, id);
    LogsLeave(d, user);
    var a := AddToHistory(d, UserLeave(user));
    Adds(d, UserLeave(user));
    EnsuresOperator(a);
    var e := EnsureOperatorExists(a);
    HarmlessInv(a, e);
    SetsClosed(e, false);
    HarmlessInv(e, SetClosed(e, false));
    HarmlessTrans(a, e, SetClosed(e, false));
  }

  // ---- Client messages ----

  /** Whoever is still there has the hold queue from before. */
  predicate KeptQueue(clients: seq<Client>, clients': seq<Client>, id: int) {
    var i, i' := Index(clients, id), Index(clients', id);
    i' < |clients'| ==> i < |clients| && clients'[i'].queue == clients[i].queue
  }

  ghost predicate QueuesKept(clients: seq<Client>, clients': seq<Client>) {
    forall id: int :: KeptQueue(clients, clients', id)
  }

  lemma SameQueues(clients: seq<Client>, clients': seq<Client>)
    requires SameUsers(clients, clients')
    ensures QueuesKept(clients, clients')
  {
    forall id: int
      ensures KeptQueue(clients, clients', id)
    {
      SameIndex(clients, clients', id);
      if Index(clients, id) < |clients| {
        assert SameClient(clients[Index(clients, id)], clients'[Index(clients, id)]);
      }
    }
  }

  lemma WithoutQueues(clients: seq<Client>, k: nat)
    requires Distinct(clients) && k < |clients|
    ensures QueuesKept(clients, Without(clients, k))
  {
    var w := Without(clients, k);
    WithoutAt(clients, k);
    forall id: int
      ensures KeptQueue(clients, w, id)
    {
      var i := Index(w, id);
      if i < |w| {
        IndexAt(clients, if i < k then i else i + 1);
      }
    }
  }

  lemma QueuesTrans(a: seq<Client>, b: seq<Client>, c: seq<Client>)
    requires QueuesKept(a, b) && QueuesKept(b, c)
    ensures QueuesKept(a, c)
  {
    forall id: int
      ensures KeptQueue(a, c, id)
    {
      assert KeptQueue(a, b, id) && KeptQueue(b, c, id);
    }
  }

  /** One step of a client's making: no reset, the log goes on with exactly the given
      messages from clients, nobody joins and nobody is put on hold. */
  ghost predicate Follows(s: Session, s': Session, out: seq<Message>) {
    true == (
      && s'.seen.resets == s.seen.resets && s'.hist.first == s.hist.first && s'.hist.limit == s.hist.limit
      && s.hist.msgs <= s'.hist.msgs && FromClients(s'.hist.msgs) == FromClients(s.hist.msgs) + out
      && Ids(s'.clients) <= Ids(s.clients) && HeldIds(s'.clients) <= HeldIds(s.clients)
      && QueuesKept(s.clients, s'.clients)
      && (if s.state == Initialization
          then s'.initUser == s.initUser && s'.stream == s.stream && s'.state in {Initialization, Shutdown}
          else s'.state != Initialization))
  }

  lemma FollowsTrans(a: Session, b: Session, c: Session, out: seq<Message>)
    requires Follows(a, b, []) && Follows(b, c, out) && (a.state == Initialization ==> b.state == Initialization)
    ensures Follows(a, c, out)
  {
    QueuesTrans(a.clients, b.clients, c.clients);
    assert FromClients(a.hist.msgs) + [] == FromClients(a.hist.msgs);
  }

  lemma HarmlessFollows(s: Session, s': Session)
    requires Harmless(s, s')
    ensures Follows(s, s', [])
  {
    SameIds(s.clients, s'.clients);
    SameQueues(s.clients, s'.clients);
    assert FromClients(s.hist.msgs) + [] == FromClients(s.hist.msgs);
  }

  lemma RemovesFollows(s: Session, id: int)
    requires Removable(s, id)
    ensures Inv(RemoveUser(s, id)) && Follows(s, RemoveUser(s, id), [])
    ensures Ids(RemoveUser(s, id).clients) == Ids(s.clients) - {Get(s, id).id}
  {
    Removes(s, id);
    DepartedFrame(s, id);
    WithoutIds(s.clients, Index(s.clients, id));
    SameIds(Without(s.clients, Index(s.clients, id)), RemoveUser(s, id).clients);
    WithoutQueues(s.clients, Index(s.clients, id));
    SameQueues(Without(s.clients, Index(s.clients, id)), RemoveUser(s, id).clients);
    QueuesTrans(s.clients, Without(s.clients, Index(s.clients, id)), RemoveUser(s, id).clients);
    assert FromClients(s.hist.msgs) + [] == FromClients(s.hist.msgs);
  }

  /** What a routed message adds to what the log has from clients. */
  function RouteOut(s: Session, id: int, m: Message): seq<Message> {
    if IsFromClient(m) && !(s.state == Resetting && s.initUser == id) && !OutOfSpace(s.hist) then [m] else []
  }

  lemma Logs(s: Session, m: Message)
    requires Inv(s) && !s.deleted && !IsPresence(m)
    ensures Inv(AddToHistory(s, m))
    ensures Follows(s, AddToHistory(s, m), if IsFromClient(m) && !OutOfSpace(s.hist) then [m] else [])
  {
    Adds(s, m);
    Stores(s.hist, m);
    assert FromClients(s.hist.msgs) + [] == FromClients(s.hist.msgs);
  }

  lemma BuffersOne(s: Session, m: Message)
    requires Inv(s) && s.state == Resetting && !IsPresence(m)
    ensures Removable(Buffered(s, m), s.initUser)
    ensures s.hist.limit == 0 || Buffered(s, m).streamSize <= s.hist.limit ==> Inv(Buffered(s, m))
    ensures Follows(s, Buffered(s, m), [])
  {
    TotalLengthSnoc(s.stream, m);
    assert FromClients(s.hist.msgs) + [] == FromClients(s.hist.msgs);
  }

  /** Removing the resetter ends the reset. */
  lemma QuitsReset(s: Session)
    requires Removable(s, s.initUser) && s.state == Resetting
    ensures RemoveUser(s, s.initUser).state == Running && RemoveUser(s, s.initUser).stream == []
  {
    Removes(s, s.initUser);
    DepartedFrame(s, s.initUser);
  }

  /** An upload message is buffered if the buffer stays within the limit; else its sender is removed
      and the reset with it. */
  lemma Uploads(s: Session, m: Message)
    requires Inv(s) && s.state == Resetting && !IsPresence(m)
    ensures Inv(AddToInitStream(s, m)) && Follows(s, AddToInitStream(s, m), [])
    ensures if s.hist.limit == 0 || s.streamSize + Length(m) <= s.hist.limit
            then AddToInitStream(s, m).state == Resetting && AddToInitStream(s, m).stream == s.stream + [m]
            else AddToInitStream(s, m).state == Running && AddToInitStream(s, m).stream == []
                 && Get(s, s.initUser).id !in Ids(AddToInitStream(s, m).clients)
  {
    BuffersOne(s, m);
    var b := Buffered(s, m);
    if s.hist.limit > 0 && b.streamSize > s.hist.limit {
      assert AddToInitStream(s, m) == RemoveUser(b, s.initUser);
      RemovesFollows(b, s.initUser);
      QuitsReset(b);
      FollowsTrans(s, b, RemoveUser(b, s.initUser), []);
    } else {
      assert AddToInitStream(s, m) == b;
    }
  }

  lemma Routes(s: Session, id: Byte, m: Message)
    requires Inv(s) && !s.deleted && !IsPresence(m)
    ensures Inv(Route(s, id, m)) && Follows(s, Route(s, id, m), RouteOut(s, id, m))
  {
    if s.initUser == id && s.state == Resetting {
      Uploads(s, m);
    } else {
      Logs(s, m);
    }
  }

  /** Changing the operators keeps the invariant: a resetter that loses the flag is removed. */
  lemma UpdatesOwnership(s: Session, ids: seq<Byte>)
    requires Inv(s)
    ensures Inv(UpdateOwnership(s, ids).0) && Follows(s, UpdateOwnership(s, ids).0, [])
    ensures s.state == Initialization ==> UpdateOwnership(s, ids).0.state == Initialization
    ensures forall id: Byte :: id in Ids(s.clients) && id in ids ==> id in Ids(UpdateOwnership(s, ids).0.clients)
    ensures Deposed(s, ids) ==>
              var s' := UpdateOwnership(s, ids).0;
              s'.state == Running && s'.stream == [] && Get(s, s.initUser).id !in Ids(s'.clients)
  {
    var f := FlagOps(s, ids);
    FlagsOps(s, ids);
    HarmlessSound(s, f);
    HarmlessFollows(s, f);
    SameIndex(s.clients, f.clients, s.initUser);
    if Deposed(s, ids) {
      RemovesFollows(f, s.initUser);
      QuitsReset(f);
      FollowsTrans(s, f, RemoveUser(f, s.initUser), []);
    }
  }

  /** What a client's input adds to what the log has from clients: the message, unless it is filtered,
      part of a reset upload or refused by a full log. An operator's lists of operators and trusted
      users are logged as they took effect. */
  function Relayed(s: Session, id: Byte, input: Input): seq<Message>
    requires Connected(s, id)
  {
    if input.Cmd? then []
    else
      var m := input.m;
      if IsPresence(m) || m.kind in {MSG_SOFTRESET, MSG_DISCONNECT, MSG_COMMAND, MSG_PRIVATE_CHAT} then []
      else if m.kind == MSG_SESSION_OWNER then
        if !IsOp(Get(s, id)) then []
        else
          var (s', ids) := UpdateOwnership(s, m.payload + [id]);
          RouteOut(s', id, m.(payload := ids))
      else if m.kind == MSG_TRUSTED_USERS then
        if !IsOp(Get(s, id)) then []
        else
          var s' := UpdateTrusted(s, m.payload);
          RouteOut(s', id, m.(payload := TrustedIds(s'.clients, |s'.clients|)))
      else if m.kind == MSG_CHAT && (Get(s, id).muted || IsBypass(m)) then []
      else RouteOut(s, id, m)
  }

  /** Doing nothing keeps everything. */
  lemma NothingHappens(s: Session)
    requires Inv(s)
    ensures Follows(s, s, [])
  {
    HarmlessSelf(s);
    HarmlessFollows(s, s);
  }

  lemma HandlesPlain(s: Session, id: Byte, m: Message)
    requires Inv(s) && Connected(s, id) && !s.deleted && m.kind !in {MSG_SESSION_OWNER, MSG_TRUSTED_USERS}
    ensures Inv(HandleWire(s, id, m)) && Follows(s, HandleWire(s, id, m), Relayed(s, id, Wire(m)))
  {
    if HandleWire(s, id, m) == s && Relayed(s, id, Wire(m)) == [] {
      NothingHappens(s);
    } else {
      Routes(s, id, m);
    }
  }

  lemma HandlesOwnerList(s: Session, id: Byte, m: Message)
    requires Inv(s) && Connected(s, id) && !s.deleted && m.kind == MSG_SESSION_OWNER
    ensures Inv(HandleWire(s, id, m)) && Follows(s, HandleWire(s, id, m), Relayed(s, id, Wire(m)))
  {
    if IsOp(Get(s, id)) {
      OwnerMessage(s, id, m);
    } else {
      NothingHappens(s);
    }
  }

  lemma HandlesTrustList(s: Session, id: Byte, m: Message)
    requires Inv(s) && Connected(s, id) && !s.deleted && m.kind == MSG_TRUSTED_USERS
    ensures Inv(HandleWire(s, id, m)) && Follows(s, HandleWire(s, id, m), Relayed(s, id, Wire(m)))
  {
    if IsOp(Get(s, id)) {
      TrustMessage(s, id, m);
    } else {
      NothingHappens(s);
    }
  }

  lemma HandlesWire(s: Session, id: Byte, m: Message)
    requires Inv(s) && Connected(s, id) && !s.deleted
    ensures Inv(HandleWire(s, id, m)) && Follows(s, HandleWire(s, id, m), Relayed(s, id, Wire(m)))
  {
    if m.kind == MSG_SESSION_OWNER {
      HandlesOwnerList(s, id, m);
    } else if m.kind == MSG_TRUSTED_USERS {
      HandlesTrustList(s, id, m);
    } else {
      HandlesPlain(s, id, m);
    }
  }

  lemma OwnerMessage(s: Session, id: Byte, m: Message)
    requires Inv(s) && Connected(s, id) && !s.deleted && m.kind == MSG_SESSION_OWNER
    ensures var (s', ids) := UpdateOwnership(s, m.payload + [id]);
            var m' := m.(payload := ids);
            Inv(Route(s', id, m')) && Follows(s, Route(s', id, m'), RouteOut(s', id, m'))
  {
    var (s', ids) := UpdateOwnership(s, m.payload + [id]);
    UpdatesOwnership(s, m.payload + [id]);
    IdsMember(s.clients, id);
    assert s'.clients != [];
    Routes(s', id, m.(payload := ids));
    FollowsTrans(s, s', Route(s', id, m.(payload := ids)), RouteOut(s', id, m.(payload := ids)));
  }

  lemma TrustMessage(s: Session, id: Byte, m: Message)
    requires Inv(s) && !s.deleted && m.kind == MSG_TRUSTED_USERS
    ensures var s' := UpdateTrusted(s, m.payload);
            var m' := m.(payload := TrustedIds(s'.clients, |s'.clients|));
            Inv(Route(s', id, m')) && Follows(s, Route(s', id, m'), RouteOut(s', id, m'))
  {
    var s' := UpdateTrusted(s, m.payload);
    UpdatesTrusted(s, m.payload);
    HarmlessInv(s, s');
    HarmlessFollows(s, s');
    var m' := m.(payload := TrustedIds(s'.clients, |s'.clients|));
    Routes(s', id, m');
    FollowsTrans(s, s', Route(s', id, m'), RouteOut(s', id, m'));
  }

  lemma Harm(s: Session, s': Session)
    requires Inv(s) && Harmless(s, s') && KeepsOps(s.clients, s'.clients)
    ensures Inv(s') && Follows(s, s', [])
  {
    HarmlessInv(s, s');
    HarmlessFollows(s, s');
  }

  lemma MuteIsHarmless(s: Session, i: nat, on: bool)
    requires LogOk(s) && i < |s.clients|
    ensures var s' := s.(clients := s.clients[i := s.clients[i].(muted := on)]);
            Harmless(s, s') && KeepsOps(s.clients, s'.clients)
  {
  }

  lemma Mutes(s: Session, target: Byte, on: bool)
    requires Inv(s)
    ensures Inv(SetMute(s, target, on)) && Follows(s, SetMute(s, target, on), [])
  {
    HarmlessSelf(s);
    if Connected(s, target) {
      MuteIsHarmless(s, Index(s.clients, target), on);
    }
    Harm(s, SetMute(s, target, on));
  }

  lemma Kicks(s: Session, id: Byte, target: Byte)
    requires Inv(s) && Connected(s, id)
    ensures Inv(KickUser(s, id, target)) && Follows(s, KickUser(s, id, target), [])
  {
    HarmlessSelf(s);
    HarmlessFollows(s, s);
    if Connected(s, target) {
      RemovesFollows(s, target);
    }
  }

  /** Starting a reset, clearing the buffer at init-begin, choosing the resetter and shutting down
      leave the log alone. */
  lemma BeginsReset(s: Session, id: Byte)
    requires Inv(s) && Connected(s, id) && s.state == Running && IsOp(Get(s, id))
    ensures Inv(BeginReset(s, id)) && Follows(s, BeginReset(s, id), [])
  {
    assert FromClients(s.hist.msgs) + [] == FromClients(s.hist.msgs);
  }

  lemma ClearsStream(s: Session)
    requires Inv(s)
    ensures Inv(ClearStream(s)) && Follows(s, ClearStream(s), [])
  {
    assert FromClients(s.hist.msgs) + [] == FromClients(s.hist.msgs);
  }

  lemma Asks(s: Session)
    requires Inv(s)
    ensures Inv(ReadyToReset(s)) && Follows(s, ReadyToReset(s), [])
  {
    if s.autoReset != Queried {
      HarmlessSelf(s);
      HarmlessFollows(s, s);
    } else {
      var s' := s.(autoReset := Requested, seen := s.seen.(asked := s.seen.asked + [s.seen.resets]));
      assert AskedOk(s');
      assert FromClients(s.hist.msgs) + [] == FromClients(s.hist.msgs);
    }
  }

  lemma Kills(s: Session)
    requires Inv(s)
    ensures Inv(Kill(s)) && Follows(s, Kill(s), [])
  {
    assert FromClients(s.hist.msgs) + [] == FromClients(s.hist.msgs);
  }

  lemma HandlesCommand(s: Session, id: Byte, cmd: Command)
    requires Inv(s) && Connected(s, id) && !s.deleted
    ensures Inv(HandleCommand(s, id, cmd)) && Follows(s, HandleCommand(s, id, cmd), [])
  {
    HarmlessSelf(s);
    HarmlessFollows(s, s);
    if Allowed(s, Get(s, id), cmd) {
      match cmd
      case Kick(target) => Kicks(s, id, target);
      case GainOp(_) => Grants(s, id); Harm(s, Grant(s, id));
      case SessionConf(_, _, _, _, _) => Configures(s, cmd); Harm(s, Configure(s, cmd));
      case Mute(target, on) => Mutes(s, target, on);
      case ResetSession => if s.state == Running { BeginsReset(s, id); }
      case InitBegin => ClearsStream(s);
      case ReadyToAutoReset => Asks(s);
      case KillSession => Kills(s);
      case _ =>
    }
  }

  lemma Dispatches(s: Session, id: Byte, input: Input)
    requires Inv(s) && Connected(s, id) && !s.deleted
    ensures Inv(Dispatch(s, id, input)) && Follows(s, Dispatch(s, id, input), Relayed(s, id, input))
  {
    match input
    case Wire(m) => HandlesWire(s, id, m);
    case Cmd(c) => HandlesCommand(s, id, c);
  }

  // ---- Leaving Initialization ----

  /** Everyone is still known, nobody new is on hold, and the session is still the initializing one
      or was shut down by a held message. */
  predicate Winds(s: Session, s': Session) {
    true == (
      && s'.seen.resets == s.seen.resets && s'.hist.first == s.hist.first && s.hist.msgs <= s'.hist.msgs
      && Ids(s'.clients) <= Ids(s.clients) && HeldIds(s'.clients) <= HeldIds(s.clients)
      && s'.initUser == s.initUser && s'.stream == s.stream && s'.state in {Initialization, Shutdown})
  }

  lemma WindsTrans(a: Session, b: Session, c: Session)
    requires Winds(a, b) && Winds(b, c)
    ensures Winds(a, c)
  {
  }

  lemma {:induction false} Replays(s: Session, id: Byte, queue: seq<Input>, k: nat)
    requires Inv(s) && s.state in {Initialization, Shutdown} && k <= |queue|
    ensures Inv(Replay(s, id, queue, k)) && Winds(s, Replay(s, id, queue, k))
    decreases |queue| - k
  {
    if k < |queue| && Connected(s, id) {
      var s' := Dispatch(s, id, queue[k]);
      Dispatches(s, id, queue[k]);
      Replays(s', id, queue, k + 1);
      WindsTrans(s, s', Replay(s', id, queue, k + 1));
    }
  }

  function Freed(s: Session, i: nat): Session
    requires i < |s.clients|
  {
    s.(clients := s.clients[i := s.clients[i].(held := false, queue := [])])
  }

  lemma SameIdList(a: seq<Client>, b: seq<Client>)
    requires |a| == |b| && forall k :: 0 <= k < |a| ==> a[k].id == b[k].id
    ensures Ids(a) == Ids(b) && forall id :: Index(a, id) == Index(b, id)
  {
    forall id | id in Ids(a)
      ensures id in Ids(b)
    {
      var k :| 0 <= k < |a| && a[k].id == id;
      assert b[k].id == id;
    }
    forall id | id in Ids(b)
      ensures id in Ids(a)
    {
      var k :| 0 <= k < |b| && b[k].id == id;
      assert a[k].id == id;
    }
  }

  lemma FreedClients(clients: seq<Client>, i: nat)
    requires ClientsOk(clients) && i < |clients|
    ensures var f := clients[i := clients[i].(held := false, queue := [])];
            && ClientsOk(f) && Ids(f) == Ids(clients) && HeldIds(f) <= HeldIds(clients) - {clients[i].id}
            && forall id :: Index(f, id) == Index(clients, id)
  {
    var f := clients[i := clients[i].(held := false, queue := [])];
    assert ClientOk(clients[i]);
    SameIdList(clients, f);
    forall id | id in HeldIds(f)
      ensures id in HeldIds(clients) - {clients[i].id}
    {
      var k :| 0 <= k < |f| && f[k].held && f[k].id == id;
      assert clients[k] == f[k] && k != i;
    }
  }

  lemma Unlocks(s: Session, id: int)
    requires Inv(s) && s.state == Initialization && Connected(s, id)
    ensures Inv(Unlock(s, id)) && Winds(s, Unlock(s, id)) && Get(s, id).id !in HeldIds(Unlock(s, id).clients)
  {
    var i := Index(s.clients, id);
    FreedClients(s.clients, i);
    var f := Freed(s, i);
    assert Inv(f) && Winds(s, f);
    Replays(f, s.clients[i].id, s.clients[i].queue, 0);
    WindsTrans(s, f, Unlock(s, id));
  }

  lemma {:induction false} Releases(s: Session, snapshot: seq<Client>, k: nat)
    requires Inv(s) && s.state in {Initialization, Shutdown} && k <= |snapshot|
    requires forall i :: 0 <= i < k ==> snapshot[i].id !in HeldIds(s.clients)
    ensures Inv(Release(s, snapshot, k)) && Winds(s, Release(s, snapshot, k))
    ensures forall i :: 0 <= i < |snapshot| ==> snapshot[i].id !in HeldIds(Release(s, snapshot, k).clients)
    decreases |snapshot| - k
  {
    if k < |snapshot| {
      var s' := if Connected(s, snapshot[k].id) then Unlock(s, snapshot[k].id) else s;
      if Connected(s, snapshot[k].id) {
        Unlocks(s, snapshot[k].id);
      } else {
        NotHeld(s.clients, snapshot[k].id);
      }
      Releases(s', snapshot, k + 1);
      WindsTrans(s, s', Release(s', snapshot, k + 1));
    }
  }

  lemma NotHeld(clients: seq<Client>, id: Byte)
    requires Index(clients, id) == |clients|
    ensures id !in HeldIds(clients)
  {
  }

  lemma HeldAreIds(clients: seq<Client>)
    ensures HeldIds(clients) <= Ids(clients)
  {
  }

  /** When the host's upload is complete, everybody is released and the session runs. */
  lemma Starts(s: Session)
    requires Inv(s) && s.state == Initialization
    ensures Inv(StartSession(s)) && StartSession(s).state == Running
    ensures StartSession(s).seen.resets == s.seen.resets && s.hist.msgs <= StartSession(s).hist.msgs
  {
    var s0 := s.(initUser := -1);
    assert Inv(s0);
    Releases(s0, s.clients, 0);
    var r := Release(s0, s.clients, 0);
    HeldAreIds(r.clients);
    forall id | id in Ids(s.clients)
      ensures id !in HeldIds(r.clients)
    {
      var i :| 0 <= i < |s.clients| && s.clients[i].id == id;
    }
    assert HeldIds(r.clients) == {};
  }

  // ---- Steps ----

  lemma SwitchesToRunning(s: Session)
    requires Inv(s) && s.state in {Initialization, Resetting}
    ensures Inv(SwitchToRunning(s)) && SwitchToRunning(s).state == Running
  {
    if s.state == Initialization {
      Starts(s);
    } else {
      Finishes(s);
    }
  }

  lemma HandlesMessage(s: Session, id: Byte, input: Input)
    requires Inv(s) && Connected(s, id) && !s.deleted
    ensures Inv(HandleMessage(s, id, input))
  {
    if input == Cmd(InitComplete) || input == Cmd(InitCancel) {
      if IsOp(Get(s, id)) && s.initUser == id {
        ClearsStream(s);
        SwitchesToRunning(if input == Cmd(InitCancel) then ClearStream(s) else s);
      }
    } else {
      Dispatches(s, id, input);
    }
  }

  /** The session with one more message in a hold queue. */
  function Queued(s: Session, i: nat, input: Input): Session
    requires i < |s.clients|
  {
    s.(clients := s.clients[i := s.clients[i].(queue := s.clients[i].queue + [input])])
  }

  lemma Queues(s: Session, i: nat, input: Input)
    requires Inv(s) && i < |s.clients| && s.clients[i].held
    ensures Inv(Queued(s, i, input))
  {
    var q := s.clients[i := s.clients[i].(queue := s.clients[i].queue + [input])];
    SameIdList(s.clients, q);
    assert ClientOk(s.clients[i]);
    forall k | 0 <= k < |q|
      ensures ClientOk(q[k])
    {
      assert ClientOk(s.clients[k]);
    }
    assert s.clients[i].id in HeldIds(s.clients);
  }

  lemma Receives(s: Session, id: Byte, input: Input)
    requires Inv(s) && Connected(s, id) && !s.deleted
    ensures Inv(Receive(s, id, input))
  {
    var i := Index(s.clients, id);
    if s.clients[i].held {
      Queues(s, i, Stamp(s, id, input));
    } else {
      HandlesMessage(s, id, Stamp(s, id, input));
    }
  }

  lemma EntersClients(clients: seq<Client>, c: Client)
    requires ClientsOk(clients) && ClientOk(c) && Index(clients, c.id) == |clients|
    ensures ClientsOk(clients + [c]) && Ids(clients + [c]) == Ids(clients) + {c.id}
    ensures HeldIds(clients + [c]) == HeldIds(clients) + if c.held then {c.id} else {}
  {
    IdsSnoc(clients, c);
  }

  lemma EntersIndex(clients: seq<Client>, c: Client, id: int)
    requires Index(clients, id) < |clients|
    ensures Index(clients + [c], id) == Index(clients, id)
  {
    var i := Index(clients, id);
    assert (clients + [c])[i] == clients[i];
    assert forall k :: 0 <= k < i ==> (clients + [c])[k] == clients[k];
  }

  lemma Seats(s: Session, s': Session)
    requires Inv(s) && !s.deleted && s' == s.(clients := s'.clients, initUser := s'.initUser)
    requires ClientsOk(s'.clients) && (s.state != Initialization ==> HeldIds(s'.clients) == {} && s'.initUser == s.initUser)
    requires s.state == Resetting ==> Connected(s', s.initUser) && Get(s', s.initUser) == Get(s, s.initUser)
    ensures Sound(s') && Modes(s')
  {
  }

  lemma Enters(s: Session, c: Client, host: bool)
    requires Inv(s) && !s.deleted && IsNew(s, c) && (host ==> s.state == Initialization)
    ensures Sound(Entered(s, c, host)) && Modes(Entered(s, c, host))
    ensures Ids(Entered(s, c, host).clients) == Ids(s.clients) + {c.id}
  {
    var c' := c.(held := !host && s.state == Initialization);
    assert ClientOk(c');
    EntersClients(s.clients, c');
    if s.state == Resetting {
      EntersIndex(s.clients, c', s.initUser);
    }
    Seats(s, Entered(s, c, host));
  }

  lemma LogsJoin(s: Session, m: Message, id: Byte)
    requires Sound(s) && Modes(s) && !s.deleted && m.kind == MSG_USER_JOIN && m.ctx == id
    requires s.seen.refused || Present(s.hist.msgs) + {id} == Ids(s.clients)
    ensures Inv(AddToHistory(s, m)) && Continues(s, AddToHistory(s, m))
  {
    Adds(s, m);
    Stores(s.hist, m);
  }

  /** What follows the join message does not touch the list of users. */
  lemma Welcomes(s: Session, c: Client, trusted: bool, host: bool, s1: Session)
    requires Inv(s1) && s1 == AddToHistory(Entered(s, c, host), c.join)
    ensures Inv(JoinUser(s, c, trusted, host)) && Harmless(s1, JoinUser(s, c, trusted, host))
    ensures KeepsOps(s1.clients, JoinUser(s, c, trusted, host).clients)
  {
    HarmlessSelf(s1);
    Grants(s1, c.id);
    var s2 := if IsOp(c) || c.auth in s.authOps then Grant(s1, c.id) else s1;
    HarmlessInv(s1, s2);
    HarmlessSelf(s2);
    ChangesTrusted(s2, c.id);
    var s3 := if trusted || c.auth in s.authTrusted then ChangeTrusted(s2, c.id) else s2;
    HarmlessInv(s2, s3);
    EnsuresOperator(s3);
    HarmlessInv(s3, EnsureOperatorExists(s3));
    HarmlessKeepsOps(s1, s2, s3);
    HarmlessKeepsOps(s1, s3, EnsureOperatorExists(s3));
  }

  lemma JoinsUser(s: Session, c: Client, trusted: bool, host: bool)
    requires Inv(s) && !s.deleted && IsNew(s, c) && (host ==> s.state == Initialization)
    ensures Inv(JoinUser(s, c, trusted, host)) && Continues(s, JoinUser(s, c, trusted, host))
    ensures Ids(JoinUser(s, c, trusted, host).clients) == Ids(s.clients) + {c.id}
    ensures JoinUser(s, c, trusted, host).state == s.state
    ensures Harmless(AddToHistory(Entered(s, c, host), c.join), JoinUser(s, c, trusted, host))
    ensures KeepsOps(AddToHistory(Entered(s, c, host), c.join).clients, JoinUser(s, c, trusted, host).clients)
  {
    var e := Entered(s, c, host);
    Enters(s, c, host);
    LogsJoin(e, c.join, c.id);
    var s1 := AddToHistory(e, c.join);
    Adds(e, c.join);
    Welcomes(s, c, trusted, host, s1);
    HarmlessSound(s1, JoinUser(s, c, trusted, host));
  }

  lemma Revokes(s: Session, id: Byte)
    requires Inv(s) && !s.deleted
    ensures Inv(Revoke(s, id))
  {
    var (s', ids) := UpdateOwnership(s, RemoveOne(AllOpIds(s), id));
    UpdatesOwnership(s, RemoveOne(AllOpIds(s), id));
    Adds(s', SessionOwner(ids));
    AddsServerMessage(s', SessionOwner(ids));
    HarmlessInv(s', AddToHistory(s', SessionOwner(ids)));
  }

  /** Every step keeps the invariant. */
  lemma StepKeeps(s: Session, e: Event)
    requires Inv(s) && Enabled(s, e)
    ensures Inv(Step(s, e))
  {
    match e
    case HostJoin(c, trusted) => JoinsUser(s, c, trusted, true);
    case Join(c, trusted) => JoinsUser(s, c, trusted, false);
    case Leave(id) => RemovesFollows(s, id);
    case Recv(id, input) => Receives(s, id, input);
    case AdminOp(id, op) =>
      Grants(s, id);
      HarmlessInv(s, Grant(s, id));
      Revokes(s, id);
  }
}
