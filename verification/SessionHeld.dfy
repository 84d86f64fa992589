/** What becomes of the messages that clients send while the session still initializes. */
module SessionHeld {
  import opened Wrappers
  import opened Messages
  import opened SessionHistory
  import opened SessionModel
  import opened SessionSafety

  // ---- The filter ----

  /** Messages of a client that never get further than the server: those only servers send, carried
      commands, and chat that is private, bypasses the log or comes from a muted client. */
  predicate Filtered(m: Message, muted: bool) {
    || IsPresence(m) || m.kind in {MSG_SOFTRESET, MSG_DISCONNECT, MSG_COMMAND, MSG_PRIVATE_CHAT}
    || (m.kind == MSG_CHAT && (muted || IsBypass(m)))
  }

  /** Lists of operators and of trusted users take effect and are passed on as they took effect. */
  predicate IsList(m: Message) {
    m.kind in {MSG_SESSION_OWNER, MSG_TRUSTED_USERS}
  }

  /** What is left of some messages. */
  function Kept(ms: seq<Message>, muted: bool): seq<Message> {
    if ms == [] then [] else (if Filtered(ms[0], muted) then [] else [ms[0]]) + Kept(ms[1..], muted)
  }

  // ---- In general ----

  /** What the held messages of one client add to what the log has from clients, each in the state that the
      ones before it have led to. */
  function QueueSent(s: Session, id: Byte, queue: seq<Input>): seq<Message>
    decreases |queue|
  {
    if queue == [] || !Connected(s, id) then []
    else Relayed(s, id, queue[0]) + QueueSent(Dispatch(s, id, queue[0]), id, queue[1..])
  }

  /** And those of all clients, in the order of the list. */
  function HeldSent(s: Session, clients: seq<Client>): seq<Message>
    decreases |clients|
  {
    if clients == [] then []
    else if !Connected(s, clients[0].id) then HeldSent(s, clients[1..])
    else
      QueueSent(Freed(s, Index(s.clients, clients[0].id)), clients[0].id, clients[0].queue)
      + HeldSent(Unlock(s, clients[0].id), clients[1..])
  }

  /** The log goes on with exactly these messages from clients. */
  predicate Grows(s: Session, s': Session, out: seq<Message>) {
    && s'.seen.resets == s.seen.resets && s'.hist.first == s.hist.first && s'.hist.limit == s.hist.limit
    && s.hist.msgs <= s'.hist.msgs && FromClients(s'.hist.msgs) == FromClients(s.hist.msgs) + out
  }

  lemma GrowsTrans(a: Session, b: Session, c: Session, x: seq<Message>, y: seq<Message>)
    requires Grows(a, b, x) && Grows(b, c, y)
    ensures Grows(a, c, x + y)
  {
    assert FromClients(a.hist.msgs) + (x + y) == FromClients(a.hist.msgs) + x + y;
  }

  lemma GrowsNothing(s: Session, s': Session)
    requires s'.hist == s.hist && s'.seen.resets == s.seen.resets
    ensures Grows(s, s', [])
  {
    assert FromClients(s.hist.msgs) + [] == FromClients(s.hist.msgs);
  }

  lemma HeldStep(s: Session, id: Byte, input: Input, s': Session)
    requires Inv(s) && s.state in {Initialization, Shutdown} && Connected(s, id) && s' == Dispatch(s, id, input)
    ensures Inv(s') && s'.state in {Initialization, Shutdown}
    ensures Grows(s, s', Relayed(s, id, input)) && QueuesKept(s.clients, s'.clients)
  {
    Dispatches(s, id, input);
  }

  lemma {:induction false} ReplayGrows(s: Session, id: Byte, queue: seq<Input>, k: nat)
    requires Inv(s) && s.state in {Initialization, Shutdown} && k <= |queue|
    ensures Grows(s, Replay(s, id, queue, k), QueueSent(s, id, queue[k..]))
    ensures QueuesKept(s.clients, Replay(s, id, queue, k).clients)
    decreases |queue| - k
  {
    if k == |queue| || !Connected(s, id) {
      GrowsNothing(s, s);
    } else {
      var s' := Dispatch(s, id, queue[k]);
      HeldStep(s, id, queue[k], s');
      ReplayGrows(s', id, queue, k + 1);
      assert queue[k..][0] == queue[k] && queue[k..][1..] == queue[k + 1..];
      GrowsTrans(s, s', Replay(s', id, queue, k + 1), Relayed(s, id, queue[k]), QueueSent(s', id, queue[k + 1..]));
      QueuesTrans(s.clients, s'.clients, Replay(s', id, queue, k + 1).clients);
    }
  }

  /** The queues of these clients are as they were. */
  predicate Awaits(s: Session, clients: seq<Client>) {
    forall j :: 0 <= j < |clients| && Connected(s, clients[j].id) ==> Get(s, clients[j].id).queue == clients[j].queue
  }

  lemma AwaitsOn(s: Session, s': Session, clients: seq<Client>)
    requires Awaits(s, clients) && QueuesKept(s.clients, s'.clients)
    ensures Awaits(s', clients)
  {
    forall j | 0 <= j < |clients| && Connected(s', clients[j].id)
      ensures Get(s', clients[j].id).queue == clients[j].queue
    {
      assert KeptQueue(s.clients, s'.clients, clients[j].id);
    }
  }

  /** Releasing one client leaves the queues of the others alone. */
  lemma FreedAwaits(s: Session, i: nat, rest: seq<Client>)
    requires ClientsOk(s.clients) && i < |s.clients| && Awaits(s, rest)
    requires forall j :: 0 <= j < |rest| ==> rest[j].id != s.clients[i].id
    ensures Awaits(Freed(s, i), rest)
  {
    FreedClients(s.clients, i);
  }

  lemma UnlockGrows(s: Session, c: Client, rest: seq<Client>)
    requires Inv(s) && s.state == Initialization && Connected(s, c.id) && Get(s, c.id).queue == c.queue && Awaits(s, rest)
    requires forall j :: 0 <= j < |rest| ==> rest[j].id != c.id
    ensures Grows(s, Unlock(s, c.id), QueueSent(Freed(s, Index(s.clients, c.id)), c.id, c.queue))
    ensures Awaits(Unlock(s, c.id), rest)
  {
    var i := Index(s.clients, c.id);
    var f := Freed(s, i);
    FreedInv(s, i);
    ReplayGrows(f, c.id, c.queue, 0);
    assert c.queue[0..] == c.queue;
    GrowsNothing(s, f);
    GrowsTrans(s, f, Unlock(s, c.id), [], QueueSent(f, c.id, c.queue));
    assert [] + QueueSent(f, c.id, c.queue) == QueueSent(f, c.id, c.queue);
    FreedAwaits(s, i, rest);
    AwaitsOn(f, Unlock(s, c.id), rest);
  }

  lemma FreedInv(s: Session, i: nat)
    requires Inv(s) && s.state == Initialization && i < |s.clients|
    ensures Inv(Freed(s, i))
  {
    FreedClients(s.clients, i);
  }

  lemma {:induction false} ReleaseGrows(s: Session, snapshot: seq<Client>, k: nat)
    requires Inv(s) && s.state in {Initialization, Shutdown} && k <= |snapshot| && Distinct(snapshot) && Awaits(s, snapshot[k..])
    ensures Grows(s, Release(s, snapshot, k), HeldSent(s, snapshot[k..]))
    decreases |snapshot| - k
  {
    if k == |snapshot| {
      GrowsNothing(s, s);
    } else {
      var c, rest := snapshot[k], snapshot[k + 1..];
      assert snapshot[k..][0] == c && snapshot[k..][1..] == rest;
      assert forall j :: 0 <= j < |rest| ==> rest[j] == snapshot[k..][j + 1];
      if Connected(s, c.id) {
        UnlockGrows(s, c, rest);
        Unlocks(s, c.id);
        var s' := Unlock(s, c.id);
        ReleaseGrows(s', snapshot, k + 1);
        GrowsTrans(s, s', Release(s', snapshot, k + 1), QueueSent(Freed(s, Index(s.clients, c.id)), c.id, c.queue),
                   HeldSent(s', rest));
      } else {
        ReleaseGrows(s, snapshot, k + 1);
      }
    }
  }

  lemma AwaitsAll(s: Session)
    requires Distinct(s.clients)
    ensures Awaits(s, s.clients)
  {
    forall j | 0 <= j < |s.clients|
      ensures Get(s, s.clients[j].id).queue == s.clients[j].queue
    {
      IndexAt(s.clients, j);
    }
  }

  /** When the session starts, the log gains exactly what the held messages come to. */
  lemma StartGrows(s: Session)
    requires Inv(s) && s.state == Initialization
    ensures Grows(s, StartSession(s), HeldSent(s.(initUser := -1), s.clients))
  {
    var s0 := s.(initUser := -1);
    assert Inv(s0);
    AwaitsAll(s0);
    assert s.clients[0..] == s.clients;
    ReleaseGrows(s0, s.clients, 0);
  }

  // ---- Held messages that are only passed on ----

  predicate PlainQueue(queue: seq<Input>) {
    forall j :: 0 <= j < |queue| ==> queue[j].Wire? && !IsList(queue[j].m)
  }

  predicate AllPlain(clients: seq<Client>) {
    forall i :: 0 <= i < |clients| ==> PlainQueue(clients[i].queue)
  }

  function Contents(queue: seq<Input>): seq<Message>
    requires PlainQueue(queue)
  {
    seq(|queue|, j requires 0 <= j < |queue| => queue[j].m)
  }

  /** The held messages in the order of the clients and of their queues, as far as the filter keeps them. */
  function Delivered(clients: seq<Client>): seq<Message>
    requires AllPlain(clients)
  {
    if clients == [] then []
    else
      assert PlainQueue(clients[0].queue);
      Kept(Contents(clients[0].queue), clients[0].muted) + Delivered(clients[1..])
  }

  /** A log with these messages appended, as far as they fit. */
  function AddAll(h: History, ms: seq<Message>): History
    decreases |ms|
  {
    if ms == [] then h else AddAll(AddMessage(h, ms[0]), ms[1..])
  }

  lemma {:induction false} AddAllConcat(h: History, a: seq<Message>, b: seq<Message>)
    ensures AddAll(h, a + b) == AddAll(AddAll(h, a), b)
    decreases |a|
  {
    if a == [] {
      assert a + b == b;
    } else {
      assert (a + b)[0] == a[0] && (a + b)[1..] == a[1..] + b;
      AddAllConcat(AddMessage(h, a[0]), a[1..], b);
    }
  }

  lemma {:induction false} AddAllUnlimited(h: History, ms: seq<Message>)
    requires h.limit == 0
    ensures AddAll(h, ms).msgs == h.msgs + ms
    decreases |ms|
  {
    if ms != [] {
      AddAllUnlimited(AddMessage(h, ms[0]), ms[1..]);
      assert h.msgs + [ms[0]] + ms[1..] == h.msgs + ms;
    }
  }

  /** A session between Initialization and Running. */
  predicate Starting(s: Session) {
    s.state == Initialization && s.initUser == -1
  }

  lemma PassesOn(s: Session, id: Byte, m: Message, s': Session)
    requires Starting(s) && Connected(s, id) && !IsList(m) && s' == Dispatch(s, id, Wire(m))
    ensures Starting(s') && s'.clients == s.clients
    ensures s'.hist == if Filtered(m, Get(s, id).muted) then s.hist else AddMessage(s.hist, m)
  {
    AddsToLog(s, m);
  }

  lemma ContentsFirst(queue: seq<Input>, k: nat)
    requires PlainQueue(queue) && k < |queue|
    ensures PlainQueue(queue[k..]) && PlainQueue(queue[k + 1..])
    ensures Contents(queue[k..])[0] == queue[k].m && Contents(queue[k..])[1..] == Contents(queue[k + 1..])
  {
  }

  lemma KeptFirstOf(h: History, ms: seq<Message>, muted: bool, h': History)
    requires ms != [] && h' == if Filtered(ms[0], muted) then h else AddMessage(h, ms[0])
    ensures AddAll(h, Kept(ms, muted)) == AddAll(h', Kept(ms[1..], muted))
  {
    var first := if Filtered(ms[0], muted) then [] else [ms[0]];
    AddAllConcat(h, first, Kept(ms[1..], muted));
    assert AddAll(h', []) == h';
  }

  lemma {:induction false} PlainReplay(s: Session, id: Byte, queue: seq<Input>, k: nat)
    requires Starting(s) && Connected(s, id) && PlainQueue(queue) && k <= |queue|
    ensures PlainQueue(queue[k..]) && Starting(Replay(s, id, queue, k)) && Replay(s, id, queue, k).clients == s.clients
    ensures Replay(s, id, queue, k).hist == AddAll(s.hist, Kept(Contents(queue[k..]), Get(s, id).muted))
    decreases |queue| - k
  {
    if k < |queue| {
      var s' := Dispatch(s, id, queue[k]);
      PassesOn(s, id, queue[k].m, s');
      PlainReplay(s', id, queue, k + 1);
      ContentsFirst(queue, k);
      KeptFirstOf(s.hist, Contents(queue[k..]), Get(s, id).muted, s'.hist);
    }
  }

  lemma PlainUnlock(s: Session, i: nat)
    requires Starting(s) && Distinct(s.clients) && i < |s.clients| && PlainQueue(s.clients[i].queue)
    ensures var s' := Unlock(s, s.clients[i].id);
            && Connected(s, s.clients[i].id) && Starting(s') && s'.clients == Freed(s, i).clients
            && s'.hist == AddAll(s.hist, Kept(Contents(s.clients[i].queue), s.clients[i].muted))
  {
    IndexAt(s.clients, i);
    var f := Freed(s, i);
    assert Distinct(f.clients);
    IndexAt(f.clients, i);
    assert s.clients[i].queue[0..] == s.clients[i].queue;
    PlainReplay(f, s.clients[i].id, s.clients[i].queue, 0);
  }

  /** The first k clients of the snapshot are released, the others are as they were. */
  predicate ReleasedTo(s: Session, snapshot: seq<Client>, k: nat) {
    && Starting(s) && |s.clients| == |snapshot|
    && (forall j :: 0 <= j < |snapshot| ==> s.clients[j].id == snapshot[j].id)
    && (forall j :: k <= j < |snapshot| ==> s.clients[j] == snapshot[j])
  }

  lemma {:induction false} PlainRelease(s: Session, snapshot: seq<Client>, k: nat)
    requires k <= |snapshot| && ReleasedTo(s, snapshot, k) && Distinct(snapshot) && AllPlain(snapshot)
    ensures AllPlain(snapshot[k..]) && Release(s, snapshot, k).hist == AddAll(s.hist, Delivered(snapshot[k..]))
    decreases |snapshot| - k
  {
    if k < |snapshot| {
      assert Distinct(s.clients);
      PlainUnlock(s, k);
      var s' := Unlock(s, snapshot[k].id);
      PlainRelease(s', snapshot, k + 1);
      assert snapshot[k..][0] == snapshot[k] && snapshot[k..][1..] == snapshot[k + 1..];
      AddAllConcat(s.hist, Kept(Contents(snapshot[k].queue), snapshot[k].muted), Delivered(snapshot[k + 1..]));
    }
  }

  /** If the held messages are neither commands nor lists, the log at the start of the session is the one from
      before with exactly these messages appended, client by client and in the order they were sent, as
      far as the filter keeps them and they fit. */
  lemma HeldDelivered(s: Session)
    requires Inv(s) && s.state == Initialization && AllPlain(s.clients)
    ensures StartSession(s).hist == AddAll(s.hist, Delivered(s.clients))
    ensures s.hist.limit == 0 ==> StartSession(s).hist.msgs == s.hist.msgs + Delivered(s.clients)
  {
    var s0 := s.(initUser := -1);
    PlainRelease(s0, s.clients, 0);
    assert s.clients[0..] == s.clients;
    if s.hist.limit == 0 {
      AddAllUnlimited(s.hist, Delivered(s.clients));
    }
  }
}
