/** Whose name a message carries, and what starts and ends a reset. */
module SessionSenders {
  import opened Messages
  import opened SessionHistory
  import opened SessionModel
  import opened SessionSafety
  import opened SessionHeld
  import opened SessionRuns
  import opened ResetProtocol

  // ---- One message ----

  /** What a plain message from a client becomes: it is logged under the name of whoever sent it, whatever
      name it came with; only the host's upload is logged as it came. It is not logged if the sender is on
      hold, the filter drops it or the log is full. */
  lemma Speaks(s: Session, id: Byte, m: Message)
    requires Inv(s) && Enabled(s, Recv(id, Wire(m))) && !IsList(m) && !Uploading(s, id)
    ensures var logged := if s.initUser == id then m else m.(ctx := id);
            var dropped := Get(s, id).held || Filtered(m, Get(s, id).muted) || OutOfSpace(s.hist);
            Step(s, Recv(id, Wire(m))).hist.msgs == s.hist.msgs + if dropped then [] else [logged]
  {
    var logged := if s.initUser == id then m else m.(ctx := id);
    AddsToLog(s, logged);
  }

  lemma RelayedName(s: Session, id: Byte, m: Message)
    requires Connected(s, id)
    ensures forall m' :: m' in Relayed(s, id, Wire(m)) ==> m'.ctx == m.ctx
  {
  }

  /** Lists included: what the log has from clients grows only by messages under the name of the sender. A
      message that has to wait is put under its name as well, at the end of its hold queue. */
  lemma OwnName(s: Session, id: Byte, m: Message)
    requires Inv(s) && Enabled(s, Recv(id, Wire(m))) && s.initUser != id
    ensures var s' := Step(s, Recv(id, Wire(m)));
            var n := |FromClients(s.hist.msgs)|;
            && FromClients(s.hist.msgs) <= FromClients(s'.hist.msgs)
            && (forall m' :: m' in FromClients(s'.hist.msgs)[n..] ==> m'.ctx == id)
            && (Get(s, id).held ==>
                  && s'.hist == s.hist
                  && s' == Queued(s, Index(s.clients, id), Wire(m.(ctx := id))))
  {
    ReceiveMoves(s, id, Wire(m));
    var out := Sent(s, Recv(id, Wire(m)));
    RelayedName(s, id, m.(ctx := id));
    WireNoReset(s, id, m);
    assert (FromClients(s.hist.msgs) + out)[|FromClients(s.hist.msgs)|..] == out;
  }

  lemma WireNoReset(s: Session, id: Byte, m: Message)
    requires Inv(s) && Enabled(s, Recv(id, Wire(m)))
    ensures Step(s, Recv(id, Wire(m))).seen.resets == s.seen.resets
  {
    var stamped := Stamp(s, id, Wire(m));
    HandlesWire(s, id, stamped.m);
  }

  // ---- What starts and ends a reset ----

  lemma WireKeepsState(s: Session, id: Byte, m: Message)
    requires Inv(s) && Connected(s, id) && s.state == Running
    ensures HandleWire(s, id, m).state == Running
  {
    AddsState(s, m);
    if m.kind == MSG_SESSION_OWNER {
      var f := FlagOps(s, m.payload + [id]);
      AddsState(f, m.(payload := AllOpIds(f)));
    } else if m.kind == MSG_TRUSTED_USERS {
      var f := UpdateTrusted(s, m.payload);
      AddsState(f, m.(payload := TrustedIds(f.clients, |f.clients|)));
    }
  }

  lemma AddsState(s: Session, m: Message)
    ensures AddToHistory(s, m).state == s.state
  {
  }

  lemma CommandState(s: Session, id: Byte, cmd: Command)
    requires Inv(s) && Connected(s, id) && s.state == Running
    ensures HandleCommand(s, id, cmd).state == Resetting <==> cmd == ResetSession && IsOp(Get(s, id))
    ensures cmd == ResetSession && IsOp(Get(s, id)) ==>
              HandleCommand(s, id, cmd) == s.(state := Resetting, initUser := id)
  {
    match cmd
    case Kick(target) => if Connected(s, target) { Removes(s, target); DepartedFrame(s, target); }
    case GainOp(_) => Grants(s, id);
    case SessionConf(_, _, _, _, _) => Configures(s, cmd);
    case _ =>
  }

  lemma RevokeState(s: Session, id: Byte)
    requires Inv(s) && s.state in {Initialization, Running}
    ensures Revoke(s, id).state == s.state
  {
    var f := FlagOps(s, RemoveOne(AllOpIds(s), id));
    AddsState(f, SessionOwner(AllOpIds(f)));
  }

  /** A reset begins only with an operator's request, and then with that operator and an empty buffer. */
  lemma ResetBeginsIff(s: Session, e: Event)
    requires Inv(s) && Enabled(s, e) && s.state == Running
    ensures Step(s, e).state == Resetting <==> e.Recv? && e.input == Cmd(ResetSession) && IsOp(Get(s, e.sender))
    ensures Step(s, e).state == Resetting ==> Step(s, e) == s.(state := Resetting, initUser := e.sender) && s.stream == []
  {
    match e
    case Join(c, trusted) => JoinsUser(s, c, trusted, false);
    case Leave(id) => Removes(s, id); DepartedFrame(s, id);
    case Recv(id, input) =>
      NobodyHeld(s, Index(s.clients, id));
      match Stamp(s, id, input) {
        case Wire(m) => WireKeepsState(s, id, m);
        case Cmd(c) => CommandState(s, id, c);
      }
    case AdminOp(id, op) =>
      Grants(s, id);
      RevokeState(s, id);
  }

  lemma InitNoReset(s: Session, e: Event)
    requires Inv(s) && Enabled(s, e) && s.state == Initialization
    ensures Step(s, e).state != Resetting && Step(s, e).seen.resets == s.seen.resets
  {
    match e
    case HostJoin(c, trusted) => JoinsUser(s, c, trusted, true);
    case Join(c, trusted) => JoinsUser(s, c, trusted, false);
    case Leave(id) => RemovesFollows(s, id);
    case Recv(id, input) => InitRecv(s, id, input, Step(s, e));
    case AdminOp(id, op) =>
      Grants(s, id);
      RevokeState(s, id);
      RevokeCount(s, id);
  }

  lemma InitRecv(s: Session, id: Byte, input: Input, s': Session)
    requires Inv(s) && Enabled(s, Recv(id, input)) && s.state == Initialization && s' == Step(s, Recv(id, input))
    ensures s'.state != Resetting && s'.seen.resets == s.seen.resets
  {
    if !Get(s, id).held {
      if Begins(s, id, input) {
        Starts(s);
      } else {
        Dispatches(s, id, Stamp(s, id, input));
      }
    }
  }

  /** A session starts only when the init user says so. */
  lemma StartIff(s: Session, e: Event)
    requires Inv(s) && Enabled(s, e) && s.state == Initialization
    ensures Step(s, e).state == Running <==> e.Recv? && !Get(s, e.sender).held && Begins(s, e.sender, e.input)
  {
    match e
    case HostJoin(c, trusted) => JoinsUser(s, c, trusted, true);
    case Join(c, trusted) => JoinsUser(s, c, trusted, false);
    case Leave(id) => RemovesFollows(s, id);
    case Recv(id, input) => StartRecv(s, id, input, Step(s, e));
    case AdminOp(id, op) =>
      Grants(s, id);
      RevokeState(s, id);
  }

  lemma StartRecv(s: Session, id: Byte, input: Input, s': Session)
    requires Inv(s) && Enabled(s, Recv(id, input)) && s.state == Initialization && s' == Step(s, Recv(id, input))
    ensures s'.state == Running <==> !Get(s, id).held && Begins(s, id, input)
  {
    if !Get(s, id).held {
      if Begins(s, id, input) {
        Starts(s);
      } else {
        Dispatches(s, id, Stamp(s, id, input));
      }
    }
  }

  lemma RevokeCount(s: Session, id: Byte)
    requires Inv(s)
    ensures Revoke(s, id).seen.resets == s.seen.resets
  {
    var (s', ids) := UpdateOwnership(s, RemoveOne(AllOpIds(s), id));
    UpdatesOwnership(s, RemoveOne(AllOpIds(s), id));
    Adds(s', SessionOwner(ids));
  }

  lemma FinishCount(s: Session)
    requires s.state == Resetting
    ensures FinishReset(s).seen.resets != s.seen.resets <==> Installs(s)
  {
    ResetOutcome(s, ServerSide(s.clients) + s.stream);
  }

  /** What the init user makes of its reset. */
  lemma EndCount(s: Session, id: Byte, input: Input)
    requires Inv(s) && Uploading(s, id) && (input == Cmd(InitComplete) || input == Cmd(InitCancel))
    ensures Step(s, Recv(id, input)) == FinishReset(if input == Cmd(InitCancel) then ClearStream(s) else s)
    ensures Step(s, Recv(id, input)).seen.resets != s.seen.resets <==> input == Cmd(InitComplete) && Installs(s)
  {
    NobodyHeld(s, Index(s.clients, id));
    FinishCount(s);
    FinishesEmpty(s);
  }

  /** The log is replaced only when the resetter has completed an upload that is not empty and fits. */
  lemma ReplacedIff(s: Session, e: Event)
    requires Inv(s) && Enabled(s, e)
    ensures Step(s, e).seen.resets != s.seen.resets <==>
              s.state == Resetting && e == Recv(s.initUser, Cmd(InitComplete)) && Installs(s)
    ensures Step(s, e).seen.resets != s.seen.resets ==> Step(s, e) == FinishReset(s)
  {
    match e
    case HostJoin(c, trusted) => JoinsUser(s, c, trusted, true);
    case Join(c, trusted) => JoinsUser(s, c, trusted, false);
    case Leave(id) => RemovesFollows(s, id);
    case Recv(id, input) => RecvReplaces(s, id, input);
    case AdminOp(id, op) =>
      Grants(s, id);
      RevokeCount(s, id);
  }

  lemma RecvReplaces(s: Session, id: Byte, input: Input)
    requires Inv(s) && Enabled(s, Recv(id, input))
    ensures Step(s, Recv(id, input)).seen.resets != s.seen.resets <==>
              s.state == Resetting && s.initUser == id && input == Cmd(InitComplete) && Installs(s)
    ensures Step(s, Recv(id, input)).seen.resets != s.seen.resets ==> Step(s, Recv(id, input)) == FinishReset(s)
  {
    if s.state == Initialization {
      InitNoReset(s, Recv(id, input));
    } else {
      NobodyHeld(s, Index(s.clients, id));
      if input == Cmd(InitComplete) || input == Cmd(InitCancel) {
        if s.state == Resetting && s.initUser == id {
          EndCount(s, id, input);
        }
      } else {
        Dispatches(s, id, Stamp(s, id, input));
      }
    }
  }

  /** The reset goes on, or is over with the resetter gone. */
  predicate GoneOrOn(r: int, s': Session) {
    s'.state == Running ==> r !in Ids(s'.clients)
  }

  lemma RemoveGone(s: Session, id: int)
    requires Removable(s, id) && s.state == Resetting
    ensures GoneOrOn(s.initUser, RemoveUser(s, id))
  {
    RemovesFollows(s, id);
    Removes(s, id);
    DepartedFrame(s, id);
  }

  lemma OwnershipGone(s: Session, ids: seq<Byte>)
    requires Inv(s) && s.state == Resetting
    ensures GoneOrOn(s.initUser, UpdateOwnership(s, ids).0)
  {
    var f := FlagOps(s, ids);
    FlagsOps(s, ids);
    if Deposed(s, ids) {
      HarmlessSound(s, f);
      SameIndex(s.clients, f.clients, s.initUser);
      RemoveGone(f, s.initUser);
    }
  }

  lemma AddsGone(r: int, s: Session, m: Message)
    requires GoneOrOn(r, s)
    ensures GoneOrOn(r, AddToHistory(s, m))
  {
  }

  /** Routing goes to a buffer only while the reset goes on. */
  lemma RouteGone(r: int, s: Session, id: Byte, m: Message)
    requires Inv(s) && s.state != Initialization && !IsPresence(m) && GoneOrOn(r, s) && (s.state == Resetting ==> s.initUser == r)
    ensures GoneOrOn(r, Route(s, id, m))
  {
    if s.initUser == id && s.state == Resetting {
      Uploads(s, m);
    } else {
      AddsGone(r, s, m);
    }
  }

  lemma WireGone(s: Session, id: Byte, m: Message)
    requires Inv(s) && Connected(s, id) && s.state == Resetting
    ensures GoneOrOn(s.initUser, HandleWire(s, id, m))
  {
    if IsPresence(m) {
    } else if m.kind == MSG_SESSION_OWNER {
      var (s', ids) := UpdateOwnership(s, m.payload + [id]);
      OwnershipGone(s, m.payload + [id]);
      OwnershipLeaves(s, m.payload + [id]);
      UpdatesOwnership(s, m.payload + [id]);
      RouteGone(s.initUser, s', id, m.(payload := ids));
    } else if m.kind == MSG_TRUSTED_USERS {
      var s' := UpdateTrusted(s, m.payload);
      UpdatesTrusted(s, m.payload);
      HarmlessInv(s, s');
      RouteGone(s.initUser, s', id, m.(payload := TrustedIds(s'.clients, |s'.clients|)));
    } else {
      RouteGone(s.initUser, s, id, m);
    }
  }

  lemma CommandGone(s: Session, id: Byte, cmd: Command)
    requires Inv(s) && Connected(s, id) && s.state == Resetting
    ensures GoneOrOn(s.initUser, HandleCommand(s, id, cmd))
  {
    match cmd
    case Kick(target) => if Connected(s, target) { RemoveGone(s, target); }
    case GainOp(_) => Grants(s, id);
    case SessionConf(_, _, _, _, _) => Configures(s, cmd);
    case _ =>
  }

  lemma RevokeGone(s: Session, id: Byte)
    requires Inv(s) && s.state == Resetting
    ensures GoneOrOn(s.initUser, Revoke(s, id))
  {
    var (s', ids) := UpdateOwnership(s, RemoveOne(AllOpIds(s), id));
    OwnershipGone(s, RemoveOne(AllOpIds(s), id));
    AddsGone(s.initUser, s', SessionOwner(ids));
  }

  /** The resetter says that it is done. */
  predicate Concludes(s: Session, e: Event) {
    e.Recv? && e.sender == s.initUser && (e.input == Cmd(InitComplete) || e.input == Cmd(InitCancel))
  }

  lemma NotConcluded(s: Session, e: Event)
    requires Inv(s) && Enabled(s, e) && s.state == Resetting && !Concludes(s, e)
    ensures GoneOrOn(s.initUser, Step(s, e))
  {
    match e
    case Join(c, trusted) => JoinsUser(s, c, trusted, false);
    case Leave(id) => RemoveGone(s, id);
    case Recv(id, input) =>
      NobodyHeld(s, Index(s.clients, id));
      match Stamp(s, id, input) {
        case Wire(m) => WireGone(s, id, m);
        case Cmd(c) => CommandGone(s, id, c);
      }
    case AdminOp(id, op) =>
      Grants(s, id);
      RevokeGone(s, id);
  }

  lemma Concluded(s: Session, e: Event)
    requires Inv(s) && Enabled(s, e) && s.state == Resetting && Concludes(s, e)
    ensures Step(s, e).state == Running
  {
    EndCount(s, e.sender, e.input);
    ClearsStream(s);
    Finishes(if e.input == Cmd(InitCancel) then ClearStream(s) else s);
  }

  lemma OnOrOver(s: Session, e: Event, s': Session)
    requires Inv(s) && Enabled(s, e) && s.state == Resetting && s' == Step(s, e) && !s'.deleted
    ensures s'.state == Running || (s'.state == Resetting && s'.initUser == s.initUser && s.initUser in Ids(s'.clients))
  {
    StepKeeps(s, e);
    StepMoves(s, e);
    if s'.state == Resetting {
      UploadGoesOn(s, e, s.initUser);
      IdsMember(s'.clients, s.initUser);
    }
  }

  /** A reset ends only when the resetter says so, or is no longer there. */
  lemma ResetEndsIff(s: Session, e: Event, s': Session)
    requires Inv(s) && Enabled(s, e) && s.state == Resetting && s' == Step(s, e) && !s'.deleted
    ensures s'.state == Running <==> Concludes(s, e) || s.initUser !in Ids(s'.clients)
  {
    OnOrOver(s, e, s');
    if Concludes(s, e) {
      Concluded(s, e);
    } else {
      NotConcluded(s, e);
    }
  }

  // ---- Nobody speaks for somebody else ----

  /** The event is a message under the name of x: sent by x, or by the init user, who uploads under any name. */
  predicate SpeaksAs(s: Session, e: Event, x: Byte) {
    e.Recv? && e.input.Wire? && x == if s.initUser == e.sender then e.input.m.ctx else e.sender
  }

  predicate Silent(s: Session, events: seq<Event>, x: Byte)
    requires Runnable(s, events)
    decreases |events|
  {
    events == [] || (!SpeaksAs(s, events[0], x) && Silent(Step(s, events[0]), events[1..], x))
  }

  ghost predicate NamesNot(ms: seq<Message>, x: Byte) {
    forall m :: m in ms ==> m.ctx != x
  }

  predicate NoneHeld(queue: seq<Input>, x: Byte) {
    forall j :: 0 <= j < |queue| && queue[j].Wire? ==> queue[j].m.ctx != x
  }

  predicate NoneWaits(clients: seq<Client>, x: Byte) {
    forall i :: 0 <= i < |clients| ==> NoneHeld(clients[i].queue, x)
  }

  /** Nothing that came from a client is under the name of x: in the log, in a running upload or on hold. */
  ghost predicate Unheard(s: Session, x: Byte) {
    && NamesNot(FromClients(s.hist.msgs), x)
    && (s.state == Resetting ==> NamesNot(s.stream, x))
    && (s.state == Initialization ==> NoneWaits(s.clients, x))
  }

  lemma {:induction false} FromClientsHas(ms: seq<Message>, m: Message)
    ensures m in FromClients(ms) <==> m in ms && IsFromClient(m)
  {
    if ms != [] {
      FromClientsHas(ms[..|ms| - 1], m);
      assert ms == ms[..|ms| - 1] + [ms[|ms| - 1]];
    }
  }

  lemma {:induction false} QueueNames(s: Session, id: Byte, queue: seq<Input>, x: Byte)
    requires NoneHeld(queue, x)
    ensures NamesNot(QueueSent(s, id, queue), x)
    decreases |queue|
  {
    if queue != [] && Connected(s, id) {
      if queue[0].Wire? {
        RelayedName(s, id, queue[0].m);
      }
      QueueNames(Dispatch(s, id, queue[0]), id, queue[1..], x);
    }
  }

  lemma {:induction false} HeldNames(s: Session, clients: seq<Client>, x: Byte)
    requires NoneWaits(clients, x)
    ensures NamesNot(HeldSent(s, clients), x)
    decreases |clients|
  {
    if clients != [] {
      assert NoneHeld(clients[0].queue, x);
      if Connected(s, clients[0].id) {
        QueueNames(Freed(s, Index(s.clients, clients[0].id)), clients[0].id, clients[0].queue, x);
        HeldNames(Unlock(s, clients[0].id), clients[1..], x);
      } else {
        HeldNames(s, clients[1..], x);
      }
    }
  }

  lemma SentNames(s: Session, e: Event, x: Byte)
    requires Inv(s) && Enabled(s, e) && Unheard(s, x) && !SpeaksAs(s, e, x)
    ensures NamesNot(Sent(s, e), x)
  {
    if e.Recv? && !Get(s, e.sender).held {
      if Begins(s, e.sender, e.input) {
        HeldNames(s.(initUser := -1), s.clients, x);
      } else if e.input.Wire? {
        RelayedName(s, e.sender, Stamp(s, e.sender, e.input).m);
      }
    }
  }

  lemma {:induction false} JoinsArePresence(clients: seq<Client>, n: nat, m: Message)
    requires ClientsOk(clients) && n <= |clients| && m in Joins(clients, n)
    ensures IsPresence(m)
  {
    assert ClientOk(clients[n - 1]);
    if m != clients[n - 1].join {
      JoinsArePresence(clients, n - 1, m);
    }
  }

  /** A reset image has nothing from clients but the upload. */
  lemma ImageNames(s: Session, image: seq<Message>, x: Byte, m: Message)
    requires ClientsOk(s.clients) && image == ServerSide(s.clients) + s.stream && NamesNot(s.stream, x)
    requires m in image && IsFromClient(m)
    ensures m.ctx != x
  {
    if m in Joins(s.clients, |s.clients|) {
      JoinsArePresence(s.clients, |s.clients|, m);
    }
  }

  lemma ReplacedNames(s: Session, s': Session, image: seq<Message>, x: Byte)
    requires Inv(s) && s.state == Resetting && Installs(s) && NamesNot(s.stream, x)
    requires s' == FinishReset(s) && image == ServerSide(s.clients) + s.stream
    ensures NamesNot(FromClients(s'.hist.msgs), x)
  {
    ResetOutcome(s, image);
    forall m | m in FromClients(s'.hist.msgs)
      ensures m.ctx != x
    {
      FromClientsHas(s'.hist.msgs, m);
      if m in image {
        ImageNames(s, image, x, m);
      }
    }
  }

  lemma LogNames(s: Session, e: Event, x: Byte, s': Session)
    requires Inv(s) && Enabled(s, e) && Unheard(s, x) && !SpeaksAs(s, e, x) && s' == Step(s, e)
    ensures NamesNot(FromClients(s'.hist.msgs), x)
  {
    ReplacedIff(s, e);
    if s'.seen.resets != s.seen.resets {
      ReplacedNames(s, s', ServerSide(s.clients) + s.stream, x);
    } else {
      StepMoves(s, e);
      SentNames(s, e, x);
    }
  }

  lemma AcceptedNames(s: Session, r: Byte, m: Message, x: Byte)
    requires Connected(s, r) && m.ctx != x
    ensures NamesNot(Accepted(s, r, m), x)
  {
  }

  /** As long as there is a reset going on, it is that of the same client. */
  lemma UploadGoesOn(s: Session, e: Event, r: Byte)
    requires Inv(s) && Uploading(s, r) && Enabled(s, e) && Step(s, e).state == Resetting
    ensures Uploading(Step(s, e), r)
  {
    StepKeeps(s, e);
    if !(e.Recv? && e.sender == r) {
      OthersLeave(s, e, r);
    } else {
      NobodyHeld(s, Index(s.clients, r));
      match e.input
      case Wire(m) => OwnUpload(s, r, m);
      case Cmd(c) =>
        if c == InitComplete || c == InitCancel {
          Finishes(if c == InitCancel then ClearStream(s) else s);
        } else if c != InitBegin {
          CommandLeaves(s, r, c);
        }
    }
  }

  lemma UploadNames(s: Session, e: Event, x: Byte, s': Session)
    requires Inv(s) && Enabled(s, e) && Unheard(s, x) && !SpeaksAs(s, e, x) && s' == Step(s, e) && s'.state == Resetting
    ensures NamesNot(s'.stream, x)
  {
    if s.state == Resetting {
      UploadGoesOn(s, e, s.initUser);
      UploadStep(s, e, s.initUser);
      if e.Recv? && e.sender == s.initUser && e.input.Wire? {
        AcceptedNames(s, s.initUser, e.input.m, x);
      }
    } else if s.state == Initialization {
      InitNoReset(s, e);
    } else {
      ResetBeginsIff(s, e);
    }
  }

  lemma KeptNames(clients: seq<Client>, clients': seq<Client>, x: Byte)
    requires QueuesKept(clients, clients') && Distinct(clients') && NoneWaits(clients, x)
    ensures NoneWaits(clients', x)
  {
    forall i | 0 <= i < |clients'|
      ensures NoneHeld(clients'[i].queue, x)
    {
      IndexAt(clients', i);
      assert KeptQueue(clients, clients', clients'[i].id);
    }
  }

  lemma EnteredNames(clients: seq<Client>, clients': seq<Client>, c: Client, x: Byte)
    requires SameUsers(clients + [c], clients') && NoneWaits(clients, x) && c.queue == []
    ensures NoneWaits(clients', x)
  {
    var all := clients + [c];
    forall i | 0 <= i < |all|
      ensures NoneHeld(clients'[i].queue, x)
    {
      assert SameClient(all[i], clients'[i]);
      assert NoneHeld(all[i].queue, x);
    }
  }

  lemma JoinNames(s: Session, c: Client, trusted: bool, host: bool, x: Byte)
    requires Inv(s) && !s.deleted && IsNew(s, c) && s.state == Initialization && NoneWaits(s.clients, x)
    ensures NoneWaits(JoinUser(s, c, trusted, host).clients, x)
  {
    JoinsUser(s, c, trusted, host);
    Enters(s, c, host);
    Adds(Entered(s, c, host), c.join);
    EnteredNames(s.clients, JoinUser(s, c, trusted, host).clients, c.(held := !host), x);
  }

  lemma RevokeQueues(s: Session, id: Byte)
    requires Inv(s) && !s.deleted
    ensures QueuesKept(s.clients, Revoke(s, id).clients)
  {
    var (s', ids) := UpdateOwnership(s, RemoveOne(AllOpIds(s), id));
    UpdatesOwnership(s, RemoveOne(AllOpIds(s), id));
    Adds(s', SessionOwner(ids));
  }

  lemma QueuedNames(s: Session, i: nat, input: Input, x: Byte)
    requires i < |s.clients| && NoneWaits(s.clients, x) && (input.Wire? ==> input.m.ctx != x)
    ensures NoneWaits(Queued(s, i, input).clients, x)
  {
    assert NoneHeld(s.clients[i].queue, x);
  }

  lemma RecvWaits(s: Session, id: Byte, input: Input, x: Byte, s': Session)
    requires Inv(s) && Enabled(s, Recv(id, input)) && s.state == Initialization && NoneWaits(s.clients, x)
    requires !SpeaksAs(s, Recv(id, input), x) && s' == Step(s, Recv(id, input)) && s'.state == Initialization && Inv(s')
    ensures NoneWaits(s'.clients, x)
  {
    var stamped := Stamp(s, id, input);
    if Get(s, id).held {
      QueuedNames(s, Index(s.clients, id), stamped, x);
    } else if Begins(s, id, input) {
      Starts(s);
      assert false;
    } else {
      assert s' == Dispatch(s, id, stamped);
      Dispatches(s, id, stamped);
      KeptNames(s.clients, s'.clients, x);
    }
  }

  lemma WaitNames(s: Session, e: Event, x: Byte)
    requires Inv(s) && Enabled(s, e) && Unheard(s, x) && !SpeaksAs(s, e, x) && Step(s, e).state == Initialization
    ensures NoneWaits(Step(s, e).clients, x)
  {
    StepMoves(s, e);
    StepKeeps(s, e);
    match e
    case HostJoin(c, trusted) => JoinNames(s, c, trusted, true, x);
    case Join(c, trusted) => JoinNames(s, c, trusted, false, x);
    case Leave(id) =>
      RemovesFollows(s, id);
      KeptNames(s.clients, Step(s, e).clients, x);
    case Recv(id, input) => RecvWaits(s, id, input, x, Step(s, e));
    case AdminOp(id, op) =>
      Grants(s, id);
      SameQueues(s.clients, Grant(s, id).clients);
      SameQueues(s.clients, s.clients);
      RevokeQueues(s, id);
      KeptNames(s.clients, Step(s, e).clients, x);
  }

  lemma UnheardStep(s: Session, e: Event, x: Byte)
    requires Inv(s) && Enabled(s, e) && Unheard(s, x) && !SpeaksAs(s, e, x)
    ensures Unheard(Step(s, e), x)
  {
    LogNames(s, e, x, Step(s, e));
    if Step(s, e).state == Resetting {
      UploadNames(s, e, x, Step(s, e));
    } else if Step(s, e).state == Initialization {
      WaitNames(s, e, x);
    }
  }

  lemma {:induction false} UnheardRun(s: Session, events: seq<Event>, x: Byte)
    requires Inv(s) && Unheard(s, x) && Runnable(s, events) && Silent(s, events, x)
    ensures Unheard(Run(s, events), x)
    decreases |events|
  {
    if events != [] {
      StepKeeps(s, events[0]);
      UnheardStep(s, events[0], x);
      UnheardRun(Step(s, events[0]), events[1..], x);
    }
  }

  /** Over every run, resets and held messages included: as long as x itself says nothing and nobody who is
      uploading says anything under its name, the log has nothing under its name, whatever name the other
      clients put on their messages. */
  lemma NobodySpeaksFor(s: Session, events: seq<Event>, x: Byte)
    requires Init(s) && Runnable(s, events) && Silent(s, events, x)
    requires forall m :: m in s.hist.msgs && IsFromClient(m) ==> m.ctx != x
    ensures forall m :: m in Run(s, events).hist.msgs && IsFromClient(m) ==> m.ctx != x
  {
    InitInv(s);
    forall m | m in FromClients(s.hist.msgs)
      ensures m.ctx != x
    {
      FromClientsHas(s.hist.msgs, m);
    }
    UnheardRun(s, events, x);
    forall m | m in Run(s, events).hist.msgs && IsFromClient(m)
      ensures m.ctx != x
    {
      FromClientsHas(Run(s, events).hist.msgs, m);
    }
  }
}
