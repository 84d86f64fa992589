/** The session object. Each method carries out one operation on the fields, and is proved to have
    exactly the effect that the state machine model gives it. */
module Session {
  import opened Wrappers
  import opened Messages
  import opened SessionHistory
  import M = SessionModel
  import Safety = SessionSafety
  import Runs = SessionRuns

  class Session {
    var state: M.State
    var initUser: int
    var clients: seq<M.Client>
    var resetStream: seq<Message>
    var resetStreamSize: nat
    var history: History
    var threshold: nat
    var autoResetStatus: M.AutoReset
    var hasOpword: bool
    var closed: bool
    var deputies: bool
    var conf: seq<Byte>
    var authOps: set<string>
    var authTrusted: set<string>
    var deleted: bool
    ghost var seen: M.Seen

    ghost function View(): M.Session
      reads this
    {
      M.Session(state, initUser, clients, resetStream, resetStreamSize, history, threshold, autoResetStatus,
                hasOpword, closed, deputies, conf, authOps, authTrusted, deleted, seen)
    }

    /** A session over a history in which nobody is left behind is an initial one of the model, and so
        keeps the invariant from the start; with existing content it skips Initialization. */
    constructor (h: History, threshold: nat)
      ensures Coherent(h) && Present(h.msgs) == {} ==> Runs.Init(View()) && Valid()
      ensures history == h && this.threshold == Clamp(h.limit, threshold)
      ensures clients == [] && !hasOpword && !closed && !deputies && conf == [] && authOps == {} && authTrusted == {}
    {
      state := if h.size > 0 then M.Running else M.Initialization;
      initUser, clients, resetStream, resetStreamSize := -1, [], [], 0;
      history, this.threshold, autoResetStatus := h, Clamp(h.limit, threshold), M.NotSent;
      hasOpword, closed, deputies, conf, authOps, authTrusted := false, false, false, [], {}, {};
      deleted, seen := false, M.Seen(false, [], false, false, false, false, 0);
      new;
      if Coherent(h) && Present(h.msgs) == {} {
        Runs.InitInv(View());
      }
    }

    // ---- Clients ----

    method GetClientById(id: int) returns (i: nat)
      ensures i == M.Index(clients, id)
    {
      i := 0;
      while i < |clients| && clients[i].id != id
        invariant i <= |clients| && forall k :: 0 <= k < i ==> clients[k].id != id
      {
        i := i + 1;
      }
    }

    method OperatorIds() returns (ids: seq<Byte>)
      ensures ids == M.AllOpIds(View())
    {
      ids := [];
      for i := 0 to |clients|
        invariant ids == M.OpIds(clients, i)
      {
        if M.IsOp(clients[i]) {
          ids := ids + [clients[i].id];
        }
      }
    }

    method TrustedUserIds() returns (ids: seq<Byte>)
      ensures ids == M.TrustedIds(clients, |clients|)
    {
      ids := [];
      for i := 0 to |clients|
        invariant ids == M.TrustedIds(clients, i)
      {
        if clients[i].trusted {
          ids := ids + [clients[i].id];
        }
      }
    }

    method ServerSideStateMessages() returns (msgs: seq<Message>)
      ensures msgs == M.ServerSide(clients)
    {
      msgs := [];
      for i := 0 to |clients|
        invariant msgs == M.Joins(clients, i)
      {
        msgs := msgs + [clients[i].join];
      }
      var owners := OperatorIds();
      var trusted := TrustedUserIds();
      msgs := msgs + [M.SessionOwner(owners)];
      if trusted != [] {
        msgs := msgs + [M.TrustedUsers(trusted)];
      }
    }

    // ---- The log ----

    /** The log has grown: is it time for the autoreset query? */
    method LogGrew(h: History)
      modifies `history, `autoResetStatus, `seen
      ensures View() == M.Logged(old(View()), h)
    {
      var t := EffectiveThreshold(h, threshold);
      var status := if t > 0 && autoResetStatus == M.NotSent && h.size > t then M.Queried else autoResetStatus;
      seen := seen.(silent := seen.silent || (WantsReset(h, threshold) && status == M.NotSent),
                    early := seen.early || (status != autoResetStatus && !WantsReset(h, threshold)));
      history, autoResetStatus := h, status;
    }

    method AddToHistory(m: Message)
      modifies `history, `autoResetStatus, `seen
      ensures View() == M.AddToHistory(old(View()), m)
    {
      if state != M.Shutdown {
        if OutOfSpace(history) {
          seen := seen.(refused := seen.refused || IsPresence(m), unlisted := seen.unlisted || m.kind == MSG_SESSION_OWNER);
        } else {
          LogGrew(AddMessage(history, m));
        }
      }
    }

    method SendUpdatedSessionProperties()
      modifies `history, `autoResetStatus, `seen
      ensures View() == M.SendProperties(old(View()))
    {
      AddToHistory(Message(MSG_COMMAND, 0, [M.Flag(closed), M.Flag(deputies), M.Flag(hasOpword)] + M.Number(threshold)
                                           + M.Number(history.base) + conf));
    }

    method SetClosed(close: bool)
      modifies `closed, `history, `autoResetStatus, `seen
      ensures View() == M.SetClosed(old(View()), close)
    {
      if closed != close {
        closed := close;
        SendUpdatedSessionProperties();
      }
    }

    // ---- Operators ----

    /** Sets one client's flag and remembers the account; tells whether the flag was lost. */
    method SetOperator(i: nat, ids: seq<Byte>) returns (lost: bool)
      requires i < |clients|
      modifies `clients, `authOps
      ensures clients == old(clients)[i := M.SetOp(old(clients)[i], ids)]
      ensures authOps == M.Remember(old(authOps), old(clients)[i], ids)
      ensures lost == (M.IsOp(old(clients)[i]) && !M.IsOp(M.SetOp(old(clients)[i], ids)))
    {
      var c := clients[i];
      var op := c.id in ids || c.mod;
      lost := false;
      if op != M.IsOp(c) {
        lost := !op;
        clients := clients[i := c.(op := op)];
        if c.auth != "" && !c.mod {
          authOps := if op then authOps + {c.auth} else authOps - {c.auth};
        }
      }
    }

    /** The flags of all clients, one after the other. Tells whether a resetter lost its flag. */
    method SetOperators(ids: seq<Byte>) returns (kickResetter: bool)
      modifies `clients, `authOps
      ensures View() == M.FlagOps(old(View()), ids)
      ensures kickResetter == Deposes(old(View()), ids, |old(clients)|)
    {
      kickResetter := false;
      ghost var before := clients;
      assert M.SetOps(before, ids, 0) == before;
      for i := 0 to |clients|
        modifies `clients, `authOps
        invariant |clients| == |before|
        invariant clients == M.SetOps(before, ids, i)
        invariant authOps == M.RememberOps(old(authOps), before, ids, i)
        invariant kickResetter <==> Deposes(old(View()), ids, i)
      {
        SetOpsNext(before, ids, i);
        var lost := SetOperator(i, ids);
        if lost && clients[i].id == initUser && state == M.Resetting {
          kickResetter := true;
        }
      }
    }

    /** Sets the flags, and kicks a resetter that lost its flag: its upload would otherwise end up in
        the session once the reset mode is over. */
    method UpdateOwnership(ids: seq<Byte>) returns (truelist: seq<Byte>)
      requires Safety.Distinct(clients)
      modifies this
      ensures (View(), truelist) == M.UpdateOwnership(old(View()), ids) && Safety.Distinct(clients)
      decreases |clients|, 1
    {
      ghost var before := View();
      var kickResetter := SetOperators(ids);
      DeposesIs(before, ids);
      FlaggedDistinct(before, ids);
      truelist := OperatorIds();
      if kickResetter {
        FlaggedIndex(before, ids, initUser);
        RemoveUser(initUser);
      }
    }

    method ChangeOpStatus(id: Byte, op: bool)
      requires Safety.Distinct(clients)
      modifies this
      ensures View() == (if op then M.Grant(old(View()), id) else M.Revoke(old(View()), id)) && Safety.Distinct(clients)
      decreases |clients|, 2
    {
      var ids := OperatorIds();
      if op {
        NobodyDeposed(View(), id);
      }
      ids := UpdateOwnership(if op then ids + [id] else M.RemoveOne(ids, id));
      AddToHistory(M.SessionOwner(ids));
    }

    method EnsureOperatorExists()
      requires Safety.Distinct(clients)
      modifies this
      ensures View() == M.EnsureOperatorExists(old(View())) && Safety.Distinct(clients)
      decreases |clients|, 3
    {
      if !hasOpword && authOps == {} {
        var hasOp := false;
        for i := 0 to |clients|
          invariant hasOp <==> exists k :: 0 <= k < i && M.IsOp(clients[k])
        {
          hasOp := hasOp || M.IsOp(clients[i]);
        }
        if !hasOp && clients != [] {
          ChangeOpStatus(clients[0].id, true);
        }
      }
    }

    // ---- Leaving and resets ----

    /** Whether there is an upload and it fits, together with the server's own messages. */
    method ResetImage() returns (image: seq<Message>, installs: bool)
      ensures image == M.ServerSide(clients) + resetStream && installs == M.Installs(View())
    {
      var serverSide := ServerSideStateMessages();
      image := serverSide + resetStream;
      var size := SumLengths(image);
      installs := resetStream != [] && (history.limit == 0 || size <= history.limit);
    }

    method RestartLog(h: History)
      modifies `history, `autoResetStatus, `seen
      ensures View() == old(View()).(hist := h, autoReset := M.NotSent, seen := seen)
      ensures seen == old(seen).(refused := false, unlisted := false, resets := old(seen.resets) + 1)
    {
      history, autoResetStatus := h, M.NotSent;
      seen := seen.(refused := false, unlisted := false, resets := seen.resets + 1);
    }

    method Reinstall(h: History)
      modifies `initUser, `history, `autoResetStatus, `seen
      ensures View() == M.Restarted(old(View()), h)
    {
      initUser := -1;
      RestartLog(h);
    }

    method CloseReset()
      modifies `resetStream, `resetStreamSize, `state
      ensures View() == old(View()).(stream := [], streamSize := 0, state := M.Running)
    {
      resetStream, resetStreamSize, state := [], 0, M.Running;
    }

    /** From Resetting to Running: the upload, if any, becomes the new log. */
    method FinishReset()
      modifies `initUser, `history, `autoResetStatus, `seen, `resetStream, `resetStreamSize, `state
      ensures View() == M.FinishReset(old(View()))
    {
      var image, installs := ResetImage();
      if installs {
        Reinstall(Reset(history, image));
        SendUpdatedSessionProperties();
      } else {
        initUser := -1;
      }
      CloseReset();
    }

    method ClearResetStream()
      modifies `resetStream, `resetStreamSize
      ensures View() == M.ClearStream(old(View()))
    {
      resetStream, resetStreamSize := [], 0;
    }

    /** Takes the client off the list; a reset it was performing is cancelled. */
    method Depart(id: int, i: nat)
      requires i == M.Index(clients, id) < |clients|
      modifies `clients, `initUser, `history, `autoResetStatus, `seen, `resetStream, `resetStreamSize, `state
      ensures View() == M.Departed(old(View()), id) && clients == M.Without(old(clients), i)
    {
      clients := clients[..i] + clients[i + 1..];
      if id == initUser && state == M.Resetting {
        ClearResetStream();
        FinishReset();
      }
    }

    method RemoveUser(id: int)
      requires Safety.Distinct(clients)
      modifies this
      ensures View() == M.RemoveUser(old(View()), id) && Safety.Distinct(clients)
      decreases |clients|, 0
    {
      var i := GetClientById(id);
      if i < |clients| {
        var user := clients[i].id;
        DistinctWithout(clients, i);
        Depart(id, i);
        AddToHistory(UserLeave(user));
        EnsureOperatorExists();
        if clients == [] {
          SetClosed(false);
        }
      }
    }

    // ---- Trusted users ----

    /** Sets one client's flag and remembers the account. */
    method SetTrusted(i: nat, ids: seq<Byte>)
      requires i < |clients|
      modifies `clients, `authTrusted
      ensures clients == old(clients)[i := M.SetTrust(old(clients)[i], ids)]
      ensures authTrusted ==
              var c := old(clients)[i];
              if (c.id in ids) == c.trusted || c.auth == "" then old(authTrusted)
              else if c.id in ids then old(authTrusted) + {c.auth} else old(authTrusted) - {c.auth}
    {
      var c := clients[i];
      var trusted := c.id in ids;
      clients := clients[i := c.(trusted := trusted)];
      if trusted != c.trusted && c.auth != "" {
        authTrusted := if trusted then authTrusted + {c.auth} else authTrusted - {c.auth};
      }
    }

    method UpdateTrustedUsers(ids: seq<Byte>) returns (truelist: seq<Byte>)
      requires Safety.Distinct(clients)
      modifies `clients, `authTrusted
      ensures View() == M.UpdateTrusted(old(View()), ids) && truelist == M.TrustedIds(clients, |clients|)
      ensures Safety.Distinct(clients)
    {
      ghost var before := clients;
      assert M.SetTrusts(before, ids, 0) == before;
      for i := 0 to |clients|
        modifies `clients, `authTrusted
        invariant |clients| == |before| && clients == M.SetTrusts(before, ids, i)
        invariant authTrusted == M.RememberTrust(old(authTrusted), before, ids, i)
      {
        SetTrustsNext(before, ids, i);
        SetTrusted(i, ids);
      }
      truelist := TrustedUserIds();
    }

    method ChangeTrustedStatus(id: Byte)
      requires Safety.Distinct(clients)
      modifies `clients, `authTrusted, `history, `autoResetStatus, `seen
      ensures View() == M.ChangeTrusted(old(View()), id) && Safety.Distinct(clients)
    {
      var ids := TrustedUserIds();
      ids := UpdateTrustedUsers(ids + [id]);
      AddToHistory(M.TrustedUsers(ids));
    }

    // ---- Client messages ----

    method Buffer(m: Message)
      modifies `resetStream, `resetStreamSize
      ensures View() == M.Buffered(old(View()), m)
    {
      resetStreamSize := resetStreamSize + Length(m);
      resetStream := resetStream + [m];
    }

    /** The host's upload goes into the log, a resetter's into the buffer; an oversize one ends with
        the resetter being kicked. */
    method AddToInitStream(m: Message)
      requires Safety.Distinct(clients)
      modifies this
      ensures View() == M.AddToInitStream(old(View()), m) && Safety.Distinct(clients)
    {
      if state == M.Initialization {
        AddToHistory(m);
      } else if state == M.Resetting {
        Buffer(m);
        if history.limit > 0 && resetStreamSize > history.limit {
          RemoveUser(initUser);
        }
      }
    }

    method Route(id: Byte, m: Message)
      requires Safety.Distinct(clients)
      modifies this
      ensures View() == M.Route(old(View()), id, m) && Safety.Distinct(clients)
    {
      if initUser == id {
        AddToInitStream(m);
      } else {
        AddToHistory(m);
      }
    }

    method HandleWire(id: Byte, m: Message)
      requires Safety.Distinct(clients) && M.Connected(View(), id)
      modifies this
      ensures View() == M.HandleWire(old(View()), id, m) && Safety.Distinct(clients)
    {
      var i := GetClientById(id);
      var c := clients[i];
      if IsPresence(m) || m.kind in {MSG_SOFTRESET, MSG_DISCONNECT, MSG_COMMAND, MSG_PRIVATE_CHAT} {
      } else if m.kind == MSG_SESSION_OWNER {
        if M.IsOp(c) {
          var ids := UpdateOwnership(m.payload + [id]);
          Route(id, m.(payload := ids));
        }
      } else if m.kind == MSG_TRUSTED_USERS {
        if M.IsOp(c) {
          var ids := UpdateTrustedUsers(m.payload);
          Route(id, m.(payload := ids));
        }
      } else if !(m.kind == MSG_CHAT && (c.muted || M.IsBypass(m))) {
        Route(id, m);
      }
    }

    // ---- Commands ----

    method SetAccess(close: bool, limit: nat)
      modifies `closed, `threshold
      ensures View() == old(View()).(closed := close, threshold := limit)
    {
      closed, threshold := close, limit;
    }

    method SetRights(opword: bool, deputize: bool, other: seq<Byte>)
      modifies `hasOpword, `deputies, `conf
      ensures View() == old(View()).(hasOpword := opword, deputies := deputize, conf := other)
    {
      hasOpword, deputies, conf := opword, deputize, other;
    }

    method ApplyConfig(c: M.Command)
      requires c.SessionConf?
      modifies `closed, `threshold, `hasOpword, `deputies, `conf
      ensures View() == M.Configured(old(View()), c)
    {
      var limit := if c.setThreshold.Some? then Clamp(history.limit, c.setThreshold.value) else threshold;
      SetAccess(M.Or(c.setClosed, closed), limit);
      SetRights(M.Or(c.setOpword, hasOpword), M.Or(c.setDeputies, deputies), M.Or(c.setOther, conf));
    }

    method SetSessionConfig(c: M.Command)
      requires c.SessionConf?
      modifies `closed, `threshold, `hasOpword, `deputies, `conf, `history, `autoResetStatus, `seen
      ensures View() == M.Configure(old(View()), c)
    {
      if c != M.SessionConf(None, None, None, None, None) {
        ApplyConfig(c);
        SendUpdatedSessionProperties();
      }
    }

    method KickUser(id: Byte, target: Byte)
      requires Safety.Distinct(clients) && M.Connected(View(), id)
      modifies this
      ensures View() == M.KickUser(old(View()), id, target) && Safety.Distinct(clients)
    {
      var i := GetClientById(id);
      var k := GetClientById(target);
      if 1 <= target <= 254 && k < |clients| && target != id {
        var c, t := clients[i], clients[k];
        var isDeputy := !M.IsOp(c) && c.trusted && deputies;
        if !t.mod && !(isDeputy && (M.IsOp(t) || t.trusted)) {
          RemoveUser(target);
        }
      }
    }

    method SetMute(target: Byte, on: bool)
      requires Safety.Distinct(clients)
      modifies `clients
      ensures View() == M.SetMute(old(View()), target, on) && Safety.Distinct(clients)
    {
      var k := GetClientById(target);
      if 1 <= target <= 254 && k < |clients| {
        clients := clients[k := clients[k].(muted := on)];
      }
    }

    method ReadyToAutoReset()
      modifies `autoResetStatus, `seen
      ensures View() == M.ReadyToReset(old(View()))
    {
      if autoResetStatus == M.Queried {
        autoResetStatus := M.Requested;
        seen := seen.(asked := seen.asked + [seen.resets]);
      }
    }

    method ResetSession(id: Byte)
      modifies `initUser, `state, `resetStream, `resetStreamSize
      ensures View() == if old(state) == M.Running then M.BeginReset(old(View()), id) else old(View())
    {
      if state == M.Running {
        initUser, state := id, M.Resetting;
        resetStream, resetStreamSize := [], 0;
      }
    }

    method KillSession()
      modifies `state, `clients, `deleted
      ensures View() == M.Kill(old(View())) && (old(Safety.Distinct(clients)) ==> Safety.Distinct(clients))
    {
      if state != M.Shutdown {
        state, clients, deleted := M.Shutdown, [], true;
      }
    }

    /** The commands that do not end an upload, behind the privilege check. */
    method HandleCommand(id: Byte, cmd: M.Command)
      requires Safety.Distinct(clients) && M.Connected(View(), id)
      modifies this
      ensures View() == M.HandleCommand(old(View()), id, cmd) && Safety.Distinct(clients)
    {
      var i := GetClientById(id);
      var c := clients[i];
      var isDeputy := !M.IsOp(c) && c.trusted && deputies;
      match cmd
      case GainOp(correct) =>
        if hasOpword && correct {
          ChangeOpStatus(id, true);
        }
      case KillSession =>
        if c.mod {
          KillSession();
        }
      case Kick(target) =>
        if M.IsOp(c) || isDeputy {
          KickUser(id, target);
        }
      case Mute(target, on) =>
        if M.IsOp(c) {
          SetMute(target, on);
        }
      case SessionConf(_, _, _, _, _) =>
        if M.IsOp(c) {
          SetSessionConfig(cmd);
        }
      case ReadyToAutoReset =>
        if M.IsOp(c) {
          ReadyToAutoReset();
        }
      case ResetSession =>
        if M.IsOp(c) {
          ResetSession(id);
        }
      case InitBegin =>
        if M.IsOp(c) && initUser == id && resetStreamSize > 0 {
          ClearResetStream();
        }
      case _ =>
    }

    method Dispatch(id: Byte, input: M.Input)
      requires Safety.Distinct(clients) && M.Connected(View(), id)
      modifies this
      ensures View() == M.Dispatch(old(View()), id, input) && Safety.Distinct(clients)
    {
      match input
      case Wire(m) => HandleWire(id, m);
      case Cmd(c) => HandleCommand(id, c);
    }

    // ---- Leaving Initialization ----

    method SetFree(i: nat)
      requires i < |clients| && Safety.Distinct(clients)
      modifies `clients
      ensures View() == Safety.Freed(old(View()), i) && Safety.Distinct(clients)
    {
      clients := clients[i := clients[i].(held := false, queue := [])];
    }

    /** Releases one client and handles what it had sent, as long as it is still there. */
    method SetHoldUnlocked(id: Byte)
      requires Safety.Distinct(clients) && M.Connected(View(), id)
      modifies this
      ensures View() == M.Unlock(old(View()), id) && Safety.Distinct(clients)
    {
      var i := GetClientById(id);
      var queue := clients[i].queue;
      SetFree(i);
      var k := 0;
      var at := GetClientById(id);
      while k < |queue| && at < |clients|
        invariant k <= |queue| && Safety.Distinct(clients) && at == M.Index(clients, id)
        invariant M.Replay(View(), id, queue, k) == M.Unlock(old(View()), id)
        decreases |queue| - k
      {
        Dispatch(id, queue[k]);
        k := k + 1;
        at := GetClientById(id);
      }
    }

    method ReleaseAll(snapshot: seq<M.Client>)
      requires Safety.Distinct(clients)
      modifies this
      ensures View() == M.Release(old(View()), snapshot, 0) && Safety.Distinct(clients)
    {
      for k := 0 to |snapshot|
        invariant Safety.Distinct(clients) && M.Release(View(), snapshot, k) == M.Release(old(View()), snapshot, 0)
      {
        var at := GetClientById(snapshot[k].id);
        if at < |clients| {
          SetHoldUnlocked(snapshot[k].id);
        }
      }
    }

    /** Everybody on the list is released; the state is assigned last. */
    method StartSession()
      requires Safety.Distinct(clients)
      modifies this
      ensures View() == M.StartSession(old(View())) && Safety.Distinct(clients)
    {
      initUser := -1;
      ReleaseAll(clients);
      state := M.Running;
    }

    method SwitchToRunning()
      requires Safety.Distinct(clients)
      modifies this
      ensures View() == M.SwitchToRunning(old(View())) && Safety.Distinct(clients)
    {
      match state
      case Initialization => StartSession();
      case Resetting => FinishReset();
      case _ => seen := seen.(crashed := true);
    }

    method HandleClientMessage(id: Byte, input: M.Input)
      requires Safety.Distinct(clients) && M.Connected(View(), id)
      modifies this
      ensures View() == M.HandleMessage(old(View()), id, input) && Safety.Distinct(clients)
    {
      if input == M.Cmd(M.InitComplete) || input == M.Cmd(M.InitCancel) {
        var i := GetClientById(id);
        if M.IsOp(clients[i]) && initUser == id {
          if input == M.Cmd(M.InitCancel) {
            ClearResetStream();
          }
          SwitchToRunning();
        }
      } else {
        Dispatch(id, input);
      }
    }

    // ---- Events ----

    ghost predicate Valid()
      reads this
    {
      Safety.Inv(View())
    }

    method Queue(i: nat, input: M.Input)
      requires i < |clients|
      modifies `clients
      ensures View() == Safety.Queued(old(View()), i, input)
    {
      clients := clients[i := clients[i].(queue := clients[i].queue + [input])];
    }

    /** A message from a client: it gets the sender's id unless it is part of an upload, and waits if
        the client is on hold. */
    method ReceiveMessage(id: Byte, input: M.Input)
      requires Valid() && M.Enabled(View(), M.Recv(id, input))
      modifies this
      ensures Valid() && View() == M.Step(old(View()), M.Recv(id, input))
    {
      Safety.StepKeeps(View(), M.Recv(id, input));
      var stamped := if input.Wire? && initUser != id then M.Wire(input.m.(ctx := id)) else input;
      var i := GetClientById(id);
      if clients[i].held {
        Queue(i, stamped);
      } else {
        HandleClientMessage(id, stamped);
      }
    }

    method Leave(id: Byte)
      requires Valid() && M.Enabled(View(), M.Leave(id))
      modifies this
      ensures Valid() && View() == M.Step(old(View()), M.Leave(id))
    {
      Safety.StepKeeps(View(), M.Leave(id));
      RemoveUser(id);
    }

    method Enter(c: M.Client, host: bool)
      requires Safety.Distinct(clients) && M.IsNew(View(), c)
      modifies `clients, `initUser
      ensures View() == M.Entered(old(View()), c, host) && Safety.Distinct(clients)
    {
      clients := clients + [c.(held := !host && state == M.Initialization)];
      if host {
        initUser := c.id;
      }
    }

    /** A client from the login; the host of a new session is not put on hold. */
    method JoinUser(c: M.Client, trusted: bool, host: bool)
      requires Valid() && M.Enabled(View(), if host then M.HostJoin(c, trusted) else M.Join(c, trusted))
      modifies this
      ensures Valid() && View() == M.Step(old(View()), if host then M.HostJoin(c, trusted) else M.Join(c, trusted))
    {
      Safety.StepKeeps(View(), if host then M.HostJoin(c, trusted) else M.Join(c, trusted));
      var knownOp, knownTrusted := c.auth in authOps, c.auth in authTrusted;
      Enter(c, host);
      AddToHistory(c.join);
      if M.IsOp(c) || knownOp {
        ChangeOpStatus(c.id, true);
      }
      if trusted || knownTrusted {
        ChangeTrustedStatus(c.id);
      }
      EnsureOperatorExists();
    }
  }

  lemma SetOpsNext(clients: seq<M.Client>, ids: seq<Byte>, i: nat)
    requires i < |clients|
    ensures M.SetOps(clients, ids, i)[i] == clients[i]
    ensures M.SetOps(clients, ids, i + 1) == M.SetOps(clients, ids, i)[i := M.SetOp(clients[i], ids)]
  {
  }

  /** One of the first n clients is the resetter and loses its flag. */
  predicate Deposes(s: M.Session, ids: seq<Byte>, n: nat)
    requires n <= |s.clients|
  {
    s.state == M.Resetting
    && exists i :: 0 <= i < n && s.clients[i].id == s.initUser && M.IsOp(s.clients[i]) && !M.IsOp(M.SetOp(s.clients[i], ids))
  }

  lemma DeposesIs(s: M.Session, ids: seq<Byte>)
    requires Safety.Distinct(s.clients)
    ensures Deposes(s, ids, |s.clients|) <==> M.Deposed(s, ids)
  {
    if Deposes(s, ids, |s.clients|) {
      var i :| 0 <= i < |s.clients| && s.clients[i].id == s.initUser && M.IsOp(s.clients[i]) && !M.IsOp(M.SetOp(s.clients[i], ids));
      assert M.Index(s.clients, s.initUser) == i;
    }
  }

  lemma FlaggedDistinct(s: M.Session, ids: seq<Byte>)
    requires Safety.Distinct(s.clients)
    ensures Safety.Distinct(M.FlagOps(s, ids).clients)
  {
  }

  lemma FlaggedIndex(s: M.Session, ids: seq<Byte>, id: int)
    ensures M.Index(M.FlagOps(s, ids).clients, id) == M.Index(s.clients, id)
  {
    var f := M.FlagOps(s, ids).clients;
    assert forall i :: 0 <= i < |f| ==> f[i].id == s.clients[i].id;
  }

  /** A grant takes the flag from nobody. */
  lemma NobodyDeposed(s: M.Session, id: Byte)
    ensures !M.Deposed(s, M.AllOpIds(s) + [id])
  {
    if M.Connected(s, s.initUser) && M.IsOp(M.Get(s, s.initUser)) {
      Safety.OpIdsMember(s.clients, |s.clients|, M.Index(s.clients, s.initUser));
    }
  }

  lemma DistinctWithout(clients: seq<M.Client>, i: nat)
    requires Safety.Distinct(clients) && i < |clients|
    ensures Safety.Distinct(M.Without(clients, i))
  {
  }

  lemma SetTrustsNext(clients: seq<M.Client>, ids: seq<Byte>, i: nat)
    requires i < |clients|
    ensures M.SetTrusts(clients, ids, i)[i] == clients[i]
    ensures M.SetTrusts(clients, ids, i + 1) == M.SetTrusts(clients, ids, i)[i := M.SetTrust(clients[i], ids)]
  {
  }
}
