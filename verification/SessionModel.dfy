/** The session state machine as a value: what each operation of the server's session does to the
    clients, the log, the reset buffer, the operators and the autoreset negotiation. */
module SessionModel {
  import opened Wrappers
  import opened Messages
  import opened SessionHistory

  datatype State = Initialization | Running | Resetting | Shutdown

  datatype AutoReset = NotSent | Queried | Requested

  datatype Command =
    | InitBegin
    | InitComplete
    | InitCancel
    | ResetSession
    | ReadyToAutoReset
    | Kick(target: Byte)
    | GainOp(correct: bool)
    | KillSession
    | SessionConf(setClosed: Option<bool>, setThreshold: Option<nat>, setOpword: Option<bool>,
                  setDeputies: Option<bool>, setOther: Option<seq<Byte>>)
    | Mute(muted: Byte, on: bool)
    | Unmodelled

  /** What a client sends: a protocol message, or a server command carried in one. */
  datatype Input = Wire(m: Message) | Cmd(c: Command)

  datatype Client = Client(id: Byte, join: Message, auth: string, op: bool, mod: bool, trusted: bool, muted: bool,
                           held: bool, queue: seq<Input>)

  /** What is only observed: `crashed` is set by an illegal state change; `asked` has, for every client that
      was told to perform an autoreset, the number of resets before that; `refused` says that a join or
      leave message did not fit since the last reset, `unlisted` that a list of operators did not;
      `silent` that an append left a log that wants a reset without the query having been sent, and
      `early` that the query was sent for a log that does not; `resets` counts the successful resets. */
  datatype Seen = Seen(crashed: bool, asked: seq<nat>, refused: bool, unlisted: bool, silent: bool, early: bool, resets: nat)

  datatype Session = Session(
    state: State, initUser: int, clients: seq<Client>, stream: seq<Message>, streamSize: nat,
    hist: History, threshold: nat, autoReset: AutoReset,
    hasOpword: bool, closed: bool, deputies: bool, conf: seq<Byte>, authOps: set<string>, authTrusted: set<string>,
    deleted: bool, seen: Seen)

  // ---- Clients ----

  predicate IsOp(c: Client) {
    c.op || c.mod
  }

  predicate IsDeputy(s: Session, c: Client) {
    !IsOp(c) && c.trusted && s.deputies
  }

  /** The position of the client with the id, or the length of the list. */
  function IndexFrom(clients: seq<Client>, id: int, from: nat): (i: nat)
    requires from <= |clients|
    ensures from <= i <= |clients|
    ensures forall j :: from <= j < i ==> clients[j].id != id
    ensures i < |clients| ==> clients[i].id == id
    decreases |clients| - from
  {
    if from == |clients| || clients[from].id == id then from else IndexFrom(clients, id, from + 1)
  }

  function Index(clients: seq<Client>, id: int): nat {
    IndexFrom(clients, id, 0)
  }

  predicate Connected(s: Session, id: int) {
    Index(s.clients, id) < |s.clients|
  }

  function Get(s: Session, id: int): Client
    requires Connected(s, id)
  {
    s.clients[Index(s.clients, id)]
  }

  function Without(clients: seq<Client>, i: nat): seq<Client>
    requires i < |clients|
  {
    clients[..i] + clients[i + 1..]
  }

  predicate HasOp(clients: seq<Client>) {
    exists i :: 0 <= i < |clients| && IsOp(clients[i])
  }

  /** The ids of the operators, or of the trusted users, among the first n clients. */
  function OpIds(clients: seq<Client>, n: nat): seq<Byte>
    requires n <= |clients|
  {
    if n == 0 then []
    else OpIds(clients, n - 1) + if IsOp(clients[n - 1]) then [clients[n - 1].id] else []
  }

  function TrustedIds(clients: seq<Client>, n: nat): seq<Byte>
    requires n <= |clients|
  {
    if n == 0 then []
    else TrustedIds(clients, n - 1) + if clients[n - 1].trusted then [clients[n - 1].id] else []
  }

  function Joins(clients: seq<Client>, n: nat): seq<Message>
    requires n <= |clients|
  {
    if n == 0 then [] else Joins(clients, n - 1) + [clients[n - 1].join]
  }

  // ---- Server messages ----

  function SessionOwner(ids: seq<Byte>): Message {
    Message(MSG_SESSION_OWNER, 0, ids)
  }

  function TrustedUsers(ids: seq<Byte>): Message {
    Message(MSG_TRUSTED_USERS, 0, ids)
  }

  function Flag(b: bool): Byte {
    if b then 1 else 0
  }

  function Number(n: nat): seq<Byte> {
    if n < 256 then [n] else Number(n / 256) + [n % 256]
  }

  /** The settings broadcast, here as a plain listing of the settings. */
  function Properties(s: Session): Message {
    Message(MSG_COMMAND, 0,
            [Flag(s.closed), Flag(s.deputies), Flag(s.hasOpword)] + Number(s.threshold) + Number(s.hist.base) + s.conf)
  }

  /** What the log must say about the users before a reset image can follow. */
  function ServerSide(clients: seq<Client>): seq<Message> {
    Joins(clients, |clients|) + [SessionOwner(OpIds(clients, |clients|))]
    + if TrustedIds(clients, |clients|) == [] then [] else [TrustedUsers(TrustedIds(clients, |clients|))]
  }

  // ---- The log ----

  /** The autoreset query goes out when the effective threshold is crossed. */
  function NextQuery(h: History, threshold: nat, status: AutoReset): AutoReset {
    var t := EffectiveThreshold(h, threshold);
    if t > 0 && status == NotSent && h.size > t then Queried else status
  }

  /** The session with a grown log. */
  function Logged(s: Session, h: History): Session {
    var status := NextQuery(h, s.threshold, s.autoReset);
    s.(hist := h, autoReset := status,
       seen := s.seen.(silent := s.seen.silent || (WantsReset(h, s.threshold) && status == NotSent),
                       early := s.seen.early || (status != s.autoReset && !WantsReset(h, s.threshold))))
  }

  /** Appends if there is space. */
  function AddToHistory(s: Session, m: Message): Session {
    if s.state == Shutdown then s
    else if OutOfSpace(s.hist) then
      s.(seen := s.seen.(refused := s.seen.refused || IsPresence(m),
                         unlisted := s.seen.unlisted || m.kind == MSG_SESSION_OWNER))
    else Logged(s, AddMessage(s.hist, m))
  }

  function SendProperties(s: Session): Session {
    AddToHistory(s, Properties(s))
  }

  function SetClosed(s: Session, closed: bool): Session {
    if s.closed != closed then SendProperties(s.(closed := closed)) else s
  }

  // ---- Operators and trusted users ----

  function SetOp(c: Client, ids: seq<Byte>): Client {
    var op := c.id in ids || c.mod;
    if op != IsOp(c) then c.(op := op) else c
  }

  /** The remembered operator accounts after the flag of one client was set. */
  function Remember(auths: set<string>, c: Client, ids: seq<Byte>): set<string> {
    var op := c.id in ids || c.mod;
    if op == IsOp(c) || c.auth == "" || c.mod then auths
    else if op then auths + {c.auth} else auths - {c.auth}
  }

  /** The list with the flags of the first n clients set. */
  function SetOps(clients: seq<Client>, ids: seq<Byte>, n: nat): (r: seq<Client>)
    requires n <= |clients|
    ensures |r| == |clients|
  {
    seq(|clients|, i requires 0 <= i < |clients| => if i < n then SetOp(clients[i], ids) else clients[i])
  }

  function RememberOps(auths: set<string>, clients: seq<Client>, ids: seq<Byte>, n: nat): set<string>
    requires n <= |clients|
  {
    if n == 0 then auths else Remember(RememberOps(auths, clients, ids, n - 1), clients[n - 1], ids)
  }

  function FlagOps(s: Session, ids: seq<Byte>): Session {
    s.(clients := SetOps(s.clients, ids, |s.clients|), authOps := RememberOps(s.authOps, s.clients, ids, |s.clients|))
  }

  function AllOpIds(s: Session): seq<Byte> {
    OpIds(s.clients, |s.clients|)
  }

  /** Making one more client an operator takes the flag from nobody, so nobody has to be kicked. */
  function Grant(s: Session, id: Byte): Session {
    var s' := FlagOps(s, AllOpIds(s) + [id]);
    AddToHistory(s', SessionOwner(AllOpIds(s')))
  }

  function EnsureOperatorExists(s: Session): Session {
    if s.hasOpword || s.authOps != {} || HasOp(s.clients) || s.clients == [] then s
    else Grant(s, s.clients[0].id)
  }

  function SetTrust(c: Client, ids: seq<Byte>): Client {
    c.(trusted := c.id in ids)
  }

  function RememberTrust(auths: set<string>, clients: seq<Client>, ids: seq<Byte>, n: nat): set<string>
    requires n <= |clients|
  {
    if n == 0 then auths
    else
      var before := RememberTrust(auths, clients, ids, n - 1);
      var c := clients[n - 1];
      if (c.id in ids) == c.trusted || c.auth == "" then before
      else if c.id in ids then before + {c.auth} else before - {c.auth}
  }

  function SetTrusts(clients: seq<Client>, ids: seq<Byte>, n: nat): (r: seq<Client>)
    requires n <= |clients|
    ensures |r| == |clients|
  {
    seq(|clients|, i requires 0 <= i < |clients| => if i < n then SetTrust(clients[i], ids) else clients[i])
  }

  function UpdateTrusted(s: Session, ids: seq<Byte>): Session {
    s.(clients := SetTrusts(s.clients, ids, |s.clients|),
       authTrusted := RememberTrust(s.authTrusted, s.clients, ids, |s.clients|))
  }

  function ChangeTrusted(s: Session, id: Byte): Session {
    var s' := UpdateTrusted(s, TrustedIds(s.clients, |s.clients|) + [id]);
    AddToHistory(s', TrustedUsers(TrustedIds(s'.clients, |s'.clients|)))
  }

  // ---- Resets ----

  function BeginReset(s: Session, id: int): Session {
    if s.state != Running then s.(seen := s.seen.(crashed := true))
    else s.(initUser := id, stream := [], streamSize := 0, state := Resetting)
  }

  predicate Installs(s: Session) {
    s.stream != [] && Fits(s.hist, ServerSide(s.clients) + s.stream)
  }

  /** The session starts over with a new log. */
  function Restarted(s: Session, h: History): Session {
    s.(initUser := -1, hist := h, autoReset := NotSent,
       seen := s.seen.(refused := false, unlisted := false, resets := s.seen.resets + 1))
  }

  /** The session right after an uploaded image replaced the log. */
  function Reinstalled(s: Session): Session {
    Restarted(s, Reset(s.hist, ServerSide(s.clients) + s.stream))
  }

  /** The change from Resetting to Running: installs the uploaded image, if there is one and it fits. */
  function FinishReset(s: Session): Session {
    var s' := if Installs(s) then SendProperties(Reinstalled(s)) else s.(initUser := -1);
    s'.(stream := [], streamSize := 0, state := Running)
  }

  function ClearStream(s: Session): Session {
    s.(stream := [], streamSize := 0)
  }

  // ---- Leaving ----

  /** The client is off the list; if it was in the middle of a reset, that is cancelled. */
  function Departed(s: Session, id: int): Session
    requires Connected(s, id)
  {
    var s' := s.(clients := Without(s.clients, Index(s.clients, id)));
    if id == s.initUser && s.state == Resetting then FinishReset(ClearStream(s')) else s'
  }

  function RemoveUser(s: Session, id: int): Session {
    if !Connected(s, id) then s
    else
      var s' := EnsureOperatorExists(AddToHistory(Departed(s, id), UserLeave(Get(s, id).id)));
      if s'.clients == [] then SetClosed(s', false) else s'
  }

  /** A resetter that loses the flag in the middle of the upload. */
  predicate Deposed(s: Session, ids: seq<Byte>) {
    s.state == Resetting && Connected(s, s.initUser)
    && IsOp(Get(s, s.initUser)) && !IsOp(SetOp(Get(s, s.initUser), ids))
  }

  /** Sets the flags, kicks a deposed resetter, and gives the list of operators before the kick. */
  function UpdateOwnership(s: Session, ids: seq<Byte>): (Session, seq<Byte>) {
    var s' := FlagOps(s, ids);
    (if Deposed(s, ids) then RemoveUser(s', s.initUser) else s', AllOpIds(s'))
  }

  function Revoke(s: Session, id: Byte): Session {
    var (s', ids) := UpdateOwnership(s, RemoveOne(AllOpIds(s), id));
    AddToHistory(s', SessionOwner(ids))
  }

  function RemoveOne(ids: seq<Byte>, id: Byte): seq<Byte> {
    if ids == [] then [] else if ids[0] == id then ids[1..] else [ids[0]] + RemoveOne(ids[1..], id)
  }

  function Kill(s: Session): Session {
    if s.state == Shutdown then s else s.(state := Shutdown, clients := [], deleted := true)
  }

  // ---- Client messages ----

  /** The reset buffer with one more message. */
  function Buffered(s: Session, m: Message): Session {
    s.(stream := s.stream + [m], streamSize := s.streamSize + Length(m))
  }

  function AddToInitStream(s: Session, m: Message): Session {
    match s.state
    case Initialization => AddToHistory(s, m)
    case Resetting =>
      var s' := Buffered(s, m);
      if s.hist.limit > 0 && s'.streamSize > s.hist.limit then RemoveUser(s', s.initUser) else s'
    case _ => s
  }

  function Route(s: Session, id: Byte, m: Message): Session {
    if s.initUser == id then AddToInitStream(s, m) else AddToHistory(s, m)
  }

  predicate IsBypass(m: Message) {
    m.payload != [] && m.payload[0] % 2 == 1
  }

  function HandleWire(s: Session, id: Byte, m: Message): Session
    requires Connected(s, id)
  {
    var c := Get(s, id);
    if IsPresence(m) || m.kind in {MSG_SOFTRESET, MSG_DISCONNECT, MSG_COMMAND, MSG_PRIVATE_CHAT} then s
    else if m.kind == MSG_SESSION_OWNER then
      if !IsOp(c) then s
      else
        var (s', ids) := UpdateOwnership(s, m.payload + [id]);
        Route(s', id, m.(payload := ids))
    else if m.kind == MSG_TRUSTED_USERS then
      if !IsOp(c) then s
      else
        var s' := UpdateTrusted(s, m.payload);
        Route(s', id, m.(payload := TrustedIds(s'.clients, |s'.clients|)))
    else if m.kind == MSG_CHAT && (c.muted || IsBypass(m)) then s
    else Route(s, id, m)
  }

  function Or<T>(setting: Option<T>, current: T): T {
    if setting.Some? then setting.value else current
  }

  function Configured(s: Session, c: Command): Session
    requires c.SessionConf?
  {
    s.(closed := Or(c.setClosed, s.closed),
       threshold := if c.setThreshold.Some? then Clamp(s.hist.limit, c.setThreshold.value) else s.threshold,
       hasOpword := Or(c.setOpword, s.hasOpword), deputies := Or(c.setDeputies, s.deputies), conf := Or(c.setOther, s.conf))
  }

  function Configure(s: Session, c: Command): Session
    requires c.SessionConf?
  {
    if c == SessionConf(None, None, None, None, None) then s else SendProperties(Configured(s, c))
  }

  function KickUser(s: Session, id: Byte, target: Byte): Session
    requires Connected(s, id)
  {
    if !(1 <= target <= 254) || !Connected(s, target) || target == id then s
    else
      var t := Get(s, target);
      if t.mod || (IsDeputy(s, Get(s, id)) && (IsOp(t) || t.trusted)) then s else RemoveUser(s, target)
  }

  function ReadyToReset(s: Session): Session {
    if s.autoReset == Queried then s.(autoReset := Requested, seen := s.seen.(asked := s.seen.asked + [s.seen.resets])) else s
  }

  function SetMute(s: Session, target: Byte, on: bool): Session {
    if !(1 <= target <= 254) || !Connected(s, target) then s
    else
      var i := Index(s.clients, target);
      s.(clients := s.clients[i := s.clients[i].(muted := on)])
  }

  /** Who may use which command. */
  predicate Allowed(s: Session, c: Client, cmd: Command) {
    match cmd
    case GainOp(_) => true
    case Unmodelled => true
    case KillSession => c.mod
    case Kick(_) => IsOp(c) || IsDeputy(s, c)
    case _ => IsOp(c)
  }

  /** All commands except the ones that end an upload. */
  function HandleCommand(s: Session, id: Byte, cmd: Command): Session
    requires Connected(s, id)
  {
    if !Allowed(s, Get(s, id), cmd) then s
    else
      match cmd
      case InitBegin => if s.initUser == id && s.streamSize > 0 then ClearStream(s) else s
      case ResetSession => if s.state == Running then BeginReset(s, id) else s
      case ReadyToAutoReset => ReadyToReset(s)
      case Kick(target) => KickUser(s, id, target)
      case GainOp(correct) => if s.hasOpword && correct then Grant(s, id) else s
      case KillSession => Kill(s)
      case SessionConf(_, _, _, _, _) => Configure(s, cmd)
      case Mute(target, on) => SetMute(s, target, on)
      case _ => s
  }

  function Dispatch(s: Session, id: Byte, input: Input): Session
    requires Connected(s, id)
  {
    match input
    case Wire(m) => HandleWire(s, id, m)
    case Cmd(c) => HandleCommand(s, id, c)
  }

  // ---- Leaving Initialization ----

  /** The held messages of one client, from the k-th on, as far as the client is still there. */
  function Replay(s: Session, id: Byte, queue: seq<Input>, k: nat): Session
    requires k <= |queue|
    decreases |queue| - k
  {
    if k == |queue| || !Connected(s, id) then s else Replay(Dispatch(s, id, queue[k]), id, queue, k + 1)
  }

  function Unlock(s: Session, id: int): Session
    requires Connected(s, id)
  {
    var i := Index(s.clients, id);
    Replay(s.(clients := s.clients[i := s.clients[i].(held := false, queue := [])]), s.clients[i].id, s.clients[i].queue, 0)
  }

  /** Releases the clients of a snapshot of the list one after the other. */
  function Release(s: Session, snapshot: seq<Client>, k: nat): Session
    requires k <= |snapshot|
    decreases |snapshot| - k
  {
    if k == |snapshot| then s
    else Release(if Connected(s, snapshot[k].id) then Unlock(s, snapshot[k].id) else s, snapshot, k + 1)
  }

  /** The state is assigned last, so the held messages are handled in the old state. */
  function StartSession(s: Session): Session {
    Release(s.(initUser := -1), s.clients, 0).(state := Running)
  }

  function SwitchToRunning(s: Session): Session {
    match s.state
    case Initialization => StartSession(s)
    case Resetting => FinishReset(s)
    case _ => s.(seen := s.seen.(crashed := true))
  }

  function HandleMessage(s: Session, id: Byte, input: Input): Session
    requires Connected(s, id)
  {
    if input == Cmd(InitComplete) || input == Cmd(InitCancel) then
      if !IsOp(Get(s, id)) || s.initUser != id then s
      else SwitchToRunning(if input == Cmd(InitCancel) then ClearStream(s) else s)
    else Dispatch(s, id, input)
  }

  // ---- Steps ----

  datatype Event =
    | HostJoin(host: Client, trustedHost: bool)
    | Join(client: Client, trusted: bool)
    | Leave(leaver: Byte)
    | Recv(sender: Byte, input: Input)
    | AdminOp(user: Byte, op: bool)

  /** The client is on the list, but the log does not say so yet. Only the host is not put on hold
      during Initialization. */
  function Entered(s: Session, c: Client, host: bool): Session {
    var held := !host && s.state == Initialization;
    s.(clients := s.clients + [c.(held := held)], initUser := if host then c.id else s.initUser)
  }

  function JoinUser(s: Session, c: Client, trusted: bool, host: bool): Session {
    var s1 := AddToHistory(Entered(s, c, host), c.join);
    var s2 := if IsOp(c) || c.auth in s.authOps then Grant(s1, c.id) else s1;
    var s3 := if trusted || c.auth in s.authTrusted then ChangeTrusted(s2, c.id) else s2;
    EnsureOperatorExists(s3)
  }

  /** The sender's id is put on everything but an upload. */
  function Stamp(s: Session, id: Byte, input: Input): Input {
    if input.Wire? && s.initUser != id then Wire(input.m.(ctx := id)) else input
  }

  function Receive(s: Session, id: Byte, input: Input): Session
    requires Connected(s, id)
  {
    var i := Index(s.clients, id);
    if s.clients[i].held then s.(clients := s.clients[i := s.clients[i].(queue := s.clients[i].queue + [Stamp(s, id, input)])])
    else HandleMessage(s, id, Stamp(s, id, input))
  }

  /** A client as it comes from the login: with a fresh id, not muted and with an empty hold queue. */
  predicate IsNew(s: Session, c: Client) {
    && 1 <= c.id <= 254 && !Connected(s, c.id)
    && c.join.kind == MSG_USER_JOIN && c.join.ctx == c.id
    && !c.held && c.queue == [] && !c.muted && !c.trusted
  }

  predicate Enabled(s: Session, e: Event) {
    && !s.deleted
    && match e
       case HostJoin(c, _) => s.state == Initialization && s.initUser == -1 && IsNew(s, c)
       case Join(c, _) => IsNew(s, c)
       case Leave(id) => Connected(s, id)
       case Recv(id, _) => Connected(s, id)
       case AdminOp(id, _) => Connected(s, id)
  }

  function Step(s: Session, e: Event): Session
    requires Enabled(s, e)
  {
    match e
    case HostJoin(c, trusted) => JoinUser(s, c, trusted, true)
    case Join(c, trusted) => JoinUser(s, c, trusted, false)
    case Leave(id) => RemoveUser(s, id)
    case Recv(id, input) => Receive(s, id, input)
    case AdminOp(id, op) => if Get(s, id).op == op then s else if op then Grant(s, id) else Revoke(s, id)
  }
}
