/** The two-party reset: a client and the server over a first-in-first-out channel. */
module ResetProtocol {
  import opened Messages
  import opened SessionHistory
  import opened SessionModel
  import opened SessionSafety
  import opened SessionHeld
  import opened SessionRuns

  predicate NoLists(ms: seq<Message>) {
    forall i :: 0 <= i < |ms| ==> !IsList(ms[i])
  }

  /** An image arrives as it was sent exactly if no message of it is filtered. */
  lemma {:induction false} KeptAllIff(ms: seq<Message>, muted: bool)
    ensures |Kept(ms, muted)| <= |ms|
    ensures Kept(ms, muted) == ms <==> forall i :: 0 <= i < |ms| ==> !Filtered(ms[i], muted)
  {
    if ms != [] {
      var rest := ms[1..];
      KeptAllIff(rest, muted);
      assert ms == [ms[0]] + rest;
      assert forall i :: 0 <= i < |rest| ==> rest[i] == ms[i + 1];
      if Filtered(ms[0], muted) {
        assert |Kept(ms, muted)| < |ms|;
      } else {
        assert Kept(ms, muted)[1..] == Kept(rest, muted);
      }
    }
  }

  function Wires(ms: seq<Message>): (r: seq<Input>)
    ensures |r| == |ms|
  {
    seq(|ms|, i requires 0 <= i < |ms| => Wire(ms[i]))
  }

  /** What the server received from one client, in order. */
  function From(events: seq<Event>, r: Byte): seq<Input> {
    if events == [] then []
    else (if events[0].Recv? && events[0].sender == r then [events[0].input] else []) + From(events[1..], r)
  }

  /** The server is taking the client's upload. */
  predicate Uploading(s: Session, r: Byte) {
    s.state == Resetting && s.initUser == r && Connected(s, r)
  }

  /** No event ends the upload. */
  predicate Stays(s: Session, events: seq<Event>, r: Byte)
    requires Runnable(s, events)
    decreases |events|
  {
    events == [] || (Uploading(Step(s, events[0]), r) && Stays(Step(s, events[0]), events[1..], r))
  }

  /** Nothing that others do ends the upload: the resetter is not kicked, disconnected or deprived of
      the operator flag, and the session is not shut down. */
  predicate Undisturbed(s: Session, events: seq<Event>, r: Byte)
    requires Runnable(s, events)
    decreases |events|
  {
    events == [] ||
    (&& ((events[0].Recv? && events[0].sender == r) || Uploading(Step(s, events[0]), r))
     && Undisturbed(Step(s, events[0]), events[1..], r))
  }

  /** The resetter is neither muted nor unmuted meanwhile. */
  predicate Steady(s: Session, events: seq<Event>, r: Byte, muted: bool)
    requires Runnable(s, events)
    decreases |events|
  {
    && Connected(s, r) && Get(s, r).muted == muted
    && (events == [] || Steady(Step(s, events[0]), events[1..], r, muted))
  }

  // ---- What other clients do to an upload ----

  /** The upload is over, or the buffer is as it was. */
  predicate LeavesUpload(s: Session, s': Session) {
    s'.state == Resetting ==> s'.stream == s.stream && s'.initUser == s.initUser
  }

  lemma HarmlessLeaves(s: Session, s': Session)
    requires Harmless(s, s')
    ensures LeavesUpload(s, s')
  {
  }

  lemma AddsLeaves(s: Session, m: Message)
    requires LogOk(s)
    ensures LeavesUpload(s, AddToHistory(s, m))
  {
    Adds(s, m);
  }

  lemma RemovesLeaves(s: Session, id: int)
    requires Removable(s, id)
    ensures LeavesUpload(s, RemoveUser(s, id)) && (id == s.initUser ==> RemoveUser(s, id).state != Resetting)
  {
    Removes(s, id);
    DepartedFrame(s, id);
  }

  lemma OwnershipLeaves(s: Session, ids: seq<Byte>)
    requires Inv(s)
    ensures LeavesUpload(s, UpdateOwnership(s, ids).0)
  {
    var f := FlagOps(s, ids);
    FlagsOps(s, ids);
    HarmlessLeaves(s, f);
    if Deposed(s, ids) {
      HarmlessSound(s, f);
      SameIndex(s.clients, f.clients, s.initUser);
      RemovesLeaves(f, s.initUser);
    }
  }

  lemma OwnerLeaves(s: Session, id: Byte, m: Message)
    requires Inv(s)
    ensures var (s', ids) := UpdateOwnership(s, m.payload + [id]);
            LeavesUpload(s, s') && LeavesUpload(s, AddToHistory(s', m.(payload := ids)))
  {
    var (s', ids) := UpdateOwnership(s, m.payload + [id]);
    OwnershipLeaves(s, m.payload + [id]);
    UpdatesOwnership(s, m.payload + [id]);
    AddsLeaves(s', m.(payload := ids));
  }

  lemma TrustLeaves(s: Session, m: Message)
    requires Inv(s)
    ensures var s' := UpdateTrusted(s, m.payload);
            LeavesUpload(s, AddToHistory(s', m.(payload := TrustedIds(s'.clients, |s'.clients|))))
  {
    var s' := UpdateTrusted(s, m.payload);
    UpdatesTrusted(s, m.payload);
    HarmlessInv(s, s');
    AddsLeaves(s', m.(payload := TrustedIds(s'.clients, |s'.clients|)));
  }

  lemma WireLeaves(s: Session, id: Byte, m: Message)
    requires Inv(s) && Connected(s, id) && !s.deleted && s.state == Resetting && id != s.initUser
    ensures LeavesUpload(s, HandleWire(s, id, m))
  {
    if m.kind == MSG_SESSION_OWNER {
      OwnerLeaves(s, id, m);
      UpdatesOwnership(s, m.payload + [id]);
    } else if m.kind == MSG_TRUSTED_USERS {
      TrustLeaves(s, m);
    } else {
      AddsLeaves(s, m);
    }
  }

  lemma CommandLeaves(s: Session, id: Byte, cmd: Command)
    requires Inv(s) && Connected(s, id) && s.state == Resetting && (id != s.initUser || cmd != InitBegin)
    ensures LeavesUpload(s, HandleCommand(s, id, cmd))
  {
    match cmd
    case Kick(target) => if Connected(s, target) { RemovesLeaves(s, target); }
    case GainOp(_) => Grants(s, id);
    case SessionConf(_, _, _, _, _) => Configures(s, cmd);
    case _ =>
  }

  lemma RevokeLeaves(s: Session, id: Byte)
    requires Inv(s)
    ensures LeavesUpload(s, Revoke(s, id))
  {
    var (s', ids) := UpdateOwnership(s, RemoveOne(AllOpIds(s), id));
    OwnershipLeaves(s, RemoveOne(AllOpIds(s), id));
    UpdatesOwnership(s, RemoveOne(AllOpIds(s), id));
    AddsLeaves(s', SessionOwner(ids));
  }

  lemma JoinLeaves(s: Session, c: Client, trusted: bool)
    requires Inv(s) && Enabled(s, Join(c, trusted))
    ensures LeavesUpload(s, JoinUser(s, c, trusted, false))
  {
    JoinsUser(s, c, trusted, false);
    Enters(s, c, false);
    Adds(Entered(s, c, false), c.join);
  }

  /** Another client's doing leaves the buffer alone, as long as the upload goes on. */
  lemma OthersLeave(s: Session, e: Event, r: Byte)
    requires Inv(s) && Enabled(s, e) && Uploading(s, r) && !(e.Recv? && e.sender == r)
    ensures LeavesUpload(s, Step(s, e))
  {
    match e
    case HostJoin(_, _) =>
    case Join(c, trusted) => JoinLeaves(s, c, trusted);
    case Leave(id) => RemovesLeaves(s, id);
    case Recv(id, input) =>
      NobodyHeld(s, Index(s.clients, id));
      match Stamp(s, id, input) {
        case Wire(m) => WireLeaves(s, id, m);
        case Cmd(c) => CommandLeaves(s, id, c);
      }
    case AdminOp(id, op) =>
      Grants(s, id);
      RevokeLeaves(s, id);
  }

  // ---- What the resetter itself does ----

  lemma WiresFirst(ms: seq<Message>)
    requires ms != []
    ensures Wires(ms) == [Wire(ms[0])] + Wires(ms[1..])
  {
  }

  lemma {:induction false} TailLength(ms: seq<Message>)
    requires ms != []
    ensures TotalLength(ms) == Length(ms[0]) + TotalLength(ms[1..])
  {
    TotalLengthConcat([ms[0]], ms[1..]);
    assert [ms[0]] + ms[1..] == ms;
    assert LengthTo([ms[0]], 0) == 0;
  }

  predicate InLimit(ms: seq<Message>, limit: nat) {
    limit == 0 || TotalLength(ms) <= limit
  }

  /** What the server makes of one message of the resetter. */
  function Accepted(s: Session, r: Byte, m: Message): seq<Message>
    requires Connected(s, r)
  {
    if Filtered(m, Get(s, r).muted) then []
    else if m.kind == MSG_SESSION_OWNER then [m.(payload := UpdateOwnership(s, m.payload + [r]).1)]
    else if m.kind == MSG_TRUSTED_USERS then
      var s' := UpdateTrusted(s, m.payload);
      [m.(payload := TrustedIds(s'.clients, |s'.clients|))]
    else [m]
  }

  /** A step of the upload: it goes on with these messages added to the buffer, or it is over. */
  predicate UploadsMore(s: Session, s': Session, r: Byte, more: seq<Message>) {
    && (Uploading(s', r) <==> InLimit(s.stream + more, s.hist.limit)) && (Uploading(s', r) || s'.state == Running)
    && (Uploading(s', r) ==> s'.stream == s.stream + more)
  }

  lemma AcceptsNothing(s: Session, r: Byte)
    requires Inv(s) && Uploading(s, r)
    ensures UploadsMore(s, s, r, [])
  {
    assert s.stream + [] == s.stream;
  }

  lemma AcceptsOne(s: Session, r: Byte, m: Message)
    requires Inv(s) && Uploading(s, r) && !IsPresence(m)
    ensures UploadsMore(s, Route(s, r, m), r, [m])
  {
    Uploads(s, m);
    TotalLengthSnoc(s.stream, m);
  }

  /** Taking effect of a list does not touch the upload of the operator who sent it. */
  lemma ListKeepsUpload(s: Session, f: Session, r: Byte)
    requires Inv(s) && Uploading(s, r) && Harmless(s, f) && Inv(f)
    ensures Uploading(f, r) && f.stream == s.stream && f.hist.limit == s.hist.limit
  {
    SameIndex(s.clients, f.clients, r);
  }

  lemma AcceptsOwnerList(s: Session, r: Byte, m: Message)
    requires Inv(s) && Uploading(s, r) && m.kind == MSG_SESSION_OWNER
    ensures UploadsMore(s, HandleWire(s, r, m), r, Accepted(s, r, m))
  {
    var ids := m.payload + [r];
    var f := FlagOps(s, ids);
    FlagsOps(s, ids);
    assert !Deposed(s, ids);
    UpdatesOwnership(s, ids);
    ListKeepsUpload(s, f, r);
    AcceptsOne(f, r, m.(payload := AllOpIds(f)));
  }

  lemma AcceptsTrustList(s: Session, r: Byte, m: Message)
    requires Inv(s) && Uploading(s, r) && m.kind == MSG_TRUSTED_USERS
    ensures UploadsMore(s, HandleWire(s, r, m), r, Accepted(s, r, m))
  {
    var f := UpdateTrusted(s, m.payload);
    UpdatesTrusted(s, m.payload);
    HarmlessInv(s, f);
    ListKeepsUpload(s, f, r);
    AcceptsOne(f, r, m.(payload := TrustedIds(f.clients, |f.clients|)));
  }

  lemma AcceptsWire(s: Session, r: Byte, m: Message)
    requires Inv(s) && Uploading(s, r)
    ensures UploadsMore(s, HandleWire(s, r, m), r, Accepted(s, r, m))
  {
    if Filtered(m, Get(s, r).muted) {
      AcceptsNothing(s, r);
    } else if m.kind == MSG_SESSION_OWNER {
      AcceptsOwnerList(s, r, m);
    } else if m.kind == MSG_TRUSTED_USERS {
      AcceptsTrustList(s, r, m);
    } else {
      AcceptsOne(s, r, m);
    }
  }

  /** The upload goes on exactly if what the server accepts still fits the limit, and then the buffer
      has exactly that. */
  lemma OwnUpload(s: Session, r: Byte, m: Message)
    requires Inv(s) && Uploading(s, r)
    ensures Enabled(s, Recv(r, Wire(m))) && UploadsMore(s, Step(s, Recv(r, Wire(m))), r, Accepted(s, r, m))
  {
    NobodyHeld(s, Index(s.clients, r));
    AcceptsWire(s, r, m);
  }

  // ---- Whole uploads ----

  lemma FromOwn(events: seq<Event>, r: Byte, ms: seq<Message>)
    requires events != [] && events[0].Recv? && events[0].sender == r && From(events, r) == Wires(ms)
    ensures ms != [] && events[0].input == Wire(ms[0]) && From(events[1..], r) == Wires(ms[1..])
  {
    assert From(events, r)[0] == events[0].input && From(events, r)[1..] == From(events[1..], r);
    WiresFirst(ms);
  }

  lemma FromOther(events: seq<Event>, r: Byte)
    requires events != [] && !(events[0].Recv? && events[0].sender == r)
    ensures From(events, r) == From(events[1..], r)
  {
  }

  /** The buffer after an event: the resetter's messages are added as far as the server accepts them, and
      init-begin empties it. */
  function After(s: Session, e: Event, r: Byte, buffer: seq<Message>): seq<Message>
    requires Enabled(s, e)
  {
    if !(e.Recv? && e.sender == r) then buffer
    else
      match e.input
      case Wire(m) => buffer + Accepted(s, r, m)
      case Cmd(c) => if c == InitBegin then [] else buffer
  }

  function Assembled(s: Session, events: seq<Event>, r: Byte, buffer: seq<Message>): seq<Message>
    requires Runnable(s, events)
    decreases |events|
  {
    if events == [] then buffer
    else Assembled(Step(s, events[0]), events[1..], r, After(s, events[0], r, buffer))
  }

  /** The buffer has exactly these messages. */
  predicate HasBuffered(s: Session, r: Byte, stream: seq<Message>) {
    Inv(s) && Uploading(s, r) && s.stream == stream
  }

  /** The resetter's own commands: init-begin empties the buffer, all others that do not end the upload
      leave it alone. */
  lemma OwnCommand(s: Session, r: Byte, c: Command)
    requires Inv(s) && Uploading(s, r) && Uploading(Step(s, Recv(r, Cmd(c))), r)
    ensures Step(s, Recv(r, Cmd(c))).stream == if c == InitBegin then [] else s.stream
  {
    NobodyHeld(s, Index(s.clients, r));
    if c == InitComplete || c == InitCancel {
      Finishes(if c == InitCancel then ClearStream(s) else s);
    } else if c == InitBegin {
      BufferSize(s);
    } else {
      CommandLeaves(s, r, c);
    }
  }

  lemma BufferSize(s: Session)
    requires Inv(s)
    ensures s.streamSize == 0 <==> s.stream == []
  {
    if s.stream != [] {
      TailLength(s.stream);
    }
  }

  /** One event of an upload that goes on. */
  lemma UploadStep(s: Session, e: Event, r: Byte)
    requires Inv(s) && Uploading(s, r) && Enabled(s, e) && Uploading(Step(s, e), r)
    ensures HasBuffered(Step(s, e), r, After(s, e, r, s.stream))
  {
    StepKeeps(s, e);
    if !(e.Recv? && e.sender == r) {
      OthersLeave(s, e, r);
    } else {
      match e.input
      case Wire(m) => OwnUpload(s, r, m);
      case Cmd(c) => OwnCommand(s, r, c);
    }
  }

  /** However the other clients interleave and whatever the resetter sends: as long as the upload goes on,
      the buffer is what the server accepted since the last init-begin, in order. */
  lemma {:induction false} UploadPhase(s: Session, events: seq<Event>, r: Byte)
    requires Inv(s) && Uploading(s, r) && Runnable(s, events) && Stays(s, events, r)
    ensures HasBuffered(Run(s, events), r, Assembled(s, events, r, s.stream))
    decreases |events|
  {
    if events != [] {
      UploadStep(s, events[0], r);
      UploadPhase(Step(s, events[0]), events[1..], r);
    }
  }

  lemma Regroup(buffer: seq<Message>, a: seq<Message>, b: seq<Message>)
    ensures buffer + (a + b) == buffer + a + b
  {
  }

  lemma KeptFirst(buffer: seq<Message>, image: seq<Message>, muted: bool, first: seq<Message>)
    requires image != [] && first == if Filtered(image[0], muted) then [] else [image[0]]
    ensures buffer + Kept(image, muted) == buffer + first + Kept(image[1..], muted)
  {
    Regroup(buffer, first, Kept(image[1..], muted));
  }

  /** For an image without lists, and as long as nobody mutes or unmutes the resetter, what is accepted
      is what the filter keeps. */
  lemma {:induction false} AssembledKept(s: Session, events: seq<Event>, r: Byte, image: seq<Message>, muted: bool,
                                         buffer: seq<Message>)
    requires Runnable(s, events) && Steady(s, events, r, muted) && From(events, r) == Wires(image) && NoLists(image)
    ensures Assembled(s, events, r, buffer) == buffer + Kept(image, muted)
    decreases |events|
  {
    if events == [] {
      assert image == [];
      assert buffer + [] == buffer;
    } else if events[0].Recv? && events[0].sender == r {
      FromOwn(events, r, image);
      KeptFirst(buffer, image, muted, Accepted(s, r, image[0]));
      AssembledKept(Step(s, events[0]), events[1..], r, image[1..], muted, After(s, events[0], r, buffer));
    } else {
      FromOther(events, r);
      AssembledKept(Step(s, events[0]), events[1..], r, image, muted, buffer);
    }
  }

  lemma AssembledAnew(s: Session, events: seq<Event>, r: Byte, image: seq<Message>, muted: bool)
    requires Runnable(s, events) && Steady(s, events, r, muted) && From(events, r) == Wires(image) && NoLists(image)
    ensures Assembled(s, events, r, []) == Kept(image, muted)
  {
    AssembledKept(s, events, r, image, muted, []);
    assert [] + Kept(image, muted) == Kept(image, muted);
  }

  /** Steady from the point on where the resetter has sent k messages and the next one. */
  predicate SteadyAfter(s: Session, events: seq<Event>, r: Byte, k: nat, muted: bool)
    requires Runnable(s, events)
    decreases |events|
  {
    events == [] ||
    var s' := Step(s, events[0]);
    if !(events[0].Recv? && events[0].sender == r) then SteadyAfter(s', events[1..], r, k, muted)
    else if k == 0 then Steady(s', events[1..], r, muted)
    else SteadyAfter(s', events[1..], r, k - 1, muted)
  }

  lemma FromFirst(events: seq<Event>, r: Byte, leftovers: seq<Input>, rest: seq<Input>)
    requires events != [] && events[0].Recv? && events[0].sender == r && rest != [] && From(events, r) == leftovers + rest
    ensures leftovers == [] ==> events[0].input == rest[0] && From(events[1..], r) == rest[1..]
    ensures leftovers != [] ==> From(events[1..], r) == leftovers[1..] + rest
  {
    assert From(events, r)[0] == events[0].input && From(events, r)[1..] == From(events[1..], r);
    if leftovers != [] {
      assert (leftovers + rest)[1..] == leftovers[1..] + rest;
    } else {
      assert leftovers + rest == rest;
    }
  }

  lemma UnfoldOther(s: Session, events: seq<Event>, r: Byte, k: nat, muted: bool, buffer: seq<Message>, s': Session,
                    rest: seq<Event>)
    requires events != [] && !(events[0].Recv? && events[0].sender == r)
    requires Runnable(s, events) && SteadyAfter(s, events, r, k, muted) && s' == Step(s, events[0]) && rest == events[1..]
    ensures Runnable(s', rest) && SteadyAfter(s', rest, r, k, muted)
    ensures Assembled(s, events, r, buffer) == Assembled(s', rest, r, buffer)
  {
  }

  lemma UnfoldOwn(s: Session, events: seq<Event>, r: Byte, k: nat, muted: bool, buffer: seq<Message>, s': Session,
                  rest: seq<Event>)
    requires events != [] && events[0].Recv? && events[0].sender == r
    requires Runnable(s, events) && SteadyAfter(s, events, r, k, muted) && s' == Step(s, events[0]) && rest == events[1..]
    ensures Runnable(s', rest) && if k == 0 then Steady(s', rest, r, muted) else SteadyAfter(s', rest, r, k - 1, muted)
    ensures Assembled(s, events, r, buffer) == Assembled(s', rest, r, After(s, events[0], r, buffer))
  {
  }

  /** Whatever was in flight before init-begin, the buffer in the end holds what the filter keeps of the
      snapshot and nothing else. */
  lemma {:induction false} SnapshotArrives(s: Session, events: seq<Event>, r: Byte, leftovers: seq<Input>,
                                           image: seq<Message>, muted: bool, buffer: seq<Message>)
    requires Runnable(s, events) && SteadyAfter(s, events, r, |leftovers|, muted) && NoLists(image)
    requires From(events, r) == leftovers + ([Cmd(InitBegin)] + Wires(image))
    ensures Assembled(s, events, r, buffer) == Kept(image, muted)
    decreases |events|
  {
    assert events != [];
    var s', rest := Step(s, events[0]), events[1..];
    if !(events[0].Recv? && events[0].sender == r) {
      FromOther(events, r);
      UnfoldOther(s, events, r, |leftovers|, muted, buffer, s', rest);
      SnapshotArrives(s', rest, r, leftovers, image, muted, buffer);
    } else {
      FromFirst(events, r, leftovers, [Cmd(InitBegin)] + Wires(image));
      UnfoldOwn(s, events, r, |leftovers|, muted, buffer, s', rest);
      if leftovers == [] {
        assert ([Cmd(InitBegin)] + Wires(image))[1..] == Wires(image);
        AssembledAnew(s', rest, r, image, muted);
      } else {
        SnapshotArrives(s', rest, r, leftovers[1..], image, muted, After(s, events[0], r, buffer));
      }
    }
  }

  lemma FitsOnwards(stream: seq<Message>, more: seq<Message>, image: seq<Message>, limit: nat)
    requires image != [] && InLimit(stream + image, limit) && (more == [] || more == [image[0]])
    ensures InLimit(stream + more, limit) && InLimit(stream + more + image[1..], limit)
  {
    TailLength(image);
    TotalLengthConcat(stream, image);
    TotalLengthConcat(stream, more);
    TotalLengthConcat(stream + more, image[1..]);
    assert more != [] ==> TotalLength(more) == Length(image[0]) by {
      assert LengthTo([image[0]], 0) == 0;
    }
  }

  /** A snapshot within the limit is never cut off: if the others do not end the upload, nothing does. */
  lemma {:induction false} NotCutOff(s: Session, events: seq<Event>, r: Byte, image: seq<Message>, limit: nat)
    requires Inv(s) && Uploading(s, r) && Runnable(s, events) && Undisturbed(s, events, r) && s.hist.limit == limit
    requires From(events, r) == Wires(image) && NoLists(image) && InLimit(s.stream + image, limit)
    ensures Stays(s, events, r)
    decreases |events|
  {
    if events != [] {
      var s' := Step(s, events[0]);
      LimitStays(s, events[0]);
      if events[0].Recv? && events[0].sender == r {
        FromOwn(events, r, image);
        OwnUpload(s, r, image[0]);
        FitsOnwards(s.stream, Accepted(s, r, image[0]), image, limit);
        StepKeeps(s, events[0]);
        NotCutOff(s', events[1..], r, image[1..], limit);
      } else {
        FromOther(events, r);
        StepKeeps(s, events[0]);
        OthersLeave(s, events[0], r);
        NotCutOff(s', events[1..], r, image, limit);
      }
    }
  }

  // ---- The whole handshake ----

  /** init-begin drops what was still in flight when the client started its snapshot. */
  lemma BeginDrops(s: Session, r: Byte)
    requires Inv(s) && Uploading(s, r)
    ensures Enabled(s, Recv(r, Cmd(InitBegin))) && HasBuffered(Step(s, Recv(r, Cmd(InitBegin))), r, [])
  {
    NobodyHeld(s, Index(s.clients, r));
    StepKeeps(s, Recv(r, Cmd(InitBegin)));
    BufferSize(s);
  }

  lemma ResetBegins(s: Session, r: Byte)
    requires Inv(s) && s.state == Running && !s.deleted && Connected(s, r) && IsOp(Get(s, r))
    ensures HasBuffered(Step(s, Recv(r, Cmd(ResetSession))), r, [])
  {
    NobodyHeld(s, Index(s.clients, r));
    StepKeeps(s, Recv(r, Cmd(ResetSession)));
  }

  lemma UploadCompletes(s: Session, r: Byte)
    requires Inv(s) && Uploading(s, r)
    ensures Enabled(s, Recv(r, Cmd(InitComplete))) && Step(s, Recv(r, Cmd(InitComplete))) == FinishReset(s)
  {
    NobodyHeld(s, Index(s.clients, r));
  }

  /** What init-complete does with an upload: if it is not empty and fits the limit together with the
      server's own messages, these are exactly what is installed (followed by the session settings, if
      these still fit); otherwise the log stays as the other clients have left it. */
  predicate Completed(t: Session, done: Session, upload: seq<Message>) {
    var all := ServerSide(t.clients) + upload;
    && done.state == Running && done.stream == [] && done.clients == t.clients
    && if upload != [] && Fits(t.hist, all) then
         && done.seen.resets == t.seen.resets + 1 && done.hist.first == LastIndex(t.hist) + 1
         && done.hist.msgs == all + (if t.hist.limit > 0 && TotalLength(all) == t.hist.limit then []
                                     else [Properties(Reinstalled(t))])
       else done.hist == t.hist && done.seen.resets == t.seen.resets
  }

  lemma Completes(t: Session, r: Byte, upload: seq<Message>)
    requires HasBuffered(t, r, upload)
    ensures Enabled(t, Recv(r, Cmd(InitComplete))) && Completed(t, Step(t, Recv(r, Cmd(InitComplete))), upload)
  {
    UploadCompletes(t, r);
    ResetOutcome(t, ServerSide(t.clients) + upload);
    Finishes(t);
  }

  /** The two-party reset, for every interleaving of the resetter's channel with the other clients and
      whatever the resetter sends: as long as nothing ends the upload, init-complete installs exactly
      what the server accepted since the last init-begin. */
  lemma TwoPartyReset(s: Session, events: seq<Event>, r: Byte)
    requires Inv(s) && s.state == Running && !s.deleted && Connected(s, r) && IsOp(Get(s, r))
    requires var s0 := Step(s, Recv(r, Cmd(ResetSession))); Runnable(s0, events) && Stays(s0, events, r)
    ensures var s0 := Step(s, Recv(r, Cmd(ResetSession)));
            var t := Run(s0, events);
            && Enabled(t, Recv(r, Cmd(InitComplete)))
            && Completed(t, Step(t, Recv(r, Cmd(InitComplete))), Assembled(s0, events, r, []))
  {
    var s0 := Step(s, Recv(r, Cmd(ResetSession)));
    ResetBegins(s, r);
    UploadPhase(s0, events, r);
    Completes(Run(s0, events), r, Assembled(s0, events, r, []));
  }

  /** In particular, after any leftovers, init-begin and a snapshot, what is installed is what the filter
      keeps of the snapshot; it is the snapshot itself if and only if no message of it is filtered. */
  lemma SnapshotInstalled(s: Session, events: seq<Event>, r: Byte, leftovers: seq<Input>, image: seq<Message>, muted: bool)
    requires Inv(s) && s.state == Running && !s.deleted && Connected(s, r) && IsOp(Get(s, r)) && NoLists(image)
    requires var s0 := Step(s, Recv(r, Cmd(ResetSession)));
             Runnable(s0, events) && Stays(s0, events, r) && SteadyAfter(s0, events, r, |leftovers|, muted)
    requires From(events, r) == leftovers + ([Cmd(InitBegin)] + Wires(image))
    ensures var t := Run(Step(s, Recv(r, Cmd(ResetSession))), events);
            && Enabled(t, Recv(r, Cmd(InitComplete)))
            && Completed(t, Step(t, Recv(r, Cmd(InitComplete))), Kept(image, muted))
    ensures Kept(image, muted) == image <==> forall i :: 0 <= i < |image| ==> !Filtered(image[i], muted)
  {
    TwoPartyReset(s, events, r);
    SnapshotArrives(Step(s, Recv(r, Cmd(ResetSession))), events, r, leftovers, image, muted, []);
    KeptAllIff(image, muted);
  }

  lemma LeftoversFirst(events: seq<Event>, r: Byte, lefts: seq<Message>, rest: seq<Input>)
    requires events != [] && events[0].Recv? && events[0].sender == r && rest != [] && From(events, r) == Wires(lefts) + rest
    ensures lefts == [] ==> events[0].input == rest[0] && From(events[1..], r) == rest[1..]
    ensures lefts != [] ==> events[0].input == Wire(lefts[0]) && From(events[1..], r) == Wires(lefts[1..]) + rest
  {
    FromFirst(events, r, Wires(lefts), rest);
    assert From(events, r)[0] == events[0].input;
    if lefts != [] {
      WiresFirst(lefts);
      assert Wires(lefts)[1..] == Wires(lefts[1..]);
    }
  }

  lemma StaysOn(s: Session, events: seq<Event>, r: Byte, s': Session)
    requires events != [] && Runnable(s, events) && s' == Step(s, events[0])
    requires Uploading(s', r) && Stays(s', events[1..], r)
    ensures Stays(s, events, r)
  {
  }

  /** The whole channel: leftovers and snapshot within the limit do not end the upload, so if the others do
      not, nothing does. */
  lemma {:induction false} NeverCutOff(s: Session, events: seq<Event>, r: Byte, lefts: seq<Message>, image: seq<Message>,
                                       limit: nat)
    requires Inv(s) && Uploading(s, r) && Runnable(s, events) && Undisturbed(s, events, r) && s.hist.limit == limit
    requires From(events, r) == Wires(lefts) + ([Cmd(InitBegin)] + Wires(image)) && NoLists(lefts) && NoLists(image)
    requires InLimit(s.stream + lefts, limit) && InLimit(image, limit)
    ensures Stays(s, events, r)
    decreases |events|
  {
    var rest := [Cmd(InitBegin)] + Wires(image);
    assert events != [];
    var s' := Step(s, events[0]);
    LimitStays(s, events[0]);
    StepKeeps(s, events[0]);
    if !(events[0].Recv? && events[0].sender == r) {
      FromOther(events, r);
      OthersLeave(s, events[0], r);
      NeverCutOff(s', events[1..], r, lefts, image, limit);
    } else {
      LeftoversFirst(events, r, lefts, rest);
      if lefts == [] {
        BeginDrops(s, r);
        assert rest[1..] == Wires(image) && [] + image == image;
        NotCutOff(s', events[1..], r, image, limit);
      } else {
        OwnUpload(s, r, lefts[0]);
        FitsOnwards(s.stream, Accepted(s, r, lefts[0]), lefts, limit);
        NeverCutOff(s', events[1..], r, lefts[1..], image, limit);
      }
    }
    StaysOn(s, events, r, s');
  }

  /** The handshake under conditions that the two parties can see: an operator asks for a reset, sends what it
      still had to send, init-begin and its snapshot, each within the limit and without lists, and the
      others neither remove nor mute it. Then init-complete installs what the filter keeps of the snapshot. */
  lemma HandshakeInstalls(s: Session, events: seq<Event>, r: Byte, lefts: seq<Message>, image: seq<Message>, muted: bool)
    requires Inv(s) && s.state == Running && !s.deleted && Connected(s, r) && IsOp(Get(s, r))
    requires NoLists(lefts) && NoLists(image) && InLimit(lefts, s.hist.limit) && InLimit(image, s.hist.limit)
    requires var s0 := Step(s, Recv(r, Cmd(ResetSession)));
             Runnable(s0, events) && Undisturbed(s0, events, r) && SteadyAfter(s0, events, r, |lefts|, muted)
    requires From(events, r) == Wires(lefts) + ([Cmd(InitBegin)] + Wires(image))
    ensures var t := Run(Step(s, Recv(r, Cmd(ResetSession))), events);
            && Enabled(t, Recv(r, Cmd(InitComplete)))
            && Completed(t, Step(t, Recv(r, Cmd(InitComplete))), Kept(image, muted))
  {
    var s0 := Step(s, Recv(r, Cmd(ResetSession)));
    ResetBegins(s, r);
    LimitStays(s, Recv(r, Cmd(ResetSession)));
    assert [] + lefts == lefts;
    NeverCutOff(s0, events, r, lefts, image, s.hist.limit);
    SnapshotInstalled(s, events, r, Wires(lefts), image, muted);
  }

  // ---- An upload that nobody interrupts ----

  /** The client's messages as the server receives them if nobody else does anything. */
  function Receipts(r: Byte, sent: seq<Input>): seq<Event> {
    if sent == [] then [] else [Recv(r, sent[0])] + Receipts(r, sent[1..])
  }

  lemma {:induction false} FromReceipts(r: Byte, sent: seq<Input>)
    ensures From(Receipts(r, sent), r) == sent
  {
    if sent != [] {
      FromReceipts(r, sent[1..]);
      assert Receipts(r, sent)[1..] == Receipts(r, sent[1..]);
    }
  }

  /** The events can happen, none of them ends the upload, and the resetter stays as muted as it is. */
  predicate GoesThrough(s: Session, events: seq<Event>, r: Byte, muted: bool) {
    Runnable(s, events) && Stays(s, events, r) && Steady(s, events, r, muted)
  }

  lemma FirstGoes(s: Session, input: Input, s': Session, sent: seq<Input>, r: Byte, muted: bool)
    requires Enabled(s, Recv(r, input)) && s' == Step(s, Recv(r, input)) && Uploading(s', r)
    requires Connected(s, r) && Get(s, r).muted == muted && GoesThrough(s', Receipts(r, sent), r, muted)
    ensures GoesThrough(s, Receipts(r, [input] + sent), r, muted)
  {
    var events := Receipts(r, [input] + sent);
    assert ([input] + sent)[1..] == sent;
    assert events[0] == Recv(r, input) && events[1..] == Receipts(r, sent);
  }

  /** A message that is no list changes nothing about the clients. */
  lemma PlainUpload(s: Session, r: Byte, m: Message)
    requires Inv(s) && Uploading(s, r) && !IsList(m) && InLimit(s.stream + Accepted(s, r, m), s.hist.limit)
    ensures Enabled(s, Recv(r, Wire(m)))
    ensures Step(s, Recv(r, Wire(m))) == if Filtered(m, Get(s, r).muted) then s else Buffered(s, m)
  {
    NobodyHeld(s, Index(s.clients, r));
    TotalLengthSnoc(s.stream, m);
  }

  /** An operator that is left alone gets through with every image within the limit: the interleaving
      without other clients meets the conditions above. */
  lemma {:induction false} UninterruptedUpload(s: Session, r: Byte, image: seq<Message>, muted: bool)
    requires Inv(s) && Uploading(s, r) && Get(s, r).muted == muted
    requires NoLists(image) && InLimit(s.stream + image, s.hist.limit)
    ensures GoesThrough(s, Receipts(r, Wires(image)), r, muted)
    decreases |image|
  {
    if image != [] {
      var s' := Step(s, Recv(r, Wire(image[0])));
      FitsOnwards(s.stream, Accepted(s, r, image[0]), image, s.hist.limit);
      PlainUpload(s, r, image[0]);
      OwnUpload(s, r, image[0]);
      StepKeeps(s, Recv(r, Wire(image[0])));
      UninterruptedUpload(s', r, image[1..], muted);
      WiresFirst(image);
      FirstGoes(s, Wire(image[0]), s', Wires(image[1..]), r, muted);
    }
  }

  /** A snapshot has the pinned message as a chat message, and the server drops the chat of a muted client:
      every reset by a muted operator loses the pinned message, although nothing disturbs it. */
  lemma MutedPinLost(s: Session, r: Byte, image: seq<Message>, i: nat)
    requires HasBuffered(s, r, []) && Get(s, r).muted && NoLists(image) && InLimit(image, s.hist.limit)
    requires i < |image| && image[i].kind == MSG_CHAT
    ensures var events := Receipts(r, Wires(image));
            && Runnable(s, events) && Stays(s, events, r) && From(events, r) == Wires(image)
            && HasBuffered(Run(s, events), r, Kept(image, true)) && Kept(image, true) != image
  {
    assert [] + image == image;
    UninterruptedUpload(s, r, image, true);
    var events := Receipts(r, Wires(image));
    FromReceipts(r, Wires(image));
    UploadPhase(s, events, r);
    AssembledAnew(s, events, r, image, true);
    KeptAllIff(image, true);
    assert Filtered(image[i], true);
  }

  // ---- The client's side ----

  /** What the client sends when the server is ready for its snapshot. */
  function SnapshotReply(hasCanvas: bool, isBlank: bool, snapshot: seq<Message>, prepared: seq<Message>, maxSize: nat):
    (reply: seq<Input>)
  {
    var image := if prepared == [] then snapshot else prepared;
    if !hasCanvas || (prepared == [] && isBlank) || !InLimit(image, maxSize) then [Cmd(InitCancel)]
    else [Cmd(InitBegin)] + Wires(image) + [Cmd(InitComplete)]
  }

  /** The client uploads exactly if it has a canvas, something to show (a prepared image, or a canvas that is
      not blank), and the image is within the limit it was told; otherwise it cancels. */
  lemma UploadsIff(hasCanvas: bool, isBlank: bool, snapshot: seq<Message>, prepared: seq<Message>, maxSize: nat,
                   image: seq<Message>)
    requires image == if prepared == [] then snapshot else prepared
    ensures var reply := SnapshotReply(hasCanvas, isBlank, snapshot, prepared, maxSize);
            var upload := [Cmd(InitBegin)] + Wires(image) + [Cmd(InitComplete)];
            && (reply == upload <==> hasCanvas && (prepared != [] || !isBlank) && (maxSize == 0 || TotalLength(image) <= maxSize))
            && (reply != upload ==> reply == [Cmd(InitCancel)])
  {
    var upload := [Cmd(InitBegin)] + Wires(image) + [Cmd(InitComplete)];
    assert upload[0] == Cmd(InitBegin);
  }

  /** A client that knows the server's limit and replies with an upload is never cut off for being too
      large, over any interleaving from init-begin on that the others do not end; and what the server
      then has is what the filter keeps of the snapshot. */
  lemma ReplyArrives(s: Session, events: seq<Event>, r: Byte, isBlank: bool, snapshot: seq<Message>, prepared: seq<Message>,
                     image: seq<Message>, muted: bool)
    requires HasBuffered(s, r, []) && Runnable(s, events) && Undisturbed(s, events, r) && Steady(s, events, r, muted)
    requires image == (if prepared == [] then snapshot else prepared) && NoLists(image)
    requires SnapshotReply(true, isBlank, snapshot, prepared, s.hist.limit) != [Cmd(InitCancel)]
    requires [Cmd(InitBegin)] + From(events, r) + [Cmd(InitComplete)] ==
             SnapshotReply(true, isBlank, snapshot, prepared, s.hist.limit)
    ensures Stays(s, events, r) && HasBuffered(Run(s, events), r, Kept(image, muted))
  {
    ReplyFront(From(events, r), Wires(image));
    assert [] + image == image;
    NotCutOff(s, events, r, image, s.hist.limit);
    UploadPhase(s, events, r);
    AssembledAnew(s, events, r, image, muted);
  }

  lemma ReplyFront(a: seq<Input>, b: seq<Input>)
    requires [Cmd(InitBegin)] + a + [Cmd(InitComplete)] == [Cmd(InitBegin)] + b + [Cmd(InitComplete)]
    ensures a == b
  {
    assert ([Cmd(InitBegin)] + a + [Cmd(InitComplete)])[1..|a| + 1] == a;
    assert |a| == |b|;
    assert ([Cmd(InitBegin)] + b + [Cmd(InitComplete)])[1..|b| + 1] == b;
  }

  /** But it does not leave room for the server's own messages, so a snapshot that passes the client's
      check can still be refused; one that uses the limit up always is. */
  lemma FullSizeSnapshotRefused(h: History, clients: seq<Client>, image: seq<Message>)
    requires h.limit > 0 && TotalLength(image) == h.limit
    ensures InLimit(image, h.limit) && !Fits(h, ServerSide(clients) + image)
  {
    var joins := Joins(clients, |clients|);
    var owner := SessionOwner(OpIds(clients, |clients|));
    var trusted := if TrustedIds(clients, |clients|) == [] then [] else [TrustedUsers(TrustedIds(clients, |clients|))];
    TotalLengthSnoc(joins, owner);
    TotalLengthConcat(joins + [owner], trusted);
    TotalLengthConcat(ServerSide(clients), image);
  }

  /** The client document, as far as resets are concerned. */
  class Document {
    var resetState: seq<Message>
    var maxSize: nat
    var sent: seq<Input>

    constructor ()
      ensures resetState == [] && maxSize == 0 && sent == []
    {
      resetState, maxSize, sent := [], 0, [];
    }

    method SendResetSession(resetImage: seq<Message>)
      modifies this
      ensures resetState == resetImage && maxSize == old(maxSize) && sent == old(sent) + [Cmd(ResetSession)]
    {
      resetState := resetImage;
      sent := sent + [Cmd(ResetSession)];
    }

    /** Answers the server's query, or starts the reset it was chosen for; a client that is not caught
        up with the session keeps out of it. */
    method OnAutoresetRequested(limit: nat, query: bool, caughtUp: bool, enabled: bool, lock: Message, notice: Message)
      modifies this
      ensures !caughtUp ==> maxSize == old(maxSize) && sent == old(sent) && resetState == old(resetState)
      ensures caughtUp ==> maxSize == limit
      ensures caughtUp && !enabled ==> sent == old(sent)
      ensures caughtUp && enabled && query ==> sent == old(sent) + [Cmd(ReadyToAutoReset)]
      ensures caughtUp && enabled && !query ==>
                resetState == [] && sent == old(sent) + [Wire(lock), Wire(notice), Cmd(ResetSession)]
      ensures query || !enabled ==> resetState == old(resetState)
    {
      if caughtUp {
        maxSize := limit;
        if enabled {
          if query {
            sent := sent + [Cmd(ReadyToAutoReset)];
          } else {
            sent := sent + [Wire(lock)];
            sent := sent + [Wire(notice)];
            SendResetSession([]);
          }
        }
      }
    }

    method SnapshotNeeded(hasCanvas: bool, isBlank: bool, snapshot: seq<Message>)
      modifies this
      ensures sent == old(sent) + SnapshotReply(hasCanvas, isBlank, snapshot, old(resetState), maxSize)
      ensures var image := if old(resetState) == [] then snapshot else old(resetState);
              var uploads := && hasCanvas && (old(resetState) != [] || !isBlank)
                             && (maxSize == 0 || TotalLength(image) <= maxSize);
              if uploads then sent == old(sent) + ([Cmd(InitBegin)] + Wires(image) + [Cmd(InitComplete)])
              else sent == old(sent) + [Cmd(InitCancel)]
      ensures maxSize == old(maxSize) && (hasCanvas ==> resetState == []) && (!hasCanvas ==> resetState == old(resetState))
    {
      if !hasCanvas || (resetState == [] && isBlank) {
        sent := sent + [Cmd(InitCancel)];
      } else {
        if resetState == [] {
          resetState := snapshot;
        }
        var tooLarge := false;
        if maxSize > 0 {
          var size := SumLengths(resetState);
          tooLarge := size > maxSize;
        }
        if tooLarge {
          resetState := [];
          sent := sent + [Cmd(InitCancel)];
        } else {
          sent := sent + [Cmd(InitBegin)];
          sent := sent + Wires(resetState);
          sent := sent + [Cmd(InitComplete)];
          resetState := [];
        }
      }
    }
  }
}
