/** Protocol messages as the server sees them: a four byte header (payload length in big-endian
    order, type, context id) followed by a payload the server mostly does not interpret. */
module Messages {
  import opened Wrappers

  type Byte = b: int | 0 <= b < 256

  const HEADER_LEN: nat := 4

  const MSG_COMMAND: Byte := 0
  const MSG_DISCONNECT: Byte := 1
  const MSG_USER_JOIN: Byte := 32
  const MSG_USER_LEAVE: Byte := 33
  const MSG_SESSION_OWNER: Byte := 34
  const MSG_CHAT: Byte := 35
  const MSG_TRUSTED_USERS: Byte := 36
  const MSG_SOFTRESET: Byte := 37
  const MSG_PRIVATE_CHAT: Byte := 38

  datatype Message = Message(kind: Byte, ctx: Byte, payload: seq<Byte>)

  /** The payload length must fit the 16 bit header field. */
  predicate Encodable(m: Message) {
    |m.payload| <= 0xffff
  }

  predicate AllEncodable(ms: seq<Message>) {
    forall i :: 0 <= i < |ms| ==> Encodable(ms[i])
  }

  function Length(m: Message): nat {
    HEADER_LEN + |m.payload|
  }

  /** The length of the first n messages, that is, the offset of message n. */
  function LengthTo(ms: seq<Message>, n: nat): nat
    requires n <= |ms|
  {
    if n == 0 then 0 else LengthTo(ms, n - 1) + Length(ms[n - 1])
  }

  function TotalLength(ms: seq<Message>): nat {
    LengthTo(ms, |ms|)
  }

  lemma {:induction false} LengthToPrefix(a: seq<Message>, b: seq<Message>, n: nat)
    requires n <= |a| && n <= |b| && (forall i :: 0 <= i < n ==> a[i] == b[i])
    ensures LengthTo(a, n) == LengthTo(b, n)
  {
    if n > 0 {
      LengthToPrefix(a, b, n - 1);
    }
  }

  lemma {:induction false} LengthToConcat(a: seq<Message>, b: seq<Message>, n: nat)
    requires n <= |b|
    ensures LengthTo(a + b, |a| + n) == TotalLength(a) + LengthTo(b, n)
  {
    if n == 0 {
      LengthToPrefix(a + b, a, |a|);
    } else {
      LengthToConcat(a, b, n - 1);
    }
  }

  lemma TotalLengthConcat(a: seq<Message>, b: seq<Message>)
    ensures TotalLength(a + b) == TotalLength(a) + TotalLength(b)
  {
    LengthToConcat(a, b, |b|);
  }

  lemma TotalLengthSnoc(a: seq<Message>, m: Message)
    ensures TotalLength(a + [m]) == TotalLength(a) + Length(m)
  {
    LengthToPrefix(a + [m], a, |a|);
  }

  lemma {:induction false} LengthToAscends(ms: seq<Message>, i: nat, j: nat)
    requires i <= j <= |ms|
    ensures LengthTo(ms, i) <= LengthTo(ms, j)
    ensures i < j ==> LengthTo(ms, i) + Length(ms[i]) <= LengthTo(ms, j)
  {
    if i < j {
      LengthToAscends(ms, i, j - 1);
    }
  }

  method SumLengths(ms: seq<Message>) returns (size: nat)
    ensures size == TotalLength(ms)
  {
    size := 0;
    for i := 0 to |ms|
      invariant size == LengthTo(ms, i)
    {
      size := size + Length(ms[i]);
    }
  }

  function UserLeave(id: Byte): Message {
    Message(MSG_USER_LEAVE, id, [])
  }

  // ---- Wire format ----

  function Encode(m: Message): seq<Byte>
    requires Encodable(m)
  {
    [|m.payload| / 256, |m.payload| % 256, m.kind, m.ctx] + m.payload
  }

  /** A 16 bit number in big-endian order. */
  function Word(hi: int, lo: int): int {
    hi * 256 + lo
  }

  /** Reads the message that starts at the position, or nothing if it is not all there. */
  function DecodeAt(bytes: seq<Byte>, pos: nat): (r: Option<Message>)
    ensures r.Some? ==> Encodable(r.value) && pos + Length(r.value) <= |bytes|
  {
    if |bytes| < pos + HEADER_LEN then None
    else
      var len := Word(bytes[pos], bytes[pos + 1]);
      if |bytes| < pos + HEADER_LEN + len then None
      else Some(Message(bytes[pos + 2], bytes[pos + 3], bytes[pos + HEADER_LEN..pos + HEADER_LEN + len]))
  }

  lemma HeaderOfSlice(bytes: seq<Byte>, pos: nat, e: seq<Byte>, end: nat)
    requires HEADER_LEN <= |e| && end == pos + |e| <= |bytes| && bytes[pos..end] == e
    ensures bytes[pos] == e[0] && bytes[pos + 1] == e[1] && bytes[pos + 2] == e[2] && bytes[pos + 3] == e[3]
    ensures bytes[pos + HEADER_LEN..end] == e[HEADER_LEN..]
  {
    assert bytes[pos] == bytes[pos..end][0] && bytes[pos + 1] == bytes[pos..end][1];
    assert bytes[pos + 2] == bytes[pos..end][2] && bytes[pos + 3] == bytes[pos..end][3];
    assert bytes[pos + HEADER_LEN..end] == bytes[pos..end][HEADER_LEN..];
  }

  lemma PayloadOfEncoded(m: Message)
    requires Encodable(m)
    ensures |Encode(m)| == Length(m) && Encode(m)[HEADER_LEN..] == m.payload
    ensures Word(Encode(m)[0], Encode(m)[1]) == |m.payload| && Encode(m)[2] == m.kind && Encode(m)[3] == m.ctx
  {
  }

  /** What is written at a position is read back there, whatever surrounds it. */
  lemma DecodeEncode(bytes: seq<Byte>, pos: nat, m: Message)
    requires Encodable(m) && pos + Length(m) <= |bytes| && bytes[pos..pos + Length(m)] == Encode(m)
    ensures DecodeAt(bytes, pos) == Some(m)
  {
    PayloadOfEncoded(m);
    HeaderOfSlice(bytes, pos, Encode(m), pos + Length(m));
  }

  /** Reading depends on no byte behind the message. */
  lemma DecodeFrame(bytes: seq<Byte>, bytes': seq<Byte>, pos: nat, end: nat)
    requires DecodeAt(bytes, pos).Some? && pos + Length(DecodeAt(bytes, pos).value) <= end
    requires end <= |bytes| && end <= |bytes'| && (forall i :: 0 <= i < end ==> bytes[i] == bytes'[i])
    ensures DecodeAt(bytes', pos) == DecodeAt(bytes, pos)
  {
    var len := Word(bytes[pos], bytes[pos + 1]);
    assert bytes[pos + HEADER_LEN..pos + HEADER_LEN + len] == bytes'[pos + HEADER_LEN..pos + HEADER_LEN + len];
  }

  /** The maximal run of whole messages from a position on. */
  function WholeFrom(bytes: seq<Byte>, pos: nat): seq<Message>
    requires pos <= |bytes|
    decreases |bytes| - pos
  {
    match DecodeAt(bytes, pos)
    case None => []
    case Some(m) => [m] + WholeFrom(bytes, pos + Length(m))
  }

  // ---- Who a log says is present ----

  predicate IsPresence(m: Message) {
    m.kind == MSG_USER_JOIN || m.kind == MSG_USER_LEAVE
  }

  predicate NoPresence(ms: seq<Message>) {
    forall i :: 0 <= i < |ms| ==> !IsPresence(ms[i])
  }

  function ApplyPresence(users: set<Byte>, m: Message): set<Byte> {
    if m.kind == MSG_USER_JOIN then users + {m.ctx}
    else if m.kind == MSG_USER_LEAVE then users - {m.ctx}
    else users
  }

  /** The users that joined and did not leave, reading the log front to back. */
  function Present(ms: seq<Message>): set<Byte> {
    if ms == [] then {} else ApplyPresence(Present(ms[..|ms| - 1]), ms[|ms| - 1])
  }

  lemma PresentSnoc(ms: seq<Message>, m: Message)
    ensures Present(ms + [m]) == ApplyPresence(Present(ms), m)
  {
    assert (ms + [m])[..|ms|] == ms;
  }

  lemma {:induction false} PresentSkips(a: seq<Message>, b: seq<Message>)
    requires NoPresence(b)
    ensures Present(a + b) == Present(a)
  {
    if b == [] {
      assert a + b == a;
    } else {
      var b' := b[..|b| - 1];
      PresentSkips(a, b');
      assert a + b == (a + b') + [b[|b| - 1]];
      PresentSnoc(a + b', b[|b| - 1]);
    }
  }
}
