/** The file backed history: an append-only recording of encoded messages, an index of blocks over
    it, and one lazily loaded, evictable cache per block. */
module FiledHistory {
  import opened Wrappers
  import opened Messages
  import opened SessionHistory
  import opened Blocks

  datatype Block = Block(startOffset: nat, startIndex: nat, count: nat, endOffset: nat, messages: seq<Message>)

  // ---- What the index says about the partition ----

  /** Block i describes part i: its place in the numbering, its bytes, and a cache that is either
      empty or exactly the part. */
  predicate Describes(blocks: seq<Block>, headerEnd: nat, first: nat, parts: Parts, i: nat)
    requires i < |parts| == |blocks|
  {
    var b := blocks[i];
    && b.startIndex == first + Before(parts, i)
    && b.count == |parts[i]|
    && b.startOffset == headerEnd + BytesBefore(parts, i)
    && b.endOffset == b.startOffset + TotalLength(parts[i])
    && (b.messages == [] || b.messages == parts[i])
  }

  predicate Indexed(blocks: seq<Block>, headerEnd: nat, first: nat, parts: Parts) {
    |blocks| == |parts| && forall i :: 0 <= i < |blocks| ==> Describes(blocks, headerEnd, first, parts, i)
  }

  /** The blocks tile the history, in indices and in bytes, up to its last index and last byte. */
  lemma BlocksTile(blocks: seq<Block>, headerEnd: nat, first: nat, parts: Parts, i: nat)
    requires Indexed(blocks, headerEnd, first, parts) && i < |blocks|
    ensures i == 0 ==> blocks[i].startIndex == first && blocks[i].startOffset == headerEnd
    ensures i > 0 ==> blocks[i].startIndex == blocks[i - 1].startIndex + blocks[i - 1].count
    ensures i > 0 ==> blocks[i].startOffset == blocks[i - 1].endOffset
    ensures i + 1 == |blocks| ==> blocks[i].startIndex + blocks[i].count == first + |Flatten(parts)|
    ensures i + 1 == |blocks| ==> blocks[i].endOffset == headerEnd + TotalLength(Flatten(parts))
  {
    assert Describes(blocks, headerEnd, first, parts, i);
    if i > 0 {
      assert Describes(blocks, headerEnd, first, parts, i - 1);
    }
    Measures(parts, |parts|);
  }

  /** An empty block right behind the given one. */
  function NextBlock(b: Block): Block {
    Block(b.endOffset, b.startIndex + b.count, 0, b.endOffset, [])
  }

  lemma IndexedClose(blocks: seq<Block>, headerEnd: nat, first: nat, parts: Parts)
    requires Indexed(blocks, headerEnd, first, parts) && parts != []
    ensures Indexed(blocks + [NextBlock(blocks[|blocks| - 1])], headerEnd, first, parts + [[]])
  {
    var n := |parts| - 1;
    var parts', blocks' := parts + [[]], blocks + [NextBlock(blocks[n])];
    forall i | 0 <= i <= n + 1
      ensures Describes(blocks', headerEnd, first, parts', i)
    {
      PrefixOfParts(parts, parts', i);
      assert Describes(blocks, headerEnd, first, parts, if i <= n then i else n);
    }
  }

  /** The last block after one more message. The cache grows only if it is active. */
  function Grow(b: Block, m: Message): Block {
    b.(count := b.count + 1,
       endOffset := b.endOffset + Length(m),
       messages := if b.messages == [] then [] else b.messages + [m])
  }

  lemma IndexedGrow(blocks: seq<Block>, headerEnd: nat, first: nat, parts: Parts, m: Message)
    requires Indexed(blocks, headerEnd, first, parts) && parts != []
    ensures Indexed(blocks[|blocks| - 1 := Grow(blocks[|blocks| - 1], m)], headerEnd, first, GrowPart(parts, m))
  {
    var n := |parts| - 1;
    var parts', blocks' := GrowPart(parts, m), blocks[n := Grow(blocks[n], m)];
    TotalLengthSnoc(Last(parts), m);
    forall i | 0 <= i <= n
      ensures Describes(blocks', headerEnd, first, parts', i)
    {
      PrefixOfParts(parts, parts', i);
      assert Describes(blocks, headerEnd, first, parts, i);
    }
  }

  lemma IndexedRecache(blocks: seq<Block>, headerEnd: nat, first: nat, parts: Parts, i: nat, cache: seq<Message>)
    requires Indexed(blocks, headerEnd, first, parts) && i < |blocks| && (cache == [] || cache == parts[i])
    ensures Indexed(blocks[i := blocks[i].(messages := cache)], headerEnd, first, parts)
  {
    var blocks' := blocks[i := blocks[i].(messages := cache)];
    forall j | 0 <= j < |blocks|
      ensures Describes(blocks', headerEnd, first, parts, j)
    {
      assert Describes(blocks, headerEnd, first, parts, j);
    }
  }

  // ---- What the recording holds ----

  /** Message k can be read at its offset behind the header. */
  predicate ReadableAt(recording: seq<Byte>, headerEnd: nat, msgs: seq<Message>, k: nat)
    requires k < |msgs|
  {
    DecodeAt(recording, headerEnd + LengthTo(msgs, k)) == Some(msgs[k])
  }

  /** Every message is there, and the position is behind the last one. */
  predicate Records(recording: seq<Byte>, headerEnd: nat, pos: nat, msgs: seq<Message>) {
    && pos == headerEnd + TotalLength(msgs) <= |recording|
    && forall k :: 0 <= k < |msgs| ==> ReadableAt(recording, headerEnd, msgs, k)
  }

  /** The write at a position: bytes behind it are overwritten, never cut off. */
  function Overwrite(recording: seq<Byte>, pos: nat, bytes: seq<Byte>): (r: seq<Byte>)
    requires pos <= |recording|
    ensures |r| >= pos + |bytes| && r[pos..pos + |bytes|] == bytes
    ensures forall i :: 0 <= i < pos ==> r[i] == recording[i]
  {
    recording[..pos] + bytes + (if pos + |bytes| < |recording| then recording[pos + |bytes|..] else [])
  }

  /** One more message at the position, if the bytes in front of it are as before. */
  lemma RecordsSnoc(recording: seq<Byte>, recording': seq<Byte>, headerEnd: nat, pos: nat, msgs: seq<Message>,
                    m: Message)
    requires Records(recording, headerEnd, pos, msgs)
    requires pos <= |recording'| && (forall i :: 0 <= i < pos ==> recording'[i] == recording[i])
    requires DecodeAt(recording', pos) == Some(m)
    ensures Records(recording', headerEnd, pos + Length(m), msgs + [m])
  {
    var msgs' := msgs + [m];
    TotalLengthSnoc(msgs, m);
    forall k | 0 <= k < |msgs'|
      ensures ReadableAt(recording', headerEnd, msgs', k)
    {
      LengthToPrefix(msgs', msgs, k);
      if k < |msgs| {
        LengthToAscends(msgs, k, |msgs|);
        assert ReadableAt(recording, headerEnd, msgs, k);
        DecodeFrame(recording, recording', headerEnd + LengthTo(msgs, k), pos);
      }
    }
  }

  lemma RecordsAppend(recording: seq<Byte>, headerEnd: nat, pos: nat, msgs: seq<Message>, m: Message)
    requires Records(recording, headerEnd, pos, msgs) && Encodable(m)
    ensures Records(Overwrite(recording, pos, Encode(m)), headerEnd, pos + Length(m), msgs + [m])
  {
    DecodeEncode(Overwrite(recording, pos, Encode(m)), pos, m);
    RecordsSnoc(recording, Overwrite(recording, pos, Encode(m)), headerEnd, pos, msgs, m);
  }

  lemma SplitAt(msgs: seq<Message>, k: nat, rest: seq<Message>)
    requires k < |msgs|
    ensures msgs[k..] + rest == [msgs[k]] + (msgs[k + 1..] + rest)
    ensures msgs[..k] + ([msgs[k]] + rest) == msgs[..k + 1] + rest
  {
  }

  lemma WholeStep(bytes: seq<Byte>, pos: nat, m: Message, next: nat)
    requires DecodeAt(bytes, pos) == Some(m) && next == pos + Length(m)
    ensures WholeFrom(bytes, pos) == [m] + WholeFrom(bytes, next)
  {
  }

  /** A recording reads back as exactly its messages, then whatever whole messages follow them. */
  lemma {:induction false} RecordsAreWhole(recording: seq<Byte>, headerEnd: nat, pos: nat, msgs: seq<Message>, k: nat)
    requires Records(recording, headerEnd, pos, msgs) && k <= |msgs|
    ensures headerEnd + LengthTo(msgs, k) <= |recording|
    ensures WholeFrom(recording, headerEnd + LengthTo(msgs, k)) == msgs[k..] + WholeFrom(recording, pos)
    decreases |msgs| - k
  {
    LengthToAscends(msgs, k, |msgs|);
    if k == |msgs| {
      assert msgs[k..] + WholeFrom(recording, pos) == WholeFrom(recording, pos);
    } else {
      assert ReadableAt(recording, headerEnd, msgs, k);
      WholeStep(recording, headerEnd + LengthTo(msgs, k), msgs[k], headerEnd + LengthTo(msgs, k + 1));
      RecordsAreWhole(recording, headerEnd, pos, msgs, k + 1);
      SplitAt(msgs, k, WholeFrom(recording, pos));
    }
  }

  lemma ScanEnd(recording: seq<Byte>, headerEnd: nat, pos: nat, msgs: seq<Message>)
    requires Records(recording, headerEnd, pos, msgs)
    requires pos < |recording| ==> DecodeAt(recording, pos).None?
    ensures headerEnd <= |recording| && msgs == WholeFrom(recording, headerEnd)
  {
    RecordsAreWhole(recording, headerEnd, pos, msgs, 0);
    assert WholeFrom(recording, pos) == [];
    assert msgs[0..] + [] == msgs;
  }

  /** Reloading finds exactly the history if and only if no message can be read behind the position. */
  lemma ReloadsExactlyIff(recording: seq<Byte>, headerEnd: nat, pos: nat, msgs: seq<Message>)
    requires Records(recording, headerEnd, pos, msgs)
    ensures WholeFrom(recording, headerEnd) == msgs <==> DecodeAt(recording, pos).None?
  {
    RecordsAreWhole(recording, headerEnd, pos, msgs, 0);
    var tail := WholeFrom(recording, pos);
    assert msgs[0..] == msgs;
    assert |msgs + tail| == |msgs| + |tail|;
    assert tail == [] <==> DecodeAt(recording, pos).None?;
    assert tail == [] ==> msgs + tail == msgs;
  }

  /** The beginning of a put-image command, cut off in the middle of its data, and what a leave message
      written over it leaves of it. */
  function CutCommand(id: Byte): seq<Byte> {
    [0, 255, 136, id] + RestOfCommand(id)
  }

  function RestOfCommand(id: Byte): seq<Byte> {
    [0, 3, 35, id, 0, 0, 72]
  }

  lemma CutCommandIsNone(file: seq<Byte>, at: nat, id: Byte)
    requires at <= |file| && file[at..] == CutCommand(id)
    ensures WholeFrom(file, at) == []
  {
    var tail := file[at..];
    assert forall i :: 0 <= i < |tail| ==> file[at + i] == tail[i];
  }

  lemma RestReadsAsChat(file: seq<Byte>, at: nat, id: Byte)
    requires at <= |file| && file[at..] == RestOfCommand(id)
    ensures WholeFrom(file, at) == [Message(MSG_CHAT, id, [0, 0, 72])]
  {
    var tail := file[at..];
    assert forall i :: 0 <= i < |tail| ==> file[at + i] == tail[i];
    assert file[at + 4..at + 7] == [0, 0, 72];
    assert DecodeAt(file, at) == Some(Message(MSG_CHAT, id, [0, 0, 72]));
    assert WholeFrom(file, at + 7) == [];
  }

  /** What is written at a position starts the rest of the messages. */
  lemma ReadsOn(file: seq<Byte>, at: nat, m: Message)
    requires Encodable(m) && at + Length(m) <= |file| && file[at..at + Length(m)] == Encode(m)
    ensures WholeFrom(file, at) == [m] + WholeFrom(file, at + Length(m))
  {
    DecodeEncode(file, at, m);
  }

  lemma FileOfThree(a: seq<Byte>, b: seq<Byte>, c: seq<Byte>, file: seq<Byte>)
    requires file == a + b + c
    ensures file[0..|a|] == a && file[|a|..|a| + |b|] == b && file[|a| + |b|..] == c
  {
  }

  lemma OverwritesHeader(a: seq<Byte>, h: seq<Byte>, l: seq<Byte>, c: seq<Byte>)
    requires |h| == |l|
    ensures Overwrite(a + (h + c), |a|, l) == a + l + c
  {
  }

  lemma FirstReload(join: Message, id: Byte, file: seq<Byte>)
    requires Encodable(join) && file == Encode(join) + CutCommand(id)
    ensures WholeFrom(file, 0) == [join]
  {
    var at := Length(join);
    assert file[0..at] == Encode(join) && file[at..] == CutCommand(id);
    ReadsOn(file, 0, join);
    CutCommandIsNone(file, at, id);
  }

  lemma LeaveThenChat(file: seq<Byte>, at: nat, leave: Message, id: Byte, end: nat)
    requires Encodable(leave) && end == at + Length(leave) <= |file|
    requires file[at..end] == Encode(leave) && file[end..] == RestOfCommand(id)
    ensures WholeFrom(file, at) == [leave, Message(MSG_CHAT, id, [0, 0, 72])]
  {
    ReadsOn(file, at, leave);
    RestReadsAsChat(file, end, id);
  }

  lemma SecondReload(join: Message, leave: Message, id: Byte, file: seq<Byte>)
    requires Encodable(join) && Encodable(leave) && file == Encode(join) + Encode(leave) + RestOfCommand(id)
    ensures WholeFrom(file, 0) == [join, leave, Message(MSG_CHAT, id, [0, 0, 72])]
  {
    FileOfThree(Encode(join), Encode(leave), RestOfCommand(id), file);
    LeaveThenChat(file, Length(join), leave, id, Length(join) + Length(leave));
    ReadsOn(file, 0, join);
  }

  /** A truncated tail is overwritten but not cut off, so what is left of it can come back as a message.
      For every user who has joined when the server stops in the middle of a command: the leave message
      written at the first reload covers only the header of the command, and the next reload reads the
      rest of it as a chat message. */
  lemma TruncatedTailResurfaces(join: Message, id: Byte, file: seq<Byte>, reloaded: seq<Byte>)
    requires join.kind == MSG_USER_JOIN && join.ctx == id && Encodable(join) && file == Encode(join) + CutCommand(id)
    requires reloaded == Overwrite(file, Length(join), Encode(UserLeave(id)))
    ensures WholeFrom(file, 0) == [join] && Present([join]) == {id}
    ensures WholeFrom(reloaded, 0) == [join, UserLeave(id), Message(MSG_CHAT, id, [0, 0, 72])]
  {
    FirstReload(join, id, file);
    PresentSnoc([], join);
    assert [] + [join] == [join];
    OverwritesHeader(Encode(join), [0, 255, 136, id], Encode(UserLeave(id)), RestOfCommand(id));
    SecondReload(join, UserLeave(id), id, reloaded);
  }

  /** How many of the first k messages fit in the given number of bytes. */
  function Fitting(msgs: seq<Message>, room: nat, k: nat): (n: nat)
    requires k <= |msgs|
    ensures n <= k && LengthTo(msgs, n) <= room
    ensures n < k ==> room < LengthTo(msgs, n) + Length(msgs[n])
  {
    if LengthTo(msgs, k) <= room then k else Fitting(msgs, room, k - 1)
  }

  /** The first n messages are recorded in any file that has their bytes. */
  lemma RecordsCut(recording: seq<Byte>, headerEnd: nat, pos: nat, msgs: seq<Message>, disk: seq<Byte>, n: nat, end: nat)
    requires Records(recording, headerEnd, pos, msgs) && n <= |msgs| && end == headerEnd + LengthTo(msgs, n)
    requires end <= |disk| && end <= |recording| && (forall i :: 0 <= i < end ==> disk[i] == recording[i])
    ensures Records(disk, headerEnd, end, msgs[..n])
  {
    LengthToPrefix(msgs[..n], msgs, n);
    forall k | 0 <= k < n
      ensures ReadableAt(disk, headerEnd, msgs[..n], k)
    {
      LengthToPrefix(msgs[..n], msgs, k);
      LengthToAscends(msgs, k, n);
      assert ReadableAt(recording, headerEnd, msgs, k);
      DecodeFrame(recording, disk, headerEnd + LengthTo(msgs, k), end);
    }
  }

  /** The disk has the recording up to the cut, and anything behind it. */
  predicate StoppedAt(recording: seq<Byte>, disk: seq<Byte>, cut: nat) {
    cut <= |disk| && cut <= |recording| && forall i :: 0 <= i < cut ==> disk[i] == recording[i]
  }

  /** A stop at any byte loses only what was not complete on disk: reading gives the longest prefix of
      the history that fits, then whatever whole messages an older content of the file has there. If
      the file ends at the cut, there are none. */
  lemma StopAnywhere(recording: seq<Byte>, headerEnd: nat, pos: nat, msgs: seq<Message>, disk: seq<Byte>, cut: nat, n: nat)
    requires Records(recording, headerEnd, pos, msgs) && headerEnd <= cut <= pos && StoppedAt(recording, disk, cut)
    requires n == Fitting(msgs, cut - headerEnd, |msgs|)
    ensures headerEnd + LengthTo(msgs, n) <= |disk|
    ensures WholeFrom(disk, headerEnd) == msgs[..n] + WholeFrom(disk, headerEnd + LengthTo(msgs, n))
    ensures |disk| == cut ==> WholeFrom(disk, headerEnd + LengthTo(msgs, n)) == []
    ensures cut == pos ==> n == |msgs|
  {
    var end := headerEnd + LengthTo(msgs, n);
    RecordsCut(recording, headerEnd, pos, msgs, disk, n, end);
    RecordsAreWhole(disk, headerEnd, end, msgs[..n], 0);
    assert msgs[..n][0..] == msgs[..n];
    if |disk| == cut {
      NothingBehind(recording, headerEnd, pos, msgs, disk, cut, n, end);
    }
    if n < |msgs| {
      LengthToAscends(msgs, n, |msgs|);
    }
  }

  lemma NothingBehind(recording: seq<Byte>, headerEnd: nat, pos: nat, msgs: seq<Message>, disk: seq<Byte>, cut: nat, n: nat,
                      end: nat)
    requires Records(recording, headerEnd, pos, msgs) && headerEnd <= cut <= pos && StoppedAt(recording, disk, cut) && |disk| == cut
    requires n == Fitting(msgs, cut - headerEnd, |msgs|) && end == headerEnd + LengthTo(msgs, n)
    ensures WholeFrom(disk, end) == []
  {
    assert disk == recording[..cut];
    if n < |msgs| {
      assert ReadableAt(recording, headerEnd, msgs, n);
      UnfinishedIsNone(recording, cut, end);
    }
  }

  /** What a stop at the cut leaves of a history. */
  predicate Survives(headerEnd: nat, pos: nat, msgs: seq<Message>, disk: seq<Byte>, cut: nat)
    requires headerEnd <= cut <= |disk|
  {
    var kept := WholeFrom(disk, headerEnd);
    var complete := msgs[..Fitting(msgs, cut - headerEnd, |msgs|)];
    && complete <= kept
    && (|disk| == cut ==> kept == complete)
    && (|disk| == cut == pos ==> kept == msgs && headerEnd + TotalLength(kept) == |disk|)
  }

  lemma SurvivesStop(recording: seq<Byte>, headerEnd: nat, pos: nat, msgs: seq<Message>, disk: seq<Byte>, cut: nat)
    requires Records(recording, headerEnd, pos, msgs) && headerEnd <= cut <= pos && StoppedAt(recording, disk, cut)
    ensures Survives(headerEnd, pos, msgs, disk, cut)
  {
    var n := Fitting(msgs, cut - headerEnd, |msgs|);
    StopAnywhere(recording, headerEnd, pos, msgs, disk, cut, n);
    assert msgs[..n] + [] == msgs[..n];
    assert msgs[..|msgs|] == msgs;
  }

  lemma UnfinishedIsNone(recording: seq<Byte>, cut: nat, at: nat)
    requires at <= cut <= |recording| && DecodeAt(recording, at).Some?
    requires cut < at + Length(DecodeAt(recording, at).value)
    ensures DecodeAt(recording[..cut], at).None?
  {
  }

  // ---- Closing out the users of a recording ----

  function Leaves(ids: seq<Byte>): seq<Message> {
    if ids == [] then [] else Leaves(ids[..|ids| - 1]) + [UserLeave(ids[|ids| - 1])]
  }

  function Elements(ids: seq<Byte>): set<Byte> {
    set id | id in ids
  }

  lemma LeaveStep(base: seq<Message>, ids: seq<Byte>, id: Byte)
    requires NoRepeats(ids) && id !in Elements(ids)
    ensures NoRepeats(ids + [id]) && Elements(ids + [id]) == Elements(ids) + {id}
    ensures base + Leaves(ids + [id]) == base + Leaves(ids) + [UserLeave(id)]
  {
    assert (ids + [id])[..|ids|] == ids;
  }

  lemma {:induction false} PresentAfterLeaves(ms: seq<Message>, ids: seq<Byte>)
    ensures Present(ms + Leaves(ids)) == Present(ms) - Elements(ids)
  {
    if ids == [] {
      assert ms + Leaves(ids) == ms;
    } else {
      var ids' := ids[..|ids| - 1];
      var id := ids[|ids| - 1];
      PresentAfterLeaves(ms, ids');
      assert ms + Leaves(ids) == (ms + Leaves(ids')) + [UserLeave(id)];
      PresentSnoc(ms + Leaves(ids'), UserLeave(id));
      assert ids == ids' + [id];
    }
  }

  /** The ids that the leave messages of a log name, in order. */
  function LeaveIds(ms: seq<Message>): seq<Byte> {
    if ms == [] then []
    else
      var m := ms[|ms| - 1];
      LeaveIds(ms[..|ms| - 1]) + (if m.kind == MSG_USER_LEAVE then [m.ctx] else [])
  }

  lemma LeaveIdsSnoc(ms: seq<Message>, m: Message)
    ensures LeaveIds(ms + [m]) == LeaveIds(ms) + (if m.kind == MSG_USER_LEAVE then [m.ctx] else [])
  {
    assert (ms + [m])[..|ms|] == ms;
  }

  // ---- Evicting caches ----

  function Evict(blocks: seq<Block>, before: int): (r: seq<Block>)
    ensures |r| == |blocks|
    ensures forall i :: 0 <= i < |blocks| ==>
              r[i] == if blocks[i].startIndex + blocks[i].count < before then blocks[i].(messages := []) else blocks[i]
  {
    seq(|blocks|, i requires 0 <= i < |blocks| =>
      if blocks[i].startIndex + blocks[i].count < before then blocks[i].(messages := []) else blocks[i])
  }

  predicate Ascending(blocks: seq<Block>) {
    forall i, j :: 0 <= i <= j < |blocks| ==>
                     blocks[i].startIndex + blocks[i].count <= blocks[j].startIndex + blocks[j].count
  }

  lemma {:induction false} BeforeAscends(parts: Parts, i: nat, j: nat)
    requires i <= j <= |parts|
    ensures Before(parts, i) <= Before(parts, j)
  {
    if i < j {
      BeforeAscends(parts, i, j - 1);
    }
  }

  lemma EndsAscend(blocks: seq<Block>, headerEnd: nat, first: nat, parts: Parts)
    requires Indexed(blocks, headerEnd, first, parts)
    ensures Ascending(blocks)
  {
    forall i, j | 0 <= i <= j < |blocks|
      ensures blocks[i].startIndex + blocks[i].count <= blocks[j].startIndex + blocks[j].count
    {
      assert Describes(blocks, headerEnd, first, parts, i) && Describes(blocks, headerEnd, first, parts, j);
      BeforeAscends(parts, i + 1, j + 1);
    }
  }

  lemma IndexedEvict(blocks: seq<Block>, headerEnd: nat, first: nat, parts: Parts, before: int)
    requires Indexed(blocks, headerEnd, first, parts)
    ensures Indexed(Evict(blocks, before), headerEnd, first, parts)
  {
    forall i | 0 <= i < |blocks|
      ensures Describes(Evict(blocks, before), headerEnd, first, parts, i)
    {
      assert Describes(blocks, headerEnd, first, parts, i);
    }
  }

  class FiledHistory {
    var recording: seq<Byte>
    var pos: nat
    var headerEnd: nat
    var blocks: seq<Block>
    var firstIndex: nat
    var lastIndex: int
    var sizeInBytes: nat
    var sizeLimit: nat
    var autoResetBaseSize: nat
    ghost var msgs: seq<Message>
    ghost var parts: Parts

    ghost predicate FileOk()
      reads `recording, `headerEnd, `pos, `msgs
    {
      Records(recording, headerEnd, pos, msgs)
    }

    ghost predicate IndexOk()
      reads `blocks, `headerEnd, `firstIndex, `parts
    {
      WellFormed(parts) && Indexed(blocks, headerEnd, firstIndex, parts)
    }

    /** The file, the index and the counters agree on one history. */
    ghost predicate Valid()
      reads this
    {
      && FileOk() && IndexOk() && msgs == Flatten(parts)
      && sizeInBytes == TotalLength(msgs)
      && lastIndex == firstIndex + |msgs| - 1
    }

    /** Nothing lies behind the write position. */
    ghost predicate Clean()
      reads `recording, `pos
    {
      pos == |recording|
    }

    ghost function Value(): History
      reads this
    {
      History(firstIndex, msgs, sizeInBytes, sizeLimit, autoResetBaseSize)
    }

    /** Coherence of file, index, caches and counters: the write position is the end of the last block,
        the size is what lies between the header and it, only the last block can be empty, and a
        cache is empty or the block's slice of the history. */
    lemma Coherence(i: nat)
      requires Valid() && i < |blocks|
      ensures pos == blocks[|blocks| - 1].endOffset && sizeInBytes == blocks[|blocks| - 1].endOffset - headerEnd
      ensures lastIndex == blocks[|blocks| - 1].startIndex + blocks[|blocks| - 1].count - 1
      ensures i + 1 < |blocks| ==> blocks[i].count > 0
      ensures firstIndex <= blocks[i].startIndex && blocks[i].startIndex - firstIndex + blocks[i].count <= |msgs|
      ensures var from := blocks[i].startIndex - firstIndex;
              blocks[i].messages == [] || blocks[i].messages == msgs[from..from + blocks[i].count]
    {
      BlocksTile(blocks, headerEnd, firstIndex, parts, |blocks| - 1);
      assert Describes(blocks, headerEnd, firstIndex, parts, i);
      BlockIsSlice(parts, i);
    }

    /** A new session: just the recording header. */
    constructor (header: seq<Byte>, limit: nat)
      ensures Valid() && parts == [[]] && Clean()
      ensures Value() == History(0, [], 0, limit, 0)
    {
      recording, pos, headerEnd := header, |header|, |header|;
      blocks := [Block(|header|, 0, 0, |header|, [])];
      firstIndex, lastIndex, sizeInBytes, sizeLimit, autoResetBaseSize := 0, -1, 0, limit, 0;
      msgs, parts := [], [[]];
      new;
      FlattenOne();
    }

    // ---- Writing ----

    method Write(m: Message)
      requires FileOk() && Encodable(m)
      modifies `recording, `pos, `msgs
      ensures FileOk() && msgs == old(msgs) + [m] && (old(Clean()) ==> Clean())
    {
      RecordsAppend(recording, headerEnd, pos, msgs, m);
      recording := Overwrite(recording, pos, Encode(m));
      pos := pos + Length(m);
      msgs := msgs + [m];
    }

    /** Counts one more message in the last block. */
    method GrowLast(m: Message)
      requires IndexOk()
      modifies `blocks, `parts
      ensures IndexOk() && Flatten(parts) == Flatten(old(parts)) + [m] && parts == GrowPart(old(parts), m)
    {
      assert Describes(blocks, headerEnd, firstIndex, parts, |parts| - 1);
      IndexedGrow(blocks, headerEnd, firstIndex, parts, m);
      GrowFlattens(parts, m);
      blocks := blocks[|blocks| - 1 := Grow(blocks[|blocks| - 1], m)];
      parts := GrowPart(parts, m);
    }

    /** Opens a new block unless the last one is still empty. */
    method CloseBlock()
      requires IndexOk()
      modifies `blocks, `parts
      ensures IndexOk() && Flatten(parts) == Flatten(old(parts)) && Last(parts) == []
      ensures parts == if Last(old(parts)) == [] then old(parts) else old(parts) + [[]]
    {
      assert Describes(blocks, headerEnd, firstIndex, parts, |parts| - 1);
      var b := blocks[|blocks| - 1];
      if b.count > 0 {
        CloseFlattens(parts);
        IndexedClose(blocks, headerEnd, firstIndex, parts);
        blocks := blocks + [NextBlock(b)];
        parts := parts + [[]];
      }
    }

    method LastBlockSize() returns (size: nat)
      requires IndexOk()
      ensures size == TotalLength(Last(parts))
    {
      assert Describes(blocks, headerEnd, firstIndex, parts, |parts| - 1);
      var b := blocks[|blocks| - 1];
      size := b.endOffset - b.startOffset;
    }

    method Append(m: Message)
      requires FileOk() && IndexOk() && Encodable(m)
      modifies `recording, `pos, `msgs, `blocks, `parts
      ensures FileOk() && IndexOk() && msgs == old(msgs) + [m] && (old(Clean()) ==> Clean())
      ensures Flatten(parts) == Flatten(old(parts)) + [m] && parts == GrowPart(old(parts), m)
    {
      Write(m);
      GrowLast(m);
    }

    method HistoryAdd(m: Message)
      requires FileOk() && IndexOk() && Encodable(m)
      modifies `recording, `pos, `msgs, `blocks, `parts
      ensures FileOk() && IndexOk() && msgs == old(msgs) + [m] && (old(Clean()) ==> Clean())
      ensures Flatten(parts) == Flatten(old(parts)) + [m]
      ensures TotalLength(Last(parts)) <= MAX_BLOCK_SIZE
      ensures var grown := GrowPart(old(parts), m);
              parts == if TotalLength(Last(grown)) > MAX_BLOCK_SIZE then grown + [[]] else grown
    {
      Append(m);
      var size := LastBlockSize();
      if size > MAX_BLOCK_SIZE {
        CloseBlock();
      }
    }

    /** Appends if there is space; the numbering and size move with the stored message. */
    method AddMessage(m: Message) returns (added: bool)
      requires Valid() && Encodable(m)
      modifies this
      ensures Valid() && added == !OutOfSpace(old(Value())) && (old(Clean()) ==> Clean())
      ensures Value() == SessionHistory.AddMessage(old(Value()), m)
    {
      added := !(sizeLimit > 0 && sizeInBytes >= sizeLimit);
      if added {
        ghost var msgs' := msgs + [m];
        TotalLengthSnoc(msgs, m);
        sizeInBytes := sizeInBytes + Length(m);
        lastIndex := lastIndex + 1;
        HistoryAdd(m);
        assert msgs == Flatten(parts) == msgs';
      }
    }

    /** A fresh recording file with one empty block. */
    method InitRecording(header: seq<Byte>)
      modifies `recording, `pos, `headerEnd, `msgs, `blocks, `parts
      ensures FileOk() && IndexOk() && msgs == [] && parts == [[]] && Flatten(parts) == []
      ensures headerEnd == pos == |header| && Clean()
    {
      recording, pos, headerEnd := header, |header|, |header|;
      blocks := [Block(|header|, firstIndex, 0, |header|, [])];
      msgs, parts := [], [[]];
      FlattenOne();
    }

    /** A fresh recording, filled with the given messages. */
    method HistoryReset(header: seq<Byte>, newHistory: seq<Message>)
      requires AllEncodable(newHistory)
      modifies `recording, `pos, `headerEnd, `msgs, `blocks, `parts
      ensures FileOk() && IndexOk() && msgs == newHistory && Flatten(parts) == newHistory && Clean()
    {
      InitRecording(header);
      for i := 0 to |newHistory|
        modifies `recording, `pos, `msgs, `blocks, `parts
        invariant FileOk() && IndexOk() && msgs == Flatten(parts) && msgs == newHistory[..i] && Clean()
      {
        assert newHistory[..i + 1] == newHistory[..i] + [newHistory[i]];
        HistoryAdd(newHistory[i]);
      }
    }

    /** Replaces the content, unless it is over the limit. */
    method Reset(header: seq<Byte>, newHistory: seq<Message>) returns (done: bool)
      requires Valid() && AllEncodable(newHistory)
      modifies this
      ensures Valid() && done == Fits(old(Value()), newHistory) && (done || old(Clean()) ==> Clean())
      ensures Value() == SessionHistory.Reset(old(Value()), newHistory)
    {
      var newSize := SumLengths(newHistory);
      done := !(sizeLimit > 0 && newSize > sizeLimit);
      if done {
        sizeInBytes, autoResetBaseSize := newSize, newSize;
        firstIndex := lastIndex + 1;
        lastIndex := lastIndex + |newHistory|;
        HistoryReset(header, newHistory);
      }
    }

    // ---- Reading ----

    /** Reads consecutive messages from the current file position. */
    method ReadRun(count: nat, ghost end: nat, ghost from: nat) returns (loaded: seq<Message>)
      requires Records(recording, headerEnd, end, msgs) && from + count <= |msgs|
      requires pos == headerEnd + LengthTo(msgs, from)
      modifies `pos
      ensures loaded == msgs[from..from + count]
    {
      loaded := [];
      for k := 0 to count
        modifies `pos
        invariant pos == headerEnd + LengthTo(msgs, from + k)
        invariant loaded == msgs[from..from + k]
      {
        assert ReadableAt(recording, headerEnd, msgs, from + k);
        var m := DecodeAt(recording, pos).value;
        loaded := loaded + [m];
        pos := pos + Length(m);
      }
    }

    /** Fills the cache of block i from the file; the write position is put back. */
    method LoadBlock(i: nat)
      requires FileOk() && IndexOk() && msgs == Flatten(parts) && i < |blocks|
      modifies `blocks, `pos
      ensures FileOk() && IndexOk() && pos == old(pos)
      ensures i < |parts| && blocks == old(blocks)[i := old(blocks)[i].(messages := parts[i])]
    {
      assert Describes(blocks, headerEnd, firstIndex, parts, |parts| - 1);
      assert Describes(blocks, headerEnd, firstIndex, parts, i);
      BlockIsSlice(parts, i);
      BlockOffset(parts, i);
      var b := blocks[i];
      var prevPos := pos;
      pos := b.startOffset;
      var loaded := ReadRun(b.count, prevPos, Before(parts, i));
      pos := prevPos;
      IndexedRecache(blocks, headerEnd, firstIndex, parts, i, loaded);
      blocks := blocks[i := b.(messages := loaded)];
    }

    /** The search for the block that holds the index after the given one, from the last block. */
    method FindBlock(after: int) returns (i: nat)
      requires IndexOk()
      ensures i < |parts| && i == BlockFor(firstIndex, parts, after, |parts| - 1)
    {
      assert Describes(blocks, headerEnd, firstIndex, parts, |parts| - 1);
      i := |blocks| - 1;
      while i > 0
        invariant 0 <= i < |blocks|
        invariant BlockFor(firstIndex, parts, after, |parts| - 1) == BlockFor(firstIndex, parts, after, i)
      {
        var b := blocks[i - 1];
        assert Describes(blocks, headerEnd, firstIndex, parts, i - 1);
        if b.startIndex + b.count - 1 <= after {
          break;
        }
        i := i - 1;
      }
    }

    /** The messages of block i, loaded from the file if they are not cached. */
    method CachedBlock(i: nat) returns (messages: seq<Message>)
      requires FileOk() && IndexOk() && msgs == Flatten(parts) && i < |parts|
      modifies `blocks, `pos
      ensures FileOk() && IndexOk() && pos == old(pos) && messages == parts[i]
    {
      assert Describes(blocks, headerEnd, firstIndex, parts, i);
      if blocks[i].messages == [] {
        LoadBlock(i);
      }
      messages := blocks[i].messages;
    }

    /** The block, the offset in it and the last index that make up the next batch. */
    method Locate(after: int) returns (i: nat, idxOffset: nat, last: int)
      requires IndexOk()
      ensures i < |parts| == |blocks| && blocks[i].count == |parts[i]|
      ensures Batch(firstIndex, parts, after) == (if idxOffset < |parts[i]| then parts[i][idxOffset..] else [], last)
    {
      i := FindBlock(after);
      assert Describes(blocks, headerEnd, firstIndex, parts, i);
      BatchUnfold(firstIndex, parts, after, i);
      var start: int := blocks[i].startIndex;
      idxOffset := if after < start - 1 then 0 else after - start + 1;
      last := start + blocks[i].count - 1;
    }

    /** The next batch is a function of the partition alone: caches, evictions and earlier loads
        never show in the result. */
    method GetBatch(after: int) returns (batch: seq<Message>, last: int)
      requires Valid()
      modifies `blocks, `pos
      ensures Valid() && pos == old(pos)
      ensures (batch, last) == Batch(firstIndex, parts, after)
    {
      var i, idxOffset;
      i, idxOffset, last := Locate(after);
      batch := [];
      if idxOffset < blocks[i].count {
        var messages := CachedBlock(i);
        batch := messages[idxOffset..];
      }
    }

    /** The early exit is exact: precisely the blocks that end before the given index lose their
        cache, and nothing else changes. */
    method CleanupBatches(before: int)
      requires IndexOk()
      modifies `blocks
      ensures IndexOk() && blocks == Evict(old(blocks), before)
    {
      IndexedEvict(blocks, headerEnd, firstIndex, parts, before);
      EndsAscend(blocks, headerEnd, firstIndex, parts);
      DropCaches(before);
    }

    method DropCaches(before: int)
      requires Ascending(blocks)
      modifies `blocks
      ensures blocks == Evict(old(blocks), before)
    {
      var i := 0;
      while i < |blocks| && blocks[i].startIndex + blocks[i].count < before
        modifies `blocks
        invariant 0 <= i <= |blocks| == |old(blocks)|
        invariant forall j :: 0 <= j < i ==> blocks[j] == Evict(old(blocks), before)[j]
        invariant forall j :: i <= j < |blocks| ==> blocks[j] == old(blocks)[j]
      {
        if blocks[i].messages != [] {
          blocks := blocks[i := blocks[i].(messages := [])];
        }
        i := i + 1;
      }
    }

    method CopyNext(recorded: seq<Message>, at: int) returns (recorded': seq<Message>, last: int)
      requires Valid() && Copied(firstIndex, msgs, recorded, at) && at < lastIndex
      modifies `blocks, `pos
      ensures Valid() && pos == old(pos)
      ensures Copied(firstIndex, msgs, recorded', last) && last > at
    {
      BatchIsNextSlice(firstIndex, parts, at);
      CopyOn(firstIndex, msgs, recorded, at, Batch(firstIndex, parts, at));
      var history;
      history, last := GetBatch(at);
      recorded' := recorded + history;
    }

    method CopyFirst() returns (recorded: seq<Message>, last: int)
      requires Valid()
      modifies `blocks, `pos
      ensures Valid() && pos == old(pos) && Copied(firstIndex, msgs, recorded, last)
    {
      BatchIsNextSlice(firstIndex, parts, 0);
      CopyStart(firstIndex, msgs, Batch(firstIndex, parts, 0));
      recorded, last := GetBatch(0);
    }

    method CopyBatches() returns (recorded: seq<Message>, ghost last: int)
      requires Valid()
      modifies `blocks, `pos
      ensures Valid() && pos == old(pos) && Copied(firstIndex, msgs, recorded, last) && last >= lastIndex
    {
      var lastBatchIndex;
      recorded, lastBatchIndex := CopyFirst();
      while lastBatchIndex < lastIndex
        modifies `blocks, `pos
        invariant Valid() && pos == old(pos) && Copied(firstIndex, msgs, recorded, lastBatchIndex)
      {
        recorded, lastBatchIndex := CopyNext(recorded, lastBatchIndex);
      }
      last := lastBatchIndex;
    }

    /** Copies the history into a fresh server-side recording; the loop ends, and what it wrote is
        everything after index zero, once and in order. */
    method RestartRecording() returns (recorded: seq<Message>)
      requires Valid()
      modifies `blocks, `pos
      ensures Valid() && pos == old(pos)
      ensures recorded == if firstIndex > 0 || msgs == [] then msgs else msgs[1..]
    {
      ghost var last;
      recorded, last := CopyBatches();
      CopyDone(firstIndex, msgs, recorded, last);
    }

    // ---- Loading what a stopped server left behind ----

    /** Skips over the message that is next in the file and counts it in the index. */
    method SkipMessage(m: Message)
      requires FileOk() && IndexOk() && DecodeAt(recording, pos) == Some(m)
      modifies `pos, `msgs, `blocks, `parts
      ensures FileOk() && IndexOk() && pos == old(pos) + Length(m) <= |recording| && msgs == old(msgs) + [m]
      ensures Flatten(parts) == Flatten(old(parts)) + [m]
    {
      RecordsSnoc(recording, recording, headerEnd, pos, msgs, m);
      pos := pos + Length(m);
      msgs := msgs + [m];
      GrowLast(m);
      var size := LastBlockSize();
      if size >= MAX_BLOCK_SIZE {
        CloseBlock();
      }
    }

    /** The scan loop: skips from message to message up to the first unfinished one. */
    method ScanWhole(bytes: seq<Byte>, header: nat) returns (users: set<Byte>, reserved: seq<Byte>)
      requires header <= |bytes|
      modifies `recording, `pos, `headerEnd, `msgs, `blocks, `parts
      ensures FileOk() && IndexOk() && headerEnd == header && recording == bytes
      ensures msgs == Flatten(parts) && msgs == WholeFrom(bytes, header)
      ensures users == Present(msgs) && reserved == LeaveIds(msgs)
    {
      InitRecording(bytes[..header]);
      recording := bytes;
      users, reserved := {}, [];
      var more := true;
      while more
        modifies `pos, `msgs, `blocks, `parts
        invariant FileOk() && IndexOk() && msgs == Flatten(parts) && pos <= |bytes|
        invariant users == Present(msgs) && reserved == LeaveIds(msgs)
        invariant more || pos == |bytes| || DecodeAt(bytes, pos).None?
        decreases more, |bytes| - pos
      {
        var read := DecodeAt(recording, pos);
        if read.None? {
          more := false;
        } else {
          users, reserved := Account(read.value, users, reserved);
          SkipMessage(read.value);
          more := pos < |recording|;
        }
      }
      ScanEnd(recording, headerEnd, pos, msgs);
    }

    /** What the scan remembers of a message: who is present, and which ids to move back. */
    method Account(m: Message, users: set<Byte>, reserved: seq<Byte>) returns (users': set<Byte>, reserved': seq<Byte>)
      requires users == Present(msgs) && reserved == LeaveIds(msgs)
      ensures users' == Present(msgs + [m]) && reserved' == LeaveIds(msgs + [m])
    {
      PresentSnoc(msgs, m);
      LeaveIdsSnoc(msgs, m);
      users', reserved' := users, reserved;
      if m.kind == MSG_USER_JOIN {
        users' := users + {m.ctx};
      } else if m.kind == MSG_USER_LEAVE {
        users' := users - {m.ctx};
        reserved' := reserved + [m.ctx];
      }
    }

    /** The recording must end with nobody present: one leave message per user, in any order. */
    method WriteLeaves(users: set<Byte>, already: seq<Byte>) returns (left: seq<Byte>, reserved: seq<Byte>)
      requires FileOk() && IndexOk() && msgs == Flatten(parts) && already == LeaveIds(msgs)
      modifies `recording, `pos, `msgs, `blocks, `parts
      ensures FileOk() && IndexOk() && msgs == Flatten(parts) == old(msgs) + Leaves(left)
      ensures NoRepeats(left) && Elements(left) == users && (old(Clean()) ==> Clean())
      ensures reserved == LeaveIds(msgs)
    {
      var rest := users;
      left, reserved := [], already;
      while rest != {}
        modifies `recording, `pos, `msgs, `blocks, `parts
        invariant rest <= users && NoRepeats(left) && Elements(left) == users - rest
        invariant FileOk() && IndexOk() && msgs == Flatten(parts) == old(msgs) + Leaves(left)
        invariant reserved == LeaveIds(msgs) && (old(Clean()) ==> Clean())
      {
        var user :| user in rest;
        rest := rest - {user};
        LeaveStep(old(msgs), left, user);
        LeaveIdsSnoc(msgs, UserLeave(user));
        Append(UserLeave(user));
        left := left + [user];
        reserved := reserved + [user];
      }
    }

    /** Takes the size and the numbering from the rebuilt index. */
    method HistoryLoaded()
      requires FileOk() && IndexOk() && msgs == Flatten(parts)
      modifies `sizeInBytes, `lastIndex, `autoResetBaseSize
      ensures Valid() && autoResetBaseSize == sizeInBytes
    {
      BlocksTile(blocks, headerEnd, firstIndex, parts, |blocks| - 1);
      assert Describes(blocks, headerEnd, firstIndex, parts, |parts| - 1);
      var b := blocks[|blocks| - 1];
      sizeInBytes := b.endOffset - headerEnd;
      lastIndex := b.startIndex + b.count - 1;
      autoResetBaseSize := sizeInBytes;
    }

    /** Rebuilds the index: the whole messages, then one leave message per user still present. */
    method ScanBlocks(bytes: seq<Byte>, header: nat) returns (left: seq<Byte>, reserved: seq<Byte>)
      requires header <= |bytes|
      modifies `recording, `pos, `headerEnd, `msgs, `blocks, `parts
      ensures FileOk() && IndexOk() && headerEnd == header && msgs == Flatten(parts)
      ensures msgs == WholeFrom(bytes, header) + Leaves(left)
      ensures NoRepeats(left) && Elements(left) == Present(WholeFrom(bytes, header))
      ensures reserved == LeaveIds(msgs)
      ensures header + TotalLength(WholeFrom(bytes, header)) == |bytes| ==> Clean()
    {
      var users;
      users, reserved := ScanWhole(bytes, header);
      left, reserved := WriteLeaves(users, reserved);
    }

    /** Rebuilds the history from the bytes on disk; nobody is present in it. */
    method Load(bytes: seq<Byte>, header: nat, limit: nat) returns (ok: bool, left: seq<Byte>, reserved: seq<Byte>)
      requires header <= |bytes|
      modifies this
      ensures Valid() && headerEnd == header
      ensures msgs == WholeFrom(bytes, header) + Leaves(left)
      ensures NoRepeats(left) && Elements(left) == Present(WholeFrom(bytes, header))
      ensures Present(msgs) == {} && reserved == LeaveIds(msgs)
      ensures firstIndex == 0 && sizeLimit == limit && autoResetBaseSize == sizeInBytes
      ensures ok == (msgs != [])
      ensures header + TotalLength(WholeFrom(bytes, header)) == |bytes| ==> Clean()
    {
      firstIndex, sizeLimit := 0, limit;
      left, reserved := ScanBlocks(bytes, header);
      PresentAfterLeaves(WholeFrom(bytes, header), left);
      HistoryLoaded();
      ok := sizeInBytes != 0;
    }

    /** Reload after a stop at any byte, of any session: what comes back is the longest prefix of the
        history that was complete on disk, then whatever an older content of the file has behind it
        (nothing, if the file ended there, as it does in a session whose file is clean), and exactly
        one leave message per user then present. */
    method StopAndReload(disk: seq<Byte>, cut: nat) returns (ok: bool, left: seq<Byte>)
      requires Valid() && headerEnd <= cut <= pos && StoppedAt(recording, disk, cut)
      modifies this
      ensures Valid() && headerEnd == old(headerEnd) && firstIndex == 0
      ensures Survives(old(headerEnd), old(pos), old(msgs), disk, cut)
      ensures var kept := WholeFrom(disk, old(headerEnd));
              && msgs == kept + Leaves(left)
              && NoRepeats(left) && Elements(left) == Present(kept) && Present(msgs) == {}
      ensures |disk| == cut == old(pos) ==> Clean()
      ensures ok == (msgs != [])
    {
      SurvivesStop(recording, headerEnd, pos, msgs, disk, cut);
      var reserved;
      ok, left, reserved := Load(disk, headerEnd, sizeLimit);
    }
  }
}
