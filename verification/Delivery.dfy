/** Delivery: every client has a cursor into the shared log and pulls batches, while appends,
    resets, block closings and cache evictions move the log underneath it. */
module Delivery {
  import opened Messages
  import opened Blocks
  import FiledHistory

  /** A client's cursor, the index it was told to skip up to (the host's own upload), and
      everything it was handed: indices, messages, and where the window started at the time. */
  datatype Reader = Reader(cursor: int, base: int, got: seq<nat>, msgs: seq<Message>, windows: seq<nat>)

  /** The log window and its block partition, every message ever stored by index, the indices at
      which resets started a new window, and the connected readers. */
  datatype Net = Net(first: nat, parts: Parts, master: seq<Message>, resets: set<nat>, running: bool,
                     readers: map<nat, Reader>)

  /** The block partition after an event is any one that holds the right messages. */
  datatype Event =
    | Append(m: Message, parts: Parts)
    | Repartition(parts: Parts)
    | Reset(parts: Parts)
    | Start
    | Join(id: nat)
    | Leave(id: nat)
    | Skip(id: nat)
    | Pull(id: nat)

  predicate Enabled(s: Net, e: Event) {
    match e
    case Append(m, parts) => WellFormed(parts) && Flatten(parts) == Flatten(s.parts) + [m]
    case Repartition(parts) => WellFormed(parts) && Flatten(parts) == Flatten(s.parts)
    case Reset(parts) => s.running && WellFormed(parts)
    case Start => true
    case Join(id) => id !in s.readers
    case Leave(id) => id in s.readers
    case Skip(id) => !s.running && id in s.readers
    case Pull(id) => s.running && id in s.readers
  }

  function Range(from: nat, to: nat): (r: seq<nat>)
    requires from <= to
    ensures |r| == to - from && forall i :: 0 <= i < |r| ==> r[i] == from + i
  {
    seq(to - from, i requires 0 <= i < to - from => from + i)
  }

  /** The cursor moves to the last index of the batch, as in sendNextHistoryBatch. */
  function Receive(r: Reader, batch: seq<Message>, last: int, first: nat): Reader
    requires last + 1 >= |batch|
  {
    Reader(last, r.base, r.got + Range(last + 1 - |batch|, last + 1), r.msgs + batch, r.windows + seq(|batch|, _ => first))
  }

  function Step(s: Net, e: Event): Net
    requires WellFormed(s.parts) && Enabled(s, e)
  {
    match e
    case Append(m, parts) => s.(parts := parts, master := s.master + [m])
    case Repartition(parts) => s.(parts := parts)
    case Reset(parts) =>
      var first := s.first + |Flatten(s.parts)|;
      s.(first := first, parts := parts, master := s.master + Flatten(parts), resets := s.resets + {first})
    case Start => s.(running := true)
    case Join(id) => s.(readers := s.readers[id := Reader(-1, -1, [], [], [])])
    case Leave(id) => s.(readers := s.readers - {id})
    case Skip(id) =>
      var last := s.first + |Flatten(s.parts)| - 1;
      s.(readers := s.readers[id := s.readers[id].(cursor := last, base := last)])
    case Pull(id) =>
      BatchIsNextSlice(s.first, s.parts, s.readers[id].cursor);
      var (batch, last) := Batch(s.first, s.parts, s.readers[id].cursor);
      s.(readers := s.readers[id := Receive(s.readers[id], batch, last, s.first)])
  }

  // ---- What every step keeps ----

  predicate LogOk(s: Net) {
    && WellFormed(s.parts)
    && |s.master| == s.first + |Flatten(s.parts)|
    && s.master[s.first..] == Flatten(s.parts)
    && (s.first == 0 || s.first in s.resets)
  }

  /** Everything handed out is the message that index has for everyone. */
  predicate Truthful(r: Reader, master: seq<Message>) {
    |r.got| == |r.msgs| && forall k :: 0 <= k < |r.got| ==> r.got[k] < |master| && r.msgs[k] == master[r.got[k]]
  }

  /** Indices go up by one, except for jumps that land exactly on the first index at the time of the pull;
      and that is where a reset started, or the beginning. */
  predicate Ordered(r: Reader, resets: set<nat>) {
    && |r.windows| == |r.got|
    && (forall k :: 0 <= k < |r.got| ==> r.windows[k] <= r.got[k] && (r.windows[k] == 0 || r.windows[k] in resets))
    && (forall j, k :: 0 <= j < |r.got| && k == j + 1 && k < |r.got| ==>
                         r.got[j] < r.got[k] && (r.got[k] == r.got[j] + 1 || r.got[k] == r.windows[k]))
  }

  /** Where the messages of the current window begin for this reader, and how many it has. */
  function Begin(r: Reader, first: nat): nat
    requires r.base >= -1
  {
    if r.base + 1 > first then r.base + 1 else first
  }

  function Count(r: Reader, first: nat): nat
    requires r.base >= -1
  {
    if r.cursor + 1 > Begin(r, first) then r.cursor + 1 - Begin(r, first) else 0
  }

  /** The last messages handed out are exactly the current window up to the cursor; everything
      before them is older than the window. */
  predicate UpToDate(r: Reader, first: nat)
    requires r.base >= -1
  {
    && Count(r, first) <= |r.got|
    && (forall k :: |r.got| - Count(r, first) <= k < |r.got| ==> r.got[k] == r.cursor + 1 - |r.got| + k)
    && (forall k :: 0 <= k < |r.got| - Count(r, first) ==> r.got[k] < Begin(r, first))
  }

  predicate ReaderOk(r: Reader, first: nat, master: seq<Message>, resets: set<nat>, running: bool) {
    true == (&& -1 <= r.base <= r.cursor < |master|
             && Truthful(r, master)
             && Ordered(r, resets)
             && UpToDate(r, first)
             && (r.got != [] ==> r.got[|r.got| - 1] <= r.cursor)
             && (r.got != [] ==> r.got[|r.got| - 1] == r.cursor || r.cursor + 1 <= first)
             && (!running ==> r.got == []))
  }

  predicate NetOk(s: Net) {
    LogOk(s) && forall id :: id in s.readers ==> ReaderOk(s.readers[id], s.first, s.master, s.resets, s.running)
  }

  lemma GrowsTruth(r: Reader, master: seq<Message>, more: seq<Message>)
    requires Truthful(r, master)
    ensures Truthful(r, master + more)
  {
  }

  lemma ReceiveTruthful(r: Reader, first: nat, master: seq<Message>, batch: seq<Message>, from: nat, last: nat)
    requires Truthful(r, master) && from <= last < |master| && batch == master[from..last + 1]
    ensures Truthful(Receive(r, batch, last, first), master)
  {
  }

  lemma ReceiveOrdered(r: Reader, first: nat, resets: set<nat>, batch: seq<Message>, from: nat, last: nat)
    requires Ordered(r, resets) && first <= from && (first == 0 || first in resets) && last + 1 == from + |batch|
    requires r.got != [] ==> r.got[|r.got| - 1] < from && (from == r.got[|r.got| - 1] + 1 || from == first)
    ensures Ordered(Receive(r, batch, last, first), resets)
  {
  }

  lemma ReceiveUpToDate(r: Reader, first: nat, batch: seq<Message>, from: nat, last: nat)
    requires -1 <= r.base <= r.cursor && UpToDate(r, first) && batch != [] && last + 1 == from + |batch|
    requires from == if r.cursor + 1 < first then first else r.cursor + 1
    ensures UpToDate(Receive(r, batch, last, first), first)
  {
    var r' := Receive(r, batch, last, first);
    assert Count(r', first) == Count(r, first) + |batch|;
  }

  /** A slice of the window is a slice of the shared log. */
  lemma WindowSlice(first: nat, h: seq<Message>, master: seq<Message>, from: nat, to: nat)
    requires first <= |master| && master[first..] == h && first <= from <= to <= |master|
    ensures to - first <= |h| && h[from - first..to - first] == master[from..to]
  {
  }

  lemma ReceiveNothing(r: Reader, first: nat, master: seq<Message>, resets: set<nat>)
    requires ReaderOk(r, first, master, resets, true) && first <= |master| && (first == 0 || first in resets)
    requires r.cursor == |master| - 1 || first == |master|
    ensures ReaderOk(Receive(r, [], |master| - 1, first), first, master, resets, true)
  {
    var r' := Receive(r, [], |master| - 1, first);
    assert r'.got == r.got && r'.msgs == r.msgs && r'.windows == r.windows;
  }

  lemma ReceiveSome(r: Reader, first: nat, master: seq<Message>, resets: set<nat>, batch: seq<Message>, from: nat, last: nat)
    requires ReaderOk(r, first, master, resets, true) && (first == 0 || first in resets)
    requires from == if r.cursor + 1 < first then first else r.cursor + 1
    requires from <= last < |master| && batch == master[from..last + 1]
    ensures last + 1 >= |batch| && ReaderOk(Receive(r, batch, last, first), first, master, resets, true)
  {
    assert |batch| == last + 1 - from;
    ReceiveTruthful(r, first, master, batch, from, last);
    ReceiveOrdered(r, first, resets, batch, from, last);
    ReceiveUpToDate(r, first, batch, from, last);
  }

  /** The next batch in terms of the shared log. */
  predicate IsNextOfLog(first: nat, master: seq<Message>, cursor: int, batch: seq<Message>, last: int) {
    true == if first == |master| || cursor >= |master| - 1 then batch == [] && last == |master| - 1
            else
              var from := if cursor + 1 < first then first else cursor + 1;
              from <= last < |master| && batch == master[from..last + 1]
  }

  lemma NextOfLog(first: nat, h: seq<Message>, master: seq<Message>, cursor: int, batch: seq<Message>, last: int)
    requires -1 <= cursor && first <= |master| && master[first..] == h && IsNextSlice(first, h, cursor, (batch, last))
    ensures IsNextOfLog(first, master, cursor, batch, last)
  {
    if h != [] && cursor < first + |h| - 1 {
      WindowSlice(first, h, master, if cursor + 1 < first then first else cursor + 1, last + 1);
    }
  }

  /** A pull keeps the reader's record straight. */
  lemma ReceiveOk(r: Reader, first: nat, master: seq<Message>, resets: set<nat>, batch: seq<Message>, last: int)
    requires ReaderOk(r, first, master, resets, true) && first <= |master| && (first == 0 || first in resets)
    requires IsNextOfLog(first, master, r.cursor, batch, last)
    ensures last + 1 >= |batch| && ReaderOk(Receive(r, batch, last, first), first, master, resets, true)
  {
    if first == |master| || r.cursor >= |master| - 1 {
      ReceiveNothing(r, first, master, resets);
    } else {
      ReceiveSome(r, first, master, resets, batch, if r.cursor + 1 < first then first else r.cursor + 1, last);
    }
  }

  /** Appends and resets leave what was handed out as it is. */
  lemma LogMovesOn(r: Reader, first: nat, master: seq<Message>, resets: set<nat>, running: bool,
                   first': nat, more: seq<Message>, resets': set<nat>)
    requires ReaderOk(r, first, master, resets, running) && resets <= resets'
    requires first' == first || first' == |master|
    ensures ReaderOk(r, first', master + more, resets', running)
  {
    GrowsTruth(r, master, more);
  }

  lemma SkipOk(r: Reader, first: nat, master: seq<Message>, resets: set<nat>, running: bool, last: int)
    requires -1 <= last < |master| && r.got == [] && r.msgs == [] && r.windows == []
    ensures ReaderOk(r.(cursor := last, base := last), first, master, resets, running)
  {
  }

  lemma HasNothingYet(r: Reader, first: nat, master: seq<Message>, resets: set<nat>)
    requires ReaderOk(r, first, master, resets, false)
    ensures r.got == [] && r.msgs == [] && r.windows == []
  {
  }

  lemma LogStep(s: Net, e: Event)
    requires LogOk(s) && Enabled(s, e)
    ensures LogOk(Step(s, e))
  {
  }

  lemma PullStep(s: Net, id: nat)
    requires LogOk(s) && Enabled(s, Pull(id)) && ReaderOk(s.readers[id], s.first, s.master, s.resets, true)
    ensures ReaderOk(Step(s, Pull(id)).readers[id], s.first, s.master, s.resets, true)
  {
    BatchIsNextSlice(s.first, s.parts, s.readers[id].cursor);
    var (batch, last) := Batch(s.first, s.parts, s.readers[id].cursor);
    NextOfLog(s.first, Flatten(s.parts), s.master, s.readers[id].cursor, batch, last);
    ReceiveOk(s.readers[id], s.first, s.master, s.resets, batch, last);
  }

  /** Appends, resets and the like leave the readers alone. */
  lemma LogEvent(s: Net, e: Event, s': Net, r: Reader)
    requires LogOk(s) && Enabled(s, e) && s' == Step(s, e) && (e.Append? || e.Repartition? || e.Reset? || e.Start?)
    requires ReaderOk(r, s.first, s.master, s.resets, s.running)
    ensures ReaderOk(r, s'.first, s'.master, s'.resets, s'.running)
  {
    match e
    case Append(m, _) =>
      LogMovesOn(r, s.first, s.master, s.resets, s.running, s.first, [m], s.resets);
    case Reset(parts) =>
      LogMovesOn(r, s.first, s.master, s.resets, s.running, |s.master|, Flatten(parts), s'.resets);
    case _ =>
  }

  /** The others change one reader. */
  lemma JoinEvent(s: Net, id: nat)
    requires LogOk(s) && Enabled(s, Join(id))
    ensures ReaderOk(Step(s, Join(id)).readers[id], s.first, s.master, s.resets, s.running)
  {
    SkipOk(Reader(-1, -1, [], [], []), s.first, s.master, s.resets, s.running, -1);
  }

  lemma SkipMoves(s: Net, id: nat, last: int)
    requires WellFormed(s.parts) && Enabled(s, Skip(id)) && last == s.first + |Flatten(s.parts)| - 1
    ensures Step(s, Skip(id)).readers[id] == s.readers[id].(cursor := last, base := last)
  {
  }

  lemma SkipEvent(s: Net, id: nat)
    requires WellFormed(s.parts) && |s.master| == s.first + |Flatten(s.parts)| && Enabled(s, Skip(id))
    requires ReaderOk(s.readers[id], s.first, s.master, s.resets, s.running)
    ensures ReaderOk(Step(s, Skip(id)).readers[id], s.first, s.master, s.resets, s.running)
  {
    HasNothingYet(s.readers[id], s.first, s.master, s.resets);
    SkipOk(s.readers[id], s.first, s.master, s.resets, s.running, |s.master| - 1);
    SkipMoves(s, id, |s.master| - 1);
  }

  lemma StepOk(s: Net, e: Event)
    requires NetOk(s) && Enabled(s, e)
    ensures NetOk(Step(s, e))
  {
    LogStep(s, e);
    var s' := Step(s, e);
    forall id | id in s'.readers
      ensures ReaderOk(s'.readers[id], s'.first, s'.master, s'.resets, s'.running)
    {
      match e
      case Leave(_) =>
      case Join(i) => if i == id { JoinEvent(s, id); }
      case Skip(i) => if i == id { SkipEvent(s, id); }
      case Pull(i) => if i == id { PullStep(s, id); }
      case _ => LogEvent(s, e, s', s.readers[id]);
    }
  }

  // ---- Runs ----

  predicate Init(s: Net) {
    s == Net(0, [[]], [], {}, s.running, map[])
  }

  predicate Runnable(s: Net, events: seq<Event>)
    decreases |events|
  {
    WellFormed(s.parts) && (events == [] || (Enabled(s, events[0]) && Runnable(Step(s, events[0]), events[1..])))
  }

  function Run(s: Net, events: seq<Event>): Net
    requires Runnable(s, events)
    decreases |events|
  {
    if events == [] then s else Run(Step(s, events[0]), events[1..])
  }

  lemma {:induction false} RunOk(s: Net, events: seq<Event>)
    requires NetOk(s) && Runnable(s, events)
    ensures NetOk(Run(s, events))
    decreases |events|
  {
    if events != [] {
      StepOk(s, events[0]);
      RunOk(Step(s, events[0]), events[1..]);
    }
  }

  /** Total order: in every run, whatever a client was handed is consistent with one log shared by
      all; its indices increase by one, and every jump lands exactly on the first index at the time of the
      pull, which is where a reset started. */
  lemma TotalOrder(s: Net, events: seq<Event>, id: nat)
    requires Init(s) && Runnable(s, events) && id in Run(s, events).readers
    ensures var s' := Run(s, events);
            Truthful(s'.readers[id], s'.master) && Ordered(s'.readers[id], s'.resets)
  {
    FlattenOne();
    RunOk(s, events);
  }

  /** The messages of the current window that a reader has been handed. */
  function SinceReset(r: Reader, first: nat): seq<Message>
    requires r.base >= -1 && Count(r, first) <= |r.msgs|
  {
    r.msgs[|r.msgs| - Count(r, first)..]
  }

  /** What a client has received since the last reset is exactly the current window up to its cursor. */
  lemma SinceResetIsSlice(r: Reader, first: nat, master: seq<Message>)
    requires r.base >= -1 && r.cursor < |master| && Truthful(r, master) && UpToDate(r, first)
    ensures Begin(r, first) + Count(r, first) <= |master| || Count(r, first) == 0
    ensures Count(r, first) > 0 ==> SinceReset(r, first) == master[Begin(r, first)..Begin(r, first) + Count(r, first)]
    ensures Count(r, first) == 0 ==> SinceReset(r, first) == []
  {
    var n := Count(r, first);
    forall i | 0 <= i < n
      ensures SinceReset(r, first)[i] == master[Begin(r, first) + i]
    {
      var k := |r.got| - n + i;
      assert r.got[k] == r.cursor + 1 - |r.got| + k;
    }
  }

  /** Two slices of one log that start at a and at b. */
  lemma SlicesComparable(master: seq<Message>, a: nat, m: nat, b: nat, n: nat, sa: seq<Message>, sb: seq<Message>)
    requires a <= b && |sa| == m && |sb| == n
    requires m > 0 ==> a + m <= |master| && sa == master[a..a + m]
    requires n > 0 ==> b + n <= |master| && sb == master[b..b + n]
    ensures m <= b - a || sa[b - a..] <= sb || sb <= sa[b - a..]
  {
  }

  lemma RunReader(s: Net, events: seq<Event>, id: nat)
    requires Init(s) && Runnable(s, events) && id in Run(s, events).readers
    ensures var s' := Run(s, events);
            ReaderOk(s'.readers[id], s'.first, s'.master, s'.resets, s'.running)
  {
    FlattenOne();
    RunOk(s, events);
  }

  /** Agreement: in every run, what two clients have received since the last reset is one stream, of which
      each has a part without gaps from its beginning on. For most clients that is the first message of
      the window; the host skips its own upload. Behind the later beginning, one of the two parts is a
      prefix of the other. */
  lemma PrefixComparable(s: Net, events: seq<Event>, a: nat, b: nat)
    requires Init(s) && Runnable(s, events) && a in Run(s, events).readers && b in Run(s, events).readers
    ensures var s' := Run(s, events);
            var ra, rb := s'.readers[a], s'.readers[b];
            && -1 <= ra.base && -1 <= rb.base && Count(ra, s'.first) <= |ra.msgs| && Count(rb, s'.first) <= |rb.msgs|
            && (Begin(ra, s'.first) <= Begin(rb, s'.first) ==>
                  var d := Begin(rb, s'.first) - Begin(ra, s'.first);
                  var sa, sb := SinceReset(ra, s'.first), SinceReset(rb, s'.first);
                  |sa| <= d || sa[d..] <= sb || sb <= sa[d..])
  {
    var s' := Run(s, events);
    RunReader(s, events, a);
    RunReader(s, events, b);
    ReadersComparable(s'.readers[a], s'.readers[b], s'.first, s'.master);
  }

  lemma ReadersComparable(ra: Reader, rb: Reader, first: nat, master: seq<Message>)
    requires ra.base >= -1 && ra.cursor < |master| && Truthful(ra, master) && UpToDate(ra, first)
    requires rb.base >= -1 && rb.cursor < |master| && Truthful(rb, master) && UpToDate(rb, first)
    ensures Begin(ra, first) <= Begin(rb, first) ==>
              var d := Begin(rb, first) - Begin(ra, first);
              var sa, sb := SinceReset(ra, first), SinceReset(rb, first);
              |sa| <= d || sa[d..] <= sb || sb <= sa[d..]
  {
    if Begin(ra, first) <= Begin(rb, first) {
      SinceResetIsSlice(ra, first, master);
      SinceResetIsSlice(rb, first, master);
      SlicesComparable(master, Begin(ra, first), Count(ra, first), Begin(rb, first), Count(rb, first),
                       SinceReset(ra, first), SinceReset(rb, first));
    }
  }

  /** A reader that is not at the end of the log receives something. */
  lemma PullProgress(s: Net, id: nat)
    requires NetOk(s) && s.running && id in s.readers && Flatten(s.parts) != []
    requires s.readers[id].cursor + 1 < |s.master|
    ensures Step(s, Pull(id)).readers[id].cursor > s.readers[id].cursor
    ensures |Step(s, Pull(id)).readers[id].msgs| > |s.readers[id].msgs|
  {
    BatchIsNextSlice(s.first, s.parts, s.readers[id].cursor);
  }

  function Pulls(id: nat, n: nat): seq<Event> {
    if n == 0 then [] else [Pull(id)] + Pulls(id, n - 1)
  }

  /** A reader of a running session, at a cursor. */
  predicate ReadsAt(s: Net, id: nat, first: nat, parts: Parts, cursor: int) {
    WellFormed(s.parts) && s.running && id in s.readers && s.first == first && s.parts == parts && s.readers[id].cursor == cursor
  }

  lemma PullMoves(s: Net, id: nat, first: nat, parts: Parts, cursor: int)
    requires ReadsAt(s, id, first, parts, cursor)
    ensures Enabled(s, Pull(id)) && ReadsAt(Step(s, Pull(id)), id, first, parts, Batch(first, parts, cursor).1)
  {
  }

  /** n pulls move the cursor as n batches do. */
  lemma {:induction false} PullRun(s: Net, id: nat, first: nat, parts: Parts, cursor: int, n: nat)
    requires ReadsAt(s, id, first, parts, cursor)
    ensures Runnable(s, Pulls(id, n)) && ReadsAt(Run(s, Pulls(id, n)), id, first, parts, Advance(first, parts, cursor, n))
    decreases n
  {
    if n > 0 {
      PullMoves(s, id, first, parts, cursor);
      PullRun(Step(s, Pull(id)), id, first, parts, Batch(first, parts, cursor).1, n - 1);
      assert Pulls(id, n)[0] == Pull(id) && Pulls(id, n)[1..] == Pulls(id, n - 1);
    }
  }

  /** Repeated pulls reach the last index: as long as nobody adds anything, every client catches up. */
  lemma CatchesUp(s: Net, id: nat) returns (n: nat)
    requires NetOk(s) && s.running && id in s.readers
    ensures Runnable(s, Pulls(id, n)) && id in Run(s, Pulls(id, n)).readers
    ensures Run(s, Pulls(id, n)).readers[id].cursor == |s.master| - 1
  {
    var cursor := s.readers[id].cursor;
    n := AdvanceReachesEnd(s.first, s.parts, cursor, |s.master| - 1);
    PullRun(s, id, s.first, s.parts, cursor, n);
  }

  // ---- The client object ----

  class ThinServerClient {
    var historyPosition: int
    var sent: seq<Message>

    constructor ()
      ensures historyPosition == -1 && sent == []
    {
      historyPosition, sent := -1, [];
    }

    /** Hands over the next batch once the upload queue is empty and the session is running; then
        the caches nobody needs any more are dropped. The effect is one Pull of the model above. */
    method SendNextHistoryBatch(history: FiledHistory.FiledHistory, clients: seq<ThinServerClient>, uploading: bool,
                                running: bool)
      requires history.Valid()
      modifies this, history`blocks, history`pos
      ensures history.Valid() && history.pos == old(history.pos)
      ensures uploading || !running ==> historyPosition == old(historyPosition) && sent == old(sent)
      ensures !uploading && running ==>
                var (batch, last) := Batch(history.firstIndex, history.parts, old(historyPosition));
                && historyPosition == last && sent == old(sent) + batch
                && forall i :: 0 <= i < |history.blocks| && Passed(history.blocks[i], history.lastIndex, clients) ==>
                     history.blocks[i].messages == []
    {
      if !uploading && running {
        var batch;
        batch, historyPosition := history.GetBatch(historyPosition);
        sent := sent + batch;
        CleanupHistoryCache(history, clients);
      }
    }
  }

  /** Every connected client has been handed all of the block, and it is not at the end of the log. */
  ghost predicate Passed(b: FiledHistory.Block, last: int, clients: seq<ThinServerClient>)
    reads clients
  {
    b.startIndex + b.count < last && forall c :: 0 <= c < |clients| ==> b.startIndex + b.count < clients[c].historyPosition
  }

  /** Frees exactly the caches that no connected client needs any more; no later batch can tell. */
  method CleanupHistoryCache(history: FiledHistory.FiledHistory, clients: seq<ThinServerClient>)
    requires history.Valid()
    modifies history`blocks
    ensures history.Valid()
    ensures |history.blocks| == |old(history.blocks)|
    ensures forall i :: 0 <= i < |history.blocks| ==>
              history.blocks[i] == (var b := old(history.blocks)[i];
                                    if Passed(b, history.lastIndex, clients) then b.(messages := []) else b)
  {
    var minIdx := history.lastIndex;
    for c := 0 to |clients|
      invariant minIdx <= history.lastIndex && forall k :: 0 <= k < c ==> minIdx <= clients[k].historyPosition
      invariant minIdx == history.lastIndex || exists k :: 0 <= k < c && minIdx == clients[k].historyPosition
    {
      if clients[c].historyPosition < minIdx {
        minIdx := clients[c].historyPosition;
      }
    }
    history.CleanupBatches(minIdx);
  }
}
