/** The block partition behind the file backed history: what one batch returns, as a function of
    the partition alone, and why draining it block by block equals the flat history. */
module Blocks {
  import opened Messages
  import opened SessionHistory

  const MAX_BLOCK_SIZE: nat := 0xffff * 10

  type Parts = seq<seq<Message>>

  /** The messages of the first i blocks. */
  function FlattenTo(parts: Parts, i: nat): seq<Message>
    requires i <= |parts|
  {
    if i == 0 then [] else FlattenTo(parts, i - 1) + parts[i - 1]
  }

  function Flatten(parts: Parts): seq<Message> {
    FlattenTo(parts, |parts|)
  }

  /** How many messages, and how many bytes, lie before block i. */
  function Before(parts: Parts, i: nat): nat
    requires i <= |parts|
  {
    if i == 0 then 0 else Before(parts, i - 1) + |parts[i - 1]|
  }

  function BytesBefore(parts: Parts, i: nat): nat
    requires i <= |parts|
  {
    if i == 0 then 0 else BytesBefore(parts, i - 1) + TotalLength(parts[i - 1])
  }

  /** There is always a block, and only the last one may be empty. */
  predicate WellFormed(parts: Parts) {
    parts != [] && forall i :: 0 <= i < |parts| - 1 ==> parts[i] != []
  }

  lemma {:induction false} PrefixOfParts(parts: Parts, parts': Parts, i: nat)
    requires i <= |parts| && i <= |parts'| && (forall j :: 0 <= j < i ==> parts[j] == parts'[j])
    ensures FlattenTo(parts, i) == FlattenTo(parts', i)
    ensures Before(parts, i) == Before(parts', i) && BytesBefore(parts, i) == BytesBefore(parts', i)
  {
    if i > 0 {
      PrefixOfParts(parts, parts', i - 1);
    }
  }

  lemma {:induction false} Measures(parts: Parts, i: nat)
    requires i <= |parts|
    ensures |FlattenTo(parts, i)| == Before(parts, i)
    ensures TotalLength(FlattenTo(parts, i)) == BytesBefore(parts, i)
  {
    if i > 0 {
      Measures(parts, i - 1);
      TotalLengthConcat(FlattenTo(parts, i - 1), parts[i - 1]);
    }
  }

  lemma {:induction false} FlattenToPrefix(parts: Parts, i: nat, j: nat)
    requires i <= j <= |parts|
    ensures FlattenTo(parts, i) <= FlattenTo(parts, j)
  {
    if i < j {
      FlattenToPrefix(parts, i, j - 1);
    }
  }

  lemma PrefixSlice(h: seq<Message>, a: seq<Message>, p: seq<Message>, s: nat)
    requires a + p <= h && s == |a|
    ensures s + |p| <= |h| && p == h[s..s + |p|]
  {
  }

  /** Block i is the slice of the flat history at its start index. */
  lemma BlockIsSlice(parts: Parts, i: nat)
    requires i < |parts|
    ensures Before(parts, i) + |parts[i]| <= |Flatten(parts)|
    ensures parts[i] == Flatten(parts)[Before(parts, i)..Before(parts, i) + |parts[i]|]
  {
    Measures(parts, i);
    FlattenToPrefix(parts, i + 1, |parts|);
    PrefixSlice(Flatten(parts), FlattenTo(parts, i), parts[i], Before(parts, i));
  }

  /** Its bytes start at the offset of its first message. */
  lemma BlockOffset(parts: Parts, i: nat)
    requires i < |parts|
    ensures Before(parts, i) <= |Flatten(parts)| && LengthTo(Flatten(parts), Before(parts, i)) == BytesBefore(parts, i)
  {
    Measures(parts, i);
    FlattenToPrefix(parts, i, |parts|);
    LengthToPrefix(Flatten(parts), FlattenTo(parts, i), Before(parts, i));
  }

  // ---- Operations on the partition ----

  function Last(parts: Parts): seq<Message>
    requires parts != []
  {
    parts[|parts| - 1]
  }

  function GrowPart(parts: Parts, m: Message): Parts
    requires parts != []
  {
    parts[|parts| - 1 := Last(parts) + [m]]
  }

  lemma FlattenOne()
    ensures Flatten([[]]) == []
  {
    assert FlattenTo([[]], 0) == [];
  }

  lemma GrowFlattens(parts: Parts, m: Message)
    requires WellFormed(parts)
    ensures WellFormed(GrowPart(parts, m)) && Flatten(GrowPart(parts, m)) == Flatten(parts) + [m]
  {
    PrefixOfParts(parts, GrowPart(parts, m), |parts| - 1);
  }

  lemma CloseFlattens(parts: Parts)
    requires WellFormed(parts) && Last(parts) != []
    ensures WellFormed(parts + [[]]) && Flatten(parts + [[]]) == Flatten(parts)
  {
    PrefixOfParts(parts, parts + [[]], |parts|);
  }

  // ---- Batches ----

  /** The block that holds the index following `after`, searched from the end. */
  function BlockFor(first: nat, parts: Parts, after: int, i: nat): (r: nat)
    requires i < |parts|
    ensures r <= i
    ensures r > 0 ==> first + Before(parts, r) - 1 <= after
    ensures r < i ==> after < first + Before(parts, r + 1) - 1
  {
    if i == 0 || first + Before(parts, i) - 1 <= after then i else BlockFor(first, parts, after, i - 1)
  }

  function Batch(first: nat, parts: Parts, after: int): (seq<Message>, int)
    requires parts != []
  {
    var i := BlockFor(first, parts, after, |parts| - 1);
    FromBlock(first + Before(parts, i), parts[i], after)
  }

  /** The part of a block after the given index, and the index of the block's last message. */
  function FromBlock(start: nat, block: seq<Message>, after: int): (seq<Message>, int) {
    var offset := if after < start - 1 then 0 else after - start + 1;
    (if offset >= |block| then [] else block[offset..], start + |block| - 1)
  }

  /** The result is a consecutive run of the history right after the given index, not empty while
      there is something left, and the index of its last message. (Written as an equation, here and in
      a few other predicates, so that the verifier proves it as one goal instead of conjunct by
      conjunct, which is much cheaper where the conjuncts share their proof.) */
  predicate IsNextSlice(first: nat, h: seq<Message>, after: int, result: (seq<Message>, int)) {
    true == if h == [] || after >= first + |h| - 1 then result == ([], first + |h| - 1)
            else
              var from := if after + 1 < first then first else after + 1;
              from <= result.1 < first + |h| && result.0 == h[from - first..result.1 + 1 - first]
  }

  /** Where the block found for an index lies in the history. */
  predicate HoldsNext(first: nat, h: seq<Message>, after: int, s: nat, p: seq<Message>) {
    && s + |p| <= |h| && p == h[s..s + |p|]
    && (s == 0 || first + s - 1 <= after)
    && (s + |p| == |h| || (p != [] && after < first + s + |p| - 1))
  }

  lemma BlockForHoldsNext(first: nat, parts: Parts, after: int, i: nat)
    requires WellFormed(parts) && i == BlockFor(first, parts, after, |parts| - 1)
    ensures HoldsNext(first, Flatten(parts), after, Before(parts, i), parts[i])
  {
    BlockIsSlice(parts, i);
    Measures(parts, |parts|);
  }

  lemma SliceOfBlock(first: nat, h: seq<Message>, after: int, s: nat, p: seq<Message>, result: (seq<Message>, int))
    requires HoldsNext(first, h, after, s, p) && result == FromBlock(first + s, p, after)
    ensures IsNextSlice(first, h, after, result)
  {
    var offset := if after < first + s - 1 then 0 else after - (first + s) + 1;
    if offset < |p| {
      var from := if after + 1 < first then first else after + 1;
      assert from - first == s + offset;
      assert p[offset..] == h[s + offset..s + |p|];
    } else {
      assert h == [] || after >= first + |h| - 1;
    }
  }

  lemma BatchUnfold(first: nat, parts: Parts, after: int, i: nat)
    requires parts != [] && i == BlockFor(first, parts, after, |parts| - 1)
    ensures Batch(first, parts, after) == FromBlock(first + Before(parts, i), parts[i], after)
  {
  }

  /** One batch is a consecutive slice of the history that starts right after `after` (or at the
      first message, if that was discarded by a reset), and it is never empty while there is
      something to hand out. */
  lemma BatchIsNextSlice(first: nat, parts: Parts, after: int)
    requires WellFormed(parts)
    ensures IsNextSlice(first, Flatten(parts), after, Batch(first, parts, after))
  {
    var i := BlockFor(first, parts, after, |parts| - 1);
    BlockForHoldsNext(first, parts, after, i);
    SliceOfBlock(first, Flatten(parts), after, Before(parts, i), parts[i], Batch(first, parts, after));
  }

  function Drain(first: nat, parts: Parts, after: int): seq<Message>
    requires WellFormed(parts)
    decreases first + |Flatten(parts)| - after
  {
    if after >= first + |Flatten(parts)| - 1 then []
    else
      BatchIsNextSlice(first, parts, after);
      var (batch, last) := Batch(first, parts, after);
      batch + Drain(first, parts, last)
  }

  lemma SliceSplits(h: seq<Message>, from: nat, to: nat)
    requires from <= to <= |h|
    ensures h[from..] == h[from..to] + h[to..]
  {
  }

  lemma GetBatchFrom(h: History, after: int, from: nat)
    requires from <= |h.msgs| && h.msgs != []
    requires from == if after + 1 < h.first then 0 else after + 1 - h.first
    ensures GetBatch(h, after).0 == h.msgs[from..]
  {
  }

  lemma GetBatchSplits(h: History, after: int, slice: (seq<Message>, int))
    requires after < LastIndex(h) && IsNextSlice(h.first, h.msgs, after, slice)
    ensures GetBatch(h, after).0 == slice.0 + GetBatch(h, slice.1).0
  {
    if h.msgs != [] {
      var from := if after + 1 < h.first then 0 else after + 1 - h.first;
      var to := slice.1 + 1 - h.first;
      SliceSplits(h.msgs, from, to);
      GetBatchFrom(h, after, from);
      GetBatchFrom(h, slice.1, to);
    }
  }

  /** Refinement: whatever the partition, repeating the block-wise batch concatenates to exactly
      one batch of the flat history. */
  lemma {:induction false} DrainIsGetBatch(h: History, parts: Parts, after: int)
    requires WellFormed(parts) && Flatten(parts) == h.msgs
    ensures Drain(h.first, parts, after) == GetBatch(h, after).0
    decreases h.first + |h.msgs| - after
  {
    if after < LastIndex(h) {
      var (batch, last) := Batch(h.first, parts, after);
      BatchIsNextSlice(h.first, parts, after);
      GetBatchSplits(h, after, (batch, last));
      DrainIsGetBatch(h, parts, last);
    }
  }

  // ---- Catching up ----

  /** Where n batches take a cursor. */
  function Advance(first: nat, parts: Parts, cursor: int, n: nat): int
    requires parts != []
    decreases n
  {
    if n == 0 then cursor else Advance(first, parts, Batch(first, parts, cursor).1, n - 1)
  }

  lemma NextLast(first: nat, parts: Parts, cursor: int, end: int) returns (last: int)
    requires WellFormed(parts) && end == first + |Flatten(parts)| - 1 && cursor < end
    ensures last == Batch(first, parts, cursor).1 && cursor < last <= end
  {
    BatchIsNextSlice(first, parts, cursor);
    last := Batch(first, parts, cursor).1;
  }

  lemma {:induction false} AdvanceReachesEnd(first: nat, parts: Parts, cursor: int, end: int) returns (n: nat)
    requires WellFormed(parts) && end == first + |Flatten(parts)| - 1 && cursor <= end
    ensures Advance(first, parts, cursor, n) == end
    decreases end - cursor
  {
    if cursor == end {
      n := 0;
    } else {
      var last := NextLast(first, parts, cursor, end);
      var k := AdvanceReachesEnd(first, parts, last, end);
      n := k + 1;
    }
  }

  // ---- Copying everything after index zero ----

  predicate Copied(first: nat, h: seq<Message>, recorded: seq<Message>, last: int) {
    true == (
      var k := if first > 0 || h == [] then 0 else 1;
      k <= last + 1 - first <= |h| && recorded == h[k..last + 1 - first])
  }

  lemma CopyStart(first: nat, h: seq<Message>, slice: (seq<Message>, int))
    requires IsNextSlice(first, h, 0, slice)
    ensures Copied(first, h, slice.0, slice.1)
  {
  }

  lemma CopyOn(first: nat, h: seq<Message>, recorded: seq<Message>, last: int, slice: (seq<Message>, int))
    requires Copied(first, h, recorded, last) && last < first + |h| - 1 && IsNextSlice(first, h, last, slice)
    ensures Copied(first, h, recorded + slice.0, slice.1) && slice.1 > last
  {
  }

  lemma CopyDone(first: nat, h: seq<Message>, recorded: seq<Message>, last: int)
    requires Copied(first, h, recorded, last) && last >= first + |h| - 1
    ensures recorded == if first > 0 || h == [] then h else h[1..]
  {
  }
}
