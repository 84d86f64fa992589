/** User id allocation: a queue of all ids in which the used ones go to the back. */
module IdQueue {
  import opened Messages

  const FIRST_ID: Byte := 1
  const LAST_ID: Byte := 254

  // ---- The ids ----

  function IdRange(n: Byte): (r: set<Byte>)
    ensures forall id :: id in r <==> 1 <= id <= n
  {
    if n == 0 then {} else IdRange(n - 1) + {n}
  }

  lemma {:induction false} CountRange(n: Byte)
    ensures |IdRange(n)| == n
  {
    if n > 0 {
      CountRange(n - 1);
    }
  }

  lemma SubsetCount(a: set<Byte>, b: set<Byte>)
    requires a <= b
    ensures |a| <= |b|
  {
    assert b == a + (b - a);
  }

  predicate Free(id: Byte, connected: set<Byte>) {
    FIRST_ID <= id <= LAST_ID && id !in connected
  }

  ghost predicate HasFree(connected: set<Byte>) {
    exists id: Byte :: Free(id, connected)
  }

  /** In a full session no id is free. */
  lemma FullSession()
    ensures |IdRange(254)| == 254 && !HasFree(IdRange(254))
  {
    CountRange(254);
  }

  /** Fewer than 254 connected clients leave an id free. */
  lemma FreeIdExists(connected: set<Byte>)
    requires |connected| < 254
    ensures HasFree(connected)
  {
    CountRange(254);
    if IdRange(254) <= connected {
      SubsetCount(IdRange(254), connected);
      assert false;
    }
    var id :| id in IdRange(254) && id !in connected;
    assert Free(id, connected);
  }

  // ---- Order of use ----

  /** When an id was last used; ids that never were rank before, in numerical order. */
  function LastUse(uses: seq<Byte>, id: Byte): (t: int)
    ensures t < |uses|
    ensures 0 <= t ==> uses[t] == id
    ensures forall i :: 0 <= i < |uses| && t < i ==> uses[i] != id
    ensures t < 0 ==> t == id - 256
  {
    if uses == [] then id - 256
    else if uses[|uses| - 1] == id then |uses| - 1
    else LastUse(uses[..|uses| - 1], id)
  }

  lemma UseMoves(uses: seq<Byte>, id: Byte, x: Byte)
    ensures LastUse(uses + [id], x) == if x == id then |uses| else LastUse(uses, x)
  {
    assert (uses + [id])[..|uses|] == uses;
  }

  /** The queue has every id once, and runs from the longest unused to the last used. */
  ghost predicate Permutation(ids: seq<Byte>) {
    && |ids| == 254
    && (forall i, j :: 0 <= i < j < |ids| ==> ids[i] != ids[j])
    && (forall id :: id in ids <==> FIRST_ID <= id <= LAST_ID)
  }

  predicate LeastRecentFirst(ids: seq<Byte>, uses: seq<Byte>) {
    forall i, j :: 0 <= i < j < |ids| ==> LastUse(uses, ids[i]) < LastUse(uses, ids[j])
  }

  /** One id moves to the back. */
  function ToBack(ids: seq<Byte>, k: nat): seq<Byte>
    requires k < |ids|
  {
    ids[..k] + ids[k + 1..] + [ids[k]]
  }

  function Was(n: nat, k: nat, i: nat): nat {
    if i < k then i else if i < n - 1 then i + 1 else k
  }

  lemma ToBackAt(ids: seq<Byte>, k: nat, i: nat)
    requires k < |ids| && i < |ids|
    ensures |ToBack(ids, k)| == |ids| && Was(|ids|, k, i) < |ids| && ToBack(ids, k)[i] == ids[Was(|ids|, k, i)]
  {
  }

  lemma ToBackPermutes(ids: seq<Byte>, k: nat)
    requires k < |ids| && Permutation(ids)
    ensures Permutation(ToBack(ids, k))
  {
    var q := ToBack(ids, k);
    forall i, j | 0 <= i < j < |q|
      ensures q[i] != q[j]
    {
      ToBackAt(ids, k, i);
      ToBackAt(ids, k, j);
    }
    forall id: Byte
      ensures id in q <==> id in ids
    {
      if id in ids {
        var i :| 0 <= i < |ids| && ids[i] == id;
        assert q[if i < k then i else if i == k then |ids| - 1 else i - 1] == id;
      }
    }
  }

  /** Using an id keeps the queue in order of last use. */
  lemma ToBackOrders(ids: seq<Byte>, uses: seq<Byte>, k: nat)
    requires k < |ids| && Permutation(ids) && LeastRecentFirst(ids, uses)
    ensures LeastRecentFirst(ToBack(ids, k), uses + [ids[k]])
  {
    var q := ToBack(ids, k);
    forall i, j | 0 <= i < j < |q|
      ensures LastUse(uses + [ids[k]], q[i]) < LastUse(uses + [ids[k]], q[j])
    {
      ToBackAt(ids, k, i);
      ToBackAt(ids, k, j);
      UseMoves(uses, ids[k], q[i]);
      UseMoves(uses, ids[k], q[j]);
    }
  }

  /** An id at the front that was used at some time is not reissued early: every other id has been
      used since. */
  lemma EveryoneElseSince(ids: seq<Byte>, uses: seq<Byte>, t: nat, other: Byte)
    requires Permutation(ids) && LeastRecentFirst(ids, uses)
    requires t < |uses| && ids != [] && uses[t] == ids[0]
    requires FIRST_ID <= other <= LAST_ID && other != ids[0]
    ensures other in uses[t + 1..]
  {
    assert other in ids;
    var k :| 0 <= k < |ids| && ids[k] == other;
    assert LastUse(uses, ids[0]) < LastUse(uses, ids[k]);
    var u := LastUse(uses, other);
    assert uses[t + 1..][u - (t + 1)] == other;
  }

  // ---- The queue object ----

  class IdQueue {
    var ids: seq<Byte>
    var nameIds: map<string, Byte>
    ghost var uses: seq<Byte>

    ghost predicate Valid()
      reads this
    {
      Permutation(ids) && LeastRecentFirst(ids, uses)
    }

    constructor ()
      ensures Valid() && nameIds == map[] && uses == []
    {
      var list: seq<Byte> := [];
      for i := 1 to 255
        invariant |list| == i - 1 && forall k :: 0 <= k < |list| ==> list[k] == k + 1
      {
        list := list + [i];
      }
      ids, nameIds, uses := list, map[], [];
      new;
      forall id: Byte | FIRST_ID <= id <= LAST_ID
        ensures id in ids
      {
        assert ids[id - 1] == id;
      }
    }

    method NextId() returns (id: Byte)
      requires Valid()
      modifies `ids, `uses
      ensures Valid() && old(ids) != [] && id == old(ids)[0] && FIRST_ID <= id <= LAST_ID
      ensures ids == old(ids)[1..] + [id] && uses == old(uses) + [id]
    {
      assert FIRST_ID in ids;
      ToBackPermutes(ids, 0);
      ToBackOrders(ids, uses, 0);
      id := ids[0];
      assert id in ids;
      assert ToBack(ids, 0) == ids[1..] + [id];
      ids := ids[1..] + [id];
      uses := uses + [id];
    }

    method ReserveId(id: Byte)
      requires Valid()
      modifies `ids, `uses
      ensures Valid()
      ensures if FIRST_ID <= id <= LAST_ID then uses == old(uses) + [id] && ids[|ids| - 1] == id
              else uses == old(uses) && ids == old(ids)
    {
      var k := 0;
      while k < |ids| && ids[k] != id
        invariant 0 <= k <= |ids| && forall i :: 0 <= i < k ==> ids[i] != id
      {
        k := k + 1;
      }
      assert k < |ids| <==> id in ids;
      if k < |ids| {
        ToBackPermutes(ids, k);
        ToBackOrders(ids, uses, k);
        ids := ToBack(ids, k);
        uses := uses + [id];
      }
    }

    method SetIdForName(id: Byte, name: string)
      requires Valid()
      modifies this
      ensures Valid() && nameIds == old(nameIds)[name := id]
      ensures uses == old(uses) + if FIRST_ID <= id <= LAST_ID then [id] else []
    {
      nameIds := nameIds[name := id];
      ReserveId(id);
    }

    method GetIdForName(name: string) returns (id: Byte)
      ensures id == if name in nameIds then nameIds[name] else 0
    {
      id := if name in nameIds then nameIds[name] else 0;
    }

    method TryNext(ghost before: seq<Byte>, connected: set<Byte>, ghost id: Byte, ghost k: nat) returns (id': Byte)
      requires Valid() && Permutation(before) && (id == 0 || id in connected)
      requires HasFree(connected) ==> Searched(before, ids, connected, id, k)
      modifies `ids, `uses
      ensures Valid() && FIRST_ID <= id' <= LAST_ID
      ensures HasFree(connected) ==> k < 254 && Searched(before, ids, connected, id', k + 1)
    {
      if HasFree(connected) {
        SearchOn(before, ids, connected, id, k);
      }
      id' := NextId();
    }

    /** The bounded search, from a first candidate. */
    method SearchId(candidate: Byte, connected: set<Byte>) returns (id: Byte, loops: nat)
      requires Valid() && (candidate == 0 || candidate in connected)
      modifies `ids, `uses
      ensures Valid()
      ensures if HasFree(connected) then Takes(old(ids), ids, connected, id) && loops > 0
              else id in connected && loops == 0
    {
      id, loops := candidate, 256;
      ghost var before := ids;
      SearchStart(before, connected, id);
      while loops > 0 && (id == 0 || id in connected)
        modifies `ids, `uses
        invariant Valid() && loops <= 256 && (loops < 256 ==> FIRST_ID <= id <= LAST_ID)
        invariant loops == 256 ==> id == candidate
        invariant loops < 256 && !HasFree(connected) ==> id in connected
        invariant HasFree(connected) ==> 256 - loops <= 254 && Searched(before, ids, connected, id, 256 - loops)
      {
        id := TryNext(before, connected, id, 256 - loops);
        loops := loops - 1;
        assert !HasFree(connected) ==> !Free(id, connected);
      }
      if HasFree(connected) {
        SearchEnds(before, ids, connected, id, 256 - loops);
      }
    }

    /** A returning user gets the remembered id, if nobody has it. Otherwise the bounded search ends in time
        with the first free id of the queue if there is one, which is the one that was not used for the
        longest time (see FirstFreeIsOldest), and everything up to it goes to the back; in a full session
        it gives up, and the id is one that a connected client has. */
    method AssignId(name: string, connected: set<Byte>) returns (id: Byte, loops: nat)
      requires Valid()
      modifies `ids, `uses
      ensures Valid()
      ensures var remembered := if name in nameIds then nameIds[name] else 0;
              if remembered != 0 && remembered !in connected then id == remembered && ids == old(ids)
              else if HasFree(connected) then Takes(old(ids), ids, connected, id) && loops > 0
              else id in connected && loops == 0
    {
      id := GetIdForName(name);
      loops := 256;
      if id == 0 || id in connected {
        id, loops := SearchId(id, connected);
      }
    }
  }

  /** The first k ids were taken off the queue one by one; all but the last turned out to be in use. */
  predicate Searched(before: seq<Byte>, ids: seq<Byte>, connected: set<Byte>, id: Byte, k: nat) {
    true == (
      && k <= |before| == 254 && ids == before[k..] + before[..k]
      && (k > 0 ==> id == before[k - 1])
      && (forall i :: 0 <= i < k - 1 ==> before[i] in connected))
  }

  /** The first free id of the queue, with everything up to it at the back afterwards. */
  ghost predicate Takes(before: seq<Byte>, after: seq<Byte>, connected: set<Byte>, id: Byte) {
    exists k :: FirstFree(before, connected, id, k) && after == before[k + 1..] + before[..k + 1]
  }

  predicate FirstFree(before: seq<Byte>, connected: set<Byte>, id: Byte, k: int) {
    && 0 <= k < |before| && before[k] == id && Free(id, connected)
    && forall i :: 0 <= i < k ==> before[i] in connected
  }

  lemma SearchEnds(before: seq<Byte>, ids: seq<Byte>, connected: set<Byte>, id: Byte, k: nat)
    requires Searched(before, ids, connected, id, k) && Permutation(before) && id != 0 && id !in connected && k > 0
    ensures Takes(before, ids, connected, id)
  {
    assert id in before;
    assert FirstFree(before, connected, id, k - 1);
    assert before[k - 1 + 1..] + before[..k - 1 + 1] == ids;
  }

  /** The id taken is the least recently used of all that are free: a departed user's id is not given out
      again while another free id has waited longer. */
  lemma FirstFreeIsOldest(before: seq<Byte>, after: seq<Byte>, uses: seq<Byte>, connected: set<Byte>, id: Byte, other: Byte)
    requires Permutation(before) && LeastRecentFirst(before, uses) && Takes(before, after, connected, id)
    requires Free(other, connected) && other != id
    ensures LastUse(uses, id) < LastUse(uses, other)
  {
    var k :| FirstFree(before, connected, id, k) && after == before[k + 1..] + before[..k + 1];
    assert other in before;
    var j :| 0 <= j < |before| && before[j] == other;
  }

  lemma SearchStart(before: seq<Byte>, connected: set<Byte>, id: Byte)
    requires Permutation(before)
    ensures Searched(before, before, connected, id, 0)
  {
  }

  lemma SearchOn(before: seq<Byte>, ids: seq<Byte>, connected: set<Byte>, id: Byte, k: nat)
    requires Searched(before, ids, connected, id, k) && Permutation(before) && (id == 0 || id in connected)
    requires HasFree(connected)
    ensures k < |before| && Searched(before, ids[1..] + [ids[0]], connected, ids[0], k + 1)
  {
    var x: Byte :| Free(x, connected);
    assert x in before;
    var i :| 0 <= i < |before| && before[i] == x;
    assert k > 0 ==> id in before;
    assert i >= k;
    assert ids[0] == before[k];
    assert ids[1..] + [ids[0]] == before[k + 1..] + before[..k + 1];
  }
}
