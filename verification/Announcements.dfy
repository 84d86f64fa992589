/** Session listings at public list servers, and their periodic refresh. */
module Announcements {
  import opened Wrappers

  /** A listing; `announced` is false until the list server has confirmed it. Times are in
      milliseconds, the refresh interval in minutes. */
  datatype Listing = Listing(server: string, session: nat, announced: bool, refreshed: int, interval: nat)

  /** The timer of a confirmed listing has run out. */
  predicate Expired(l: Listing, now: int) {
    l.announced && now - l.refreshed > l.interval * 60 * 1000
  }

  /** A refresh takes a listing along if the one that sets it off, at the same server, comes no later
      in the list. */
  predicate Due(ls: seq<Listing>, now: int, k: nat)
    requires k < |ls|
  {
    ls[k].announced && exists j :: 0 <= j <= k && Expired(ls[j], now) && ls[j].server == ls[k].server
  }

  // ---- One pass ----

  datatype Pass = Pass(server: Option<string>, updates: seq<nat>, second: bool)

  /** The pass over the first n listings. */
  function Gather(ls: seq<Listing>, now: int, n: nat): Pass
    requires n <= |ls|
  {
    if n == 0 then Pass(None, [], false)
    else
      var p := Gather(ls, now, n - 1);
      var l := ls[n - 1];
      if !(l.announced && (Expired(l, now) || p.server == Some(l.server))) then p
      else if p.server == None then Pass(Some(l.server), p.updates + [n - 1], p.second)
      else if p.server != Some(l.server) then p.(second := true)
      else p.(updates := p.updates + [n - 1])
  }

  /** The pass has seen no expired listing, or refreshes exactly those due at the server of the first
      one, and says whether another server has one too. */
  ghost predicate Gathered(ls: seq<Listing>, now: int, n: nat, p: Pass)
    requires n <= |ls|
  {
    match p.server
    case None => p.updates == [] && !p.second && forall j :: 0 <= j < n ==> !Expired(ls[j], now)
    case Some(s) =>
      && p.updates != [] && Ascending(p.updates)
      && (forall k :: k in p.updates <==> 0 <= k < n && Due(ls, now, k) && ls[k].server == s)
      && (p.second <==> exists j :: 0 <= j < n && Expired(ls[j], now) && ls[j].server != s)
  }

  predicate Ascending(ks: seq<nat>) {
    forall i, j :: 0 <= i < j < |ks| ==> ks[i] < ks[j]
  }

  lemma AscendingSnoc(ks: seq<nat>, k: nat)
    requires Ascending(ks) && forall x :: x in ks ==> x < k
    ensures Ascending(ks + [k]) && forall x :: x in ks + [k] <==> x in ks || x == k
  {
    assert forall i :: 0 <= i < |ks| ==> ks[i] in ks;
  }

  /** Having started at a server, a later listing of it is due. */
  lemma DueLater(ls: seq<Listing>, now: int, j: nat, k: nat)
    requires j < k < |ls| && Due(ls, now, j) && ls[k].announced && ls[k].server == ls[j].server
    ensures Due(ls, now, k)
  {
    var i :| 0 <= i <= j && Expired(ls[i], now) && ls[i].server == ls[j].server;
    assert Expired(ls[i], now) && ls[i].server == ls[k].server;
  }

  lemma NotDueYet(ls: seq<Listing>, now: int, n: nat, k: nat)
    requires n <= |ls| && k < n && forall j :: 0 <= j < n ==> !Expired(ls[j], now)
    ensures !Due(ls, now, k)
  {
  }

  /** The first expired listing decides the server. */
  lemma GatherFirst(ls: seq<Listing>, now: int, n: nat, p: Pass, p': Pass)
    requires n < |ls| && Gathered(ls, now, n, p) && p.server == None && Expired(ls[n], now)
    requires p' == Pass(Some(ls[n].server), [n], false)
    ensures Gathered(ls, now, n + 1, p')
  {
    forall k | 0 <= k < n + 1
      ensures k in p'.updates <==> Due(ls, now, k) && ls[k].server == ls[n].server
    {
      if k < n {
        NotDueYet(ls, now, n, k);
      } else {
        assert Expired(ls[k], now) && ls[k].server == ls[n].server;
      }
    }
  }

  /** A listing of the chosen server is refreshed along, expired or not. */
  lemma GatherMore(ls: seq<Listing>, now: int, n: nat, p: Pass, p': Pass)
    requires n < |ls| && Gathered(ls, now, n, p) && p.server == Some(ls[n].server) && ls[n].announced
    requires p' == p.(updates := p.updates + [n])
    ensures Gathered(ls, now, n + 1, p')
  {
    var first := p.updates[0];
    assert first in p.updates;
    DueLater(ls, now, first, n);
    AscendingSnoc(p.updates, n);
  }

  /** A listing of another server is left for another pass; one that is not expired is left alone. */
  lemma GatherOther(ls: seq<Listing>, now: int, n: nat, p: Pass, p': Pass)
    requires n < |ls| && Gathered(ls, now, n, p) && !(ls[n].announced && p.server == Some(ls[n].server))
    requires p.server == None ==> !Expired(ls[n], now)
    requires p' == if Expired(ls[n], now) then p.(second := true) else p
    ensures Gathered(ls, now, n + 1, p')
  {
    if p.server.Some? && p'.second {
      if p.second {
        var j :| 0 <= j < n && Expired(ls[j], now) && ls[j].server != p.server.value;
      } else {
        assert Expired(ls[n], now) && ls[n].server != p.server.value;
      }
    }
  }

  lemma {:induction false} GatherIs(ls: seq<Listing>, now: int, n: nat)
    requires n <= |ls|
    ensures Gathered(ls, now, n, Gather(ls, now, n))
  {
    if n > 0 {
      GatherIs(ls, now, n - 1);
      var p, p' := Gather(ls, now, n - 1), Gather(ls, now, n);
      var l := ls[n - 1];
      if l.announced && p.server == Some(l.server) {
        GatherMore(ls, now, n - 1, p, p');
      } else if p.server == None && Expired(l, now) {
        GatherFirst(ls, now, n - 1, p, p');
      } else {
        GatherOther(ls, now, n - 1, p, p');
      }
    }
  }

  // ---- All passes ----

  /** The timers of the refreshed listings start anew. */
  function Restart(ls: seq<Listing>, ks: seq<nat>, now: int): (r: seq<Listing>)
    ensures |r| == |ls|
  {
    seq(|ls|, k requires 0 <= k < |ls| => if k in ks then ls[k].(refreshed := now) else ls[k])
  }

  function CountExpired(ls: seq<Listing>, now: int, n: nat): nat
    requires n <= |ls|
  {
    if n == 0 then 0 else CountExpired(ls, now, n - 1) + if Expired(ls[n - 1], now) then 1 else 0
  }

  lemma {:induction false} CountDrops(ls: seq<Listing>, ls': seq<Listing>, now: int, n: nat, i: int)
    requires n <= |ls| == |ls'| && i < |ls|
    requires forall k :: 0 <= k < |ls| && Expired(ls'[k], now) ==> Expired(ls[k], now)
    requires 0 <= i ==> Expired(ls[i], now) && !Expired(ls'[i], now)
    ensures CountExpired(ls', now, n) <= CountExpired(ls, now, n)
    ensures 0 <= i < n ==> CountExpired(ls', now, n) < CountExpired(ls, now, n)
  {
    if n > 0 {
      CountDrops(ls, ls', now, n - 1, i);
    }
  }

  /** At a fixed clock a restarted timer has not expired, so the passes come to an end. */
  lemma PassEnds(ls: seq<Listing>, now: int, p: Pass)
    requires Gathered(ls, now, |ls|, p) && p.server.Some?
    ensures CountExpired(Restart(ls, p.updates, now), now, |ls|) < CountExpired(ls, now, |ls|)
  {
    var k := p.updates[0];
    assert k in p.updates;
    var j :| 0 <= j <= k && Expired(ls[j], now) && ls[j].server == ls[k].server;
    assert Due(ls, now, j) by {
      assert Expired(ls[j], now) && ls[j].server == ls[j].server;
    }
    assert j in p.updates;
    CountDrops(ls, Restart(ls, p.updates, now), now, |ls|, j);
  }

  /** The bulk requests of a refresh, each a list of positions. */
  function Requests(ls: seq<Listing>, now: int): seq<seq<nat>>
    decreases CountExpired(ls, now, |ls|)
  {
    var p := Gather(ls, now, |ls|);
    GatherIs(ls, now, |ls|);
    if p.server == None then []
    else
      PassEnds(ls, now, p);
      [p.updates] + if p.second then Requests(Restart(ls, p.updates, now), now) else []
  }

  /** What is left after a pass: the listings due at other servers. */
  lemma DueAfter(ls: seq<Listing>, now: int, p: Pass, k: nat)
    requires Gathered(ls, now, |ls|, p) && p.server.Some? && k < |ls|
    ensures Due(Restart(ls, p.updates, now), now, k) <==> Due(ls, now, k) && ls[k].server != p.server.value
  {
    var ls' := Restart(ls, p.updates, now);
    if Due(ls', now, k) {
      var j :| 0 <= j <= k && Expired(ls'[j], now) && ls'[j].server == ls'[k].server;
      assert j !in p.updates && Expired(ls[j], now) && ls[j].server == ls[k].server;
      assert Due(ls, now, j);
    }
    if Due(ls, now, k) && ls[k].server != p.server.value {
      var j :| 0 <= j <= k && Expired(ls[j], now) && ls[j].server == ls[k].server;
      assert ls'[j] == ls[j] && ls'[k].server == ls[k].server;
      assert Expired(ls'[j], now) && ls'[j].server == ls'[k].server;
    }
  }

  /** The listings after a refresh. */
  function Refreshed(ls: seq<Listing>, now: int): (r: seq<Listing>)
    ensures |r| == |ls|
  {
    seq(|ls|, k requires 0 <= k < |ls| => if Due(ls, now, k) then ls[k].(refreshed := now) else ls[k])
  }

  lemma RefreshedOnwards(ls: seq<Listing>, now: int, p: Pass)
    requires Gathered(ls, now, |ls|, p)
    ensures p.server == None ==> Refreshed(ls, now) == ls
    ensures p.server.Some? ==> Refreshed(Restart(ls, p.updates, now), now) == Refreshed(ls, now)
    ensures p.server.Some? && !p.second ==> Restart(ls, p.updates, now) == Refreshed(ls, now)
  {
    forall k | 0 <= k < |ls| && p.server.Some?
      ensures Refreshed(Restart(ls, p.updates, now), now)[k] == Refreshed(ls, now)[k]
      ensures !p.second ==> Restart(ls, p.updates, now)[k] == Refreshed(ls, now)[k]
    {
      DueAfter(ls, now, p, k);
    }
  }

  /** A refresh leaves no timer expired. */
  lemma NoneExpired(ls: seq<Listing>, now: int, k: nat)
    requires k < |ls|
    ensures !Expired(Refreshed(ls, now)[k], now)
  {
    if Expired(ls[k], now) {
      assert Expired(ls[k], now) && ls[k].server == ls[k].server;
    }
  }

  /** Every request is in order, for one server, and only for listings that are due. */
  predicate Proper(ls: seq<Listing>, now: int, q: seq<nat>) {
    && q != [] && Ascending(q)
    && forall i :: 0 <= i < |q| ==> q[i] < |ls| && Due(ls, now, q[i]) && ls[q[i]].server == ls[q[0]].server
  }

  predicate InSome(qs: seq<seq<nat>>, k: nat) {
    exists r :: 0 <= r < |qs| && k in qs[r]
  }

  /** A request for each server at most, and every due listing in one of them. */
  ghost predicate Covers(ls: seq<Listing>, now: int, qs: seq<seq<nat>>) {
    && (forall r :: 0 <= r < |qs| ==> Proper(ls, now, qs[r]))
    && (forall r, t :: 0 <= r < t < |qs| ==> ls[qs[r][0]].server != ls[qs[t][0]].server)
    && (forall k :: 0 <= k < |ls| && Due(ls, now, k) ==> InSome(qs, k))
  }

  lemma ProperFirst(ls: seq<Listing>, now: int, p: Pass)
    requires Gathered(ls, now, |ls|, p) && p.server.Some?
    ensures Proper(ls, now, p.updates) && ls[p.updates[0]].server == p.server.value
  {
    forall i | 0 <= i < |p.updates|
      ensures p.updates[i] < |ls| && Due(ls, now, p.updates[i]) && ls[p.updates[i]].server == p.server.value
    {
      assert p.updates[i] in p.updates;
    }
  }

  lemma ProperLater(ls: seq<Listing>, now: int, p: Pass, q: seq<nat>)
    requires Gathered(ls, now, |ls|, p) && p.server.Some? && Proper(Restart(ls, p.updates, now), now, q)
    ensures Proper(ls, now, q) && ls[q[0]].server != p.server.value
  {
    var ls' := Restart(ls, p.updates, now);
    forall i | 0 <= i < |q|
      ensures Due(ls, now, q[i]) && ls[q[i]].server == ls'[q[i]].server && ls[q[i]].server != p.server.value
    {
      DueAfter(ls, now, p, q[i]);
    }
  }

  lemma InSomeCons(q: seq<nat>, qs: seq<seq<nat>>, k: nat)
    requires k in q || InSome(qs, k)
    ensures InSome([q] + qs, k)
  {
    var all := [q] + qs;
    if k in q {
      assert k in all[0];
    } else {
      var r :| 0 <= r < |qs| && k in qs[r];
      assert k in all[r + 1];
    }
  }

  lemma ConsSome(ls: seq<Listing>, now: int, p: Pass, qs: seq<seq<nat>>, k: nat)
    requires Gathered(ls, now, |ls|, p) && p.server.Some? && k < |ls| && Due(ls, now, k)
    requires Due(Restart(ls, p.updates, now), now, k) ==> InSome(qs, k)
    ensures k in p.updates || InSome(qs, k)
  {
    DueAfter(ls, now, p, k);
  }

  lemma CoversCons(ls: seq<Listing>, now: int, p: Pass, qs: seq<seq<nat>>)
    requires Gathered(ls, now, |ls|, p) && p.server.Some? && Covers(Restart(ls, p.updates, now), now, qs)
    ensures Covers(ls, now, [p.updates] + qs)
  {
    var all := [p.updates] + qs;
    ProperFirst(ls, now, p);
    forall r | 0 <= r < |all|
      ensures Proper(ls, now, all[r]) && (r > 0 ==> ls[all[r][0]].server != p.server.value)
    {
      if r > 0 {
        ProperLater(ls, now, p, qs[r - 1]);
      }
    }
    forall r, t | 0 <= r < t < |all|
      ensures ls[all[r][0]].server != ls[all[t][0]].server
    {
      if r > 0 {
        assert Restart(ls, p.updates, now)[qs[r - 1][0]].server != Restart(ls, p.updates, now)[qs[t - 1][0]].server;
      }
    }
    forall k | 0 <= k < |ls| && Due(ls, now, k)
      ensures InSome(all, k)
    {
      ConsSome(ls, now, p, qs, k);
      InSomeCons(p.updates, qs, k);
    }
  }

  /** A refresh at a fixed clock: every expired listing, and every later one of the same server, is in
      exactly one bulk request, and every request names one server. */
  lemma {:induction false} RequestsCover(ls: seq<Listing>, now: int)
    ensures Covers(ls, now, Requests(ls, now))
    decreases CountExpired(ls, now, |ls|)
  {
    var p := Gather(ls, now, |ls|);
    GatherIs(ls, now, |ls|);
    if p.server.Some? {
      PassEnds(ls, now, p);
      var ls' := Restart(ls, p.updates, now);
      if p.second {
        RequestsCover(ls', now);
        CoversCons(ls, now, p, Requests(ls', now));
      } else {
        NothingElse(ls, now, p);
        CoversCons(ls, now, p, []);
        assert [p.updates] + [] == [p.updates];
      }
    }
  }

  lemma NothingElse(ls: seq<Listing>, now: int, p: Pass)
    requires Gathered(ls, now, |ls|, p) && p.server.Some? && !p.second
    ensures Covers(Restart(ls, p.updates, now), now, [])
  {
    forall k | 0 <= k < |ls|
      ensures !Due(Restart(ls, p.updates, now), now, k)
    {
      DueAfter(ls, now, p, k);
    }
  }

  /** No listing is in two requests, or twice in one. */
  lemma OnceEach(ls: seq<Listing>, now: int, qs: seq<seq<nat>>, r: nat, t: nat, i: nat, j: nat)
    requires Covers(ls, now, qs) && r < |qs| && t < |qs| && i < |qs[r]| && j < |qs[t]|
    requires qs[r][i] == qs[t][j]
    ensures r == t && i == j
  {
    assert Proper(ls, now, qs[r]) && Proper(ls, now, qs[t]);
    assert ls[qs[r][i]].server == ls[qs[r][0]].server && ls[qs[t][j]].server == ls[qs[t][0]].server;
  }

  // ---- The list object ----

  class Announcements {
    var listings: seq<Listing>

    /** Nobody is listed twice at the same server. */
    ghost predicate Valid()
      reads this
    {
      forall i, j :: 0 <= i < j < |listings| ==>
                       listings[i].server != listings[j].server || listings[i].session != listings[j].session
    }

    constructor ()
      ensures Valid() && listings == []
    {
      listings := [];
    }

    method FindListing(server: string, session: nat) returns (found: bool)
      ensures found <==> exists i :: 0 <= i < |listings| && listings[i].server == server && listings[i].session == session
    {
      found := false;
      for i := 0 to |listings|
        invariant found <==> exists k :: 0 <= k < i && listings[k].server == server && listings[k].session == session
      {
        found := found || (listings[i].server == server && listings[i].session == session);
      }
    }

    /** A listing is unconfirmed at first; a second one at the same server is not made. */
    method AnnounceSession(server: string, session: nat, allowed: bool)
      requires Valid()
      modifies this
      ensures Valid()
      ensures listings ==
              if !allowed || exists i :: 0 <= i < |old(listings)| && old(listings)[i].server == server
                                         && old(listings)[i].session == session
              then old(listings) else old(listings) + [Listing(server, session, false, 0, 0)]
    {
      var found := FindListing(server, session);
      if allowed && !found {
        listings := listings + [Listing(server, session, false, 0, 0)];
      }
    }

    /** One pass over the list, with the timers of the refreshed listings restarted. */
    method GatherUpdates(now: int) returns (p: Pass)
      modifies this
      ensures p == Gather(old(listings), now, |old(listings)|)
      ensures listings == Restart(old(listings), p.updates, now)
    {
      p := Pass(None, [], false);
      ghost var ls := listings;
      assert Restart(ls, [], now) == ls;
      for i := 0 to |listings|
        invariant |listings| == |ls| && p == Gather(ls, now, i)
        invariant forall k :: k in p.updates ==> k < i
        invariant listings == Restart(ls, p.updates, now)
      {
        var l := listings[i];
        if l.announced && (Expired(l, now) || p.server == Some(l.server)) {
          if p.server != None && p.server != Some(l.server) {
            p := p.(second := true);
          } else {
            p := Pass(Some(l.server), p.updates + [i], p.second);
            listings := listings[i := l.(refreshed := now)];
            RestartMore(ls, p.updates[..|p.updates| - 1], i, now);
          }
        }
      }
    }

    /** The refresh itself; it ends because each pass restarts a timer that had run out. */
    method RefreshListings(now: int) returns (sent: seq<seq<nat>>)
      modifies this
      ensures sent == Requests(old(listings), now) && Covers(old(listings), now, sent)
      ensures listings == Refreshed(old(listings), now)
      decreases CountExpired(listings, now, |listings|)
    {
      RequestsCover(listings, now);
      GatherIs(listings, now, |listings|);
      ghost var ls := listings;
      var p := GatherUpdates(now);
      RefreshedOnwards(ls, now, p);
      sent := [];
      if p.server == None {
        assert listings == ls;
      } else {
        PassEnds(ls, now, p);
        sent := [p.updates];
        if p.second {
          var rest := RefreshListings(now);
          sent := sent + rest;
        }
      }
    }
  }

  lemma RestartMore(ls: seq<Listing>, ks: seq<nat>, k: nat, now: int)
    requires k < |ls| && k !in ks
    ensures Restart(ls, ks + [k], now) == Restart(ls, ks, now)[k := ls[k].(refreshed := now)]
  {
  }
}
