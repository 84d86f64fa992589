/** The ban list of a session. Accounts are banned by their id, guests by their address. */
module SessionBan {

  datatype Address = NoAddress | V4(v4: nat) | V6(v6: nat)

  /** An IPv4 address within IPv6. */
  const MAPPED: nat := 0xffff_0000_0000

  function ToIpv6(a: Address): Address {
    if a.V4? then V6(MAPPED + a.v4) else a
  }

  /** 127.0.0.0/8, also when mapped, and ::1. */
  predicate IsLoopback(a: Address) {
    match a
    case NoAddress => false
    case V4(n) => 0x7f00_0000 <= n < 0x8000_0000
    case V6(n) => n == 1 || MAPPED + 0x7f00_0000 <= n < MAPPED + 0x8000_0000
  }

  datatype Ban = Ban(id: int, username: string, authId: string, ip: Address, bannedBy: string)

  /** Who is meant: an account, or whoever comes from an address. */
  datatype Identity = Account(authId: string) | Guest(ip: Address) | Nobody

  function IdentityOf(ip: Address, authId: string): Identity {
    if authId != "" then Account(authId) else if ip.NoAddress? then Nobody else Guest(ToIpv6(ip))
  }

  function Target(b: Ban): Identity {
    if b.authId != "" then Account(b.authId) else Guest(b.ip)
  }

  /** One entry per id and per identity; all ids are positive and no larger than the counter, and nobody
      local is banned. */
  predicate OneToOne(bans: seq<Ban>, counter: nat) {
    && (forall i :: 0 <= i < |bans| ==> 0 < bans[i].id <= counter && bans[i].username != "")
    && (forall i :: 0 <= i < |bans| ==> bans[i].ip.V6? && !IsLoopback(bans[i].ip))
    && (forall i, j :: 0 <= i < j < |bans| ==> bans[i].id != bans[j].id && Target(bans[i]) != Target(bans[j]))
  }

  /** The entries one by one, looking for an identity. */
  predicate Bans(bans: seq<Ban>, who: Identity) {
    exists i :: 0 <= i < |bans| && Target(bans[i]) == who
  }

  predicate HasId(bans: seq<Ban>, id: int) {
    exists i :: 0 <= i < |bans| && bans[i].id == id
  }

  // ---- Adding and removing, as functions of the list ----

  datatype BanList = BanList(bans: seq<Ban>, counter: nat)

  /** Why a ban is not added: no address, a local one, banned already, or the id is taken. */
  predicate Refused(l: BanList, ip: Address, authId: string, id: int) {
    ip.NoAddress? || IsLoopback(ip) || Bans(l.bans, IdentityOf(ip, authId)) || (id > 0 && HasId(l.bans, id))
  }

  function NewId(l: BanList, id: int): nat {
    if id > 0 then id else l.counter + 1
  }

  function Add(l: BanList, username: string, ip: Address, authId: string, bannedBy: string, id: int): BanList {
    if Refused(l, ip, authId, id) then l
    else
      var name := if username == "" then "anon" else username;
      BanList(l.bans + [Ban(NewId(l, id), name, authId, ToIpv6(ip), bannedBy)],
              if NewId(l, id) > l.counter then NewId(l, id) else l.counter)
  }

  function Find(bans: seq<Ban>, id: int, from: nat): (i: nat)
    requires from <= |bans|
    ensures from <= i <= |bans| && (i < |bans| ==> bans[i].id == id)
    ensures forall j :: from <= j < i ==> bans[j].id != id
    decreases |bans| - from
  {
    if from == |bans| || bans[from].id == id then from else Find(bans, id, from + 1)
  }

  function Remove(l: BanList, id: int): BanList {
    var i := Find(l.bans, id, 0);
    if i == |l.bans| then l else l.(bans := l.bans[..i] + l.bans[i + 1..])
  }

  /** The newest entry. */
  predicate Enters(bans: seq<Ban>, bans': seq<Ban>, username: string, ip: Address, authId: string, bannedBy: string, id: int) {
    && |bans'| == |bans| + 1 && bans <= bans'
    && var b := bans'[|bans|];
       && b.authId == authId && b.ip == ToIpv6(ip) && b.bannedBy == bannedBy && (id > 0 ==> b.id == id)
       && (username != "" ==> b.username == username)
  }

  /** Adding keeps the list one-to-one and bans exactly one identity more, under an id of its own or the
      one that was asked for. */
  lemma AddKeeps(l: BanList, username: string, ip: Address, authId: string, bannedBy: string, id: int, who: Identity)
    requires OneToOne(l.bans, l.counter)
    ensures var l' := Add(l, username, ip, authId, bannedBy, id);
            && OneToOne(l'.bans, l'.counter)
            && (Bans(l'.bans, who) <==>
                  Bans(l.bans, who) || (!Refused(l, ip, authId, id) && who == IdentityOf(ip, authId)))
            && (if Refused(l, ip, authId, id) then l' == l else Enters(l.bans, l'.bans, username, ip, authId, bannedBy, id))
  {
    if !Refused(l, ip, authId, id) {
      var l' := Add(l, username, ip, authId, bannedBy, id);
      var n := |l.bans|;
      assert l'.bans[n] == l'.bans[|l'.bans| - 1];
      assert Target(l'.bans[n]) == IdentityOf(ip, authId);
      assert forall i :: 0 <= i < n ==> l'.bans[i] == l.bans[i];
    }
  }

  /** Where the remaining entries were before. */
  predicate Drops(bans: seq<Ban>, k: nat, rest: seq<Ban>) {
    && k < |bans| && |rest| == |bans| - 1
    && forall i :: 0 <= i < |rest| ==> rest[i] == bans[if i < k then i else i + 1]
  }

  lemma DropsOneToOne(bans: seq<Ban>, counter: nat, k: nat, rest: seq<Ban>)
    requires OneToOne(bans, counter) && Drops(bans, k, rest)
    ensures OneToOne(rest, counter) && !HasId(rest, bans[k].id)
  {
  }

  lemma DropsBan(bans: seq<Ban>, counter: nat, k: nat, rest: seq<Ban>, who: Identity)
    requires OneToOne(bans, counter) && Drops(bans, k, rest)
    ensures Bans(rest, who) <==> Bans(bans, who) && who != Target(bans[k])
  {
    if Bans(bans, who) && who != Target(bans[k]) {
      var i :| 0 <= i < |bans| && Target(bans[i]) == who;
      assert rest[if i < k then i else i - 1] == bans[i];
    }
  }

  /** Removing keeps it one-to-one and lifts the ban of exactly the identity of that entry. */
  lemma RemoveKeeps(l: BanList, id: int, who: Identity)
    requires OneToOne(l.bans, l.counter)
    ensures var l' := Remove(l, id);
            var k := Find(l.bans, id, 0);
            && OneToOne(l'.bans, l'.counter) && !HasId(l'.bans, id)
            && (Bans(l'.bans, who) <==> Bans(l.bans, who) && !(k < |l.bans| && who == Target(l.bans[k])))
  {
    var k := Find(l.bans, id, 0);
    if k < |l.bans| {
      DropsOneToOne(l.bans, l.counter, k, Remove(l, id).bans);
      DropsBan(l.bans, l.counter, k, Remove(l, id).bans, who);
    }
  }

  // ---- The list object ----

  class SessionBanList {
    var banlist: seq<Ban>
    var idautoinc: nat

    ghost predicate Valid()
      reads this
    {
      OneToOne(banlist, idautoinc)
    }

    ghost function Value(): BanList
      reads this
    {
      BanList(banlist, idautoinc)
    }

    constructor ()
      ensures Valid() && Value() == BanList([], 0)
    {
      banlist, idautoinc := [], 0;
    }

    /** Accounts are looked up by their id alone, guests by their address among the guest entries. */
    method IsBanned(address: Address, authId: string) returns (banned: bool)
      requires Valid()
      ensures banned == Bans(banlist, IdentityOf(address, authId))
    {
      banned := false;
      if authId != "" {
        for i := 0 to |banlist|
          invariant banned == exists k :: 0 <= k < i && Target(banlist[k]) == Account(authId)
        {
          if banlist[i].authId == authId {
            banned := true;
          }
        }
      } else if !address.NoAddress? {
        var ip := ToIpv6(address);
        for i := 0 to |banlist|
          invariant banned == exists k :: 0 <= k < i && Target(banlist[k]) == Guest(ip)
        {
          if banlist[i].authId == "" && banlist[i].ip == ip {
            banned := true;
          }
        }
      }
    }

    method HasEntry(id: int) returns (taken: bool)
      ensures taken == HasId(banlist, id)
    {
      taken := false;
      for i := 0 to |banlist|
        invariant taken == exists k :: 0 <= k < i && banlist[k].id == id
      {
        taken := taken || banlist[i].id == id;
      }
    }

    method AddBan(username: string, ip: Address, authId: string, bannedBy: string, wanted: int) returns (id: int)
      requires Valid()
      modifies this
      ensures Valid() && Value() == Add(old(Value()), username, ip, authId, bannedBy, wanted)
      ensures id == if Refused(old(Value()), ip, authId, wanted) then 0 else NewId(old(Value()), wanted)
    {
      AddKeeps(Value(), username, ip, authId, bannedBy, wanted, Nobody);
      id := 0;
      var banned := IsBanned(ip, authId);
      if !ip.NoAddress? && !IsLoopback(ip) && !banned {
        var taken := HasEntry(wanted);
        if wanted <= 0 || !taken {
          id := if wanted > 0 then wanted else idautoinc + 1;
          idautoinc := if id > idautoinc then id else idautoinc;
          banlist := banlist + [Ban(id, if username == "" then "anon" else username, authId, ToIpv6(ip), bannedBy)];
        }
      }
    }

    /** Gives the name of the user whose ban was lifted, or nothing. */
    method RemoveBan(id: int) returns (username: string)
      requires Valid()
      modifies `banlist
      ensures Valid() && Value() == Remove(old(Value()), id)
      ensures username == "" <==> !HasId(old(banlist), id)
      ensures forall i :: 0 <= i < |old(banlist)| && old(banlist)[i].id == id ==> username == old(banlist)[i].username
    {
      RemoveKeeps(Value(), id, Nobody);
      username := "";
      var i := 0;
      while i < |banlist| && banlist[i].id != id
        invariant 0 <= i <= |banlist| && forall k :: 0 <= k < i ==> banlist[k].id != id
      {
        i := i + 1;
      }
      if i < |banlist| {
        assert i == Find(banlist, id, 0);
        username := banlist[i].username;
        banlist := banlist[..i] + banlist[i + 1..];
      }
    }
  }
}
