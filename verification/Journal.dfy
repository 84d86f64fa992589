/** The session journal: every metadata update is written as a line of text, and loading a session
    reads the lines back. */
module Journal {
  import opened Wrappers
  import opened JournalText
  import opened SessionBan
  import History = SessionHistory

  datatype Flags = Flags(persistent: bool, preserveChat: bool, nsfm: bool, deputies: bool, authOnly: bool)

  datatype Meta = Meta(file: string, fileCount: nat, maxUsers: nat, threshold: nat, title: string, flags: Flags,
                       bans: BanList, announcements: seq<string>, nameIds: map<string, nat>,
                       ops: set<string>, trusted: set<string>)

  const NO_FLAGS := Flags(false, false, false, false, false)

  const INITIAL := Meta("", 0, 254, 0, "", NO_FLAGS, BanList([], 0), [], map[], {}, {})

  // ---- Reading ----

  function Bound(n: int): nat {
    if n < 1 then 1 else if n > 254 then 254 else n
  }

  /** Addresses in a plain numeric notation. */
  function AddressText(a: Address): string {
    match a
    case NoAddress => ""
    case V4(n) => "4" + Digits(n)
    case V6(n) => "6" + Digits(n)
  }

  function ParseAddress(t: string): Address {
    if t == "" then NoAddress
    else if t[0] == '4' then V4(ToInt(t[1..]))
    else if t[0] == '6' then V6(ToInt(t[1..]))
    else NoAddress
  }

  function ParseFlags(fields: seq<string>): Flags {
    Flags("persistent" in fields, "preserveChat" in fields, "nsfm" in fields, "deputies" in fields, "authonly" in fields)
  }

  function RemoveAll(list: seq<string>, x: string): seq<string> {
    if list == [] then [] else (if list[0] == x then [] else [list[0]]) + RemoveAll(list[1..], x)
  }

  /** A ban entry must have five fields. */
  function ReadBan(l: BanList, args: seq<string>): BanList {
    if |args| != 5 then l
    else Add(l, PercentDecode(args[1]), ParseAddress(args[2]), PercentDecode(args[3]), PercentDecode(args[4]), ToInt(args[0]))
  }

  /** The kinds of journal entries. */
  datatype Word =
    | FileWord | MaxUsersWord | AutoResetWord | TitleWord | FlagsWord
    | BanWord | UnbanWord | AnnounceWord | UnannounceWord | UserWord
    | OpWord | DeopWord | TrustWord | UntrustWord

  function Spelling(w: Word): string {
    match w
    case FileWord => "FILE"
    case MaxUsersWord => "MAXUSERS"
    case AutoResetWord => "AUTORESET"
    case TitleWord => "TITLE"
    case FlagsWord => "FLAGS"
    case BanWord => "BAN"
    case UnbanWord => "UNBAN"
    case AnnounceWord => "ANNOUNCE"
    case UnannounceWord => "UNANNOUNCE"
    case UserWord => "USER"
    case OpWord => "OP"
    case DeopWord => "DEOP"
    case TrustWord => "TRUST"
    case UntrustWord => "UNTRUST"
  }

  function ParseWord(t: string): Option<Word> {
    if t == "FILE" then Some(FileWord)
    else if t == "MAXUSERS" then Some(MaxUsersWord)
    else if t == "AUTORESET" then Some(AutoResetWord)
    else if t == "TITLE" then Some(TitleWord)
    else if t == "FLAGS" then Some(FlagsWord)
    else if t == "BAN" then Some(BanWord)
    else if t == "UNBAN" then Some(UnbanWord)
    else if t == "ANNOUNCE" then Some(AnnounceWord)
    else if t == "UNANNOUNCE" then Some(UnannounceWord)
    else if t == "USER" then Some(UserWord)
    else if t == "OP" then Some(OpWord)
    else if t == "DEOP" then Some(DeopWord)
    else if t == "TRUST" then Some(TrustWord)
    else if t == "UNTRUST" then Some(UntrustWord)
    else None
  }

  /** What one journal entry does to the loaded metadata. */
  function Interpret(m: Meta, cmd: Word, params: string): Meta {
    match cmd
    case FileWord => m.(file := params, fileCount := m.fileCount + 1)
    case MaxUsersWord => m.(maxUsers := Bound(ToInt(params)))
    case AutoResetWord => m.(threshold := ToInt(params))
    case TitleWord => m.(title := params)
    case FlagsWord => m.(flags := ParseFlags(Split(params)))
    case BanWord => m.(bans := ReadBan(m.bans, Split(params)))
    case UnbanWord => m.(bans := Remove(m.bans, ToInt(params)))
    case AnnounceWord => if params in m.announcements then m else m.(announcements := m.announcements + [params])
    case UnannounceWord => m.(announcements := RemoveAll(m.announcements, params))
    case UserWord =>
      var args := Split(params);
      if |args| != 2 then m else m.(nameIds := m.nameIds[PercentDecode(args[1]) := ToInt(args[0])])
    case OpWord => if params == "" then m else m.(ops := m.ops + {params})
    case DeopWord => m.(ops := m.ops - {params})
    case TrustWord => if params == "" then m else m.(trusted := m.trusted + {params})
    case UntrustWord => m.(trusted := m.trusted - {params})
  }

  /** The first word of a trimmed line, and the rest. */
  function FirstWord(l: string): string {
    var sep := IndexOf(l, ' ');
    if sep == |l| then l else Trim(l[..sep])
  }

  function Rest(l: string): string {
    var sep := IndexOf(l, ' ');
    if sep == |l| then "" else Trim(l[sep + 1..])
  }

  /** Unknown entries are skipped. */
  function Perform(m: Meta, cmd: Option<Word>, params: string): Meta {
    if cmd == None then m else Interpret(m, cmd.value, params)
  }

  /** One line: blank lines and comments are skipped too. */
  function Exec(m: Meta, line: string): Meta {
    var l := Trim(line);
    if l == "" || l[0] == '#' then m else Perform(m, ParseWord(FirstWord(l)), Rest(l))
  }

  function LoadFrom(m: Meta, text: string): Meta
    decreases |text|
  {
    if text == "" then m
    else
      var k := IndexOf(text, '\n');
      if k == |text| then Exec(m, text) else LoadFrom(Exec(m, text[..k + 1]), text[k + 1..])
  }

  function Load(text: string): Meta {
    LoadFrom(INITIAL, text)
  }

  // ---- Writing ----

  datatype Update =
    | NewFile(name: string)
    | SetMaxUsers(max: int)
    | SetThreshold(limit: nat)
    | SetTitle(title: string)
    | SetFlags(flags: Flags)
    | AddBan(username: string, ip: Address, authId: string, bannedBy: string)
    | RemoveBan(id: nat)
    | AddAnnouncement(url: string)
    | RemoveAnnouncement(gone: string)
    | JoinUser(id: nat, name: string)
    | SetOperator(account: string, op: bool)
    | SetTrust(user: string, trust: bool)

  /** What an update does to the metadata in memory. */
  function Apply(m: Meta, u: Update): Meta {
    match u
    case NewFile(name) => m.(file := name, fileCount := m.fileCount + 1)
    case SetMaxUsers(max) => m.(maxUsers := Bound(max))
    case SetThreshold(limit) => m.(threshold := limit)
    case SetTitle(title) => m.(title := title)
    case SetFlags(flags) => m.(flags := flags)
    case AddBan(username, ip, authId, banner) => m.(bans := Add(m.bans, username, ip, authId, banner, 0))
    case RemoveBan(id) => m.(bans := Remove(m.bans, id))
    case AddAnnouncement(url) => if url in m.announcements then m else m.(announcements := m.announcements + [url])
    case RemoveAnnouncement(url) => m.(announcements := RemoveAll(m.announcements, url))
    case JoinUser(id, name) => m.(nameIds := m.nameIds[name := id])
    case SetOperator(account, op) =>
      if account == "" then m else m.(ops := if op then m.ops + {account} else m.ops - {account})
    case SetTrust(user, trust) =>
      if user == "" then m else m.(trusted := if trust then m.trusted + {user} else m.trusted - {user})
  }

  function Join(fields: seq<string>): string {
    if fields == [] then "" else if |fields| == 1 then fields[0] else fields[0] + " " + Join(fields[1..])
  }

  function Name(on: bool, flag: string): seq<string> {
    if on then [flag] else []
  }

  function FlagNames(f: Flags): seq<string> {
    Name(f.persistent, "persistent") + Name(f.preserveChat, "preserveChat") + Name(f.nsfm, "nsfm")
    + Name(f.deputies, "deputies") + Name(f.authOnly, "authonly")
  }

  function BanFields(id: nat, username: string, ip: Address, authId: string, banner: string): seq<string> {
    [Digits(id), PercentEncode(username), AddressText(ip), PercentEncode(authId), PercentEncode(banner)]
  }

  datatype Entry = Entry(cmd: Word, params: string)

  /** The entry an update leaves in the journal; most updates that change nothing leave none. */
  function EntryFor(m: Meta, u: Update): Option<Entry> {
    match u
    case NewFile(name) => Some(Entry(FileWord, name))
    case SetMaxUsers(max) => if Bound(max) == m.maxUsers then None else Some(Entry(MaxUsersWord, Digits(Bound(max))))
    case SetThreshold(limit) => if limit == m.threshold then None else Some(Entry(AutoResetWord, Digits(limit)))
    case SetTitle(title) => if title == m.title then None else Some(Entry(TitleWord, title))
    case SetFlags(flags) => if flags == m.flags then None else Some(Entry(FlagsWord, Join(FlagNames(flags))))
    case AddBan(username, ip, authId, banner) =>
      if Refused(m.bans, ip, authId, 0) then None
      else Some(Entry(BanWord, Join(BanFields(m.bans.counter + 1, username, ip, authId, banner))))
    case RemoveBan(id) => if HasId(m.bans.bans, id) then Some(Entry(UnbanWord, Digits(id))) else None
    case AddAnnouncement(url) => if url in m.announcements then None else Some(Entry(AnnounceWord, url))
    case RemoveAnnouncement(url) => if url in m.announcements then Some(Entry(UnannounceWord, url)) else None
    case JoinUser(id, name) => Some(Entry(UserWord, Digits(id) + " " + PercentEncode(name)))
    case SetOperator(account, op) =>
      if account == "" || (account in m.ops) == op then None else Some(Entry(if op then OpWord else DeopWord, account))
    case SetTrust(user, trust) =>
      if user == "" || (user in m.trusted) == trust then None else Some(Entry(if trust then TrustWord else UntrustWord, user))
  }

  function LineFor(m: Meta, u: Update): string {
    match EntryFor(m, u)
    case None => ""
    case Some(e) => Spelling(e.cmd) + " " + e.params + "\n"
  }

  // ---- Lines ----

  /** Fields that stand in a line as they are. */
  predicate CleanText(t: string) {
    Trimmed(t) && OneLine(t)
  }

  predicate IsCommand(cmd: string) {
    cmd != "" && NoSpace(cmd) && cmd[0] != '#'
  }

  lemma TrimLeftSame(t: string)
    requires t == "" || !IsSpace(t[0])
    ensures TrimLeft(t) == t
  {
  }

  predicate Spaces(t: string) {
    forall i :: 0 <= i < |t| ==> IsSpace(t[i])
  }

  /** What is left of a line after trimming. */
  lemma TrimLine(cmd: string, params: string, end: string)
    requires IsCommand(cmd) && Trimmed(params) && Spaces(end)
    ensures Trim(cmd + " " + params + end) == if params == "" then cmd else cmd + " " + params
  {
    var line := cmd + " " + params + end;
    if params == "" {
      assert line == cmd + (" " + end);
      TrimRightTail(cmd, " " + end);
      TrimLeftSame(cmd);
    } else {
      var t := cmd + " " + params;
      assert t[|t| - 1] == params[|params| - 1] && t[0] == cmd[0];
      TrimRightTail(t, end);
      TrimLeftSame(t);
    }
  }

  lemma WordsStandAlone(w: Word)
    ensures IsCommand(Spelling(w)) && ParseWord(Spelling(w)) == Some(w)
  {
  }

  lemma SplitsCommand(cmd: string, params: string)
    requires NoSpace(cmd)
    ensures var l := cmd + " " + params;
            IndexOf(l, ' ') == |cmd| < |l| && l[..|cmd|] == cmd && l[|cmd| + 1..] == params
  {
    var l := cmd + " " + params;
    assert l[|cmd|] == ' ' && forall i :: 0 <= i < |cmd| ==> l[i] == cmd[i];
  }

  lemma ExecLine(m: Meta, cmd: string, w: Word, params: string, end: string)
    requires IsCommand(cmd) && ParseWord(cmd) == Some(w) && Trimmed(params) && Spaces(end)
    ensures Exec(m, cmd + " " + params + end) == Interpret(m, w, params)
  {
    TrimLine(cmd, params, end);
    if params == "" {
      assert IndexOf(cmd, ' ') == |cmd|;
    } else {
      SplitsCommand(cmd, params);
      TrimSame(cmd);
      TrimSame(params);
    }
  }

  /** An entry written with trimmed parameters is read back as it was meant. */
  lemma ExecEntry(m: Meta, w: Word, params: string, end: string)
    requires Trimmed(params) && Spaces(end)
    ensures Exec(m, Spelling(w) + " " + params + end) == Interpret(m, w, params)
  {
    WordsStandAlone(w);
    ExecLine(m, Spelling(w), w, params, end);
  }

  predicate Ends(text: string) {
    text == "" || text[|text| - 1] == '\n'
  }

  lemma LoadLine(m: Meta, body: string, rest: string)
    requires OneLine(body)
    ensures LoadFrom(m, body + "\n" + rest) == LoadFrom(Exec(m, body + "\n"), rest)
  {
    var t := body + "\n" + rest;
    assert t[|body|] == '\n' && forall i :: 0 <= i < |body| ==> t[i] == body[i];
    assert IndexOf(t, '\n') == |body|;
    assert t[..|body| + 1] == body + "\n" && t[|body| + 1..] == rest;
  }

  lemma FirstLine(text: string, more: string) returns (body: string, rest: string)
    requires text != "" && Ends(text)
    ensures OneLine(body) && Ends(rest) && |rest| < |text|
    ensures text == body + "\n" + rest && text + more == body + "\n" + (rest + more)
  {
    var k := IndexOf(text, '\n');
    body, rest := text[..k], text[k + 1..];
    assert text == body + "\n" + rest;
    assert rest != "" ==> rest[|rest| - 1] == text[|text| - 1];
  }

  /** Loading a longer journal goes on where the shorter one ended. */
  lemma {:induction false} LoadOnwards(m: Meta, text: string, more: string)
    requires Ends(text)
    ensures LoadFrom(m, text + more) == LoadFrom(LoadFrom(m, text), more)
    decreases |text|
  {
    if text == "" {
      assert text + more == more;
    } else {
      var body, rest := FirstLine(text, more);
      LoadLine(m, body, rest);
      LoadLine(m, body, rest + more);
      LoadOnwards(Exec(m, body + "\n"), rest, more);
    }
  }

  // ---- Entries ----

  lemma {:induction false} RemoveAllAbsent(list: seq<string>, x: string)
    requires x !in list
    ensures RemoveAll(list, x) == list
  {
    if list != [] {
      RemoveAllAbsent(list[1..], x);
    }
  }

  lemma {:induction false} RemoveAllIff(list: seq<string>, x: string, y: string)
    ensures y in RemoveAll(list, x) <==> y in list && y != x
  {
    if list != [] {
      RemoveAllIff(list[1..], x, y);
      assert y in list <==> y == list[0] || y in list[1..];
    }
  }

  lemma RemoveAllRemoves(list: seq<string>, x: string)
    ensures forall y :: y in RemoveAll(list, x) <==> y in list && y != x
  {
    forall y
      ensures y in RemoveAll(list, x) <==> y in list && y != x
    {
      RemoveAllIff(list, x, y);
    }
  }

  predicate Fields(fields: seq<string>) {
    forall i :: 0 <= i < |fields| ==> IsField(fields[i])
  }

  lemma {:induction false} SplitJoin(fields: seq<string>)
    requires Fields(fields) && fields != []
    ensures Split(Join(fields)) == fields
  {
    if |fields| == 1 {
      SplitOne(fields[0]);
    } else {
      SplitJoin(fields[1..]);
      SplitFirst(fields[0], Join(fields[1..]));
    }
  }

  predicate Solid(t: string) {
    t != "" && NoSpace(t)
  }

  predicate AllSolid(fields: seq<string>) {
    forall i :: 0 <= i < |fields| ==> Solid(fields[i])
  }

  lemma {:induction false} JoinClean(fields: seq<string>)
    requires fields != [] && AllSolid(fields)
    ensures Join(fields) != "" && CleanText(Join(fields))
  {
    if |fields| > 1 {
      JoinClean(fields[1..]);
      FieldClean(fields[0], Join(fields[1..]));
    }
  }

  /** A field in front of clean text gives clean text. */
  lemma FieldClean(field: string, rest: string)
    requires Solid(field) && rest != "" && !IsSpace(rest[|rest| - 1]) && OneLine(rest)
    ensures CleanText(field + " " + rest)
  {
    var t := field + " " + rest;
    assert t[0] == field[0] && t[|t| - 1] == rest[|rest| - 1];
  }

  lemma FlagMembers(f: Flags)
    ensures ParseFlags(FlagNames(f)) == f
  {
    assert |"persistent"| == 10 && |"preserveChat"| == 12 && |"nsfm"| == 4 && |"deputies"| == 8 && |"authonly"| == 8;
    assert "deputies"[0] != "authonly"[0];
  }

  lemma LongNamesSolid()
    ensures Solid("persistent") && Solid("preserveChat")
  {
  }

  lemma ShortNamesSolid()
    ensures Solid("nsfm") && Solid("deputies") && Solid("authonly")
  {
  }

  lemma NameSolid(on: bool, flag: string)
    requires Solid(flag)
    ensures AllSolid(Name(on, flag))
  {
  }

  lemma BothSolid(a: seq<string>, b: seq<string>)
    requires AllSolid(a) && AllSolid(b)
    ensures AllSolid(a + b)
  {
  }

  lemma FlagNamesSolid(f: Flags)
    ensures AllSolid(FlagNames(f))
  {
    LongNamesSolid();
    ShortNamesSolid();
    var a, b := Name(f.persistent, "persistent"), Name(f.preserveChat, "preserveChat");
    var c, d, e := Name(f.nsfm, "nsfm"), Name(f.deputies, "deputies"), Name(f.authOnly, "authonly");
    NameSolid(f.persistent, "persistent");
    NameSolid(f.preserveChat, "preserveChat");
    NameSolid(f.nsfm, "nsfm");
    NameSolid(f.deputies, "deputies");
    NameSolid(f.authOnly, "authonly");
    BothSolid(a, b);
    BothSolid(a + b, c);
    BothSolid(a + b + c, d);
    BothSolid(a + b + c + d, e);
  }

  lemma SolidFields(fields: seq<string>)
    requires AllSolid(fields)
    ensures Fields(fields)
  {
    forall i | 0 <= i < |fields|
      ensures IsField(fields[i])
    {
      assert Solid(fields[i]);
    }
  }

  /** No flags at all are written as an empty list, whose one empty field names none of them. */
  lemma NoNames()
    ensures ParseFlags(Split("")) == NO_FLAGS
  {
    SplitOne("");
    assert Split("") == [""];
    assert "" != "persistent" && "" != "preserveChat" && "" != "nsfm" && "" != "deputies" && "" != "authonly";
  }

  lemma FlagsSurvive(f: Flags, names: seq<string>)
    requires names == FlagNames(f)
    ensures ParseFlags(Split(Join(names))) == f && CleanText(Join(names))
  {
    FlagMembers(f);
    if names == [] {
      NoNames();
    } else {
      FlagNamesSolid(f);
      SolidFields(names);
      SplitJoin(names);
      JoinClean(names);
    }
  }

  lemma DigitsSolid(n: nat)
    ensures Solid(Digits(n)) && IsField(Digits(n)) && CleanText(Digits(n))
  {
    assert forall i :: 0 <= i < |Digits(n)| ==> IsDigit(Digits(n)[i]);
  }

  lemma AddressSurvives(a: Address)
    ensures ParseAddress(AddressText(a)) == a && NoSpace(AddressText(a))
  {
    if !a.NoAddress? {
      var n := if a.V4? then a.v4 else a.v6;
      ValueDigits(n);
      DigitsSolid(n);
      assert AddressText(a)[1..] == Digits(n);
    }
  }

  lemma EncodedField(t: string)
    ensures IsField(PercentEncode(t)) && OneLine(PercentEncode(t))
  {
    EncodedNoSpace(t);
  }

  lemma BanFieldsNoSpace(id: nat, username: string, ip: Address, authId: string, banner: string)
    ensures AllNoSpace(BanFields(id, username, ip, authId, banner))
  {
    DigitsSolid(id);
    EncodedNoSpace(username);
    EncodedNoSpace(authId);
    EncodedNoSpace(banner);
    AddressSurvives(ip);
  }

  predicate AllNoSpace(fields: seq<string>) {
    forall i :: 0 <= i < |fields| ==> NoSpace(fields[i])
  }

  /** Empty fields inside are harmless, as long as there is something at the end. */
  lemma {:induction false} JoinTail(fields: seq<string>)
    requires fields != [] && AllNoSpace(fields) && fields[|fields| - 1] != ""
    ensures Join(fields) != "" && OneLine(Join(fields)) && !IsSpace(Join(fields)[|Join(fields)| - 1])
  {
    if |fields| > 1 {
      JoinTail(fields[1..]);
      var rest := Join(fields[1..]);
      OneLineAround(fields[0], rest);
      assert (fields[0] + " " + rest)[|fields[0]| + |rest|] == rest[|rest| - 1];
    }
  }

  lemma OneLineAround(a: string, b: string)
    requires NoSpace(a) && OneLine(b)
    ensures OneLine(a + " " + b)
  {
  }

  lemma NoSpaceFields(fields: seq<string>)
    requires AllNoSpace(fields)
    ensures Fields(fields)
  {
    forall i | 0 <= i < |fields|
      ensures IsField(fields[i])
    {
      assert NoSpace(fields[i]);
    }
  }

  lemma JoinFields(fields: seq<string>)
    requires |fields| > 1 && AllNoSpace(fields) && fields[0] != "" && fields[|fields| - 1] != ""
    ensures CleanText(Join(fields)) && Split(Join(fields)) == fields
  {
    NoSpaceFields(fields);
    SplitJoin(fields);
    JoinTail(fields[1..]);
    FieldClean(fields[0], Join(fields[1..]));
  }

  /** The id a ban gets when it is made is the one it has after loading. */
  lemma SameBan(l: BanList, username: string, ip: Address, authId: string, banner: string)
    requires OneToOne(l.bans, l.counter) && !Refused(l, ip, authId, 0)
    ensures Add(l, username, ip, authId, banner, l.counter + 1) == Add(l, username, ip, authId, banner, 0)
  {
    assert !HasId(l.bans, l.counter + 1);
  }

  /** A ban entry with all its fields restores the same entry, id and counter. */
  lemma BanSurvives(l: BanList, username: string, ip: Address, authId: string, banner: string)
    requires IsBytes(username) && IsBytes(authId) && IsBytes(banner)
    requires OneToOne(l.bans, l.counter) && !Refused(l, ip, authId, 0)
    ensures ReadBan(l, BanFields(l.counter + 1, username, ip, authId, banner)) == Add(l, username, ip, authId, banner, 0)
  {
    PercentRoundTrip(username);
    PercentRoundTrip(authId);
    PercentRoundTrip(banner);
    AddressSurvives(ip);
    ValueDigits(l.counter + 1);
    SameBan(l, username, ip, authId, banner);
  }

  lemma UserSurvives(m: Meta, id: nat, name: string)
    requires IsBytes(name) && name != ""
    ensures Interpret(m, UserWord, Digits(id) + " " + PercentEncode(name)) == m.(nameIds := m.nameIds[name := id])
    ensures CleanText(Digits(id) + " " + PercentEncode(name))
  {
    DigitsSolid(id);
    EncodedField(name);
    EncodedNoSpace(name);
    SplitOne(PercentEncode(name));
    SplitFirst(Digits(id), PercentEncode(name));
    PercentRoundTrip(name);
    ValueDigits(id);
    FieldClean(Digits(id), PercentEncode(name));
  }

  // ---- Loading what was written ----

  /** Fields free of newlines and of spaces at the ends; a ban also needs the name of its author, and
      a user has a name. */
  predicate Clean(u: Update) {
    match u
    case NewFile(name) => CleanText(name)
    case SetTitle(title) => CleanText(title)
    case AddBan(username, _, authId, banner) => IsBytes(username) && IsBytes(authId) && IsBytes(banner) && banner != ""
    case AddAnnouncement(url) => CleanText(url)
    case RemoveAnnouncement(url) => CleanText(url)
    case JoinUser(_, name) => IsBytes(name) && name != ""
    case SetOperator(account, _) => CleanText(account)
    case SetTrust(user, _) => CleanText(user)
    case _ => true
  }

  predicate MetaOk(m: Meta) {
    OneToOne(m.bans.bans, m.bans.counter) && 1 <= m.maxUsers <= 254
  }

  lemma ApplyOk(m: Meta, u: Update)
    requires MetaOk(m)
    ensures MetaOk(Apply(m, u))
  {
    match u
    case AddBan(username, ip, authId, banner) => AddKeeps(m.bans, username, ip, authId, banner, 0, Nobody);
    case RemoveBan(id) => RemoveKeeps(m.bans, id, Nobody);
    case _ =>
  }

  lemma NoEntryNoChange(m: Meta, u: Update)
    requires MetaOk(m) && EntryFor(m, u) == None
    ensures Apply(m, u) == m
  {
    match u
    case RemoveAnnouncement(url) => RemoveAllAbsent(m.announcements, url);
    case SetOperator(account, op) =>
      assert account != "" ==> (if op then m.ops + {account} else m.ops - {account}) == m.ops;
    case SetTrust(user, trust) =>
      assert user != "" ==> (if trust then m.trusted + {user} else m.trusted - {user}) == m.trusted;
    case _ =>
  }

  /** The entry restores the update, and stands in one line. */
  predicate Restores(m: Meta, u: Update, e: Entry) {
    true == (Interpret(m, e.cmd, e.params) == Apply(m, u) && CleanText(e.params))
  }

  lemma MaxUsersEntry(m: Meta, u: Update, e: Entry)
    requires EntryFor(m, u) == Some(e) && u.SetMaxUsers?
    ensures Restores(m, u, e)
  {
    ValueDigits(Bound(u.max));
    DigitsSolid(Bound(u.max));
  }

  lemma ThresholdEntry(m: Meta, u: Update, e: Entry)
    requires EntryFor(m, u) == Some(e) && u.SetThreshold?
    ensures Restores(m, u, e)
  {
    ValueDigits(u.limit);
    DigitsSolid(u.limit);
  }

  lemma UnbanEntry(m: Meta, u: Update, e: Entry)
    requires EntryFor(m, u) == Some(e) && u.RemoveBan?
    ensures Restores(m, u, e)
  {
    ValueDigits(u.id);
    DigitsSolid(u.id);
  }

  lemma TextEntry(m: Meta, u: Update, e: Entry)
    requires Clean(u) && EntryFor(m, u) == Some(e)
    requires u.NewFile? || u.SetTitle? || u.AddAnnouncement? || u.RemoveAnnouncement?
    ensures Restores(m, u, e)
  {
  }

  lemma AccountEntry(m: Meta, u: Update, e: Entry)
    requires Clean(u) && EntryFor(m, u) == Some(e) && (u.SetOperator? || u.SetTrust?)
    ensures Restores(m, u, e)
  {
  }

  lemma FlagsEntryIs(m: Meta, u: Update, e: Entry, names: seq<string>)
    requires EntryFor(m, u) == Some(e) && u.SetFlags? && names == FlagNames(u.flags)
    ensures e.cmd == FlagsWord && e.params == Join(names)
  {
  }

  lemma FlagsRead(m: Meta, u: Update, params: string)
    requires u.SetFlags? && ParseFlags(Split(params)) == u.flags
    ensures Interpret(m, FlagsWord, params) == Apply(m, u)
  {
  }

  lemma FlagsEntry(m: Meta, u: Update, e: Entry, names: seq<string>)
    requires EntryFor(m, u) == Some(e) && u.SetFlags? && names == FlagNames(u.flags)
    ensures Restores(m, u, e)
  {
    FlagsEntryIs(m, u, e, names);
    FlagsSurvive(u.flags, names);
    FlagsRead(m, u, e.params);
  }

  lemma UserEntry(m: Meta, u: Update, e: Entry)
    requires Clean(u) && EntryFor(m, u) == Some(e) && u.JoinUser?
    ensures Restores(m, u, e)
  {
    UserSurvives(m, u.id, u.name);
  }

  lemma BanTextSplits(id: nat, u: Update, fields: seq<string>, params: string)
    requires u.AddBan? && Clean(u) && fields == BanFields(id, u.username, u.ip, u.authId, u.bannedBy) && params == Join(fields)
    ensures CleanText(params) && Split(params) == fields
  {
    BanFieldsNoSpace(id, u.username, u.ip, u.authId, u.bannedBy);
    EncodedNoSpace(u.bannedBy);
    JoinFields(fields);
  }

  lemma BanReads(m: Meta, u: Update, params: string)
    requires MetaOk(m) && Clean(u) && u.AddBan? && !Refused(m.bans, u.ip, u.authId, 0)
    requires Split(params) == BanFields(m.bans.counter + 1, u.username, u.ip, u.authId, u.bannedBy)
    ensures Interpret(m, BanWord, params) == Apply(m, u)
  {
    BanSurvives(m.bans, u.username, u.ip, u.authId, u.bannedBy);
  }

  lemma BanEntryIs(m: Meta, u: Update, e: Entry, fields: seq<string>)
    requires u.AddBan? && EntryFor(m, u) == Some(e)
    requires fields == BanFields(m.bans.counter + 1, u.username, u.ip, u.authId, u.bannedBy)
    ensures !Refused(m.bans, u.ip, u.authId, 0) && e.cmd == BanWord && e.params == Join(fields)
  {
  }

  lemma AddBanEntry(m: Meta, u: Update, e: Entry, fields: seq<string>)
    requires MetaOk(m) && Clean(u) && EntryFor(m, u) == Some(e) && u.AddBan?
    requires fields == BanFields(m.bans.counter + 1, u.username, u.ip, u.authId, u.bannedBy)
    ensures Restores(m, u, e)
  {
    BanEntryIs(m, u, e, fields);
    BanTextSplits(m.bans.counter + 1, u, fields, e.params);
    BanReads(m, u, e.params);
  }

  lemma EntryIsApplied(m: Meta, u: Update, e: Entry)
    requires MetaOk(m) && Clean(u) && EntryFor(m, u) == Some(e)
    ensures Restores(m, u, e)
  {
    if u.SetMaxUsers? {
      MaxUsersEntry(m, u, e);
    } else if u.SetThreshold? {
      ThresholdEntry(m, u, e);
    } else if u.RemoveBan? {
      UnbanEntry(m, u, e);
    } else if u.SetOperator? || u.SetTrust? {
      AccountEntry(m, u, e);
    } else if u.SetFlags? {
      FlagsEntry(m, u, e, FlagNames(u.flags));
    } else if u.JoinUser? {
      UserEntry(m, u, e);
    } else if u.AddBan? {
      AddBanEntry(m, u, e, BanFields(m.bans.counter + 1, u.username, u.ip, u.authId, u.bannedBy));
    } else {
      TextEntry(m, u, e);
    }
  }

  lemma EntryLoads(text: string, m: Meta, e: Entry)
    requires Ends(text) && Load(text) == m && CleanText(e.params)
    ensures var line := Spelling(e.cmd) + " " + e.params + "\n";
            Ends(text + line) && Load(text + line) == Interpret(m, e.cmd, e.params)
  {
    var body := Spelling(e.cmd) + " " + e.params;
    WordsStandAlone(e.cmd);
    LoadOnwards(INITIAL, text, body + "\n");
    LoadLine(m, body, "");
    assert body + "\n" + "" == body + "\n";
    ExecEntry(m, e.cmd, e.params, "\n");
  }

  /** Loading a journal with one more clean update gives the updated metadata. */
  lemma UpdateSurvives(text: string, u: Update)
    requires Ends(text) && MetaOk(Load(text)) && Clean(u)
    ensures Ends(text + LineFor(Load(text), u)) && Load(text + LineFor(Load(text), u)) == Apply(Load(text), u)
  {
    var m := Load(text);
    match EntryFor(m, u)
    case None =>
      NoEntryNoChange(m, u);
      assert text + "" == text;
    case Some(e) =>
      EntryIsApplied(m, u, e);
      EntryLoads(text, m, e);
  }

  function ApplyAll(us: seq<Update>): Meta {
    if us == [] then INITIAL else Apply(ApplyAll(us[..|us| - 1]), us[|us| - 1])
  }

  /** The journal that a sequence of updates leaves behind. */
  function Written(us: seq<Update>): string {
    if us == [] then ""
    else Written(us[..|us| - 1]) + LineFor(ApplyAll(us[..|us| - 1]), us[|us| - 1])
  }

  lemma {:induction false} MetaStaysOk(us: seq<Update>)
    ensures MetaOk(ApplyAll(us))
  {
    if us != [] {
      MetaStaysOk(us[..|us| - 1]);
      ApplyOk(ApplyAll(us[..|us| - 1]), us[|us| - 1]);
    }
  }

  /** Journal replay: for every sequence of clean updates, loading the journal reconstructs the ban
      list and its counter, the operators and trusted users, flags, limits, title, listings, the
      ids of the users and the latest recording file. */
  lemma {:induction false} JournalReplay(us: seq<Update>)
    requires forall i :: 0 <= i < |us| ==> Clean(us[i])
    ensures Ends(Written(us)) && Load(Written(us)) == ApplyAll(us)
  {
    if us != [] {
      var front := us[..|us| - 1];
      JournalReplay(front);
      MetaStaysOk(front);
      UpdateSurvives(Written(front), us[|us| - 1]);
    }
  }

  // ---- What does not survive ----

  lemma PerformTitle(m: Meta, cmd: Option<Word>, params: string)
    requires CleanText(m.title) && CleanText(params)
    ensures CleanText(Perform(m, cmd, params).title)
  {
  }

  lemma RestClean(l: string)
    requires OneLine(l)
    ensures CleanText(Rest(l))
  {
    var sep := IndexOf(l, ' ');
    if sep < |l| {
      TrimsText(l[sep + 1..]);
    }
  }

  lemma ExecTitleClean(m: Meta, line: string, l: string)
    requires CleanText(m.title) && l == Trim(line) && OneLine(l)
    ensures CleanText(Exec(m, line).title)
  {
    RestClean(l);
    PerformTitle(m, ParseWord(FirstWord(l)), Rest(l));
  }

  /** A loaded title never has spaces at its ends or line breaks. */
  lemma {:induction false} LoadedTitleClean(m: Meta, text: string)
    requires CleanText(m.title)
    ensures CleanText(LoadFrom(m, text).title)
    decreases |text|
  {
    if text != "" {
      var k := IndexOf(text, '\n');
      if k == |text| {
        assert text + "" == text;
        TrimsLine(text, "");
        ExecTitleClean(m, text, Trim(text));
      } else {
        assert text[..k] + "\n" == text[..k + 1];
        TrimsLine(text[..k], "\n");
        ExecTitleClean(m, text[..k + 1], Trim(text[..k + 1]));
        LoadedTitleClean(Exec(m, text[..k + 1]), text[k + 1..]);
      }
    }
  }

  /** The journal does not escape titles, so a new title is restored exactly if it is clean. */
  lemma TitleSurvivesIff(text: string, title: string)
    requires Ends(text) && MetaOk(Load(text))
    ensures Load(text + LineFor(Load(text), SetTitle(title))) == Apply(Load(text), SetTitle(title)) <==> CleanText(title)
  {
    LoadedTitleClean(INITIAL, text + LineFor(Load(text), SetTitle(title)));
    if CleanText(title) {
      UpdateSurvives(text, SetTitle(title));
    }
  }

  /** The text with one more entry. */
  predicate Adds(text: string, e: Entry, text': string) {
    text' == text + (Spelling(e.cmd) + " " + e.params + "\n")
  }

  lemma EntryLoadsTo(text: string, e: Entry, text': string, m: Meta)
    requires Ends(text) && CleanText(e.params) && Adds(text, e, text') && m == Interpret(Load(text), e.cmd, e.params)
    ensures Ends(text') && Load(text') == m
  {
    EntryLoads(text, Load(text), e);
  }

  lemma TitleLine(cmd: string, first: string, second: string, title: string)
    requires title == first + "\n" + second
    ensures cmd + " " + title + "\n" == (cmd + " " + first + "\n") + (second + "\n")
  {
  }

  lemma TitleWritten(m: Meta, title: string)
    requires OneLine(m.title) && !OneLine(title)
    ensures LineFor(m, SetTitle(title)) == Spelling(TitleWord) + " " + title + "\n"
  {
  }

  lemma TitleIsTwoLines(text: string, first: string, second: string, title: string, cmd: string)
    requires title == first + "\n" + second && cmd == Spelling(TitleWord)
    ensures LineFor(Load(text), SetTitle(title)) == (cmd + " " + first + "\n") + (second + "\n")
  {
    LoadedTitleClean(INITIAL, text);
    assert title[|first|] == '\n';
    TitleWritten(Load(text), title);
    TitleLine(cmd, first, second, title);
  }

  lemma Regroup(text: string, a: string, b: string)
    ensures text + (a + b) == text + a + b
  {
  }

  /** The reason is worse than a lost title: what follows a line break in it is read as an entry of its own,
      whatever it is. */
  lemma TitleActsAsEntry(text: string, first: string, w: Word, params: string, title: string, m: Meta, m': Meta)
    requires Ends(text) && CleanText(first) && CleanText(params)
    requires title == first + "\n" + (Spelling(w) + " " + params)
    requires m == Interpret(Load(text), TitleWord, first) && m' == Interpret(m, w, params)
    ensures Load(text + LineFor(Load(text), SetTitle(title))) == m'
  {
    var second := Spelling(w) + " " + params;
    var a := Spelling(TitleWord) + " " + first + "\n";
    TitleIsTwoLines(text, first, second, title, Spelling(TitleWord));
    Regroup(text, a, second + "\n");
    EntryLoadsTo(text, Entry(TitleWord, first), text + a, m);
    EntryLoadsTo(text + a, Entry(w, params), text + a + (second + "\n"), m');
  }

  /** For instance, a title can enter an account into the remembered operators. */
  lemma TitleMakesOperator(text: string, account: string, title: string)
    requires Ends(text) && CleanText(account) && account != ""
    requires title == "" + "\n" + (Spelling(OpWord) + " " + account)
    ensures account in Load(text + LineFor(Load(text), SetTitle(title))).ops
  {
    var m := Interpret(Load(text), TitleWord, "");
    TitleActsAsEntry(text, "", OpWord, account, title, m, Interpret(m, OpWord, account));
  }

  lemma {:induction false} JoinEmptyLast(fields: seq<string>)
    requires fields != []
    ensures Join(fields + [""]) == Join(fields) + " "
  {
    if |fields| == 1 {
      assert (fields + [""])[1..] == [""];
    } else {
      JoinEmptyLast(fields[1..]);
      assert (fields + [""])[1..] == fields[1..] + [""];
    }
  }

  lemma LineWithTail(cmd: string, params: string, end: string, body: string)
    requires body == cmd + " " + (params + end)
    ensures body + "\n" + "" == body + "\n" && body + "\n" == cmd + " " + params + (end + "\n")
  {
  }

  lemma EntryWithTail(text: string, m: Meta, w: Word, cmd: string, params: string, end: string)
    requires Ends(text) && Load(text) == m && cmd == Spelling(w) && CleanText(params) && Spaces(end) && OneLine(end)
    ensures Load(text + (cmd + " " + (params + end) + "\n")) == Interpret(m, w, params)
  {
    WordsStandAlone(w);
    var body := cmd + " " + (params + end);
    LoadOnwards(INITIAL, text, body + "\n");
    LoadLine(m, body, "");
    LineWithTail(cmd, params, end, body);
    ExecEntry(m, w, params, end + "\n");
  }

  lemma ShortBan(m: Meta, params: string)
    requires |Split(params)| != 5
    ensures Interpret(m, BanWord, params) == m
  {
  }

  /** Fewer fields than a ban needs, and spaces where the rest should be. */
  lemma ShortBanIgnored(text: string, m: Meta, cmd: string, fields: seq<string>, params: string, end: string)
    requires Ends(text) && Load(text) == m && cmd == Spelling(BanWord) && Spaces(end) && OneLine(end)
    requires CleanText(params) && Split(params) == fields && |fields| < 5
    ensures Load(text + (cmd + " " + (params + end) + "\n")) == m
  {
    EntryWithTail(text, m, BanWord, cmd, params, end);
    ShortBan(m, params);
  }

  /** The fields of a ban without an author, as far as they are left after trimming. */
  lemma AuthorlessFields(id: nat, u: Update) returns (fields: seq<string>, end: string)
    requires u.AddBan? && u.bannedBy == "" && !u.ip.NoAddress?
    ensures 1 < |fields| < 5 && AllNoSpace(fields) && fields[0] != "" && fields[|fields| - 1] != ""
    ensures Spaces(end) && OneLine(end)
    ensures Join(BanFields(id, u.username, u.ip, u.authId, u.bannedBy)) == Join(fields) + end
  {
    var all := BanFields(id, u.username, u.ip, u.authId, "");
    BanFieldsNoSpace(id, u.username, u.ip, u.authId, "");
    EncodedNoSpace(u.authId);
    DigitsSolid(id);
    assert all == all[..4] + [""];
    JoinEmptyLast(all[..4]);
    if u.authId == "" {
      assert all[..4] == all[..3] + [""];
      JoinEmptyLast(all[..3]);
      fields, end := all[..3], "  ";
      assert Join(all) == Join(all[..3]) + " " + " ";
    } else {
      fields, end := all[..4], " ";
    }
  }

  /** A ban is restored exactly if it names its author: without one, the trimmed line has a field too
      few and is skipped. The server bans in the name of a user, which is never empty, so this is what
      the format relies on rather than an input that gets lost. */
  lemma BanSurvivesIff(text: string, u: Update)
    requires Ends(text) && MetaOk(Load(text)) && u.AddBan? && !Refused(Load(text).bans, u.ip, u.authId, 0)
    requires IsBytes(u.username) && IsBytes(u.authId) && IsBytes(u.bannedBy)
    ensures Load(text + LineFor(Load(text), u)) == Apply(Load(text), u) <==> u.bannedBy != ""
  {
    var m := Load(text);
    if u.bannedBy != "" {
      UpdateSurvives(text, u);
    } else {
      var fields, end := AuthorlessFields(m.bans.counter + 1, u);
      JoinFields(fields);
      ShortBanIgnored(text, m, Spelling(BanWord), fields, Join(fields), end);
      assert LineFor(m, u) == Spelling(BanWord) + " " + (Join(fields) + end) + "\n";
      assert |Apply(m, u).bans.bans| == |m.bans.bans| + 1;
    }
  }

  // ---- The journal of one session ----

  /** The journal, loaded, gives the metadata in memory. */
  predicate InStep(m: Meta, text: string) {
    Ends(text) && MetaOk(m) && Load(text) == m
  }

  lemma StaysInStep(m: Meta, text: string, u: Update)
    requires InStep(m, text) && Clean(u)
    ensures InStep(Apply(m, u), text + LineFor(m, u))
  {
    UpdateSurvives(text, u);
    ApplyOk(m, u);
  }

  class SessionJournal {
    var meta: Meta
    var text: string

    /** What a restart would load is what is in memory. */
    ghost predicate Valid()
      reads this
    {
      InStep(meta, text)
    }

    constructor ()
      ensures Valid() && meta == INITIAL
    {
      meta, text := INITIAL, "";
    }

    /** Memory after an update, with the journal in step if it was and the update is clean. */
    twostate predicate Recorded(u: Update)
      reads this
    {
      meta == Apply(old(meta), u) && (old(Valid()) && Clean(u) ==> Valid())
    }

    method Write(w: Word, params: string)
      modifies `text
      ensures text == old(text) + (Spelling(w) + " " + params + "\n")
    {
      text := text + (Spelling(w) + " " + params + "\n");
    }

    /** Both sides of an update, given what was written. */
    twostate lemma Records(u: Update)
      requires meta == Apply(old(meta), u) && text == old(text) + LineFor(old(meta), u)
      ensures Recorded(u)
    {
      if old(Valid()) && Clean(u) {
        StaysInStep(old(meta), old(text), u);
      }
    }

    /** A new recording file, numbered one higher. */
    method InitRecording(filename: string)
      modifies this
      ensures Recorded(NewFile(filename))
    {
      meta := meta.(file := filename, fileCount := meta.fileCount + 1);
      Write(FileWord, filename);
      Records(NewFile(filename));
    }

    method SetMaxUsers(max: int)
      modifies this
      ensures Recorded(Update.SetMaxUsers(max))
      ensures 1 <= meta.maxUsers <= 254 && (if max < 1 then meta.maxUsers == 1 else meta.maxUsers == max || meta.maxUsers == 254 < max)
    {
      var newMax := Bound(max);
      if newMax != meta.maxUsers {
        meta := meta.(maxUsers := newMax);
        Write(MaxUsersWord, Digits(newMax));
      }
      Records(Update.SetMaxUsers(max));
    }

    /** The threshold is at most nine tenths of the size limit. */
    method SetAutoResetThreshold(limit: nat, sizeLimit: nat)
      modifies this
      ensures Recorded(SetThreshold(History.Clamp(sizeLimit, limit)))
      ensures meta.threshold == limit || (sizeLimit > 0 && meta.threshold == sizeLimit * 9 / 10 < limit)
      ensures sizeLimit > 0 ==> meta.threshold <= sizeLimit * 9 / 10
    {
      var newLimit := History.Clamp(sizeLimit, limit);
      if newLimit != meta.threshold {
        meta := meta.(threshold := newLimit);
        Write(AutoResetWord, Digits(newLimit));
      }
      Records(SetThreshold(newLimit));
    }

    method SetTitle(title: string)
      modifies this
      ensures Recorded(Update.SetTitle(title)) && meta.title == title
    {
      if title != meta.title {
        meta := meta.(title := title);
        Write(TitleWord, title);
      }
      Records(Update.SetTitle(title));
    }

    method SetFlags(flags: Flags)
      modifies this
      ensures Recorded(Update.SetFlags(flags)) && meta.flags == flags
    {
      if flags != meta.flags {
        meta := meta.(flags := flags);
        Write(FlagsWord, Join(FlagNames(flags)));
      }
      Records(Update.SetFlags(flags));
    }

    method JoinUser(id: nat, name: string)
      modifies this
      ensures Recorded(Update.JoinUser(id, name)) && meta.nameIds == old(meta.nameIds)[name := id]
    {
      meta := meta.(nameIds := meta.nameIds[name := id]);
      Write(UserWord, Digits(id) + " " + PercentEncode(name));
      Records(Update.JoinUser(id, name));
    }

    method AddBan(username: string, ip: Address, authId: string, bannedBy: string)
      modifies this
      ensures Recorded(Update.AddBan(username, ip, authId, bannedBy))
      ensures old(Refused(meta.bans, ip, authId, 0)) || Enters(old(meta.bans.bans), meta.bans.bans, username, ip, authId, bannedBy, 0)
    {
      if !Refused(meta.bans, ip, authId, 0) {
        var id := NewId(meta.bans, 0);
        meta := meta.(bans := Add(meta.bans, username, ip, authId, bannedBy, 0));
        Write(BanWord, Join(BanFields(id, username, ip, authId, bannedBy)));
      }
      Records(Update.AddBan(username, ip, authId, bannedBy));
    }

    method RemoveBan(id: nat)
      modifies this
      ensures Recorded(Update.RemoveBan(id))
    {
      if HasId(meta.bans.bans, id) {
        meta := meta.(bans := Remove(meta.bans, id));
        Write(UnbanWord, Digits(id));
      }
      Records(Update.RemoveBan(id));
    }

    method AddAnnouncement(url: string)
      modifies this
      ensures Recorded(Update.AddAnnouncement(url))
      ensures forall x :: x in meta.announcements <==> x in old(meta.announcements) || x == url
    {
      if url !in meta.announcements {
        meta := meta.(announcements := meta.announcements + [url]);
        Write(AnnounceWord, url);
      }
      Records(Update.AddAnnouncement(url));
    }

    method RemoveAnnouncement(url: string)
      modifies this
      ensures Recorded(Update.RemoveAnnouncement(url))
      ensures forall x :: x in meta.announcements <==> x in old(meta.announcements) && x != url
    {
      RemoveAllRemoves(meta.announcements, url);
      if url in meta.announcements {
        meta := meta.(announcements := RemoveAll(meta.announcements, url));
        Write(UnannounceWord, url);
      } else {
        RemoveAllAbsent(meta.announcements, url);
      }
      Records(Update.RemoveAnnouncement(url));
    }

    method SetAuthenticatedOperator(account: string, op: bool)
      modifies this
      ensures Recorded(SetOperator(account, op))
      ensures forall x :: x in meta.ops <==> if x == account != "" then op else x in old(meta.ops)
    {
      if account != "" && (account in meta.ops) != op {
        meta := meta.(ops := if op then meta.ops + {account} else meta.ops - {account});
        Write(if op then OpWord else DeopWord, account);
      } else {
        SameMembers(meta.ops, account, op);
      }
      Records(SetOperator(account, op));
    }

    method SetAuthenticatedTrust(user: string, trust: bool)
      modifies this
      ensures Recorded(SetTrust(user, trust))
      ensures forall x :: x in meta.trusted <==> if x == user != "" then trust else x in old(meta.trusted)
    {
      if user != "" && (user in meta.trusted) != trust {
        meta := meta.(trusted := if trust then meta.trusted + {user} else meta.trusted - {user});
        Write(if trust then TrustWord else UntrustWord, user);
      } else {
        SameMembers(meta.trusted, user, trust);
      }
      Records(SetTrust(user, trust));
    }
  }

  lemma SameMembers(members: set<string>, x: string, on: bool)
    requires x == "" || (x in members) == on
    ensures x != "" ==> (if on then members + {x} else members - {x}) == members
  {
  }

  /** Reading the journal line by line. */
  method LoadJournal(text: string) returns (m: Meta)
    ensures m == Load(text)
  {
    m := INITIAL;
    var rest := text;
    while rest != ""
      invariant LoadFrom(m, rest) == Load(text)
      decreases |rest|
    {
      var k := IndexOf(rest, '\n');
      var end := if k == |rest| then k else k + 1;
      m := Exec(m, rest[..end]);
      if k == |rest| {
        assert rest[..end] == rest;
      }
      rest := rest[end..];
    }
  }
}
