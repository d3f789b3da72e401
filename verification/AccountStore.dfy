/**
 The file store of distributed accounts: one JSON file and one avatar file per user under a
 common directory, written one after the other, and rebuilt when missing or oversized.
 */
module Decimals {
  import opened AccountTypes

  /** The value of a digit, or 10 for any other character. */
  function DigitValue(c: char): nat {
    if '0' <= c <= '9' then c as int - '0' as int else 10
  }

  function Digit(d: nat): (c: char)
    requires d < 10
    ensures DigitValue(c) == d
  {
    ('0' as int + d) as char
  }

  function DecimalOfNat(n: nat): (s: string)
    ensures s != "" && DigitValue(s[0]) < 10
  {
    if n < 10 then [Digit(n)] else DecimalOfNat(n / 10) + [Digit(n % 10)]
  }

  /** `std::to_string`, and the `%lld` form of a number. */
  function Decimal(n: int): string {
    if n < 0 then "-" + DecimalOfNat(-n) else DecimalOfNat(n)
  }

  function ParseNat(s: string): Option<nat> {
    if s == "" || DigitValue(s[|s| - 1]) == 10 then None
    else if |s| == 1 then Some(DigitValue(s[0]))
    else
      var front := ParseNat(s[..|s| - 1]);
      if front.None? then None else Some(front.value * 10 + DigitValue(s[|s| - 1]))
  }

  function ParseDecimal(s: string): Option<int> {
    if s != "" && s[0] == '-' then
      var n := ParseNat(s[1..]);
      if n.None? then None else Some(0 - n.value as int)
    else
      var n := ParseNat(s);
      if n.None? then None else Some(n.value)
  }

  lemma {:induction false} ParseNatOfDecimal(n: nat)
    ensures ParseNat(DecimalOfNat(n)) == Some(n)
  {
    var s := DecimalOfNat(n);
    if n >= 10 {
      ParseNatOfDecimal(n / 10);
      assert s[..|s| - 1] == DecimalOfNat(n / 10);
    }
  }

  lemma DecimalRoundTrip(n: int)
    ensures ParseDecimal(Decimal(n)) == Some(n)
  {
    if n < 0 {
      ParseNatOfDecimal(-n);
      assert Decimal(n)[1..] == DecimalOfNat(-n);
    } else {
      ParseNatOfDecimal(n);
    }
  }

  lemma DecimalIsInjective(m: int, n: int)
    ensures Decimal(m) == Decimal(n) <==> m == n
  {
    DecimalRoundTrip(m);
    DecimalRoundTrip(n);
  }
}

module AccountStoreSpec {
  import opened AccountTypes
  import opened Decimals

  const MAX_ACCOUNT_JSON_FILE_SIZE := 16 * 1024 * 1024
  const MAX_RETRY_TIMES := 2
  const INPUT_FILE_ERROR: Failure := IoError(30)
  const JSON_FILE_CORRUPTION: Failure := IoError(31)
  const NOT_READY: Failure := IoError(32)

  datatype Key =
    | Version | BindTime | CreateTime | UserId | Name | RawUid | OpenId | Status | CallingUid
    | Nickname | Avatar | ScalableData | Unknown(name: string)

  datatype Json = Num(num: int) | Text(text: string) | Other

  type Fields = map<Key, Json>

  /** A file: its text, and the object that the text parses to, if it is one. */
  datatype File = File(text: string, json: Option<Fields>)

  type Disk = map<string, File>

  /** Where a user's account and avatar are. */
  datatype Paths = Paths(config: string, avatar: string)

  function PathsOf(dir: string, userId: int): Paths {
    Paths(dir + Decimal(userId) + "/account.json", dir + Decimal(userId) + "/account_avatar")
  }

  predicate Distinct(p: Paths) {
    p.config != p.avatar
  }

  /** No file of one is a file of the other. */
  predicate Apart(p: Paths, q: Paths) {
    p.config != q.config && p.config != q.avatar && p.avatar != q.config && p.avatar != q.avatar
  }

  /** Different users never share a file, nor does one user's account file double as an avatar. */
  lemma PathsAreApart(dir: string, u: int, v: int)
    ensures Distinct(PathsOf(dir, u))
    ensures Apart(PathsOf(dir, u), PathsOf(dir, v)) <==> u != v
  {
    var p, q := PathsOf(dir, u), PathsOf(dir, v);
    assert p.config[|p.config| - 1] == 'n' && q.config[|q.config| - 1] == 'n';
    assert p.avatar[|p.avatar| - 1] == 'r' && q.avatar[|q.avatar| - 1] == 'r';
    DecimalIsInjective(u, v);
    if p.config == q.config {
      Middle(dir, Decimal(u), Decimal(v), "/account.json");
    }
    if p.avatar == q.avatar {
      Middle(dir, Decimal(u), Decimal(v), "/account_avatar");
    }
  }

  lemma Middle(prefix: string, x: string, y: string, suffix: string)
    requires prefix + x + suffix == prefix + y + suffix
    ensures x == y
  {
    assert x == (prefix + x + suffix)[|prefix|..|prefix| + |x|];
    assert |x| == |y|;
    assert y == (prefix + y + suffix)[|prefix|..|prefix| + |y|];
  }

  /** The JSON object of an account; the avatar is not in it. */
  function Serialize(info: AccountInfo): Fields {
    map[
      Version := Num(ToInt32(info.version)),
      BindTime := Num(ToInt32(info.bindTime)),
      CreateTime := Text(Decimal(info.createTime)),
      UserId := Num(ToInt32(info.userId)),
      Name := Text(CText(info.ohos.name)),
      RawUid := Text(CText(info.ohos.rawUid)),
      OpenId := Text(CText(info.ohos.uid)),
      Status := Num(ToInt32(info.ohos.status)),
      CallingUid := Num(ToInt32(info.ohos.callingUid)),
      Nickname := Text(CText(info.ohos.nickname)),
      ScalableData := Text(CText(info.ohos.scalableData))]
  }

  function IntField(json: Fields, key: Key, current: int): int {
    if key in json && json[key].Num? then ToInt32(json[key].num) else current
  }

  function TimeField(json: Fields, key: Key, current: int): int {
    if key in json && json[key].Num? then json[key].num else current
  }

  function Int64Field(json: Fields, key: Key, current: int): int {
    if key !in json then current
    else match json[key]
      case Num(n) => n
      case Text(s) =>
        var n := ParseDecimal(s);
        if n.Some? && -0x8000_0000_0000_0000 <= n.value < 0x8000_0000_0000_0000 then n.value else current
      case Other => current
  }

  function TextField(json: Fields, key: Key, current: string): string {
    if key in json && json[key].Text? then json[key].text else current
  }

  /** What is read into an account that holds `current`: absent or mistyped fields stay. */
  function Deserialize(json: Fields, current: AccountInfo, userId: int): AccountInfo {
    AccountInfo(
      OhosAccountInfo(
        TextField(json, Name, current.ohos.name),
        TextField(json, OpenId, current.ohos.uid),
        TextField(json, RawUid, current.ohos.rawUid),
        IntField(json, Status, current.ohos.status),
        IntField(json, CallingUid, current.ohos.callingUid),
        TextField(json, Nickname, current.ohos.nickname),
        TextField(json, Avatar, current.ohos.avatar),
        TextField(json, ScalableData, current.ohos.scalableData)),
      TimeField(json, BindTime, current.bindTime),
      userId,
      IntField(json, Version, current.version),
      Int64Field(json, CreateTime, current.createTime))
  }

  /** A write: the content is there afterwards, under whatever code (changing the mode may fail), or it is not. */
  datatype Write = Written(err: ErrCode) | NotWritten(failure: Failure)

  function WriteErr(w: Write): ErrCode {
    if w.Written? then w.err else w.failure
  }

  function AfterWrite(disk: Disk, path: string, file: File, w: Write): Disk {
    if w.Written? then disk[path := file] else disk
  }

  /** How saving goes; `packed` is the text of the JSON object. */
  datatype SaveIo = SaveIo(avatar: Write, config: Write, packed: string)

  datatype Saved = Saved(disk: Disk, err: ErrCode)

  function Save(p: Paths, disk: Disk, info: AccountInfo, io: SaveIo): Saved {
    var disk1 := AfterWrite(disk, p.avatar, File(info.ohos.avatar, None), io.avatar);
    if WriteErr(io.avatar) != ERR_OK then Saved(disk1, WriteErr(io.avatar))
    else Saved(AfterWrite(disk1, p.config, File(io.packed, Some(Serialize(info))), io.config), WriteErr(io.config))
  }

  function Build(p: Paths, disk: Disk, userId: int, now: int, io: SaveIo): Disk {
    Save(p, disk, DefaultAccount(userId, now), io).disk
  }

  predicate Oversized(disk: Disk, path: string) {
    path in disk && |disk[path].text| > MAX_ACCOUNT_JSON_FILE_SIZE
  }

  function Removed(disk: Disk, path: string, ok: bool): Disk {
    if ok then disk - {path} else disk
  }

  /** The avatar of an old file stays; otherwise the avatar file's content is put in, if it can be read. */
  function FillAvatar(p: Paths, disk: Disk, json: Fields, readable: bool): Fields {
    if Avatar in json then json
    else if p.avatar in disk && readable then json[Avatar := Text(CText(disk[p.avatar].text))]
    else json
  }

  datatype LoadIo = LoadIo(now: int, statFails: bool, build: SaveIo, remove: bool, rebuild: SaveIo,
                           open: bool, readAvatar: bool)

  datatype Loaded = Loaded(disk: Disk, result: Result<AccountInfo>)

  /** The account file is made if it is missing. */
  function Made(p: Paths, disk: Disk, userId: int, now: int, build: SaveIo): Disk {
    if p.config in disk then disk else Build(p, disk, userId, now, build)
  }

  /** The account file is made again if it is too large. */
  function Shrunk(p: Paths, disk: Disk, userId: int, now: int, remove: bool, rebuild: SaveIo): Disk {
    if Oversized(disk, p.config) then Build(p, Removed(disk, p.config, remove), userId, now, rebuild) else disk
  }

  datatype Parsed = Parsed(disk: Disk, result: Result<Fields>)

  /** From the account file to a JSON object with the avatar in it. */
  function Parse(p: Paths, disk: Disk, userId: int, io: LoadIo): Parsed {
    if Oversized(disk, p.config) && !io.remove then Parsed(disk, Err(INPUT_FILE_ERROR))
    else
      var disk1 := Shrunk(p, disk, userId, io.now, io.remove, io.rebuild);
      if p.config !in disk1 || !io.open then Parsed(disk1, Err(INPUT_FILE_ERROR))
      else if disk1[p.config].json.None? then Parsed(disk1, Err(JSON_FILE_CORRUPTION))
      else Parsed(disk1, Ok(FillAvatar(p, disk1, disk1[p.config].json.value, io.readAvatar)))
  }

  function Load(p: Paths, disk: Disk, current: AccountInfo, userId: int, io: LoadIo): Loaded {
    if userId < 0 then Loaded(disk, Err(InvalidId))
    else if io.statFails then Loaded(disk, Err(INPUT_FILE_ERROR))
    else
      var parsed := Parse(p, Made(p, disk, userId, io.now, io.build), userId, io);
      Loaded(parsed.disk, if parsed.result.Err? then Err(parsed.result.error)
                          else Ok(Deserialize(parsed.result.value, current, userId)))
  }

  datatype InitIo = InitIo(now: int, build: SaveIo, remove: bool, rebuild: SaveIo, open: bool, removeBad: bool)

  datatype Inited = Inited(disk: Disk, err: ErrCode)

  function Init(p: Paths, disk: Disk, userId: int, io: InitIo): Inited {
    var disk1 := Shrunk(p, Made(p, disk, userId, io.now, io.build), userId, io.now, io.remove, io.rebuild);
    if p.config !in disk1 || !io.open then Inited(disk1, INPUT_FILE_ERROR)
    else if disk1[p.config].json.None? then Inited(Removed(disk1, p.config, io.removeBad), JSON_FILE_CORRUPTION)
    else Inited(disk1, ERR_OK)
  }

  /** The service's first use of the store: another try, once, after a corrupted file. */
  datatype Started = Started(disk: Disk, ok: bool, tries: nat)

  function StartUp(p: Paths, disk: Disk, userId: int, first: InitIo, second: InitIo): Started {
    var a := Init(p, disk, userId, first);
    if a.err == ERR_OK then Started(a.disk, true, 1)
    else if a.err != JSON_FILE_CORRUPTION then Started(a.disk, false, 1)
    else
      var b := Init(p, a.disk, userId, second);
      Started(b.disk, b.err == ERR_OK, 2)
  }

  // Laws.

  predicate GoodSave(io: SaveIo) {
    io.avatar == Written(ERR_OK) && io.config == Written(ERR_OK) && |io.packed| <= MAX_ACCOUNT_JSON_FILE_SIZE
  }

  predicate GoodLoad(io: LoadIo) {
    !io.statFails && io.remove && io.open && io.readAvatar && GoodSave(io.build) && GoodSave(io.rebuild)
  }

  predicate GoodInit(io: InitIo) {
    io.remove && io.open && io.removeBad && GoodSave(io.build) && GoodSave(io.rebuild)
  }

  /** The widths of the fields; `bindTime` is a 64-bit time. */
  predicate Wide(info: AccountInfo) {
    && ToInt32(info.version) == info.version && ToInt32(info.userId) == info.userId
    && ToInt32(info.ohos.status) == info.ohos.status && ToInt32(info.ohos.callingUid) == info.ohos.callingUid
    && -0x8000_0000_0000_0000 <= info.createTime < 0x8000_0000_0000_0000
  }

  predicate HasNul(info: AccountInfo) {
    || '\0' in info.ohos.name || '\0' in info.ohos.uid || '\0' in info.ohos.rawUid
    || '\0' in info.ohos.nickname || '\0' in info.ohos.avatar || '\0' in info.ohos.scalableData
  }

  /** What a record has become once saved and loaded. */
  function Persisted(info: AccountInfo): AccountInfo {
    var o := info.ohos;
    info.(ohos := o.(name := CText(o.name), uid := CText(o.uid), rawUid := CText(o.rawUid),
                     nickname := CText(o.nickname), avatar := CText(o.avatar), scalableData := CText(o.scalableData)),
          bindTime := ToInt32(info.bindTime))
  }

  /** What is serialised reads back, whatever the account read into held before. */
  lemma DeserializeSerialized(info: AccountInfo, current: AccountInfo)
    requires Wide(info)
    ensures
      var json := Serialize(info)[Avatar := Text(CText(info.ohos.avatar))];
      Deserialize(json, current, info.userId) == Persisted(info)
  {
    DecimalRoundTrip(info.createTime);
  }

  lemma SaveThenLoad(p: Paths, disk: Disk, info: AccountInfo, current: AccountInfo, io: SaveIo, loadIo: LoadIo)
    requires Distinct(p) && GoodSave(io) && GoodLoad(loadIo) && Wide(info) && info.userId >= 0
    ensures Load(p, Save(p, disk, info, io).disk, current, info.userId, loadIo).result == Ok(Persisted(info))
  {
    SaveThenParse(p, disk, info, io, loadIo);
    DeserializeSerialized(info, current);
  }

  lemma SaveThenParse(p: Paths, disk: Disk, info: AccountInfo, io: SaveIo, loadIo: LoadIo)
    requires Distinct(p) && GoodSave(io) && GoodLoad(loadIo)
    ensures
      var disk' := Save(p, disk, info, io).disk;
      && p.config in disk'
      && Parse(p, disk', info.userId, loadIo).result == Ok(Serialize(info)[Avatar := Text(CText(info.ohos.avatar))])
  {
    var disk', fields := Save(p, disk, info, io).disk, Serialize(info);
    assert disk'[p.config] == File(io.packed, Some(fields)) && disk'[p.avatar].text == info.ohos.avatar;
    assert Avatar !in fields;
  }

  /** The same record comes back exactly when its bind time fits 32 bits and no text holds a NUL. */
  lemma RoundTrip(dir: string, disk: Disk, info: AccountInfo, current: AccountInfo, io: SaveIo, loadIo: LoadIo)
    requires GoodSave(io) && GoodLoad(loadIo) && Wide(info) && info.userId >= 0
    ensures
      var p := PathsOf(dir, info.userId);
      Load(p, Save(p, disk, info, io).disk, current, info.userId, loadIo).result == Ok(info) <==>
        -0x8000_0000 <= info.bindTime < 0x8000_0000 && !HasNul(info)
  {
    PathsAreApart(dir, info.userId, info.userId);
    SaveThenLoad(PathsOf(dir, info.userId), disk, info, current, io, loadIo);
    PersistedMeaning(info);
  }

  lemma PersistedMeaning(info: AccountInfo)
    ensures Persisted(info) == info <==> -0x8000_0000 <= info.bindTime < 0x8000_0000 && !HasNul(info)
  {
    var o := info.ohos;
    CTextMeaning(o.name);
    CTextMeaning(o.uid);
    CTextMeaning(o.rawUid);
    CTextMeaning(o.nickname);
    CTextMeaning(o.avatar);
    CTextMeaning(o.scalableData);
  }

  /** What a save writes and answers: the picture first, the account only after a picture without complaint. */
  lemma SaveMeaning(p: Paths, disk: Disk, info: AccountInfo, io: SaveIo)
    requires Distinct(p)
    ensures
      var r := Save(p, disk, info, io);
      var goesOn := WriteErr(io.avatar) == ERR_OK;
      && r.err == (if goesOn then WriteErr(io.config) else WriteErr(io.avatar))
      && (io.avatar.Written? ==> p.avatar in r.disk && r.disk[p.avatar].text == info.ohos.avatar)
      && (goesOn && io.config.Written? ==>
            p.config in r.disk && r.disk[p.config] == File(io.packed, Some(Serialize(info))))
      && (!io.avatar.Written? ==> SameAt(p.avatar, disk, r.disk))
      && (!(goesOn && io.config.Written?) ==> SameAt(p.config, disk, r.disk))
  {
  }

  /** Which error a load gets before it looks at what the account file says; nothing is touched then. */
  lemma LoadRefuses(p: Paths, disk: Disk, current: AccountInfo, userId: int, io: LoadIo)
    ensures
      var r := Load(p, disk, current, userId, io);
      && (userId < 0 ==> r == Loaded(disk, Err(InvalidId)))
      && (userId >= 0 && io.statFails ==> r == Loaded(disk, Err(INPUT_FILE_ERROR)))
      && (userId >= 0 && !io.open ==> r.result == Err(INPUT_FILE_ERROR))
      && (userId >= 0 && Oversized(disk, p.config) && !io.remove ==> r == Loaded(disk, Err(INPUT_FILE_ERROR)))
  {
  }

  /**
   A user without an account file, or with one that is too large, gets a default account: the load
   makes the file and returns what it holds, and loading again returns the same from then on.
   */
  lemma LoadMakesWhatIsMissing(dir: string, disk: Disk, userId: int, current: AccountInfo, io: LoadIo,
                               again: AccountInfo, io': LoadIo)
    requires 0 <= userId < 0x8000_0000 && -0x8000_0000_0000_0000 <= io.now < 0x8000_0000_0000_0000
    requires GoodLoad(io) && GoodLoad(io')
    requires var p := PathsOf(dir, userId); p.config !in disk || |disk[p.config].text| > MAX_ACCOUNT_JSON_FILE_SIZE
    ensures
      var p := PathsOf(dir, userId);
      var first := Load(p, disk, current, userId, io);
      && first.result == Ok(DefaultAccount(userId, io.now))
      && Healthy(first.disk, p.config)
      && Load(p, first.disk, again, userId, io') == Loaded(first.disk, first.result)
  {
    var p := PathsOf(dir, userId);
    PathsAreApart(dir, userId, userId);
    if p.config in disk {
      RebuiltLoads(p, disk, userId, current, io);
      BuiltLoads(p, disk - {p.config}, userId, io.now, io.rebuild, current, io);
      BuiltLoads(p, disk - {p.config}, userId, io.now, io.rebuild, again, io');
    } else {
      MadeLoads(p, disk, userId, current, io);
      BuiltLoads(p, disk, userId, io.now, io.build, current, io);
      BuiltLoads(p, disk, userId, io.now, io.build, again, io');
    }
  }

  /** A missing account file is made first, and then loaded. */
  lemma MadeLoads(p: Paths, disk: Disk, userId: int, current: AccountInfo, io: LoadIo)
    requires userId >= 0 && GoodLoad(io) && p.config !in disk
    ensures Load(p, disk, current, userId, io) ==
            Load(p, Build(p, disk, userId, io.now, io.build), current, userId, io)
  {
    BuildMakesAnAccount(p, disk, userId, io.now, io.build);
  }

  /** One that is too large is removed and made again first. */
  lemma RebuiltLoads(p: Paths, disk: Disk, userId: int, current: AccountInfo, io: LoadIo)
    requires userId >= 0 && GoodLoad(io) && Oversized(disk, p.config)
    ensures Load(p, disk, current, userId, io) ==
            Load(p, Build(p, disk - {p.config}, userId, io.now, io.rebuild), current, userId, io)
  {
    var made := Build(p, disk - {p.config}, userId, io.now, io.rebuild);
    BuildMakesAnAccount(p, disk - {p.config}, userId, io.now, io.rebuild);
    RebuiltParses(p, disk, made, userId, io);
  }

  lemma RebuiltParses(p: Paths, disk: Disk, made: Disk, userId: int, io: LoadIo)
    requires io.remove && Oversized(disk, p.config)
    requires Shrunk(p, disk, userId, io.now, true, io.rebuild) == made && Healthy(made, p.config)
    ensures Parse(p, disk, userId, io) == Parse(p, made, userId, io)
  {
  }

  lemma BuiltLoads(p: Paths, disk: Disk, userId: int, now: int, build: SaveIo, current: AccountInfo, io: LoadIo)
    requires Distinct(p) && GoodSave(build) && GoodLoad(io)
    requires 0 <= userId < 0x8000_0000 && -0x8000_0000_0000_0000 <= now < 0x8000_0000_0000_0000
    ensures
      var made := Build(p, disk, userId, now, build);
      Healthy(made, p.config) && Load(p, made, current, userId, io) == Loaded(made, Ok(DefaultAccount(userId, now)))
  {
    DefaultPersists(userId, now);
    BuildMakesAnAccount(p, disk, userId, now, build);
    SaveThenLoad(p, disk, DefaultAccount(userId, now), current, build, io);
    LoadReadsWhatIsThere(p, Build(p, disk, userId, now, build), userId, current, io);
  }

  lemma DefaultPersists(userId: int, now: int)
    requires 0 <= userId < 0x8000_0000 && -0x8000_0000_0000_0000 <= now < 0x8000_0000_0000_0000
    ensures Wide(DefaultAccount(userId, now)) && Persisted(DefaultAccount(userId, now)) == DefaultAccount(userId, now)
  {
    DefaultHasNoNul(userId, now);
    PersistedMeaning(DefaultAccount(userId, now));
    Narrow(userId);
    Narrow(DEFAULT_CALLING_UID);
  }

  lemma Narrow(n: int)
    requires -0x8000_0000 <= n < 0x8000_0000
    ensures ToInt32(n) == n
  {
  }

  lemma DefaultHasNoNul(userId: int, now: int)
    ensures !HasNul(DefaultAccount(userId, now))
  {
  }

  /**
   What a load makes of an account file that is there and fits: it leaves both files alone, and
   refuses text that is no JSON object; the picture is the file's own if it has one, else the
   avatar file's as far as its first NUL.
   */
  lemma LoadReadsWhatIsThere(p: Paths, disk: Disk, userId: int, current: AccountInfo, io: LoadIo)
    requires userId >= 0 && !io.statFails && io.open
    requires p.config in disk && |disk[p.config].text| <= MAX_ACCOUNT_JSON_FILE_SIZE
    ensures
      var r := Load(p, disk, current, userId, io);
      && r.disk == disk
      && (r.result.Err? <==> disk[p.config].json.None?)
      && (r.result.Err? ==> r.result.error == JSON_FILE_CORRUPTION)
      && (r.result.Ok? ==>
            var json, loaded := disk[p.config].json.value, r.result.value;
            && loaded.userId == userId
            && (Name in json && json[Name].Text? ==> loaded.ohos.name == json[Name].text)
            && (OpenId in json && json[OpenId].Text? ==> loaded.ohos.uid == json[OpenId].text)
            && (Avatar in json && json[Avatar].Text? ==> loaded.ohos.avatar == json[Avatar].text)
            && (Avatar !in json && p.avatar in disk && io.readAvatar ==>
                  loaded.ohos.avatar == CText(disk[p.avatar].text))
            && (Avatar !in json && !(p.avatar in disk && io.readAvatar) ==> loaded.ohos.avatar == current.ohos.avatar))
  {
  }

  /**
   A save that fails on the account file has already replaced the avatar: what is loaded
   afterwards is the earlier record with the new picture.
   */
  lemma FailedSaveChangesTheAvatar(dir: string, disk: Disk, earlier: AccountInfo, info: AccountInfo,
                                   current: AccountInfo, before: SaveIo, io: SaveIo, loadIo: LoadIo)
    requires GoodSave(before) && GoodLoad(loadIo) && Wide(earlier) && earlier.userId == info.userId >= 0
    requires io.avatar == Written(ERR_OK) && io.config.NotWritten?
    ensures
      var p := PathsOf(dir, info.userId);
      var saved := Save(p, Save(p, disk, earlier, before).disk, info, io);
      && saved.err != ERR_OK
      && Load(p, saved.disk, current, info.userId, loadIo).result
         == Ok(Persisted(earlier.(ohos := earlier.ohos.(avatar := info.ohos.avatar))))
  {
    var mixed := earlier.(ohos := earlier.ohos.(avatar := info.ohos.avatar));
    var p := PathsOf(dir, info.userId);
    PathsAreApart(dir, info.userId, info.userId);
    AvatarFirst(p, disk, earlier, info, before, io);
    SaveThenLoad(p, disk, mixed, current, before, loadIo);
  }

  lemma AvatarFirst(p: Paths, disk: Disk, earlier: AccountInfo, info: AccountInfo, before: SaveIo, io: SaveIo)
    requires Distinct(p) && GoodSave(before) && io.avatar == Written(ERR_OK) && io.config.NotWritten?
    ensures
      var mixed := earlier.(ohos := earlier.ohos.(avatar := info.ohos.avatar));
      Save(p, Save(p, disk, earlier, before).disk, info, io).disk == Save(p, disk, mixed, before).disk
  {
    var mixed := earlier.(ohos := earlier.ohos.(avatar := info.ohos.avatar));
    var picture, fields := File(info.ohos.avatar, None), File(before.packed, Some(Serialize(earlier)));
    assert Serialize(mixed) == Serialize(earlier);
    assert Save(p, disk, mixed, before).disk == disk[p.avatar := picture][p.config := fields];
    assert Save(p, disk, earlier, before).disk == disk[p.avatar := File(earlier.ohos.avatar, None)][p.config := fields];
    PictureReplaced(disk, p, File(earlier.ohos.avatar, None), fields, picture);
  }

  lemma PictureReplaced(disk: Disk, p: Paths, older: File, fields: File, newer: File)
    requires Distinct(p)
    ensures disk[p.avatar := older][p.config := fields][p.avatar := newer] ==
            disk[p.avatar := newer][p.config := fields]
  {
  }

  // One user's files and another's.

  datatype Op =
    | SaveOp(info: AccountInfo, io: SaveIo)
    | LoadOp(current: AccountInfo, userId: int, loadIo: LoadIo)
    | InitOp(userId: int, initIo: InitIo)

  function UserOf(op: Op): int {
    if op.SaveOp? then op.info.userId else op.userId
  }

  function Apply(p: Paths, disk: Disk, op: Op): Disk {
    match op
    case SaveOp(info, io) => Save(p, disk, info, io).disk
    case LoadOp(current, userId, io) => Load(p, disk, current, userId, io).disk
    case InitOp(userId, io) => Init(p, disk, userId, io).disk
  }

  function Run(dir: string, disk: Disk, ops: seq<Op>): Disk
    decreases |ops|
  {
    if ops == [] then disk else Run(dir, Apply(PathsOf(dir, UserOf(ops[0])), disk, ops[0]), ops[1..])
  }

  predicate SameAt(path: string, a: Disk, b: Disk) {
    (path in a <==> path in b) && (path in a ==> a[path] == b[path])
  }

  /** The two disks hold the same files at `q`. */
  predicate SameFor(q: Paths, a: Disk, b: Disk) {
    SameAt(q.config, a, b) && SameAt(q.avatar, a, b)
  }

  lemma SaveIsolates(p: Paths, q: Paths, disk: Disk, info: AccountInfo, io: SaveIo)
    requires Apart(p, q)
    ensures SameFor(q, disk, Save(p, disk, info, io).disk)
  {
  }

  lemma MadeIsolates(p: Paths, q: Paths, disk: Disk, userId: int, now: int, build: SaveIo)
    requires Apart(p, q)
    ensures SameFor(q, disk, Made(p, disk, userId, now, build))
  {
    SaveIsolates(p, q, disk, DefaultAccount(userId, now), build);
  }

  lemma ShrunkIsolates(p: Paths, q: Paths, disk: Disk, userId: int, now: int, remove: bool, rebuild: SaveIo)
    requires Apart(p, q)
    ensures SameFor(q, disk, Shrunk(p, disk, userId, now, remove, rebuild))
  {
    SaveIsolates(p, q, Removed(disk, p.config, remove), DefaultAccount(userId, now), rebuild);
  }

  lemma LoadIsolates(p: Paths, q: Paths, disk: Disk, current: AccountInfo, userId: int, io: LoadIo)
    requires Apart(p, q)
    ensures SameFor(q, disk, Load(p, disk, current, userId, io).disk)
  {
    MadeIsolates(p, q, disk, userId, io.now, io.build);
    ShrunkIsolates(p, q, Made(p, disk, userId, io.now, io.build), userId, io.now, io.remove, io.rebuild);
  }

  lemma InitIsolates(p: Paths, q: Paths, disk: Disk, userId: int, io: InitIo)
    requires Apart(p, q)
    ensures SameFor(q, disk, Init(p, disk, userId, io).disk)
  {
    MadeIsolates(p, q, disk, userId, io.now, io.build);
    ShrunkIsolates(p, q, Made(p, disk, userId, io.now, io.build), userId, io.now, io.remove, io.rebuild);
  }

  lemma StepIsolates(p: Paths, q: Paths, disk: Disk, op: Op)
    requires Apart(p, q)
    ensures SameFor(q, disk, Apply(p, disk, op))
  {
    match op {
      case SaveOp(info, io) => SaveIsolates(p, q, disk, info, io);
      case LoadOp(current, userId, io) => LoadIsolates(p, q, disk, current, userId, io);
      case InitOp(userId, io) => InitIsolates(p, q, disk, userId, io);
    }
  }

  lemma {:induction false} RunIsolates(dir: string, disk: Disk, ops: seq<Op>, v: int)
    requires forall op | op in ops :: UserOf(op) != v
    ensures SameFor(PathsOf(dir, v), disk, Run(dir, disk, ops))
    decreases |ops|
  {
    if ops != [] {
      var p := PathsOf(dir, UserOf(ops[0]));
      PathsAreApart(dir, UserOf(ops[0]), v);
      StepIsolates(p, PathsOf(dir, v), disk, ops[0]);
      RunIsolates(dir, Apply(p, disk, ops[0]), ops[1..], v);
    }
  }

  lemma SaveReadsItsOwn(p: Paths, a: Disk, b: Disk, info: AccountInfo, io: SaveIo)
    requires SameFor(p, a, b)
    ensures SameFor(p, Save(p, a, info, io).disk, Save(p, b, info, io).disk)
  {
  }

  lemma ParseReadsItsOwn(p: Paths, a: Disk, b: Disk, userId: int, io: LoadIo)
    requires SameFor(p, a, b)
    ensures Parse(p, a, userId, io).result == Parse(p, b, userId, io).result
  {
    SaveReadsItsOwn(p, Removed(a, p.config, io.remove), Removed(b, p.config, io.remove),
                    DefaultAccount(userId, io.now), io.rebuild);
  }

  lemma LoadReadsItsOwn(p: Paths, a: Disk, b: Disk, current: AccountInfo, v: int, io: LoadIo)
    requires SameFor(p, a, b)
    ensures Load(p, a, current, v, io).result == Load(p, b, current, v, io).result
  {
    SaveReadsItsOwn(p, a, b, DefaultAccount(v, io.now), io.build);
    ParseReadsItsOwn(p, Made(p, a, v, io.now, io.build), Made(p, b, v, io.now, io.build), v, io);
  }

  /** Whatever is saved, loaded or initialised for others, failing or not, a user loads what it would have loaded. */
  lemma OthersDoNotMatter(dir: string, disk: Disk, ops: seq<Op>, current: AccountInfo, v: int, io: LoadIo)
    requires forall op | op in ops :: UserOf(op) != v
    ensures Load(PathsOf(dir, v), Run(dir, disk, ops), current, v, io).result
            == Load(PathsOf(dir, v), disk, current, v, io).result
  {
    RunIsolates(dir, disk, ops, v);
    LoadReadsItsOwn(PathsOf(dir, v), disk, Run(dir, disk, ops), current, v, io);
  }

  // Start-up.

  predicate IsAccount(disk: Disk, path: string) {
    path in disk && disk[path].json.Some?
  }

  predicate Healthy(disk: Disk, path: string) {
    IsAccount(disk, path) && !Oversized(disk, path)
  }

  /** Text of acceptable size that is no JSON object. */
  predicate Corrupted(disk: Disk, path: string) {
    path in disk && disk[path].json.None? && !Oversized(disk, path)
  }

  lemma BuildMakesAnAccount(p: Paths, disk: Disk, userId: int, now: int, io: SaveIo)
    requires GoodSave(io)
    ensures
      var disk' := Build(p, disk, userId, now, io);
      Healthy(disk', p.config) && disk'[p.config].json.value == Serialize(DefaultAccount(userId, now))
  {
  }

  lemma InitRepairs(p: Paths, disk: Disk, userId: int, io: InitIo)
    requires GoodInit(io)
    ensures
      var disk' := Shrunk(p, Made(p, disk, userId, io.now, io.build), userId, io.now, io.remove, io.rebuild);
      && (Healthy(disk, p.config) || Corrupted(disk, p.config) ==> disk' == disk)
      && (!Healthy(disk, p.config) && !Corrupted(disk, p.config) ==>
            Healthy(disk', p.config) && disk'[p.config].json.value == Serialize(DefaultAccount(userId, io.now)))
  {
    BuildMakesAnAccount(p, disk, userId, io.now, io.build);
    BuildMakesAnAccount(p, disk - {p.config}, userId, io.now, io.rebuild);
  }

  /**
   Whatever the account file holds, start-up ends initialised: at the second try exactly when the
   file was corrupted, leaving a healthy file as it was and otherwise a default account.
   */
  lemma StartUpRepairs(dir: string, disk: Disk, userId: int, first: InitIo, second: InitIo)
    requires GoodInit(first) && GoodInit(second)
    ensures
      var p := PathsOf(dir, userId);
      var s := StartUp(p, disk, userId, first, second);
      && s.ok && Healthy(s.disk, p.config)
      && s.tries == (if Corrupted(disk, p.config) then 2 else 1)
      && (Healthy(disk, p.config) ==> s.disk == disk)
      && (!Healthy(disk, p.config) ==>
            var now := if Corrupted(disk, p.config) then second.now else first.now;
            s.disk[p.config].json.value == Serialize(DefaultAccount(userId, now)))
  {
    var p := PathsOf(dir, userId);
    InitRepairs(p, disk, userId, first);
    InitRepairs(p, disk - {p.config}, userId, second);
  }

  /** Start-up says it succeeded only with an account file in place, however the file operations went. */
  lemma StartUpIsHonest(p: Paths, disk: Disk, userId: int, first: InitIo, second: InitIo)
    ensures
      var s := StartUp(p, disk, userId, first, second);
      && 1 <= s.tries <= MAX_RETRY_TIMES && (s.ok ==> IsAccount(s.disk, p.config))
      && (!first.open ==> s.tries == 1 && !s.ok)
      && (s.tries == 2 && !second.open ==> !s.ok)
  {
  }

  predicate LoadsOnly(ops: seq<Op>) {
    forall op | op in ops :: op.LoadOp?
  }

  /** A corrupted file is repaired by start-up and by saving, but by no number of loads. */
  lemma {:induction false} LoadingNeverRepairs(dir: string, disk: Disk, ops: seq<Op>, current: AccountInfo, v: int,
                                               io: LoadIo)
    requires LoadsOnly(ops) && Corrupted(disk, PathsOf(dir, v).config) && v >= 0 && !io.statFails && io.open
    ensures Load(PathsOf(dir, v), Run(dir, disk, ops), current, v, io).result == Err(JSON_FILE_CORRUPTION)
    decreases |ops|
  {
    if ops != [] {
      var op, q := ops[0], PathsOf(dir, v);
      assert op in ops && op.LoadOp?;
      var disk1 := Apply(PathsOf(dir, UserOf(op)), disk, op);
      if UserOf(op) != v {
        PathsAreApart(dir, UserOf(op), v);
        StepIsolates(PathsOf(dir, UserOf(op)), q, disk, op);
      } else {
        CorruptedStays(q, disk, op.current, v, op.loadIo);
      }
      LoadingNeverRepairs(dir, disk1, ops[1..], current, v, io);
    }
  }

  lemma CorruptedStays(p: Paths, disk: Disk, current: AccountInfo, userId: int, io: LoadIo)
    requires Corrupted(disk, p.config)
    ensures Load(p, disk, current, userId, io).disk == disk
  {
  }
}

module AccountStore {
  import opened AccountTypes
  import opened AccountStoreSpec

  class OhosAccountDataDeal {
    const configFileDir: string
    var initOk: bool
    var files: Disk

    constructor (configFileDir: string, files: Disk)
      ensures this.configFileDir == configFileDir && this.files == files && !initOk
    {
      this.configFileDir, this.files := configFileDir, files;
      initOk := false;
    }

    /** One file written whole, or not at all. */
    method InputFile(path: string, file: File, w: Write) returns (err: ErrCode)
      modifies this`files
      ensures files == AfterWrite(old(files), path, file, w) && err == WriteErr(w)
    {
      if w.Written? {
        files := files[path := file];
        return w.err;
      }
      return w.failure;
    }

    method SaveAccountInfo(info: AccountInfo, io: SaveIo) returns (err: ErrCode)
      modifies this`files
      ensures Saved(files, err) == Save(PathsOf(configFileDir, info.userId), old(files), info, io)
    {
      var jsonData := Serialize(info);
      err := InputFile(PathsOf(configFileDir, info.userId).avatar, File(info.ohos.avatar, None), io.avatar);
      if err != ERR_OK {
        return;
      }
      err := InputFile(PathsOf(configFileDir, info.userId).config, File(io.packed, Some(jsonData)), io.config);
    }

    method BuildJsonFileFromScratch(userId: int, now: int, io: SaveIo)
      modifies this`files
      ensures files == Build(PathsOf(configFileDir, userId), old(files), userId, now, io)
    {
      var _ := SaveAccountInfo(DefaultAccount(userId, now), io);
    }

    method MakeIfMissing(userId: int, now: int, io: SaveIo)
      modifies this`files
      ensures files == Made(PathsOf(configFileDir, userId), old(files), userId, now, io)
    {
      if PathsOf(configFileDir, userId).config !in files {
        BuildJsonFileFromScratch(userId, now, io);
      }
    }

    method RebuildIfOversized(userId: int, now: int, remove: bool, io: SaveIo)
      modifies this`files
      ensures files == Shrunk(PathsOf(configFileDir, userId), old(files), userId, now, remove, io)
    {
      var configFile := PathsOf(configFileDir, userId).config;
      if Oversized(files, configFile) {
        if remove {
          files := files - {configFile};
        }
        BuildJsonFileFromScratch(userId, now, io);
      }
    }

    method Init(userId: int, io: InitIo) returns (err: ErrCode)
      modifies this
      ensures Inited(files, err) == AccountStoreSpec.Init(PathsOf(configFileDir, userId), old(files), userId, io)
      ensures initOk == (old(initOk) || err == ERR_OK)
    {
      var configFile := PathsOf(configFileDir, userId).config;
      MakeIfMissing(userId, io.now, io.build);
      RebuildIfOversized(userId, io.now, io.remove, io.rebuild);
      if configFile !in files || !io.open {
        return INPUT_FILE_ERROR;
      }
      if files[configFile].json.None? {
        if io.removeBad {
          files := files - {configFile};
        }
        return JSON_FILE_CORRUPTION;
      }
      initOk := true;
      return ERR_OK;
    }

    method ParseJsonFromFile(userId: int, io: LoadIo) returns (result: Result<Fields>)
      modifies this`files
      ensures Parsed(files, result) == Parse(PathsOf(configFileDir, userId), old(files), userId, io)
    {
      var path := PathsOf(configFileDir, userId).config;
      if Oversized(files, path) {
        if !io.remove {
          return Err(INPUT_FILE_ERROR);
        }
        files := files - {path};
        BuildJsonFileFromScratch(userId, io.now, io.rebuild);
      }
      if path !in files || !io.open {
        return Err(INPUT_FILE_ERROR);
      }
      if files[path].json.None? {
        return Err(JSON_FILE_CORRUPTION);
      }
      var jsonData := FillAvatarIntoJson(files[path].json.value, userId, io.readAvatar);
      return Ok(jsonData);
    }

    method FillAvatarIntoJson(json: Fields, userId: int, readable: bool) returns (filled: Fields)
      ensures filled == FillAvatar(PathsOf(configFileDir, userId), files, json, readable)
    {
      filled := json;
      if Avatar in json {
        var it := json[Avatar];
        if it.Text? {
          filled := json[Avatar := it];
        }
      } else {
        var avatarFile := PathsOf(configFileDir, userId).avatar;
        if avatarFile in files && readable {
          filled := json[Avatar := Text(CText(files[avatarFile].text))];
        }
      }
    }

    method GetAccountInfo(current: AccountInfo, userId: int, io: LoadIo) returns (result: Result<AccountInfo>)
      modifies this`files
      ensures Loaded(files, result) == Load(PathsOf(configFileDir, userId), old(files), current, userId, io)
    {
      if userId < 0 {
        return Err(InvalidId);
      }
      if io.statFails {
        return Err(INPUT_FILE_ERROR);
      }
      MakeIfMissing(userId, io.now, io.build);
      var jsonData := ParseJsonFromFile(userId, io);
      if jsonData.Err? {
        return Err(jsonData.error);
      }
      return Ok(Deserialize(jsonData.value, current, userId));
    }

    method AccountInfoFromJson(current: AccountInfo, userId: int, io: LoadIo) returns (result: Result<AccountInfo>)
      modifies this`files
      ensures if initOk then
                Loaded(files, result) == Load(PathsOf(configFileDir, userId), old(files), current, userId, io)
              else files == old(files) && result == Err(NOT_READY)
    {
      if !initOk {
        return Err(NOT_READY);
      }
      result := GetAccountInfo(current, userId, io);
    }

    method AccountInfoToJson(info: AccountInfo, io: SaveIo) returns (err: ErrCode)
      modifies this`files
      ensures if initOk then Saved(files, err) == Save(PathsOf(configFileDir, info.userId), old(files), info, io)
              else files == old(files) && err == NOT_READY
    {
      if !initOk {
        return NOT_READY;
      }
      err := SaveAccountInfo(info, io);
    }
  }

  class OhosAccountManager {
    const dataDealer: OhosAccountDataDeal
    var isInit: bool

    constructor (dataDealer: OhosAccountDataDeal)
      ensures this.dataDealer == dataDealer && !isInit
    {
      this.dataDealer := dataDealer;
      isInit := false;
    }

    /** `ios` are the outcomes of the two tries there can be. */
    method OnInitialize(owner: int, ios: seq<InitIo>) returns (ok: bool, tryTimes: nat)
      requires |ios| == MAX_RETRY_TIMES
      modifies this, dataDealer
      ensures old(isInit) ==> ok && tryTimes == 0 && isInit && dataDealer.files == old(dataDealer.files)
                              && dataDealer.initOk == old(dataDealer.initOk)
      ensures !old(isInit) ==>
                && Started(dataDealer.files, ok, tryTimes)
                   == StartUp(PathsOf(dataDealer.configFileDir, owner), old(dataDealer.files), owner, ios[0], ios[1])
                && isInit == ok && dataDealer.initOk == (old(dataDealer.initOk) || ok)
    {
      tryTimes := 0;
      if isInit {
        return true, tryTimes;
      }
      var done := false;
      while !done && tryTimes < MAX_RETRY_TIMES
        invariant tryTimes <= MAX_RETRY_TIMES && !isInit
        invariant tryTimes == 0 ==> dataDealer.files == old(dataDealer.files)
        invariant tryTimes == 1 ==>
                    var p := PathsOf(dataDealer.configFileDir, owner);
                    var a := AccountStoreSpec.Init(p, old(dataDealer.files), owner, ios[0]);
                    dataDealer.files == a.disk && a.err == if done then ERR_OK else JSON_FILE_CORRUPTION
        invariant tryTimes == 2 ==> done
        invariant tryTimes == 2 ==>
                    var p := PathsOf(dataDealer.configFileDir, owner);
                    var a := AccountStoreSpec.Init(p, old(dataDealer.files), owner, ios[0]);
                    && a.err == JSON_FILE_CORRUPTION
                    && AccountStoreSpec.Init(p, a.disk, owner, ios[1])
                       == Inited(dataDealer.files, ERR_OK)
        invariant done ==> tryTimes > 0
        invariant dataDealer.initOk == (old(dataDealer.initOk) || done)
        decreases MAX_RETRY_TIMES - tryTimes, !done
      {
        tryTimes := tryTimes + 1;
        var errCode := dataDealer.Init(owner, ios[tryTimes - 1]);
        if errCode == ERR_OK {
          done := true;
        } else if tryTimes == MAX_RETRY_TIMES || errCode != JSON_FILE_CORRUPTION {
          return false, tryTimes;
        }
      }
      isInit := true;
      return true, tryTimes;
    }
  }
}
