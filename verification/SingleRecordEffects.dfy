/**
 What each operation on single records writes and publishes, said outright: field by field of
 the record, and as the kinds of events said of it, in order, on either channel.
 */
module SingleRecordEffects {
  import opened AccountTypes
  import opened BindingEvents
  import opened SingleRecordSpec

  // ---------- requests ----------

  /** What a successful request says of its record. A repeated login is not a common event. */
  function Announced(event: EventName, status: int, channel: Channel): seq<Kind> {
    match event
    case LoginEvent =>
      (if status == ACCOUNT_STATE_UNBOUND then [BOUND] else [])
      + (if channel.Common? && status == ACCOUNT_STATE_LOGIN then [] else [LOGIN])
    case LogoutEvent => [LOGOUT, UNBOUND]
    case LogoffEvent => [LOGOFF, UNBOUND]
    case TokenInvalidEvent => [TOKEN_INVALID]
    case UnknownEvent(_) => []
  }

  lemma LoginSays(trace: seq<Item>, key: Key, status: int, channel: Channel, k: Key)
    ensures Kinds(PublishLogin(trace, key, status), channel, k) ==
            Kinds(trace, channel, k) + if k == key then Announced(LoginEvent, status, channel) else []
  {
    if status == ACCOUNT_STATE_UNBOUND {
      KindsBoth(trace, key, BOUND, channel, k);
      KindsBoth(Both(trace, key, BOUND), key, LOGIN, channel, k);
      assert Kinds(trace, channel, k) + [BOUND] + [LOGIN] == Kinds(trace, channel, k) + ([BOUND] + [LOGIN]);
    } else {
      KindsOne(trace, Published(Subscriber, key, LOGIN), channel, k);
      KindsOne(On(trace, Subscriber, key, LOGIN), Published(Common, key, LOGIN), channel, k);
    }
  }

  lemma LeavingSays(trace: seq<Item>, key: Key, kind: Kind, channel: Channel, k: Key)
    ensures Kinds(PublishLeaving(trace, key, kind), channel, k) ==
            Kinds(trace, channel, k) + if k == key then [kind, UNBOUND] else []
  {
    var t1 := On(trace, Subscriber, key, kind);
    var t2 := On(t1, Subscriber, key, UNBOUND);
    KindsOne(trace, Published(Subscriber, key, kind), channel, k);
    KindsOne(t1, Published(Subscriber, key, UNBOUND), channel, k);
    KindsOne(t2, Published(Common, key, kind), channel, k);
    KindsOne(On(t2, Common, key, kind), Published(Common, key, UNBOUND), channel, k);
  }

  lemma PublishSays(trace: seq<Item>, key: Key, event: EventName, status: int, channel: Channel, k: Key)
    ensures Kinds(Publish(trace, key, event, status), channel, k) ==
            Kinds(trace, channel, k) + if k == key then Announced(event, status, channel) else []
  {
    match event
    case LoginEvent => LoginSays(trace, key, status, channel, k);
    case LogoutEvent => LeavingSays(trace, key, LOGOUT, channel, k);
    case LogoffEvent => LeavingSays(trace, key, LOGOFF, channel, k);
    case TokenInvalidEvent => KindsBoth(trace, key, TOKEN_INVALID, channel, k);
    case UnknownEvent(_) =>
  }

  /** A successful request says this of its record, an unsuccessful one nothing, and none anything of another record. */
  lemma RequestSays(sha: Sha256, s: State, userId: int, info: OhosAccountInfo, event: EventName, io: Io,
                    channel: Channel, key: Key)
    ensures
      var o := StateChange(sha, s, userId, info, event, io);
      Kinds(o.state.trace, channel, key) ==
      Kinds(s.trace, channel, key)
      + if o.err == ERR_OK && key == RecordKey(userId) then Announced(event, OhosOf(s, userId).status, channel) else []
  {
    var decided := Decide(sha, Found(s, userId, io), info, event, io);
    CarryTrace(s, userId, event, io, decided);
    PublishSays(s.trace, RecordKey(userId), event, OhosOf(s, userId).status, channel, key);
  }

  lemma CarryTrace(s: State, userId: int, event: EventName, io: Io, decided: Result<AccountInfo>)
    ensures
      var o := Carry(s, userId, event, io, decided);
      o.state.trace ==
      if o.err == ERR_OK then Publish(s.trace, RecordKey(userId), event, OhosOf(s, userId).status) else s.trace
  {
  }

  /** What is stored, with the file's time of creation; nothing stored reads as a record made now. */
  function Before(s: State, userId: int, now: int): AccountInfo {
    if userId in s.records then s.records[userId].(userId := userId)
    else AccountInfo(DefaultOhosInfo(), 0, userId, ACCOUNT_VERSION_DEFAULT, now)
  }

  /** An account whose identity is cleared, field by field: version, user and time of creation stay. */
  function Blank(a: AccountInfo): AccountInfo {
    AccountInfo(
      OhosAccountInfo(
        DEFAULT_OHOS_ACCOUNT_NAME, DEFAULT_OHOS_ACCOUNT_UID, "", ACCOUNT_STATE_UNBOUND,
        DEFAULT_CALLING_UID, "", "", ""),
      0, a.userId, a.version, a.createTime)
  }

  /** The record an admitted request is to leave, field by field. */
  function Wanted(sha: Sha256, before: AccountInfo, info: OhosAccountInfo, event: EventName, io: Io): AccountInfo {
    match event
    case LoginEvent =>
      AccountInfo(
        OhosAccountInfo(
          CText(info.name), GenerateOhosUdid(sha, info.name, info.uid), CText(info.uid), ACCOUNT_STATE_LOGIN,
          io.callingUid, CText(info.nickname), info.avatar, CText(info.scalableData)),
        ToInt32(io.now), before.userId, ACCOUNT_VERSION_ANON, before.createTime)
    case TokenInvalidEvent => before.(ohos := before.ohos.(status := ACCOUNT_STATE_TOKEN_EXPIRED))
    case _ => Blank(before)
  }

  /** The admitted request whose write takes effect leaves that record; one that could be read leaves one at least. */
  lemma RequestStores(sha: Sha256, s: State, userId: int, info: OhosAccountInfo, event: EventName, io: Io)
    requires RecordsOk(s)
    ensures
      var s' := StateChange(sha, s, userId, info, event, io).state;
      var before := Before(s, userId, io.now);
      && (forall id | id != userId :: (id in s'.records <==> id in s.records)
                                      && (id in s.records ==> s'.records[id] == s.records[id]))
      && (Readable(userId, io) && !event.UnknownEvent? ==>
            && userId in s'.records
            && s'.records[userId].(userId := userId) ==
               if Admits(sha, OhosOf(s, userId), info, event) && Writes(userId, io)
               then Wanted(sha, before, info, event, io) else before)
      && (!Readable(userId, io) || event.UnknownEvent? ==> s' == s)
  {
    if !event.UnknownEvent? {
      var found := Found(s, userId, io);
      assert RecordOk(OhosOf(s, userId));
      DecideMeaning(sha, found, info, event, io);
      DecideWants(sha, found, info, event, io);
      CarryStores(s, userId, event, io, Decide(sha, found, info, event, io));
    }
  }

  lemma DecideWants(sha: Sha256, cur: AccountInfo, info: OhosAccountInfo, event: EventName, io: Io)
    requires RecordOk(cur.ohos) && !event.UnknownEvent?
    ensures
      var decided := Decide(sha, cur, info, event, io);
      decided.Ok? ==> decided.value == Wanted(sha, cur, info, event, io)
  {
    DecideMeaning(sha, cur, info, event, io);
  }

  lemma CarryStores(s: State, userId: int, event: EventName, io: Io, decided: Result<AccountInfo>)
    requires !event.UnknownEvent? && (decided.Ok? ==> decided.value.userId == userId)
    ensures
      var s' := Carry(s, userId, event, io, decided).state;
      && (!Readable(userId, io) ==> s' == s)
      && (Readable(userId, io) ==>
            && s'.records.Keys == s.records.Keys + {userId}
            && s'.records[userId].(userId := userId) ==
               (if decided.Ok? && Writes(userId, io) then decided.value else Found(s, userId, io))
            && forall id | id != userId && id in s.records :: s'.records[id] == s.records[id])
  {
  }

  /** What comes of a record that cannot be read. */
  function UnreadableError(userId: int, event: EventName, io: Io): ErrCode {
    if !event.LoginEvent? then AccountNotExist
    else if io.load(userId) != ERR_OK then io.load(userId)
    else InvalidId
  }

  /** Which error a refused request gets. */
  lemma RefusalSaysWhy(sha: Sha256, s: State, userId: int, info: OhosAccountInfo, event: EventName, io: Io)
    requires RecordsOk(s)
    ensures
      var err := StateChange(sha, s, userId, info, event, io).err;
      var cur := OhosOf(s, userId);
      err ==
      if event.UnknownEvent? then InvalidParameter
      else if !Readable(userId, io) then UnreadableError(userId, event, io)
      else if event.LoginEvent? && !Admits(sha, cur, info, event) then AccountNotExist
      else if !event.LoginEvent? && !CheckSameDistributedAccount(sha, cur, info) then AccountNotExist
      else if event.LogoutEvent? && cur.status == ACCOUNT_STATE_TOKEN_EXPIRED then ServiceError
      else if io.save(userId) != ERR_OK && !event.TokenInvalidEvent? then ServiceError
      else ERR_OK
  {
    if !event.UnknownEvent? {
      var found := Found(s, userId, io);
      assert RecordOk(OhosOf(s, userId));
      DecideRefuses(sha, found, info, event, io);
      CarryRefuses(s, userId, event, io, Decide(sha, found, info, event, io));
    }
  }

  lemma DecideRefuses(sha: Sha256, cur: AccountInfo, info: OhosAccountInfo, event: EventName, io: Io)
    requires RecordOk(cur.ohos) && !event.UnknownEvent?
    ensures
      var decided := Decide(sha, cur, info, event, io);
      && (decided.Ok? <==> Admits(sha, cur.ohos, info, event))
      && (decided.Err? ==>
            decided.error ==
            if !event.LoginEvent? && CheckSameDistributedAccount(sha, cur.ohos, info) then ServiceError
            else AccountNotExist)
  {
    DecideMeaning(sha, cur, info, event, io);
    if cur.ohos.status == ACCOUNT_STATE_UNBOUND {
      UnboundNeverMatches(sha, cur.ohos, info);
    }
  }

  lemma CarryRefuses(s: State, userId: int, event: EventName, io: Io, decided: Result<AccountInfo>)
    requires !event.UnknownEvent? && (decided.Ok? ==> decided.value.userId == userId)
    ensures
      Carry(s, userId, event, io, decided).err ==
      if !Readable(userId, io) then UnreadableError(userId, event, io)
      else if decided.Err? then decided.error
      else if io.save(userId) != ERR_OK && !event.TokenInvalidEvent? then ServiceError
      else ERR_OK
  {
  }

  // ---------- removals ----------

  /** The removed package had bound this record, and it can be read. */
  predicate BoundBy(s: State, id: int, bundleUid: int, io: Io) {
    && Readable(id, io)
    && OhosOf(s, id).callingUid == bundleUid
    && OhosOf(s, id).status != ACCOUNT_STATE_UNBOUND
  }

  /** How often a record is cleared: once if the write takes effect, else at every visit. */
  function Clearings(s: State, ids: seq<int>, bundleUid: int, io: Io, id: int): nat {
    var visits := multiset(ids)[id];
    if !BoundBy(s, id, bundleUid, io) then 0 else if Writes(id, io) && visits > 0 then 1 else visits
  }

  /**
   A removed package: exactly the records it had bound, of the OS accounts visited, lose their
   identity if the write takes effect; LOGOUT and UNBOUND are said of each of them at every
   clearing, and nothing of any other.
   */
  lemma {:induction false} PackageRemovalClears(s: State, ids: seq<int>, bundleUid: int, io: Io, id: int,
                                                channel: Channel)
    ensures
      var s' := ClearAll(s, ids, bundleUid, io);
      && OhosOf(s', id) ==
         (if id in ids && BoundBy(s, id, bundleUid, io) && Writes(id, io) then DefaultOhosInfo().(rawUid := "")
          else OhosOf(s, id))
      && Kinds(s'.trace, channel, RecordKey(id)) ==
         Kinds(s.trace, channel, RecordKey(id)) + Times(Clearings(s, ids, bundleUid, io, id), [LOGOUT, UNBOUND])
    decreases |ids|
  {
    if ids != [] {
      OneClearing(s, ids[0], bundleUid, io, id, channel);
      ClearingsOnward(s, ids, bundleUid, io, id);
      PackageRemovalClears(ClearIfMatch(s, ids[0], bundleUid, io), ids[1..], bundleUid, io, id, channel);
      assert id in ids <==> id == ids[0] || id in ids[1..];
    }
  }

  /** This visit clears this record. */
  predicate ClearedNow(s: State, visited: int, bundleUid: int, io: Io, id: int) {
    visited == id && BoundBy(s, id, bundleUid, io)
  }

  lemma OneClearing(s: State, visited: int, bundleUid: int, io: Io, id: int, channel: Channel)
    ensures
      var s1 := ClearIfMatch(s, visited, bundleUid, io);
      var now := ClearedNow(s, visited, bundleUid, io, id);
      && OhosOf(s1, id) == (if now && Writes(id, io) then DefaultOhosInfo().(rawUid := "") else OhosOf(s, id))
      && (BoundBy(s1, id, bundleUid, io) <==> BoundBy(s, id, bundleUid, io) && !(now && Writes(id, io)))
      && Kinds(s1.trace, channel, RecordKey(id)) ==
         Kinds(s.trace, channel, RecordKey(id)) + if now then [LOGOUT, UNBOUND] else []
  {
    ClearEffect(s, visited, bundleUid, io);
    LeavingSays(s.trace, RecordKey(visited), LOGOUT, channel, RecordKey(id));
  }

  lemma ClearingsOnward(s: State, ids: seq<int>, bundleUid: int, io: Io, id: int)
    requires ids != []
    ensures
      var s1 := ClearIfMatch(s, ids[0], bundleUid, io);
      var rest := Times(Clearings(s1, ids[1..], bundleUid, io, id), [LOGOUT, UNBOUND]);
      Times(Clearings(s, ids, bundleUid, io, id), [LOGOUT, UNBOUND]) ==
      (if ClearedNow(s, ids[0], bundleUid, io, id) then [LOGOUT, UNBOUND] else []) + rest
  {
    OneClearing(s, ids[0], bundleUid, io, id, Common);
    assert ids == [ids[0]] + ids[1..];
    assert multiset(ids)[id] == (if ids[0] == id then 1 else 0) + multiset(ids[1..])[id];
  }

  /** The same of everything stored: a cleared record keeps all but its identity, every other one all of it. */
  lemma {:induction false} PackageRemovalStores(s: State, ids: seq<int>, bundleUid: int, io: Io, id: int)
    requires id in s.records
    ensures
      var s' := ClearAll(s, ids, bundleUid, io);
      && id in s'.records
      && s'.records[id] ==
         if id in ids && BoundBy(s, id, bundleUid, io) && Writes(id, io) then Blank(s.records[id]).(userId := id)
         else s.records[id]
    decreases |ids|
  {
    if ids != [] {
      OneClearing(s, ids[0], bundleUid, io, id, Common);
      OneClearingStores(s, ids[0], bundleUid, io, id);
      PackageRemovalStores(ClearIfMatch(s, ids[0], bundleUid, io), ids[1..], bundleUid, io, id);
      assert id in ids <==> id == ids[0] || id in ids[1..];
    }
  }

  lemma OneClearingStores(s: State, visited: int, bundleUid: int, io: Io, id: int)
    requires id in s.records
    ensures
      var s' := ClearIfMatch(s, visited, bundleUid, io);
      && id in s'.records
      && s'.records[id] ==
         if ClearedNow(s, visited, bundleUid, io, id) && Writes(id, io) then Blank(s.records[id]).(userId := id)
         else s.records[id]
  {
  }

  /** An OS account goes: its record is gone, the others stay, and the farewell its status calls for is said. */
  lemma OsAccountRemovalSays(s: State, localId: int, io: Io, removed: bool, channel: Channel, key: Key)
    ensures
      var s' := RemoveOsAccount(s, localId, io, removed);
      && SendLogoutOnDelete(s, localId, io).err ==
         (if io.load(localId) != ERR_OK then io.load(localId) else if localId < 0 then InvalidId else ERR_OK)
      && (removed ==> localId !in s'.records)
      && (forall id | id != localId :: (id in s'.records <==> id in s.records)
                                       && (id in s.records ==> s'.records[id] == s.records[id]))
      && Kinds(s'.trace, channel, key) ==
         Kinds(s.trace, channel, key)
         + if key == RecordKey(localId) && Readable(localId, io) then Goodbye(OhosOf(s, localId).status) else []
  {
    var s1 := SendLogoutOnDelete(s, localId, io).state;
    FarewellEffect(s, localId, io);
    FarewellSays(s.trace, RecordKey(localId), OhosOf(s, localId).status, channel, key);
    KindsOne(s1.trace, Ended(RecordKey(localId)), channel, key);
  }

  // ---------- runs ----------

  /** What one step says of a record. */
  ghost function StepSays(sha: Sha256, s: State, step: Step, channel: Channel, id: int): seq<Kind> {
    match step
    case Change(userId, info, event, io) =>
      if id == userId && StateChange(sha, s, userId, info, event, io).err == ERR_OK
      then Announced(event, OhosOf(s, id).status, channel) else []
    case PackageRemoved(ids, bundleUid, io) => Times(Clearings(s, ids, bundleUid, io, id), [LOGOUT, UNBOUND])
    case OsAccountRemoved(localId, io, removed) =>
      if id == localId && Readable(localId, io) then Goodbye(OhosOf(s, id).status) else []
  }

  ghost function RunSays(sha: Sha256, s: State, steps: seq<Step>, channel: Channel, id: int): seq<Kind>
    decreases |steps|
  {
    if steps == [] then []
    else StepSays(sha, s, steps[0], channel, id) + RunSays(sha, Apply(sha, s, steps[0]), steps[1..], channel, id)
  }

  /** Over every run, exactly what its steps say of a record is published of it, in that order. */
  lemma {:induction false} EverythingSaid(sha: Sha256, s: State, steps: seq<Step>, channel: Channel, id: int)
    ensures Kinds(Run(sha, s, steps).trace, channel, RecordKey(id)) ==
            Kinds(s.trace, channel, RecordKey(id)) + RunSays(sha, s, steps, channel, id)
    decreases |steps|
  {
    if steps != [] {
      StepIsSaid(sha, s, steps[0], channel, id);
      EverythingSaid(sha, Apply(sha, s, steps[0]), steps[1..], channel, id);
      SaidInTurn(Kinds(s.trace, channel, RecordKey(id)), StepSays(sha, s, steps[0], channel, id),
                 RunSays(sha, Apply(sha, s, steps[0]), steps[1..], channel, id));
    }
  }

  lemma StepIsSaid(sha: Sha256, s: State, step: Step, channel: Channel, id: int)
    ensures Kinds(Apply(sha, s, step).trace, channel, RecordKey(id)) ==
            Kinds(s.trace, channel, RecordKey(id)) + StepSays(sha, s, step, channel, id)
  {
    match step
    case Change(userId, info, event, io) => RequestSays(sha, s, userId, info, event, io, channel, RecordKey(id));
    case PackageRemoved(ids, bundleUid, io) => PackageRemovalClears(s, ids, bundleUid, io, id, channel);
    case OsAccountRemoved(localId, io, removed) =>
      OsAccountRemovalSays(s, localId, io, removed, channel, RecordKey(id));
  }
}
