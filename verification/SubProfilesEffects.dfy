/**
 What each operation in the build with sub-profiles writes, removes and publishes, said
 outright: field by field of the record, and as the kinds of events said of it, in order.
 */
module SubProfilesEffects {
  import opened AccountTypes
  import opened BindingEvents
  import opened SubProfilesSpec
  import opened SubProfilesLaws
  import SubProfileIds

  // ---------- requests ----------

  /** What a successful request says of its record, on either channel. */
  function Announced(event: EventName, status: int): seq<Kind> {
    match event
    case LoginEvent =>
      if status == ACCOUNT_STATE_UNBOUND then [BOUND, LOGIN] else if status == ACCOUNT_STATE_LOGIN then [] else [LOGIN]
    case LogoutEvent => [LOGOUT]
    case LogoffEvent => [LOGOFF]
    case TokenInvalidEvent => [TOKEN_INVALID]
    case UnknownEvent(_) => []
  }

  lemma PublishSays(trace: seq<Item>, key: Key, event: EventName, status: int, channel: Channel, k: Key)
    ensures Kinds(Publish(trace, key, event, status), channel, k) ==
            Kinds(trace, channel, k) + if k == key then Announced(event, status) else []
  {
    match event
    case LoginEvent =>
      KindsBoth(trace, key, BOUND, channel, k);
      KindsBoth(Both(trace, key, BOUND), key, LOGIN, channel, k);
      KindsBoth(trace, key, LOGIN, channel, k);
    case LogoutEvent => KindsBoth(trace, key, LOGOUT, channel, k);
    case LogoffEvent => KindsBoth(trace, key, LOGOFF, channel, k);
    case TokenInvalidEvent => KindsBoth(trace, key, TOKEN_INVALID, channel, k);
    case UnknownEvent(_) =>
  }

  /** A successful request says this of its record, an unsuccessful one nothing, and none anything of another record. */
  lemma RequestSays(sha: Sha256, s: State, key: Key, info: OhosAccountInfo, event: EventName, io: Io,
                    channel: Channel, k: Key)
    ensures
      var o := StateChange(sha, s, key, info, event, io);
      Kinds(o.state.trace, channel, k) ==
      Kinds(s.trace, channel, k)
      + if o.err == ERR_OK && k == key then Announced(event, OhosOf(s, key).status) else []
  {
    CarryTrace(s, key, event, io, Decision(sha, s, key, info, event, io));
    PublishSays(s.trace, key, event, OhosOf(s, key).status, channel, k);
  }

  lemma CarryTrace(s: State, key: Key, event: EventName, io: Io, decided: Result<Space>)
    ensures
      var o := Carry(s, key, event, io, decided);
      o.state.trace == if o.err == ERR_OK then Publish(s.trace, key, event, OhosOf(s, key).status) else s.trace
  {
  }

  /** The account an admitted request is to leave, field by field. */
  function Wanted(sha: Sha256, before: AccountInfo, info: OhosAccountInfo, event: EventName, io: Io): AccountInfo {
    match event
    case LoginEvent =>
      AccountInfo(
        OhosAccountInfo(
          CText(info.name), GenerateOhosUdid(sha, info.name, info.uid), CText(info.uid), ACCOUNT_STATE_LOGIN,
          io.callingUid, CText(info.nickname), info.avatar, CText(info.scalableData)),
        ToInt32(io.now), before.userId, ACCOUNT_VERSION_ANON, before.createTime)
    case LogoutEvent => before.(ohos := before.ohos.(status := ACCOUNT_STATE_NOTLOGIN))
    case LogoffEvent => before.(ohos := before.ohos.(status := ACCOUNT_STATE_LOGOFF))
    case _ => before.(ohos := before.ohos.(status := ACCOUNT_STATE_TOKEN_EXPIRED))
  }

  lemma DecisionWants(sha: Sha256, s: State, key: Key, info: OhosAccountInfo, event: EventName, io: Io)
    requires RecordsOk(s) && !event.UnknownEvent? && Readable(s, key, io)
    ensures
      var found := Found(s, key, io);
      var decided := Decision(sha, s, key, info, event, io);
      && (decided.Ok? <==> Admits(sha, s, key, info, event, io))
      && (decided.Ok? ==> decided.value == found.(account := Wanted(sha, found.account, info, event, io)))
  {
    AdmitsExactly(sha, s, key, info, event, io);
    assert RecordOk(OhosOf(s, key));
    DecideMeaning(sha, s, key, info, event, io);
    DecideWants(sha, Found(s, key, io), info, event, io, Admission(sha, s, key, OhosOf(s, key), info, event, io));
  }

  lemma DecideWants(sha: Sha256, cur: Space, info: OhosAccountInfo, event: EventName, io: Io, admission: ErrCode)
    requires !event.UnknownEvent?
    requires
      var decided := Decide(sha, cur, info, event, io, admission);
      decided.Ok? ==> decided.value.account.ohos.status == StatusWanted(event)
    ensures
      var decided := Decide(sha, cur, info, event, io, admission);
      decided.Ok? ==> decided.value == cur.(account := Wanted(sha, cur.account, info, event, io))
  {
  }

  /** An admitted request on a sub-profile whose write takes effect leaves that account there; nothing else changes. */
  lemma RequestStores(sha: Sha256, s: State, key: Key, info: OhosAccountInfo, event: EventName, io: Io)
    requires RecordsOk(s) && !Headless(key)
    ensures
      var s' := StateChange(sha, s, key, info, event, io).state;
      && s'.main == s.main
      && s'.spaces ==
         if Readable(s, key, io) && Admits(sha, s, key, info, event, io) && Writes(key, io)
         then s.spaces[key := s.spaces[key].(account := Wanted(sha, s.spaces[key].account, info, event, io))]
         else s.spaces
  {
    if !event.UnknownEvent? && Readable(s, key, io) {
      DecisionWants(sha, s, key, info, event, io);
    }
  }

  /** The OS account's own record as it is written back: nothing is kept of the time of its creation. */
  function WrittenBack(account: AccountInfo, localId: int): AccountInfo {
    AccountInfo(account.ohos, account.bindTime, localId, ACCOUNT_VERSION_ANON, 0)
  }

  /** The same of a headless record, which reading it makes if it is not there. */
  lemma HeadlessRequestStores(sha: Sha256, s: State, localId: int, info: OhosAccountInfo, event: EventName, io: Io)
    requires RecordsOk(s)
    ensures
      var key := HeadlessKey(localId);
      var s' := StateChange(sha, s, key, info, event, io).state;
      var before := if localId in s.main then s.main[localId]
                    else AccountInfo(DefaultOhosInfo(), 0, localId, ACCOUNT_VERSION_DEFAULT, io.now);
      && s'.spaces == s.spaces
      && s'.main ==
         if event.UnknownEvent? || io.load(key) != ERR_OK || localId < 0 then s.main
         else if Admits(sha, s, key, info, event, io) && Writes(key, io)
         then s.main[localId := WrittenBack(Wanted(sha, before, info, event, io), localId)]
         else s.main[localId := before]
  {
    var key := HeadlessKey(localId);
    if !event.UnknownEvent? && Readable(s, key, io) {
      DecisionWants(sha, s, key, info, event, io);
      HeadlessCarry(s, localId, event, io, Decision(sha, s, key, info, event, io));
    }
  }

  lemma HeadlessCarry(s: State, localId: int, event: EventName, io: Io, decided: Result<Space>)
    requires Readable(s, HeadlessKey(localId), io) && !event.UnknownEvent?
    requires decided.Ok? ==> KeyOf(decided.value) == HeadlessKey(localId)
    ensures
      var key := HeadlessKey(localId);
      var s' := Carry(s, key, event, io, decided).state;
      var before := if localId in s.main then s.main[localId]
                    else AccountInfo(DefaultOhosInfo(), 0, localId, ACCOUNT_VERSION_DEFAULT, io.now);
      && s'.spaces == s.spaces
      && s'.main == if decided.Ok? && Writes(key, io)
                    then s.main[localId := WrittenBack(decided.value.account, localId)]
                    else s.main[localId := before]
  {
  }

  /** What comes of a record that cannot be read. */
  function UnreadableError(s: State, key: Key, io: Io): ErrCode {
    if Headless(key) then (if io.load(key) != ERR_OK then io.load(key) else InvalidId)
    else if key !in s.spaces then AccountNotExist
    else io.load(key)
  }

  /**
   Which error a refused request gets. A first login that the verification stops gets the error of
   the first listed sub-profile that cannot be read or is bound to the account; `AlreadyBound` if
   all can be read.
   */
  lemma RefusalSaysWhy(sha: Sha256, s: State, key: Key, info: OhosAccountInfo, event: EventName, io: Io)
    requires RecordsOk(s)
    ensures
      var err := StateChange(sha, s, key, info, event, io).err;
      var digest := GenerateOhosUdid(sha, info.name, info.uid);
      && (event.UnknownEvent? ==> err == InvalidParameter)
      && (!event.UnknownEvent? && !Readable(s, key, io) ==> err == UnreadableError(s, key, io))
      && (!event.UnknownEvent? && Readable(s, key, io) ==>
            if Admits(sha, s, key, info, event, io) then err == io.save(key)
            else err != ERR_OK && WhyNotAdmitted(s, key, event, digest, io, err))
  {
    if !event.UnknownEvent? && Readable(s, key, io) {
      RequestFacts(sha, s, key, info, event, io);
      DecisionWants(sha, s, key, info, event, io);
      CarryRefuses(s, key, event, io, Decision(sha, s, key, info, event, io));
      if !Admits(sha, s, key, info, event, io) {
        NotAdmittedSaysWhy(sha, s, key, info, event, io);
      }
    }
  }

  ghost predicate WhyNotAdmitted(s: State, key: Key, event: EventName, digest: string, io: Io, err: ErrCode) {
    if event.LoginEvent? && digest == "" then err == ServiceError
    else if !event.LoginEvent? || OhosOf(s, key).status != ACCOUNT_STATE_UNBOUND then err == AccountNotExist
    else
      (forall k: Key | k != key && k.localId == key.localId && Listed(s, k, io) :: Readable(s, k, io)) ==>
        err == AlreadyBound
  }

  lemma CarryRefuses(s: State, key: Key, event: EventName, io: Io, decided: Result<Space>)
    requires Readable(s, key, io) && !event.UnknownEvent? && (decided.Ok? ==> KeyOf(decided.value) == key)
    ensures Carry(s, key, event, io, decided).err == if decided.Ok? then io.save(key) else decided.error
  {
  }

  lemma NotAdmittedSaysWhy(sha: Sha256, s: State, key: Key, info: OhosAccountInfo, event: EventName, io: Io)
    requires RecordsOk(s) && !event.UnknownEvent? && Readable(s, key, io)
    requires !Admits(sha, s, key, info, event, io)
    ensures
      var decided := Decision(sha, s, key, info, event, io);
      var digest := GenerateOhosUdid(sha, info.name, info.uid);
      decided.Err? && WhyNotAdmitted(s, key, event, digest, io, decided.error)
  {
    assert RecordOk(OhosOf(s, key));
    AdmitsExactly(sha, s, key, info, event, io);
    FoundKey(s, key, io);
    if event.LoginEvent? && OhosOf(s, key).status == ACCOUNT_STATE_UNBOUND {
      var ids := Scan(s, key.localId, io);
      VerifyListed(sha, s, key, info, io);
      ScanMeaning(s, key.localId, io);
      VerifyFindsOne(sha, s, key, ids, info, io);
      forall id | id in ids ensures Listed(s, Key(key.localId, id), io) {
      }
    }
  }

  lemma {:induction false} VerifyFindsOne(sha: Sha256, s: State, key: Key, ids: seq<int>, info: OhosAccountInfo, io: Io)
    ensures (forall id | id in ids && id != key.subId :: Readable(s, Key(key.localId, id), io)) ==>
              VerifyOthers(sha, s, key, ids, info, io) in {ERR_OK, AlreadyBound}
    decreases |ids|
  {
    if ids != [] {
      VerifyFindsOne(sha, s, key, ids[1..], info, io);
      assert forall id | id in ids[1..] :: id in ids;
    }
  }

  // ---------- a removed package ----------

  /** The removed package had bound this record, and it can be read. */
  predicate BoundBy(s: State, k: Key, bundleUid: int, io: Io) {
    && Readable(s, k, io)
    && OhosOf(s, k).callingUid == bundleUid
    && OhosOf(s, k).status != ACCOUNT_STATE_UNBOUND
  }

  /** How often a record is cleared in so many visits: once if the write takes effect, else every time. */
  function Clearings(s: State, visits: nat, bundleUid: int, io: Io, k: Key): nat {
    if !BoundBy(s, k, bundleUid, io) then 0 else if Writes(k, io) && visits > 0 then 1 else visits
  }

  predicate ClearedNow(s: State, visited: Key, bundleUid: int, io: Io, k: Key) {
    visited == k && BoundBy(s, k, bundleUid, io)
  }

  lemma OneClearing(s: State, visited: Key, bundleUid: int, io: Io, k: Key, channel: Channel)
    ensures
      var s1 := ClearIfMatch(s, visited, bundleUid, io);
      var now := ClearedNow(s, visited, bundleUid, io, k);
      && OhosOf(s1, k) == (if now && Writes(k, io) then DefaultOhosInfo().(rawUid := "") else OhosOf(s, k))
      && (BoundBy(s1, k, bundleUid, io) <==> BoundBy(s, k, bundleUid, io) && !(now && Writes(k, io)))
      && Kinds(s1.trace, channel, k) == Kinds(s.trace, channel, k) + if now then [LOGOUT, UNBOUND] else []
  {
    ClearEffect(s, visited, bundleUid, io);
    KindsBoth(s.trace, visited, LOGOUT, channel, k);
    KindsBoth(Both(s.trace, visited, LOGOUT), visited, UNBOUND, channel, k);
  }

  /** One visit more, of `visited`, and what the others still have to clear. */
  lemma ClearingsOnward(s: State, visited: Key, others: nat, bundleUid: int, io: Io, k: Key)
    ensures
      var s1 := ClearIfMatch(s, visited, bundleUid, io);
      var visits := others + if visited == k then 1 else 0;
      Clearings(s, visits, bundleUid, io, k) ==
      (if ClearedNow(s, visited, bundleUid, io, k) then 1 else 0) + Clearings(s1, others, bundleUid, io, k)
  {
    OneClearing(s, visited, bundleUid, io, k, Common);
  }

  lemma CountFirst(keys: seq<Key>, k: Key)
    requires keys != []
    ensures multiset(keys)[k] == multiset(keys[1..])[k] + if keys[0] == k then 1 else 0
  {
    assert keys == [keys[0]] + keys[1..];
  }

  lemma {:induction false} ClearAllClears(s: State, keys: seq<Key>, bundleUid: int, io: Io, k: Key, channel: Channel)
    ensures
      var s' := ClearAll(s, keys, bundleUid, io);
      var visits := multiset(keys)[k];
      && OhosOf(s', k) ==
         (if visits > 0 && BoundBy(s, k, bundleUid, io) && Writes(k, io) then DefaultOhosInfo().(rawUid := "")
          else OhosOf(s, k))
      && Kinds(s'.trace, channel, k) ==
         Kinds(s.trace, channel, k) + Times(Clearings(s, visits, bundleUid, io, k), [LOGOUT, UNBOUND])
    decreases |keys|
  {
    if keys != [] {
      var s1 := ClearIfMatch(s, keys[0], bundleUid, io);
      OneClearing(s, keys[0], bundleUid, io, k, channel);
      CountFirst(keys, k);
      ClearingsOnward(s, keys[0], multiset(keys[1..])[k], bundleUid, io, k);
      ClearAllClears(s1, keys[1..], bundleUid, io, k, channel);
      assert k in keys <==> k == keys[0] || k in keys[1..];
      SaidInTurn(Kinds(s.trace, channel, k), if ClearedNow(s, keys[0], bundleUid, io, k) then [LOGOUT, UNBOUND] else [],
                 Times(Clearings(s1, multiset(keys[1..])[k], bundleUid, io, k), [LOGOUT, UNBOUND]));
    }
  }

  lemma {:induction false} DistinctCount(keys: seq<Key>, k: Key)
    requires forall i, j | 0 <= i < j < |keys| :: keys[i] != keys[j]
    ensures multiset(keys)[k] == if k in keys then 1 else 0
  {
    if keys != [] {
      CountFirst(keys, k);
      DistinctCount(keys[1..], k);
      assert k in keys <==> k == keys[0] || k in keys[1..];
      assert keys[0] !in keys[1..];
    }
  }

  /** Each naming of an OS account visits each of its records once that the removal looks at. */
  lemma {:induction false} Visits(s: State, ids: seq<int>, io: Io, k: Key)
    requires Keyed(s)
    ensures multiset(VisitedKeys(s, ids, io))[k] == if LookedAt(s, io, k) then multiset(ids)[k.localId] else 0
  {
    if ids != [] {
      var scanned := Scan(s, ids[0], io);
      var head, keys, rest := [HeadlessKey(ids[0])], KeysFor(ids[0], scanned), VisitedKeys(s, ids[1..], io);
      ScannedOnce(s, ids[0], io, k);
      Visits(s, ids[1..], io, k);
      assert ids == [ids[0]] + ids[1..];
      assert multiset(ids)[k.localId] == (if ids[0] == k.localId then 1 else 0) + multiset(ids[1..])[k.localId];
      assert multiset(head + keys + rest)[k] == multiset(head)[k] + multiset(keys)[k] + multiset(rest)[k];
    }
  }

  lemma ScannedOnce(s: State, localId: int, io: Io, k: Key)
    requires Keyed(s)
    ensures multiset([HeadlessKey(localId)])[k] + multiset(KeysFor(localId, Scan(s, localId, io)))[k] ==
            if k.localId == localId && LookedAt(s, io, k) then 1 else 0
  {
    var ids := Scan(s, localId, io);
    var keys := KeysFor(localId, ids);
    ScanMeaning(s, localId, io);
    KeysForMember(localId, ids, k);
    forall i, j | 0 <= i < j < |keys| ensures keys[i] != keys[j] { assert ids[i] < ids[j]; }
    DistinctCount(keys, k);
    assert k.localId == localId ==> k == Key(localId, k.subId);
  }

  /**
   A removed package: exactly the records it had bound, headless or listed, of the OS accounts
   visited, lose their identity if the write takes effect; LOGOUT and UNBOUND are said of each of
   them at every clearing, and nothing of any other.
   */
  lemma PackageRemovalClears(sha: Sha256, s: State, ids: seq<int>, bundleUid: int, io: Io, k: Key, channel: Channel)
    requires Keyed(s)
    ensures
      var s' := Apply(sha, s, PackageRemoved(ids, bundleUid, io));
      var visits := if Headless(k) || Listed(s, k, io) then multiset(ids)[k.localId] else 0;
      && OhosOf(s', k) ==
         (if visits > 0 && BoundBy(s, k, bundleUid, io) && Writes(k, io) then DefaultOhosInfo().(rawUid := "")
          else OhosOf(s, k))
      && Kinds(s'.trace, channel, k) ==
         Kinds(s.trace, channel, k) + Times(Clearings(s, visits, bundleUid, io, k), [LOGOUT, UNBOUND])
  {
    Visits(s, ids, io, k);
    ClearAllClears(s, VisitedKeys(s, ids, io), bundleUid, io, k, channel);
  }

  /** An account whose identity is cleared, field by field: version, user and time of creation stay. */
  function Blank(a: AccountInfo): AccountInfo {
    AccountInfo(
      OhosAccountInfo(
        DEFAULT_OHOS_ACCOUNT_NAME, DEFAULT_OHOS_ACCOUNT_UID, "", ACCOUNT_STATE_UNBOUND,
        DEFAULT_CALLING_UID, "", "", ""),
      0, a.userId, a.version, a.createTime)
  }

  /** What is stored of `k` in either place after it was cleared or not. */
  ghost predicate Left(s: State, s': State, k: Key, cleared: bool) {
    && (k in s'.spaces <==> k in s.spaces)
    && (k in s.spaces ==>
          s'.spaces[k] == if cleared && !Headless(k) then s.spaces[k].(account := Blank(s.spaces[k].account))
                          else s.spaces[k])
    && (Headless(k) && k.localId in s.main ==>
          && k.localId in s'.main
          && s'.main[k.localId] ==
             if cleared then Blank(s.main[k.localId]).(userId := k.localId) else s.main[k.localId])
  }

  lemma OneClearingStores(s: State, visited: Key, bundleUid: int, io: Io, k: Key)
    ensures Left(s, ClearIfMatch(s, visited, bundleUid, io), k,
                 ClearedNow(s, visited, bundleUid, io, k) && Writes(k, io))
  {
  }

  lemma {:induction false} ClearAllStores(s: State, keys: seq<Key>, bundleUid: int, io: Io, k: Key)
    ensures Left(s, ClearAll(s, keys, bundleUid, io), k, k in keys && BoundBy(s, k, bundleUid, io) && Writes(k, io))
    decreases |keys|
  {
    if keys != [] {
      OneClearing(s, keys[0], bundleUid, io, k, Common);
      OneClearingStores(s, keys[0], bundleUid, io, k);
      ClearAllStores(ClearIfMatch(s, keys[0], bundleUid, io), keys[1..], bundleUid, io, k);
      assert k in keys <==> k == keys[0] || k in keys[1..];
    }
  }

  /** The same of everything stored: a cleared record keeps all but its identity, every other one all of it. */
  lemma PackageRemovalStores(sha: Sha256, s: State, ids: seq<int>, bundleUid: int, io: Io, k: Key)
    requires Keyed(s)
    ensures Left(s, Apply(sha, s, PackageRemoved(ids, bundleUid, io)), k,
                 && k.localId in ids && (Headless(k) || Listed(s, k, io))
                 && BoundBy(s, k, bundleUid, io) && Writes(k, io))
  {
    VisitedMember(s, ids, io, k);
    ClearAllStores(s, VisitedKeys(s, ids, io), bundleUid, io, k);
  }

  // ---------- sub-profiles made, deleted and reclaimed ----------

  /** Which error a deletion that does not go through gets. */
  function DeletionError(s: State, key: Key, io: Io, removal: Removal): ErrCode {
    if Headless(key) then SubProfileRestricted
    else if key !in s.spaces then SubProfileNotFound
    else if io.load(key) == AccountNotExist then SubProfileNotFound
    else if io.load(key) != ERR_OK then io.load(key)
    else if !s.spaces[key].isCreateCompleted || s.spaces[key].toBeRemoved then SubProfileNotFound
    else if removal.Removed? then ERR_OK
    else removal.error
  }

  /**
   A deletion succeeds exactly on a live, readable sub-profile whose removal works. Then it is no
   longer stored, UNBOUND goes out on both channels exactly if it was bound, and everything else
   is as it was. Otherwise nothing goes out, and at most its flag is set.
   */
  lemma DeletionRemoves(s: State, key: Key, io: Io, removal: Removal)
    ensures
      var o := DeleteSubProfile(s, key, io, removal);
      && o.err == DeletionError(s, key, io, removal)
      && o.state.main == s.main
      && (forall k | k != key :: (k in o.state.spaces <==> k in s.spaces)
                                 && (k in s.spaces ==> o.state.spaces[k] == s.spaces[k]))
      && (o.err == ERR_OK ==>
            && key in s.spaces && key !in o.state.spaces
            && o.state.trace ==
               s.trace
               + (if s.spaces[key].account.ohos.status == ACCOUNT_STATE_UNBOUND then []
                  else [Published(Subscriber, key, UNBOUND), Published(Common, key, UNBOUND)])
               + [Ended(key)])
      && (o.err != ERR_OK ==>
            && o.state.trace == s.trace && (key in o.state.spaces <==> key in s.spaces)
            && (key in s.spaces ==>
                  o.state.spaces[key] == s.spaces[key]
                  || (removal.Stuck? && o.state.spaces[key] == s.spaces[key].(toBeRemoved := true))))
  {
  }

  lemma DeletionSays(s: State, key: Key, io: Io, removal: Removal, channel: Channel, k: Key)
    ensures
      var o := DeleteSubProfile(s, key, io, removal);
      Kinds(o.state.trace, channel, k) ==
      Kinds(s.trace, channel, k)
      + if o.err == ERR_OK && k == key && OhosOf(s, k).status != ACCOUNT_STATE_UNBOUND then [UNBOUND] else []
  {
    DeletionRemoves(s, key, io, removal);
    if DeleteSubProfile(s, key, io, removal).err == ERR_OK {
      var t := if OhosOf(s, key).status == ACCOUNT_STATE_UNBOUND then s.trace else Both(s.trace, key, UNBOUND);
      KindsBoth(s.trace, key, UNBOUND, channel, k);
      KindsOne(t, Ended(key), channel, k);
      assert DeleteSubProfile(s, key, io, removal).state.trace == t + [Ended(key)];
    }
  }

  /**
   A creation succeeds exactly when the id list is available and has room and the write works.
   Then a complete, unbound sub-profile of that OS account is stored under the free id, in place of
   what may have been there, and everything else is as it was. Nothing is published.
   */
  lemma CreationMakes(s: State, localId: int, listed: Result<seq<int>>, hint: int, io: Io, dropped: bool)
    ensures
      var o := CreateSubProfile(s, localId, listed, hint, io, dropped);
      var id := if listed.Ok? then NewId(localId, listed.value, hint) else None;
      && o.err ==
         (if listed.Err? then listed.error else if id.None? then SubProfileLimit else io.save(Key(localId, id.value)))
      && o.state.main == s.main
      && (id.None? ==> o.state == s)
      && (id.Some? ==>
            var key := Key(localId, id.value);
            && (forall k | k != key :: (k in o.state.spaces <==> k in s.spaces)
                                       && (k in s.spaces ==> o.state.spaces[k] == s.spaces[k]))
            && (o.err == ERR_OK ==>
                  && key in o.state.spaces
                  && o.state.spaces[key] ==
                     Space(AccountInfo(OhosAccountInfo(DEFAULT_OHOS_ACCOUNT_NAME, DEFAULT_OHOS_ACCOUNT_UID,
                                                       DEFAULT_OHOS_ACCOUNT_UID, ACCOUNT_STATE_UNBOUND,
                                                       DEFAULT_CALLING_UID, "", "", ""),
                                       0, localId, ACCOUNT_VERSION_ANON, 0),
                           id.value, true, false))
            && (o.err != ERR_OK && dropped ==> key !in o.state.spaces))
  {
  }

  lemma CreationSays(s: State, localId: int, listed: Result<seq<int>>, hint: int, io: Io, dropped: bool,
                     channel: Channel, k: Key)
    ensures Kinds(CreateSubProfile(s, localId, listed, hint, io, dropped).state.trace, channel, k) ==
            Kinds(s.trace, channel, k)
  {
    if listed.Ok? && NewId(localId, listed.value, hint).Some? {
      KindsOne(s.trace, Ended(Key(localId, NewId(localId, listed.value, hint).value)), channel, k);
    }
  }

  /** Reclaiming says nothing of anybody. */
  lemma {:induction false} ReclaimSays(s: State, keys: seq<Key>, goes: Key -> bool, channel: Channel, k: Key)
    ensures Kinds(RemoveAll(s, keys, goes).trace, channel, k) == Kinds(s.trace, channel, k)
    decreases |keys|
  {
    if keys != [] {
      KindsOne(s.trace, Ended(keys[0]), channel, k);
      ReclaimSays(if goes(keys[0]) then Without(s, keys[0]) else s, keys[1..], goes, channel, k);
    }
  }

  // ---------- a removed OS account ----------

  lemma {:induction false} FarewellAllSays(s: State, trace: seq<Item>, keys: seq<Key>, io: Io, channel: Channel, k: Key)
    requires forall i, j | 0 <= i < j < |keys| :: keys[i] != keys[j]
    ensures Kinds(FarewellAll(s, trace, keys, io), channel, k) ==
            Kinds(trace, channel, k) + if k in keys && Readable(s, k, io) then Goodbye(OhosOf(s, k).status) else []
    decreases |keys|
  {
    if keys != [] {
      FarewellOneSays(s, trace, keys[0], io, channel, k);
      if keys[0] == k {
        assert k !in keys[1..];
        FarewellPassesOver(s, FarewellOne(s, trace, k, io), keys[1..], io, channel, k);
      } else {
        assert k in keys <==> k in keys[1..];
        FarewellAllSays(s, FarewellOne(s, trace, keys[0], io), keys[1..], io, channel, k);
      }
    }
  }

  lemma {:induction false} FarewellPassesOver(s: State, trace: seq<Item>, keys: seq<Key>, io: Io, channel: Channel,
                                              k: Key)
    requires k !in keys
    ensures Kinds(FarewellAll(s, trace, keys, io), channel, k) == Kinds(trace, channel, k)
    decreases |keys|
  {
    if keys != [] {
      FarewellOneSays(s, trace, keys[0], io, channel, k);
      FarewellPassesOver(s, FarewellOne(s, trace, keys[0], io), keys[1..], io, channel, k);
    }
  }

  function FarewellOne(s: State, trace: seq<Item>, key: Key, io: Io): seq<Item> {
    if Readable(s, key, io) then Farewell(trace, key, OhosOf(s, key).status) else trace
  }

  lemma FarewellOneSays(s: State, trace: seq<Item>, key: Key, io: Io, channel: Channel, k: Key)
    ensures Kinds(FarewellOne(s, trace, key, io), channel, k) ==
            Kinds(trace, channel, k) + if k == key && Readable(s, k, io) then Goodbye(OhosOf(s, k).status) else []
  {
    FarewellSays(trace, key, OhosOf(s, key).status, channel, k);
  }

  lemma {:induction false} EndAllSays(trace: seq<Item>, keys: seq<Key>, channel: Channel, k: Key)
    ensures Kinds(EndAll(trace, keys), channel, k) == Kinds(trace, channel, k)
    decreases |keys|
  {
    if keys != [] {
      KindsOne(trace, Ended(keys[0]), channel, k);
      EndAllSays(trace + [Ended(keys[0])], keys[1..], channel, k);
    }
  }

  /**
   An OS account goes: its own record and all its sub-profiles are gone, everybody else's stay, and
   exactly the live sub-profiles of it that could be scanned and read get the farewell their status
   calls for.
   */
  lemma OsAccountRemovalSays(s: State, localId: int, io: Io, removed: bool, channel: Channel, k: Key)
    requires Keyed(s)
    ensures
      var s' := RemoveOsAccount(s, localId, io, removed);
      && (k in s'.spaces <==> k in s.spaces && !(removed && k.localId == localId))
      && (k in s'.spaces ==> s'.spaces[k] == s.spaces[k])
      && s'.main == (if removed then s.main - {localId} else s.main)
      && Kinds(s'.trace, channel, k) ==
         Kinds(s.trace, channel, k)
         + if k.localId == localId && Listed(s, k, io) && Readable(s, k, io) then Goodbye(OhosOf(s, k).status) else []
  {
    var ids := Scan(s, localId, io);
    var keys := KeysFor(localId, ids);
    ScanMeaning(s, localId, io);
    KeysForMember(localId, ids, k);
    assert k.localId == localId ==> k == Key(localId, k.subId);
    forall i, j | 0 <= i < j < |keys| ensures keys[i] != keys[j] { assert ids[i] < ids[j]; }
    FarewellAllSays(s, s.trace, keys, io, channel, k);
    EndAllSays(SendLogoutOnDelete(s, localId, io).trace, DoomedKeys(s, localId), channel, k);
  }

  // ---------- runs ----------

  /** What one step says of a record. */
  ghost function StepSays(sha: Sha256, s: State, step: Step, k: Key): seq<Kind> {
    match step
    case Change(key, info, event, io) =>
      if k == key && StateChange(sha, s, key, info, event, io).err == ERR_OK
      then Announced(event, OhosOf(s, k).status) else []
    case PackageRemoved(ids, bundleUid, io) =>
      var visits := if Headless(k) || Listed(s, k, io) then multiset(ids)[k.localId] else 0;
      Times(Clearings(s, visits, bundleUid, io, k), [LOGOUT, UNBOUND])
    case SubProfileCreated(_, _, _, _, _) => []
    case SubProfileDeleted(key, io, removal) =>
      if k == key && DeletionError(s, key, io, removal) == ERR_OK && OhosOf(s, k).status != ACCOUNT_STATE_UNBOUND
      then [UNBOUND] else []
    case GarbageRemoved(_, _, _, _) => []
    case OsAccountRemoved(localId, io, removed) =>
      if k.localId == localId && Listed(s, k, io) && Readable(s, k, io) then Goodbye(OhosOf(s, k).status) else []
  }

  ghost function RunSays(sha: Sha256, s: State, steps: seq<Step>, k: Key): seq<Kind>
    decreases |steps|
  {
    if steps == [] then []
    else StepSays(sha, s, steps[0], k) + RunSays(sha, Apply(sha, s, steps[0]), steps[1..], k)
  }

  /** Over every run, exactly what its steps say of a record is published of it, in that order, on either channel. */
  lemma {:induction false} EverythingSaid(sha: Sha256, s: State, steps: seq<Step>, channel: Channel, k: Key)
    requires RecordsOk(s)
    ensures Kinds(Run(sha, s, steps).trace, channel, k) == Kinds(s.trace, channel, k) + RunSays(sha, s, steps, k)
    decreases |steps|
  {
    if steps != [] {
      StepIsSaid(sha, s, steps[0], channel, k);
      StepKeepsRecords(sha, s, steps[0]);
      EverythingSaid(sha, Apply(sha, s, steps[0]), steps[1..], channel, k);
      SaidInTurn(Kinds(s.trace, channel, k), StepSays(sha, s, steps[0], k),
                 RunSays(sha, Apply(sha, s, steps[0]), steps[1..], k));
    }
  }

  lemma StepIsSaid(sha: Sha256, s: State, step: Step, channel: Channel, k: Key)
    requires Keyed(s)
    ensures Kinds(Apply(sha, s, step).trace, channel, k) == Kinds(s.trace, channel, k) + StepSays(sha, s, step, k)
  {
    match step
    case Change(key, info, event, io) => RequestSays(sha, s, key, info, event, io, channel, k);
    case PackageRemoved(ids, bundleUid, io) => PackageRemovalClears(sha, s, ids, bundleUid, io, k, channel);
    case SubProfileCreated(localId, listed, hint, io, dropped) =>
      CreationSays(s, localId, listed, hint, io, dropped, channel, k);
    case SubProfileDeleted(key, io, removal) =>
      DeletionRemoves(s, key, io, removal);
      DeletionSays(s, key, io, removal, channel, k);
    case GarbageRemoved(localId, kind, io, goes) =>
      ReclaimSays(s, GarbageKeys(s, localId, kind, io), goes, channel, k);
    case OsAccountRemoved(localId, io, removed) => OsAccountRemovalSays(s, localId, io, removed, channel, k);
  }
}
