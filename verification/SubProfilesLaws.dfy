/**
 What holds of the sub-profile build over every run: the identity invariant, uniqueness
 of bindings, the published history, and what an error leaves behind.
 */
module SubProfilesLaws {
  import opened AccountTypes
  import opened AccountStateMachineModel
  import opened BindingEvents
  import opened SubProfilesSpec
  import SubProfileIds

  // ---------- invariants ----------

  /** Every sub-profile is stored under its own key, and never under a headless one. */
  ghost predicate Keyed(s: State) {
    forall k | k in s.spaces ::
      && KeyOf(s.spaces[k]) == k
      && SubProfileIds.MinId(k.localId) <= k.subId <= SubProfileIds.MaxId(k.localId)
  }

  ghost predicate RecordOk(info: OhosAccountInfo) {
    IdentityOk(info) && KnownState(SubProfiles, info.status)
  }

  ghost predicate RecordsOk(s: State) {
    Keyed(s) && forall key :: RecordOk(OhosOf(s, key))
  }

  function Bound(s: State, key: Key): bool {
    OhosOf(s, key).status != ACCOUNT_STATE_UNBOUND
  }

  /** `key` is a stored sub-profile, pending removal or not, bound to the account (name, hashed uid). */
  ghost predicate Holds(s: State, key: Key, name: string, uid: string) {
    && key in s.spaces
    && s.spaces[key].account.ohos.status != ACCOUNT_STATE_UNBOUND
    && s.spaces[key].account.ohos.name == name
    && s.spaces[key].account.ohos.uid == uid
  }

  /** No two stored sub-profiles of one OS account are bound to the same account. */
  ghost predicate Unique(s: State) {
    forall j: Key, k: Key, name, uid |
      j.localId == k.localId && Holds(s, j, name, uid) && Holds(s, k, name, uid) :: j == k
  }

  ghost predicate Told(s: State, channel: Channel, key: Key) {
    Tells(Replay(s.trace, channel, key), OhosOf(s, key).status)
  }

  ghost predicate TraceOk(s: State) {
    forall channel, key :: Told(s, channel, key)
  }

  ghost predicate AllSettled(s: State) {
    forall channel, key :: Replay(s.trace, channel, key).settled
  }

  // ---------- scanning and verifying ----------

  lemma {:induction false} IdsBetweenMeaning(spaces: map<Key, Space>, keep: Key -> bool, localId: int, lo: int, hi: int)
    ensures
      var ids := IdsBetween(spaces, keep, localId, lo, hi);
      && (forall id :: id in ids <==> lo <= id < hi && Key(localId, id) in spaces && keep(Key(localId, id)))
      && (forall i, j | 0 <= i < j < |ids| :: ids[i] < ids[j])
    decreases hi - lo
  {
    if lo < hi {
      IdsBetweenMeaning(spaces, keep, localId, lo + 1, hi);
      var rest := IdsBetween(spaces, keep, localId, lo + 1, hi);
      var ids := IdsBetween(spaces, keep, localId, lo, hi);
      forall id ensures id in ids <==> lo <= id < hi && Key(localId, id) in spaces && keep(Key(localId, id)) {
        if id == lo { assert lo !in rest; }
        assert id in [lo] + rest <==> id == lo || id in rest;
      }
      forall i, j | 0 <= i < j < |ids| ensures ids[i] < ids[j] {
        if ids != rest && i == 0 { assert ids[j] in rest; }
      }
    }
  }

  /** A scan finds exactly the live sub-profiles it could read, each once. */
  lemma ScanMeaning(s: State, localId: int, io: Io)
    requires Keyed(s)
    ensures
      var ids := Scan(s, localId, io);
      && (forall id :: id in ids <==>
            Key(localId, id) in s.spaces && Live(s.spaces[Key(localId, id)]) && io.seen(Key(localId, id)))
      && (forall i, j | 0 <= i < j < |ids| :: ids[i] < ids[j])
  {
    IdsBetweenMeaning(s.spaces, Scannable(s, io), localId,
                      SubProfileIds.MinId(localId), SubProfileIds.MaxId(localId) + 1);
  }

  /** The verification loop passes exactly when every other id is readable and not bound to the account. */
  lemma {:induction false} VerifyOthersMeaning(sha: Sha256, s: State, key: Key, ids: seq<int>, info: OhosAccountInfo,
                                               io: Io)
    ensures VerifyOthers(sha, s, key, ids, info, io) == ERR_OK <==>
            forall id | id in ids && id != key.subId ::
              && Readable(s, Key(key.localId, id), io)
              && !CheckSameDistributedAccount(sha, OhosOf(s, Key(key.localId, id)), info)
    decreases |ids|
  {
    if ids != [] {
      VerifyOthersMeaning(sha, s, key, ids[1..], info, io);
      assert forall id :: id in ids <==> id == ids[0] || id in ids[1..];
    }
  }

  /** Verification looks only at sub-profiles, not at the headless record. */
  lemma {:induction false} VerifySameSpaces(sha: Sha256, s: State, t: State, key: Key, ids: seq<int>,
                                            info: OhosAccountInfo, io: Io)
    requires s.spaces == t.spaces
    requires forall id | id in ids :: !Headless(Key(key.localId, id))
    ensures VerifyOthers(sha, s, key, ids, info, io) == VerifyOthers(sha, t, key, ids, info, io)
    decreases |ids|
  {
    if ids != [] {
      VerifySameSpaces(sha, s, t, key, ids[1..], info, io);
    }
  }

  // ---------- one request ----------

  ghost predicate DecidedWell(cur: Space, info: OhosAccountInfo, hashed: string, event: EventName,
                              decided: Result<Space>)
  {
    decided.Ok? ==>
      var before := cur.account.ohos;
      var after := decided.value.account.ohos;
      && KeyOf(decided.value) == KeyOf(cur)
      && decided.value.isCreateCompleted == cur.isCreateCompleted
      && decided.value.toBeRemoved == cur.toBeRemoved
      && RecordOk(after)
      && after.status != ACCOUNT_STATE_UNBOUND
      && after.status == StatusWanted(event)
      && (if event.LoginEvent? then
            after.name == CText(info.name) && after.uid == hashed && |hashed| == OHOS_ACCOUNT_UDID_LENGTH
          else after.name == before.name && after.uid == before.uid)
      && (!event.LoginEvent? || before.status != ACCOUNT_STATE_UNBOUND ==>
            before.status != ACCOUNT_STATE_UNBOUND && after.name == before.name && after.uid == before.uid)
  }

  function StatusWanted(event: EventName): int {
    match event
    case LoginEvent => ACCOUNT_STATE_LOGIN
    case LogoutEvent => ACCOUNT_STATE_NOTLOGIN
    case LogoffEvent => ACCOUNT_STATE_LOGOFF
    case _ => ACCOUNT_STATE_TOKEN_EXPIRED
  }

  lemma DecideMeaning(sha: Sha256, s: State, key: Key, info: OhosAccountInfo, event: EventName, io: Io)
    requires RecordOk(OhosOf(s, key)) && !event.UnknownEvent? && Readable(s, key, io)
    ensures DecidedWell(Found(s, key, io), info, GenerateOhosUdid(sha, info.name, info.uid), event,
                        Decision(sha, s, key, info, event, io))
  {
    var cur := OhosOf(s, key);
    assert |DEFAULT_OHOS_ACCOUNT_UID| == 16;
    assert Found(s, key, io).account.ohos == cur;
    if cur.status == ACCOUNT_STATE_UNBOUND {
      UnboundNeverMatches(sha, cur, info);
    }
    DecideRecord(sha, Found(s, key, io), info, event, io, Admission(sha, s, key, cur, info, event, io));
  }

  lemma DecideRecord(sha: Sha256, cur: Space, info: OhosAccountInfo, event: EventName, io: Io, admission: ErrCode)
    requires RecordOk(cur.account.ohos) && !event.UnknownEvent?
    requires admission == ERR_OK && event.LoginEvent? ==>
               |GenerateOhosUdid(sha, info.name, info.uid)| == OHOS_ACCOUNT_UDID_LENGTH
    requires admission == ERR_OK && (!event.LoginEvent? || cur.account.ohos.status != ACCOUNT_STATE_UNBOUND) ==>
               && CheckSameDistributedAccount(sha, cur.account.ohos, info)
               && cur.account.ohos.status != ACCOUNT_STATE_UNBOUND
    ensures DecidedWell(cur, info, GenerateOhosUdid(sha, info.name, info.uid), event,
                        Decide(sha, cur, info, event, io, admission))
  {
    assert |DEFAULT_OHOS_ACCOUNT_UID| == 16;
    CTextMeaning(info.name);
  }

  /** The request gets as far as writing. */
  ghost predicate Reached(s: State, key: Key, event: EventName, io: Io, decided: Result<Space>) {
    !event.UnknownEvent? && Readable(s, key, io) && decided.Ok?
  }

  /**
   The checks a request has to pass, on what is stored and on what the scan lists. Bound records
   take only requests for their own account. A first login needs a well-formed identity, and
   every other listed sub-profile to be readable and not bound to the account.
   */
  ghost predicate Admits(sha: Sha256, s: State, key: Key, info: OhosAccountInfo, event: EventName, io: Io) {
    var cur := OhosOf(s, key);
    if event.UnknownEvent? then false
    else if event.LoginEvent? && cur.status == ACCOUNT_STATE_UNBOUND then
      && |GenerateOhosUdid(sha, info.name, info.uid)| == OHOS_ACCOUNT_UDID_LENGTH
      && forall k: Key | k != key && k.localId == key.localId && Listed(s, k, io) ::
           Readable(s, k, io) && !CheckSameDistributedAccount(sha, OhosOf(s, k), info)
    else CheckSameDistributedAccount(sha, cur, info)
  }

  /** Exactly the requests that pass these checks have something to write. */
  lemma AdmitsExactly(sha: Sha256, s: State, key: Key, info: OhosAccountInfo, event: EventName, io: Io)
    requires RecordsOk(s)
    ensures Readable(s, key, io) ==>
              (Reached(s, key, event, io, Decision(sha, s, key, info, event, io)) <==>
               Admits(sha, s, key, info, event, io))
  {
    var cur := OhosOf(s, key);
    assert RecordOk(cur);
    assert |DEFAULT_OHOS_ACCOUNT_UID| == 16;
    if cur.status == ACCOUNT_STATE_UNBOUND {
      UnboundNeverMatches(sha, cur, info);
    }
    if Readable(s, key, io) {
      FoundKey(s, key, io);
      if event.LoginEvent? && cur.status == ACCOUNT_STATE_UNBOUND {
        VerifyListed(sha, s, key, info, io);
      }
    }
  }

  /** The verification of a first login, said of the listed sub-profiles. */
  lemma VerifyListed(sha: Sha256, s: State, key: Key, info: OhosAccountInfo, io: Io)
    requires Keyed(s)
    ensures VerifyOthers(sha, s, key, Scan(s, key.localId, io), info, io) == ERR_OK <==>
              forall k: Key | k != key && k.localId == key.localId && Listed(s, k, io) ::
                Readable(s, k, io) && !CheckSameDistributedAccount(sha, OhosOf(s, k), info)
  {
    var ids := Scan(s, key.localId, io);
    ScanMeaning(s, key.localId, io);
    VerifyOthersMeaning(sha, s, key, ids, info, io);
    forall k: Key | k.localId == key.localId ensures k == Key(key.localId, k.subId) {
    }
    assert forall id :: id in ids <==> Listed(s, Key(key.localId, id), io);
  }

  /** The whole effect of a request on identities, sub-profiles and history. */
  lemma CarryEffect(s: State, key: Key, event: EventName, io: Io, decided: Result<Space>)
    requires decided.Ok? ==> KeyOf(decided.value) == key
    ensures
      var o := Carry(s, key, event, io, decided);
      var reached := Reached(s, key, event, io, decided);
      var wrote := reached && Writes(key, io);
      var done := reached && io.save(key) == ERR_OK;
      && (o.err == ERR_OK <==> done)
      && (forall k :: OhosOf(o.state, k) == if k == key && wrote then decided.value.account.ohos else OhosOf(s, k))
      && o.state.spaces == (if wrote && !Headless(key) then s.spaces[key := decided.value] else s.spaces)
      && o.state.trace == (if done then Publish(s.trace, key, event, OhosOf(s, key).status) else s.trace)
  {
  }

  lemma FoundKey(s: State, key: Key, io: Io)
    requires Keyed(s) && Readable(s, key, io)
    ensures KeyOf(Found(s, key, io)) == key && Found(s, key, io).account.ohos == OhosOf(s, key)
  {
  }

  lemma CarryKeepsRecords(s: State, key: Key, event: EventName, io: Io, decided: Result<Space>)
    requires RecordsOk(s)
    requires decided.Ok? ==> KeyOf(decided.value) == key && RecordOk(decided.value.account.ohos)
    ensures RecordsOk(Carry(s, key, event, io, decided).state)
  {
    CarryEffect(s, key, event, io, decided);
    forall k ensures RecordOk(OhosOf(Carry(s, key, event, io, decided).state, k)) {
      assert RecordOk(OhosOf(s, k));
    }
  }

  lemma ReplayPublish(trace: seq<Item>, key: Key, event: EventName, status: int, channel: Channel, k: Key)
    requires !event.UnknownEvent?
    requires k == key ==> Tells(Replay(trace, channel, k), status)
    requires event.LoginEvent? || status != ACCOUNT_STATE_UNBOUND
    ensures
      var o := Replay(trace, channel, k);
      Replay(Publish(trace, key, event, status), channel, k) ==
      if k == key then Observer(StatusWanted(event), true, true, o.settled) else o
  {
    match event
    case LoginEvent =>
      ReplayBoth(trace, key, BOUND, channel, k);
      ReplayBoth(if status == ACCOUNT_STATE_UNBOUND then Both(trace, key, BOUND) else trace, key, LOGIN, channel, k);
    case LogoutEvent => ReplayBoth(trace, key, LOGOUT, channel, k);
    case LogoffEvent => ReplayBoth(trace, key, LOGOFF, channel, k);
    case TokenInvalidEvent => ReplayBoth(trace, key, TOKEN_INVALID, channel, k);
  }

  /** A request keeps the history true of every record unless it was written and not published. */
  lemma CarryTells(s: State, key: Key, event: EventName, io: Io, decided: Result<Space>, channel: Channel, k: Key)
    requires Told(s, channel, k)
    requires decided.Ok? ==>
               && KeyOf(decided.value) == key
               && decided.value.account.ohos.status == StatusWanted(event)
               && (event.LoginEvent? || Bound(s, key))
    ensures
      var s' := Carry(s, key, event, io, decided).state;
      && Replay(s'.trace, channel, k).settled == Replay(s.trace, channel, k).settled
      && (Told(s', channel, k) <==>
          k != key
          || !(Reached(s, key, event, io, decided) && OhosOf(s, key).status != StatusWanted(event)
               && Writes(key, io) && io.save(key) != ERR_OK))
  {
    CarryEffect(s, key, event, io, decided);
    if Reached(s, key, event, io, decided) && io.save(key) == ERR_OK {
      ReplayPublish(s.trace, key, event, OhosOf(s, key).status, channel, k);
    }
  }

  /** Gathers what the lemmas on `Carry` need to know about a request's decision. */
  lemma RequestFacts(sha: Sha256, s: State, key: Key, info: OhosAccountInfo, event: EventName, io: Io)
    requires RecordsOk(s) && !event.UnknownEvent?
    ensures
      var decided := Decision(sha, s, key, info, event, io);
      decided.Ok? ==>
        && Readable(s, key, io)
        && KeyOf(decided.value) == key
        && RecordOk(decided.value.account.ohos)
        && decided.value.account.ohos.status == StatusWanted(event)
        && (event.LoginEvent? || Bound(s, key))
  {
    assert RecordOk(OhosOf(s, key));
    if Readable(s, key, io) {
      FoundKey(s, key, io);
      DecideMeaning(sha, s, key, info, event, io);
    }
  }

  lemma ChangeTells(sha: Sha256, s: State, key: Key, info: OhosAccountInfo, event: EventName, io: Io,
                    channel: Channel, k: Key)
    requires RecordsOk(s) && Told(s, channel, k)
    ensures
      var s' := StateChange(sha, s, key, info, event, io).state;
      && Replay(s'.trace, channel, k).settled == Replay(s.trace, channel, k).settled
      && (Told(s', channel, k) <==> !MisreportsAt(sha, s, Change(key, info, event, io), k))
  {
    if !event.UnknownEvent? {
      RequestFacts(sha, s, key, info, event, io);
      AdmitsExactly(sha, s, key, info, event, io);
      CarryTells(s, key, event, io, Decision(sha, s, key, info, event, io), channel, k);
    }
  }

  // ---------- a removed package ----------

  ghost predicate ClearFails(s: State, key: Key, bundleUid: int, io: Io) {
    ClearMatches(s, key, bundleUid, io) && !Writes(key, io)
  }

  lemma ClearEffect(s: State, key: Key, bundleUid: int, io: Io)
    ensures
      var s' := ClearIfMatch(s, key, bundleUid, io);
      var matched := ClearMatches(s, key, bundleUid, io);
      && (forall k :: OhosOf(s', k) ==
            if k == key && matched && Writes(key, io) then DefaultOhosInfo().(rawUid := "") else OhosOf(s, k))
      && s'.trace == (if matched then Both(Both(s.trace, key, LOGOUT), key, UNBOUND) else s.trace)
      && s'.spaces.Keys == s.spaces.Keys
      && (forall k | k in s.spaces ::
            && KeyOf(s'.spaces[k]) == KeyOf(s.spaces[k])
            && s'.spaces[k].isCreateCompleted == s.spaces[k].isCreateCompleted
            && s'.spaces[k].toBeRemoved == s.spaces[k].toBeRemoved)
  {
  }

  lemma ClearOneTells(s: State, key: Key, bundleUid: int, io: Io, channel: Channel, k: Key)
    ensures
      var s' := ClearIfMatch(s, key, bundleUid, io);
      var o, o' := Replay(s.trace, channel, k), Replay(s'.trace, channel, k);
      var fails := ClearFails(s, key, bundleUid, io);
      && o'.settled == o.settled
      && (k != key ==> OhosOf(s', k) == OhosOf(s, k) && o' == o)
      && (k == key && fails ==> OhosOf(s', k) == OhosOf(s, k) && o'.status == ACCOUNT_STATE_UNBOUND)
      && (k == key && !fails && Told(s, channel, k) ==> Told(s', channel, k))
  {
    ClearEffect(s, key, bundleUid, io);
    ReplayBoth(s.trace, key, LOGOUT, channel, k);
    ReplayBoth(Both(s.trace, key, LOGOUT), key, UNBOUND, channel, k);
  }

  /** Clearing one record does not change whether clearing another would fail; a failure is there to stay. */
  lemma ClearingKeepsFailures(s: State, key: Key, bundleUid: int, io: Io, k: Key)
    ensures ClearFails(ClearIfMatch(s, key, bundleUid, io), k, bundleUid, io) <==> ClearFails(s, k, bundleUid, io)
  {
    ClearEffect(s, key, bundleUid, io);
  }

  lemma {:induction false} ClearAllTells(s: State, keys: seq<Key>, bundleUid: int, io: Io, channel: Channel, k: Key)
    ensures
      var s' := ClearAll(s, keys, bundleUid, io);
      var failed := k in keys && ClearFails(s, k, bundleUid, io);
      && Replay(s'.trace, channel, k).settled == Replay(s.trace, channel, k).settled
      && (failed ==> Bound(s', k) && Replay(s'.trace, channel, k).status == ACCOUNT_STATE_UNBOUND)
      && (!failed && Told(s, channel, k) ==> Told(s', channel, k))
      && (k !in keys ==> OhosOf(s', k) == OhosOf(s, k) && Replay(s'.trace, channel, k) == Replay(s.trace, channel, k))
    decreases |keys|
  {
    if keys != [] {
      ClearOneTells(s, keys[0], bundleUid, io, channel, k);
      ClearingKeepsFailures(s, keys[0], bundleUid, io, k);
      ClearAllTells(ClearIfMatch(s, keys[0], bundleUid, io), keys[1..], bundleUid, io, channel, k);
      assert k in keys <==> k == keys[0] || k in keys[1..];
    }
  }

  lemma {:induction false} ClearAllKeeps(s: State, keys: seq<Key>, bundleUid: int, io: Io)
    requires RecordsOk(s)
    ensures RecordsOk(ClearAll(s, keys, bundleUid, io)) && Shrinks(s, ClearAll(s, keys, bundleUid, io))
    decreases |keys|
  {
    if keys != [] {
      var s1 := ClearIfMatch(s, keys[0], bundleUid, io);
      ClearEffect(s, keys[0], bundleUid, io);
      assert RecordsOk(s1) by {
        forall k ensures RecordOk(OhosOf(s1, k)) { assert RecordOk(OhosOf(s, k)); }
      }
      ClearShrinks(s, keys[0], bundleUid, io);
      ClearAllKeeps(s1, keys[1..], bundleUid, io);
    }
  }

  lemma ClearShrinks(s: State, key: Key, bundleUid: int, io: Io)
    requires Keyed(s)
    ensures Shrinks(s, ClearIfMatch(s, key, bundleUid, io))
  {
    var s' := ClearIfMatch(s, key, bundleUid, io);
    ClearEffect(s, key, bundleUid, io);
    forall k, name, uid | Holds(s', k, name, uid) ensures Holds(s, k, name, uid) {
      assert OhosOf(s', k) == s'.spaces[k].account.ohos && OhosOf(s, k) == s.spaces[k].account.ohos;
    }
  }

  /** Whoever holds an account afterwards held it before. */
  ghost predicate Shrinks(s: State, s': State) {
    forall k, name, uid | Holds(s', k, name, uid) :: Holds(s, k, name, uid)
  }

  lemma ShrinkingKeepsUnique(s: State, s': State)
    requires Unique(s) && Shrinks(s, s')
    ensures Unique(s')
  {
  }

  /** The two states store the same sub-profiles with the same flags. */
  ghost predicate SameFlags(s: State, t: State) {
    && s.spaces.Keys == t.spaces.Keys
    && forall k | k in s.spaces :: Live(s.spaces[k]) == Live(t.spaces[k])
  }

  lemma {:induction false} SameIds(s: State, t: State, io: Io, localId: int, lo: int, hi: int)
    requires SameFlags(s, t)
    ensures IdsBetween(s.spaces, Scannable(s, io), localId, lo, hi) ==
            IdsBetween(t.spaces, Scannable(t, io), localId, lo, hi)
    decreases hi - lo
  {
    if lo < hi {
      SameIds(s, t, io, localId, lo + 1, hi);
    }
  }

  lemma SameScans(s: State, t: State, io: Io, localId: int)
    requires SameFlags(s, t)
    ensures Scan(s, localId, io) == Scan(t, localId, io)
  {
    SameIds(s, t, io, localId, SubProfileIds.MinId(localId), SubProfileIds.MaxId(localId) + 1);
  }

  /** Clearing records does not change which ones a removal visits. */
  lemma {:induction false} VisitedKeysStable(s: State, t: State, ids: seq<int>, io: Io)
    requires SameFlags(s, t)
    ensures VisitedKeys(s, ids, io) == VisitedKeys(t, ids, io)
  {
    if ids != [] {
      SameScans(s, t, io, ids[0]);
      VisitedKeysStable(s, t, ids[1..], io);
    }
  }

  /** A package removal looks at this record when it looks at its OS account. */
  ghost predicate LookedAt(s: State, io: Io, k: Key) {
    Headless(k) || Listed(s, k, io)
  }

  /** Whom a package removal visits: of the OS accounts named, the headless record and what the scan lists. */
  lemma {:induction false} VisitedMember(s: State, ids: seq<int>, io: Io, k: Key)
    requires Keyed(s)
    ensures k in VisitedKeys(s, ids, io) <==> k.localId in ids && LookedAt(s, io, k)
  {
    if ids != [] {
      var scanned := Scan(s, ids[0], io);
      ScanMeaning(s, ids[0], io);
      KeysForMember(ids[0], scanned, k);
      VisitedMember(s, ids[1..], io, k);
      assert k.localId == ids[0] ==> k == Key(ids[0], k.subId);
      assert k.localId in ids <==> k.localId == ids[0] || k.localId in ids[1..];
    }
  }

  // ---------- a removed OS account ----------

  lemma {:induction false} FarewellAllTells(s: State, trace: seq<Item>, keys: seq<Key>, io: Io, channel: Channel,
                                            k: Key)
    requires forall i, j | 0 <= i < j < |keys| :: keys[i] != keys[j]
    requires k in keys ==> Tells(Replay(trace, channel, k), OhosOf(s, k).status)
    ensures
      var o := Replay(trace, channel, k);
      Replay(FarewellAll(s, trace, keys, io), channel, k) ==
      if k in keys && Readable(s, k, io) then Observer(ACCOUNT_STATE_UNBOUND, false, true, o.settled) else o
    decreases |keys|
  {
    if keys != [] {
      var t := if Readable(s, keys[0], io) then Farewell(trace, keys[0], OhosOf(s, keys[0]).status) else trace;
      ReplayFarewell(trace, keys[0], OhosOf(s, keys[0]).status, channel, k);
      assert k in keys <==> k == keys[0] || k in keys[1..];
      assert k in keys[1..] ==> k != keys[0];
      FarewellAllTells(s, t, keys[1..], io, channel, k);
    }
  }

  lemma {:induction false} ReplayEndAll(trace: seq<Item>, keys: seq<Key>, channel: Channel, k: Key)
    ensures
      var o := Replay(trace, channel, k);
      Replay(EndAll(trace, keys), channel, k) ==
      if k in keys then Observer(ACCOUNT_STATE_UNBOUND, false, o.ordered, o.settled && !o.open) else o
    decreases |keys|
  {
    if keys != [] {
      ReplayEnd(trace, keys[0], channel, k);
      ReplayEndAll(trace + [Ended(keys[0])], keys[1..], channel, k);
      assert k in keys <==> k == keys[0] || k in keys[1..];
    }
  }

  lemma KeysForMember(localId: int, ids: seq<int>, k: Key)
    ensures k in KeysFor(localId, ids) <==> k.localId == localId && k.subId in ids
  {
    if k.localId == localId && k.subId in ids {
      var i :| 0 <= i < |ids| && ids[i] == k.subId;
      assert KeysFor(localId, ids)[i] == k;
    }
  }

  lemma DoomedMember(s: State, localId: int, k: Key)
    requires Keyed(s)
    ensures k in DoomedKeys(s, localId) <==> k == HeadlessKey(localId) || (k.localId == localId && k in s.spaces)
  {
    var ids := StoredIds(s, Anything(), localId);
    IdsBetweenMeaning(s.spaces, Anything(), localId, SubProfileIds.MinId(localId), SubProfileIds.MaxId(localId) + 1);
    KeysForMember(localId, ids, k);
    if k.localId == localId && k in s.spaces {
      assert k == Key(localId, k.subId);
    }
  }

  /** This record gets a farewell when OS account `localId` goes. */
  ghost predicate Greeted(s: State, localId: int, io: Io, k: Key) {
    k.localId == localId && k in s.spaces && Live(s.spaces[k]) && io.seen(k) && Readable(s, k, io)
  }

  lemma FarewellTells(s: State, localId: int, io: Io, channel: Channel, k: Key)
    requires RecordsOk(s) && Told(s, channel, k)
    ensures
      var o := Replay(s.trace, channel, k);
      Replay(SendLogoutOnDelete(s, localId, io).trace, channel, k) ==
      if Greeted(s, localId, io, k) then Observer(ACCOUNT_STATE_UNBOUND, false, true, o.settled) else o
  {
    var ids := Scan(s, localId, io);
    var keys := KeysFor(localId, ids);
    ScanMeaning(s, localId, io);
    KeysForMember(localId, ids, k);
    assert k.localId == localId ==> k == Key(localId, k.subId);
    assert forall i, j | 0 <= i < j < |keys| :: keys[i] != keys[j] by {
      forall i, j | 0 <= i < j < |keys| ensures keys[i] != keys[j] { assert ids[i] < ids[j]; }
    }
    FarewellAllTells(s, s.trace, keys, io, channel, k);
  }

  lemma RemoveTells(s: State, localId: int, io: Io, removed: bool, channel: Channel, k: Key)
    requires RecordsOk(s) && Told(s, channel, k)
    ensures
      var s' := RemoveOsAccount(s, localId, io, removed);
      && (Told(s', channel, k) <==> removed || !Greeted(s, localId, io, k) || !Bound(s, k))
      && Replay(s'.trace, channel, k).settled ==
         (Replay(s.trace, channel, k).settled &&
          !(removed && k.localId == localId && Bound(s, k) && !Greeted(s, localId, io, k)))
  {
    var s1 := SendLogoutOnDelete(s, localId, io);
    var s' := RemoveOsAccount(s, localId, io, removed);
    FarewellTells(s, localId, io, channel, k);
    if removed {
      DoomedMember(s, localId, k);
      ReplayEndAll(s1.trace, DoomedKeys(s, localId), channel, k);
      assert OhosOf(s', k) == if k.localId == localId then DefaultOhosInfo() else OhosOf(s, k);
      assert k.localId == localId && k !in DoomedKeys(s, localId) ==> !Bound(s, k);
    } else {
      assert OhosOf(s', k) == OhosOf(s, k);
    }
  }

  // ---------- sub-profiles made, deleted and reclaimed ----------

  /** Taking away what is stored under a key ends that record, and nothing else. */
  lemma WithoutEffect(s: State, key: Key, channel: Channel, k: Key)
    ensures
      var s' := Without(s, key);
      var o := Replay(s.trace, channel, k);
      Replay(s'.trace, channel, k) ==
      if k == key && key in s.spaces then Observer(ACCOUNT_STATE_UNBOUND, false, o.ordered, o.settled && !o.open)
      else o
  {
    ReplayEnd(s.trace, key, channel, k);
  }

  lemma WithoutKeeps(s: State, key: Key)
    requires RecordsOk(s)
    ensures RecordsOk(Without(s, key)) && Shrinks(s, Without(s, key))
  {
    forall k ensures RecordOk(OhosOf(Without(s, key), k)) { assert RecordOk(OhosOf(s, k)); }
  }

  lemma WithFreshKeeps(s: State, key: Key)
    requires RecordsOk(s) && SubProfileIds.MinId(key.localId) <= key.subId <= SubProfileIds.MaxId(key.localId)
    ensures RecordsOk(WithFresh(s, key)) && Shrinks(s, WithFresh(s, key))
  {
    forall k ensures RecordOk(OhosOf(WithFresh(s, key), k)) { assert RecordOk(OhosOf(s, k)); }
  }

  /** The id a creation takes is one of a sub-profile, and not listed. */
  lemma NewIdMeaning(localId: int, listed: seq<int>, hint: int)
    ensures
      var id := NewId(localId, listed, hint);
      id.Some? ==>
        && SubProfileIds.MinId(localId) <= id.value <= SubProfileIds.MaxId(localId)
        && !Headless(Key(localId, id.value)) && id.value !in listed
  {
    SubProfileIds.AllocateMeaning(localId, hint, set id | id in listed);
  }

  lemma CreateKeeps(s: State, localId: int, listed: Result<seq<int>>, hint: int, io: Io, dropped: bool)
    requires RecordsOk(s)
    ensures
      var s' := CreateSubProfile(s, localId, listed, hint, io, dropped).state;
      RecordsOk(s') && Shrinks(s, s')
  {
    if listed.Ok? && NewId(localId, listed.value, hint).Some? {
      var key := Key(localId, NewId(localId, listed.value, hint).value);
      NewIdMeaning(localId, listed.value, hint);
      WithFreshKeeps(s, key);
      WithoutKeeps(s, key);
    }
  }

  lemma PlacedTells(s: State, key: Key, io: Io, dropped: bool, channel: Channel, k: Key)
    requires Told(s, channel, k) && !Headless(key)
    ensures
      var s' := Placed(s, key, io, dropped).state;
      && Told(s', channel, k)
      && Replay(s'.trace, channel, k).settled ==
         (Replay(s.trace, channel, k).settled &&
          !(k == key && key in s.spaces && (Writes(key, io) || dropped) && Bound(s, k)))
  {
    WithoutEffect(s, key, channel, k);
  }

  /** A creation takes the id of this stored record, for want of its being listed, and writes or drops its directory. */
  ghost predicate Replaced(s: State, localId: int, listed: Result<seq<int>>, hint: int, io: Io, dropped: bool, k: Key) {
    && k in s.spaces && k.localId == localId
    && listed.Ok? && NewId(localId, listed.value, hint) == Some(k.subId)
    && (Writes(k, io) || dropped)
  }

  /** Where the id list lists all that is stored, nothing is replaced. */
  lemma ListedAreNotReplaced(s: State, localId: int, listed: seq<int>, hint: int, io: Io, dropped: bool, k: Key)
    requires forall j: Key | j in s.spaces && j.localId == localId :: j.subId in listed
    ensures !Replaced(s, localId, Ok(listed), hint, io, dropped, k)
  {
    NewIdMeaning(localId, listed, hint);
  }

  /** Creating closes the lifetime of a bound record it replaces without its UNBOUND. */
  lemma CreateTells(s: State, localId: int, listed: Result<seq<int>>, hint: int, io: Io, dropped: bool,
                    channel: Channel, k: Key)
    requires Told(s, channel, k)
    ensures
      var s' := CreateSubProfile(s, localId, listed, hint, io, dropped).state;
      && Told(s', channel, k)
      && Replay(s'.trace, channel, k).settled ==
         (Replay(s.trace, channel, k).settled && !(Replaced(s, localId, listed, hint, io, dropped, k) && Bound(s, k)))
  {
    if listed.Ok? && NewId(localId, listed.value, hint).Some? {
      var key := Key(localId, NewId(localId, listed.value, hint).value);
      NewIdMeaning(localId, listed.value, hint);
      PlacedTells(s, key, io, dropped, channel, k);
    }
  }

  lemma DeleteKeeps(s: State, key: Key, io: Io, removal: Removal)
    requires RecordsOk(s)
    ensures
      var s' := DeleteSubProfile(s, key, io, removal).state;
      RecordsOk(s') && Shrinks(s, s')
  {
    var s' := DeleteSubProfile(s, key, io, removal).state;
    forall k ensures RecordOk(OhosOf(s', k)) { assert RecordOk(OhosOf(s, k)); }
  }

  lemma DeleteTells(s: State, key: Key, io: Io, removal: Removal, channel: Channel, k: Key)
    requires Told(s, channel, k)
    ensures
      var s' := DeleteSubProfile(s, key, io, removal).state;
      Told(s', channel, k) && Replay(s'.trace, channel, k).settled == Replay(s.trace, channel, k).settled
  {
    if !Headless(key) && Readable(s, key, io) && removal.Removed? {
      DepartedTells(s, key, channel, k);
    }
  }

  lemma DepartedTells(s: State, key: Key, channel: Channel, k: Key)
    requires Told(s, channel, k) && !Headless(key)
    ensures
      var s' := Departed(s, key);
      Told(s', channel, k) && Replay(s'.trace, channel, k).settled == Replay(s.trace, channel, k).settled
  {
    var t := if Bound(s, key) then Both(s.trace, key, UNBOUND) else s.trace;
    ReplayBoth(s.trace, key, UNBOUND, channel, k);
    WithoutEffect(s.(trace := t), key, channel, k);
  }

  /** Reclaiming takes this record away. */
  ghost predicate Reclaimed(s: State, localId: int, kind: Garbage, io: Io, goes: Key -> bool, k: Key) {
    k.localId == localId && k in s.spaces && IsGarbage(s.spaces[k], kind) && io.seen(k) && goes(k)
  }

  lemma GarbageMember(s: State, localId: int, kind: Garbage, io: Io, k: Key)
    requires Keyed(s)
    ensures k in GarbageKeys(s, localId, kind, io) <==>
            k.localId == localId && k in s.spaces && IsGarbage(s.spaces[k], kind) && io.seen(k)
  {
    var keep := GarbageFilter(s, kind, io);
    IdsBetweenMeaning(s.spaces, keep, localId, SubProfileIds.MinId(localId), SubProfileIds.MaxId(localId) + 1);
    KeysForMember(localId, StoredIds(s, keep, localId), k);
    if k.localId == localId {
      assert k == Key(localId, k.subId);
    }
  }

  lemma {:induction false} RemoveAllMeaning(s: State, keys: seq<Key>, goes: Key -> bool, channel: Channel, k: Key)
    ensures
      var s' := RemoveAll(s, keys, goes);
      var gone := k in s.spaces && k in keys && goes(k);
      var o := Replay(s.trace, channel, k);
      && s'.main == s.main
      && (k in s'.spaces <==> k in s.spaces && !gone)
      && (k in s'.spaces ==> s'.spaces[k] == s.spaces[k])
      && Replay(s'.trace, channel, k) ==
         if gone then Observer(ACCOUNT_STATE_UNBOUND, false, o.ordered, o.settled && !o.open) else o
    decreases |keys|
  {
    if keys != [] {
      WithoutEffect(s, keys[0], channel, k);
      RemoveAllMeaning(if goes(keys[0]) then Without(s, keys[0]) else s, keys[1..], goes, channel, k);
      assert k in keys <==> k == keys[0] || k in keys[1..];
    }
  }

  /** Reclaiming closes the lifetime of a bound record without its UNBOUND. */
  lemma ReclaimTells(s: State, localId: int, kind: Garbage, io: Io, goes: Key -> bool, channel: Channel, k: Key)
    requires RecordsOk(s) && Told(s, channel, k)
    ensures
      var s' := RemoveGarbage(s, localId, kind, io, goes);
      && Told(s', channel, k)
      && Replay(s'.trace, channel, k).settled ==
         (Replay(s.trace, channel, k).settled && !(Reclaimed(s, localId, kind, io, goes, k) && Bound(s, k)))
  {
    GarbageMember(s, localId, kind, io, k);
    RemoveAllMeaning(s, GarbageKeys(s, localId, kind, io), goes, channel, k);
    ReclaimEffect(s, localId, kind, io, goes, k);
  }

  lemma {:induction false} RemoveAllKeeps(s: State, keys: seq<Key>, goes: Key -> bool)
    requires RecordsOk(s)
    ensures
      var s' := RemoveAll(s, keys, goes);
      && RecordsOk(s') && Shrinks(s, s')
      && forall k | k in s'.spaces :: k in s.spaces && s'.spaces[k] == s.spaces[k]
    decreases |keys|
  {
    if keys != [] {
      WithoutKeeps(s, keys[0]);
      RemoveAllKeeps(if goes(keys[0]) then Without(s, keys[0]) else s, keys[1..], goes);
    }
  }

  lemma ReclaimKeeps(s: State, localId: int, kind: Garbage, io: Io, goes: Key -> bool)
    requires RecordsOk(s)
    ensures
      var s' := RemoveGarbage(s, localId, kind, io, goes);
      && RecordsOk(s') && Shrinks(s, s')
      && forall k | k in s'.spaces :: k in s.spaces && s'.spaces[k] == s.spaces[k]
  {
    RemoveAllKeeps(s, GarbageKeys(s, localId, kind, io), goes);
  }

  /** What reclaiming takes away: the garbage of the OS account that could be read and removed, and nothing else. */
  lemma ReclaimEffect(s: State, localId: int, kind: Garbage, io: Io, goes: Key -> bool, k: Key)
    requires Keyed(s)
    ensures
      var s' := RemoveGarbage(s, localId, kind, io, goes);
      && (k in s'.spaces <==> k in s.spaces && !Reclaimed(s, localId, kind, io, goes, k))
      && OhosOf(s', k) == if Reclaimed(s, localId, kind, io, goes, k) then DefaultOhosInfo() else OhosOf(s, k)
  {
    GarbageMember(s, localId, kind, io, k);
    RemoveAllMeaning(s, GarbageKeys(s, localId, kind, io), goes, Common, k);
  }

  // ---------- one step ----------

  lemma StepKeepsRecords(sha: Sha256, s: State, step: Step)
    requires RecordsOk(s)
    ensures RecordsOk(Apply(sha, s, step))
  {
    match step
    case Change(key, info, event, io) =>
      if !event.UnknownEvent? {
        RequestFacts(sha, s, key, info, event, io);
        CarryKeepsRecords(s, key, event, io, Decision(sha, s, key, info, event, io));
      }
    case PackageRemoved(ids, bundleUid, io) =>
      ClearAllKeeps(s, VisitedKeys(s, ids, io), bundleUid, io);
    case SubProfileCreated(localId, listed, hint, io, dropped) =>
      CreateKeeps(s, localId, listed, hint, io, dropped);
    case SubProfileDeleted(key, io, removal) =>
      DeleteKeeps(s, key, io, removal);
    case GarbageRemoved(localId, kind, io, goes) =>
      ReclaimKeeps(s, localId, kind, io, goes);
    case OsAccountRemoved(localId, io, removed) =>
      RemoveKeeps(s, localId, io, removed);
  }

  lemma RemoveKeeps(s: State, localId: int, io: Io, removed: bool)
    requires RecordsOk(s)
    ensures
      var s' := RemoveOsAccount(s, localId, io, removed);
      RecordsOk(s') && Shrinks(s, s')
  {
    var s' := RemoveOsAccount(s, localId, io, removed);
    forall k ensures RecordOk(OhosOf(s', k)) { assert RecordOk(OhosOf(s, k)); }
  }

  /**
   What is published and what is stored of record `k` part ways: a request that changes the
   status is written and, being reported as failed, not published; or the record is not cleared,
   or its OS account not removed, after its events went out.
   */
  ghost predicate MisreportsAt(sha: Sha256, s: State, step: Step, k: Key) {
    match step
    case Change(key, info, event, io) =>
      && k == key
      && Readable(s, key, io)
      && Admits(sha, s, key, info, event, io)
      && OhosOf(s, key).status != StatusWanted(event)
      && io.save(key) != ERR_OK && io.wrote(key)
    case PackageRemoved(ids, bundleUid, io) =>
      && k.localId in ids && LookedAt(s, io, k)
      && Readable(s, k, io) && OhosOf(s, k).callingUid == bundleUid && Bound(s, k)
      && !Writes(k, io)
    case OsAccountRemoved(localId, io, removed) => !removed && Greeted(s, localId, io, k) && Bound(s, k)
    case _ => false
  }

  ghost predicate Misreports(sha: Sha256, s: State, step: Step) {
    exists k :: MisreportsAt(sha, s, step, k)
  }

  /** A lifetime closes without its UNBOUND: a bound record goes and no farewell was sent for it. */
  ghost predicate LeavesOpen(s: State, step: Step, k: Key) {
    Bound(s, k) &&
    match step
    case OsAccountRemoved(localId, io, removed) => removed && k.localId == localId && !Greeted(s, localId, io, k)
    case GarbageRemoved(localId, kind, io, goes) => Reclaimed(s, localId, kind, io, goes, k)
    case SubProfileCreated(localId, listed, hint, io, dropped) =>
      Replaced(s, localId, listed, hint, io, dropped, k)
    case _ => false
  }

  lemma StepTellsAt(sha: Sha256, s: State, step: Step, channel: Channel, k: Key)
    requires RecordsOk(s) && Told(s, channel, k)
    ensures Told(Apply(sha, s, step), channel, k) <==> !MisreportsAt(sha, s, step, k)
    ensures Replay(Apply(sha, s, step).trace, channel, k).settled ==
            (Replay(s.trace, channel, k).settled && !LeavesOpen(s, step, k))
  {
    match step
    case Change(key, info, event, io) =>
      ChangeTells(sha, s, key, info, event, io, channel, k);
    case PackageRemoved(ids, bundleUid, io) =>
      VisitedMember(s, ids, io, k);
      ClearAllTells(s, VisitedKeys(s, ids, io), bundleUid, io, channel, k);
    case SubProfileCreated(localId, listed, hint, io, dropped) =>
      CreateTells(s, localId, listed, hint, io, dropped, channel, k);
    case SubProfileDeleted(key, io, removal) =>
      DeleteTells(s, key, io, removal, channel, k);
    case GarbageRemoved(localId, kind, io, goes) =>
      ReclaimTells(s, localId, kind, io, goes, channel, k);
    case OsAccountRemoved(localId, io, removed) =>
      RemoveTells(s, localId, io, removed, channel, k);
  }

  /** Replay and order survive a step exactly when it does not misreport. */
  lemma StepTells(sha: Sha256, s: State, step: Step)
    requires RecordsOk(s) && TraceOk(s)
    ensures TraceOk(Apply(sha, s, step)) <==> !Misreports(sha, s, step)
  {
    var s' := Apply(sha, s, step);
    forall channel, k ensures Told(s', channel, k) <==> !MisreportsAt(sha, s, step, k) {
      assert Told(s, channel, k);
      StepTellsAt(sha, s, step, channel, k);
    }
    ToldExactly(sha, s, s', step);
  }

  lemma ToldExactly(sha: Sha256, s: State, s': State, step: Step)
    requires forall channel, k :: Told(s', channel, k) <==> !MisreportsAt(sha, s, step, k)
    ensures TraceOk(s') <==> !Misreports(sha, s, step)
  {
    if Misreports(sha, s, step) {
      var k :| MisreportsAt(sha, s, step, k);
      assert !Told(s', Subscriber, k);
    }
  }

  /**
   Every BOUND is matched by an UNBOUND before its record ends, except when an OS account
   is removed while its headless record is bound, or a bound sub-profile of it is pending
   removal or could not be read; and when a bound sub-profile pending removal is reclaimed.
   */
  lemma StepSettles(sha: Sha256, s: State, step: Step)
    requires RecordsOk(s) && TraceOk(s) && AllSettled(s)
    ensures AllSettled(Apply(sha, s, step)) <==> forall k :: !LeavesOpen(s, step, k)
  {
    var s' := Apply(sha, s, step);
    forall channel, k ensures Replay(s'.trace, channel, k).settled <==> !LeavesOpen(s, step, k) {
      assert Told(s, channel, k) && Replay(s.trace, channel, k).settled;
      StepTellsAt(sha, s, step, channel, k);
    }
    if AllSettled(s') {
      forall k ensures !LeavesOpen(s, step, k) {
        assert Replay(s'.trace, Subscriber, k).settled;
      }
    }
  }

  /** The scan never meets the headless record: removing an OS account never says goodbye for it. */
  lemma HeadlessIsLeftOpen(sha: Sha256, s: State, localId: int, io: Io)
    requires RecordsOk(s) && TraceOk(s) && AllSettled(s) && Bound(s, HeadlessKey(localId))
    ensures !AllSettled(Apply(sha, s, OsAccountRemoved(localId, io, true)))
  {
    StepSettles(sha, s, OsAccountRemoved(localId, io, true));
    assert HeadlessKey(localId) !in s.spaces;
    assert LeavesOpen(s, OsAccountRemoved(localId, io, true), HeadlessKey(localId));
  }

  // ---------- uniqueness ----------

  /** The scan of this operation lists the sub-profile: it is not pending removal and can be read. */
  ghost predicate Listed(s: State, k: Key, io: Io) {
    k in s.spaces && Live(s.spaces[k]) && io.seen(k)
  }

  /**
   Another sub-profile holds the account that a login under this name stores, but the scan does
   not list it, or the name as requested is never equal to a stored one.
   */
  ghost predicate Overlooked(s: State, key: Key, name: string, uid: string, io: Io) {
    exists k :: k != key && k.localId == key.localId && Holds(s, k, CText(name), uid)
                && (!Listed(s, k, io) || '\0' in name)
  }

  /** A first login of a sub-profile, passing every check and written, to an account whose holder is overlooked. */
  ghost predicate BlindBinding(sha: Sha256, s: State, step: Step) {
    && step.Change?
    && step.event.LoginEvent?
    && !Headless(step.key)
    && Readable(s, step.key, step.io)
    && !Bound(s, step.key)
    && Admits(sha, s, step.key, step.info, LoginEvent, step.io)
    && Writes(step.key, step.io)
    && Overlooked(s, step.key, step.info.name, GenerateOhosUdid(sha, step.info.name, step.info.uid), step.io)
  }

  /** A first login that passes means no sub-profile the scan listed holds the account. */
  lemma FirstLoginSawNobody(sha: Sha256, s: State, key: Key, info: OhosAccountInfo, io: Io, k: Key)
    requires RecordsOk(s) && Readable(s, key, io) && !Bound(s, key)
    requires Decision(sha, s, key, info, LoginEvent, io).Ok?
    requires k != key && k.localId == key.localId && Listed(s, k, io)
    ensures !Holds(s, k, info.name, GenerateOhosUdid(sha, info.name, info.uid))
  {
    var ids := Scan(s, key.localId, io);
    ScanMeaning(s, key.localId, io);
    VerifyOthersMeaning(sha, s, key, ids, info, io);
    assert k == Key(key.localId, k.subId);
    assert k.subId in ids && k.subId != key.subId;
    assert OhosOf(s, k) == s.spaces[k].account.ohos;
  }

  /** Who holds what after a request on a sub-profile was written. */
  lemma HoldersAfter(s: State, key: Key, event: EventName, io: Io, decided: Result<Space>)
    requires Reached(s, key, event, io, decided) && Writes(key, io) && !Headless(key) && KeyOf(decided.value) == key
    requires decided.value.account.ohos.status != ACCOUNT_STATE_UNBOUND
    ensures
      var s' := Carry(s, key, event, io, decided).state;
      var after := decided.value.account.ohos;
      forall k, name, uid :: Holds(s', k, name, uid) <==>
        if k == key then name == after.name && uid == after.uid else Holds(s, k, name, uid)
  {
    CarryEffect(s, key, event, io, decided);
  }

  lemma NoNewHolder(s: State, key: Key, event: EventName, io: Io, decided: Result<Space>)
    requires decided.Ok? ==> KeyOf(decided.value) == key
    requires !Reached(s, key, event, io, decided) || !Writes(key, io) || Headless(key)
    ensures Shrinks(s, Carry(s, key, event, io, decided).state)
  {
    CarryEffect(s, key, event, io, decided);
  }

  lemma RequestKeepsUnique(sha: Sha256, s: State, key: Key, info: OhosAccountInfo, event: EventName, io: Io)
    requires RecordsOk(s) && Unique(s) && !event.UnknownEvent?
    ensures Unique(StateChange(sha, s, key, info, event, io).state) <==>
            !BlindBinding(sha, s, Change(key, info, event, io))
  {
    var decided := Decision(sha, s, key, info, event, io);
    RequestFacts(sha, s, key, info, event, io);
    CarryEffect(s, key, event, io, decided);
    AdmitsExactly(sha, s, key, info, event, io);
    if !Reached(s, key, event, io, decided) || !Writes(key, io) || Headless(key) {
      NoNewHolder(s, key, event, io, decided);
      ShrinkingKeepsUnique(s, Carry(s, key, event, io, decided).state);
    } else {
      assert RecordOk(OhosOf(s, key));
      DecideMeaning(sha, s, key, info, event, io);
      HoldersAfter(s, key, event, io, decided);
      if event.LoginEvent? && !Bound(s, key) {
        FirstLoginUnique(sha, s, key, info, io, decided, Carry(s, key, event, io, decided).state);
      } else {
        ShrinkingKeepsUnique(s, Carry(s, key, event, io, decided).state);
      }
    }
  }

  lemma FirstLoginUnique(sha: Sha256, s: State, key: Key, info: OhosAccountInfo, io: Io, decided: Result<Space>,
                         s': State)
    requires RecordsOk(s) && Unique(s) && !Headless(key) && !Bound(s, key)
    requires decided == Decision(sha, s, key, info, LoginEvent, io)
    requires Reached(s, key, LoginEvent, io, decided)
    requires
      var hashed := GenerateOhosUdid(sha, info.name, info.uid);
      forall k, name, uid :: Holds(s', k, name, uid) <==>
        if k == key then name == CText(info.name) && uid == hashed else Holds(s, k, name, uid)
    ensures
      var hashed := GenerateOhosUdid(sha, info.name, info.uid);
      Unique(s') <==> !Overlooked(s, key, info.name, hashed, io)
  {
    var hashed := GenerateOhosUdid(sha, info.name, info.uid);
    var name := CText(info.name);
    CTextMeaning(info.name);
    forall k | k != key && k.localId == key.localId && Holds(s, k, name, hashed)
      ensures !Listed(s, k, io) || '\0' in info.name
    {
      if Listed(s, k, io) { FirstLoginSawNobody(sha, s, key, info, io, k); }
    }
    if Overlooked(s, key, info.name, hashed, io) {
      var k :| k != key && k.localId == key.localId && Holds(s, k, name, hashed);
      assert Holds(s', k, name, hashed) && Holds(s', key, name, hashed);
    }
  }

  /** Uniqueness survives a step exactly when it is not a blind binding. */
  lemma StepKeepsUnique(sha: Sha256, s: State, step: Step)
    requires RecordsOk(s) && Unique(s)
    ensures Unique(Apply(sha, s, step)) <==> !BlindBinding(sha, s, step)
  {
    match step
    case Change(key, info, event, io) =>
      if !event.UnknownEvent? { RequestKeepsUnique(sha, s, key, info, event, io); }
    case PackageRemoved(ids, bundleUid, io) =>
      ClearAllKeeps(s, VisitedKeys(s, ids, io), bundleUid, io);
    case SubProfileCreated(localId, listed, hint, io, dropped) =>
      CreateKeeps(s, localId, listed, hint, io, dropped);
    case SubProfileDeleted(key, io, removal) =>
      DeleteKeeps(s, key, io, removal);
    case GarbageRemoved(localId, kind, io, goes) =>
      ReclaimKeeps(s, localId, kind, io, goes);
    case OsAccountRemoved(localId, io, removed) =>
      RemoveKeeps(s, localId, io, removed);
  }

  // ---------- whole runs ----------

  ghost predicate Quiet(sha: Sha256, s: State, steps: seq<Step>)
    decreases |steps|
  {
    steps == [] || (!Misreports(sha, s, steps[0]) && Quiet(sha, Apply(sha, s, steps[0]), steps[1..]))
  }

  ghost predicate AlwaysTold(sha: Sha256, s: State, steps: seq<Step>)
    decreases |steps|
  {
    TraceOk(s) && (steps == [] || AlwaysTold(sha, Apply(sha, s, steps[0]), steps[1..]))
  }

  /** No login of the run is a blind binding. */
  ghost predicate Sighted(sha: Sha256, s: State, steps: seq<Step>)
    decreases |steps|
  {
    steps == [] || (!BlindBinding(sha, s, steps[0]) && Sighted(sha, Apply(sha, s, steps[0]), steps[1..]))
  }

  ghost predicate AlwaysUnique(sha: Sha256, s: State, steps: seq<Step>)
    decreases |steps|
  {
    Unique(s) && (steps == [] || AlwaysUnique(sha, Apply(sha, s, steps[0]), steps[1..]))
  }

  lemma {:induction false} RecordsAlong(sha: Sha256, s: State, steps: seq<Step>)
    requires RecordsOk(s)
    ensures RecordsOk(Run(sha, s, steps))
    decreases |steps|
  {
    if steps != [] {
      StepKeepsRecords(sha, s, steps[0]);
      RecordsAlong(sha, Apply(sha, s, steps[0]), steps[1..]);
    }
  }

  lemma {:induction false} ToldAlong(sha: Sha256, s: State, steps: seq<Step>)
    requires RecordsOk(s) && TraceOk(s)
    ensures AlwaysTold(sha, s, steps) <==> Quiet(sha, s, steps)
    ensures Quiet(sha, s, steps) ==> TraceOk(Run(sha, s, steps))
    decreases |steps|
  {
    if steps != [] {
      StepKeepsRecords(sha, s, steps[0]);
      StepTells(sha, s, steps[0]);
      var s1 := Apply(sha, s, steps[0]);
      if TraceOk(s1) { ToldAlong(sha, s1, steps[1..]); } else { assert !AlwaysTold(sha, s1, steps[1..]); }
    }
  }

  lemma {:induction false} UniqueAlong(sha: Sha256, s: State, steps: seq<Step>)
    requires RecordsOk(s) && Unique(s)
    ensures AlwaysUnique(sha, s, steps) <==> Sighted(sha, s, steps)
    ensures Sighted(sha, s, steps) ==> Unique(Run(sha, s, steps))
    decreases |steps|
  {
    if steps != [] {
      StepKeepsRecords(sha, s, steps[0]);
      StepKeepsUnique(sha, s, steps[0]);
      var s1 := Apply(sha, s, steps[0]);
      if Unique(s1) { UniqueAlong(sha, s1, steps[1..]); } else { assert !AlwaysUnique(sha, s1, steps[1..]); }
    }
  }

  lemma InitialGood()
    ensures RecordsOk(INITIAL) && TraceOk(INITIAL) && AllSettled(INITIAL) && Unique(INITIAL)
  {
    forall channel, key ensures Told(INITIAL, channel, key) && Replay(INITIAL.trace, channel, key).settled {
      assert Replay([], channel, key) == FRESH;
    }
  }

  /**
   Main result on the history. Over every run a record is UNBOUND exactly when its uid is
   the default one, and replaying either channel reconstructs every persisted status, in order
   within each lifetime, in all states of the run exactly when no step misreported.
   */
  lemma ReplayReconstructs(sha: Sha256, steps: seq<Step>)
    ensures
      var s := Run(sha, INITIAL, steps);
      && RecordsOk(s)
      && (AlwaysTold(sha, INITIAL, steps) <==> Quiet(sha, INITIAL, steps))
      && (Quiet(sha, INITIAL, steps) ==>
            forall channel, key ::
              Replay(s.trace, channel, key).status == OhosOf(s, key).status && WellOrdered(s.trace, channel, key))
  {
    InitialGood();
    RecordsAlong(sha, INITIAL, steps);
    ToldAlong(sha, INITIAL, steps);
    var s := Run(sha, INITIAL, steps);
    if Quiet(sha, INITIAL, steps) {
      forall channel, key
        ensures Replay(s.trace, channel, key).status == OhosOf(s, key).status && WellOrdered(s.trace, channel, key)
      {
        assert Told(s, channel, key);
        ObserverMeaning(s.trace, channel, key);
      }
    }
  }

  /** Main result on bindings: all states of a run are unique exactly when no login was a blind binding. */
  lemma BindingsAreUnique(sha: Sha256, steps: seq<Step>)
    ensures AlwaysUnique(sha, INITIAL, steps) <==> Sighted(sha, INITIAL, steps)
    ensures Sighted(sha, INITIAL, steps) ==> Unique(Run(sha, INITIAL, steps))
  {
    InitialGood();
    UniqueAlong(sha, INITIAL, steps);
  }

  /** No stored sub-profile is pending removal. */
  ghost predicate AllLive(s: State) {
    forall k | k in s.spaces :: Live(s.spaces[k])
  }

  lemma StepKeepsLive(sha: Sha256, s: State, step: Step)
    requires RecordsOk(s) && AllLive(s) && !(step.SubProfileDeleted? && step.removal.Stuck?)
    ensures AllLive(Apply(sha, s, step))
  {
    match step
    case Change(key, info, event, io) => RequestKeepsLive(sha, s, key, info, event, io);
    case PackageRemoved(ids, bundleUid, io) =>
      ClearAllKeepsFlags(s, VisitedKeys(s, ids, io), bundleUid, io);
    case SubProfileCreated(localId, listed, hint, io, dropped) =>
    case SubProfileDeleted(key, io, removal) => DeleteKeepsLive(s, key, io, removal);
    case GarbageRemoved(localId, kind, io, goes) => ReclaimKeeps(s, localId, kind, io, goes);
    case OsAccountRemoved(localId, io, removed) =>
  }

  lemma DeleteKeepsLive(s: State, key: Key, io: Io, removal: Removal)
    requires AllLive(s) && !removal.Stuck?
    ensures AllLive(DeleteSubProfile(s, key, io, removal).state)
  {
  }

  lemma RequestKeepsLive(sha: Sha256, s: State, key: Key, info: OhosAccountInfo, event: EventName, io: Io)
    requires RecordsOk(s) && AllLive(s)
    ensures AllLive(StateChange(sha, s, key, info, event, io).state)
  {
    if !event.UnknownEvent? {
      var decided := Decision(sha, s, key, info, event, io);
      assert RecordOk(OhosOf(s, key));
      if Readable(s, key, io) {
        FoundKey(s, key, io);
        DecideMeaning(sha, s, key, info, event, io);
      }
      CarryKeepsLive(s, key, event, io, decided);
    }
  }

  lemma CarryKeepsLive(s: State, key: Key, event: EventName, io: Io, decided: Result<Space>)
    requires AllLive(s)
    requires Readable(s, key, io) && decided.Ok? ==>
               KeyOf(decided.value) == key && (Headless(key) || Live(decided.value) == Live(s.spaces[key]))
    ensures AllLive(Carry(s, key, event, io, decided).state)
  {
  }

  lemma {:induction false} ClearAllKeepsFlags(s: State, keys: seq<Key>, bundleUid: int, io: Io)
    ensures SameFlags(s, ClearAll(s, keys, bundleUid, io))
    decreases |keys|
  {
    if keys != [] {
      ClearEffect(s, keys[0], bundleUid, io);
      ClearAllKeepsFlags(ClearIfMatch(s, keys[0], bundleUid, io), keys[1..], bundleUid, io);
    }
  }

  /** Names without NUL, scans that can read every sub-profile, deletions that never get stuck: no blind binding. */
  lemma {:induction false} GoodScansAreSighted(sha: Sha256, s: State, steps: seq<Step>)
    requires RecordsOk(s) && AllLive(s)
    requires forall i | 0 <= i < |steps| && steps[i].Change? :: '\0' !in steps[i].info.name
    requires forall i, k | 0 <= i < |steps| && steps[i].Change? :: steps[i].io.seen(k)
    requires forall i | 0 <= i < |steps| && steps[i].SubProfileDeleted? :: !steps[i].removal.Stuck?
    ensures Sighted(sha, s, steps)
    decreases |steps|
  {
    if steps != [] {
      var step := steps[0];
      assert !BlindBinding(sha, s, step) by {
        if step.Change? {
          assert forall k | k in s.spaces :: Listed(s, k, step.io);
        }
      }
      StepKeepsRecords(sha, s, step);
      StepKeepsLive(sha, s, step);
      GoodScansAreSighted(sha, Apply(sha, s, step), steps[1..]);
    }
  }

  /** No lifetime has ended while bound, in any state of the run. */
  ghost predicate AlwaysSettled(sha: Sha256, s: State, steps: seq<Step>)
    decreases |steps|
  {
    AllSettled(s) && (steps == [] || AlwaysSettled(sha, Apply(sha, s, steps[0]), steps[1..]))
  }

  /** No bound record of the run goes without a farewell. */
  ghost predicate AlwaysCloses(sha: Sha256, s: State, steps: seq<Step>)
    decreases |steps|
  {
    steps == []
    || ((forall k :: !LeavesOpen(s, steps[0], k)) && AlwaysCloses(sha, Apply(sha, s, steps[0]), steps[1..]))
  }

  lemma {:induction false} SettledAlong(sha: Sha256, s: State, steps: seq<Step>)
    requires RecordsOk(s) && TraceOk(s) && AllSettled(s) && Quiet(sha, s, steps)
    ensures AlwaysSettled(sha, s, steps) <==> AlwaysCloses(sha, s, steps)
    ensures AlwaysCloses(sha, s, steps) ==> AllSettled(Run(sha, s, steps)) && TraceOk(Run(sha, s, steps))
    decreases |steps|
  {
    if steps != [] {
      var s1 := Apply(sha, s, steps[0]);
      StepKeepsRecords(sha, s, steps[0]);
      StepTells(sha, s, steps[0]);
      StepSettles(sha, s, steps[0]);
      if AllSettled(s1) { SettledAlong(sha, s1, steps[1..]); } else { assert !AlwaysSettled(sha, s1, steps[1..]); }
    }
  }

  /**
   Main result across lifetimes. On a run that never misreports, every lifetime ends with its
   UNBOUND in all states exactly when no bound record goes without a farewell; then what is
   published of a record, on either channel, is BOUND and UNBOUND in turn, with everything else
   between, however often its sub-profile or OS account was removed and made again.
   */
  lemma BoundAndUnboundAlternate(sha: Sha256, steps: seq<Step>)
    requires Quiet(sha, INITIAL, steps)
    ensures AlwaysSettled(sha, INITIAL, steps) <==> AlwaysCloses(sha, INITIAL, steps)
    ensures AlwaysCloses(sha, INITIAL, steps) ==>
              forall channel, key :: Alternates(Run(sha, INITIAL, steps).trace, channel, key)
  {
    InitialGood();
    SettledAlong(sha, INITIAL, steps);
    var s := Run(sha, INITIAL, steps);
    if AlwaysCloses(sha, INITIAL, steps) {
      forall channel, key ensures Alternates(s.trace, channel, key) {
        assert Told(s, channel, key) && Replay(s.trace, channel, key).settled;
        AlternationMeaning(s.trace, channel, key);
      }
    }
  }

  // ---------- refusals, independence, errors, identity ----------

  lemma UnboundRefusesAllButLogin(sha: Sha256, s: State, key: Key, info: OhosAccountInfo, event: EventName, io: Io)
    requires RecordsOk(s) && !Bound(s, key) && !event.LoginEvent?
    ensures StateChange(sha, s, key, info, event, io).err != ERR_OK
  {
    assert RecordOk(OhosOf(s, key));
    UnboundNeverMatches(sha, OhosOf(s, key), info);
  }

  /** After a login, requests in the same words match the record, exactly when the name holds no NUL. */
  lemma LoginIsRecognised(sha: Sha256, s: State, key: Key, info: OhosAccountInfo, io: Io)
    requires RecordsOk(s) && StateChange(sha, s, key, info, LoginEvent, io).err == ERR_OK
    ensures
      var after := OhosOf(StateChange(sha, s, key, info, LoginEvent, io).state, key);
      CheckSameDistributedAccount(sha, after, info) <==> '\0' !in info.name
  {
    var decided := Decision(sha, s, key, info, LoginEvent, io);
    assert RecordOk(OhosOf(s, key));
    CTextMeaning(info.name);
    RequestFacts(sha, s, key, info, LoginEvent, io);
    CarryEffect(s, key, LoginEvent, io, decided);
    DecideMeaning(sha, s, key, info, LoginEvent, io);
  }

  /** No request takes a bound record back to UNBOUND or gives it to another account. */
  lemma BoundStaysWithItsAccount(sha: Sha256, s: State, key: Key, info: OhosAccountInfo, event: EventName, io: Io,
                                 k: Key)
    requires RecordsOk(s) && Bound(s, k)
    ensures
      var s' := StateChange(sha, s, key, info, event, io).state;
      Bound(s', k) && OhosOf(s', k).name == OhosOf(s, k).name && OhosOf(s', k).uid == OhosOf(s, k).uid
  {
    if !event.UnknownEvent? {
      assert RecordOk(OhosOf(s, key));
      RequestFacts(sha, s, key, info, event, io);
      CarryEffect(s, key, event, io, Decision(sha, s, key, info, event, io));
      if Readable(s, key, io) {
        FoundKey(s, key, io);
        DecideMeaning(sha, s, key, info, event, io);
      }
    }
  }

  /**
   An operation that returns an error publishes nothing and changes nothing but possibly
   creating the default headless record it read, with three exceptions: a request whose write
   took effect and was reported as failed, a deletion that got stuck and leaves its sub-profile
   flagged, and a creation that leaves what it wrote or takes away what was stored under its id.
   */
  lemma ErrorLeavesEverything(sha: Sha256, s: State, step: Step)
    ensures
      match step
      case Change(key, info, event, io) =>
        var o := StateChange(sha, s, key, info, event, io);
        var decided := Decision(sha, s, key, info, event, io);
        o.err != ERR_OK ==>
          || o.state == s
          || (Headless(key) && key.localId !in s.main
              && o.state == s.(main := s.main[key.localId := DefaultAccount(key.localId, io.now)]))
          || (decided.Ok? && io.wrote(KeyOf(decided.value))
              && o.state == Written(AfterLoad(s, key, io), KeyOf(decided.value), decided.value))
      case SubProfileCreated(localId, listed, hint, io, dropped) =>
        var o := CreateSubProfile(s, localId, listed, hint, io, dropped);
        o.err != ERR_OK ==>
          (o.state == s <==> !(listed.Ok? && NewId(localId, listed.value, hint).Some?
                               && LeavesTraces(s, Key(localId, NewId(localId, listed.value, hint).value), io, dropped)))
      case SubProfileDeleted(key, io, removal) =>
        var o := DeleteSubProfile(s, key, io, removal);
        o.err != ERR_OK ==>
          (o.state == s <==> !(removal.Stuck? && !Headless(key) && Readable(s, key, io) && Live(s.spaces[key])))
      case _ => true
  {
    match step
    case Change(key, info, event, io) =>
      CarryError(s, key, event, io, Decision(sha, s, key, info, event, io));
    case SubProfileCreated(localId, listed, hint, io, dropped) =>
      if listed.Ok? && NewId(localId, listed.value, hint).Some? {
        PlacedError(s, Key(localId, NewId(localId, listed.value, hint).value), io, dropped);
      }
    case SubProfileDeleted(key, io, removal) =>
      if removal.Stuck? && !Headless(key) && Readable(s, key, io) && Live(s.spaces[key]) {
        assert DeleteSubProfile(s, key, io, removal).state.spaces[key] != s.spaces[key];
      }
    case _ =>
  }

  /** A failing creation took away what was stored under its id, or could not take away what it wrote. */
  predicate LeavesTraces(s: State, key: Key, io: Io, dropped: bool) {
    if dropped then key in s.spaces else io.wrote(key)
  }

  lemma PlacedError(s: State, key: Key, io: Io, dropped: bool)
    ensures
      var o := Placed(s, key, io, dropped);
      o.err != ERR_OK ==> (o.state == s <==> !LeavesTraces(s, key, io, dropped))
  {
    if key !in s.spaces {
      assert s.spaces - {key} == s.spaces;
      assert key in WithFresh(s, key).spaces;
    } else {
      assert |Ending(s, key)| == |s.trace| + 1;
    }
  }

  lemma CarryError(s: State, key: Key, event: EventName, io: Io, decided: Result<Space>)
    ensures
      var o := Carry(s, key, event, io, decided);
      o.err != ERR_OK ==>
        || o.state == s || o.state == AfterLoad(s, key, io)
        || (decided.Ok? && io.wrote(KeyOf(decided.value))
            && o.state == Written(AfterLoad(s, key, io), KeyOf(decided.value), decided.value))
  {
  }

  /** The two states agree on everything of one OS account. */
  ghost predicate SameOsAccount(s: State, t: State, localId: int) {
    && (localId in s.main <==> localId in t.main)
    && (localId in s.main ==> s.main[localId] == t.main[localId])
    && (forall k: Key | k.localId == localId :: k in s.spaces <==> k in t.spaces)
    && (forall k: Key | k.localId == localId && k in s.spaces :: s.spaces[k] == t.spaces[k])
  }

  lemma {:induction false} SameScan(s: State, t: State, keepS: Key -> bool, keepT: Key -> bool, localId: int,
                                    lo: int, hi: int)
    requires SameOsAccount(s, t, localId)
    requires forall k: Key | k.localId == localId && k in s.spaces :: keepS(k) <==> keepT(k)
    ensures IdsBetween(s.spaces, keepS, localId, lo, hi) == IdsBetween(t.spaces, keepT, localId, lo, hi)
    decreases hi - lo
  {
    if lo < hi {
      assert Key(localId, lo).localId == localId;
      SameScan(s, t, keepS, keepT, localId, lo + 1, hi);
    }
  }

  lemma {:induction false} SameVerify(sha: Sha256, s: State, t: State, key: Key, ids: seq<int>,
                                      info: OhosAccountInfo, io: Io)
    requires SameOsAccount(s, t, key.localId)
    ensures VerifyOthers(sha, s, key, ids, info, io) == VerifyOthers(sha, t, key, ids, info, io)
    decreases |ids|
  {
    if ids != [] {
      var other := Key(key.localId, ids[0]);
      assert other.localId == key.localId;
      SameVerify(sha, s, t, key, ids[1..], info, io);
    }
  }

  /** Operations on other OS accounts have no say in a request: same result, same records, same events. */
  lemma OsAccountsAreIndependent(sha: Sha256, s: State, t: State, key: Key, info: OhosAccountInfo, event: EventName,
                                 io: Io)
    requires RecordsOk(s) && RecordsOk(t) && SameOsAccount(s, t, key.localId)
    ensures
      var a := StateChange(sha, s, key, info, event, io);
      var b := StateChange(sha, t, key, info, event, io);
      var news := if a.err == ERR_OK then Publish([], key, event, OhosOf(s, key).status) else [];
      && a.err == b.err
      && SameOsAccount(a.state, b.state, key.localId)
      && a.state.trace == s.trace + news
      && b.state.trace == t.trace + news
  {
    SameDecision(sha, s, t, key, info, event, io);
    var decided := Decision(sha, s, key, info, event, io);
    if !event.UnknownEvent? {
      RequestFacts(sha, s, key, info, event, io);
    }
    SameCarry(s, t, key, event, io, decided);
    NewsAppended(s, key, event, io, decided);
    NewsAppended(t, key, event, io, decided);
  }

  lemma SameDecision(sha: Sha256, s: State, t: State, key: Key, info: OhosAccountInfo, event: EventName, io: Io)
    requires SameOsAccount(s, t, key.localId)
    ensures OhosOf(s, key) == OhosOf(t, key)
    ensures Decision(sha, s, key, info, event, io) == Decision(sha, t, key, info, event, io)
  {
    SameScan(s, t, Scannable(s, io), Scannable(t, io), key.localId,
             SubProfileIds.MinId(key.localId), SubProfileIds.MaxId(key.localId) + 1);
    SameVerify(sha, s, t, key, Scan(s, key.localId, io), info, io);
    assert Scan(s, key.localId, io) == Scan(t, key.localId, io);
    assert Admission(sha, s, key, OhosOf(s, key), info, event, io) ==
           Admission(sha, t, key, OhosOf(t, key), info, event, io);
  }

  lemma SameCarry(s: State, t: State, key: Key, event: EventName, io: Io, decided: Result<Space>)
    requires SameOsAccount(s, t, key.localId)
    requires decided.Ok? && !event.UnknownEvent? ==> KeyOf(decided.value) == key
    ensures
      var a := Carry(s, key, event, io, decided);
      var b := Carry(t, key, event, io, decided);
      a.err == b.err && SameOsAccount(a.state, b.state, key.localId)
  {
    var s1, t1 := AfterLoad(s, key, io), AfterLoad(t, key, io);
    assert SameOsAccount(s1, t1, key.localId);
    if decided.Ok? && !event.UnknownEvent? {
      SameSave(s1, t1, decided.value, io);
    }
  }

  lemma SameSave(s: State, t: State, space: Space, io: Io)
    requires SameOsAccount(s, t, KeyOf(space).localId)
    ensures Save(s, space, io).1 == Save(t, space, io).1
    ensures SameOsAccount(Save(s, space, io).0, Save(t, space, io).0, KeyOf(space).localId)
  {
  }

  // ---------- helpers on publications ----------

  lemma NewsAppended(s: State, key: Key, event: EventName, io: Io, decided: Result<Space>)
    ensures
      var o := Carry(s, key, event, io, decided);
      o.state.trace == s.trace + if o.err == ERR_OK then Publish([], key, event, OhosOf(s, key).status) else []
  {
    PublicationAppends(s.trace, key, event, OhosOf(s, key).status);
  }

  lemma PublicationAppends(trace: seq<Item>, key: Key, event: EventName, status: int)
    ensures Publish(trace, key, event, status) == trace + Publish([], key, event, status)
  {
  }
}
