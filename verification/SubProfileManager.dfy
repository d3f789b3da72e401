/**
 `OhosAccountManager` in the build with sub-profiles, proved against `SubProfilesSpec`.
 */
module SubProfileManager {
  import opened AccountTypes
  import opened AccountStateMachineModel
  import opened BindingEvents
  import Spec = SubProfilesSpec
  import Laws = SubProfilesLaws
  import SubProfileIds

  class OhosAccountManager {
    const sha: Sha256
    const accountState: AccountStateMachine
    var main: map<int, AccountInfo>
    var spaces: map<Key, Spec.Space>
    ghost var trace: seq<Item>

    ghost predicate MachineOk() {
      accountState.Valid() && accountState.mode == SubProfiles
    }

    ghost predicate Valid()
      reads this
    {
      MachineOk() && Laws.RecordsOk(State())
    }

    ghost function State(): Spec.State
      reads this
    {
      Spec.State(main, spaces, trace)
    }

    constructor (sha: Sha256)
      ensures Valid() && fresh(accountState) && this.sha == sha && State() == Spec.INITIAL
    {
      this.sha := sha;
      accountState := new AccountStateMachine(SubProfiles);
      main, spaces, trace := map[], map[], [];
      new;
      Laws.InitialGood();
    }

    method GetDistributedAccountSpaceInfo(key: Key, io: Spec.Io) returns (r: Result<Spec.Space>)
      modifies this
      ensures State() == Spec.AfterLoad(old(State()), key, io)
      ensures r == if Spec.Readable(old(State()), key, io) then Ok(Spec.Found(old(State()), key, io))
                   else Err(Spec.LoadError(old(State()), key, io))
    {
      var failure := io.load(key);
      if Spec.Headless(key) {
        if failure != ERR_OK {
          return Err(failure);
        }
        if key.localId < 0 {
          return Err(InvalidId);
        }
        if key.localId !in main {
          main := main[key.localId := DefaultAccount(key.localId, io.now)];
        }
        var cur := main[key.localId];
        return Ok(Spec.Space(AccountInfo(cur.ohos, cur.bindTime, key.localId, cur.version, 0), key.subId, true, false));
      }
      if key !in spaces {
        return Err(AccountNotExist);
      }
      if failure != ERR_OK {
        return Err(failure);
      }
      return Ok(spaces[key]);
    }

    method SetDistributedAccountSpaceInfo(space: Spec.Space, io: Spec.Io) returns (err: ErrCode)
      modifies this
      ensures (State(), err) == Spec.Save(old(State()), space, io)
    {
      var key := Spec.KeyOf(space);
      err := io.save(key);
      if err != ERR_OK && !io.wrote(key) {
        return;
      }
      if Spec.Headless(key) {
        var a := space.account;
        main := main[a.userId := AccountInfo(a.ohos, a.bindTime, a.userId, ACCOUNT_VERSION_ANON, 0)];
      } else {
        spaces := spaces[key := space];
      }
    }

    method ScanOsAccountSubProfileIds(localId: int, io: Spec.Io) returns (ids: seq<int>)
      ensures ids == Spec.Scan(State(), localId, io)
    {
      var lo, hi := SubProfileIds.MinId(localId), SubProfileIds.MaxId(localId) + 1;
      ids := [];
      for id := hi downto lo
        invariant ids == Spec.IdsBetween(spaces, Spec.Scannable(State(), io), localId, id, hi)
      {
        var key := Key(localId, id);
        if key in spaces && Spec.Live(spaces[key]) && io.seen(key) {
          ids := [id] + ids;
        }
      }
    }

    method HandleSpaceStateChange(cur: Spec.Space, event: EventName) returns (ok: bool, next: Spec.Space)
      requires MachineOk()
      modifies accountState
      ensures ok == Spec.HandleSpaceStateChange(cur, event).Some?
      ensures next == if ok then Spec.HandleSpaceStateChange(cur, event).value else cur
    {
      next := cur;
      var code := EventCode(SubProfiles, event);
      if code.None? {
        return false, next;
      }
      TableMeansNextStatus(SubProfiles, cur.account.ohos.status, event);
      accountState.SetAccountState(cur.account.ohos.status);
      ok := accountState.StateChangeProcess(code.value);
      if !ok {
        return;
      }
      var newState := accountState.currentState;
      if newState != cur.account.ohos.status {
        next := cur.(account := cur.account.(ohos := cur.account.ohos.(status := newState)));
      }
    }

    method VerifySpaceAccountBinding(key: Key, info: OhosAccountInfo, cur: Spec.Space, io: Spec.Io)
      returns (err: ErrCode)
      modifies this
      ensures State() == old(State())
      ensures err == Spec.VerifySpaceAccountBinding(sha, State(), key, cur.account.ohos, info, io)
    {
      var ids := ScanOsAccountSubProfileIds(key.localId, io);
      if cur.account.ohos.status != ACCOUNT_STATE_UNBOUND {
        return if CheckSameDistributedAccount(sha, cur.account.ohos, info) then ERR_OK else AccountNotExist;
      }
      Laws.IdsBetweenMeaning(spaces, Spec.Scannable(State(), io), key.localId,
                             SubProfileIds.MinId(key.localId), SubProfileIds.MaxId(key.localId) + 1);
      err := VerifyOthers(key, ids, info, io);
    }

    /** The loop over the other sub-profiles. */
    method VerifyOthers(key: Key, ids: seq<int>, info: OhosAccountInfo, io: Spec.Io) returns (err: ErrCode)
      requires forall id | id in ids :: !Spec.Headless(Key(key.localId, id))
      modifies this
      ensures State() == old(State())
      ensures err == Spec.VerifyOthers(sha, State(), key, ids, info, io)
    {
      ghost var s := State();
      for i := 0 to |ids|
        invariant State() == s
        invariant Spec.VerifyOthers(sha, s, key, ids, info, io) == Spec.VerifyOthers(sha, s, key, ids[i..], info, io)
      {
        if ids[i] != key.subId {
          var other := Key(key.localId, ids[i]);
          assert ids[i] in ids;
          var target := GetDistributedAccountSpaceInfo(other, io);
          if target.Err? {
            return target.error;
          }
          assert target.value.account.ohos == Spec.OhosOf(s, other);
          if CheckSameDistributedAccount(sha, target.value.account.ohos, info) {
            return AlreadyBound;
          }
        }
      }
      return ERR_OK;
    }

    /** The common tail of the four requests, once the request is admitted. */
    ghost predicate Carried(s: Spec.State, key: Key, event: EventName, info: OhosAccountInfo, io: Spec.Io, err: ErrCode)
      reads this
    {
      Spec.Outcome(State(), err) == Spec.StateChange(sha, s, key, info, event, io)
    }

    method LoginOhosAccountSpace(key: Key, info: OhosAccountInfo, io: Spec.Io) returns (err: ErrCode)
      requires MachineOk()
      modifies this, accountState
      ensures Carried(old(State()), key, LoginEvent, info, io, err)
    {
      var read := GetDistributedAccountSpaceInfo(key, io);
      if read.Err? {
        return read.error;
      }
      var hashed := GenerateOhosUdid(sha, info.name, info.uid);
      if |hashed| != OHOS_ACCOUNT_UDID_LENGTH {
        return ServiceError;
      }
      var originalStatus := read.value.account.ohos.status;
      var verified := VerifySpaceAccountBinding(key, info, read.value, io);
      SameAfterLoad(old(State()), key, info, read.value.account.ohos, io);
      if verified != ERR_OK {
        return verified;
      }
      var ok, next := HandleSpaceStateChange(read.value, LoginEvent);
      if !ok {
        return ServiceError;
      }
      err := SetDistributedAccountSpaceInfo(
        next.(account := BoundTo(next.account, info, hashed, io.now, io.callingUid)), io);
      if err == ERR_OK {
        PublishLoginSpaceEvents(key, originalStatus);
      }
    }

    ghost method PublishLoginSpaceEvents(key: Key, originalStatus: int)
      modifies this`trace
      ensures trace == Spec.Publish(old(trace), key, LoginEvent, originalStatus)
    {
      if originalStatus == ACCOUNT_STATE_UNBOUND {
        trace := Both(trace, key, BOUND);
      }
      if originalStatus != ACCOUNT_STATE_LOGIN {
        trace := Both(trace, key, LOGIN);
      }
    }

    /** Creating the headless record does not change what verification sees. */
    lemma SameAfterLoad(s: Spec.State, key: Key, info: OhosAccountInfo, cur: OhosAccountInfo, io: Spec.Io)
      ensures Spec.VerifySpaceAccountBinding(sha, Spec.AfterLoad(s, key, io), key, cur, info, io) ==
              Spec.VerifySpaceAccountBinding(sha, s, key, cur, info, io)
    {
      var t := Spec.AfterLoad(s, key, io);
      Laws.SameScans(s, t, io, key.localId);
      Laws.IdsBetweenMeaning(s.spaces, Spec.Scannable(s, io), key.localId,
                             SubProfileIds.MinId(key.localId), SubProfileIds.MaxId(key.localId) + 1);
      Laws.VerifySameSpaces(sha, s, t, key, Spec.Scan(s, key.localId, io), info, io);
    }

    /** Reads the record and checks that the request names the account it is bound to. */
    method GetMatching(key: Key, info: OhosAccountInfo, io: Spec.Io) returns (r: Result<Spec.Space>)
      modifies this
      ensures State() == Spec.AfterLoad(old(State()), key, io)
      ensures r == if !Spec.Readable(old(State()), key, io) then Err(Spec.LoadError(old(State()), key, io))
                   else if CheckSameDistributedAccount(sha, Spec.OhosOf(old(State()), key), info)
                   then Ok(Spec.Found(old(State()), key, io)) else Err(AccountNotExist)
    {
      r := GetDistributedAccountSpaceInfo(key, io);
      if r.Ok? && !CheckSameDistributedAccount(sha, r.value.account.ohos, info) {
        return Err(AccountNotExist);
      }
    }

    method LogoutOhosAccountSpace(key: Key, info: OhosAccountInfo, io: Spec.Io) returns (err: ErrCode)
      requires MachineOk()
      modifies this, accountState
      ensures Carried(old(State()), key, LogoutEvent, info, io, err)
    {
      var read := GetMatching(key, info, io);
      if read.Err? {
        return read.error;
      }
      var ok, next := HandleSpaceStateChange(read.value, LogoutEvent);
      if !ok {
        return ServiceError;
      }
      err := SetDistributedAccountSpaceInfo(next, io);
      if err != ERR_OK {
        return;
      }
      trace := Both(trace, key, LOGOUT);
    }

    method LogoffOhosAccountSpace(key: Key, info: OhosAccountInfo, io: Spec.Io) returns (err: ErrCode)
      requires MachineOk()
      modifies this, accountState
      ensures Carried(old(State()), key, LogoffEvent, info, io, err)
    {
      var read := GetMatching(key, info, io);
      if read.Err? {
        return read.error;
      }
      var ok, next := HandleSpaceStateChange(read.value, LogoffEvent);
      if !ok {
        return ServiceError;
      }
      err := SetDistributedAccountSpaceInfo(next, io);
      if err != ERR_OK {
        return;
      }
      trace := Both(trace, key, LOGOFF);
    }

    method HandleOhosAccountSpaceTokenInvalidEvent(key: Key, info: OhosAccountInfo, io: Spec.Io) returns (err: ErrCode)
      requires MachineOk()
      modifies this, accountState
      ensures Carried(old(State()), key, TokenInvalidEvent, info, io, err)
    {
      var read := GetMatching(key, info, io);
      if read.Err? {
        return read.error;
      }
      var ok, next := HandleSpaceStateChange(read.value, TokenInvalidEvent);
      if !ok {
        return ServiceError;
      }
      err := SetDistributedAccountSpaceInfo(next, io);
      if err != ERR_OK {
        return;
      }
      trace := Both(trace, key, TOKEN_INVALID);
    }

    /** The dispatch of an external request on the foreground sub-profile. */
    method OhosAccountStateChange(key: Key, info: OhosAccountInfo, event: EventName, io: Spec.Io) returns (err: ErrCode)
      requires Valid()
      modifies this, accountState
      ensures Valid() && Carried(old(State()), key, event, info, io, err)
    {
      Laws.StepKeepsRecords(sha, State(), Spec.Change(key, info, event, io));
      match event {
        case LoginEvent => err := LoginOhosAccountSpace(key, info, io);
        case LogoutEvent => err := LogoutOhosAccountSpace(key, info, io);
        case LogoffEvent => err := LogoffOhosAccountSpace(key, info, io);
        case TokenInvalidEvent => err := HandleOhosAccountSpaceTokenInvalidEvent(key, info, io);
        case UnknownEvent(_) => err := InvalidParameter;
      }
    }

    method ClearMainAccountIfMatch(localId: int, bundleUid: int, io: Spec.Io)
      modifies this
      ensures State() == Spec.ClearIfMatch(old(State()), Spec.HeadlessKey(localId), bundleUid, io)
    {
      var key := Spec.HeadlessKey(localId);
      if io.load(key) != ERR_OK || localId < 0 {
        return;
      }
      if localId !in main {
        main := main[localId := DefaultAccount(localId, io.now)];
      }
      var info := main[localId].(userId := localId);
      if info.ohos.callingUid != bundleUid || info.ohos.status == ACCOUNT_STATE_UNBOUND {
        return;
      }
      // The result of the write is not looked at.
      if io.save(key) == ERR_OK || io.wrote(key) {
        main := main[localId := Cleared(info)];
      }
      PublishLogoutSpaceEvents(key);
    }

    ghost method PublishLogoutSpaceEvents(key: Key)
      modifies this`trace
      ensures trace == Both(Both(old(trace), key, LOGOUT), key, UNBOUND)
    {
      trace := Both(trace, key, LOGOUT);
      trace := Both(trace, key, UNBOUND);
    }

    method ClearDistributedAccountSpaceIfMatch(key: Key, bundleUid: int, io: Spec.Io)
      requires !Spec.Headless(key)
      requires key in spaces ==> Spec.KeyOf(spaces[key]) == key
      modifies this
      ensures State() == Spec.ClearIfMatch(old(State()), key, bundleUid, io)
    {
      var read := GetDistributedAccountSpaceInfo(key, io);
      if read.Err? {
        return;
      }
      var info := read.value.account;
      if info.ohos.callingUid != bundleUid || info.ohos.status == ACCOUNT_STATE_UNBOUND {
        return;
      }
      // The result of the write is not looked at.
      var _ := SetDistributedAccountSpaceInfo(read.value.(account := Cleared(info)), io);
      PublishLogoutSpaceEvents(key);
    }

    method OnPackageRemoved(ids: seq<int>, bundleUid: int, io: Spec.Io)
      requires Valid()
      modifies this
      ensures Valid() && State() == Spec.ClearAll(old(State()), Spec.VisitedKeys(old(State()), ids, io), bundleUid, io)
    {
      ghost var goal := Spec.ClearAll(State(), Spec.VisitedKeys(State(), ids, io), bundleUid, io);
      for i := 0 to |ids|
        invariant Valid()
        invariant goal == Spec.ClearAll(State(), Spec.VisitedKeys(State(), ids[i..], io), bundleUid, io)
      {
        ghost var s := State();
        ghost var rest := Spec.VisitedKeys(s, ids[i + 1..], io);
        ghost var spaceKeys := Spec.KeysFor(ids[i], Spec.Scan(s, ids[i], io));
        ghost var head := Spec.HeadlessKey(ids[i]);
        assert ids[i..][0] == ids[i] && ids[i..][1..] == ids[i + 1..];
        assert Spec.VisitedKeys(s, ids[i..], io) == [head] + (spaceKeys + rest);
        assert ([head] + (spaceKeys + rest))[1..] == spaceKeys + rest;
        ClearedOk(s, head, bundleUid, io);
        ClearMainAccountIfMatch(ids[i], bundleUid, io);
        assert goal == Spec.ClearAll(State(), spaceKeys + rest, bundleUid, io);
        Laws.SameScans(s, State(), io, ids[i]);
        ClearDistributedAccountSpacesIfMatch(ids[i], bundleUid, io, rest);
        Laws.VisitedKeysStable(s, State(), ids[i + 1..], io);
      }
    }

    /** One clearing keeps the records in order and the set of records to visit. */
    lemma ClearedOk(s: Spec.State, key: Key, bundleUid: int, io: Spec.Io)
      requires Laws.RecordsOk(s)
      ensures Laws.RecordsOk(Spec.ClearIfMatch(s, key, bundleUid, io))
      ensures Laws.SameFlags(s, Spec.ClearIfMatch(s, key, bundleUid, io))
    {
      Laws.ClearAllKeeps(s, [key], bundleUid, io);
      assert [key][1..] == [];
      Laws.ClearEffect(s, key, bundleUid, io);
    }

    method ClearDistributedAccountSpacesIfMatch(localId: int, bundleUid: int, io: Spec.Io, ghost rest: seq<Key>)
      requires Valid()
      modifies this
      ensures Valid() && Laws.SameFlags(old(State()), State())
      ensures Spec.ClearAll(old(State()), Spec.KeysFor(localId, Spec.Scan(old(State()), localId, io)) + rest,
                            bundleUid, io) ==
              Spec.ClearAll(State(), rest, bundleUid, io)
    {
      var ids := ScanOsAccountSubProfileIds(localId, io);
      ghost var keys := Spec.KeysFor(localId, ids);
      Laws.ScanMeaning(State(), localId, io);
      for j := 0 to |ids|
        invariant Valid() && Laws.SameFlags(old(State()), State())
        invariant Spec.ClearAll(old(State()), keys + rest, bundleUid, io) ==
                  Spec.ClearAll(State(), keys[j..] + rest, bundleUid, io)
      {
        var key := Key(localId, ids[j]);
        assert ids[j] in ids;
        assert key in spaces && Spec.KeyOf(spaces[key]) == key;
        assert (keys[j..] + rest)[0] == key && (keys[j..] + rest)[1..] == keys[j + 1..] + rest;
        ClearedOk(State(), key, bundleUid, io);
        ClearDistributedAccountSpaceIfMatch(key, bundleUid, io);
      }
      assert keys[|ids|..] + rest == rest;
    }

    method CreateOsAccountSubspace(localId: int, listed: Result<seq<int>>, hint: int, io: Spec.Io, dropped: bool)
      returns (err: ErrCode)
      requires Valid()
      modifies this
      ensures Valid()
      ensures Spec.Outcome(State(), err) == Spec.CreateSubProfile(old(State()), localId, listed, hint, io, dropped)
    {
      Laws.CreateKeeps(State(), localId, listed, hint, io, dropped);
      if listed.Err? {
        return listed.error;
      }
      var id := SubProfileIds.AllocateOsAccountSubProfileId(localId, hint, listed.value);
      if id.None? {
        return SubProfileLimit;
      }
      err := PersistSubProfile(Key(localId, id.value), io, dropped);
    }

    /** Writes the new sub-profile, and takes its directory away again if that failed. */
    method PersistSubProfile(key: Key, io: Spec.Io, dropped: bool) returns (err: ErrCode)
      modifies this
      ensures Spec.Outcome(State(), err) == Spec.Placed(old(State()), key, io, dropped)
    {
      err := io.save(key);
      if err == ERR_OK || io.wrote(key) || dropped {
        trace := Spec.Ending(State(), key);
      }
      if err == ERR_OK || io.wrote(key) {
        var info := AccountInfo(DefaultOhosInfo(), 0, key.localId, ACCOUNT_VERSION_ANON, 0);
        spaces := spaces[key := Spec.Space(info, key.subId, true, false)];
      }
      if err != ERR_OK && dropped {
        spaces := spaces - {key};
      }
    }

    method DeleteOsAccountSubspace(key: Key, io: Spec.Io, removal: Spec.Removal) returns (err: ErrCode)
      requires Valid()
      modifies this
      ensures Valid() && Spec.Outcome(State(), err) == Spec.DeleteSubProfile(old(State()), key, io, removal)
    {
      Laws.DeleteKeeps(State(), key, io, removal);
      if Spec.Headless(key) {
        return SubProfileRestricted;
      }
      var read := GetDistributedAccountSpaceInfo(key, io);
      if read.Err? {
        return if read.error == AccountNotExist then SubProfileNotFound else read.error;
      }
      if !Spec.Live(read.value) {
        return SubProfileNotFound;
      }
      match removal {
        case Refused(e) =>
          return e;
        case Stuck(e) =>
          spaces := spaces[key := read.value.(toBeRemoved := true)];
          return e;
        case Removed =>
          spaces := spaces - {key};
          if read.value.account.ohos.status != ACCOUNT_STATE_UNBOUND {
            trace := Both(trace, key, UNBOUND);
          }
          trace := trace + [Ended(key)];
          return ERR_OK;
      }
    }

    /** The sub-profiles of one kind that clean-up is to remove. */
    method ScanSubProfileIds(localId: int, kind: Spec.Garbage, io: Spec.Io) returns (ids: seq<int>)
      ensures Spec.KeysFor(localId, ids) == Spec.GarbageKeys(State(), localId, kind, io)
    {
      var lo, hi := SubProfileIds.MinId(localId), SubProfileIds.MaxId(localId) + 1;
      ghost var s := State();
      ids := [];
      for id := hi downto lo
        invariant ids == Spec.IdsBetween(spaces, Spec.GarbageFilter(s, kind, io), localId, id, hi)
      {
        var key := Key(localId, id);
        if key in spaces && Spec.IsGarbage(spaces[key], kind) && io.seen(key) {
          ids := [id] + ids;
        }
      }
    }

    method RemoveSubProfileDirs(localId: int, ids: seq<int>, goes: Key -> bool) returns (removeNum: nat)
      modifies this
      ensures State() == Spec.RemoveAll(old(State()), Spec.KeysFor(localId, ids), goes)
      ensures removeNum == 0 <==> forall id | id in ids :: !goes(Key(localId, id))
    {
      ghost var s, keys := State(), Spec.KeysFor(localId, ids);
      removeNum := 0;
      for i := 0 to |ids|
        invariant Spec.RemoveAll(s, keys, goes) == Spec.RemoveAll(State(), keys[i..], goes)
        invariant removeNum == 0 <==> forall j | 0 <= j < i :: !goes(Key(localId, ids[j]))
      {
        var key := Key(localId, ids[i]);
        assert keys[i..][0] == key && keys[i..][1..] == keys[i + 1..];
        if goes(key) {
          trace := Spec.Ending(State(), key);
          spaces := spaces - {key};
          removeNum := removeNum + 1;
        }
      }
    }

    /**
     Makes room in a full OS account. The second scan starts from an empty set again, so only what
     is pending removal goes.
     */
    method RemoveGarbageSubProfiles(localId: int, io: Spec.Io, goes: Key -> bool) returns (removeNum: nat)
      requires Valid()
      modifies this
      ensures Valid() && State() == Spec.RemoveGarbage(old(State()), localId, Spec.PendingRemoval, io, goes)
      ensures removeNum == 0 <==>
                forall k: Key :: !Laws.Reclaimed(old(State()), localId, Spec.PendingRemoval, io, goes, k)
    {
      ghost var s := State();
      Laws.ReclaimKeeps(s, localId, Spec.PendingRemoval, io, goes);
      var garbageIds := ScanSubProfileIds(localId, Spec.Orphaned, io);
      garbageIds := ScanSubProfileIds(localId, Spec.PendingRemoval, io);
      forall k: Key
        ensures (k.localId == localId && k.subId in garbageIds && goes(k)) <==>
                Laws.Reclaimed(s, localId, Spec.PendingRemoval, io, goes, k)
      {
        Laws.GarbageMember(s, localId, Spec.PendingRemoval, io, k);
        Laws.KeysForMember(localId, garbageIds, k);
      }
      assert forall id | id in garbageIds :: Key(localId, id).subId in garbageIds;
      removeNum := RemoveSubProfileDirs(localId, garbageIds, goes);
    }

    /** One OS account's part of the clean-up at start-up. */
    method CleanupOrphanedSubProfiles(localId: int, io: Spec.Io, goes: Key -> bool)
      requires Valid()
      modifies this
      ensures
        var s1 := Spec.RemoveGarbage(old(State()), localId, Spec.Orphaned, io, goes);
        Valid() && State() == Spec.RemoveGarbage(s1, localId, Spec.PendingRemoval, io, goes)
    {
      Laws.ReclaimKeeps(State(), localId, Spec.Orphaned, io, goes);
      var orphanIds := ScanSubProfileIds(localId, Spec.Orphaned, io);
      var _ := RemoveSubProfileDirs(localId, orphanIds, goes);
      Laws.ReclaimKeeps(State(), localId, Spec.PendingRemoval, io, goes);
      var pendingRemoveIds := ScanSubProfileIds(localId, Spec.PendingRemoval, io);
      var _ := RemoveSubProfileDirs(localId, pendingRemoveIds, goes);
    }

    method SendMultiSpaceLogoutOnDelOsAccount(localId: int, io: Spec.Io)
      modifies this
      ensures State() == Spec.SendLogoutOnDelete(old(State()), localId, io)
    {
      var ids := ScanOsAccountSubProfileIds(localId, io);
      ghost var keys := Spec.KeysFor(localId, ids);
      ghost var s := State();
      Laws.IdsBetweenMeaning(spaces, Spec.Scannable(s, io), localId,
                             SubProfileIds.MinId(localId), SubProfileIds.MaxId(localId) + 1);
      for i := 0 to |ids|
        invariant main == s.main && spaces == s.spaces
        invariant Spec.FarewellAll(s, s.trace, keys, io) == Spec.FarewellAll(s, trace, keys[i..], io)
      {
        var key := Key(localId, ids[i]);
        assert ids[i] in ids;
        assert keys[i..][0] == key && keys[i..][1..] == keys[i + 1..];
        var read := GetDistributedAccountSpaceInfo(key, io);
        if read.Err? {
          continue;
        }
        var status := read.value.account.ohos.status;
        if status == ACCOUNT_STATE_UNBOUND {
          continue;
        }
        if status == ACCOUNT_STATE_LOGIN {
          trace := Both(trace, key, LOGOUT);
        }
        trace := Both(trace, key, UNBOUND);
      }
    }
  }
}
