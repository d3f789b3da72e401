/**
 Distributed-account binding in the build with many sub-profiles per OS account.

 An OS account's own record is its headless sub-profile, id `localId * 1000`, kept in a
 file of the OS account; every other sub-profile has a directory of its own. `Io` holds
 what the outside decides during one operation. `seen` is the read that a directory scan
 makes of each sub-profile: the scan silently leaves out what it cannot read.
 */
module SubProfilesSpec {
  import opened AccountTypes
  import opened AccountStateMachineModel
  import opened BindingEvents
  import SubProfileIds

  datatype Space = Space(account: AccountInfo, subspaceId: int, isCreateCompleted: bool, toBeRemoved: bool)

  datatype State = State(main: map<int, AccountInfo>, spaces: map<Key, Space>, trace: seq<Item>)

  datatype Outcome = Outcome(state: State, err: ErrCode)

  /** `wrote`: a write that is reported as failed has taken effect all the same. */
  datatype Io = Io(load: Key -> ErrCode, seen: Key -> bool, save: Key -> ErrCode, wrote: Key -> bool,
                   now: int, callingUid: int)

  /**
   How removing a sub-profile goes: done; refused before anything was written (foreground,
   credentials, a failed write); or stuck, flagged for removal but still on disk.
   */
  datatype Removal = Removed | Refused(error: Failure) | Stuck(error: Failure)

  /** Two kinds of sub-profiles that clean-up removes: never completed, and pending removal. */
  datatype Garbage = Orphaned | PendingRemoval

  datatype Step =
    | Change(key: Key, info: OhosAccountInfo, event: EventName, io: Io)
    | PackageRemoved(ids: seq<int>, bundleUid: int, io: Io)
    | SubProfileCreated(localId: int, listed: Result<seq<int>>, hint: int, io: Io, dropped: bool)
    | SubProfileDeleted(key: Key, io: Io, removal: Removal)
    | GarbageRemoved(localId: int, kind: Garbage, io: Io, goes: Key -> bool)
    | OsAccountRemoved(localId: int, io: Io, removed: bool)

  const INITIAL := State(map[], map[], [])

  predicate Headless(key: Key) {
    key.subId == key.localId * OS_ACCOUNT_SUBSPACE_ID_MULTIPLIER
  }

  function HeadlessKey(localId: int): Key {
    Key(localId, localId * OS_ACCOUNT_SUBSPACE_ID_MULTIPLIER)
  }

  /** Created completely and not about to be removed. */
  predicate Live(space: Space) {
    space.isCreateCompleted && !space.toBeRemoved
  }

  /** The identity under a key; where nothing is stored there is nothing bound. */
  function OhosOf(s: State, key: Key): OhosAccountInfo {
    if Headless(key) then
      if key.localId in s.main then s.main[key.localId].ohos else DefaultOhosInfo()
    else if key in s.spaces then s.spaces[key].account.ohos
    else DefaultOhosInfo()
  }

  // ---------- storage ----------

  predicate Readable(s: State, key: Key, io: Io) {
    io.load(key) == ERR_OK && if Headless(key) then 0 <= key.localId else key in s.spaces
  }

  /** What a successful read returns; the headless record is repackaged without its creation time. */
  function Found(s: State, key: Key, io: Io): Space
    requires Readable(s, key, io)
  {
    if !Headless(key) then s.spaces[key]
    else
      var info := if key.localId in s.main then s.main[key.localId] else DefaultAccount(key.localId, io.now);
      Space(AccountInfo(info.ohos, info.bindTime, key.localId, info.version, 0), key.subId, true, false)
  }

  function LoadError(s: State, key: Key, io: Io): Failure
    requires !Readable(s, key, io)
  {
    if !Headless(key) && key !in s.spaces then AccountNotExist
    else if io.load(key) != ERR_OK then io.load(key)
    else InvalidId
  }

  /** Reading the headless record creates it when there is none. */
  function AfterLoad(s: State, key: Key, io: Io): State {
    if Headless(key) && Readable(s, key, io) && key.localId !in s.main
    then s.(main := s.main[key.localId := DefaultAccount(key.localId, io.now)])
    else s
  }

  function KeyOf(space: Space): Key {
    Key(space.account.userId, space.subspaceId)
  }

  /** The record is written, whatever is reported. */
  predicate Writes(key: Key, io: Io) {
    io.save(key) == ERR_OK || io.wrote(key)
  }

  function Save(s: State, space: Space, io: Io): (State, ErrCode) {
    var key := KeyOf(space);
    (if Writes(key, io) then Written(s, key, space) else s, io.save(key))
  }

  /** A sub-profile goes to its own directory, the headless record back to the OS account's file. */
  function Written(s: State, key: Key, space: Space): State {
    if Headless(key) then
      var a := space.account;
      s.(main := s.main[key.localId := AccountInfo(a.ohos, a.bindTime, a.userId, ACCOUNT_VERSION_ANON, 0)])
    else s.(spaces := s.spaces[key := space])
  }

  /** Ids in `[lo, hi)` of stored sub-profiles that pass `keep`, in ascending order. */
  function IdsBetween(spaces: map<Key, Space>, keep: Key -> bool, localId: int, lo: int, hi: int): seq<int>
    decreases hi - lo
  {
    if lo >= hi then []
    else
      var rest := IdsBetween(spaces, keep, localId, lo + 1, hi);
      if Key(localId, lo) in spaces && keep(Key(localId, lo)) then [lo] + rest else rest
  }

  function StoredIds(s: State, keep: Key -> bool, localId: int): seq<int> {
    IdsBetween(s.spaces, keep, localId, SubProfileIds.MinId(localId), SubProfileIds.MaxId(localId) + 1)
  }

  function Scannable(s: State, io: Io): Key -> bool {
    (k: Key) => k in s.spaces && Live(s.spaces[k]) && io.seen(k)
  }

  /** The scan: live sub-profiles that could be read. */
  function Scan(s: State, localId: int, io: Io): seq<int> {
    StoredIds(s, Scannable(s, io), localId)
  }

  function Anything(): Key -> bool {
    (k: Key) => true
  }

  // ---------- requests ----------

  /** The first scanned sub-profile that cannot be read or is bound to the account decides. */
  function VerifyOthers(sha: Sha256, s: State, key: Key, ids: seq<int>, info: OhosAccountInfo, io: Io): ErrCode {
    if ids == [] then ERR_OK
    else
      var other := Key(key.localId, ids[0]);
      if ids[0] == key.subId then VerifyOthers(sha, s, key, ids[1..], info, io)
      else if !Readable(s, other, io) then LoadError(s, other, io)
      else if CheckSameDistributedAccount(sha, OhosOf(s, other), info) then AlreadyBound
      else VerifyOthers(sha, s, key, ids[1..], info, io)
  }

  function VerifySpaceAccountBinding(sha: Sha256, s: State, key: Key, cur: OhosAccountInfo, info: OhosAccountInfo,
                                     io: Io): ErrCode
  {
    if cur.status != ACCOUNT_STATE_UNBOUND then
      if CheckSameDistributedAccount(sha, cur, info) then ERR_OK else AccountNotExist
    else VerifyOthers(sha, s, key, Scan(s, key.localId, io), info, io)
  }

  function HandleSpaceStateChange(cur: Space, event: EventName): Option<Space> {
    match NextStatus(SubProfiles, cur.account.ohos.status, event)
    case None => None
    case Some(status) => Some(cur.(account := cur.account.(ohos := cur.account.ohos.(status := status))))
  }

  function Admission(sha: Sha256, s: State, key: Key, cur: OhosAccountInfo, info: OhosAccountInfo, event: EventName,
                     io: Io): ErrCode
  {
    if event.LoginEvent? then
      if |GenerateOhosUdid(sha, info.name, info.uid)| != OHOS_ACCOUNT_UDID_LENGTH then ServiceError
      else VerifySpaceAccountBinding(sha, s, key, cur, info, io)
    else if CheckSameDistributedAccount(sha, cur, info) then ERR_OK
    else AccountNotExist
  }

  /** The record a request wants written, given whether it is admitted. */
  function Decide(sha: Sha256, cur: Space, info: OhosAccountInfo, event: EventName, io: Io,
                  admission: ErrCode): Result<Space>
  {
    if admission != ERR_OK then Err(admission) else
    match HandleSpaceStateChange(cur, event)
    case None => Err(ServiceError)
    case Some(next) =>
      if event.LoginEvent? then
        var hashed := GenerateOhosUdid(sha, info.name, info.uid);
        Ok(next.(account := BoundTo(next.account, info, hashed, io.now, io.callingUid)))
      else Ok(next)
  }

  function Publish(trace: seq<Item>, key: Key, event: EventName, originalStatus: int): seq<Item> {
    match event
    case LoginEvent =>
      var t := if originalStatus == ACCOUNT_STATE_UNBOUND then Both(trace, key, BOUND) else trace;
      if originalStatus == ACCOUNT_STATE_LOGIN then t else Both(t, key, LOGIN)
    case LogoutEvent => Both(trace, key, LOGOUT)
    case LogoffEvent => Both(trace, key, LOGOFF)
    case TokenInvalidEvent => Both(trace, key, TOKEN_INVALID)
    case UnknownEvent(_) => trace
  }

  function Carry(s: State, key: Key, event: EventName, io: Io, decided: Result<Space>): Outcome {
    if event.UnknownEvent? then Outcome(s, InvalidParameter)
    else if !Readable(s, key, io) then Outcome(s, LoadError(s, key, io))
    else
      var s1 := AfterLoad(s, key, io);
      if decided.Err? then Outcome(s1, decided.error)
      else
        var (s2, saved) := Save(s1, decided.value, io);
        if saved != ERR_OK then Outcome(s2, saved)
        else Outcome(s2.(trace := Publish(s2.trace, key, event, OhosOf(s, key).status)), ERR_OK)
  }

  function Decision(sha: Sha256, s: State, key: Key, info: OhosAccountInfo, event: EventName, io: Io): Result<Space>
  {
    if !Readable(s, key, io) then Err(LoadError(s, key, io))
    else Decide(sha, Found(s, key, io), info, event, io, Admission(sha, s, key, OhosOf(s, key), info, event, io))
  }

  /** Any request on the foreground sub-profile `key`: read, admit, decide, write, publish. */
  function StateChange(sha: Sha256, s: State, key: Key, info: OhosAccountInfo, event: EventName, io: Io): Outcome {
    Carry(s, key, event, io, Decision(sha, s, key, info, event, io))
  }

  // ---------- removals ----------

  predicate ClearMatches(s: State, key: Key, bundleUid: int, io: Io) {
    && Readable(s, key, io)
    && OhosOf(s, key).callingUid == bundleUid
    && OhosOf(s, key).status != ACCOUNT_STATE_UNBOUND
  }

  /** The cleared record; a headless one is written straight to the OS account's file. */
  function Clear(s: State, key: Key, io: Io): State
    requires Readable(s, key, io)
  {
    if !Writes(key, io) then s
    else if Headless(key) then
      var info := if key.localId in s.main then s.main[key.localId] else DefaultAccount(key.localId, io.now);
      s.(main := s.main[key.localId := Cleared(info).(userId := key.localId)])
    else s.(spaces := s.spaces[key := s.spaces[key].(account := Cleared(s.spaces[key].account))])
  }

  /** Clears one record if the removed package had bound it; a failed write is ignored. */
  function ClearIfMatch(s: State, key: Key, bundleUid: int, io: Io): State {
    var s1 := AfterLoad(s, key, io);
    if !ClearMatches(s, key, bundleUid, io) then s1
    else
      var s2 := Clear(s1, key, io);
      s2.(trace := Both(Both(s2.trace, key, LOGOUT), key, UNBOUND))
  }

  function ClearAll(s: State, keys: seq<Key>, bundleUid: int, io: Io): State
    decreases |keys|
  {
    if keys == [] then s else ClearAll(ClearIfMatch(s, keys[0], bundleUid, io), keys[1..], bundleUid, io)
  }

  function KeysFor(localId: int, ids: seq<int>): (r: seq<Key>)
    ensures |r| == |ids|
  {
    seq(|ids|, i requires 0 <= i < |ids| => Key(localId, ids[i]))
  }

  /** The records a package removal visits: per OS account the headless one, then those the scan finds. */
  function VisitedKeys(s: State, ids: seq<int>, io: Io): seq<Key> {
    if ids == [] then []
    else [HeadlessKey(ids[0])] + KeysFor(ids[0], Scan(s, ids[0], io)) + VisitedKeys(s, ids[1..], io)
  }

  /** What is stored under a key comes to its end, if anything is. */
  function Ending(s: State, key: Key): seq<Item> {
    if key in s.spaces then s.trace + [Ended(key)] else s.trace
  }

  function Without(s: State, key: Key): State {
    State(s.main, s.spaces - {key}, Ending(s, key))
  }

  /** A new, unbound sub-profile, in place of anything stored under its key. */
  function WithFresh(s: State, key: Key): State {
    var info := AccountInfo(DefaultOhosInfo(), 0, key.localId, ACCOUNT_VERSION_ANON, 0);
    State(s.main, s.spaces[key := Space(info, key.subId, true, false)], Ending(s, key))
  }

  /** The id a creation takes: free in the persisted id list, which may not list all that is stored. */
  function NewId(localId: int, listed: seq<int>, hint: int): Option<int> {
    SubProfileIds.Allocate(localId, hint, set id | id in listed)
  }

  /**
   A new sub-profile is written under an id. After a write reported as failed the directory is
   taken away again; `dropped` says whether that worked.
   */
  function Placed(s: State, key: Key, io: Io, dropped: bool): Outcome {
    if io.save(key) == ERR_OK then Outcome(WithFresh(s, key), ERR_OK)
    else Outcome(if dropped then Without(s, key) else if io.wrote(key) then WithFresh(s, key) else s, io.save(key))
  }

  /** `listed` is the persisted id list, or why it could not be read, updated or made room in. */
  function CreateSubProfile(s: State, localId: int, listed: Result<seq<int>>, hint: int, io: Io,
                            dropped: bool): Outcome
  {
    if listed.Err? then Outcome(s, listed.error)
    else
      var id := NewId(localId, listed.value, hint);
      if id.None? then Outcome(s, SubProfileLimit) else Placed(s, Key(localId, id.value), io, dropped)
  }

  /** A sub-profile goes, with an UNBOUND if it is bound. */
  function Departed(s: State, key: Key): State {
    var t := if OhosOf(s, key).status != ACCOUNT_STATE_UNBOUND then Both(s.trace, key, UNBOUND) else s.trace;
    Without(s.(trace := t), key)
  }

  function DeleteSubProfile(s: State, key: Key, io: Io, removal: Removal): Outcome {
    if Headless(key) then Outcome(s, SubProfileRestricted)
    else if !Readable(s, key, io) then
      Outcome(s, if LoadError(s, key, io) == AccountNotExist then SubProfileNotFound else LoadError(s, key, io))
    else if !Live(s.spaces[key]) then Outcome(s, SubProfileNotFound)
    else
      match removal
      case Refused(e) => Outcome(s, e)
      case Stuck(e) => Outcome(s.(spaces := s.spaces[key := s.spaces[key].(toBeRemoved := true)]), e)
      case Removed => Outcome(Departed(s, key), ERR_OK)
  }

  predicate IsGarbage(space: Space, kind: Garbage) {
    match kind
    case Orphaned => !space.isCreateCompleted
    case PendingRemoval => space.toBeRemoved
  }

  function GarbageFilter(s: State, kind: Garbage, io: Io): Key -> bool {
    (k: Key) => k in s.spaces && IsGarbage(s.spaces[k], kind) && io.seen(k)
  }

  /** The garbage of one kind that a scan could read. */
  function GarbageKeys(s: State, localId: int, kind: Garbage, io: Io): seq<Key> {
    KeysFor(localId, StoredIds(s, GarbageFilter(s, kind, io), localId))
  }

  /** Removes the directories that can be removed. */
  function RemoveAll(s: State, keys: seq<Key>, goes: Key -> bool): State
    decreases |keys|
  {
    if keys == [] then s
    else
      RemoveAll(if goes(keys[0]) then Without(s, keys[0]) else s, keys[1..], goes)
  }

  /** The garbage whose directory can be removed goes, bound or not, and nothing is published of it. */
  function RemoveGarbage(s: State, localId: int, kind: Garbage, io: Io, goes: Key -> bool): State {
    RemoveAll(s, GarbageKeys(s, localId, kind, io), goes)
  }

  /** The farewell loop skips what it cannot read. */
  function FarewellAll(s: State, trace: seq<Item>, keys: seq<Key>, io: Io): seq<Item>
    decreases |keys|
  {
    if keys == [] then trace
    else
      var t := if Readable(s, keys[0], io) then Farewell(trace, keys[0], OhosOf(s, keys[0]).status) else trace;
      FarewellAll(s, t, keys[1..], io)
  }

  /** The farewell events of an OS account about to be deleted: only scanned sub-profiles get one. */
  function SendLogoutOnDelete(s: State, localId: int, io: Io): State {
    s.(trace := FarewellAll(s, s.trace, KeysFor(localId, Scan(s, localId, io)), io))
  }

  function EndAll(trace: seq<Item>, keys: seq<Key>): seq<Item>
    decreases |keys|
  {
    if keys == [] then trace else EndAll(trace + [Ended(keys[0])], keys[1..])
  }

  /** The records that go when an OS account's directory goes. */
  function DoomedKeys(s: State, localId: int): seq<Key> {
    [HeadlessKey(localId)] + KeysFor(localId, StoredIds(s, Anything(), localId))
  }

  /** The caller ignores the result of the farewell, then deletes the directory, which may fail. */
  function RemoveOsAccount(s: State, localId: int, io: Io, removed: bool): State {
    var s1 := SendLogoutOnDelete(s, localId, io);
    if !removed then s1
    else
      State(s.main - {localId},
            map k | k in s.spaces && k.localId != localId :: s.spaces[k],
            EndAll(s1.trace, DoomedKeys(s, localId)))
  }

  function Apply(sha: Sha256, s: State, step: Step): State {
    match step
    case Change(key, info, event, io) => StateChange(sha, s, key, info, event, io).state
    case PackageRemoved(ids, bundleUid, io) => ClearAll(s, VisitedKeys(s, ids, io), bundleUid, io)
    case SubProfileCreated(localId, listed, hint, io, dropped) =>
      CreateSubProfile(s, localId, listed, hint, io, dropped).state
    case SubProfileDeleted(key, io, removal) => DeleteSubProfile(s, key, io, removal).state
    case GarbageRemoved(localId, kind, io, goes) => RemoveGarbage(s, localId, kind, io, goes)
    case OsAccountRemoved(localId, io, removed) => RemoveOsAccount(s, localId, io, removed)
  }

  function Run(sha: Sha256, s: State, steps: seq<Step>): State
    decreases |steps|
  {
    if steps == [] then s else Run(sha, Apply(sha, s, steps[0]), steps[1..])
  }
}
