/**
 Distributed-account binding in the build with one record per OS account: what each
 request, a removed package and a removed OS account do to the persisted records and to
 the published history.

 `Io` holds everything the outside decides during one operation: whether reading or
 writing a record works, the clock and the caller.
 */
module SingleRecordSpec {
  import opened AccountTypes
  import opened AccountStateMachineModel
  import opened BindingEvents

  datatype State = State(records: map<int, AccountInfo>, trace: seq<Item>)

  datatype Outcome = Outcome(state: State, err: ErrCode)

  /** `wrote`: a write that is reported as failed has taken effect all the same. */
  datatype Io = Io(load: int -> ErrCode, save: int -> ErrCode, wrote: int -> bool, now: int, callingUid: int)

  datatype Step =
    | Change(userId: int, info: OhosAccountInfo, event: EventName, io: Io)
    | PackageRemoved(ids: seq<int>, bundleUid: int, io: Io)
    | OsAccountRemoved(localId: int, io: Io, removed: bool)

  const INITIAL := State(map[], [])

  /** In this build events carry no sub-profile (-1). */
  function RecordKey(userId: int): Key {
    Key(userId, -1)
  }

  /** The identity an OS account has; a file that was never written reads as the default one. */
  function OhosOf(s: State, userId: int): OhosAccountInfo {
    if userId in s.records then s.records[userId].ohos else DefaultOhosInfo()
  }

  // ---------- storage ----------

  predicate Readable(userId: int, io: Io) {
    0 <= userId && io.load(userId) == ERR_OK
  }

  /** Reading creates the default record when there is none. */
  function Load(s: State, userId: int, io: Io): (State, Result<AccountInfo>) {
    if io.load(userId) != ERR_OK then (s, Err(io.load(userId)))
    else if userId < 0 then (s, Err(InvalidId))
    else if userId in s.records then (s, Ok(s.records[userId].(userId := userId)))
    else
      var info := DefaultAccount(userId, io.now);
      (s.(records := s.records[userId := info]), Ok(info))
  }

  /** The record is written, whatever is reported. */
  predicate Writes(userId: int, io: Io) {
    io.save(userId) == ERR_OK || io.wrote(userId)
  }

  function Save(s: State, info: AccountInfo, io: Io): (State, ErrCode) {
    (if Writes(info.userId, io) then s.(records := s.records[info.userId := info]) else s, io.save(info.userId))
  }

  // ---------- requests ----------

  function HandleEvent(cur: AccountInfo, event: EventName): Option<AccountInfo> {
    match NextStatus(SingleRecord, cur.ohos.status, event)
    case None => None
    case Some(status) => Some(cur.(ohos := cur.ohos.(status := status)))
  }

  function CheckOhosAccountCanBind(cur: AccountInfo, requested: OhosAccountInfo, hashed: string): ErrCode {
    if |hashed| != OHOS_ACCOUNT_UDID_LENGTH then InvalidParameter
    else if cur.ohos.status == ACCOUNT_STATE_LOGIN && (cur.ohos.uid != hashed || cur.ohos.name != requested.name)
    then AccountNotExist
    else ERR_OK
  }

  /** The record a request wants written, or the error it is refused with. */
  function Decide(sha: Sha256, cur: AccountInfo, info: OhosAccountInfo, event: EventName, io: Io): Result<AccountInfo> {
    var hashed := GenerateOhosUdid(sha, info.name, info.uid);
    var admitted := if event.LoginEvent? then CheckOhosAccountCanBind(cur, info, hashed) == ERR_OK
      else CheckSameDistributedAccount(sha, cur.ohos, info);
    if !admitted then Err(AccountNotExist) else
    match HandleEvent(cur, event)
    case None => Err(ServiceError)
    case Some(next) =>
      match event
      case LoginEvent => Ok(BoundTo(next, info, hashed, io.now, io.callingUid))
      case LogoutEvent => Ok(Cleared(next))
      case LogoffEvent => Ok(Cleared(next))
      case _ => Ok(next)
  }

  function PublishLogin(trace: seq<Item>, key: Key, originalStatus: int): seq<Item> {
    var t0 := if originalStatus == ACCOUNT_STATE_UNBOUND then Both(trace, key, BOUND) else trace;
    var t1 := On(t0, Subscriber, key, LOGIN);
    if originalStatus == ACCOUNT_STATE_LOGIN then t1 else On(t1, Common, key, LOGIN)
  }

  /** LOGOUT or LOGOFF, then UNBOUND, first to subscribers and then as common events. */
  function PublishLeaving(trace: seq<Item>, key: Key, kind: Kind): seq<Item> {
    var t := On(On(trace, Subscriber, key, kind), Subscriber, key, UNBOUND);
    On(On(t, Common, key, kind), Common, key, UNBOUND)
  }

  function Publish(trace: seq<Item>, key: Key, event: EventName, originalStatus: int): seq<Item> {
    match event
    case LoginEvent => PublishLogin(trace, key, originalStatus)
    case LogoutEvent => PublishLeaving(trace, key, LOGOUT)
    case LogoffEvent => PublishLeaving(trace, key, LOGOFF)
    case TokenInvalidEvent => Both(trace, key, TOKEN_INVALID)
    case UnknownEvent(_) => trace
  }

  /** The record a request finds, once it can be read. */
  function Found(s: State, userId: int, io: Io): AccountInfo {
    if userId in s.records then s.records[userId].(userId := userId) else DefaultAccount(userId, io.now)
  }

  /**
   Any request: read, decide, write, publish. A failed write stops every request but
   token-invalid, which goes on to publish.
   */
  function StateChange(sha: Sha256, s: State, userId: int, info: OhosAccountInfo, event: EventName, io: Io): Outcome {
    Carry(s, userId, event, io, Decide(sha, Found(s, userId, io), info, event, io))
  }

  function Carry(s: State, userId: int, event: EventName, io: Io, decided: Result<AccountInfo>): Outcome {
    if event.UnknownEvent? then Outcome(s, InvalidParameter) else
    var (s1, read) := Load(s, userId, io);
    if read.Err? then Outcome(s1, if event.LoginEvent? then read.error else AccountNotExist)
    else if decided.Err? then Outcome(s1, decided.error)
    else
      var (s2, saved) := Save(s1, decided.value, io);
      if saved != ERR_OK && !event.TokenInvalidEvent? then Outcome(s2, ServiceError)
      else Outcome(s2.(trace := Publish(s2.trace, RecordKey(userId), event, read.value.ohos.status)), ERR_OK)
  }

  // ---------- removals ----------

  /** Clears the record if the removed package had bound it; a failed write is ignored. */
  function ClearIfMatch(s: State, localId: int, bundleUid: int, io: Io): State {
    var (s1, read) := Load(s, localId, io);
    if read.Err? || read.value.ohos.callingUid != bundleUid || read.value.ohos.status == ACCOUNT_STATE_UNBOUND then s1
    else
      var (s2, _) := Save(s1, Cleared(read.value), io);
      s2.(trace := PublishLeaving(s2.trace, RecordKey(localId), LOGOUT))
  }

  function ClearAll(s: State, ids: seq<int>, bundleUid: int, io: Io): State
    decreases |ids|
  {
    if ids == [] then s else ClearAll(ClearIfMatch(s, ids[0], bundleUid, io), ids[1..], bundleUid, io)
  }

  /** The farewell events of an OS account about to be deleted; its record is not touched. */
  function SendLogoutOnDelete(s: State, localId: int, io: Io): Outcome {
    var (s1, read) := Load(s, localId, io);
    if read.Err? then Outcome(s1, read.error)
    else Outcome(s1.(trace := Farewell(s1.trace, RecordKey(localId), read.value.ohos.status)), ERR_OK)
  }

  /** The caller ignores the result of the farewell, then deletes the files, which may fail. */
  function RemoveOsAccount(s: State, localId: int, io: Io, removed: bool): State {
    var s1 := SendLogoutOnDelete(s, localId, io).state;
    if removed then State(s1.records - {localId}, s1.trace + [Ended(RecordKey(localId))]) else s1
  }

  function Apply(sha: Sha256, s: State, step: Step): State {
    match step
    case Change(userId, info, event, io) => StateChange(sha, s, userId, info, event, io).state
    case PackageRemoved(ids, bundleUid, io) => ClearAll(s, ids, bundleUid, io)
    case OsAccountRemoved(localId, io, removed) => RemoveOsAccount(s, localId, io, removed)
  }

  function Run(sha: Sha256, s: State, steps: seq<Step>): State
    decreases |steps|
  {
    if steps == [] then s else Run(sha, Apply(sha, s, steps[0]), steps[1..])
  }

  // ---------- what is promised ----------

  ghost predicate RecordsOk(s: State) {
    forall id :: RecordOk(OhosOf(s, id))
  }

  ghost predicate RecordOk(info: OhosAccountInfo) {
    IdentityOk(info) && KnownState(SingleRecord, info.status)
  }

  function StatusOf(s: State, key: Key): int {
    if key == RecordKey(key.localId) then OhosOf(s, key.localId).status else ACCOUNT_STATE_UNBOUND
  }

  /** The history tells the truth about one record on one channel. */
  ghost predicate Told(s: State, channel: Channel, key: Key) {
    Tells(Replay(s.trace, channel, key), StatusOf(s, key))
  }

  ghost predicate TraceOk(s: State) {
    forall channel, key :: Told(s, channel, key)
  }

  ghost predicate AllSettled(s: State) {
    forall channel, key :: Replay(s.trace, channel, key).settled
  }

  /** The request passes the checks on the record: the same account, or one that may be bound; and a table row. */
  predicate Admits(sha: Sha256, cur: OhosAccountInfo, info: OhosAccountInfo, event: EventName) {
    match event
    case LoginEvent =>
      && |GenerateOhosUdid(sha, info.name, info.uid)| == OHOS_ACCOUNT_UDID_LENGTH
      && (cur.status == ACCOUNT_STATE_LOGIN ==> CheckSameDistributedAccount(sha, cur, info))
    case LogoutEvent => CheckSameDistributedAccount(sha, cur, info) && cur.status != ACCOUNT_STATE_TOKEN_EXPIRED
    case UnknownEvent(_) => false
    case _ => CheckSameDistributedAccount(sha, cur, info)
  }

  /** The status a request leads to. */
  function StatusWanted(event: EventName): int {
    match event
    case LoginEvent => ACCOUNT_STATE_LOGIN
    case TokenInvalidEvent => ACCOUNT_STATE_TOKEN_EXPIRED
    case _ => ACCOUNT_STATE_UNBOUND
  }

  /**
   What is published and what is stored part ways: a request that changes the status is
   published and not written, or written and not published; a record is not cleared, or an OS
   account not removed, after its events went out.
   */
  ghost predicate Misreports(sha: Sha256, s: State, step: Step) {
    match step
    case Change(userId, info, event, io) =>
      && Readable(userId, io)
      && Admits(sha, OhosOf(s, userId), info, event)
      && OhosOf(s, userId).status != StatusWanted(event)
      && Writes(userId, io) != Publishes(userId, event, io)
    case PackageRemoved(ids, bundleUid, io) =>
      exists id | id in ids :: ClearFails(s, id, bundleUid, io)
    case OsAccountRemoved(localId, io, removed) =>
      Readable(localId, io) && OhosOf(s, localId).status != ACCOUNT_STATE_UNBOUND && !removed
  }

  /** The code publishes a request if its write is reported as done; token-invalid in any case. */
  predicate Publishes(userId: int, event: EventName, io: Io) {
    io.save(userId) == ERR_OK || event.TokenInvalidEvent?
  }

  ghost predicate ClearMatches(s: State, id: int, bundleUid: int, io: Io) {
    Readable(id, io) && OhosOf(s, id).callingUid == bundleUid && OhosOf(s, id).status != ACCOUNT_STATE_UNBOUND
  }

  ghost predicate ClearFails(s: State, id: int, bundleUid: int, io: Io) {
    ClearMatches(s, id, bundleUid, io) && !Writes(id, io)
  }

  // ---------- publishing, as the observer sees it ----------

  lemma ReplayLogin(trace: seq<Item>, key: Key, originalStatus: int, channel: Channel, k: Key)
    ensures
      var o := Replay(trace, channel, k);
      var bound := if originalStatus == ACCOUNT_STATE_UNBOUND then Hear(o, BOUND) else o;
      Replay(PublishLogin(trace, key, originalStatus), channel, k) ==
      if k != key then o
      else if channel.Common? && originalStatus == ACCOUNT_STATE_LOGIN then bound
      else Hear(bound, LOGIN)
  {
    ReplayBoth(trace, key, BOUND, channel, k);
    var t0 := if originalStatus == ACCOUNT_STATE_UNBOUND then Both(trace, key, BOUND) else trace;
    ReplayOne(t0, Published(Subscriber, key, LOGIN), channel, k);
    ReplayOne(On(t0, Subscriber, key, LOGIN), Published(Common, key, LOGIN), channel, k);
  }

  lemma ReplayLeaving(trace: seq<Item>, key: Key, kind: Kind, channel: Channel, k: Key)
    ensures
      var o := Replay(trace, channel, k);
      Replay(PublishLeaving(trace, key, kind), channel, k) == if k != key then o else Hear(Hear(o, kind), UNBOUND)
  {
    var t1 := On(trace, Subscriber, key, kind);
    var t2 := On(t1, Subscriber, key, UNBOUND);
    var t3 := On(t2, Common, key, kind);
    ReplayOne(trace, Published(Subscriber, key, kind), channel, k);
    ReplayOne(t1, Published(Subscriber, key, UNBOUND), channel, k);
    ReplayOne(t2, Published(Common, key, kind), channel, k);
    ReplayOne(t3, Published(Common, key, UNBOUND), channel, k);
  }

  // ---------- one step ----------

  /** What a request writes, said of the record alone. */
  ghost predicate DecidedWell(cur: AccountInfo, event: EventName, decided: Result<AccountInfo>) {
    decided.Ok? ==>
      && RecordOk(decided.value.ohos)
      && decided.value.userId == cur.userId
      && decided.value.ohos.status == StatusWanted(event)
      && (!event.LoginEvent? ==> cur.ohos.status != ACCOUNT_STATE_UNBOUND)
      && (event.LogoutEvent? || event.LogoffEvent? ==> decided.value.ohos == DefaultOhosInfo().(rawUid := ""))
      && (event.TokenInvalidEvent? ==> decided.value.ohos == cur.ohos.(status := ACCOUNT_STATE_TOKEN_EXPIRED))
  }

  lemma DecideMeaning(sha: Sha256, cur: AccountInfo, info: OhosAccountInfo, event: EventName, io: Io)
    requires RecordOk(cur.ohos) && !event.UnknownEvent?
    ensures
      var decided := Decide(sha, cur, info, event, io);
      && DecidedWell(cur, event, decided)
      && (decided.Ok? && event.LoginEvent? ==>
            && decided.value.ohos.name == CText(info.name)
            && decided.value.ohos.uid == GenerateOhosUdid(sha, info.name, info.uid))
    ensures Decide(sha, cur, info, event, io).Ok? <==> Admits(sha, cur.ohos, info, event)
  {
    if event.LoginEvent? {
      DecideLogin(sha, cur, info, io);
    } else {
      DecideOther(sha, cur, info, event, io);
    }
  }

  lemma DecideLogin(sha: Sha256, cur: AccountInfo, info: OhosAccountInfo, io: Io)
    requires RecordOk(cur.ohos)
    ensures
      var decided := Decide(sha, cur, info, LoginEvent, io);
      && DecidedWell(cur, LoginEvent, decided)
      && (decided.Ok? <==> Admits(sha, cur.ohos, info, LoginEvent))
      && (decided.Ok? ==>
            && decided.value.ohos.name == CText(info.name)
            && decided.value.ohos.uid == GenerateOhosUdid(sha, info.name, info.uid))
  {
    assert |DEFAULT_OHOS_ACCOUNT_UID| == 16;
    CTextMeaning(info.name);
  }

  lemma DecideOther(sha: Sha256, cur: AccountInfo, info: OhosAccountInfo, event: EventName, io: Io)
    requires RecordOk(cur.ohos) && !event.LoginEvent? && !event.UnknownEvent?
    ensures
      var decided := Decide(sha, cur, info, event, io);
      DecidedWell(cur, event, decided) && (decided.Ok? <==> Admits(sha, cur.ohos, info, event))
  {
    if cur.ohos.status == ACCOUNT_STATE_UNBOUND {
      UnboundNeverMatches(sha, cur.ohos, info);
    }
  }

  /** The request gets as far as writing. */
  ghost predicate Reached(userId: int, event: EventName, io: Io, decided: Result<AccountInfo>) {
    !event.UnknownEvent? && Readable(userId, io) && decided.Ok?
  }

  /** The whole effect of a request on the identities and on the history. */
  lemma CarryEffect(s: State, userId: int, event: EventName, io: Io, decided: Result<AccountInfo>)
    requires decided.Ok? ==> decided.value.userId == userId
    ensures
      var o := Carry(s, userId, event, io, decided);
      var reached := Reached(userId, event, io, decided);
      var done := reached && Publishes(userId, event, io);
      && (o.err == ERR_OK <==> done)
      && (forall id :: OhosOf(o.state, id) ==
            if id == userId && reached && Writes(userId, io) then decided.value.ohos else OhosOf(s, id))
      && (o.state.trace ==
            if done then Publish(s.trace, RecordKey(userId), event, OhosOf(s, userId).status) else s.trace)
  {
  }

  lemma StepKeepsRecords(sha: Sha256, s: State, step: Step)
    requires RecordsOk(s)
    ensures RecordsOk(Apply(sha, s, step))
  {
    match step
    case Change(userId, info, event, io) =>
      if !event.UnknownEvent? {
        var decided := Decide(sha, Found(s, userId, io), info, event, io);
        assert RecordOk(OhosOf(s, userId));
        DecideMeaning(sha, Found(s, userId, io), info, event, io);
        CarryKeepsRecords(s, userId, event, io, decided);
      }
    case PackageRemoved(ids, bundleUid, io) =>
      ClearAllKeepsRecords(s, ids, bundleUid, io);
    case OsAccountRemoved(localId, io, removed) =>
      RemoveEffect(s, localId, io, removed);
  }

  lemma CarryKeepsRecords(s: State, userId: int, event: EventName, io: Io, decided: Result<AccountInfo>)
    requires RecordsOk(s) && DecidedWell(Found(s, userId, io), event, decided)
    ensures RecordsOk(Carry(s, userId, event, io, decided).state)
  {
    CarryEffect(s, userId, event, io, decided);
  }

  lemma RemoveEffect(s: State, localId: int, io: Io, removed: bool)
    ensures
      var s' := RemoveOsAccount(s, localId, io, removed);
      forall id :: OhosOf(s', id) == if id == localId && removed then DefaultOhosInfo() else OhosOf(s, id)
  {
  }

  lemma ClearEffect(s: State, id: int, bundleUid: int, io: Io)
    ensures
      var s' := ClearIfMatch(s, id, bundleUid, io);
      var matched := ClearMatches(s, id, bundleUid, io);
      && (forall other :: OhosOf(s', other) ==
            if other == id && matched && Writes(id, io) then DefaultOhosInfo().(rawUid := "") else OhosOf(s, other))
      && s'.trace == if matched then PublishLeaving(s.trace, RecordKey(id), LOGOUT) else s.trace
  {
  }

  lemma {:induction false} ClearAllKeepsRecords(s: State, ids: seq<int>, bundleUid: int, io: Io)
    requires RecordsOk(s)
    ensures RecordsOk(ClearAll(s, ids, bundleUid, io))
    decreases |ids|
  {
    if ids != [] {
      ClearEffect(s, ids[0], bundleUid, io);
      ClearAllKeepsRecords(ClearIfMatch(s, ids[0], bundleUid, io), ids[1..], bundleUid, io);
    }
  }

  /** Publishing a request tells the observer of the new status. */
  lemma ReplayPublish(trace: seq<Item>, key: Key, event: EventName, status: int, channel: Channel, k: Key)
    requires !event.UnknownEvent?
    requires k == key ==> Tells(Replay(trace, channel, k), status)
    requires event.LoginEvent? || status != ACCOUNT_STATE_UNBOUND
    ensures
      var o := Replay(trace, channel, k);
      var wanted := StatusWanted(event);
      Replay(Publish(trace, key, event, status), channel, k) ==
      if k == key then Observer(wanted, wanted != ACCOUNT_STATE_UNBOUND, true, o.settled) else o
  {
    match event
    case LoginEvent => ReplayLogin(trace, key, status, channel, k);
    case LogoutEvent => ReplayLeaving(trace, key, LOGOUT, channel, k);
    case LogoffEvent => ReplayLeaving(trace, key, LOGOFF, channel, k);
    case TokenInvalidEvent => ReplayBoth(trace, key, TOKEN_INVALID, channel, k);
  }

  /** A request keeps the history true of every record unless only one of the two was done of it. */
  lemma CarryTells(s: State, userId: int, event: EventName, io: Io, decided: Result<AccountInfo>,
                   channel: Channel, key: Key)
    requires RecordOk(OhosOf(s, userId)) && Told(s, channel, key) && DecidedWell(Found(s, userId, io), event, decided)
    ensures
      var s' := Carry(s, userId, event, io, decided).state;
      && Replay(s'.trace, channel, key).settled == Replay(s.trace, channel, key).settled
      && (Told(s', channel, key) <==>
          key != RecordKey(userId)
          || !(Reached(userId, event, io, decided) && OhosOf(s, userId).status != StatusWanted(event)
               && Writes(userId, io) != Publishes(userId, event, io)))
  {
    var s' := Carry(s, userId, event, io, decided).state;
    CarryEffect(s, userId, event, io, decided);
    assert key != RecordKey(userId) ==> StatusOf(s', key) == StatusOf(s, key);
    if Reached(userId, event, io, decided) {
      ReplayPublish(s.trace, RecordKey(userId), event, OhosOf(s, userId).status, channel, key);
      assert StatusOf(s', RecordKey(userId)) ==
             if Writes(userId, io) then StatusWanted(event) else OhosOf(s, userId).status;
    }
  }

  lemma ChangeTells(sha: Sha256, s: State, userId: int, info: OhosAccountInfo, event: EventName, io: Io,
                    channel: Channel, key: Key)
    requires RecordsOk(s) && Told(s, channel, key)
    ensures
      var s' := StateChange(sha, s, userId, info, event, io).state;
      && Replay(s'.trace, channel, key).settled == Replay(s.trace, channel, key).settled
      && (Told(s', channel, key) <==>
          key != RecordKey(userId) || !Misreports(sha, s, Change(userId, info, event, io)))
  {
    if !event.UnknownEvent? {
      var found := Found(s, userId, io);
      assert RecordOk(OhosOf(s, userId));
      DecideMeaning(sha, found, info, event, io);
      CarryTells(s, userId, event, io, Decide(sha, found, info, event, io), channel, key);
    }
  }

  lemma ClearOneTells(s: State, id: int, bundleUid: int, io: Io, channel: Channel, key: Key)
    ensures
      var s' := ClearIfMatch(s, id, bundleUid, io);
      && Replay(s'.trace, channel, key).settled == Replay(s.trace, channel, key).settled
      && (key != RecordKey(id) ==>
            StatusOf(s', key) == StatusOf(s, key) && Replay(s'.trace, channel, key) == Replay(s.trace, channel, key))
      && (key == RecordKey(id) && ClearFails(s, id, bundleUid, io) ==>
            Replay(s'.trace, channel, key).status == ACCOUNT_STATE_UNBOUND)
      && (key == RecordKey(id) && !ClearFails(s, id, bundleUid, io) && Told(s, channel, key) ==> Told(s', channel, key))
  {
    ClearEffect(s, id, bundleUid, io);
    ReplayLeaving(s.trace, RecordKey(id), LOGOUT, channel, key);
  }

  /** Clearing one record leaves the others, and whether clearing them would fail. */
  lemma ClearingKeepsOthers(s: State, id: int, bundleUid: int, io: Io)
    ensures
      var s' := ClearIfMatch(s, id, bundleUid, io);
      && (forall other | other != id || ClearFails(s, id, bundleUid, io) :: OhosOf(s', other) == OhosOf(s, other))
      && (forall other :: ClearFails(s', other, bundleUid, io) <==> ClearFails(s, other, bundleUid, io))
  {
    ClearEffect(s, id, bundleUid, io);
  }

  /** The loop over OS accounts: a record's history stays true unless clearing it failed. */
  lemma {:induction false} ClearAllTells(s: State, ids: seq<int>, bundleUid: int, io: Io, channel: Channel, key: Key)
    ensures
      var s' := ClearAll(s, ids, bundleUid, io);
      var failed := key == RecordKey(key.localId) && key.localId in ids && ClearFails(s, key.localId, bundleUid, io);
      && Replay(s'.trace, channel, key).settled == Replay(s.trace, channel, key).settled
      && (failed ==> StatusOf(s', key) != ACCOUNT_STATE_UNBOUND
                     && Replay(s'.trace, channel, key).status == ACCOUNT_STATE_UNBOUND)
      && (!failed && Told(s, channel, key) ==> Told(s', channel, key))
    decreases |ids|
  {
    if ids != [] {
      var s1 := ClearIfMatch(s, ids[0], bundleUid, io);
      ClearOneTells(s, ids[0], bundleUid, io, channel, key);
      ClearingKeepsOthers(s, ids[0], bundleUid, io);
      ClearAllTells(s1, ids[1..], bundleUid, io, channel, key);
      assert key.localId in ids <==> key.localId == ids[0] || key.localId in ids[1..];
      if key == RecordKey(ids[0]) && ClearFails(s, ids[0], bundleUid, io) && key.localId !in ids[1..] {
        FailureStays(s1, ids[1..], bundleUid, io, channel, key);
      }
    }
  }

  lemma {:induction false} FailureStays(s: State, ids: seq<int>, bundleUid: int, io: Io, channel: Channel, key: Key)
    requires key.localId !in ids
    ensures
      var s' := ClearAll(s, ids, bundleUid, io);
      StatusOf(s', key) == StatusOf(s, key) && Replay(s'.trace, channel, key) == Replay(s.trace, channel, key)
    decreases |ids|
  {
    if ids != [] {
      ClearOneTells(s, ids[0], bundleUid, io, channel, key);
      ClearingKeepsOthers(s, ids[0], bundleUid, io);
      FailureStays(ClearIfMatch(s, ids[0], bundleUid, io), ids[1..], bundleUid, io, channel, key);
    }
  }

  lemma RemoveTells(s: State, localId: int, io: Io, removed: bool, channel: Channel, key: Key)
    requires Told(s, channel, key)
    ensures
      var s' := RemoveOsAccount(s, localId, io, removed);
      var bound := OhosOf(s, localId).status != ACCOUNT_STATE_UNBOUND;
      && (Told(s', channel, key) <==> key != RecordKey(localId) || !bound || removed || !Readable(localId, io))
      && Replay(s'.trace, channel, key).settled ==
         (Replay(s.trace, channel, key).settled &&
          !(key == RecordKey(localId) && bound && removed && !Readable(localId, io)))
  {
    var s1 := SendLogoutOnDelete(s, localId, io).state;
    RemoveEffect(s, localId, io, removed);
    FarewellTells(s, localId, io, channel, key);
    if removed {
      ReplayEnd(s1.trace, RecordKey(localId), channel, key);
    }
  }

  /** After the farewell the observer takes a readable record for unbound; the record itself has not moved. */
  lemma FarewellTells(s: State, localId: int, io: Io, channel: Channel, key: Key)
    requires Told(s, channel, key)
    ensures
      var s1 := SendLogoutOnDelete(s, localId, io).state;
      var o := Replay(s.trace, channel, key);
      && (forall id :: OhosOf(s1, id) == OhosOf(s, id))
      && Replay(s1.trace, channel, key) ==
         if key == RecordKey(localId) && Readable(localId, io)
         then Observer(ACCOUNT_STATE_UNBOUND, false, true, o.settled)
         else o
  {
    FarewellEffect(s, localId, io);
    ReplayFarewell(s.trace, RecordKey(localId), OhosOf(s, localId).status, channel, key);
  }

  lemma FarewellEffect(s: State, localId: int, io: Io)
    ensures
      var s1 := SendLogoutOnDelete(s, localId, io).state;
      && (forall id :: OhosOf(s1, id) == OhosOf(s, id))
      && s1.trace == if Readable(localId, io) then Farewell(s.trace, RecordKey(localId), OhosOf(s, localId).status)
                     else s.trace
  {
  }

  /** Replay and order survive a step exactly when it does not misreport. */
  lemma StepTells(sha: Sha256, s: State, step: Step)
    requires RecordsOk(s) && TraceOk(s)
    ensures TraceOk(Apply(sha, s, step)) <==> !Misreports(sha, s, step)
  {
    var s' := Apply(sha, s, step);
    forall channel, key
      ensures Told(s', channel, key) <==> !(Misreports(sha, s, step) && Names(s, step, key))
    {
      assert Told(s, channel, key);
      match step
      case Change(userId, info, event, io) =>
        ChangeTells(sha, s, userId, info, event, io, channel, key);
      case PackageRemoved(ids, bundleUid, io) =>
        ClearAllTells(s, ids, bundleUid, io, channel, key);
      case OsAccountRemoved(localId, io, removed) =>
        RemoveTells(s, localId, io, removed, channel, key);
    }
    if Misreports(sha, s, step) {
      var id := match step
        case Change(userId, _, _, _) => userId
        case OsAccountRemoved(localId, _, _) => localId
        case PackageRemoved(ids, bundleUid, io) => FailingId(s, ids, bundleUid, io);
      assert Names(s, step, RecordKey(id));
      assert !Told(s', Subscriber, RecordKey(id));
    }
  }

  /** The records a step misreports. */
  ghost predicate Names(s: State, step: Step, key: Key) {
    match step
    case Change(userId, _, _, _) => key == RecordKey(userId)
    case OsAccountRemoved(localId, _, _) => key == RecordKey(localId)
    case PackageRemoved(ids, bundleUid, io) =>
      key == RecordKey(key.localId) && key.localId in ids && ClearFails(s, key.localId, bundleUid, io)
  }

  ghost function FailingId(s: State, ids: seq<int>, bundleUid: int, io: Io): (id: int)
    requires exists id | id in ids :: ClearFails(s, id, bundleUid, io)
    ensures id in ids && ClearFails(s, id, bundleUid, io)
  {
    var id :| id in ids && ClearFails(s, id, bundleUid, io);
    id
  }

  /** A bound record goes with its OS account and could not be read for its farewell. */
  ghost predicate LeavesOpen(s: State, step: Step) {
    step.OsAccountRemoved? && step.removed && !Readable(step.localId, step.io)
    && OhosOf(s, step.localId).status != ACCOUNT_STATE_UNBOUND
  }

  /** A lifetime closes without its UNBOUND exactly when a bound record could not be read at its removal. */
  lemma StepSettles(sha: Sha256, s: State, step: Step)
    requires RecordsOk(s) && TraceOk(s) && AllSettled(s)
    ensures AllSettled(Apply(sha, s, step)) <==> !LeavesOpen(s, step)
  {
    var s' := Apply(sha, s, step);
    forall channel, key
      ensures Replay(s'.trace, channel, key).settled <==> !(LeavesOpen(s, step) && key == RecordKey(step.localId))
    {
      assert Told(s, channel, key) && Replay(s.trace, channel, key).settled;
      match step
      case Change(userId, info, event, io) =>
        ChangeTells(sha, s, userId, info, event, io, channel, key);
      case PackageRemoved(ids, bundleUid, io) =>
        ClearAllTells(s, ids, bundleUid, io, channel, key);
      case OsAccountRemoved(localId, io, removed) =>
        RemoveTells(s, localId, io, removed, channel, key);
    }
    if step.OsAccountRemoved? {
      assert Replay(s'.trace, Subscriber, RecordKey(step.localId)).settled <==> !LeavesOpen(s, step);
    }
  }

  // ---------- whole runs ----------

  /** No step of the run misreports. */
  ghost predicate Quiet(sha: Sha256, s: State, steps: seq<Step>)
    decreases |steps|
  {
    steps == [] || (!Misreports(sha, s, steps[0]) && Quiet(sha, Apply(sha, s, steps[0]), steps[1..]))
  }

  /** The history is true in every state the run passes through. */
  ghost predicate AlwaysTold(sha: Sha256, s: State, steps: seq<Step>)
    decreases |steps|
  {
    TraceOk(s) && (steps == [] || AlwaysTold(sha, Apply(sha, s, steps[0]), steps[1..]))
  }

  lemma {:induction false} RunFrom(sha: Sha256, s: State, steps: seq<Step>)
    requires RecordsOk(s) && TraceOk(s)
    ensures RecordsOk(Run(sha, s, steps))
    ensures AlwaysTold(sha, s, steps) <==> Quiet(sha, s, steps)
    ensures Quiet(sha, s, steps) ==> TraceOk(Run(sha, s, steps))
    decreases |steps|
  {
    if steps != [] {
      var s1 := Apply(sha, s, steps[0]);
      StepKeepsRecords(sha, s, steps[0]);
      StepTells(sha, s, steps[0]);
      if TraceOk(s1) {
        RunFrom(sha, s1, steps[1..]);
      } else {
        RecordsAlong(sha, s1, steps[1..]);
        assert !AlwaysTold(sha, s1, steps[1..]);
      }
    }
  }

  lemma {:induction false} RecordsAlong(sha: Sha256, s: State, steps: seq<Step>)
    requires RecordsOk(s)
    ensures RecordsOk(Run(sha, s, steps))
    decreases |steps|
  {
    if steps != [] {
      StepKeepsRecords(sha, s, steps[0]);
      RecordsAlong(sha, Apply(sha, s, steps[0]), steps[1..]);
    }
  }

  lemma InitialTold()
    ensures RecordsOk(INITIAL) && TraceOk(INITIAL) && AllSettled(INITIAL)
  {
    forall channel, key ensures Told(INITIAL, channel, key) && Replay(INITIAL.trace, channel, key).settled {
      assert Replay([], channel, key) == FRESH;
    }
  }

  /**
   Main result. Over every run: in every reachable state a record is UNBOUND exactly when
   its uid is the default one; and replaying either channel reconstructs every persisted
   status, in order within each lifetime, in all states of the run exactly when no step
   misreported.
   */
  lemma ReplayReconstructs(sha: Sha256, steps: seq<Step>)
    ensures RecordsOk(Run(sha, INITIAL, steps))
    ensures AlwaysTold(sha, INITIAL, steps) <==> Quiet(sha, INITIAL, steps)
    ensures Quiet(sha, INITIAL, steps) ==>
              var s := Run(sha, INITIAL, steps);
              forall channel, key ::
                Replay(s.trace, channel, key).status == StatusOf(s, key) && WellOrdered(s.trace, channel, key)
  {
    InitialTold();
    RunFrom(sha, INITIAL, steps);
    var s := Run(sha, INITIAL, steps);
    if Quiet(sha, INITIAL, steps) {
      forall channel, key
        ensures Replay(s.trace, channel, key).status == StatusOf(s, key) && WellOrdered(s.trace, channel, key)
      {
        assert Told(s, channel, key);
        ObserverMeaning(s.trace, channel, key);
      }
    }
  }

  /** No lifetime has ended while bound, in any state of the run. */
  ghost predicate AlwaysSettled(sha: Sha256, s: State, steps: seq<Step>)
    decreases |steps|
  {
    AllSettled(s) && (steps == [] || AlwaysSettled(sha, Apply(sha, s, steps[0]), steps[1..]))
  }

  /** No bound record of the run goes without a farewell. */
  ghost predicate AlwaysCloses(sha: Sha256, s: State, steps: seq<Step>)
    decreases |steps|
  {
    steps == [] || (!LeavesOpen(s, steps[0]) && AlwaysCloses(sha, Apply(sha, s, steps[0]), steps[1..]))
  }

  lemma {:induction false} SettledAlong(sha: Sha256, s: State, steps: seq<Step>)
    requires RecordsOk(s) && TraceOk(s) && AllSettled(s) && Quiet(sha, s, steps)
    ensures AlwaysSettled(sha, s, steps) <==> AlwaysCloses(sha, s, steps)
    ensures AlwaysCloses(sha, s, steps) ==> AllSettled(Run(sha, s, steps)) && TraceOk(Run(sha, s, steps))
    decreases |steps|
  {
    if steps != [] {
      var s1 := Apply(sha, s, steps[0]);
      StepKeepsRecords(sha, s, steps[0]);
      StepTells(sha, s, steps[0]);
      StepSettles(sha, s, steps[0]);
      if AllSettled(s1) {
        SettledAlong(sha, s1, steps[1..]);
      } else {
        assert !AlwaysSettled(sha, s1, steps[1..]);
      }
    }
  }

  /**
   Main result across lifetimes. On a run that never misreports, every lifetime ends with its
   UNBOUND in all states exactly when no bound record goes without a farewell; then what is
   published of a record, on either channel, is BOUND and UNBOUND in turn, with everything else
   between, however often its OS account was removed and made again.
   */
  lemma BoundAndUnboundAlternate(sha: Sha256, steps: seq<Step>)
    requires Quiet(sha, INITIAL, steps)
    ensures AlwaysSettled(sha, INITIAL, steps) <==> AlwaysCloses(sha, INITIAL, steps)
    ensures AlwaysCloses(sha, INITIAL, steps) ==>
              forall channel, key :: Alternates(Run(sha, INITIAL, steps).trace, channel, key)
  {
    InitialTold();
    SettledAlong(sha, INITIAL, steps);
    var s := Run(sha, INITIAL, steps);
    if AlwaysCloses(sha, INITIAL, steps) {
      forall channel, key ensures Alternates(s.trace, channel, key) {
        assert Told(s, channel, key) && Replay(s.trace, channel, key).settled;
        AlternationMeaning(s.trace, channel, key);
      }
    }
  }

  // ---------- refusals, independence, identity ----------

  /** A reachable unbound record refuses everything but a login. */
  lemma UnboundRefusesAllButLogin(sha: Sha256, s: State, userId: int, info: OhosAccountInfo, event: EventName, io: Io)
    requires RecordsOk(s)
    requires OhosOf(s, userId).status == ACCOUNT_STATE_UNBOUND && !event.LoginEvent?
    ensures StateChange(sha, s, userId, info, event, io).err != ERR_OK
  {
    UnboundNeverMatches(sha, OhosOf(s, userId), info);
  }

  /**
   A refused or failed request publishes nothing and changes nothing but possibly creating the
   default record it read, unless its write took effect and was reported as failed.
   */
  lemma ErrorLeavesEverything(sha: Sha256, s: State, userId: int, info: OhosAccountInfo, event: EventName, io: Io)
    requires StateChange(sha, s, userId, info, event, io).err != ERR_OK
    ensures
      var s' := StateChange(sha, s, userId, info, event, io).state;
      var decided := Decide(sha, Found(s, userId, io), info, event, io);
      || s' == s
      || (userId !in s.records && s' == s.(records := s.records[userId := DefaultAccount(userId, io.now)]))
      || (io.wrote(userId) && decided.Ok? && s' == s.(records := s.records[userId := decided.value]))
  {
    var decided := Decide(sha, Found(s, userId, io), info, event, io);
    assert Readable(userId, io) && decided.Ok? ==> decided.value.userId == userId;
    CarryError(s, userId, event, io, decided);
  }

  lemma CarryError(s: State, userId: int, event: EventName, io: Io, decided: Result<AccountInfo>)
    requires Readable(userId, io) && decided.Ok? ==> decided.value.userId == userId
    ensures
      var o := Carry(s, userId, event, io, decided);
      o.err != ERR_OK ==>
        || o.state == Load(s, userId, io).0 || o.state == s
        || (io.wrote(userId) && decided.Ok? && o.state == s.(records := s.records[userId := decided.value]))
  {
    var s1 := Load(s, userId, io).0;
    if decided.Ok? {
      assert s1.records[userId := decided.value] == s.records[userId := decided.value];
    }
  }

  ghost predicate SameRecord(s: State, t: State, userId: int) {
    && (userId in s.records <==> userId in t.records)
    && (userId in s.records ==> s.records[userId] == t.records[userId])
  }

  /** Earlier operations on other records have no say in a request: result, record and events are the same. */
  lemma RecordsAreIndependent(sha: Sha256, s: State, t: State, userId: int, info: OhosAccountInfo, event: EventName,
                              io: Io)
    requires SameRecord(s, t, userId)
    ensures
      var a := StateChange(sha, s, userId, info, event, io);
      var b := StateChange(sha, t, userId, info, event, io);
      && a.err == b.err
      && SameRecord(a.state, b.state, userId)
      && a.state.trace == s.trace + News(a.err, OhosOf(s, userId).status, userId, event)
      && b.state.trace == t.trace + News(a.err, OhosOf(s, userId).status, userId, event)
  {
    var decided := Decide(sha, Found(s, userId, io), info, event, io);
    SameOutcome(s, t, userId, event, io, decided);
    NewsAppended(s, userId, event, io, decided);
    NewsAppended(t, userId, event, io, decided);
  }

  lemma SameOutcome(s: State, t: State, userId: int, event: EventName, io: Io, decided: Result<AccountInfo>)
    requires SameRecord(s, t, userId)
    ensures
      var a := Carry(s, userId, event, io, decided);
      var b := Carry(t, userId, event, io, decided);
      a.err == b.err && SameRecord(a.state, b.state, userId)
  {
  }

  /** The events a request publishes, from its result and the status it found. */
  function News(err: ErrCode, status: int, userId: int, event: EventName): seq<Item> {
    if err != ERR_OK then [] else Publish([], RecordKey(userId), event, status)
  }

  lemma NewsAppended(s: State, userId: int, event: EventName, io: Io, decided: Result<AccountInfo>)
    ensures
      var o := Carry(s, userId, event, io, decided);
      o.state.trace == s.trace + News(o.err, OhosOf(s, userId).status, userId, event)
  {
    PublicationAppends(s.trace, RecordKey(userId), event, OhosOf(s, userId).status);
  }

  lemma PublicationAppends(trace: seq<Item>, key: Key, event: EventName, status: int)
    ensures Publish(trace, key, event, status) == trace + Publish([], key, event, status)
  {
  }

  /**
   A bound record can pass to another account without UNBOUND and BOUND being published:
   exactly by a login, with a well-formed identity and a write that takes effect, while its
   token is expired. Which account it is goes by the name as it is stored, cut at a NUL.
   */
  lemma RebindsExactlyWhenExpired(sha: Sha256, s: State, userId: int, info: OhosAccountInfo, event: EventName, io: Io)
    requires RecordsOk(s) && OhosOf(s, userId).status != ACCOUNT_STATE_UNBOUND
    ensures
      var before := OhosOf(s, userId);
      var o := StateChange(sha, s, userId, info, event, io);
      var after := OhosOf(o.state, userId);
      (after.status != ACCOUNT_STATE_UNBOUND && (after.name, after.uid) != (before.name, before.uid))
      <==>
      (event.LoginEvent? && before.status == ACCOUNT_STATE_TOKEN_EXPIRED
       && Readable(userId, io) && Writes(userId, io)
       && |GenerateOhosUdid(sha, info.name, info.uid)| == OHOS_ACCOUNT_UDID_LENGTH
       && (CText(info.name), GenerateOhosUdid(sha, info.name, info.uid)) != (before.name, before.uid))
  {
    if !event.UnknownEvent? {
      var found := Found(s, userId, io);
      assert RecordOk(OhosOf(s, userId));
      RebindDecided(sha, found, info, event, io);
      CarryEffect(s, userId, event, io, Decide(sha, found, info, event, io));
    }
  }

  lemma RebindDecided(sha: Sha256, cur: AccountInfo, info: OhosAccountInfo, event: EventName, io: Io)
    requires RecordOk(cur.ohos) && cur.ohos.status != ACCOUNT_STATE_UNBOUND && !event.UnknownEvent?
    ensures
      var decided := Decide(sha, cur, info, event, io);
      var hashed := GenerateOhosUdid(sha, info.name, info.uid);
      && (decided.Ok? ==> decided.value.userId == cur.userId)
      && ((decided.Ok? && decided.value.ohos.status != ACCOUNT_STATE_UNBOUND
           && (decided.value.ohos.name, decided.value.ohos.uid) != (cur.ohos.name, cur.ohos.uid)) <==>
          (event.LoginEvent? && cur.ohos.status == ACCOUNT_STATE_TOKEN_EXPIRED
           && |hashed| == OHOS_ACCOUNT_UDID_LENGTH && (CText(info.name), hashed) != (cur.ohos.name, cur.ohos.uid)))
  {
    DecideMeaning(sha, cur, info, event, io);
    CTextMeaning(info.name);
  }

  /** After a login, requests in the same words match the record, exactly when the name holds no NUL. */
  lemma LoginIsRecognised(sha: Sha256, s: State, userId: int, info: OhosAccountInfo, io: Io)
    requires RecordsOk(s) && StateChange(sha, s, userId, info, LoginEvent, io).err == ERR_OK
    ensures
      var after := OhosOf(StateChange(sha, s, userId, info, LoginEvent, io).state, userId);
      CheckSameDistributedAccount(sha, after, info) <==> '\0' !in info.name
  {
    var found := Found(s, userId, io);
    assert RecordOk(OhosOf(s, userId));
    CTextMeaning(info.name);
    DecideMeaning(sha, found, info, LoginEvent, io);
    CarryEffect(s, userId, LoginEvent, io, Decide(sha, found, info, LoginEvent, io));
  }

  /** The table has no row for an unbind of an expired record: single-record logout fails there, logoff works. */
  lemma ExpiredRecordCannotLogOut(sha: Sha256, s: State, userId: int, info: OhosAccountInfo, io: Io)
    requires OhosOf(s, userId).status == ACCOUNT_STATE_TOKEN_EXPIRED
    ensures StateChange(sha, s, userId, info, LogoutEvent, io).err != ERR_OK
    ensures Readable(userId, io) && CheckSameDistributedAccount(sha, OhosOf(s, userId), info)
            && io.save(userId) == ERR_OK ==>
              StateChange(sha, s, userId, info, LogoffEvent, io).err == ERR_OK
  {
  }
}
