/**
 `OhosAccountManager` in the build with one record per OS account. Every method is
 proved against `SingleRecordSpec`, whose functions do not mention the state machine:
 what a request does never depends on where an earlier one left the shared machine.
 */
module SingleRecordManager {
  import opened AccountTypes
  import opened AccountStateMachineModel
  import opened BindingEvents
  import Spec = SingleRecordSpec

  class OhosAccountManager {
    const sha: Sha256
    const accountState: AccountStateMachine
    var records: map<int, AccountInfo>
    ghost var trace: seq<Item>

    ghost predicate Valid() {
      accountState.Valid() && accountState.mode == SingleRecord
    }

    ghost function State(): Spec.State
      reads this
    {
      Spec.State(records, trace)
    }

    constructor (sha: Sha256)
      ensures Valid() && fresh(accountState) && this.sha == sha && State() == Spec.INITIAL
    {
      this.sha := sha;
      accountState := new AccountStateMachine(SingleRecord);
      records, trace := map[], [];
    }

    method AccountInfoFromJson(userId: int, io: Spec.Io) returns (r: Result<AccountInfo>)
      modifies this
      ensures (State(), r) == Spec.Load(old(State()), userId, io)
    {
      var failure := io.load(userId);
      if failure != ERR_OK {
        return Err(failure);
      }
      if userId < 0 {
        return Err(InvalidId);
      }
      if userId !in records {
        records := records[userId := DefaultAccount(userId, io.now)];
      }
      return Ok(records[userId].(userId := userId));
    }

    method AccountInfoToJson(info: AccountInfo, io: Spec.Io) returns (err: ErrCode)
      modifies this
      ensures (State(), err) == Spec.Save(old(State()), info, io)
    {
      err := io.save(info.userId);
      if err == ERR_OK || io.wrote(info.userId) {
        records := records[info.userId := info];
      }
    }

    /** Sets the shared machine to the record's state, fires the event, copies the new state back. */
    method HandleEvent(cur: AccountInfo, event: EventName) returns (ok: bool, next: AccountInfo)
      requires Valid()
      modifies accountState
      ensures ok == Spec.HandleEvent(cur, event).Some?
      ensures next == if ok then Spec.HandleEvent(cur, event).value else cur
    {
      next := cur;
      var code := EventCode(SingleRecord, event);
      if code.None? {
        return false, next;
      }
      TableMeansNextStatus(SingleRecord, cur.ohos.status, event);
      accountState.SetAccountState(cur.ohos.status);
      ok := accountState.StateChangeProcess(code.value);
      if !ok {
        return;
      }
      var newState := accountState.currentState;
      if newState != cur.ohos.status {
        next := cur.(ohos := cur.ohos.(status := newState));
      }
    }

    method LoginOhosAccount(userId: int, info: OhosAccountInfo, io: Spec.Io) returns (err: ErrCode)
      requires Valid()
      modifies this, accountState
      ensures Spec.Outcome(State(), err) == Spec.StateChange(sha, old(State()), userId, info, LoginEvent, io)
    {
      var read := AccountInfoFromJson(userId, io);
      if read.Err? {
        return read.error;
      }
      var hashed := GenerateOhosUdid(sha, info.name, info.uid);
      if Spec.CheckOhosAccountCanBind(read.value, info, hashed) != ERR_OK {
        return AccountNotExist;
      }
      var originalStatus := read.value.ohos.status;
      var ok, next := HandleEvent(read.value, LoginEvent);
      if !ok {
        return ServiceError;
      }
      var saved := AccountInfoToJson(BoundTo(next, info, hashed, io.now, io.callingUid), io);
      if saved != ERR_OK {
        return ServiceError;
      }
      trace := Spec.PublishLogin(trace, Spec.RecordKey(userId), originalStatus);
      return ERR_OK;
    }

    method GetCurOhosAccountAndCheckMatch(userId: int, info: OhosAccountInfo, io: Spec.Io)
      returns (err: ErrCode, cur: AccountInfo)
      modifies this
      ensures State() == Spec.Load(old(State()), userId, io).0
      ensures
        var read := Spec.Load(old(State()), userId, io).1;
        && (err == ERR_OK <==> read.Ok? && CheckSameDistributedAccount(sha, read.value.ohos, info))
        && (err == ERR_OK ==> cur == read.value)
    {
      var read := AccountInfoFromJson(userId, io);
      if read.Err? {
        return read.error, DefaultAccount(userId, io.now);
      }
      if !CheckSameDistributedAccount(sha, read.value.ohos, info) {
        return AccountNotExist, read.value;
      }
      return ERR_OK, read.value;
    }

    method LogoutOhosAccount(userId: int, info: OhosAccountInfo, io: Spec.Io) returns (err: ErrCode)
      requires Valid()
      modifies this, accountState
      ensures Spec.Outcome(State(), err) == Spec.StateChange(sha, old(State()), userId, info, LogoutEvent, io)
    {
      var matchErr, cur := GetCurOhosAccountAndCheckMatch(userId, info, io);
      if matchErr != ERR_OK {
        return AccountNotExist;
      }
      var ok, next := HandleEvent(cur, LogoutEvent);
      if !ok {
        return ServiceError;
      }
      assert Spec.Decide(sha, Spec.Found(old(State()), userId, io), info, LogoutEvent, io) == Ok(Cleared(next));
      var cleared := AccountInfoToJson(Cleared(next), io);
      if cleared != ERR_OK {
        return ServiceError;
      }
      trace := Spec.PublishLeaving(trace, Spec.RecordKey(userId), LOGOUT);
      return ERR_OK;
    }

    method LogoffOhosAccount(userId: int, info: OhosAccountInfo, io: Spec.Io) returns (err: ErrCode)
      requires Valid()
      modifies this, accountState
      ensures Spec.Outcome(State(), err) == Spec.StateChange(sha, old(State()), userId, info, LogoffEvent, io)
    {
      var matchErr, cur := GetCurOhosAccountAndCheckMatch(userId, info, io);
      if matchErr != ERR_OK {
        return AccountNotExist;
      }
      var ok, next := HandleEvent(cur, LogoffEvent);
      if !ok {
        return ServiceError;
      }
      assert Spec.Decide(sha, Spec.Found(old(State()), userId, io), info, LogoffEvent, io) == Ok(Cleared(next));
      var cleared := AccountInfoToJson(Cleared(next), io);
      if cleared != ERR_OK {
        return ServiceError;
      }
      trace := Spec.PublishLeaving(trace, Spec.RecordKey(userId), LOGOFF);
      return ERR_OK;
    }

    method HandleOhosAccountTokenInvalidEvent(userId: int, info: OhosAccountInfo, io: Spec.Io) returns (err: ErrCode)
      requires Valid()
      modifies this, accountState
      ensures Spec.Outcome(State(), err) == Spec.StateChange(sha, old(State()), userId, info, TokenInvalidEvent, io)
    {
      var matchErr, cur := GetCurOhosAccountAndCheckMatch(userId, info, io);
      if matchErr != ERR_OK {
        return AccountNotExist;
      }
      var ok, next := HandleEvent(cur, TokenInvalidEvent);
      if !ok {
        return ServiceError;
      }
      assert Spec.Decide(sha, Spec.Found(old(State()), userId, io), info, TokenInvalidEvent, io) == Ok(next);
      // The result of the write is not looked at.
      var _ := AccountInfoToJson(next, io);
      trace := Both(trace, Spec.RecordKey(userId), TOKEN_INVALID);
      return ERR_OK;
    }

    /** The dispatch of an external request. */
    method OhosAccountStateChange(userId: int, info: OhosAccountInfo, event: EventName, io: Spec.Io)
      returns (err: ErrCode)
      requires Valid()
      modifies this, accountState
      ensures Spec.Outcome(State(), err) == Spec.StateChange(sha, old(State()), userId, info, event, io)
    {
      match event {
        case LoginEvent => err := LoginOhosAccount(userId, info, io);
        case LogoutEvent => err := LogoutOhosAccount(userId, info, io);
        case LogoffEvent => err := LogoffOhosAccount(userId, info, io);
        case TokenInvalidEvent => err := HandleOhosAccountTokenInvalidEvent(userId, info, io);
        case UnknownEvent(_) => err := InvalidParameter;
      }
    }

    method ClearMainAccountIfMatch(localId: int, bundleUid: int, io: Spec.Io)
      modifies this
      ensures State() == Spec.ClearIfMatch(old(State()), localId, bundleUid, io)
    {
      var read := AccountInfoFromJson(localId, io);
      if read.Err? {
        return;
      }
      if read.value.ohos.callingUid != bundleUid || read.value.ohos.status == ACCOUNT_STATE_UNBOUND {
        return;
      }
      var _ := AccountInfoToJson(Cleared(read.value), io);
      trace := Spec.PublishLeaving(trace, Spec.RecordKey(localId), LOGOUT);
    }

    method OnPackageRemoved(ids: seq<int>, bundleUid: int, io: Spec.Io)
      modifies this
      ensures State() == Spec.ClearAll(old(State()), ids, bundleUid, io)
    {
      for i := 0 to |ids|
        invariant Spec.ClearAll(old(State()), ids, bundleUid, io) == Spec.ClearAll(State(), ids[i..], bundleUid, io)
      {
        ClearMainAccountIfMatch(ids[i], bundleUid, io);
      }
    }

    method SendLogoutEventOnDelOsAccount(localId: int, io: Spec.Io) returns (err: ErrCode)
      modifies this
      ensures Spec.Outcome(State(), err) == Spec.SendLogoutOnDelete(old(State()), localId, io)
    {
      var read := AccountInfoFromJson(localId, io);
      if read.Err? {
        return read.error;
      }
      if read.value.ohos.status == ACCOUNT_STATE_UNBOUND {
        return ERR_OK;
      }
      if read.value.ohos.status == ACCOUNT_STATE_LOGIN {
        trace := Both(trace, Spec.RecordKey(localId), LOGOUT);
      }
      trace := Both(trace, Spec.RecordKey(localId), UNBOUND);
      return ERR_OK;
    }
  }
}
