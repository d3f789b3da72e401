/**
 The state machine that `OhosAccountManager` shares between all records: a field for
 the current state and a table built once, looked up by state and then by event.
 */
module AccountStateMachineModel {
  import opened AccountTypes

  /** A table entry: a null action, or an action that names the next state. */
  datatype Action = NoAction | Enter(next: int)

  type Row = map<int, Action>

  function UnboundRow(): Row {
    map[
      ACCOUNT_BIND_SUCCESS_EVT := Enter(ACCOUNT_STATE_LOGIN),
      ACCOUNT_BIND_FAILED_EVT := Enter(ACCOUNT_STATE_UNBOUND),
      ACCOUNT_AUTHENTICATE_SUCCESS_EVT := Enter(ACCOUNT_STATE_LOGIN),
      ACCOUNT_AUTHENTICATE_FAILED_EVT := NoAction,
      ACCOUNT_TOKEN_EXPIRED_EVT := NoAction,
      ACCOUNT_PASSWORD_CHANGED_EVT := NoAction,
      ACCOUNT_MANUAL_LOGOUT_EVT := NoAction,
      ACCOUNT_MANUAL_UNBOUND_EVT := NoAction,
      ACCOUNT_MANUAL_LOGOFF_EVT := NoAction
    ]
  }

  function LoginRow(mode: Mode): Row {
    map[
      ACCOUNT_BIND_SUCCESS_EVT := NoAction,
      ACCOUNT_BIND_FAILED_EVT := Enter(ACCOUNT_STATE_LOGIN),
      ACCOUNT_AUTHENTICATE_SUCCESS_EVT := NoAction,
      ACCOUNT_AUTHENTICATE_FAILED_EVT := NoAction,
      ACCOUNT_TOKEN_EXPIRED_EVT := Enter(ACCOUNT_STATE_TOKEN_EXPIRED),
      ACCOUNT_PASSWORD_CHANGED_EVT := Enter(ACCOUNT_STATE_UNBOUND),
      ACCOUNT_MANUAL_LOGOUT_EVT := Enter(if mode.SingleRecord? then ACCOUNT_STATE_UNBOUND else ACCOUNT_STATE_NOTLOGIN),
      ACCOUNT_MANUAL_UNBOUND_EVT := Enter(ACCOUNT_STATE_UNBOUND),
      ACCOUNT_MANUAL_LOGOFF_EVT := Enter(if mode.SingleRecord? then ACCOUNT_STATE_UNBOUND else ACCOUNT_STATE_LOGOFF)
    ]
  }

  /** The row of every bound state other than LOGIN. */
  function DormantRow(mode: Mode): Row {
    map[
      ACCOUNT_BIND_SUCCESS_EVT := Enter(ACCOUNT_STATE_LOGIN),
      ACCOUNT_MANUAL_LOGOUT_EVT := Enter(if mode.SingleRecord? then ACCOUNT_STATE_UNBOUND else ACCOUNT_STATE_NOTLOGIN),
      ACCOUNT_TOKEN_EXPIRED_EVT := Enter(ACCOUNT_STATE_TOKEN_EXPIRED),
      ACCOUNT_MANUAL_LOGOFF_EVT := Enter(if mode.SingleRecord? then ACCOUNT_STATE_UNBOUND else ACCOUNT_STATE_LOGOFF)
    ]
  }

  function Table(mode: Mode): map<int, Row> {
    if mode.SingleRecord? then
      map[
        ACCOUNT_STATE_UNBOUND := UnboundRow(),
        ACCOUNT_STATE_LOGIN := LoginRow(mode),
        ACCOUNT_STATE_TOKEN_EXPIRED := DormantRow(mode)
      ]
    else
      map[
        ACCOUNT_STATE_UNBOUND := UnboundRow(),
        ACCOUNT_STATE_LOGIN := LoginRow(mode),
        ACCOUNT_STATE_NOTLOGIN := DormantRow(mode),
        ACCOUNT_STATE_TOKEN_EXPIRED := DormantRow(mode),
        ACCOUNT_STATE_LOGOFF := DormantRow(mode)
      ]
  }

  function Lookup(mode: Mode, state: int, evt: int): (r: Option<int>)
  {
    if state !in Table(mode) || evt !in Table(mode)[state] then None
    else match Table(mode)[state][evt]
      case NoAction => Some(state)
      case Enter(next) => Some(next)
  }

  /** The inner event of a request; single-record logout is an unbind, sub-profile logout is not. */
  function EventCode(mode: Mode, event: EventName): Option<int> {
    match event
    case LoginEvent => Some(ACCOUNT_BIND_SUCCESS_EVT)
    case LogoutEvent => Some(if mode.SingleRecord? then ACCOUNT_MANUAL_UNBOUND_EVT else ACCOUNT_MANUAL_LOGOUT_EVT)
    case TokenInvalidEvent => Some(ACCOUNT_TOKEN_EXPIRED_EVT)
    case LogoffEvent => Some(ACCOUNT_MANUAL_LOGOFF_EVT)
    case UnknownEvent(_) => None
  }

  predicate KnownState(mode: Mode, state: int) {
    || state == ACCOUNT_STATE_UNBOUND
    || state == ACCOUNT_STATE_LOGIN
    || state == ACCOUNT_STATE_TOKEN_EXPIRED
    || (mode.SubProfiles? && (state == ACCOUNT_STATE_NOTLOGIN || state == ACCOUNT_STATE_LOGOFF))
  }

  /** What the four requests do, said without the table. None is a refusal. */
  function NextStatus(mode: Mode, state: int, event: EventName): Option<int> {
    if event.UnknownEvent? || !KnownState(mode, state) then None
    else if event.LoginEvent? then Some(ACCOUNT_STATE_LOGIN)
    else if state == ACCOUNT_STATE_UNBOUND then Some(ACCOUNT_STATE_UNBOUND)
    else if event.TokenInvalidEvent? then Some(ACCOUNT_STATE_TOKEN_EXPIRED)
    else if mode.SubProfiles? then
      Some(if event.LogoutEvent? then ACCOUNT_STATE_NOTLOGIN else ACCOUNT_STATE_LOGOFF)
    else if event.LogoutEvent? && state == ACCOUNT_STATE_TOKEN_EXPIRED then None
    else Some(ACCOUNT_STATE_UNBOUND)
  }

  /** The table and `NextStatus` agree on every state and every request. */
  lemma TableMeansNextStatus(mode: Mode, state: int, event: EventName)
    requires !event.UnknownEvent?
    ensures Lookup(mode, state, EventCode(mode, event).value) == NextStatus(mode, state, event)
  {
    match event
    case LoginEvent =>
    case LogoutEvent =>
    case TokenInvalidEvent =>
    case LogoffEvent =>
  }

  class AccountStateMachine {
    const mode: Mode
    const stateMachineMap: map<int, Row>
    var currentState: int

    ghost predicate Valid() {
      stateMachineMap == Table(mode)
    }

    constructor (mode: Mode)
      ensures Valid() && this.mode == mode && currentState == ACCOUNT_STATE_UNBOUND
    {
      this.mode := mode;
      stateMachineMap := Table(mode);
      currentState := ACCOUNT_STATE_UNBOUND;
    }

    method SetAccountState(state: int)
      modifies this
      ensures currentState == state
    {
      currentState := state;
    }

    method StateChangeProcess(evt: int) returns (ok: bool)
      requires Valid()
      modifies this
      ensures ok == Lookup(mode, old(currentState), evt).Some?
      ensures currentState == if ok then Lookup(mode, old(currentState), evt).value else old(currentState)
    {
      if currentState !in stateMachineMap {
        return false;
      }
      var row := stateMachineMap[currentState];
      if evt !in row {
        return false;
      }
      match row[evt] {
        case NoAction =>
          return true;
        case Enter(nextState) =>
          if currentState != nextState {
            currentState := nextState;
          }
          return true;
      }
    }
  }
}
