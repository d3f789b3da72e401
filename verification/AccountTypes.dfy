/**
 The values the distributed-account services pass around: status and event codes,
 error codes, the identity record of a bound account and the checks on it that are
 plain expressions.
 */
module AccountTypes {

  datatype Option<+T> = None | Some(value: T)

  datatype Result<+T> = Ok(value: T) | Err(error: Failure)

  /** Error codes, by name; `IoError` stands for any failure of a file or of another service. */
  datatype ErrCode =
    | ERR_OK
    | ServiceError
    | AccountNotExist
    | InvalidParameter
    | AlreadyBound
    | SubProfileRestricted
    | SubProfileNotFound
    | SubProfileLimit
    | InvalidId
    | IoError(code: int)

  type Failure = e: ErrCode | e != ERR_OK witness ServiceError

  type int32 = x: int | -0x8000_0000 <= x < 0x8000_0000
  type int64 = x: int | -0x8000_0000_0000_0000 <= x < 0x8000_0000_0000_0000

  /** `static_cast<int32_t>` of a wider integer. */
  function ToInt32(n: int): (r: int32)
    ensures r == n <==> -0x8000_0000 <= n < 0x8000_0000
    ensures n >= 0 ==> r <= n
    ensures r % 0x1_0000_0000 == n % 0x1_0000_0000
  {
    var low := n % 0x1_0000_0000;
    if low < 0x8000_0000 then low else low - 0x1_0000_0000
  }

  /** What a C string keeps of a text: everything before the first NUL. */
  function CText(s: string): string {
    if s == "" || s[0] == '\0' then "" else [s[0]] + CText(s[1..])
  }

  lemma {:induction false} CTextMeaning(s: string)
    ensures CText(s) <= s && '\0' !in CText(s)
    ensures CText(s) == s <==> '\0' !in s
  {
    if s != "" && s[0] != '\0' {
      CTextMeaning(s[1..]);
      assert s == [s[0]] + s[1..];
      assert CText(s) == s ==> CText(s)[1..] == s[1..];
    }
  }

  // Binding status of a distributed account (account_info.h).
  const ACCOUNT_STATE_UNBOUND := 0
  const ACCOUNT_STATE_LOGIN := 1
  const ACCOUNT_STATE_NOTLOGIN := 2
  const ACCOUNT_STATE_LOGOFF := 3
  const ACCOUNT_STATE_TOKEN_EXPIRED := 4

  // Inner events of the state machine (account_info.h).
  const ACCOUNT_BIND_SUCCESS_EVT := 0
  const ACCOUNT_BIND_FAILED_EVT := 1
  const ACCOUNT_AUTHENTICATE_SUCCESS_EVT := 2
  const ACCOUNT_AUTHENTICATE_FAILED_EVT := 3
  const ACCOUNT_TOKEN_EXPIRED_EVT := 4
  const ACCOUNT_PASSWORD_CHANGED_EVT := 5
  const ACCOUNT_MANUAL_LOGOUT_EVT := 6
  const ACCOUNT_MANUAL_UNBOUND_EVT := 7
  const ACCOUNT_MANUAL_LOGOFF_EVT := 8

  const DEFAULT_OHOS_ACCOUNT_NAME := "ohosAnonymousName"
  const DEFAULT_OHOS_ACCOUNT_UID := "ohosAnonymousUid"
  const DEFAULT_CALLING_UID := -1
  const ACCOUNT_VERSION_DEFAULT := 0
  const ACCOUNT_VERSION_ANON := 1
  const MAX_NAME_LENGTH := 256
  const MAX_UID_LENGTH := 512
  const OHOS_ACCOUNT_UDID_LENGTH := 64
  const OS_ACCOUNT_SUBSPACE_ID_MULTIPLIER := 1000
  const SUB_PROFILE_ID_MIN := 1
  const SUB_PROFILE_ID_MAX := 999

  /** The event string of a state-change request, already looked up. */
  datatype EventName = LoginEvent | LogoutEvent | LogoffEvent | TokenInvalidEvent | UnknownEvent(text: string)

  /** Build mode: one record per OS account, or one per sub-profile. */
  datatype Mode = SingleRecord | SubProfiles

  datatype OhosAccountInfo = OhosAccountInfo(
    name: string,
    uid: string,
    rawUid: string,
    status: int,
    callingUid: int,
    nickname: string,
    avatar: string,
    scalableData: string)

  datatype AccountInfo = AccountInfo(
    ohos: OhosAccountInfo,
    bindTime: int,
    userId: int,
    version: int,
    createTime: int)

  /** Upper-case hexadecimal SHA-256: any function whose result has 64 characters. */
  type Sha256 = f: string -> string | forall s :: |f(s)| == OHOS_ACCOUNT_UDID_LENGTH
    witness (s: string) => seq(OHOS_ACCOUNT_UDID_LENGTH, _ => '0')

  function GenerateOhosUdid(sha: Sha256, name: string, uid: string): (r: string)
    ensures |r| == 0 || |r| == OHOS_ACCOUNT_UDID_LENGTH
    ensures |r| == 0 <==> name == "" || |name| > MAX_NAME_LENGTH || uid == "" || |uid| > MAX_UID_LENGTH
  {
    if name == "" || |name| > MAX_NAME_LENGTH then ""
    else if uid == "" || |uid| > MAX_UID_LENGTH then ""
    else sha(uid)
  }

  /** Is `requested` the account that `current` is bound to? */
  predicate CheckSameDistributedAccount(sha: Sha256, current: OhosAccountInfo, requested: OhosAccountInfo) {
    requested.name == current.name && GenerateOhosUdid(sha, requested.name, requested.uid) == current.uid
  }

  /** The record of an OS account whose file is built from scratch. */
  function DefaultOhosInfo(): OhosAccountInfo {
    OhosAccountInfo(DEFAULT_OHOS_ACCOUNT_NAME, DEFAULT_OHOS_ACCOUNT_UID, DEFAULT_OHOS_ACCOUNT_UID,
                    ACCOUNT_STATE_UNBOUND, DEFAULT_CALLING_UID, "", "", "")
  }

  function DefaultAccount(userId: int, now: int): AccountInfo {
    AccountInfo(DefaultOhosInfo(), 0, userId, ACCOUNT_VERSION_DEFAULT, now)
  }

  /** `AccountInfo::clear`: the identity goes, version, user id and creation time stay. */
  function Cleared(info: AccountInfo): AccountInfo {
    info.(ohos := DefaultOhosInfo().(rawUid := ""), bindTime := 0)
  }

  /**
   What a successful login stores: the requested account under its hashed uid. The record's text
   is cut at its first NUL on its way into the file, and the time narrowed; the avatar has a file
   of its own.
   */
  function BoundTo(info: AccountInfo, requested: OhosAccountInfo, hashed: string, now: int,
                   callingUid: int): AccountInfo
  {
    info.(ohos := requested.(name := CText(requested.name), rawUid := CText(requested.uid), uid := hashed,
                             status := ACCOUNT_STATE_LOGIN, callingUid := callingUid,
                             nickname := CText(requested.nickname),
                             scalableData := CText(requested.scalableData)),
          bindTime := ToInt32(now),
          version := ACCOUNT_VERSION_ANON)
  }

  /** UNBOUND exactly when the uid is the default one; a bound uid is a digest; no stored name holds a NUL. */
  ghost predicate IdentityOk(info: OhosAccountInfo) {
    && '\0' !in info.name
    && (info.status == ACCOUNT_STATE_UNBOUND <==> info.uid == DEFAULT_OHOS_ACCOUNT_UID)
    && (info.status != ACCOUNT_STATE_UNBOUND ==> |info.uid| == OHOS_ACCOUNT_UDID_LENGTH)
  }

  /** No request, whatever its name and uid, matches an unbound record. */
  lemma UnboundNeverMatches(sha: Sha256, current: OhosAccountInfo, requested: OhosAccountInfo)
    requires IdentityOk(current) && current.status == ACCOUNT_STATE_UNBOUND
    ensures !CheckSameDistributedAccount(sha, current, requested)
  {
    assert |DEFAULT_OHOS_ACCOUNT_UID| == 16;
  }
}
