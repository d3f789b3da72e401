# Account services: model and proofs

A Dafny 4.11 model of the OpenHarmony account subsystem, and proofs of what it promises.
`dafny verify dfyconfig.toml` checks the whole project.

Every component has the same shape. A specification module gives the state as a value, every
operation as a function from state to state and result, the outcomes of files, databases and
remote services as arbitrary inputs, and runs as sequences of steps; its lemmas are the laws. A
second module has the classes, whose methods update their fields in the source's order and are
proved to do what the functions say. Where a law the subsystem is meant to keep fails in the
code, the law is proved to hold exactly when a condition on the steps holds, over every run, and
a concrete run shows the failure.

## Distributed-account binding

`AccountTypes`, `AccountStateMachine`, `BindingEvents`, `SingleRecord` and
`SingleRecordManager` (one record per OS account), `SubProfileIds`, `SubProfiles`,
`SubProfilesLaws` and `SubProfileManager` (many sub-profiles per OS account), `Counterexamples`. The
two `...Effects` modules say outright, field by field and event by event, what each operation does.

Login, logout, logoff, token-invalid, package removal, sub-profile creation and deletion and
OS-account deletion act on persisted records through one shared state machine and publish
events. SHA-256 is any function with 64-character results. The published history is a ghost
trace with two channels (subscriber list and common events); an observer of one record on one
channel replays it. The end of a record is a mark in the trace that is not published; the results
on alternation come in two readings, one per lifetime and one of the published items alone.

What the proofs bring out:

- In sub-profile mode two sub-profiles are never bound to the same account, unless a login passes
  without recognising the holder. There are three ways: the scan skips unreadable sub-profiles
  silently; it skips a sub-profile whose deletion got stuck and which is still stored and bound
  (services/accountmgr/src/distributed_account/os_account_subspace_manager.cpp:357-405, 585-608);
  and a name with a NUL is compared whole but stored only as far as the NUL
  (services/accountmgr/src/ohos_account_manager.cpp:1607-1618,
  frameworks/common/json_utils/src/json_utils.cpp:790-808), so it never equals a stored one. An
  account bound under such a name cannot be logged out under it either.
- The headless record is outside the scan. It may share its account with a sub-profile, and
  OS-account deletion never publishes its UNBOUND
  (services/accountmgr/src/ohos_account_manager.cpp:1675-1708), so a new OS account under the
  same id publishes BOUND a second time in a row.
- Replay is exact except when writing and publishing part ways over a change of status: ignored
  failures on the clear paths, on single-record token-invalid, and when OS-account deletion fails
  after its farewell; and any request whose write took effect and was reported as failed.
- In single-record mode an expired record can pass to another account without UNBOUND and
  BOUND; and logout of an expired record has no table row, so it is refused.
- A directory that cannot be removed leaves its sub-profile flagged although deletion reports
  an error (os_account_subspace_manager.cpp:357-405). Reclaiming it later publishes no UNBOUND, so
  that BOUND comes twice in a row once its id is taken again; the same holds of a stored record
  that is missing from the id list and replaced by a creation.
- Making room in a full OS account removes what is pending removal and never what is unfinished:
  the second scan clears the set the first one filled
  (os_account_subspace_manager.cpp:515-523, os_account_subspace_data_deal.cpp:171-175).
- A cleared record keeps an empty raw uid, unlike a default record
  (interfaces/innerkits/ohosaccount/native/include/account_info.h:192-204), and saving the
  headless record drops its creation time.

## Domain-auth client

`DomainAuthContexts`: the wrap-around context id allocator, the pending map, callbacks and
service death. Without a proxy a call fails and leaves its entry behind; low word 2^32-1 is never
scanned. Answering erases from the map the death loop walks, so the loop is modelled over a
snapshot of the map. `DomainStatusListeners`: the listener set and the remote registration;
unregistering an unrecorded listener with a failing service records it, and a call that the
service did and reported as failed leaves the two sides at odds.

`DomainAccountClient` is one class in the source; the two modules each hold the fields of one
concern, which no method shares.

## Database transactions

`Transactions`: the recursive lock, the guard whose deleter rolls back, calls repeated after an
IPC error, the batch move, on any number of storages and guard variables. The engine may take a
call and report a failure, but never reports a success it did not perform. Starting again on a
variable that holds a guard makes the old guard's rollback discard the new transaction.

## Indexes and subscriber lists

`SubProfileEvents`: the two-way callback/type index of the event service and the client that
keeps the remote service subscribed to the wanted types. `SubscriberList`: the record list of
the service side, with records as objects edited in place. Both refine a plain relation. The
result of adding or removing the death recipient is ignored
(services/accountmgr/src/distributed_account_subscribe_manager.cpp:59-136): a listener that joined
while it failed stays subscribed after its death.

## Codecs and chunking

`Parcels`, `AuthParams`, `DomainOptions`: parcel writers and readers with optional and bounded
fields, against decoders that are proved to be exact inverses. `ContextIds`: the byte form of a
64-bit context id. `ChunkedUpdate`: the pointer-walking loop that feeds a digest.

The writer of `AuthParam` has no size limit although the reader does
(frameworks/account_iam/src/account_iam_info.cpp:103-124, 176-202): an oversized value is written
with success and refused on arrival.

## Storage and start-up

`AccountStore`: the account and avatar files. Loading reports a corrupted file as removed but
leaves it (services/accountmgr/src/ohos_account_data_deal.cpp:349-356, the log message says
"remove"); the bind time is narrowed to 32 bits on saving; a save that fails on its second file
has already changed the avatar. `ServiceStartUp`: arrivals of the three abilities. The default
account is activated while an initial one is missing in two ways: a query that fails with an
unexpected error passes for an existing account
(services/accountmgr/src/account_mgr_service.cpp:959-969), and making the initial accounts is
reported as a success although one was not made
(services/accountmgr/src/osaccount/inner_os_account_manager.cpp:275-298, 1803-1855).

## Model

| member | source | states |
|---|---|---|
| `AccountTypes.GenerateOhosUdid` | services/accountmgr/src/ohos_account_manager.cpp:263-276 | the digest is empty exactly for an empty or overlong name or uid, and has 64 characters otherwise |
| `AccountTypes.UnboundNeverMatches` | services/accountmgr/src/ohos_account_manager.cpp:1607-1618 | no request, whatever its name and uid, matches a record that is unbound |
| `AccountTypes.ToInt32` | services/accountmgr/src/ohos_account_data_deal.cpp:236-262 | narrowing to 32 bits keeps the value exactly when it fits, and always modulo 2^32 |
| `AccountTypes.CTextMeaning` | frameworks/common/json_utils/src/json_utils.cpp:790-808 | text handed to the JSON library loses exactly what follows its first NUL |
| `AccountStateMachineModel.TableMeansNextStatus` | services/accountmgr/src/account_state_machine.cpp:27-108 | in both builds, the row for a known state and a request's event is what the request is meant to do, and a missing row is a refusal |
| `AccountStateMachineModel.AccountStateMachine.StateChangeProcess` | services/accountmgr/src/account_state_machine.cpp:131-170 | succeeds exactly when the table has an entry for state and event, null or not; a null entry leaves the state, any other moves it to the entry's state |
| `AccountStateMachineModel.AccountStateMachine.SetAccountState` | services/accountmgr/include/account_state_machine.h:153-156 | the next event is judged from the state set here |
| `BindingEvents.ObserverMeaning` | services/accountmgr/src/ohos_account_manager.cpp:1013-1039 | the running observer says "ordered" exactly when, position by position, BOUND is published only while not bound and everything else only while bound |
| `BindingEvents.AlternationMeaning` | services/accountmgr/src/ohos_account_manager.cpp:1434-1437 | when no lifetime of a record ended while bound, the observer's order within lifetimes is exactly strict alternation of the published BOUND and UNBOUND from the first event on, everything else between, read off the published items alone |
| `BindingEvents.ReplayFarewell` | services/accountmgr/src/ohos_account_manager.cpp:1727-1739 | the farewell of a record leaves its observer at UNBOUND, in order, whatever bound status it had |
| `BindingEvents.ReplayBoth` | services/accountmgr/src/ohos_account_manager.cpp:1070-1084 | publishing on both channels tells every observer of that record, on either channel, once, and no observer of another |
| `BindingEvents.FarewellSays` | services/accountmgr/src/ohos_account_manager.cpp:1727-1739 | a farewell says LOGOUT only of a record that is logged in, then UNBOUND, and nothing of an unbound one or of another record |
| `SingleRecordSpec.ReplayReconstructs` | services/accountmgr/src/ohos_account_manager.cpp:972-1167 | over every run of login, logout, logoff, token-invalid, package removal and OS-account removal: a record is UNBOUND exactly when its uid is the default one; replaying either channel gives every persisted status, in order within each lifetime, in all states of the run exactly when no step published without writing or wrote without publishing a change of status |
| `SingleRecordSpec.BoundAndUnboundAlternate` | services/accountmgr/src/ohos_account_manager.cpp:972-1167 | over every run that never misreports, OS accounts removed and made again included: every lifetime ends with its UNBOUND in all states exactly when no bound record goes unread; then BOUND and UNBOUND strictly alternate in what is published of every record on both channels |
| `SingleRecordSpec.SettledAlong` | services/accountmgr/src/ohos_account_manager.cpp:1712-1747 | the same equivalence from any state that fits, by induction over the run |
| `SingleRecordSpec.StepTells` | services/accountmgr/src/ohos_account_manager.cpp:1041-1167 | one step keeps replay and order true of all records on both channels exactly when publishing and writing did not part ways over a change of status |
| `SingleRecordSpec.StepSettles` | services/accountmgr/src/ohos_account_manager.cpp:1712-1747 | a record's lifetime ends with its UNBOUND published, except exactly when a bound record could not be read at its OS account's removal |
| `SingleRecordSpec.StepKeepsRecords` | services/accountmgr/src/ohos_account_manager.cpp:952-1167 | every step keeps "UNBOUND iff default uid, else a 64-character digest, and no NUL in the name" for every record |
| `SingleRecordSpec.DecideMeaning` | services/accountmgr/src/ohos_account_manager.cpp:972-1167 | what a request would write: login gives LOGIN under the hashed uid and the name as far as its first NUL; logout and logoff give the cleared record, and only from a bound one; token-invalid changes the status alone; and exactly which requests pass the checks on record and request |
| `SingleRecordSpec.CarryEffect` | services/accountmgr/src/ohos_account_manager.cpp:928-1011 | a request succeeds and publishes exactly when it was readable, decided and reported as saved (ignored for token-invalid); it changes its own record only, exactly when the write takes effect, reported or not |
| `SingleRecordSpec.ReplayLogin` | services/accountmgr/src/ohos_account_manager.cpp:1013-1039 | what login publishes: BOUND first when the record was unbound; LOGIN, but on the common channel not when it was logged in already |
| `SingleRecordSpec.CarryTells` | services/accountmgr/src/ohos_account_manager.cpp:928-1011 | one request keeps the history true of every record, except exactly when a change of status was published and not written, or written and reported as failed |
| `SingleRecordSpec.ClearOneTells` | services/accountmgr/src/ohos_account_manager.cpp:1244-1263 | clearing after a package removal publishes LOGOUT and UNBOUND; a clearing whose write fails leaves the observer with UNBOUND over a bound record |
| `SingleRecordSpec.ClearAllTells` | services/accountmgr/src/ohos_account_manager.cpp:1228-1242 | over the loop of OS accounts, exactly the records whose clearing failed end up misreported |
| `SingleRecordSpec.RemoveTells` | services/accountmgr/src/ohos_account_manager.cpp:1712-1747 | removing an OS account keeps the history true unless the removal fails after the farewell of a bound record |
| `SingleRecordSpec.UnboundRefusesAllButLogin` | services/accountmgr/src/ohos_account_manager.cpp:1041-1167 | logout, logoff and token-invalid on an unbound record are always refused |
| `SingleRecordSpec.ErrorLeavesEverything` | services/accountmgr/src/ohos_account_manager.cpp:928-1167 | a request that returns an error publishes nothing and leaves all records alone, but for the default record that reading may create, and its own record when a write reported as failed took effect |
| `SingleRecordSpec.RecordsAreIndependent` | services/accountmgr/src/ohos_account_manager.cpp:928-949 | the one shared state machine acts as one machine per record: result, record and events of a request depend on its own record only |
| `SingleRecordSpec.RebindsExactlyWhenExpired` | services/accountmgr/src/ohos_account_manager.cpp:972-1011 | a bound record passes to another account without UNBOUND and BOUND exactly by a login, well-formed, readable and written, whose name as stored or hashed uid differs from the record, while its token is expired |
| `SingleRecordSpec.LoginIsRecognised` | services/accountmgr/src/ohos_account_manager.cpp:1607-1618 | after a successful login, logout, logoff and token-invalid in the same words match the record exactly when the name holds no NUL |
| `SingleRecordSpec.ExpiredRecordCannotLogOut` | services/accountmgr/src/account_state_machine.cpp:86-108 | with an expired token, logout is refused (the table has no such row) and a matching logoff works |
| `SingleRecordEffects.RequestSays` | services/accountmgr/src/ohos_account_manager.cpp:1013-1167 | a successful logout says exactly LOGOUT, UNBOUND of its record on each channel, logoff LOGOFF, UNBOUND, token-invalid TOKEN_INVALID, login BOUND if it was unbound and LOGIN, on the common channel only if it was not logged in; a failing request says nothing, and no request anything of another record |
| `SingleRecordEffects.RequestStores` | services/accountmgr/src/ohos_account_manager.cpp:928-1167 | field by field, the record an admitted request leaves: login stores calling uid, raw uid, nickname, avatar, time and digest; token-invalid changes the status alone; logout and logoff keep version and creation time; every other record stays, and reading makes a record that is missing |
| `SingleRecordEffects.RefusalSaysWhy` | services/accountmgr/src/ohos_account_manager.cpp:972-1167 | which error a request gets: event, reading, identity, missing table row, write, in this order |
| `SingleRecordEffects.PackageRemovalClears` | services/accountmgr/src/ohos_account_manager.cpp:1228-1263 | exactly the readable records with that calling uid of the OS accounts visited lose their identity if the write takes effect; LOGOUT, UNBOUND is said of each once, or at every visit if the write fails, and nothing of any other |
| `SingleRecordEffects.PackageRemovalStores` | services/accountmgr/src/ohos_account_manager.cpp:1228-1263 | of what is stored, a cleared record keeps version, user and creation time, every other one everything |
| `SingleRecordEffects.OsAccountRemovalSays` | services/accountmgr/src/ohos_account_manager.cpp:1712-1747 | the record is gone, the others stay, and the farewell its status calls for is said exactly if it could be read |
| `SingleRecordEffects.EverythingSaid` | services/accountmgr/src/ohos_account_manager.cpp:928-1263 | over every run, what is published of a record on a channel is exactly what its steps say of it, in that order |
| `SingleRecordManager.OhosAccountManager.HandleEvent` | services/accountmgr/src/ohos_account_manager.cpp:928-949 | runs the request's event on the shared machine set to this record's state, and gives that record the resulting state |
| `SingleRecordManager.OhosAccountManager.LoginOhosAccount` | services/accountmgr/src/ohos_account_manager.cpp:972-1011 | is the login request of the specification on records, history and result |
| `SingleRecordManager.OhosAccountManager.GetCurOhosAccountAndCheckMatch` | services/accountmgr/src/ohos_account_manager.cpp:1620-1636 | reads the record and passes exactly when it is readable and matches the request |
| `SingleRecordManager.OhosAccountManager.LogoutOhosAccount` | services/accountmgr/src/ohos_account_manager.cpp:1041-1085 | is the logout request of the specification |
| `SingleRecordManager.OhosAccountManager.LogoffOhosAccount` | services/accountmgr/src/ohos_account_manager.cpp:1087-1131 | is the logoff request of the specification |
| `SingleRecordManager.OhosAccountManager.HandleOhosAccountTokenInvalidEvent` | services/accountmgr/src/ohos_account_manager.cpp:1133-1167 | is the token-invalid request of the specification, write result ignored |
| `SingleRecordManager.OhosAccountManager.OhosAccountStateChange` | services/accountmgr/src/ohos_account_manager.cpp:280-315 | dispatches the four events and refuses any other |
| `SingleRecordManager.OhosAccountManager.ClearMainAccountIfMatch` | services/accountmgr/src/ohos_account_manager.cpp:1244-1263 | clears and publishes exactly as the specification does |
| `SingleRecordManager.OhosAccountManager.OnPackageRemoved` | services/accountmgr/src/ohos_account_manager.cpp:1228-1242 | clears each OS account's record in turn |
| `SingleRecordManager.OhosAccountManager.SendLogoutEventOnDelOsAccount` | services/accountmgr/src/ohos_account_manager.cpp:1712-1747 | publishes the farewell the status calls for |
| `SubProfilesLaws.BindingsAreUnique` | services/accountmgr/src/ohos_account_manager.cpp:1340-1429 | over every run: in all states no two stored sub-profiles of an OS account are bound to the same (name, hashed uid), logged in or not, pending removal or not, exactly when no login was a blind binding: one that passes every check and is written although another sub-profile holds the account it stores, because the scan does not list the holder or the requested name holds a NUL |
| `SubProfilesLaws.GoodScansAreSighted` | services/accountmgr/src/ohos_account_manager.cpp:1385-1429 | when requested names hold no NUL, scans can read every sub-profile and no deletion gets stuck, no binding is blind, so every run stays unique |
| `SubProfilesLaws.StepKeepsUnique` | services/accountmgr/src/ohos_account_manager.cpp:1340-1429 | one step keeps bindings unique exactly when it is not a blind binding |
| `SubProfilesLaws.RequestKeepsUnique` | services/accountmgr/src/ohos_account_manager.cpp:1385-1429 | the same for one request, any event |
| `SubProfilesLaws.AdmitsExactly` | services/accountmgr/src/ohos_account_manager.cpp:1385-1429 | a request has something to write exactly when it is for the account the record is bound to, or is a first login of a well-formed identity that every other listed sub-profile can be read and is not bound to |
| `SubProfilesLaws.StepKeepsLive` | services/accountmgr/src/distributed_account/os_account_subspace_manager.cpp:357-405 | without stuck deletions no sub-profile is ever left pending removal |
| `SubProfilesLaws.FirstLoginSawNobody` | services/accountmgr/src/ohos_account_manager.cpp:1385-1429 | a first login that passes means no sub-profile that the scan lists holds the account |
| `SubProfilesLaws.ReplayReconstructs` | services/accountmgr/src/ohos_account_manager.cpp:1340-1583 | over every run, sub-profile creation, deletion and reclaiming included: the identity invariant holds, and replay reconstructs every status, in order within each lifetime, in all states exactly when no step misreported |
| `SubProfilesLaws.BoundAndUnboundAlternate` | services/accountmgr/src/ohos_account_manager.cpp:1340-1583 | over every run that never misreports: every lifetime of a sub-profile or headless record ends with its UNBOUND in all states exactly when no bound record goes without a farewell, be it with its OS account, by reclaiming after a stuck deletion, or replaced under an id that was not listed; then BOUND and UNBOUND strictly alternate in what is published of every record on both channels |
| `SubProfilesLaws.SettledAlong` | services/accountmgr/src/ohos_account_manager.cpp:1675-1708 | the same equivalence from any state that fits, by induction over the run |
| `SubProfilesLaws.StepTells` | services/accountmgr/src/ohos_account_manager.cpp:1267-1293 | one step keeps the history true exactly when no change of status was written and reported as failed, and no clearing or OS-account removal failed after its events |
| `SubProfilesLaws.StepSettles` | services/accountmgr/src/ohos_account_manager.cpp:1675-1708 | lifetimes close with their UNBOUND except exactly for bound records that the farewell never reached, that were reclaimed, or that a creation replaced |
| `SubProfilesLaws.HeadlessIsLeftOpen` | services/accountmgr/src/ohos_account_manager.cpp:1675-1708 | the headless record is outside the scan: removing an OS account while it is bound never publishes its UNBOUND |
| `SubProfilesLaws.StepKeepsRecords` | services/accountmgr/src/ohos_account_manager.cpp:1304-1583 | every step keeps every record's identity well formed and filed under its own key |
| `SubProfilesLaws.BoundStaysWithItsAccount` | services/accountmgr/src/ohos_account_manager.cpp:1340-1583 | no request unbinds a bound record or gives it to another account; only clearing or removal does |
| `SubProfilesLaws.LoginIsRecognised` | services/accountmgr/src/ohos_account_manager.cpp:1607-1618 | after a successful login, later requests in the same words match the record exactly when the name holds no NUL |
| `SubProfilesLaws.UnboundRefusesAllButLogin` | services/accountmgr/src/ohos_account_manager.cpp:1450-1583 | logout, logoff and token-invalid on an unbound record are always refused |
| `SubProfilesLaws.ErrorLeavesEverything` | services/accountmgr/src/ohos_account_manager.cpp:660-724 | an error leaves everything as it was, but for the default headless record that reading creates, a write that took effect and was reported as failed, a deletion stuck half-way, which leaves its sub-profile flagged, and a creation that could not take its directory away again or took away one that was not listed |
| `SubProfilesLaws.OsAccountsAreIndependent` | services/accountmgr/src/ohos_account_manager.cpp:1304-1326 | result, records and events of a request depend on its own OS account only |
| `SubProfilesLaws.ScanMeaning` | services/accountmgr/src/distributed_account/os_account_subspace_manager.cpp:585-608 | a scan lists exactly the live sub-profiles it could read, ascending; the headless one never |
| `SubProfilesLaws.VerifyOthersMeaning` | services/accountmgr/src/ohos_account_manager.cpp:1385-1429 | verification passes exactly when every other listed sub-profile is readable and not bound to the account |
| `SubProfilesLaws.VerifySameSpaces` | services/accountmgr/src/ohos_account_manager.cpp:1385-1429 | verification never depends on the headless record |
| `SubProfilesLaws.DecideMeaning` | services/accountmgr/src/ohos_account_manager.cpp:1340-1583 | what a request would write into a sub-profile: status by event; identity kept unless it is a first login, which stores the hashed uid and the name as far as its first NUL |
| `SubProfilesLaws.CarryEffect` | services/accountmgr/src/ohos_account_manager.cpp:1304-1326 | a request succeeds and publishes exactly when readable, decided and reported as saved; it changes its own record exactly when the write takes effect |
| `SubProfilesLaws.CarryTells` | services/accountmgr/src/ohos_account_manager.cpp:1431-1503 | a request keeps the history true of every record except exactly when a change of status was written and reported as failed |
| `SubProfilesLaws.ClearEffect` | services/accountmgr/src/ohos_account_manager.cpp:1279-1293 | clearing one record: whose identity changes, what is published, and that flags and keys stay |
| `SubProfilesLaws.ClearAllTells` | services/accountmgr/src/ohos_account_manager.cpp:1267-1277 | over the loop of sub-profiles, exactly the records whose clearing failed end up misreported |
| `SubProfilesLaws.DeleteTells` | services/accountmgr/src/ohos_account_manager.cpp:687-724 | deleting a sub-profile keeps the history true: UNBOUND is published exactly for a bound one that goes |
| `SubProfilesLaws.FarewellAllTells` | services/accountmgr/src/ohos_account_manager.cpp:1675-1708 | the farewells before an OS-account removal reach exactly the scanned sub-profiles |
| `SubProfilesLaws.CreateKeeps` | services/accountmgr/src/distributed_account/os_account_subspace_manager.cpp:245-337 | creation, in each outcome of its write and its roll-back, keeps the invariants and binds nobody |
| `SubProfilesLaws.CreateTells` | services/accountmgr/src/distributed_account/os_account_subspace_manager.cpp:245-337 | creation keeps the history true; it ends the lifetime of a bound record without UNBOUND exactly when its id was stored and not listed and the directory was written or dropped |
| `SubProfilesLaws.ListedAreNotReplaced` | services/accountmgr/src/distributed_account/os_account_subspace_data_deal.cpp:93-126 | where the persisted id list lists all that is stored, creation replaces nothing |
| `SubProfilesLaws.DeleteKeeps` | services/accountmgr/src/distributed_account/os_account_subspace_manager.cpp:357-405 | deletion, stuck or not, keeps the invariants and binds nobody |
| `SubProfilesLaws.ReclaimEffect` | services/accountmgr/src/distributed_account/os_account_subspace_manager.cpp:515-543 | reclaiming takes away exactly the garbage of that kind and OS account that could be read and whose directory could be removed |
| `SubProfilesLaws.ReclaimTells` | services/accountmgr/src/distributed_account/os_account_subspace_manager.cpp:122-151 | reclaiming keeps the history true of every status, but closes the lifetime of a bound record without UNBOUND |
| `SubProfilesLaws.ReclaimKeeps` | services/accountmgr/src/distributed_account/os_account_subspace_manager.cpp:515-543 | reclaiming keeps the invariants, changes no record that stays and binds nobody |
| `SubProfilesLaws.VisitedMember` | services/accountmgr/src/ohos_account_manager.cpp:1228-1277 | a package removal visits exactly the headless records and the listed sub-profiles of the OS accounts named |
| `SubProfilesEffects.RequestSays` | services/accountmgr/src/ohos_account_manager.cpp:1431-1583 | a successful request says exactly BOUND, LOGIN, or LOGIN, or nothing (login by earlier status), LOGOUT, LOGOFF or TOKEN_INVALID of its record on each channel; a failing one nothing |
| `SubProfilesEffects.RequestStores` | services/accountmgr/src/ohos_account_manager.cpp:1340-1583 | field by field, the sub-profile an admitted request leaves; nothing else that is stored changes |
| `SubProfilesEffects.HeadlessRequestStores` | services/accountmgr/src/ohos_account_manager.cpp:1639-1673 | the same of the OS account's own record, which is written back without its creation time, and made when it is read for the first time |
| `SubProfilesEffects.RefusalSaysWhy` | services/accountmgr/src/ohos_account_manager.cpp:1340-1583 | which error a request gets; a first login that is not admitted with all listed sub-profiles readable gets the error for an account bound already |
| `SubProfilesEffects.PackageRemovalClears` | services/accountmgr/src/ohos_account_manager.cpp:1228-1293 | exactly the readable records with that calling uid, headless or listed, of the OS accounts visited lose their identity if the write takes effect; LOGOUT, UNBOUND is said of each once, or at every visit if the write fails, and nothing of any other |
| `SubProfilesEffects.PackageRemovalStores` | services/accountmgr/src/ohos_account_manager.cpp:1228-1293 | of what is stored, a cleared record keeps version, user, creation time and flags, every other one everything |
| `SubProfilesEffects.DeletionRemoves` | services/accountmgr/src/ohos_account_manager.cpp:687-724 | a deletion succeeds exactly on a live, readable sub-profile whose removal works; then it is no longer stored, UNBOUND went out on both channels exactly if it was bound, and everything else is as it was; otherwise which error, and at most its flag is set |
| `SubProfilesEffects.CreationMakes` | services/accountmgr/src/distributed_account/os_account_subspace_manager.cpp:245-337 | a creation succeeds exactly when the id list is available and has room and the write works; then a complete, unbound sub-profile is stored under the free id and everything else is as it was |
| `SubProfilesEffects.OsAccountRemovalSays` | services/accountmgr/src/ohos_account_manager.cpp:1675-1708 | its own record and all its sub-profiles are gone, everybody else's stay, and exactly its live sub-profiles that could be scanned and read get the farewell their status calls for |
| `SubProfilesEffects.EverythingSaid` | services/accountmgr/src/ohos_account_manager.cpp:1228-1708 | over every run, what is published of a record on a channel is exactly what its steps say of it, in that order |
| `SubProfileManager.OhosAccountManager.GetDistributedAccountSpaceInfo` | services/accountmgr/src/ohos_account_manager.cpp:1639-1659 | reads a sub-profile, or the headless record from the OS account's own file |
| `SubProfileManager.OhosAccountManager.SetDistributedAccountSpaceInfo` | services/accountmgr/src/ohos_account_manager.cpp:1661-1673 | writes a sub-profile, or the headless record back to the OS account's own file without its creation time |
| `SubProfileManager.OhosAccountManager.ScanOsAccountSubProfileIds` | services/accountmgr/src/distributed_account/os_account_subspace_manager.cpp:585-608 | is the specification's scan: unreadable and flagged sub-profiles are skipped |
| `SubProfileManager.OhosAccountManager.HandleSpaceStateChange` | services/accountmgr/src/ohos_account_manager.cpp:1304-1326 | runs the event on the shared machine set to this sub-profile's state |
| `SubProfileManager.OhosAccountManager.VerifySpaceAccountBinding` | services/accountmgr/src/ohos_account_manager.cpp:1385-1429 | is the specification's admission of a login |
| `SubProfileManager.OhosAccountManager.LoginOhosAccountSpace` | services/accountmgr/src/ohos_account_manager.cpp:1340-1383 | is the login request of the specification |
| `SubProfileManager.OhosAccountManager.LogoutOhosAccountSpace` | services/accountmgr/src/ohos_account_manager.cpp:1450-1491 | is the logout request of the specification |
| `SubProfileManager.OhosAccountManager.LogoffOhosAccountSpace` | services/accountmgr/src/ohos_account_manager.cpp:1546-1583 | is the logoff request of the specification |
| `SubProfileManager.OhosAccountManager.HandleOhosAccountSpaceTokenInvalidEvent` | services/accountmgr/src/ohos_account_manager.cpp:1505-1544 | is the token-invalid request of the specification |
| `SubProfileManager.OhosAccountManager.OhosAccountStateChange` | services/accountmgr/src/ohos_account_manager.cpp:317-365 | dispatches the four events and refuses any other |
| `SubProfileManager.OhosAccountManager.ClearMainAccountIfMatch` | services/accountmgr/src/ohos_account_manager.cpp:1244-1263 | clears the headless record exactly as the specification does |
| `SubProfileManager.OhosAccountManager.ClearDistributedAccountSpaceIfMatch` | services/accountmgr/src/ohos_account_manager.cpp:1279-1293 | clears one sub-profile exactly as the specification does |
| `SubProfileManager.OhosAccountManager.ClearDistributedAccountSpacesIfMatch` | services/accountmgr/src/ohos_account_manager.cpp:1267-1277 | clears every scanned sub-profile of an OS account |
| `SubProfileManager.OhosAccountManager.OnPackageRemoved` | services/accountmgr/src/ohos_account_manager.cpp:1228-1242 | clears headless records and sub-profiles of every OS account in the source's order |
| `SubProfileManager.OhosAccountManager.CreateOsAccountSubspace` | services/accountmgr/src/ohos_account_manager.cpp:660-685 | takes the first unlisted id from the hint on, writes an unbound sub-profile there, and on a failed write takes the directory away again |
| `SubProfileManager.OhosAccountManager.PersistSubProfile` | services/accountmgr/src/distributed_account/os_account_subspace_manager.cpp:280-337 | the write of a new sub-profile and its roll-back are as specified |
| `SubProfileManager.OhosAccountManager.DeleteOsAccountSubspace` | services/accountmgr/src/ohos_account_manager.cpp:687-724 | removes the sub-profile and publishes UNBOUND when it was bound |
| `SubProfileManager.OhosAccountManager.RemoveGarbageSubProfiles` | services/accountmgr/src/distributed_account/os_account_subspace_manager.cpp:515-543 | removes what is pending removal and only that, the second scan clearing the set the first one filled; the count is zero exactly when nothing went |
| `SubProfileManager.OhosAccountManager.CleanupOrphanedSubProfiles` | services/accountmgr/src/distributed_account/os_account_subspace_manager.cpp:122-151 | removes the unfinished ones, then those pending removal, as specified |
| `SubProfileManager.OhosAccountManager.ScanSubProfileIds` | services/accountmgr/src/distributed_account/os_account_subspace_data_deal.cpp:171-235 | lists the readable sub-profiles of one kind |
| `SubProfileManager.OhosAccountManager.SendMultiSpaceLogoutOnDelOsAccount` | services/accountmgr/src/ohos_account_manager.cpp:1675-1708 | sends the farewell to every scanned sub-profile |
| `SubProfileIds.AllocateMeaning` | services/accountmgr/src/distributed_account/os_account_subspace_data_deal.cpp:93-126 | an id is found exactly when one of the 999 is free; it is the least free one from a hint in range on, or the least of all if there is none there or the hint is out of range |
| `SubProfileIds.AllocateOsAccountSubProfileId` | services/accountmgr/src/distributed_account/os_account_subspace_data_deal.cpp:93-126 | the search loop is that allocator |
| `Counterexamples.SkippedScanBindsTwice` | services/accountmgr/src/distributed_account/os_account_subspace_manager.cpp:585-608 | a run of four steps after which two sub-profiles are bound to one account, because one scan could not read the holder |
| `Counterexamples.StuckDeletionBindsTwice` | services/accountmgr/src/distributed_account/os_account_subspace_manager.cpp:357-405 | the same with scans that read everything: a deletion that got stuck hides the holder from the scan |
| `Counterexamples.NamesWithNulBindTwice` | frameworks/common/json_utils/src/json_utils.cpp:790-808 | the same with scans that read everything and no deletion: two first logins under names that differ only behind a NUL |
| `Counterexamples.ReclaimedIsBoundTwice` | services/accountmgr/src/distributed_account/os_account_subspace_manager.cpp:515-543 | a run of six steps that publishes BOUND twice for a sub-profile with no UNBOUND between: its deletion gets stuck, it is reclaimed, and its id comes round again |
| `Counterexamples.HeadlessMayShareItsAccount` | services/accountmgr/src/ohos_account_manager.cpp:1385-1429 | a run of three steps after which a sub-profile is bound to the account the headless record is bound to |
| `Counterexamples.HeadlessIsBoundTwice` | services/accountmgr/src/ohos_account_manager.cpp:1675-1708 | a run of three steps that publishes BOUND twice for a headless record with no UNBOUND between |
| `Counterexamples.HeadlessRunIsLeftOpen` | services/accountmgr/src/ohos_account_manager.cpp:1675-1708 | a run of two steps in which the lifetime of a headless record ends bound |
| `Counterexamples.ExpiredRecordChangesHands` | services/accountmgr/src/ohos_account_manager.cpp:972-1011 | a run of three steps after which a record belongs to another account than the one whose BOUND is all that was published |
| `Counterexamples.LateFailureHidesTheBinding` | services/accountmgr/src/ohos_account_manager.cpp:972-1011 | a login written and reported as failed, then repeated: the record is bound and no BOUND was ever published |
| `Counterexamples.DroppedExpiryLies` | services/accountmgr/src/ohos_account_manager.cpp:1133-1167 | a failed write during token-invalid leaves the history saying expired and the record saying logged in |
| `DomainAuthSpec.PickMeaning` | frameworks/domain_account/src/domain_account_client.cpp:656-694 | on success the id is absent from the map, its high word is the uid, its low word in 1..2^32-1; it fails exactly when the candidate and every low word in 1..2^32-2 are taken |
| `DomainAuthSpec.MaximumIsNotScanned` | frameworks/domain_account/src/domain_account_client.cpp:656-694 | with only 2^32-1 free the allocator fails unless the counter happens to stand just before it |
| `DomainAuthSpec.StartMeaning` | frameworks/domain_account/src/domain_account_client.cpp:116-133 | a start takes an id that was free, under the next number, enters it unless the service refused it, and sets the counter to its low word; without an id only the counter goes back to 0 |
| `DomainAuthSpec.NextIdIsAnother` | frameworks/domain_account/src/domain_account_client.cpp:656-694 | an id answered meanwhile is not given out again by the next start as long as the next candidate is free |
| `DomainAuthSpec.RunIsExact` | frameworks/domain_account/src/domain_account_client.cpp:185-323 | over every run, the map holds exactly the authentications started and not yet answered, failed or reset, all along iff no call leaked its entry for want of a proxy and no stale answer came |
| `DomainAuthSpec.StepKeepsExact` | frameworks/domain_account/src/domain_account_client.cpp:116-133 | one step keeps the map exact iff it neither leaks nor is a stale answer |
| `DomainAuthSpec.DeathAnswersEveryone` | frameworks/domain_account/src/domain_account_client.cpp:375-401 | service death empties the map and answers every pending authentication once and nobody else |
| `DomainAuthSpec.LeakedCallIsAnsweredAtDeath` | frameworks/domain_account/src/domain_account_client.cpp:116-133 | a call that failed without a proxy leaves its entry and is answered when the service dies |
| `DomainAuthSpec.StepNotifiesOnce` | frameworks/domain_account/src/domain_account_callback_service.cpp:38-53 | one step keeps "no callback called twice, none of a pending authentication called" exactly when it is no repeated answer, even with leaked entries and stale ids |
| `DomainAuthSpec.RunNotifiesOnce` | frameworks/domain_account/src/domain_account_callback_service.cpp:38-53 | over every run: no callback is called twice, all along, exactly when no answer comes for an authentication already answered |
| `DomainAuthContexts.DomainAccountClient.GenerateCallbackAndContextId` | frameworks/domain_account/src/domain_account_client.cpp:656-688 | counter wrap-around and the scan loop give the specified id, add that entry only, and on failure change nothing but the counter |
| `DomainAuthContexts.DomainAccountClient.Auth` | frameworks/domain_account/src/domain_account_client.cpp:185-323 | begins an authentication as specified; it succeeds exactly with a free id, a proxy and an accepting service |
| `DomainAuthContexts.DomainAccountClient.EraseContext` | frameworks/domain_account/src/domain_account_client.cpp:690-694 | erases that entry and no other |
| `DomainAuthContexts.DomainAccountClient.OnResult` | frameworks/domain_account/src/domain_account_callback_service.cpp:38-53 | calls the callback, then erases the context |
| `DomainAuthContexts.DomainAccountClient.ResetDomainAccountProxy` | frameworks/domain_account/src/domain_account_client.cpp:375-401 | the loop answers every entry of the map once and leaves it empty |
| `DomainListenersSpec.RunAgrees` | frameworks/domain_account/src/domain_account_client.cpp:456-526 | over every run, somebody listens exactly when the service holds the callback, all along iff no remote call was done and reported as failed, no unrecorded unregistration failed and no re-registration after a restart went undone; orderly runs never break it |
| `DomainListenersSpec.StepAgrees` | frameworks/domain_account/src/domain_account_client.cpp:696-711 | one step keeps the agreement iff it is not one of those three |
| `DomainListenersSpec.RegisterMeaning` | frameworks/domain_account/src/domain_account_client.cpp:456-491 | which answer a registration gets; on success exactly this listener joins the recorded ones, otherwise they stay as they were |
| `DomainListenersSpec.UnregisterMeaning` | frameworks/domain_account/src/domain_account_client.cpp:493-526 | which answer an unregistration gets; on success exactly this listener leaves, otherwise the recorded ones stay, but for one that was never recorded and is put back into an empty set |
| `DomainListenersSpec.RunRecordsTheAcknowledged` | frameworks/domain_account/src/domain_account_client.cpp:456-526 | over every run, the recorded listeners are what the acknowledged calls add up to, all along, exactly when no unrecorded listener is put back |
| `DomainListenersSpec.UnrecordedListenerAppears` | frameworks/domain_account/src/domain_account_client.cpp:493-526 | unregistering a listener that is not recorded, with a failing service, records it |
| `DomainListenersSpec.DoneBehindTheBack` | frameworks/domain_account/src/domain_account_client.cpp:456-491 | a first registration done by the service and reported as failed leaves the callback registered with nobody listening |
| `DomainStatusListeners.DomainAccountStatusListenerManager.InsertRecord` | frameworks/domain_account/src/domain_account_status_listener_manager.cpp:63-71 | adds the listener and nothing else |
| `DomainStatusListeners.DomainAccountStatusListenerManager.RemoveRecord` | frameworks/domain_account/src/domain_account_status_listener_manager.cpp:73-81 | removes the listener and nothing else |
| `DomainStatusListeners.DomainAccountClient.RegisterAccountStatusListener` | frameworks/domain_account/src/domain_account_client.cpp:456-491 | is the specified registration: remote call only for the first listener, rolled in only on success |
| `DomainStatusListeners.DomainAccountClient.UnregisterAccountStatusListener` | frameworks/domain_account/src/domain_account_client.cpp:493-526 | is the specified unregistration: re-inserts on a failed remote call |
| `DomainStatusListeners.DomainAccountClient.RestoreListenerRecords` | frameworks/domain_account/src/domain_account_client.cpp:696-711 | after a restart registers the callback again exactly when somebody listens |
| `TransactionsSpec.LockDepthIsLiveGuards` | services/accountmgr/src/account_data_storage.cpp:385-485 | over every run of starts, commits that succeed, fail or are retried, dropped guards, writes, moves and closes, on any number of storages: each lock is as deep as the storage has live guards, all along iff no commit succeeds for a variable without a guard on that storage; no guards, no locks held |
| `TransactionsSpec.StepBalances` | services/accountmgr/src/account_data_storage.cpp:455-485 | one step keeps lock and guards in step iff it does not over-release |
| `TransactionsSpec.MoveMeaning` | services/accountmgr/src/account_data_storage.cpp:348-383 | the destination is as before or holds the source's entries on top; success means the latter; an error means it only if a commit reported as failed took effect; the lock depth is restored on every path |
| `TransactionsSpec.MoveAnswers` | services/accountmgr/src/account_data_storage.cpp:348-383 | success exactly when every call on the way works or there is nothing to be moved, and otherwise which error |
| `TransactionsSpec.AnswersSayWhy` | services/accountmgr/src/account_data_storage.cpp:385-453 | start, commit, rollback and write succeed exactly with a store object and a success of the engine; otherwise which of the two was missing; without a store object the database is not touched |
| `TransactionsSpec.PutMeaning` | services/accountmgr/src/account_data_storage.cpp:292-313 | a write that is taken is read from then on, leaves every other entry, and stays out of the durable data while a transaction is open |
| `TransactionsSpec.ClosedRefuses` | services/accountmgr/src/account_data_storage.cpp:196-202 | after closing, and as long as no store object can be had, every call is refused and changes nothing |
| `TransactionsSpec.TransactionIsAtomic` | services/accountmgr/src/account_data_storage.cpp:385-485 | from start to commit, whatever else happens: nothing is durable before; a successful commit makes durable exactly what was written on top of what was there; a rollback leaves what was there |
| `TransactionsSpec.InsideRun` | services/accountmgr/src/account_data_storage.cpp:385-453 | while a transaction is open, no run on any storage makes its writes durable |
| `TransactionsSpec.TwiceIsOnce` | services/accountmgr/src/account_data_storage.cpp:56-63 | repeating a call after an IPC error has the effect of one call, even if the first had taken effect |
| `TransactionsSpec.RestartLosesTheTransaction` | services/accountmgr/src/account_data_storage.cpp:455-472 | starting again on a variable that still holds a guard keeps the lock in step, but the old guard's rollback discards the new transaction |
| `Transactions.AccountDataStorage.CheckKvStore` | services/accountmgr/src/account_data_storage.cpp:75-97 | up to ten attempts; true exactly when a store object was held or any attempt brought one |
| `Transactions.AccountDataStorage.TryTwice` | services/accountmgr/src/account_data_storage.cpp:56-63 | one call, and a second exactly after an IPC error |
| `Transactions.AccountDataStorage.StartTransaction` | services/accountmgr/src/account_data_storage.cpp:385-407 | the lock is kept exactly on success |
| `Transactions.AccountDataStorage.Commit` | services/accountmgr/src/account_data_storage.cpp:409-430 | the lock is released exactly on success |
| `Transactions.AccountDataStorage.Rollback` | services/accountmgr/src/account_data_storage.cpp:432-453 | the lock is released on every path |
| `Transactions.AccountDataStorage.PutValueToKvStore` | services/accountmgr/src/account_data_storage.cpp:292-313 | writes one entry, twice on an IPC error |
| `Transactions.AccountDataStorage.Close` | services/accountmgr/src/account_data_storage.cpp:196-202 | forgets the store object |
| `Transactions.AccountDataStorage.MoveData` | services/accountmgr/src/account_data_storage.cpp:348-383 | is the specified move, for a null source, another storage, or the storage itself; the source is at most opened |
| `Transactions.DatabaseTransaction.Reset` | services/accountmgr/src/account_data_storage.cpp:455-472 | the deleter rolls back exactly when a guard is held |
| `Transactions.StartDbTransaction` | services/accountmgr/src/account_data_storage.cpp:455-472 | on success the variable holds the new guard and its previous guard's storage was rolled back |
| `Transactions.CommitDbTransaction` | services/accountmgr/src/account_data_storage.cpp:474-485 | on success the guard is let go without a rollback; on failure it stays |
| `SubProfileEventsSpec.RunAgrees` | frameworks/osaccount/native/src/os_account_subprofile_client.cpp:199-329 | over every run of subscribing, unsubscribing and service restarts: the service holds exactly the types somebody wants, all along iff no call that reached it was reported as failed and every needed re-subscription worked |
| `SubProfileEventsSpec.StepAgrees` | frameworks/osaccount/native/src/os_account_subprofile_client.cpp:244-329 | one step keeps the agreement iff it is not such a failure |
| `SubProfileEventsSpec.SubscribeMeaning` | frameworks/osaccount/native/src/os_account_subprofile_client.cpp:244-289 | which answer a subscription gets; on success exactly these types join those of this callback, otherwise everybody's wishes stay as they were |
| `SubProfileEventsSpec.UnsubscribeMeaning` | frameworks/osaccount/native/src/os_account_subprofile_client.cpp:291-329 | which answer an unsubscription gets; on success exactly this callback's types are gone, otherwise nothing is |
| `SubProfileEventsSpec.RunRecordsTheAcknowledged` | frameworks/osaccount/native/src/os_account_subprofile_client.cpp:199-329 | over every run, the index holds exactly what the acknowledged calls add up to |
| `SubProfileEventsSpec.AgreesMeaning` | frameworks/os_account_subspace/src/os_account_sub_profile_event_service.cpp:144-177 | agreement means the service forwards a type exactly when some callback would be reached by it |
| `SubProfileEventsSpec.UnsubscribeUndoesSubscribe` | frameworks/osaccount/native/src/os_account_subprofile_client.cpp:244-329 | unsubscribing restores callbacks and remote types for a callback that was not there before |
| `SubProfileEvents.IndexMeaning` | frameworks/os_account_subspace/src/os_account_sub_profile_event_service.cpp:66-90 | two indexes that are inverse and free of empty sets give the callbacks, the types, and each one's partners of one relation |
| `SubProfileEvents.OsAccountSubProfileEventService.AddTypes` | frameworks/os_account_subspace/src/os_account_sub_profile_event_service.cpp:66-90 | adds exactly the given pairs; the indexes stay exact inverses without empty sets |
| `SubProfileEvents.OsAccountSubProfileEventService.DeleteCallback` | frameworks/os_account_subspace/src/os_account_sub_profile_event_service.cpp:92-117 | removes exactly the callback's pairs; the indexes stay exact inverses without empty sets |
| `SubProfileEvents.OsAccountSubProfileEventService.GetTypesToRemove` | frameworks/os_account_subspace/src/os_account_sub_profile_event_service.cpp:119-142 | adds precisely the types that vanish when the callback is deleted |
| `SubProfileEvents.OsAccountSubProfileEventService.VanishingTypes` | frameworks/os_account_subspace/src/os_account_sub_profile_event_service.cpp:119-142 | the types with this callback alone are the types lost with it |
| `SubProfileEvents.OsAccountSubProfileEventService.GetAllType` | frameworks/os_account_subspace/src/os_account_sub_profile_event_service.cpp:144-150 | adds precisely the types somebody wants |
| `SubProfileEvents.OsAccountSubProfileEventService.IsAllTypeExist` | frameworks/os_account_subspace/src/os_account_sub_profile_event_service.cpp:44-64 | true exactly for a callback that wants all of a non-empty set of types |
| `SubProfileEvents.OsAccountSubProfileEventService.GetCallbackSize` | frameworks/os_account_subspace/src/os_account_sub_profile_event_service.cpp:38-42 | the number of callbacks with a type |
| `SubProfileEvents.OsAccountSubProfileEventService.OnSubProfileChanged` | frameworks/os_account_subspace/src/os_account_sub_profile_event_service.cpp:152-177 | an event is handed once to each callback of its type and to nobody else |
| `SubProfileEvents.OsAccountSubProfileClient.GetNewSubProfileEventTypes` | frameworks/osaccount/native/src/os_account_subprofile_client.cpp:219-230 | the types nobody wants yet |
| `SubProfileEvents.OsAccountSubProfileClient.SubscribeOsAccountSubProfileEvents` | frameworks/osaccount/native/src/os_account_subprofile_client.cpp:244-289 | is the specified subscription: limits, remote call for new types only, index updated on success only |
| `SubProfileEvents.OsAccountSubProfileClient.UnsubscribeOsAccountSubProfileEvents` | frameworks/osaccount/native/src/os_account_subprofile_client.cpp:291-329 | is the specified unsubscription |
| `SubProfileEvents.OsAccountSubProfileClient.RestoreSubscribe` | frameworks/osaccount/native/src/os_account_subprofile_client.cpp:199-217 | after a restart subscribes to all wanted types |
| `SubscriberListSpec.RunRefinesRelation` | services/accountmgr/src/distributed_account_subscribe_manager.cpp:59-136 | over every run from the empty list, the list says what the plain relation and its watched listeners say |
| `SubscriberListSpec.ListRefinesRelation` | services/accountmgr/src/distributed_account_subscribe_manager.cpp:59-136 | one call or death acts on the list as on a plain relation with a set of watched listeners |
| `SubscriberListSpec.RunKeepsGood` | services/accountmgr/src/distributed_account_subscribe_manager.cpp:59-136 | over every run: each listener listed once, the listed are the related, and nobody is watched without a death recipient |
| `SubscriberListSpec.StepKeepsGood` | services/accountmgr/src/distributed_account_subscribe_manager.cpp:59-136 | one call or death keeps this, whether or not the death recipient could be added or removed |
| `SubscriberListSpec.RunKeepsWatching` | services/accountmgr/src/distributed_account_subscribe_manager.cpp:59-136 | over every run with a death recipient: exactly the listed listeners are watched, all along, exactly when no listener joins without the recipient being added and none goes without its being removed |
| `SubscriberListSpec.StepKeepsWatching` | services/accountmgr/src/distributed_account_subscribe_manager.cpp:59-136 | one call or death keeps it exactly when it is not one of those |
| `SubscriberListSpec.UnwatchedStaysBehind` | services/accountmgr/src/distributed_account_subscribe_manager.cpp:77-80 | a listener that joined while the recipient could not be added stays subscribed after its death |
| `SubscriberListSpec.ErrorsChangeNothing` | services/accountmgr/src/distributed_account_subscribe_manager.cpp:88-136 | exactly which calls return an error, and that they change nothing |
| `SubscriberListSpec.PublishReachesTheRelated` | services/accountmgr/src/distributed_account_subscribe_manager.cpp:203-225 | after any run, publishing a type targets exactly the related listeners whose proxy can be made, once each |
| `SubscriberListSpec.TargetsMembers` | services/accountmgr/src/distributed_account_subscribe_manager.cpp:203-225 | the targets of a list without repetitions are its related, castable members, without repetitions |
| `SubscriberList.DistributedAccountSubscribeManager.SubscribeDistributedAccountEvent` | services/accountmgr/src/distributed_account_subscribe_manager.cpp:59-86 | a known listener gains the type, a new one joins at the end and is watched; the records stay distinct and well formed |
| `SubscriberList.DistributedAccountSubscribeManager.UnsubscribeDistributedAccountEventType` | services/accountmgr/src/distributed_account_subscribe_manager.cpp:88-113 | the listener loses the type, and with its last type its record and its watch |
| `SubscriberList.DistributedAccountSubscribeManager.UnsubscribeDistributedAccountEvent` | services/accountmgr/src/distributed_account_subscribe_manager.cpp:115-136 | the listener loses everything, whether or not it was listed |
| `SubscriberList.DistributedAccountSubscribeManager.Erase` | services/accountmgr/src/distributed_account_subscribe_manager.cpp:88-113 | takes that record out of the list and leaves the others in order |
| `SubscriberList.DistributedAccountSubscribeManager.Publish` | services/accountmgr/src/distributed_account_subscribe_manager.cpp:203-225 | the loop sends to the specified targets in list order |
| `SubscriberList.SendDistributedAccountEventNotify` | services/accountmgr/src/distributed_account_subscribe_manager.cpp:144-161 | calls again exactly while the answer is one of the two transient errors, ten times at most, and returns the last answer |
| `AuthParamSpec.ReaderInvertsWriter` | frameworks/account_iam/src/account_iam_info.cpp:24-252 | the reader accepts exactly what is written for a value within the size limit, returns that value, and leaves exactly what follows |
| `AuthParamSpec.RoundTrip` | frameworks/account_iam/src/account_iam_info.cpp:24-252 | a value comes back from its parcel form, whatever follows, iff its additional info is at most ADDITIONAL_INFO_MAX_SIZE long |
| `AuthParamSpec.WireForm` | frameworks/account_iam/src/account_iam_info.cpp:24-124 | the items of a full value and of one with nothing optional, in the order written and read |
| `AuthParamSpec.NoPrefixIsAccepted` | frameworks/account_iam/src/account_iam_info.cpp:137-252 | no strict prefix of what is written for any value, oversized ones included, is accepted |
| `AuthParamSpec.HalfWrittenIsRejected` | frameworks/account_iam/src/account_iam_info.cpp:70-124 | what a failing write leaves in an empty parcel is never read as a value |
| `AuthParamSpec.EncodingIsInjective` | frameworks/account_iam/src/account_iam_info.cpp:70-124 | two values within the limit share a parcel form only if they are equal |
| `AuthParamSpec.Extends` | frameworks/account_iam/src/account_iam_info.cpp:137-252 | what is accepted stays accepted with the same value when more follows |
| `AuthParamSpec.WholeOrNothing` | frameworks/account_iam/src/account_iam_info.cpp:103-124 | what is written for an oversized value is read whole or refused |
| `AuthParamSpec.InfoExact` | frameworks/account_iam/src/account_iam_info.cpp:176-202 | the optional, bounded raw block is read back exactly when present and within the limit |
| `AuthParamSpec.RemoteExact` | frameworks/account_iam/src/account_iam_info.cpp:204-252 | the nested optionals are read back exactly |
| `AuthParams.AuthParam.Marshalling` | frameworks/account_iam/src/account_iam_info.cpp:70-101 | appends the whole form, or a strict prefix of it and fails; fails exactly for want of room or a raw block that cannot be sent |
| `AuthParams.AuthParam.WriteRemoteAuthParam` | frameworks/account_iam/src/account_iam_info.cpp:24-67 | the same for the nested optionals |
| `AuthParams.AuthParam.WriteAdditionalInfo` | frameworks/account_iam/src/account_iam_info.cpp:103-124 | the same for the optional raw block, its size narrowed to 32 bits |
| `AuthParams.AuthParam.ReadFromParcel` | frameworks/account_iam/src/account_iam_info.cpp:137-174 | succeeds exactly when the decoder does, fills the fields with its value, and keeps an optional that is absent |
| `AuthParams.AuthParam.ReadAdditionalInfo` | frameworks/account_iam/src/account_iam_info.cpp:176-202 | refuses sizes out of 0..ADDITIONAL_INFO_MAX_SIZE |
| `AuthParams.AuthParam.ReadRemoteAuthParam` | frameworks/account_iam/src/account_iam_info.cpp:204-252 | reads the nested optionals step by step as the decoder does |
| `AuthParams.Unmarshalling` | frameworks/account_iam/src/account_iam_info.cpp:126-135 | a new object holding the decoded value, or null when it is refused |
| `AuthParams.SendAndReceive` | frameworks/account_iam/src/account_iam_info.cpp:70-135 | written by one side and read by the other: the same value, and the reader stands at the next item |
| `DomainOptionsSpec.ReaderInvertsWriter` | frameworks/domain_account/src/domain_account_common.cpp:435-561 | the reader accepts exactly what is written for a value within both list limits, returns it, and leaves exactly what follows |
| `DomainOptionsSpec.RoundTrip` | frameworks/domain_account/src/domain_account_common.cpp:435-561 | a value comes back iff both lists are within the limits |
| `DomainOptionsSpec.WireForm` | frameworks/domain_account/src/domain_account_common.cpp:435-485 | the items of a full value and of one with nothing optional, in the order written and read |
| `DomainOptionsSpec.NoPrefixIsAccepted` | frameworks/domain_account/src/domain_account_common.cpp:498-561 | no strict prefix of a value's items is accepted |
| `DomainOptionsSpec.HalfWrittenIsRejected` | frameworks/domain_account/src/domain_account_common.cpp:435-485 | what a failing write leaves, such as the flag of a list that is then found too long, is never read as a value |
| `DomainOptionsSpec.TooLongIsRefused` | frameworks/domain_account/src/domain_account_common.cpp:516-561 | a reader that meets too long a list refuses |
| `DomainOptions.CreateOsAccountForDomainOptions.Marshalling` | frameworks/domain_account/src/domain_account_common.cpp:435-485 | appends the whole form exactly when it fits and the lists are within the limits; otherwise a strict prefix |
| `DomainOptions.CreateOsAccountForDomainOptions.ReadFromParcel` | frameworks/domain_account/src/domain_account_common.cpp:516-561 | succeeds exactly when the decoder does, with its value; absent optionals keep what the object held |
| `DomainOptions.CreateOsAccountForDomainOptions.ReadLocalIdFromParcel` | frameworks/domain_account/src/domain_account_common.cpp:498-514 | reads the optional id |
| `DomainOptions.Unmarshalling` | frameworks/domain_account/src/domain_account_common.cpp:487-496 | a new object holding the decoded value, or null |
| `ContextIds.ParseGenerated` | frameworks/account_iam/src/account_iam_client.cpp:300-333 | parsing a generated array gives back id and type |
| `ContextIds.GenerateParsed` | frameworks/account_iam/src/account_iam_client.cpp:300-333 | generating from a parsed nine-byte array gives back the bytes; an eight-byte array parses as if ALL stood in front |
| `ContextIds.ParseIsInjective` | frameworks/account_iam/src/account_iam_client.cpp:312-333 | two arrays parse alike exactly when equal up to a leading ALL |
| `ContextIds.SpellThenRead` | frameworks/account_iam/src/account_iam_client.cpp:300-310 | a number's low bytes, most significant first, spell the number |
| `ContextIds.ReadThenSpell` | frameworks/account_iam/src/account_iam_client.cpp:327-332 | the number bytes spell has those bytes |
| `ContextIds.GenerateContextArray` | frameworks/account_iam/src/account_iam_client.cpp:300-310 | the down-counting loop fills in the type and the big-endian bytes |
| `ContextIds.ParseContextId` | frameworks/account_iam/src/account_iam_client.cpp:312-333 | the shifting loop gives the big-endian value whatever the variable held before; other sizes are refused and change nothing |
| `ContextIds.ShiftedOut` | frameworks/account_iam/src/account_iam_client.cpp:327-332 | eight shifts push every earlier bit out of a 64-bit word |
| `ChunkedUpdate.PiecesMeaning` | services/accountmgr/src/account_file_watcher_manager.cpp:106-145 | the pieces put together are the input, none empty or over the limit, only the last short, and ceil(n / limit) of them |
| `ChunkedUpdate.HksUpdateOpt` | services/accountmgr/src/account_file_watcher_manager.cpp:106-145 | hands over all pieces and returns 0 when all calls go well; otherwise returns -1, having handed over the pieces up to the first call to fail and none after it |
| `AccountStoreSpec.RoundTrip` | services/accountmgr/src/ohos_account_data_deal.cpp:236-302 | save then load returns the same record exactly when the bind time fits 32 bits and no text holds a NUL |
| `AccountStoreSpec.SaveThenLoad` | services/accountmgr/src/ohos_account_data_deal.cpp:236-437 | what exactly comes back otherwise: bind time narrowed, texts cut at the first NUL, avatar from its own file |
| `AccountStoreSpec.SaveMeaning` | services/accountmgr/src/ohos_account_data_deal.cpp:266-302 | which of the two files is written and what is answered, for every outcome of the two writes |
| `AccountStoreSpec.LoadMakesWhatIsMissing` | services/accountmgr/src/ohos_account_data_deal.cpp:439-486 | a user whose account file is missing or too large gets a default account: the load makes the file, returns what it holds, and later loads return the same |
| `AccountStoreSpec.LoadReadsWhatIsThere` | services/accountmgr/src/ohos_account_data_deal.cpp:304-437 | a load of a file that fits leaves both files alone and refuses what is no JSON object; name, uid and avatar are the file's, the avatar the avatar file's if the account file has none |
| `AccountStoreSpec.LoadRefuses` | services/accountmgr/src/ohos_account_data_deal.cpp:328-464 | which error a load gets for a negative id, a failing status call, an oversized file that cannot be removed, or a file that cannot be opened |
| `AccountStoreSpec.OthersDoNotMatter` | services/accountmgr/src/ohos_account_data_deal.cpp:236-326 | whatever is saved, loaded or initialised for other users, failing or not, a user loads what it would have loaded |
| `AccountStoreSpec.PathsAreApart` | services/accountmgr/src/ohos_account_data_deal.cpp:236-302 | users share no file, and no account file is an avatar file |
| `AccountStoreSpec.StepIsolates` | services/accountmgr/src/ohos_account_data_deal.cpp:159-302 | one operation leaves every other user's files alone |
| `AccountStoreSpec.LoadReadsItsOwn` | services/accountmgr/src/ohos_account_data_deal.cpp:390-464 | a load depends on the user's own two files only |
| `AccountStoreSpec.StartUpRepairs` | services/accountmgr/src/ohos_account_data_deal.cpp:159-216 | from any contents start-up ends initialised, at the second try exactly for a corrupted file; a healthy file is untouched, anything else becomes a default account |
| `AccountStoreSpec.StartUpIsHonest` | services/accountmgr/src/ohos_account_manager.cpp:1186-1211 | whatever fails, at most two tries, no second one after a file that cannot be opened, and success only with an account file in place |
| `AccountStoreSpec.FailedSaveChangesTheAvatar` | services/accountmgr/src/ohos_account_data_deal.cpp:236-302 | a save that fails on the account file has replaced the avatar: the earlier record then loads with the new picture |
| `AccountStoreSpec.LoadingNeverRepairs` | services/accountmgr/src/ohos_account_data_deal.cpp:328-358 | no number of loads repairs a corrupted account file |
| `Decimals.DecimalRoundTrip` | services/accountmgr/src/ohos_account_data_deal.cpp:236-262 | the decimal form of a number reads back as the number |
| `Decimals.DecimalIsInjective` | services/accountmgr/src/ohos_account_data_deal.cpp:236-302 | different user ids give different directory names |
| `AccountStore.OhosAccountDataDeal.SaveAccountInfo` | services/accountmgr/src/ohos_account_data_deal.cpp:266-302 | avatar file first, account file second, the second only after the first |
| `AccountStore.OhosAccountDataDeal.Init` | services/accountmgr/src/ohos_account_data_deal.cpp:159-216 | makes, rebuilds or removes the account file as specified; ready exactly after success |
| `AccountStore.OhosAccountDataDeal.ParseJsonFromFile` | services/accountmgr/src/ohos_account_data_deal.cpp:328-358 | rebuilds an oversized file, refuses a corrupted one, and puts the avatar in |
| `AccountStore.OhosAccountDataDeal.FillAvatarIntoJson` | services/accountmgr/src/ohos_account_data_deal.cpp:304-326 | an avatar in the account file wins over the avatar file |
| `AccountStore.OhosAccountDataDeal.GetAccountInfo` | services/accountmgr/src/ohos_account_data_deal.cpp:439-464 | is the specified load |
| `AccountStore.OhosAccountDataDeal.AccountInfoFromJson` | services/accountmgr/src/ohos_account_data_deal.cpp:218-225 | refused before initialisation |
| `AccountStore.OhosAccountDataDeal.AccountInfoToJson` | services/accountmgr/src/ohos_account_data_deal.cpp:227-234 | refused before initialisation |
| `AccountStore.OhosAccountDataDeal.BuildJsonFileFromScratch` | services/accountmgr/src/ohos_account_data_deal.cpp:466-486 | saves a default account and ignores the result |
| `AccountStore.OhosAccountManager.OnInitialize` | services/accountmgr/src/ohos_account_manager.cpp:1186-1211 | the retry loop is the specified start-up |
| `ServiceStartUpSpec.ActivatedOnceAndInTime` | services/accountmgr/src/account_mgr_service.cpp:971-1034 | over every sequence of arrivals, with repeats: at most one activation, never before storage and ability manager, and never while an initial account is missing iff no activation rests on a failed query or on an account left unmade; when no query fails and all are made, none does |
| `ServiceStartUpSpec.UnmadeAccountIsPassedOver` | services/accountmgr/src/osaccount/inner_os_account_manager.cpp:1803-1855 | a run of three arrivals without a failed query that activates the default account while an initial one is missing, its making being reported as a success |
| `ServiceStartUpSpec.ActivatedInTheEnd` | services/accountmgr/src/account_mgr_service.cpp:971-1034 | once all three abilities have arrived in any order, with init and activation reporting success, exactly one activation has happened |
| `ServiceStartUpSpec.StepSound` | services/accountmgr/src/account_mgr_service.cpp:971-1034 | one arrival keeps this, and exactly which arrival activates too early: an initial account is not completed and its query failed or it was not made |
| `ServiceStartUpSpec.RunCompletes` | services/accountmgr/src/account_mgr_service.cpp:971-1034 | the flags record exactly who arrived, and all three imply activation |
| `ServiceStartUp.AccountMgrService.OnAddSystemAbility` | services/accountmgr/src/account_mgr_service.cpp:971-1019 | is the specified arrival |
| `ServiceStartUp.AccountMgrService.GetUncreatedInitAccounts` | services/accountmgr/src/account_mgr_service.cpp:959-969 | the initial accounts that are missing and whose query did not fail with another error |
| `ServiceStartUp.AccountMgrService.ActivateDefaultOsAccountAndRestore` | services/accountmgr/src/account_mgr_service.cpp:1021-1034 | marks the account activated exactly on success |

## Left out

- Concurrency, threads and mutexes: each modelled operation is one step; `DeleteOsAccountSubspace` does not take the manager lock in the source.
- IPC plumbing, permission checks, logging, tracing, dump and command-line text, the event-system adapters.
- Failure to load the cryptography library: the digest is a total function.
- Null callbacks and listeners in the domain-auth client, and out-of-memory returns.
- Partial file contents: in the account store and the record stores a file is written whole or not at all; directory creation and free-space checks are part of that outcome.
- Record stores in `SingleRecord` and `SubProfiles`: a record is written whole or not at all, under either report; `AccountStore` shows what a write that fails between its two files leaves. An avatar is kept whole; `AccountStore` shows it cut at a NUL when it is read into an account file.
- Sub-profile creation time, index, app offset and digest; the foreground sub-profile lookup (its result is an input); the limit on the number of sub-profiles (running into it is one way for the id list not to be available).
- The persisted id list of an OS account is an input of each creation, whatever it lists. Scans cover offsets 1 to 999; a directory at offset 0 never exists.
- Events other than the six binding events (HWID, user-info, created and deleted notifications).
- Transactions.AccountDataStorage.PutValueToKvStore: `AddAccountInfo` and `SaveAccountInfo` check the key first; only the write is modelled. Deleting keys and fuzzy loading are left out.
- Transactions.AccountDataStorage.MoveData: entries are a map, so an entry list with a repeated key is not told apart from its last occurrence.
- The sub-profile subscribe manager of the service (os_account_sub_profile_subscribe_manager.cpp): the same list discipline as the modelled one, plus a per-user filter.
- SubscriberList.DistributedAccountSubscribeManager.Publish: the detached threads that send are not modelled; `SendDistributedAccountEventNotify` is the loop each runs, without its delays.
- Parcels.Parcel.WriteRawData: items are typed, so reading bytes written as another type is not modelled; nor is the 4-byte layout.
- AuthParams.AuthParam.ReadFromParcel: on failure the fields read so far are unspecified.
- The other account-IAM parcelables, `DomainAuthResult` and `GetDomainAccountInfoOptions`: the same writer and reader discipline with fewer optionals.
- ContextIds.ParseContextId: shifts and masks are written as multiplication, division and remainder on integers below 2^64.
- ChunkedUpdate.HksUpdateOpt: the size of the output buffer is not modelled.
- AccountStoreSpec.RoundTrip: the JSON text is taken to parse back to the object it was printed from; number parsing accepts an optional minus and digits only.
- AccountStore.OhosAccountDataDeal.Init: file watchers and digests are left out, and with them the watch map.
- ServiceStartUp.AccountMgrService.OnAddSystemAbility: recovering an interrupted restore, garbage cleaning, restoring foreground accounts and moving application data are left out.
- SingleRecordManager.OhosAccountManager.SendLogoutEventOnDelOsAccount: the source reads the calling user's record in place of OS account 0's; a request to remove account 0 is refused before it gets here (services/accountmgr/src/osaccount/os_account_manager_service.cpp:643-670).
- SubProfileManager.OhosAccountManager.CreateOsAccountSubspace: the id list is an input, so that reading, making room in and updating the context file are one outcome; the index is left out.
- SubProfileManager.OhosAccountManager.CleanupOrphanedSubProfiles: one OS account's part of the loop over all of them.
- DomainAuthContexts.DomainAccountClient.ResetDomainAccountProxy: walks a snapshot, since the source erases from the map it iterates.
