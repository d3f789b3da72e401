/**
 Runs that show why the conditions of the main results are there.
 */
module Counterexamples {
  import opened AccountTypes
  import opened AccountStateMachineModel
  import opened BindingEvents
  import opened SubProfilesSpec
  import opened SubProfilesLaws
  import SubProfileIds
  import Single = SingleRecordSpec

  function Good(): Io {
    Io(_ => ERR_OK, _ => true, _ => ERR_OK, _ => false, 0, 7)
  }

  /** Every sub-profile can be read, but not by the scan. */
  function BlindScan(): Io {
    Good().(seen := _ => false)
  }

  function Someone(): OhosAccountInfo {
    OhosAccountInfo("name", "uid", "", ACCOUNT_STATE_UNBOUND, DEFAULT_CALLING_UID, "", "", "")
  }

  function SomeoneElse(): OhosAccountInfo {
    Someone().(name := "other")
  }

  function Hashed(sha: Sha256): string {
    GenerateOhosUdid(sha, Someone().name, Someone().uid)
  }

  lemma SomeoneHashes(sha: Sha256)
    ensures |Hashed(sha)| == |GenerateOhosUdid(sha, SomeoneElse().name, SomeoneElse().uid)| == OHOS_ACCOUNT_UDID_LENGTH
    ensures Someone().name != SomeoneElse().name
    ensures CText(Someone().name) == Someone().name && CText(SomeoneElse().name) == SomeoneElse().name
  {
    assert |Someone().name| == 4 && |Someone().uid| == 3 && |SomeoneElse().name| == 5;
    CTextMeaning(Someone().name);
    CTextMeaning(SomeoneElse().name);
  }

  function FirstKey(localId: int): Key {
    Key(localId, SubProfileIds.MinId(localId))
  }

  function SecondKey(localId: int): Key {
    Key(localId, SubProfileIds.MinId(localId) + 1)
  }

  /** A creation that finds this id free, `listed` being all that is listed. */
  function Created(key: Key, listed: seq<int>): Step {
    SubProfileCreated(key.localId, Ok(listed), key.subId, Good(), true)
  }

  function LoginWith(key: Key, info: OhosAccountInfo, io: Io): Step {
    Change(key, info, LoginEvent, io)
  }

  function Login(key: Key, io: Io): Step {
    LoginWith(key, Someone(), io)
  }

  lemma CreateAt(sha: Sha256, s: State, key: Key, listed: seq<int>)
    requires SubProfileIds.MinId(key.localId) <= key.subId <= SubProfileIds.MaxId(key.localId)
    requires key !in s.spaces && key.subId !in listed
    ensures
      var s' := Apply(sha, s, Created(key, listed));
      && s'.spaces.Keys == s.spaces.Keys + {key} && Live(s'.spaces[key]) && !Bound(s', key)
      && s'.main == s.main && s'.trace == s.trace
      && forall k | k in s.spaces :: s'.spaces[k] == s.spaces[k]
  {
    assert NewId(key.localId, listed, key.subId) == Some(key.subId);
    assert Apply(sha, s, Created(key, listed)) == WithFresh(s, key);
  }

  /** `key` is logged in to an account and both events are published; nothing else has changed. */
  ghost predicate Joined(s: State, s': State, key: Key, name: string, uid: string) {
    var own := OhosOf(s', key);
    && own.name == name && own.uid == uid && own.status == ACCOUNT_STATE_LOGIN
    && (forall k | k != key :: OhosOf(s', k) == OhosOf(s, k))
    && s'.spaces.Keys == s.spaces.Keys
    && (forall k | k in s.spaces && (k != key || Headless(key)) :: s'.spaces[k] == s.spaces[k])
    && (!Headless(key) && key in s.spaces ==> Live(s'.spaces[key]) == Live(s.spaces[key]))
    && s'.trace == Both(Both(s.trace, key, BOUND), key, LOGIN)
  }

  /** A first login of an account that no listed sub-profile is bound to goes through. */
  lemma FirstLoginWith(sha: Sha256, s: State, key: Key, info: OhosAccountInfo, io: Io)
    requires RecordsOk(s) && Readable(s, key, io) && !Bound(s, key) && io.save(key) == ERR_OK
    requires |GenerateOhosUdid(sha, info.name, info.uid)| == OHOS_ACCOUNT_UDID_LENGTH
    requires forall k: Key | k != key && k.localId == key.localId && Listed(s, k, io) ::
               Readable(s, k, io) && !CheckSameDistributedAccount(sha, OhosOf(s, k), info)
    ensures
      var s' := Apply(sha, s, LoginWith(key, info, io));
      RecordsOk(s') && Joined(s, s', key, CText(info.name), GenerateOhosUdid(sha, info.name, info.uid))
  {
    assert RecordOk(OhosOf(s, key));
    assert Admits(sha, s, key, info, LoginEvent, io);
    AdmitsExactly(sha, s, key, info, LoginEvent, io);
    StepKeepsRecords(sha, s, LoginWith(key, info, io));
    FoundKey(s, key, io);
    DecideMeaning(sha, s, key, info, LoginEvent, io);
    CarryEffect(s, key, LoginEvent, io, Decision(sha, s, key, info, LoginEvent, io));
  }

  /** In particular where no listed sub-profile is bound at all. */
  lemma FirstLogin(sha: Sha256, s: State, key: Key, io: Io)
    requires RecordsOk(s) && Readable(s, key, io) && !Bound(s, key) && io.save(key) == ERR_OK
    requires forall k: Key | k.localId == key.localId && Listed(s, k, io) :: Readable(s, k, io) && !Bound(s, k)
    ensures
      var s' := Apply(sha, s, Login(key, io));
      RecordsOk(s') && Joined(s, s', key, Someone().name, Hashed(sha))
  {
    SomeoneHashes(sha);
    forall k: Key | k != key && k.localId == key.localId && Listed(s, k, io)
      ensures !CheckSameDistributedAccount(sha, OhosOf(s, k), Someone())
    {
      assert RecordOk(OhosOf(s, k));
      UnboundNeverMatches(sha, OhosOf(s, k), Someone());
    }
    FirstLoginWith(sha, s, key, Someone(), io);
  }

  /** Two sub-profiles made. */
  function BothMade(localId: int): seq<Step> {
    [Created(FirstKey(localId), []), Created(SecondKey(localId), [FirstKey(localId).subId])]
  }

  lemma BothAreMade(sha: Sha256, localId: int)
    ensures
      var first, second := FirstKey(localId), SecondKey(localId);
      var s := Run(sha, INITIAL, BothMade(localId));
      && RecordsOk(s) && s.spaces.Keys == {first, second} && AllLive(s) && !Bound(s, first) && !Bound(s, second)
  {
    var first, second := FirstKey(localId), SecondKey(localId);
    var a, b := Created(first, []), Created(second, [first.subId]);
    var s1 := Apply(sha, INITIAL, a);
    InitialGood();
    StepKeepsRecords(sha, INITIAL, a);
    StepKeepsRecords(sha, s1, b);
    CreateAt(sha, INITIAL, first, []);
    CreateAt(sha, s1, second, [first.subId]);
    RunOfTwo(sha, INITIAL, a, b);
  }

  /** Two sub-profiles made, the first one bound. */
  function FirstBound(localId: int): seq<Step> {
    BothMade(localId) + [Login(FirstKey(localId), Good())]
  }

  lemma FirstIsBound(sha: Sha256, localId: int)
    ensures
      var first, second := FirstKey(localId), SecondKey(localId);
      var s := Run(sha, INITIAL, FirstBound(localId));
      && RecordsOk(s) && s.spaces.Keys == {first, second} && AllLive(s)
      && Holds(s, first, Someone().name, Hashed(sha)) && !Bound(s, second)
  {
    var first := FirstKey(localId);
    var s := Run(sha, INITIAL, BothMade(localId));
    BothAreMade(sha, localId);
    BindOneOfTwo(sha, s, first, SecondKey(localId));
    RunOnward(sha, INITIAL, BothMade(localId), [Login(first, Good())]);
    RunOfOne(sha, s, Login(first, Good()));
  }

  lemma BindOneOfTwo(sha: Sha256, s: State, first: Key, second: Key)
    requires RecordsOk(s) && s.spaces.Keys == {first, second} && AllLive(s) && !Bound(s, first) && !Bound(s, second)
    requires first.localId == second.localId && first != second
    ensures
      var s' := Apply(sha, s, Login(first, Good()));
      && RecordsOk(s') && s'.spaces.Keys == {first, second} && AllLive(s')
      && Holds(s', first, Someone().name, Hashed(sha)) && !Bound(s', second)
  {
    FirstLogin(sha, s, first, Good());
    assert OhosOf(Apply(sha, s, Login(first, Good())), first).status == ACCOUNT_STATE_LOGIN;
  }

  lemma {:induction false} RunOnward(sha: Sha256, s: State, a: seq<Step>, b: seq<Step>)
    ensures Run(sha, s, a + b) == Run(sha, Run(sha, s, a), b)
    decreases |a|
  {
    if a == [] {
      assert a + b == b;
    } else {
      assert (a + b)[1..] == a[1..] + b;
      RunOnward(sha, Apply(sha, s, a[0]), a[1..], b);
    }
  }

  lemma RunOfOne(sha: Sha256, s: State, a: Step)
    ensures Run(sha, s, [a]) == Apply(sha, s, a)
  {
    assert [a][1..] == [];
  }

  lemma RunOfTwo(sha: Sha256, s: State, a: Step, b: Step)
    ensures Run(sha, s, [a, b]) == Apply(sha, Apply(sha, s, a), b)
  {
    assert [a, b][1..] == [b];
    RunOfOne(sha, Apply(sha, s, a), b);
  }

  lemma RunOfThree(sha: Sha256, s: State, a: Step, b: Step, c: Step)
    ensures Run(sha, s, [a, b, c]) == Apply(sha, Apply(sha, Apply(sha, s, a), b), c)
  {
    assert [a, b, c][1..] == [b, c];
    RunOfTwo(sha, Apply(sha, s, a), b, c);
  }

  /** A first login to an account whose holder is not listed makes two holders. */
  lemma UnlistedHolderIsNoHindrance(sha: Sha256, s: State, first: Key, second: Key, io: Io)
    requires RecordsOk(s) && s.spaces.Keys == {first, second} && first.localId == second.localId && first != second
    requires Holds(s, first, Someone().name, Hashed(sha)) && !Listed(s, first, io)
    requires Readable(s, second, io) && !Bound(s, second) && io.save(second) == ERR_OK
    ensures !Unique(Apply(sha, s, Login(second, io)))
  {
    FirstLogin(sha, s, second, io);
    var s' := Apply(sha, s, Login(second, io));
    assert s'.spaces[first] == s.spaces[first];
    assert OhosOf(s', second) == s'.spaces[second].account.ohos;
    assert Holds(s', first, Someone().name, Hashed(sha)) && Holds(s', second, Someone().name, Hashed(sha));
  }

  /**
   Create two sub-profiles, bind the first, then bind the second to the same account while
   the scan cannot read the first: both are bound to it.
   */
  lemma SkippedScanBindsTwice(sha: Sha256, localId: int)
    ensures !Unique(Run(sha, INITIAL, FirstBound(localId) + [Login(SecondKey(localId), BlindScan())]))
  {
    var first, second, io := FirstKey(localId), SecondKey(localId), BlindScan();
    var s := Run(sha, INITIAL, FirstBound(localId));
    FirstIsBound(sha, localId);
    UnlistedHolderIsNoHindrance(sha, s, first, second, io);
    RunOnward(sha, INITIAL, FirstBound(localId), [Login(second, io)]);
    RunOfOne(sha, s, Login(second, io));
  }

  /** A deletion that got stuck leaves the first sub-profile stored and bound, out of the scan's sight. */
  lemma StuckButBound(sha: Sha256, localId: int, e: Failure)
    ensures
      var first, second := FirstKey(localId), SecondKey(localId);
      var s := Apply(sha, Run(sha, INITIAL, FirstBound(localId)), SubProfileDeleted(first, Good(), Stuck(e)));
      && RecordsOk(s) && s.spaces.Keys == {first, second} && s.spaces[first].toBeRemoved
      && Holds(s, first, Someone().name, Hashed(sha)) && !Bound(s, second)
  {
    FirstIsBound(sha, localId);
    Stuckness(sha, Run(sha, INITIAL, FirstBound(localId)), FirstKey(localId), e);
  }

  lemma Stuckness(sha: Sha256, s: State, key: Key, e: Failure)
    requires RecordsOk(s) && key in s.spaces && Live(s.spaces[key])
    ensures
      var s' := Apply(sha, s, SubProfileDeleted(key, Good(), Stuck(e)));
      && RecordsOk(s') && s'.main == s.main && s'.trace == s.trace
      && s'.spaces == s.spaces[key := s.spaces[key].(toBeRemoved := true)]
  {
    StepKeepsRecords(sha, s, SubProfileDeleted(key, Good(), Stuck(e)));
  }

  /**
   The same with scans that read everything: the deletion of the first gets stuck, so it is still
   stored and bound, but pending removal, and the scan passes over it.
   */
  lemma StuckDeletionBindsTwice(sha: Sha256, localId: int, e: Failure)
    ensures
      !Unique(Run(sha, INITIAL, FirstBound(localId) + [SubProfileDeleted(FirstKey(localId), Good(), Stuck(e)),
                                                       Login(SecondKey(localId), Good())]))
  {
    var first, second := FirstKey(localId), SecondKey(localId);
    var delete, login := SubProfileDeleted(first, Good(), Stuck(e)), Login(second, Good());
    var s := Run(sha, INITIAL, FirstBound(localId));
    var s1 := Apply(sha, s, delete);
    StuckButBound(sha, localId, e);
    UnlistedHolderIsNoHindrance(sha, s1, first, second, Good());
    RunOnward(sha, INITIAL, FirstBound(localId), [delete, login]);
    RunOfTwo(sha, s, delete, login);
  }

  /** Reclaiming publishes nothing of binding. */
  lemma {:induction false} TurnsRemoveAll(s: State, keys: seq<Key>, goes: Key -> bool, channel: Channel, key: Key)
    ensures Turns(RemoveAll(s, keys, goes).trace, channel, key) == Turns(s.trace, channel, key)
    decreases |keys|
  {
    if keys != [] {
      TurnsOne(s.trace, Ended(keys[0]), channel, key);
      TurnsRemoveAll(if goes(keys[0]) then Without(s, keys[0]) else s, keys[1..], goes, channel, key);
    }
  }

  /** What start-up and making room do about the deletions that got stuck. */
  function Reclaim(localId: int): Step {
    GarbageRemoved(localId, PendingRemoval, Good(), _ => true)
  }

  lemma ReclaimTheOne(sha: Sha256, s: State, key: Key, channel: Channel)
    requires RecordsOk(s) && s.spaces.Keys == {key} && s.spaces[key].toBeRemoved
    ensures
      var s' := Apply(sha, s, Reclaim(key.localId));
      RecordsOk(s') && s'.spaces == map[] && Turns(s'.trace, channel, key) == Turns(s.trace, channel, key)
  {
    var keys, goes := GarbageKeys(s, key.localId, PendingRemoval, Good()), Reclaim(key.localId).goes;
    ReclaimEffect(s, key.localId, PendingRemoval, Good(), goes, key);
    RemoveAllKeeps(s, keys, goes);
    TurnsRemoveAll(s, keys, goes, channel, key);
  }

  /** With nothing stored, a sub-profile is made. */
  lemma MakeTheOne(sha: Sha256, s: State, localId: int)
    requires RecordsOk(s) && s.spaces == map[]
    ensures
      var key := FirstKey(localId);
      var s' := Apply(sha, s, Created(key, []));
      && RecordsOk(s') && s'.spaces.Keys == {key} && Live(s'.spaces[key]) && !Bound(s', key)
      && s'.trace == s.trace && s'.main == s.main
  {
    StepKeepsRecords(sha, s, Created(FirstKey(localId), []));
    CreateAt(sha, s, FirstKey(localId), []);
  }

  /** The only sub-profile is bound. */
  lemma BindTheOne(sha: Sha256, s: State, localId: int, channel: Channel)
    requires
      var key := FirstKey(localId);
      RecordsOk(s) && s.spaces.Keys == {key} && Live(s.spaces[key]) && !Bound(s, key)
    ensures
      var key := FirstKey(localId);
      var s' := Apply(sha, s, Login(key, Good()));
      && RecordsOk(s') && s'.spaces.Keys == {key} && Live(s'.spaces[key])
      && Holds(s', key, Someone().name, Hashed(sha)) && (forall k | k != key :: OhosOf(s', k) == OhosOf(s, k))
      && Turns(s'.trace, channel, key) == Turns(s.trace, channel, key) + [BOUND]
  {
    var key := FirstKey(localId);
    FirstLogin(sha, s, key, Good());
    TurnsBoth(s.trace, key, BOUND, channel);
    TurnsBoth(Both(s.trace, key, BOUND), key, LOGIN, channel);
  }

  lemma MakeAndBind(sha: Sha256, s: State, localId: int, channel: Channel)
    requires RecordsOk(s) && s.spaces == map[]
    ensures
      var key := FirstKey(localId);
      var s' := Apply(sha, Apply(sha, s, Created(key, [])), Login(key, Good()));
      && RecordsOk(s') && s'.spaces.Keys == {key} && Live(s'.spaces[key])
      && Turns(s'.trace, channel, key) == Turns(s.trace, channel, key) + [BOUND]
  {
    MakeTheOne(sha, s, localId);
    BindTheOne(sha, Apply(sha, s, Created(FirstKey(localId), [])), localId, channel);
  }

  lemma ReclaimAndBindAgain(sha: Sha256, s: State, localId: int, channel: Channel)
    requires RecordsOk(s) && s.spaces.Keys == {FirstKey(localId)} && s.spaces[FirstKey(localId)].toBeRemoved
    ensures
      var key := FirstKey(localId);
      Turns(Run(sha, s, [Reclaim(localId), Created(key, []), Login(key, Good())]).trace, channel, key) ==
      Turns(s.trace, channel, key) + [BOUND]
  {
    var key := FirstKey(localId);
    ReclaimTheOne(sha, s, key, channel);
    MakeAndBind(sha, Apply(sha, s, Reclaim(localId)), localId, channel);
    RunOfThree(sha, s, Reclaim(localId), Created(key, []), Login(key, Good()));
  }

  /** One sub-profile made, bound, and stuck in its deletion. */
  function BoundAndStuck(key: Key, e: Failure): seq<Step> {
    [Created(key, []), Login(key, Good()), SubProfileDeleted(key, Good(), Stuck(e))]
  }

  lemma OneIsStuck(sha: Sha256, localId: int, e: Failure, channel: Channel)
    ensures
      var key := FirstKey(localId);
      var s := Run(sha, INITIAL, BoundAndStuck(key, e));
      && RecordsOk(s) && s.spaces.Keys == {key} && s.spaces[key].toBeRemoved
      && Turns(s.trace, channel, key) == [BOUND]
  {
    var key := FirstKey(localId);
    InitialGood();
    MakeAndBind(sha, INITIAL, localId, channel);
    Stuckness(sha, Apply(sha, Apply(sha, INITIAL, Created(key, [])), Login(key, Good())), key, e);
    RunOfThree(sha, INITIAL, Created(key, []), Login(key, Good()), SubProfileDeleted(key, Good(), Stuck(e)));
  }

  /**
   Bind a sub-profile, have its deletion get stuck, reclaim it, and, when its id comes round
   again, make and bind a new one: BOUND is published twice with no UNBOUND between.
   */
  lemma ReclaimedIsBoundTwice(sha: Sha256, localId: int, e: Failure, channel: Channel)
    ensures
      var key := FirstKey(localId);
      var s := Run(sha, INITIAL, BoundAndStuck(key, e) + [Reclaim(localId), Created(key, []), Login(key, Good())]);
      Turns(s.trace, channel, key) == [BOUND, BOUND] && !Alternates(s.trace, channel, key)
  {
    var key := FirstKey(localId);
    var s0 := Run(sha, INITIAL, BoundAndStuck(key, e));
    OneIsStuck(sha, localId, e, channel);
    ReclaimAndBindAgain(sha, s0, localId, channel);
    RunOnward(sha, INITIAL, BoundAndStuck(key, e), [Reclaim(localId), Created(key, []), Login(key, Good())]);
    assert ([BOUND] + [BOUND])[1] == BOUND;
  }

  /** An account whose name has something after a NUL. */
  function Suffixed(suffix: char): OhosAccountInfo {
    Someone().(name := ['n', '\0', suffix])
  }

  lemma SuffixedName(sha: Sha256, suffix: char)
    ensures
      var info := Suffixed(suffix);
      && CText(info.name) == ['n'] && '\0' in info.name
      && |GenerateOhosUdid(sha, info.name, info.uid)| == OHOS_ACCOUNT_UDID_LENGTH
      && GenerateOhosUdid(sha, info.name, info.uid) == Hashed(sha)
  {
    var name := Suffixed(suffix).name;
    assert name[1] == '\0' && name[1..][0] == '\0' && |Someone().uid| == 3;
    assert CText(name[1..]) == "";
  }

  /**
   The same once more with scans that read everything and no deletion at all: two first logins
   under names that differ only behind a NUL. Both are stored under what comes before it.
   */
  lemma NamesWithNulBindTwice(sha: Sha256, localId: int)
    ensures
      !Unique(Run(sha, INITIAL, BothMade(localId) + [LoginWith(FirstKey(localId), Suffixed('x'), Good()),
                                                     LoginWith(SecondKey(localId), Suffixed('y'), Good())]))
  {
    var first, second := FirstKey(localId), SecondKey(localId);
    var one, two := LoginWith(first, Suffixed('x'), Good()), LoginWith(second, Suffixed('y'), Good());
    var s := Run(sha, INITIAL, BothMade(localId));
    BothAreMade(sha, localId);
    LoginSuffixed(sha, s, first, second, 'x');
    LoginSuffixed(sha, Apply(sha, s, one), second, first, 'y');
    RunOnward(sha, INITIAL, BothMade(localId), [one, two]);
    RunOfTwo(sha, s, one, two);
    assert Holds(Apply(sha, Apply(sha, s, one), two), first, ['n'], Hashed(sha));
  }

  /** One of two sub-profiles is bound to such an account, whoever the other is bound to. */
  lemma LoginSuffixed(sha: Sha256, s: State, key: Key, other: Key, suffix: char)
    requires RecordsOk(s) && s.spaces.Keys == {key, other} && AllLive(s) && key != other && !Bound(s, key)
    ensures
      var s' := Apply(sha, s, LoginWith(key, Suffixed(suffix), Good()));
      && RecordsOk(s') && s'.spaces.Keys == s.spaces.Keys && AllLive(s')
      && Holds(s', key, ['n'], Hashed(sha))
      && s'.spaces[other] == s.spaces[other] && Bound(s', other) == Bound(s, other)
  {
    var info := Suffixed(suffix);
    SuffixedName(sha, suffix);
    forall k: Key | k != key && k.localId == key.localId && Listed(s, k, Good())
      ensures Readable(s, k, Good()) && !CheckSameDistributedAccount(sha, OhosOf(s, k), info)
    {
      assert RecordOk(OhosOf(s, k));
    }
    FirstLoginWith(sha, s, key, info, Good());
    assert OhosOf(Apply(sha, s, LoginWith(key, info, Good())), key).status == ACCOUNT_STATE_LOGIN;
  }

  /** The headless record bound, by a first step from nothing. */
  lemma HeadlessBound(sha: Sha256, localId: int)
    requires localId >= 0
    ensures
      var key := HeadlessKey(localId);
      var s := Apply(sha, INITIAL, Login(key, Good()));
      && RecordsOk(s) && TraceOk(s) && AllSettled(s) && s.spaces == map[]
      && OhosOf(s, key).name == Someone().name && OhosOf(s, key).uid == Hashed(sha)
      && OhosOf(s, key).status == ACCOUNT_STATE_LOGIN
      && s.trace == Both(Both([], key, BOUND), key, LOGIN)
  {
    var login := Login(HeadlessKey(localId), Good());
    InitialGood();
    FirstLogin(sha, INITIAL, HeadlessKey(localId), Good());
    StepTells(sha, INITIAL, login);
    StepSettles(sha, INITIAL, login);
    assert forall k :: !MisreportsAt(sha, INITIAL, login, k) && !LeavesOpen(INITIAL, login, k);
  }

  /** Making and binding a sub-profile leaves the headless record as it was. */
  lemma BindBeside(sha: Sha256, s: State, localId: int)
    requires RecordsOk(s) && s.spaces == map[]
    ensures
      var headless, first := HeadlessKey(localId), FirstKey(localId);
      var s' := Apply(sha, Apply(sha, s, Created(first, [])), Login(first, Good()));
      Holds(s', first, Someone().name, Hashed(sha)) && OhosOf(s', headless) == OhosOf(s, headless)
  {
    MakeTheOne(sha, s, localId);
    BindTheOne(sha, Apply(sha, s, Created(FirstKey(localId), [])), localId, Common);
  }

  /** Bind the headless record, make a sub-profile, bind it too: both are bound to the same account. */
  lemma HeadlessMayShareItsAccount(sha: Sha256, localId: int)
    requires localId >= 0
    ensures
      var headless, first := HeadlessKey(localId), FirstKey(localId);
      var s := Run(sha, INITIAL, [Login(headless, Good()), Created(first, []), Login(first, Good())]);
      && Holds(s, first, OhosOf(s, headless).name, OhosOf(s, headless).uid)
      && OhosOf(s, headless).status == ACCOUNT_STATE_LOGIN
  {
    var headless, first := HeadlessKey(localId), FirstKey(localId);
    var s1 := Apply(sha, INITIAL, Login(headless, Good()));
    HeadlessBound(sha, localId);
    BindBeside(sha, s1, localId);
    RunOfThree(sha, INITIAL, Login(headless, Good()), Created(first, []), Login(first, Good()));
  }

  /** An OS account without sub-profiles: nothing to scan, and only the headless record goes with it. */
  lemma NothingStored(s: State, localId: int, io: Io)
    requires s.spaces == map[]
    ensures Scan(s, localId, io) == [] && DoomedKeys(s, localId) == [HeadlessKey(localId)]
  {
    var lo, hi := SubProfileIds.MinId(localId), SubProfileIds.MaxId(localId) + 1;
    NoIdsBetween(Scannable(s, io), localId, lo, hi);
    NoIdsBetween(Anything(), localId, lo, hi);
  }

  lemma {:induction false} NoIdsBetween(keep: Key -> bool, localId: int, lo: int, hi: int)
    ensures IdsBetween(map[], keep, localId, lo, hi) == []
    decreases hi - lo
  {
    if lo < hi {
      NoIdsBetween(keep, localId, lo + 1, hi);
    }
  }

  /** Removing an OS account of which only the headless record was bound: it ends, and nothing is published. */
  lemma OnlyEnds(s: State, localId: int, io: Io)
    requires s.spaces == map[]
    ensures
      var s' := RemoveOsAccount(s, localId, io, true);
      s'.spaces == map[] && localId !in s'.main && s'.trace == s.trace + [Ended(HeadlessKey(localId))]
  {
    NothingStored(s, localId, io);
    assert EndAll(s.trace, [HeadlessKey(localId)]) == s.trace + [Ended(HeadlessKey(localId))];
  }

  /** What is left of a login, the end of the record, and a login: two BOUNDs. */
  lemma BoundTwice(key: Key, channel: Channel)
    ensures
      var once := Both(Both([], key, BOUND), key, LOGIN) + [Ended(key)];
      var twice := Both(Both(once, key, BOUND), key, LOGIN);
      Turns(twice, channel, key) == [BOUND, BOUND] && !Alternates(twice, channel, key)
  {
    var login := Both(Both([], key, BOUND), key, LOGIN);
    TurnsBoth([], key, BOUND, channel);
    TurnsBoth(Both([], key, BOUND), key, LOGIN, channel);
    TurnsOne(login, Ended(key), channel, key);
    TurnsBoth(login + [Ended(key)], key, BOUND, channel);
    TurnsBoth(Both(login + [Ended(key)], key, BOUND), key, LOGIN, channel);
    assert Turns(Both(Both(login + [Ended(key)], key, BOUND), key, LOGIN), channel, key)[1] == BOUND;
  }

  /**
   Bind the headless record, remove the OS account, and bind the headless record of a new one
   under the same id: BOUND is published twice with no UNBOUND between.
   */
  lemma HeadlessIsBoundTwice(sha: Sha256, localId: int, channel: Channel)
    requires localId >= 0
    ensures
      var key := HeadlessKey(localId);
      var s := Run(sha, INITIAL, [Login(key, Good()), OsAccountRemoved(localId, Good(), true), Login(key, Good())]);
      Turns(s.trace, channel, key) == [BOUND, BOUND] && !Alternates(s.trace, channel, key)
  {
    var key := HeadlessKey(localId);
    var login, remove := Login(key, Good()), OsAccountRemoved(localId, Good(), true);
    HeadlessBound(sha, localId);
    HeadlessAgain(sha, Apply(sha, INITIAL, login), localId);
    RunOfThree(sha, INITIAL, login, remove, login);
    BoundTwice(key, channel);
  }

  /** The OS account goes and its headless record, of a new one, is bound. */
  lemma HeadlessAgain(sha: Sha256, s: State, localId: int)
    requires localId >= 0 && RecordsOk(s) && s.spaces == map[]
    ensures
      var key := HeadlessKey(localId);
      var s' := Apply(sha, Apply(sha, s, OsAccountRemoved(localId, Good(), true)), Login(key, Good()));
      s'.trace == Both(Both(s.trace + [Ended(key)], key, BOUND), key, LOGIN)
  {
    var remove := OsAccountRemoved(localId, Good(), true);
    OnlyEnds(s, localId, Good());
    StepKeepsRecords(sha, s, remove);
    FirstLogin(sha, Apply(sha, s, remove), HeadlessKey(localId), Good());
  }

  /** A run of two steps in which the lifetime of the headless record ends open. */
  lemma HeadlessRunIsLeftOpen(sha: Sha256, localId: int)
    requires localId >= 0
    ensures
      var steps := [Login(HeadlessKey(localId), Good()), OsAccountRemoved(localId, Good(), true)];
      !AllSettled(Run(sha, INITIAL, steps))
  {
    HeadlessBound(sha, localId);
    HeadlessIsLeftOpen(sha, Apply(sha, INITIAL, Login(HeadlessKey(localId), Good())), localId, Good());
    RunOfTwo(sha, INITIAL, Login(HeadlessKey(localId), Good()), OsAccountRemoved(localId, Good(), true));
  }

  // ---------- single records ----------

  function Fine(): Single.Io {
    Single.Io(_ => ERR_OK, _ => ERR_OK, _ => false, 0, 7)
  }

  function LoginAs(userId: int, info: OhosAccountInfo, io: Single.Io): Single.Step {
    Single.Change(userId, info, LoginEvent, io)
  }

  function Expired(userId: int, io: Single.Io): Single.Step {
    Single.Change(userId, Someone(), TokenInvalidEvent, io)
  }

  lemma SingleLogin(sha: Sha256, userId: int, io: Single.Io)
    requires 0 <= userId && io.load(userId) == ERR_OK && Single.Writes(userId, io)
    ensures
      var s := Single.Apply(sha, Single.INITIAL, LoginAs(userId, Someone(), io));
      var own := Single.OhosOf(s, userId);
      && own.status == ACCOUNT_STATE_LOGIN && CheckSameDistributedAccount(sha, own, Someone())
      && own.name == Someone().name
      && s.trace == if io.save(userId) != ERR_OK then []
                    else Single.PublishLogin([], Single.RecordKey(userId), ACCOUNT_STATE_UNBOUND)
  {
    SomeoneHashes(sha);
    assert |DEFAULT_OHOS_ACCOUNT_UID| == 16;
  }

  /** The token of the bound record expires; the write may fail. */
  lemma SingleExpiry(sha: Sha256, s: Single.State, userId: int, io: Single.Io)
    requires 0 <= userId && io.load(userId) == ERR_OK && !io.wrote(userId)
    requires Single.OhosOf(s, userId).status == ACCOUNT_STATE_LOGIN
    requires CheckSameDistributedAccount(sha, Single.OhosOf(s, userId), Someone())
    ensures
      var s' := Single.Apply(sha, s, Expired(userId, io));
      && Single.OhosOf(s', userId).status ==
         (if io.save(userId) == ERR_OK then ACCOUNT_STATE_TOKEN_EXPIRED else ACCOUNT_STATE_LOGIN)
      && s'.trace == Both(s.trace, Single.RecordKey(userId), TOKEN_INVALID)
      && Replay(s'.trace, Subscriber, Single.RecordKey(userId)).status == ACCOUNT_STATE_TOKEN_EXPIRED
  {
    ReplayBoth(s.trace, Single.RecordKey(userId), TOKEN_INVALID, Subscriber, Single.RecordKey(userId));
  }

  /** An expired record is bound to somebody else. */
  lemma SingleRebinding(sha: Sha256, s: Single.State, userId: int)
    requires 0 <= userId && Single.OhosOf(s, userId).status == ACCOUNT_STATE_TOKEN_EXPIRED
    ensures
      var s' := Single.Apply(sha, s, LoginAs(userId, SomeoneElse(), Fine()));
      var own := Single.OhosOf(s', userId);
      && own.name == SomeoneElse().name && own.status == ACCOUNT_STATE_LOGIN
      && s'.trace == Single.PublishLogin(s.trace, Single.RecordKey(userId), ACCOUNT_STATE_TOKEN_EXPIRED)
  {
    SomeoneHashes(sha);
  }

  lemma SingleRunOfTwo(sha: Sha256, s: Single.State, a: Single.Step, b: Single.Step)
    ensures Single.Run(sha, s, [a, b]) == Single.Apply(sha, Single.Apply(sha, s, a), b)
  {
    assert [a, b][1..] == [b] && [b][1..] == [];
    assert Single.Run(sha, Single.Apply(sha, s, a), [b]) == Single.Apply(sha, Single.Apply(sha, s, a), b);
  }

  lemma SingleRunOfThree(sha: Sha256, s: Single.State, a: Single.Step, b: Single.Step, c: Single.Step)
    ensures Single.Run(sha, s, [a, b, c]) == Single.Apply(sha, Single.Apply(sha, Single.Apply(sha, s, a), b), c)
  {
    assert [a, b, c][1..] == [b, c];
    SingleRunOfTwo(sha, Single.Apply(sha, s, a), b, c);
  }

  lemma TurnsLogin(trace: seq<Item>, key: Key, status: int, channel: Channel)
    ensures Turns(Single.PublishLogin(trace, key, status), channel, key) ==
            Turns(trace, channel, key) + if status == ACCOUNT_STATE_UNBOUND then [BOUND] else []
  {
    var t0 := if status == ACCOUNT_STATE_UNBOUND then Both(trace, key, BOUND) else trace;
    TurnsBoth(trace, key, BOUND, channel);
    TurnsOne(t0, Published(Subscriber, key, LOGIN), channel, key);
    TurnsOne(On(t0, Subscriber, key, LOGIN), Published(Common, key, LOGIN), channel, key);
  }

  /** Bind, report an expired token while the write fails: the history says expired, the record logged in. */
  lemma DroppedExpiryLies(sha: Sha256, userId: int, e: Failure)
    requires 0 <= userId
    ensures
      var s := Single.Run(sha, Single.INITIAL,
                          [LoginAs(userId, Someone(), Fine()), Expired(userId, Fine().(save := _ => e))]);
      && Replay(s.trace, Subscriber, Single.RecordKey(userId)).status == ACCOUNT_STATE_TOKEN_EXPIRED
      && Single.OhosOf(s, userId).status == ACCOUNT_STATE_LOGIN
  {
    var io := Fine().(save := _ => e);
    var login := LoginAs(userId, Someone(), Fine());
    SingleLogin(sha, userId, Fine());
    SingleRunOfTwo(sha, Single.INITIAL, login, Expired(userId, io));
    SingleExpiry(sha, Single.Apply(sha, Single.INITIAL, login), userId, io);
  }

  /** Bind, let the token expire, bind to somebody else: one BOUND is all that was published, for the first account. */
  lemma ExpiredRecordChangesHands(sha: Sha256, userId: int, channel: Channel)
    requires 0 <= userId
    ensures
      var s := Single.Run(sha, Single.INITIAL, [LoginAs(userId, Someone(), Fine()), Expired(userId, Fine()),
                                                LoginAs(userId, SomeoneElse(), Fine())]);
      && Single.OhosOf(s, userId).name == SomeoneElse().name != Someone().name
      && Single.OhosOf(s, userId).status == ACCOUNT_STATE_LOGIN
      && Turns(s.trace, channel, Single.RecordKey(userId)) == [BOUND]
  {
    var key := Single.RecordKey(userId);
    var login, expire, other := LoginAs(userId, Someone(), Fine()), Expired(userId, Fine()),
                                LoginAs(userId, SomeoneElse(), Fine());
    var s1 := Single.Apply(sha, Single.INITIAL, login);
    var s2 := Single.Apply(sha, s1, expire);
    SomeoneHashes(sha);
    SingleLogin(sha, userId, Fine());
    SingleExpiry(sha, s1, userId, Fine());
    SingleRebinding(sha, s2, userId);
    TurnsLogin([], key, ACCOUNT_STATE_UNBOUND, channel);
    TurnsBoth(s1.trace, key, TOKEN_INVALID, channel);
    TurnsLogin(s2.trace, key, ACCOUNT_STATE_TOKEN_EXPIRED, channel);
    SingleRunOfThree(sha, Single.INITIAL, login, expire, other);
  }

  /** A login whose write takes effect and is reported as failed, then the same again: bound, and no BOUND published. */
  lemma LateFailureHidesTheBinding(sha: Sha256, userId: int, e: Failure, channel: Channel)
    requires 0 <= userId
    ensures
      var late := Fine().(save := _ => e, wrote := _ => true);
      var s := Single.Run(sha, Single.INITIAL, [LoginAs(userId, Someone(), late), LoginAs(userId, Someone(), Fine())]);
      && Single.OhosOf(s, userId).status == ACCOUNT_STATE_LOGIN
      && Turns(s.trace, channel, Single.RecordKey(userId)) == []
  {
    var key, late := Single.RecordKey(userId), Fine().(save := _ => e, wrote := _ => true);
    var login, again := LoginAs(userId, Someone(), late), LoginAs(userId, Someone(), Fine());
    var s1 := Single.Apply(sha, Single.INITIAL, login);
    SomeoneHashes(sha);
    SingleLogin(sha, userId, late);
    assert Single.Apply(sha, s1, again).trace == Single.PublishLogin([], key, ACCOUNT_STATE_LOGIN);
    TurnsLogin([], key, ACCOUNT_STATE_LOGIN, channel);
    SingleRunOfTwo(sha, Single.INITIAL, login, again);
  }
}
