/**
 Start-up of the account service. The storage manager, the ability manager and the bundle
 manager arrive in any order, some of them again and again; the default OS account is
 activated once they and the initial accounts are there.
 */
module ServiceStartUpSpec {
  const ADMIN_LOCAL_ID: nat := 0

  datatype Ability = StorageManager | AbilityManager | BundleManager | AnotherAbility

  /**
   How one arrival goes: the accounts whose query fails with an error of its own, the accounts
   that would get made, whether making accounts and activating the default one is reported as a
   success. Making is reported on its own: a success may leave accounts unmade.
   */
  datatype Io = Io(queryFails: set<nat>, made: set<nat>, initOk: bool, activateOk: bool)

  /**
   The flags of the service; which accounts are completed; how often the default account was
   activated; and whether it ever was while an initial account was missing.
   */
  datatype State = State(storage: bool, ams: bool, bms: bool, activated: bool,
                         completed: set<nat>, activations: nat, premature: bool)

  function Initial(completed: set<nat>): State {
    State(false, false, false, false, completed, 0, false)
  }

  /** The initial accounts found wanting; one whose query fails is taken for present. */
  function Uncreated(initial: set<nat>, completed: set<nat>, queryFails: set<nat>): set<nat> {
    set id | id in initial && id !in completed && id !in queryFails
  }

  function Flagged(s: State, ability: Ability): State {
    match ability
    case StorageManager => s.(storage := true)
    case AbilityManager => s.(ams := true)
    case BundleManager => s.(bms := true)
    case AnotherAbility => s
  }

  /** `Init` sets about the wanted accounts, and about the admin account in any case. */
  function Inited(s: State, wanted: set<nat>, io: Io): State {
    s.(completed := s.completed + (wanted + {ADMIN_LOCAL_ID}) * io.made)
  }

  function Activated(initial: set<nat>, s: State, io: Io): State {
    if s.activated || !s.ams || !io.activateOk then s
    else s.(activated := true, activations := s.activations + 1,
            premature := s.premature || !(initial <= s.completed))
  }

  function Arrive(initial: set<nat>, s: State, ability: Ability, io: Io): State {
    var s1 := Flagged(s, ability);
    var wanted := Uncreated(initial, s1.completed, io.queryFails);
    if ability == AnotherAbility || !s1.storage then s1
    else if wanted == {} then Activated(initial, s1, io)
    else if !s1.bms then s1
    else
      var s2 := Inited(s1, wanted, io);
      if !io.initOk then s2 else Activated(initial, s2, io)
  }

  /** Arrivals, and accounts completed or lost by others in between. */
  datatype Step = Arrives(ability: Ability, io: Io) | Others(completed: set<nat>)

  function Apply(initial: set<nat>, s: State, step: Step): State {
    match step
    case Arrives(ability, io) => Arrive(initial, s, ability, io)
    case Others(completed) => s.(completed := completed)
  }

  function Run(initial: set<nat>, s: State, steps: seq<Step>): State
    decreases |steps|
  {
    if steps == [] then s else Run(initial, Apply(initial, s, steps[0]), steps[1..])
  }

  /** Activated once or not at all, and only with the storage and the ability manager there. */
  predicate Sound(s: State) {
    s.activations == (if s.activated then 1 else 0) && (s.activated ==> s.storage && s.ams)
  }

  /**
   This initial account is still missing when the default one is activated: its query failed, or
   it was not made. Making accounts, if there is any to make, takes the admin account along.
   */
  predicate StillMissing(completed: set<nat>, wanted: set<nat>, io: Io, id: nat) {
    && id !in completed
    && (id !in io.made || (id in io.queryFails && (wanted == {} || id != ADMIN_LOCAL_ID)))
  }

  /** The activation of this step finds an initial account missing. */
  predicate Jumps(initial: set<nat>, s: State, step: Step) {
    && step.Arrives? && step.ability != AnotherAbility
    && var s1 := Flagged(s, step.ability);
       var wanted := Uncreated(initial, s1.completed, step.io.queryFails);
       && s1.storage && s1.ams && !s1.activated && step.io.activateOk
       && (wanted == {} || (s1.bms && step.io.initOk))
       && exists id :: id in initial && StillMissing(s.completed, wanted, step.io, id)
  }

  lemma StepSound(initial: set<nat>, s: State, step: Step)
    requires Sound(s)
    ensures Sound(Apply(initial, s, step))
    ensures Apply(initial, s, step).premature <==> s.premature || Jumps(initial, s, step)
  {
    if step.Arrives? {
      var s1 := Flagged(s, step.ability);
      var wanted := Uncreated(initial, s1.completed, step.io.queryFails);
      var done := if wanted == {} then s1.completed else Inited(s1, wanted, step.io).completed;
      forall id | id in initial
        ensures id !in done <==> StillMissing(s.completed, wanted, step.io, id)
      {
        assert id in wanted <==> id !in s.completed && id !in step.io.queryFails;
      }
      assert initial <= done <==> !(exists id :: id in initial && StillMissing(s.completed, wanted, step.io, id));
    }
  }

  predicate NeverJumps(initial: set<nat>, s: State, steps: seq<Step>)
    decreases |steps|
  {
    steps == [] || (!Jumps(initial, s, steps[0]) && NeverJumps(initial, Apply(initial, s, steps[0]), steps[1..]))
  }

  /** No query fails, and every initial account that is to be made gets made. */
  predicate NothingFails(initial: set<nat>, steps: seq<Step>) {
    forall step | step in steps :: step.Arrives? ==> step.io.queryFails == {} && initial <= step.io.made
  }

  /**
   Over every run: at most one activation, none before storage and ability manager, and none
   before all initial accounts exist exactly when no activation rests on a failed query or on an
   account that was not made.
   */
  lemma {:induction false} ActivatedOnceAndInTime(initial: set<nat>, s: State, steps: seq<Step>)
    requires Sound(s)
    ensures Sound(Run(initial, s, steps))
    ensures Run(initial, s, steps).premature <==> s.premature || !NeverJumps(initial, s, steps)
    ensures NothingFails(initial, steps) ==> NeverJumps(initial, s, steps)
    decreases |steps|
  {
    if steps != [] {
      StepSound(initial, s, steps[0]);
      if NothingFails(initial, steps) {
        assert steps[0] in steps;
      }
      ActivatedOnceAndInTime(initial, Apply(initial, s, steps[0]), steps[1..]);
    }
  }

  /**
   The three arrive, no query fails, and making the accounts is reported as a success though this
   one is not made: the default account is activated while it is missing.
   */
  lemma UnmadeAccountIsPassedOver(initial: set<nat>, completed: set<nat>, id: nat)
    requires id in initial && id !in completed
    ensures
      var io := Io({}, {}, true, true);
      var s := Run(initial, Initial(completed), [Arrives(StorageManager, io), Arrives(AbilityManager, io),
                                                 Arrives(BundleManager, io)]);
      s.activated && s.premature && id !in s.completed
  {
    var io := Io({}, {}, true, true);
    var a, b, c := Arrives(StorageManager, io), Arrives(AbilityManager, io), Arrives(BundleManager, io);
    var s0 := Initial(completed);
    assert id in Uncreated(initial, completed, {});
    var s1 := Apply(initial, s0, a);
    var s2 := Apply(initial, s1, b);
    assert [a, b, c][1..] == [b, c] && [b, c][1..] == [c] && [c][1..] == [];
    assert Run(initial, s2, [c]) == Apply(initial, s2, c);
    assert Run(initial, s1, [b, c]) == Run(initial, s2, [c]);
  }

  /** Once everybody is there, so is the default account. */
  predicate Complete(s: State) {
    s.storage && s.ams && s.bms ==> s.activated
  }

  /** Making the initial accounts and activating the default one are reported as successes. */
  predicate Goes(step: Step) {
    step.Arrives? ==> step.io.initOk && step.io.activateOk
  }

  predicate SameFlags(s: State, s': State) {
    s'.storage == s.storage && s'.ams == s.ams && s'.bms == s.bms && (s.activated ==> s'.activated)
  }

  /** All an arrival does after setting its flag leaves the flags alone. */
  lemma OnlyItsFlag(initial: set<nat>, s: State, ability: Ability, io: Io)
    ensures SameFlags(Flagged(s, ability), Arrive(initial, s, ability, io))
  {
    var s1 := Flagged(s, ability);
    var s2 := Inited(s1, Uncreated(initial, s1.completed, io.queryFails), io);
    assert SameFlags(s1, s2) && SameFlags(s1, Activated(initial, s1, io)) && SameFlags(s2, Activated(initial, s2, io));
  }

  lemma FlagsStay(initial: set<nat>, s: State, step: Step)
    ensures
      var s' := Apply(initial, s, step);
      && s'.storage == (s.storage || (step.Arrives? && step.ability == StorageManager))
      && s'.ams == (s.ams || (step.Arrives? && step.ability == AbilityManager))
      && s'.bms == (s.bms || (step.Arrives? && step.ability == BundleManager))
      && (s.activated ==> s'.activated)
  {
    if step.Arrives? {
      OnlyItsFlag(initial, s, step.ability, step.io);
    }
  }

  predicate Arrived(steps: seq<Step>, ability: Ability) {
    exists step | step in steps :: step.Arrives? && step.ability == ability
  }

  lemma {:induction false} RunCompletes(initial: set<nat>, s: State, steps: seq<Step>)
    requires Complete(s) && forall step | step in steps :: Goes(step)
    ensures Complete(Run(initial, s, steps))
    ensures Run(initial, s, steps).storage == (s.storage || Arrived(steps, StorageManager))
    ensures Run(initial, s, steps).ams == (s.ams || Arrived(steps, AbilityManager))
    ensures Run(initial, s, steps).bms == (s.bms || Arrived(steps, BundleManager))
    decreases |steps|
  {
    if steps != [] {
      assert steps[0] in steps && Goes(steps[0]);
      FlagsStay(initial, s, steps[0]);
      RunCompletes(initial, Apply(initial, s, steps[0]), steps[1..]);
      ArrivedStep(steps, StorageManager);
      ArrivedStep(steps, AbilityManager);
      ArrivedStep(steps, BundleManager);
    }
  }

  lemma ArrivedStep(steps: seq<Step>, ability: Ability)
    requires steps != []
    ensures Arrived(steps, ability) <==>
              (steps[0].Arrives? && steps[0].ability == ability) || Arrived(steps[1..], ability)
  {
    assert steps == [steps[0]] + steps[1..];
  }

  /**
   In whatever order and however often they arrive: once all three have, with init and activation
   succeeding, the default account has been activated, exactly once.
   */
  lemma ActivatedInTheEnd(initial: set<nat>, completed: set<nat>, steps: seq<Step>)
    requires forall step | step in steps :: Goes(step)
    requires Arrived(steps, StorageManager) && Arrived(steps, AbilityManager) && Arrived(steps, BundleManager)
    ensures Run(initial, Initial(completed), steps).activations == 1
  {
    RunCompletes(initial, Initial(completed), steps);
    ActivatedOnceAndInTime(initial, Initial(completed), steps);
  }
}

module ServiceStartUp {
  import opened ServiceStartUpSpec

  class AccountMgrService {
    const initAccountIds: set<nat>
    var isStorageReady: bool
    var isAmsReady: bool
    var isBmsReady: bool
    var isDefaultOsAccountActivated: bool
    /** The accounts that are completed: the account manager's own state. */
    var completed: set<nat>
    ghost var activations: nat
    ghost var premature: bool

    ghost function Status(): State
      reads this
    {
      State(isStorageReady, isAmsReady, isBmsReady, isDefaultOsAccountActivated, completed, activations, premature)
    }

    constructor (initAccountIds: set<nat>, completed: set<nat>)
      ensures this.initAccountIds == initAccountIds && Status() == Initial(completed)
    {
      this.initAccountIds, this.completed := initAccountIds, completed;
      isStorageReady, isAmsReady, isBmsReady, isDefaultOsAccountActivated := false, false, false, false;
      activations, premature := 0, false;
    }

    /** One query for each initial account. */
    method GetUncreatedInitAccounts(queryFails: set<nat>) returns (initAccounts: set<nat>)
      ensures initAccounts == Uncreated(initAccountIds, completed, queryFails)
    {
      initAccounts := {};
      var todo := initAccountIds;
      while todo != {}
        invariant todo <= initAccountIds
        invariant initAccounts == Uncreated(initAccountIds - todo, completed, queryFails)
        decreases todo
      {
        var id: nat :| id in todo;
        var fails, isAccountCompleted := id in queryFails, id in completed;
        if !fails && !isAccountCompleted {
          initAccounts := initAccounts + {id};
        }
        todo := todo - {id};
      }
      assert initAccountIds - {} == initAccountIds;
    }

    method ActivateDefaultOsAccountAndRestore(io: Io)
      requires !isDefaultOsAccountActivated && isAmsReady
      modifies this
      ensures Status() == Activated(initAccountIds, old(Status()), io)
    {
      if !io.activateOk {
        return;
      }
      isDefaultOsAccountActivated := true;
      activations := activations + 1;
      premature := premature || !(initAccountIds <= completed);
    }

    method OnAddSystemAbility(systemAbility: Ability, io: Io)
      modifies this
      ensures Status() == Arrive(initAccountIds, old(Status()), systemAbility, io)
    {
      match systemAbility {
        case StorageManager => isStorageReady := true;
        case AbilityManager => isAmsReady := true;
        case BundleManager => isBmsReady := true;
        case AnotherAbility => return;
      }
      if !isStorageReady {
        return;
      }
      var initAccounts := GetUncreatedInitAccounts(io.queryFails);
      if initAccounts != {} {
        if !isBmsReady {
          return;
        }
        completed := completed + (initAccounts + {ADMIN_LOCAL_ID}) * io.made;
        if !io.initOk {
          return;
        }
      }
      if !isDefaultOsAccountActivated && isAmsReady {
        ActivateDefaultOsAccountAndRestore(io);
      }
    }
  }
}
