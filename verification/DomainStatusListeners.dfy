/**
 Account-status listeners of the domain account client: a local set of listeners behind
 one callback that is registered with the service while the set is not empty.
 */
module DomainListenersSpec {
  import opened AccountTypes

  /**
   `managed`: the listener manager exists. `callback`: the callback object exists.
   `registered`: the service holds the callback; this is the service's own state.
   */
  datatype State = State(managed: bool, listeners: set<nat>, callback: bool, registered: bool)

  const INITIAL := State(false, {}, false, false)

  datatype Outcome = Outcome(state: State, err: ErrCode)

  /**
   Whether a proxy is obtained, what the remote call returns, and whether the service did it:
   what is reported as failed may have been done.
   */
  datatype AnyRemote = Remote(proxy: bool, result: ErrCode, done: bool)

  /** A reported success is one. */
  type Remote = r: AnyRemote | r.result == ERR_OK ==> r.done witness Remote(true, ERR_OK, true)

  datatype Step =
    | Register(listener: nat, remote: Remote)
    | Unregister(listener: nat, remote: Remote)
    | ServiceRestarted(remote: Remote)

  function DoRegister(s: State, listener: nat, remote: Remote): Outcome {
    var s1 := s.(managed := true);
    if s.listeners != {} then Outcome(s1.(listeners := s.listeners + {listener}), ERR_OK)
    else
      var s2 := s1.(callback := true);
      if !remote.proxy then Outcome(s2, IoError(2))
      else
        var s3 := s2.(registered := s.registered || remote.done);
        if remote.result != ERR_OK then Outcome(s3, remote.result)
        else Outcome(s3.(listeners := {listener}), ERR_OK)
  }

  function DoUnregister(s: State, listener: nat, remote: Remote): Outcome {
    if !s.managed then Outcome(s, IoError(3))
    else if !remote.proxy then Outcome(s, IoError(2))
    else if s.listeners - {listener} != {} then Outcome(s.(listeners := s.listeners - {listener}), ERR_OK)
    else
      var registered := s.registered && !remote.done;
      if remote.result != ERR_OK then Outcome(s.(listeners := {listener}, registered := registered), remote.result)
      else Outcome(State(false, {}, false, registered), ERR_OK)
  }

  /** The service comes back knowing nobody; the client registers again, ignoring the result. */
  function DoRestart(s: State, remote: Remote): State {
    s.(registered := s.managed && remote.proxy && s.listeners != {} && remote.done)
  }

  function Apply(s: State, step: Step): State {
    match step
    case Register(listener, remote) => DoRegister(s, listener, remote).state
    case Unregister(listener, remote) => DoUnregister(s, listener, remote).state
    case ServiceRestarted(remote) => DoRestart(s, remote)
  }

  function Run(s: State, steps: seq<Step>): State
    decreases |steps|
  {
    if steps == [] then s else Run(Apply(s, steps[0]), steps[1..])
  }

  /** Listeners live in a manager, and behind a callback. */
  predicate Valid(s: State) {
    (s.listeners != {} ==> s.managed) && (s.managed ==> s.callback)
  }

  /** Somebody listens exactly when the service knows the callback. */
  predicate Agrees(s: State) {
    s.listeners != {} <==> s.registered
  }

  /**
   A registration, or an unregistration of the last listener, is reported as failed after the
   service did it; unregistering with nothing recorded, when the remote call fails, records the
   listener; and a failed registration after a restart goes unnoticed.
   */
  predicate Breaks(s: State, step: Step) {
    match step
    case Register(_, remote) => s.listeners == {} && remote.proxy && remote.result != ERR_OK && remote.done
    case Unregister(listener, remote) =>
      && s.managed && remote.proxy && s.listeners <= {listener} && remote.result != ERR_OK
      && (remote.done || s.listeners == {})
    case ServiceRestarted(remote) => s.listeners != {} && !(remote.proxy && remote.done)
  }

  lemma StepKeepsValid(s: State, step: Step)
    requires Valid(s)
    ensures Valid(Apply(s, step))
  {
  }

  lemma StepAgrees(s: State, step: Step)
    requires Valid(s) && Agrees(s)
    ensures Agrees(Apply(s, step)) <==> !Breaks(s, step)
  {
    if step.Unregister? {
      assert s.listeners - {step.listener} == {} <==> s.listeners <= {step.listener};
      assert step.listener in {step.listener};
    }
  }

  predicate AlwaysAgrees(s: State, steps: seq<Step>)
    decreases |steps|
  {
    Agrees(s) && (steps == [] || AlwaysAgrees(Apply(s, steps[0]), steps[1..]))
  }

  predicate NeverBreaks(s: State, steps: seq<Step>)
    decreases |steps|
  {
    steps == [] || (!Breaks(s, steps[0]) && NeverBreaks(Apply(s, steps[0]), steps[1..]))
  }

  /**
   Only recorded listeners are unregistered, what is reported as failed was not done, and every
   restart is followed by a registration that is.
   */
  predicate Orderly(s: State, steps: seq<Step>)
    decreases |steps|
  {
    steps == [] ||
    ((steps[0].Unregister? ==> steps[0].listener in s.listeners)
     && (!steps[0].ServiceRestarted? && steps[0].remote.result != ERR_OK ==> !steps[0].remote.done)
     && (steps[0].ServiceRestarted? ==> steps[0].remote.proxy && steps[0].remote.done)
     && Orderly(Apply(s, steps[0]), steps[1..]))
  }

  /** Over every run: agreement all along exactly when no step breaks it; orderly runs never do. */
  lemma {:induction false} RunAgrees(s: State, steps: seq<Step>)
    requires Valid(s) && Agrees(s)
    ensures AlwaysAgrees(s, steps) <==> NeverBreaks(s, steps)
    ensures NeverBreaks(s, steps) ==> Agrees(Run(s, steps))
    ensures Orderly(s, steps) ==> NeverBreaks(s, steps)
    decreases |steps|
  {
    if steps != [] {
      var s1 := Apply(s, steps[0]);
      StepKeepsValid(s, steps[0]);
      StepAgrees(s, steps[0]);
      if Agrees(s1) { RunAgrees(s1, steps[1..]); } else { assert !AlwaysAgrees(s1, steps[1..]); }
    }
  }

  /** What a registration answers, and who is recorded afterwards. */
  lemma RegisterMeaning(s: State, listener: nat, remote: Remote)
    ensures
      var o := DoRegister(s, listener, remote);
      && o.state.managed && (o.state.callback <==> s.callback || s.listeners == {})
      && o.err == (if s.listeners != {} then ERR_OK else if !remote.proxy then IoError(2) else remote.result)
      && o.state.listeners == (if o.err == ERR_OK then s.listeners + {listener} else s.listeners)
  {
  }

  /** A failing service puts the listener it was asked to take away back, recorded before or not. */
  predicate Reinserts(s: State, step: Step) {
    step.Unregister? && s.managed && s.listeners == {} && step.remote.proxy && step.remote.result != ERR_OK
  }

  lemma UnregisterMeaning(s: State, listener: nat, remote: Remote)
    ensures
      var o := DoUnregister(s, listener, remote);
      && o.err ==
         (if !s.managed then IoError(3)
          else if !remote.proxy then IoError(2)
          else if s.listeners <= {listener} then remote.result
          else ERR_OK)
      && (o.state.managed <==> s.managed && !(o.err == ERR_OK && s.listeners <= {listener}))
      && (o.state.callback <==> s.callback && !(o.err == ERR_OK && s.listeners <= {listener}))
      && (o.err == ERR_OK ==> o.state.listeners == s.listeners - {listener})
      && (o.err != ERR_OK ==>
            o.state.listeners == if Reinserts(s, Unregister(listener, remote)) then {listener} else s.listeners)
  {
    assert s.listeners - {listener} == {} <==> s.listeners <= {listener};
    if s.listeners <= {listener} && s.listeners != {} {
      var l :| l in s.listeners;
      assert s.listeners == {listener};
    }
  }

  function Answer(s: State, step: Step): ErrCode {
    match step
    case Register(listener, remote) => DoRegister(s, listener, remote).err
    case Unregister(listener, remote) => DoUnregister(s, listener, remote).err
    case ServiceRestarted(_) => ERR_OK
  }

  /** Whom the callers take to be recorded: those whose registration, and no unregistration since, was acknowledged. */
  function Acknowledged(believed: set<nat>, step: Step, answer: ErrCode): set<nat> {
    if answer != ERR_OK then believed
    else match step
      case Register(listener, _) => believed + {listener}
      case Unregister(listener, _) => believed - {listener}
      case ServiceRestarted(_) => believed
  }

  predicate AlwaysAsBelieved(s: State, believed: set<nat>, steps: seq<Step>)
    decreases |steps|
  {
    s.listeners == believed
    && (steps == [] ||
        AlwaysAsBelieved(Apply(s, steps[0]), Acknowledged(believed, steps[0], Answer(s, steps[0])), steps[1..]))
  }

  predicate NeverReinserts(s: State, steps: seq<Step>)
    decreases |steps|
  {
    steps == [] || (!Reinserts(s, steps[0]) && NeverReinserts(Apply(s, steps[0]), steps[1..]))
  }

  /** Over every run: the recorded listeners are what the acknowledged calls add up to, unless one is put back. */
  lemma {:induction false} RunRecordsTheAcknowledged(s: State, steps: seq<Step>)
    ensures AlwaysAsBelieved(s, s.listeners, steps) <==> NeverReinserts(s, steps)
    decreases |steps|
  {
    if steps != [] {
      var step := steps[0];
      var s1, believed := Apply(s, step), Acknowledged(s.listeners, step, Answer(s, step));
      match step {
        case Register(listener, remote) => RegisterMeaning(s, listener, remote);
        case Unregister(listener, remote) => UnregisterMeaning(s, listener, remote);
        case ServiceRestarted(_) =>
      }
      assert s1.listeners == believed <==> !Reinserts(s, step);
      if s1.listeners == believed {
        RunRecordsTheAcknowledged(s1, steps[1..]);
      } else {
        assert !AlwaysAsBelieved(s1, believed, steps[1..]);
      }
    }
  }

  /** An unrecorded listener, a failing service: afterwards it is recorded and nobody will call it. */
  lemma UnrecordedListenerAppears(listener: nat, other: nat, e: Failure)
    ensures
      var failed := Remote(true, e, false);
      var s := Run(INITIAL, [Register(other, failed), Unregister(listener, failed)]);
      s.listeners == {listener} && !s.registered
  {
    var failed := Remote(true, e, false);
    var first, second := Register(other, failed), Unregister(listener, failed);
    var s1 := Apply(INITIAL, first);
    assert [first, second][1..] == [second] && [second][1..] == [];
    assert Run(s1, [second]) == Apply(s1, second);
    assert s1.listeners - {listener} == {};
  }

  /** A first registration that the service did and the client takes for failed: nobody listens behind the callback. */
  lemma DoneBehindTheBack(listener: nat, e: Failure)
    ensures
      var s := Run(INITIAL, [Register(listener, Remote(true, e, true))]);
      s.listeners == {} && s.registered
  {
    var step := Register(listener, Remote(true, e, true));
    assert [step][1..] == [];
    assert Run(INITIAL, [step]) == Apply(INITIAL, step);
  }
}

module DomainStatusListeners {
  import opened AccountTypes
  import Spec = DomainListenersSpec

  class DomainAccountStatusListenerManager {
    var listenerAll: set<nat>

    constructor ()
      ensures listenerAll == {}
    {
      listenerAll := {};
    }

    method InsertRecord(listener: nat)
      modifies this
      ensures listenerAll == old(listenerAll) + {listener}
    {
      if listener in listenerAll {
        return;
      }
      listenerAll := listenerAll + {listener};
    }

    method RemoveRecord(listener: nat)
      modifies this
      ensures listenerAll == old(listenerAll) - {listener}
    {
      if listener !in listenerAll {
        return;
      }
      listenerAll := listenerAll - {listener};
    }

    predicate IsRecordEmpty()
      reads this
    {
      listenerAll == {}
    }
  }

  class DomainAccountClient {
    var listenerManager: DomainAccountStatusListenerManager?
    var callback: bool
    ghost var registered: bool

    ghost function State(): Spec.State
      reads this, listenerManager
    {
      Spec.State(listenerManager != null, if listenerManager == null then {} else listenerManager.listenerAll,
                 callback, registered)
    }

    constructor ()
      ensures State() == Spec.INITIAL
    {
      listenerManager := null;
      callback, registered := false, false;
    }

    method RegisterAccountStatusListener(listener: nat, remote: Spec.Remote) returns (err: ErrCode)
      modifies this, listenerManager
      ensures Spec.Outcome(State(), err) == Spec.DoRegister(old(State()), listener, remote)
      ensures old(listenerManager) == null || listenerManager == old(listenerManager)
      ensures listenerManager != old(listenerManager) ==> fresh(listenerManager)
    {
      if listenerManager == null {
        listenerManager := new DomainAccountStatusListenerManager();
      }
      if !listenerManager.IsRecordEmpty() {
        listenerManager.InsertRecord(listener);
        return ERR_OK;
      }
      if !callback {
        callback := true;
      }
      if !remote.proxy {
        return IoError(2);
      }
      registered := registered || remote.done;
      err := remote.result;
      if err == ERR_OK {
        listenerManager.InsertRecord(listener);
      }
    }

    method UnregisterAccountStatusListener(listener: nat, remote: Spec.Remote) returns (err: ErrCode)
      modifies this, listenerManager
      ensures Spec.Outcome(State(), err) == Spec.DoUnregister(old(State()), listener, remote)
    {
      if listenerManager == null {
        return IoError(3);
      }
      if !remote.proxy {
        return IoError(2);
      }
      listenerManager.RemoveRecord(listener);
      if !listenerManager.IsRecordEmpty() {
        return ERR_OK;
      }
      registered := registered && !remote.done;
      err := remote.result;
      if err != ERR_OK {
        listenerManager.InsertRecord(listener);
        return;
      }
      listenerManager := null;
      callback := false;
    }

    /** The service restarted; `RestoreListenerRecords` registers the callback again. */
    method RestoreListenerRecords(remote: Spec.Remote)
      modifies this
      ensures State() == Spec.DoRestart(old(State()), remote)
    {
      registered := false;
      if listenerManager == null {
        return;
      }
      if !remote.proxy {
        return;
      }
      if !listenerManager.IsRecordEmpty() {
        registered := remote.done;
      }
    }
  }
}
