/**
 Sub-profile events on the client side. The event service keeps a two-way index between
 callbacks and event types; the client subscribes with the remote service, under one
 listener, to the types somebody wants. Both are described by a plain relation.
 */
module SubProfileEventsSpec {
  import opened AccountTypes

  const NULL_CALLBACK: nat := 0
  const DISTRIBUTED_SUBSCRIBER_MAX_SIZE := 100
  const ERR_GET_PROXY := IoError(20)
  const ERR_SUBSCRIBE_MAX_SIZE := IoError(21)
  const ERR_NULL_PTR := IoError(22)

  /** (callback, type): the callback wants events of that type. */
  type Relation = set<(nat, nat)>

  function Types(r: Relation): set<nat> {
    set p | p in r :: p.1
  }

  function Callbacks(r: Relation): set<nat> {
    set p | p in r :: p.0
  }

  function Pairs(callback: nat, types: set<nat>): Relation {
    set t | t in types :: (callback, t)
  }

  function TypesOf(r: Relation, callback: nat): set<nat> {
    set p | p in r && p.0 == callback :: p.1
  }

  function Without(r: Relation, callback: nat): Relation {
    set p | p in r && p.0 != callback
  }

  /** The callbacks an event of type `t` is for. */
  function Reached(r: Relation, t: nat): set<nat> {
    set p | p in r && p.1 == t :: p.0
  }

  lemma TypesMeaning(r: Relation, t: nat)
    ensures t in Types(r) <==> Reached(r, t) != {}
    ensures t in Types(r) <==> exists cb: nat :: (cb, t) in r
  {
    if t in Types(r) {
      var p :| p in r && p.1 == t;
      assert p.0 in Reached(r, t) && (p.0, t) in r;
    }
    if cb: nat :| (cb, t) in r {
      assert (cb, t).1 in Types(r);
    }
  }

  lemma EmptyDifference(a: set<nat>, b: set<nat>)
    ensures a - b == {} <==> a <= b
  {
    if a - b == {} {
      forall t | t in a ensures t in b {
        assert t !in a - b;
      }
    }
  }

  lemma TypesGrow(r: Relation, callback: nat, types: set<nat>)
    ensures Types(r + Pairs(callback, types)) == Types(r) + types
  {
    forall t | t in types ensures t in Types(r + Pairs(callback, types)) {
      assert (callback, t) in Pairs(callback, types);
    }
    forall t | t in Types(r) ensures t in Types(r + Pairs(callback, types)) {
      var p :| p in r && p.1 == t;
      assert p in r + Pairs(callback, types);
    }
  }

  /** One call to each of `callbacks`, for an event of type `t`. */
  function Calls(callbacks: set<nat>, t: nat): multiset<(nat, nat)> {
    multiset(set cb | cb in callbacks :: (cb, t))
  }

  lemma CallsGrow(callbacks: set<nat>, cb: nat, t: nat)
    requires cb !in callbacks
    ensures Calls(callbacks + {cb}, t) == Calls(callbacks, t) + multiset{(cb, t)}
  {
    var before := set c | c in callbacks :: (c, t);
    assert (set c | c in callbacks + {cb} :: (c, t)) == before + {(cb, t)};
  }

  // The client and the remote service.

  /** `remote`: the types the service holds for this client's listener. */
  datatype State = State(relation: Relation, remote: set<nat>)

  /** Whether there is a proxy, what the call returns, and whether the service did the work. */
  datatype AnyIo = Io(proxy: bool, result: ErrCode, done: bool)
  type Io = io: AnyIo | io.result == ERR_OK ==> io.done witness Io(true, ERR_OK, true)

  datatype Outcome = Outcome(state: State, err: ErrCode)

  datatype Step =
    | Subscribe(types: set<nat>, callback: nat, io: Io)
    | Unsubscribe(callback: nat, io: Io)
    | ServiceRestarted(io: Io)

  function DoSubscribe(s: State, types: set<nat>, callback: nat, io: Io): Outcome {
    var wanted := types - Types(s.relation);
    var s1 := s.(relation := s.relation + Pairs(callback, types));
    if callback == NULL_CALLBACK || types == {} then Outcome(s, InvalidParameter)
    else if !io.proxy then Outcome(s, ERR_GET_PROXY)
    else if types <= TypesOf(s.relation, callback) then Outcome(s, ERR_OK)
    else if |Callbacks(s.relation)| >= DISTRIBUTED_SUBSCRIBER_MAX_SIZE then Outcome(s, ERR_SUBSCRIBE_MAX_SIZE)
    else if wanted == {} then Outcome(s1, ERR_OK)
    else
      var remote := if io.done then s.remote + wanted else s.remote;
      if io.result == ERR_OK then Outcome(s1.(remote := remote), ERR_OK)
      else Outcome(s.(remote := remote), io.result)
  }

  function DoUnsubscribe(s: State, callback: nat, io: Io): Outcome {
    var rest := Without(s.relation, callback);
    var gone := Types(s.relation) - Types(rest);
    if callback == NULL_CALLBACK then Outcome(s, ERR_NULL_PTR)
    else if !io.proxy then Outcome(s, ERR_GET_PROXY)
    else if gone == {} then Outcome(s.(relation := rest), ERR_OK)
    else
      var remote := if io.done then s.remote - gone else s.remote;
      if io.result == ERR_OK then Outcome(State(rest, remote), ERR_OK)
      else Outcome(s.(remote := remote), io.result)
  }

  /** The service comes back knowing nothing; the client subscribes again and ignores the result. */
  function DoRestart(s: State, io: Io): State {
    s.(remote := if io.proxy && Types(s.relation) != {} && io.done then Types(s.relation) else {})
  }

  function Apply(s: State, step: Step): State {
    match step
    case Subscribe(types, callback, io) => DoSubscribe(s, types, callback, io).state
    case Unsubscribe(callback, io) => DoUnsubscribe(s, callback, io).state
    case ServiceRestarted(io) => DoRestart(s, io)
  }

  function Run(s: State, steps: seq<Step>): State
    decreases |steps|
  {
    if steps == [] then s else Run(Apply(s, steps[0]), steps[1..])
  }

  /** The service forwards exactly the events somebody wants. */
  predicate Agrees(s: State) {
    s.remote == Types(s.relation)
  }

  lemma AgreesMeaning(s: State)
    ensures Agrees(s) <==> forall t: nat :: t in s.remote <==> Reached(s.relation, t) != {}
  {
    forall t: nat ensures t in Types(s.relation) <==> Reached(s.relation, t) != {} {
      TypesMeaning(s.relation, t);
    }
  }

  /** A call that reaches the service is reported as failed, or a restart is not followed by a subscription. */
  predicate Breaks(s: State, step: Step) {
    match step
    case Subscribe(types, callback, io) =>
      callback != NULL_CALLBACK && io.proxy && io.result != ERR_OK && io.done
      && !(types <= Types(s.relation)) && |Callbacks(s.relation)| < DISTRIBUTED_SUBSCRIBER_MAX_SIZE
    case Unsubscribe(callback, io) =>
      callback != NULL_CALLBACK && io.proxy && io.result != ERR_OK && io.done
      && Types(Without(s.relation, callback)) != Types(s.relation)
    case ServiceRestarted(io) => s.relation != {} && !(io.proxy && io.done)
  }

  lemma StepAgrees(s: State, step: Step)
    requires Agrees(s)
    ensures Agrees(Apply(s, step)) <==> !Breaks(s, step)
  {
    match step {
      case Subscribe(types, callback, io) =>
        TypesGrow(s.relation, callback, types);
        assert TypesOf(s.relation, callback) <= Types(s.relation);
        EmptyDifference(types, Types(s.relation));
      case Unsubscribe(callback, io) =>
        var rest := Without(s.relation, callback);
        assert Types(rest) <= Types(s.relation);
        var gone := Types(s.relation) - Types(rest);
        EmptyDifference(Types(s.relation), Types(rest));
        assert Types(s.relation) - gone == Types(rest);
      case ServiceRestarted(io) =>
        if p :| p in s.relation {
          assert p.1 in Types(s.relation);
        }
    }
  }

  predicate AlwaysAgrees(s: State, steps: seq<Step>)
    decreases |steps|
  {
    Agrees(s) && (steps == [] || AlwaysAgrees(Apply(s, steps[0]), steps[1..]))
  }

  predicate NeverBreaks(s: State, steps: seq<Step>)
    decreases |steps|
  {
    steps == [] || (!Breaks(s, steps[0]) && NeverBreaks(Apply(s, steps[0]), steps[1..]))
  }

  /** Over every run, the service knows exactly the wanted types all along iff no step breaks it. */
  lemma {:induction false} RunAgrees(s: State, steps: seq<Step>)
    requires Agrees(s)
    ensures AlwaysAgrees(s, steps) <==> NeverBreaks(s, steps)
    ensures NeverBreaks(s, steps) ==> Agrees(Run(s, steps))
    decreases |steps|
  {
    if steps != [] {
      StepAgrees(s, steps[0]);
      var s1 := Apply(s, steps[0]);
      if Agrees(s1) { RunAgrees(s1, steps[1..]); } else { assert !AlwaysAgrees(s1, steps[1..]); }
    }
  }

  /** The answer to a subscription, and who wants what afterwards; a refusal leaves everybody's wishes as they were. */
  lemma SubscribeMeaning(s: State, types: set<nat>, callback: nat, io: Io)
    ensures
      var o := DoSubscribe(s, types, callback, io);
      && o.err ==
         (if callback == NULL_CALLBACK || types == {} then InvalidParameter
          else if !io.proxy then ERR_GET_PROXY
          else if types <= TypesOf(s.relation, callback) then ERR_OK
          else if |Callbacks(s.relation)| >= DISTRIBUTED_SUBSCRIBER_MAX_SIZE then ERR_SUBSCRIBE_MAX_SIZE
          else if types <= Types(s.relation) then ERR_OK
          else io.result)
      && TypesOf(o.state.relation, callback) ==
         TypesOf(s.relation, callback) + (if o.err == ERR_OK then types else {})
      && forall cb | cb != callback :: TypesOf(o.state.relation, cb) == TypesOf(s.relation, cb)
  {
    EmptyDifference(types, Types(s.relation));
    PairsAdded(s.relation, callback, types);
    if types <= TypesOf(s.relation, callback) {
      assert TypesOf(s.relation, callback) + types == TypesOf(s.relation, callback);
    }
  }

  lemma PairsAdded(r: Relation, callback: nat, types: set<nat>)
    ensures TypesOf(r + Pairs(callback, types), callback) == TypesOf(r, callback) + types
    ensures forall cb | cb != callback :: TypesOf(r + Pairs(callback, types), cb) == TypesOf(r, cb)
  {
    var r' := r + Pairs(callback, types);
    forall cb: nat, t: nat
      ensures t in TypesOf(r', cb) <==> t in TypesOf(r, cb) || (cb == callback && t in types)
    {
      assert t in TypesOf(r', cb) <==> (cb, t) in r';
      assert t in TypesOf(r, cb) <==> (cb, t) in r;
      assert (cb, t) in Pairs(callback, types) <==> cb == callback && t in types;
    }
  }

  /** The answer to an unsubscription: on success the callback wants nothing any more, and nobody else is touched. */
  lemma UnsubscribeMeaning(s: State, callback: nat, io: Io)
    ensures
      var o := DoUnsubscribe(s, callback, io);
      && o.err ==
         (if callback == NULL_CALLBACK then ERR_NULL_PTR
          else if !io.proxy then ERR_GET_PROXY
          else if forall t | t in TypesOf(s.relation, callback) ::
                    exists cb: nat :: cb != callback && (cb, t) in s.relation
          then ERR_OK
          else io.result)
      && TypesOf(o.state.relation, callback) == (if o.err == ERR_OK then {} else TypesOf(s.relation, callback))
      && forall cb | cb != callback :: TypesOf(o.state.relation, cb) == TypesOf(s.relation, cb)
  {
    var rest := Without(s.relation, callback);
    EmptyDifference(Types(s.relation), Types(rest));
    forall t | t in TypesOf(s.relation, callback)
      ensures t in Types(rest) <==> exists cb: nat :: cb != callback && (cb, t) in s.relation
    {
      if cb: nat :| cb != callback && (cb, t) in s.relation {
        assert (cb, t) in rest;
      }
    }
    forall t | t in Types(s.relation) && t !in TypesOf(s.relation, callback) ensures t in Types(rest) {
      var p :| p in s.relation && p.1 == t;
      assert p in rest;
    }
    assert forall t | t in TypesOf(s.relation, callback) :: (callback, t) in s.relation && t in Types(s.relation);
  }

  function Answer(s: State, step: Step): ErrCode {
    match step
    case Subscribe(types, callback, io) => DoSubscribe(s, types, callback, io).err
    case Unsubscribe(callback, io) => DoUnsubscribe(s, callback, io).err
    case ServiceRestarted(_) => ERR_OK
  }

  /** What callbacks want as far as their callers know: only acknowledged calls count. */
  function Acknowledged(wants: Relation, step: Step, answer: ErrCode): Relation {
    if answer != ERR_OK then wants
    else match step
      case Subscribe(types, callback, _) => wants + set t | t in types :: (callback, t)
      case Unsubscribe(callback, _) => set p | p in wants && p.0 != callback
      case ServiceRestarted(_) => wants
  }

  function AllAcknowledged(s: State, wants: Relation, steps: seq<Step>): Relation
    decreases |steps|
  {
    if steps == [] then wants
    else AllAcknowledged(Apply(s, steps[0]), Acknowledged(wants, steps[0], Answer(s, steps[0])), steps[1..])
  }

  /** Over every run: the index holds exactly what the acknowledged calls add up to. */
  lemma {:induction false} RunRecordsTheAcknowledged(s: State, steps: seq<Step>)
    ensures Run(s, steps).relation == AllAcknowledged(s, s.relation, steps)
    decreases |steps|
  {
    if steps != [] {
      StepRecordsTheAcknowledged(s, steps[0]);
      RunRecordsTheAcknowledged(Apply(s, steps[0]), steps[1..]);
    }
  }

  lemma StepRecordsTheAcknowledged(s: State, step: Step)
    ensures Apply(s, step).relation == Acknowledged(s.relation, step, Answer(s, step))
  {
    match step
    case Subscribe(types, callback, io) =>
      if types <= TypesOf(s.relation, callback) {
        forall t | t in types ensures (callback, t) in s.relation {
          assert t in TypesOf(s.relation, callback);
        }
        assert s.relation + (set t | t in types :: (callback, t)) == s.relation;
      }
    case Unsubscribe(callback, io) =>
    case ServiceRestarted(_) =>
  }

  /** Unsubscribing undoes subscribing for a callback that was not there, service included. */
  lemma UnsubscribeUndoesSubscribe(s: State, types: set<nat>, callback: nat, io: Io, back: Io)
    requires Agrees(s) && callback !in Callbacks(s.relation)
    requires DoSubscribe(s, types, callback, io).err == ERR_OK
    ensures
      var r := DoUnsubscribe(DoSubscribe(s, types, callback, io).state, callback, back);
      r.err == ERR_OK ==> r.state == s
  {
    var s1 := DoSubscribe(s, types, callback, io).state;
    forall p | p in s.relation ensures p.0 != callback {
      assert p.0 in Callbacks(s.relation);
    }
    assert TypesOf(s.relation, callback) == {};
    assert s1.relation == s.relation + Pairs(callback, types);
    assert Without(s1.relation, callback) == s.relation;
    TypesGrow(s.relation, callback, types);
    assert s.remote + (types - Types(s.relation)) - (Types(s1.relation) - Types(s.relation)) == s.remote;
  }
}

module SubProfileEvents {
  import opened AccountTypes
  import opened SubProfileEventsSpec

  /** `x` is linked to `y` in an index. */
  predicate Linked(index: map<nat, set<nat>>, x: nat, y: nat) {
    x in index && y in index[x]
  }

  predicate NoEmptySets(index: map<nat, set<nat>>) {
    forall x | x in index :: index[x] != {}
  }

  ghost predicate Inverse(a: map<nat, set<nat>>, b: map<nat, set<nat>>) {
    forall x, y :: Linked(a, x, y) <==> Linked(b, y, x)
  }

  function Flatten(index: map<nat, set<nat>>): Relation {
    set x, y | x in index && y in index[x] :: (x, y)
  }

  /** What the two indexes say about the relation they hold. */
  lemma IndexMeaning(callbackMap: map<nat, set<nat>>, typeMap: map<nat, set<nat>>)
    requires Inverse(callbackMap, typeMap) && NoEmptySets(callbackMap) && NoEmptySets(typeMap)
    ensures
      var r := Flatten(callbackMap);
      && callbackMap.Keys == Callbacks(r) && typeMap.Keys == Types(r)
      && (forall cb | cb in callbackMap :: callbackMap[cb] == TypesOf(r, cb))
      && (forall t | t in typeMap :: typeMap[t] == Reached(r, t))
  {
    var r := Flatten(callbackMap);
    forall cb | cb in callbackMap
      ensures callbackMap[cb] == TypesOf(r, cb) && cb in Callbacks(r)
    {
      forall t | t in callbackMap[cb] ensures t in TypesOf(r, cb) {
        assert (cb, t) in r;
      }
      var t :| t in callbackMap[cb];
      assert (cb, t) in r;
    }
    forall t | t in typeMap
      ensures typeMap[t] == Reached(r, t) && t in Types(r)
    {
      forall cb | cb in typeMap[t] ensures cb in Reached(r, t) {
        assert Linked(typeMap, t, cb) && Linked(callbackMap, cb, t);
        assert (cb, t) in r;
      }
      forall cb | cb in Reached(r, t) ensures cb in typeMap[t] {
        assert Linked(callbackMap, cb, t) && Linked(typeMap, t, cb);
      }
      var cb :| cb in typeMap[t];
      assert cb in Reached(r, t);
    }
    forall t | t in Types(r) ensures t in typeMap {
      var p :| p in r && p.1 == t;
      assert Linked(callbackMap, p.0, t) && Linked(typeMap, t, p.0);
    }
  }

  /** Taking `y` out of the set of `x`, and `x` out with its last element, cuts that link and no other. */
  lemma Unlinked(index: map<nat, set<nat>>, x: nat, y: nat)
    requires x in index && NoEmptySets(index)
    ensures
      var left := index[x] - {y};
      var index' := if left == {} then index[x := left] - {x} else index[x := left];
      && NoEmptySets(index')
      && forall u: nat, v: nat :: Linked(index', u, v) <==> Linked(index, u, v) && !(u == x && v == y)
  {
    assert forall v: nat | v in index[x] && v != y :: v in index[x] - {y};
  }

  class OsAccountSubProfileEventService {
    var callbackMap: map<nat, set<nat>>
    var typeMap: map<nat, set<nat>>
    /** Every call made to a callback: which one, for an event of which type. */
    ghost var calls: multiset<(nat, nat)>

    ghost predicate Valid()
      reads this
    {
      Inverse(callbackMap, typeMap) && NoEmptySets(callbackMap) && NoEmptySets(typeMap)
    }

    ghost function Contents(): Relation
      reads this
    {
      Flatten(callbackMap)
    }

    constructor ()
      ensures Valid() && Contents() == {} && calls == multiset{}
    {
      callbackMap, typeMap := map[], map[];
      calls := multiset{};
    }

    method GetCallbackSize() returns (n: nat)
      requires Valid()
      ensures n == |Callbacks(Contents())|
    {
      IndexMeaning(callbackMap, typeMap);
      return |callbackMap.Keys|;
    }

    method IsAllTypeExist(types: set<nat>, callback: nat) returns (all: bool)
      requires Valid()
      ensures all <==> callback != NULL_CALLBACK && types != {} && types <= TypesOf(Contents(), callback)
    {
      IndexMeaning(callbackMap, typeMap);
      if callback == NULL_CALLBACK || types == {} {
        return false;
      }
      if callback !in callbackMap {
        assert TypesOf(Contents(), callback) == {};
        return false;
      }
      var todo := types;
      while todo != {}
        invariant todo <= types && types - todo <= callbackMap[callback]
        decreases todo
      {
        var t: nat :| t in todo;
        if t !in callbackMap[callback] {
          return false;
        }
        todo := todo - {t};
      }
      return true;
    }

    method AddTypes(types: set<nat>, callback: nat)
      requires Valid()
      modifies this`callbackMap, this`typeMap
      ensures Valid()
      ensures Contents() == if callback == NULL_CALLBACK then old(Contents())
                            else old(Contents()) + Pairs(callback, types)
    {
      if callback == NULL_CALLBACK || types == {} {
        assert Pairs(callback, {}) == {};
        return;
      }
      if callback !in callbackMap {
        callbackMap := callbackMap[callback := types];
      } else {
        callbackMap := callbackMap[callback := callbackMap[callback] + types];
      }
      ghost var callbacks := callbackMap;
      assert callbacks[callback] != {} by {
        var t: nat :| t in types;
        assert t in callbacks[callback];
      }
      var todo := types;
      while todo != {}
        invariant todo <= types && NoEmptySets(typeMap) && callbackMap == callbacks
        invariant forall t: nat, cb: nat :: Linked(typeMap, t, cb)
                    <==> Linked(old(typeMap), t, cb) || (cb == callback && t in types - todo)
        decreases todo
      {
        var t: nat :| t in todo;
        if t !in typeMap {
          typeMap := typeMap[t := {callback}];
        } else {
          typeMap := typeMap[t := typeMap[t] + {callback}];
        }
        todo := todo - {t};
      }
      forall t: nat, cb: nat ensures Linked(callbackMap, cb, t) <==> Linked(typeMap, t, cb) {
        assert Linked(old(callbackMap), cb, t) <==> Linked(old(typeMap), t, cb);
      }
      assert forall cb: nat, t: nat :: (cb, t) in Contents() <==> Linked(callbackMap, cb, t);
    }

    method DeleteCallback(callback: nat)
      requires Valid()
      modifies this`callbackMap, this`typeMap
      ensures Valid()
      ensures Contents() == if callback == NULL_CALLBACK then old(Contents()) else Without(old(Contents()), callback)
    {
      if callback == NULL_CALLBACK {
        return;
      }
      if callback !in callbackMap {
        assert Without(Contents(), callback) == Contents();
        return;
      }
      var callbackTypes := callbackMap[callback];
      callbackMap := callbackMap - {callback};
      ghost var callbacks := callbackMap;
      var todo := callbackTypes;
      while todo != {}
        invariant todo <= callbackTypes && NoEmptySets(typeMap) && callbackMap == callbacks
        invariant forall t: nat, cb: nat :: Linked(typeMap, t, cb)
                    <==> Linked(old(typeMap), t, cb) && !(cb == callback && t in callbackTypes - todo)
        decreases todo
      {
        var t: nat :| t in todo;
        if t in typeMap {
          Unlinked(typeMap, t, callback);
          ghost var before := typeMap;
          typeMap := typeMap[t := typeMap[t] - {callback}];
          if typeMap[t] == {} {
            typeMap := typeMap - {t};
          }
          assert forall u: nat, v: nat :: Linked(typeMap, u, v) <==> Linked(before, u, v) && !(u == t && v == callback);
        }
        todo := todo - {t};
      }
      forall t: nat, cb: nat ensures Linked(callbackMap, cb, t) <==> Linked(typeMap, t, cb) {
        assert Linked(old(callbackMap), cb, t) <==> Linked(old(typeMap), t, cb);
      }
    }

    /** Adds to `removedTypes` the types that would have no callback left without this one. */
    method GetTypesToRemove(callback: nat, removedTypes: set<nat>) returns (removed: set<nat>)
      requires Valid()
      ensures callback == NULL_CALLBACK ==> removed == removedTypes
      ensures callback != NULL_CALLBACK ==>
                removed == removedTypes + (Types(Contents()) - Types(Without(Contents(), callback)))
    {
      removed := removedTypes;
      if callback == NULL_CALLBACK {
        return;
      }
      if callback !in callbackMap {
        assert Without(Contents(), callback) == Contents();
        return;
      }
      var todo := callbackMap[callback];
      ghost var lonely := set t | t in callbackMap[callback] && t in typeMap && |typeMap[t]| == 1;
      while todo != {}
        invariant todo <= callbackMap[callback]
        invariant removed == removedTypes + (lonely - todo)
        decreases todo
      {
        var t: nat :| t in todo;
        if t in typeMap {
          if |typeMap[t]| == 1 {
            removed := removed + {t};
          }
        }
        todo := todo - {t};
      }
      VanishingTypes(callback, lonely);
    }

    /** The types that only `callback` wants are those that go with it. */
    lemma VanishingTypes(callback: nat, lonely: set<nat>)
      requires Valid() && callback in callbackMap
      requires lonely == set t | t in callbackMap[callback] && t in typeMap && |typeMap[t]| == 1
      ensures lonely == Types(Contents()) - Types(Without(Contents(), callback))
    {
      IndexMeaning(callbackMap, typeMap);
      var r, rest := Contents(), Without(Contents(), callback);
      forall t | t in typeMap
        ensures t in lonely <==> t !in Types(rest)
      {
        TypesMeaning(rest, t);
        assert Reached(rest, t) == typeMap[t] - {callback};
        if t in lonely {
          assert Linked(callbackMap, callback, t) && Linked(typeMap, t, callback);
          assert |typeMap[t] - {callback}| == 0;
        }
      }
    }

    method GetAllType(typeList: set<nat>) returns (all: set<nat>)
      requires Valid()
      ensures all == typeList + Types(Contents())
    {
      IndexMeaning(callbackMap, typeMap);
      all := typeList;
      var todo := typeMap.Keys;
      while todo != {}
        invariant todo <= typeMap.Keys && all == typeList + (typeMap.Keys - todo)
        decreases todo
      {
        var t: nat :| t in todo;
        all := all + {t};
        todo := todo - {t};
      }
    }

    /** Hands the event to every callback of its type, once, and to nobody else. */
    method OnSubProfileChanged(t: nat)
      requires Valid()
      modifies this`calls
      ensures calls == old(calls) + Calls(Reached(Contents(), t), t)
    {
      IndexMeaning(callbackMap, typeMap);
      if t !in typeMap {
        TypesMeaning(Contents(), t);
        return;
      }
      var callbacks := typeMap[t];
      var todo := callbacks;
      while todo != {}
        invariant todo <= callbacks
        invariant calls == old(calls) + Calls(callbacks - todo, t)
        decreases todo
      {
        var cb: nat :| cb in todo;
        CallsGrow(callbacks - todo, cb, t);
        assert callbacks - (todo - {cb}) == callbacks - todo + {cb};
        calls := calls + multiset{(cb, t)};
        todo := todo - {cb};
      }
      assert callbacks - {} == callbacks;
    }
  }

  class OsAccountSubProfileClient {
    const service: OsAccountSubProfileEventService
    /** What the remote service holds; only remote calls change it. */
    ghost var remote: set<nat>

    ghost function State(): SubProfileEventsSpec.State
      reads this, service
    {
      SubProfileEventsSpec.State(service.Contents(), remote)
    }

    constructor (service: OsAccountSubProfileEventService)
      ensures this.service == service && remote == {}
    {
      this.service := service;
      remote := {};
    }

    method SubscribeNewTypesToService(types: set<nat>, io: Io) returns (err: ErrCode)
      modifies this
      ensures remote == (if io.done then old(remote) + types else old(remote)) && err == io.result
    {
      if io.done {
        remote := remote + types;
      }
      return io.result;
    }

    method GetNewSubProfileEventTypes(types: set<nat>) returns (newTypes: set<nat>)
      requires service.Valid()
      ensures newTypes == types - Types(service.Contents())
    {
      var existingTypes := service.GetAllType({});
      newTypes := {};
      var todo := types;
      while todo != {}
        invariant todo <= types && newTypes == (types - todo) - existingTypes
        decreases todo
      {
        var t: nat :| t in todo;
        if t !in existingTypes {
          newTypes := newTypes + {t};
        }
        todo := todo - {t};
      }
    }

    method SubscribeOsAccountSubProfileEvents(types: set<nat>, callback: nat, io: Io) returns (err: ErrCode)
      requires service.Valid()
      modifies this, service
      ensures service.Valid()
      ensures Outcome(State(), err) == DoSubscribe(old(State()), types, callback, io)
    {
      if callback == NULL_CALLBACK || types == {} {
        return InvalidParameter;
      }
      if !io.proxy {
        return ERR_GET_PROXY;
      }
      var all := service.IsAllTypeExist(types, callback);
      if all {
        return ERR_OK;
      }
      var size := service.GetCallbackSize();
      if size >= DISTRIBUTED_SUBSCRIBER_MAX_SIZE {
        return ERR_SUBSCRIBE_MAX_SIZE;
      }
      var newTypes := GetNewSubProfileEventTypes(types);
      err := ERR_OK;
      if newTypes != {} {
        err := SubscribeNewTypesToService(newTypes, io);
      }
      if err == ERR_OK {
        service.AddTypes(types, callback);
      }
    }

    method UnsubscribeOsAccountSubProfileEvents(callback: nat, io: Io) returns (err: ErrCode)
      requires service.Valid()
      modifies this, service
      ensures service.Valid()
      ensures Outcome(State(), err) == DoUnsubscribe(old(State()), callback, io)
    {
      if callback == NULL_CALLBACK {
        return ERR_NULL_PTR;
      }
      if !io.proxy {
        return ERR_GET_PROXY;
      }
      var removedTypes := service.GetTypesToRemove(callback, {});
      if removedTypes == {} {
        service.DeleteCallback(callback);
        return ERR_OK;
      }
      if io.done {
        remote := remote - removedTypes;
      }
      if io.result != ERR_OK {
        return io.result;
      }
      service.DeleteCallback(callback);
      return ERR_OK;
    }

    /** The service restarted and the client subscribes again. */
    method RestoreSubscribe(io: Io)
      requires service.Valid()
      modifies this
      ensures State() == DoRestart(old(State()), io)
    {
      remote := {};
      if !io.proxy {
        return;
      }
      var existingTypes := service.GetAllType({});
      if existingTypes == {} {
        return;
      }
      var _ := SubscribeNewTypesToService(existingTypes, io);
    }
  }
}
