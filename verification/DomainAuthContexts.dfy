/**
 Pending authentications of the domain account client: the wrap-around context id
 allocator, the map of pending contexts, and the callbacks and service death that empty it.

 Every started authentication gets a serial number (`token`), so that an id used twice
 can be told apart.
 */
module DomainAuthSpec {
  import opened AccountTypes

  const UINT32_MAX := 0xFFFF_FFFF
  const CONTEXT_ID_HIGH := 0x1_0000_0000

  /**
   `pending`: id to token, the client's map. `ids`: the id every token was given.
   `live`: authentications begun, and neither answered, failed nor reset.
   `notified`: how often each token's callback was called.
   */
  datatype State = State(count: nat, pending: map<nat, nat>, ids: seq<nat>, live: set<nat>, notified: multiset<nat>)

  const INITIAL := State(0, map[], [], {}, multiset{})

  datatype Step =
    | Start(proxy: bool, accepted: bool)
    | Answer(token: nat)
    | ServiceDied

  function ContextId(uid: nat, low: nat): nat {
    uid * CONTEXT_ID_HIGH + low
  }

  /** The low word tried first. */
  function Candidate(count: nat): nat {
    if count >= UINT32_MAX then 1 else count + 1
  }

  /** A low word the scan loop considers, and that is free. */
  ghost predicate ScanFree(pending: map<nat, nat>, uid: nat, low: nat) {
    1 <= low < UINT32_MAX && ContextId(uid, low) !in pending
  }

  /** The candidate if it is free, else the least free low word below the maximum. */
  ghost predicate Picks(pending: map<nat, nat>, uid: nat, count: nat, r: Option<nat>) {
    var first := Candidate(count);
    if ContextId(uid, first) !in pending then r == Some(first)
    else match r
      case None => forall low :: !ScanFree(pending, uid, low)
      case Some(low) => ScanFree(pending, uid, low) && forall other | ScanFree(pending, uid, other) :: low <= other
  }

  lemma PicksIsUnique(pending: map<nat, nat>, uid: nat, count: nat, r: Option<nat>, q: Option<nat>)
    requires Picks(pending, uid, count, r) && Picks(pending, uid, count, q)
    ensures r == q
  {
    if ContextId(uid, Candidate(count)) in pending {
      if r.Some? { assert ScanFree(pending, uid, r.value); }
      if q.Some? { assert ScanFree(pending, uid, q.value); }
    }
  }

  lemma {:induction false} LeastFree(pending: map<nat, nat>, uid: nat, from: nat, bound: nat) returns (low: nat)
    requires 1 <= from <= bound
    requires ScanFree(pending, uid, bound)
    requires forall other | ScanFree(pending, uid, other) :: from <= other
    ensures ScanFree(pending, uid, low)
    ensures forall other | ScanFree(pending, uid, other) :: low <= other
    decreases bound - from
  {
    if ScanFree(pending, uid, from) {
      low := from;
    } else {
      assert forall other | ScanFree(pending, uid, other) :: from + 1 <= other;
      low := LeastFree(pending, uid, from + 1, bound);
    }
  }

  lemma SomethingPicked(pending: map<nat, nat>, uid: nat, count: nat)
    ensures exists r :: Picks(pending, uid, count, r)
  {
    if ContextId(uid, Candidate(count)) !in pending {
      assert Picks(pending, uid, count, Some(Candidate(count)));
    } else if bound :| ScanFree(pending, uid, bound) {
      var low := LeastFree(pending, uid, 1, bound);
      assert Picks(pending, uid, count, Some(low));
    } else {
      assert Picks(pending, uid, count, None);
    }
  }

  ghost function Pick(pending: map<nat, nat>, uid: nat, count: nat): (r: Option<nat>)
    ensures Picks(pending, uid, count, r)
  {
    SomethingPicked(pending, uid, count);
    var r :| Picks(pending, uid, count, r);
    r
  }

  /**
   What the allocator promises: an id that is not in use, with the uid as its high word
   and a low word in range; it fails exactly when the candidate and every low word up to
   2^32-2 are in use.
   */
  lemma PickMeaning(pending: map<nat, nat>, uid: nat, count: nat)
    requires count <= UINT32_MAX
    ensures
      match Pick(pending, uid, count)
      case Some(low) =>
        var id := ContextId(uid, low);
        id !in pending && 1 <= low <= UINT32_MAX && id / CONTEXT_ID_HIGH == uid && id % CONTEXT_ID_HIGH == low
      case None =>
        && ContextId(uid, Candidate(count)) in pending
        && forall low | 1 <= low < UINT32_MAX :: ContextId(uid, low) in pending
    ensures (exists low :: ScanFree(pending, uid, low)) ==> Pick(pending, uid, count).Some?
  {
    var r := Pick(pending, uid, count);
    assert Picks(pending, uid, count, r);
    if r.None? {
      forall low | 1 <= low < UINT32_MAX ensures ContextId(uid, low) in pending {
        assert !ScanFree(pending, uid, low);
      }
    }
  }

  /** The scan never tries 2^32-1: with only that low word free, the allocator fails unless it is the candidate. */
  lemma MaximumIsNotScanned(pending: map<nat, nat>, uid: nat, count: nat)
    requires count <= UINT32_MAX
    requires forall low | 1 <= low < UINT32_MAX :: ContextId(uid, low) in pending
    requires ContextId(uid, UINT32_MAX) !in pending
    ensures Pick(pending, uid, count) == if count == UINT32_MAX - 1 then Some(UINT32_MAX) else None
  {
    var r := Pick(pending, uid, count);
    assert Picks(pending, uid, count, r);
    if count != UINT32_MAX - 1 {
      assert ContextId(uid, Candidate(count)) in pending;
    }
  }

  // ---------- steps ----------

  /**
   Starting: a context is entered before the proxy is asked for. Without a proxy the call
   fails and the entry stays; if the service does not accept, the entry is erased.
   */
  ghost function DoStart(s: State, uid: nat, proxy: bool, accepted: bool): State {
    match Pick(s.pending, uid, s.count)
    case None => s.(count := 0)
    case Some(low) =>
      var id := ContextId(uid, low);
      var token: nat := |s.ids|;
      var begun := s.(count := low, ids := s.ids + [id]);
      if proxy && !accepted then begun
      else if !proxy then begun.(pending := s.pending[id := token])
      else begun.(pending := s.pending[id := token], live := s.live + {token})
  }

  /** What a start leaves behind: an id that was free, under the next number, entered unless the service refused it. */
  lemma StartMeaning(s: State, uid: nat, proxy: bool, accepted: bool)
    requires s.count <= UINT32_MAX
    ensures
      var s' := DoStart(s, uid, proxy, accepted);
      && s'.notified == s.notified
      && (s'.ids == s.ids ==> s' == s.(count := 0))
      && (s'.ids != s.ids ==>
            && |s'.ids| == |s.ids| + 1 && s'.ids[..|s.ids|] == s.ids
            && var id := s'.ids[|s.ids|];
               && id !in s.pending && s'.count == id % CONTEXT_ID_HIGH && id / CONTEXT_ID_HIGH == uid
               && s'.pending == (if proxy && !accepted then s.pending else s.pending[id := |s.ids|])
               && s'.live == (if proxy && accepted then s.live + {|s.ids|} else s.live))
  {
    PickMeaning(s.pending, uid, s.count);
  }

  /** An id is not given out again right away: whatever was answered meanwhile, the next start takes another one. */
  lemma NextIdIsAnother(s: State, uid: nat, token: nat, proxy: bool, accepted: bool, proxy': bool, accepted': bool)
    requires s.count <= UINT32_MAX
    ensures
      var s1 := DoStart(s, uid, proxy, accepted);
      var s2 := DoAnswer(s1, token);
      var s3 := DoStart(s2, uid, proxy', accepted');
      s1.ids != s.ids && ContextId(uid, Candidate(s1.count)) !in s2.pending ==>
        |s3.ids| == |s.ids| + 2 && s3.ids[|s.ids| + 1] != s3.ids[|s.ids|]
  {
    var s1 := DoStart(s, uid, proxy, accepted);
    var s2 := DoAnswer(s1, token);
    PickMeaning(s.pending, uid, s.count);
    StartMeaning(s, uid, proxy, accepted);
    if s1.ids != s.ids && ContextId(uid, Candidate(s1.count)) !in s2.pending {
      assert Picks(s2.pending, uid, s2.count, Some(Candidate(s1.count)));
      PicksIsUnique(s2.pending, uid, s2.count, Pick(s2.pending, uid, s2.count), Some(Candidate(s1.count)));
      assert Candidate(s1.count) != s1.count;
    }
  }

  /** The callback is called, then the context id it was created with is erased. */
  function DoAnswer(s: State, token: nat): State {
    if token >= |s.ids| then s
    else s.(pending := s.pending - {s.ids[token]}, live := s.live - {token}, notified := s.notified + multiset{token})
  }

  function DoReset(s: State): State {
    s.(pending := map[], live := {}, notified := s.notified + multiset(s.pending.Values))
  }

  ghost function Apply(s: State, uid: nat, step: Step): State {
    match step
    case Start(proxy, accepted) => DoStart(s, uid, proxy, accepted)
    case Answer(token) => DoAnswer(s, token)
    case ServiceDied => DoReset(s)
  }

  ghost function Run(s: State, uid: nat, steps: seq<Step>): State
    decreases |steps|
  {
    if steps == [] then s else Run(Apply(s, uid, steps[0]), uid, steps[1..])
  }

  // ---------- what is promised ----------

  /** The counter is a 32-bit word and every entry is under the id its token was given. */
  ghost predicate Valid(s: State) {
    && s.count <= UINT32_MAX
    && (forall id | id in s.pending :: s.pending[id] < |s.ids| && s.ids[s.pending[id]] == id)
    && (forall token | token in s.live :: token < |s.ids|)
  }

  /** The map holds exactly the live authentications, each under its own id. */
  ghost predicate Exact(s: State) {
    && (forall id | id in s.pending :: s.pending[id] in s.live)
    && (forall token | token in s.live ::
          token < |s.ids| && s.ids[token] in s.pending && s.pending[s.ids[token]] == token)
  }

  lemma StepKeepsValid(s: State, uid: nat, step: Step)
    requires Valid(s)
    ensures Valid(Apply(s, uid, step))
  {
    PickMeaning(s.pending, uid, s.count);
  }

  /** The call failed for want of a proxy and left its entry behind. */
  ghost predicate Leaks(s: State, uid: nat, step: Step) {
    step.Start? && !step.proxy && Pick(s.pending, uid, s.count).Some?
  }

  /** A second answer from a finished authentication, whose id a later one has now. */
  ghost predicate StaleAnswer(s: State, step: Step) {
    && step.Answer?
    && step.token < |s.ids|
    && s.ids[step.token] in s.pending
    && s.pending[s.ids[step.token]] != step.token
  }

  /** The map stays exact exactly when nothing leaks and no stale answer comes in. */
  lemma StepKeepsExact(s: State, uid: nat, step: Step)
    requires Valid(s) && Exact(s)
    ensures Exact(Apply(s, uid, step)) <==> !Leaks(s, uid, step) && !StaleAnswer(s, step)
  {
    match step
    case Start(proxy, accepted) => StartKeepsExact(s, uid, proxy, accepted);
    case Answer(token) => AnswerKeepsExact(s, token);
    case ServiceDied =>
  }

  lemma AnswerKeepsExact(s: State, token: nat)
    requires Valid(s) && Exact(s)
    ensures Exact(DoAnswer(s, token)) <==> !StaleAnswer(s, Answer(token))
  {
    var s' := DoAnswer(s, token);
    if StaleAnswer(s, Answer(token)) {
      var other := s.pending[s.ids[token]];
      assert other in s.live && other in s'.live;
      assert s'.ids[other] !in s'.pending;
    }
  }

  lemma StartKeepsExact(s: State, uid: nat, proxy: bool, accepted: bool)
    requires Valid(s) && Exact(s)
    ensures Exact(DoStart(s, uid, proxy, accepted)) <==> !Leaks(s, uid, Start(proxy, accepted))
  {
    PickMeaning(s.pending, uid, s.count);
    var s' := DoStart(s, uid, proxy, accepted);
    if Leaks(s, uid, Start(proxy, accepted)) {
      var id := ContextId(uid, Pick(s.pending, uid, s.count).value);
      assert id in s'.pending && s'.pending[id] !in s'.live;
    }
  }

  ghost predicate AlwaysExact(s: State, uid: nat, steps: seq<Step>)
    decreases |steps|
  {
    Exact(s) && (steps == [] || AlwaysExact(Apply(s, uid, steps[0]), uid, steps[1..]))
  }

  /** No step of the run leaks an entry or brings a stale answer. */
  ghost predicate Clean(s: State, uid: nat, steps: seq<Step>)
    decreases |steps|
  {
    steps == [] ||
    (!Leaks(s, uid, steps[0]) && !StaleAnswer(s, steps[0]) && Clean(Apply(s, uid, steps[0]), uid, steps[1..]))
  }

  /** Over every run: the map is exact all along exactly when the run is clean. */
  lemma {:induction false} RunIsExact(s: State, uid: nat, steps: seq<Step>)
    requires Valid(s) && Exact(s)
    ensures AlwaysExact(s, uid, steps) <==> Clean(s, uid, steps)
    ensures Clean(s, uid, steps) ==> Exact(Run(s, uid, steps))
    decreases |steps|
  {
    if steps != [] {
      var s1 := Apply(s, uid, steps[0]);
      StepKeepsValid(s, uid, steps[0]);
      StepKeepsExact(s, uid, steps[0]);
      if Exact(s1) { RunIsExact(s1, uid, steps[1..]); } else { assert !AlwaysExact(s1, uid, steps[1..]); }
    }
  }

  /** No callback was called twice, and none of a pending or a future authentication was called at all. */
  ghost predicate NotifiedOnce(s: State) {
    && (forall token: nat :: s.notified[token] <= 1)
    && (forall token: nat | token >= |s.ids| :: s.notified[token] == 0)
    && (forall id | id in s.pending :: s.notified[s.pending[id]] == 0)
  }

  /** An answer for an authentication whose callback was called before. */
  ghost predicate RepeatedAnswer(s: State, step: Step) {
    step.Answer? && step.token < |s.ids| && s.notified[step.token] > 0
  }

  /** Callbacks stay called at most once exactly when no answer is repeated, leaked entries and stale ids included. */
  lemma StepNotifiesOnce(s: State, uid: nat, step: Step)
    requires Valid(s) && NotifiedOnce(s)
    ensures NotifiedOnce(Apply(s, uid, step)) <==> !RepeatedAnswer(s, step)
  {
    match step
    case Start(proxy, accepted) => PickMeaning(s.pending, uid, s.count);
    case Answer(token) => AnswerNotifiesOnce(s, token);
    case ServiceDied => ResetNotifiesOnce(s);
  }

  lemma AnswerNotifiesOnce(s: State, token: nat)
    requires Valid(s) && NotifiedOnce(s)
    ensures NotifiedOnce(DoAnswer(s, token)) <==> !RepeatedAnswer(s, Answer(token))
  {
    var s' := DoAnswer(s, token);
    if token < |s.ids| {
      assert s'.notified[token] == s.notified[token] + 1;
      forall id | id in s'.pending ensures s'.pending[id] != token {
        assert s.ids[s.pending[id]] == id;
      }
    }
  }

  lemma ResetNotifiesOnce(s: State)
    requires Valid(s) && NotifiedOnce(s)
    ensures NotifiedOnce(DoReset(s))
  {
    var s' := DoReset(s);
    forall token: nat ensures s'.notified[token] <= 1 && (token >= |s.ids| ==> s'.notified[token] == 0) {
      if token in s.pending.Values {
        var id :| id in s.pending && s.pending[id] == token;
        assert s.notified[token] == 0 && token < |s.ids|;
      }
    }
  }

  ghost predicate AlwaysNotifiedOnce(s: State, uid: nat, steps: seq<Step>)
    decreases |steps|
  {
    NotifiedOnce(s) && (steps == [] || AlwaysNotifiedOnce(Apply(s, uid, steps[0]), uid, steps[1..]))
  }

  ghost predicate NeverRepeats(s: State, uid: nat, steps: seq<Step>)
    decreases |steps|
  {
    steps == [] || (!RepeatedAnswer(s, steps[0]) && NeverRepeats(Apply(s, uid, steps[0]), uid, steps[1..]))
  }

  /** Over every run: no callback is called twice, all along, exactly when no answer is repeated. */
  lemma {:induction false} RunNotifiesOnce(s: State, uid: nat, steps: seq<Step>)
    requires Valid(s) && NotifiedOnce(s)
    ensures AlwaysNotifiedOnce(s, uid, steps) <==> NeverRepeats(s, uid, steps)
    ensures NeverRepeats(s, uid, steps) ==> NotifiedOnce(Run(s, uid, steps))
    decreases |steps|
  {
    if steps != [] {
      var s1 := Apply(s, uid, steps[0]);
      StepKeepsValid(s, uid, steps[0]);
      StepNotifiesOnce(s, uid, steps[0]);
      if NotifiedOnce(s1) {
        RunNotifiesOnce(s1, uid, steps[1..]);
      } else {
        assert !AlwaysNotifiedOnce(s1, uid, steps[1..]);
      }
    }
  }

  lemma PendingIsLive(s: State)
    requires Valid(s) && Exact(s)
    ensures s.pending.Values == s.live
  {
    forall token | token in s.live ensures token in s.pending.Values {
      assert s.pending[s.ids[token]] == token;
    }
    forall token | token in s.pending.Values ensures token in s.live {
      var id :| id in s.pending && s.pending[id] == token;
    }
  }

  /** Death of the service empties the map and answers every pending authentication once, and nothing else. */
  lemma DeathAnswersEveryone(s: State, uid: nat)
    requires Valid(s) && Exact(s)
    ensures
      var s' := Apply(s, uid, ServiceDied);
      && s'.pending == map[] && Exact(s')
      && forall token: nat :: s'.notified[token] == s.notified[token] + if token in s.live then 1 else 0
  {
    PendingIsLive(s);
  }

  /** A call that failed for want of a proxy is answered all the same when the service dies. */
  lemma LeakedCallIsAnsweredAtDeath(s: State, uid: nat, accepted: bool)
    requires Valid(s) && NotifiedOnce(s) && Leaks(s, uid, Start(false, accepted))
    ensures
      var s1 := Apply(s, uid, Start(false, accepted));
      |s.ids| !in s1.live && Apply(s1, uid, ServiceDied).notified[|s.ids|] == 1
  {
    PickMeaning(s.pending, uid, s.count);
    var s1 := Apply(s, uid, Start(false, accepted));
    var id := ContextId(uid, Pick(s.pending, uid, s.count).value);
    assert s1.pending[id] == |s.ids| && id in s1.pending;
    assert |s.ids| in s1.pending.Values;
  }
}

module DomainAuthContexts {
  import opened AccountTypes
  import opened DomainAuthSpec

  class DomainAccountClient {
    const uid: nat
    var contextIdCount: nat
    var contextIdMap: map<nat, nat>
    ghost var ids: seq<nat>
    ghost var live: set<nat>
    ghost var notified: multiset<nat>

    ghost function State(): DomainAuthSpec.State
      reads this
    {
      DomainAuthSpec.State(contextIdCount, contextIdMap, ids, live, notified)
    }

    ghost predicate Valid()
      reads this
    {
      DomainAuthSpec.Valid(State())
    }

    constructor (uid: nat)
      ensures Valid() && this.uid == uid && State() == INITIAL
    {
      this.uid := uid;
      contextIdCount, contextIdMap := 0, map[];
      ids, live, notified := [], {}, multiset{};
    }

    /** Increments the counter with wrap-around; if that id is taken, scans for the first free one. */
    method GenerateCallbackAndContextId(callback: nat) returns (ok: bool, contextId: nat)
      requires Valid()
      modifies this`contextIdCount, this`contextIdMap
      ensures ok == Pick(old(contextIdMap), uid, old(contextIdCount)).Some?
      ensures !ok ==> contextIdMap == old(contextIdMap) && contextIdCount == 0
      ensures ok ==>
                && contextIdCount == Pick(old(contextIdMap), uid, old(contextIdCount)).value
                && contextId == ContextId(uid, contextIdCount)
                && contextId !in old(contextIdMap)
                && contextIdMap == old(contextIdMap)[contextId := callback]
    {
      ghost var expected := Pick(contextIdMap, uid, contextIdCount);
      ghost var count0 := contextIdCount;
      contextId := 0;
      if contextIdCount >= UINT32_MAX {
        contextIdCount := 0;
      }
      contextIdCount := contextIdCount + 1;
      if ContextId(uid, contextIdCount) in contextIdMap {
        var i := 1;
        while i < UINT32_MAX
          invariant 1 <= i < UINT32_MAX
          invariant forall j | 1 <= j < i :: ContextId(uid, j) in contextIdMap
          invariant contextIdMap == old(contextIdMap)
        {
          if ContextId(uid, i) !in contextIdMap {
            contextIdCount := i;
            assert ScanFree(contextIdMap, uid, i);
            assert Picks(contextIdMap, uid, count0, Some(i));
            break;
          }
          if i == UINT32_MAX - 1 {
            contextIdCount := 0;
            assert Picks(contextIdMap, uid, count0, None);
            PicksIsUnique(contextIdMap, uid, count0, None, expected);
            return false, contextId;
          }
          i := i + 1;
        }
      }
      assert Picks(contextIdMap, uid, count0, Some(contextIdCount));
      PicksIsUnique(contextIdMap, uid, count0, Some(contextIdCount), expected);
      contextId := ContextId(uid, contextIdCount);
      contextIdMap := contextIdMap[contextId := callback];
      return true, contextId;
    }

    method EraseContext(contextId: nat)
      modifies this`contextIdMap
      ensures contextIdMap == old(contextIdMap) - {contextId}
    {
      contextIdMap := contextIdMap - {contextId};
    }

    /** One authentication request; `token` is the callback object made for it. */
    method Auth(proxy: bool, accepted: bool, token: nat) returns (err: ErrCode)
      requires Valid() && token == |ids|
      modifies this
      ensures Valid() && State() == Apply(old(State()), uid, Start(proxy, accepted))
      ensures err == ERR_OK <==> Pick(old(contextIdMap), uid, old(contextIdCount)).Some? && proxy && accepted
    {
      StepKeepsValid(State(), uid, Start(proxy, accepted));
      PickMeaning(contextIdMap, uid, contextIdCount);
      var ok, contextId := GenerateCallbackAndContextId(token);
      if !ok {
        return IoError(1);
      }
      ids := ids + [contextId];
      if !proxy {
        return IoError(2);
      }
      if !accepted {
        EraseContext(contextId);
        assert contextIdMap == old(contextIdMap);
        return IoError(3);
      }
      live := live + {token};
      return ERR_OK;
    }

    /** The service answers: first the caller's callback, then the hook that erases the context. */
    method OnResult(token: nat, contextId: nat)
      requires Valid() && token < |ids| && ids[token] == contextId
      modifies this
      ensures Valid() && State() == Apply(old(State()), uid, Answer(token))
      ensures ids == old(ids) && contextIdCount == old(contextIdCount)
      ensures contextIdMap == old(contextIdMap) - {contextId} && notified == old(notified) + multiset{token}
    {
      notified := notified + multiset{token};
      EraseContext(contextId);
      live := live - {token};
    }

    /** The tokens of the snapshot already answered. */
    ghost function Done(snapshot: map<nat, nat>, todo: set<nat>): set<nat> {
      set id | id in snapshot && id !in todo :: snapshot[id]
    }

    lemma DoneStep(snapshot: map<nat, nat>, todo: set<nat>, id: nat)
      requires id in todo && id in snapshot
      requires forall i | i in snapshot :: snapshot[i] < |ids| && ids[snapshot[i]] == i
      ensures multiset(Done(snapshot, todo - {id})) == multiset(Done(snapshot, todo)) + multiset{snapshot[id]}
    {
      var before, after := Done(snapshot, todo), Done(snapshot, todo - {id});
      assert snapshot[id] !in before;
      forall token | token in before + {snapshot[id]} ensures token in after {
        if token in before {
          var i :| i in snapshot && i !in todo && snapshot[i] == token;
          assert i !in todo - {id};
        } else {
          assert id !in todo - {id};
        }
      }
      assert after == before + {snapshot[id]};
    }

    lemma DoneAll(snapshot: map<nat, nat>)
      ensures Done(snapshot, {}) == snapshot.Values
      ensures Done(snapshot, snapshot.Keys) == {}
    {
      forall token | token in snapshot.Values ensures token in Done(snapshot, {}) {
        var i :| i in snapshot && snapshot[i] == token;
        assert i !in {};
      }
    }

    /** The loop over a snapshot of the map: every pending context is answered, then the map is cleared. */
    method ResetDomainAccountProxy()
      requires Valid()
      modifies this
      ensures Valid() && State() == Apply(old(State()), uid, ServiceDied)
    {
      var snapshot := contextIdMap;
      var todo: set<nat> := snapshot.Keys;
      DoneAll(snapshot);
      while todo != {}
        invariant Valid() && ids == old(ids) && contextIdCount == old(contextIdCount)
        invariant todo <= snapshot.Keys
        invariant forall id | id in snapshot :: snapshot[id] < |ids| && ids[snapshot[id]] == id
        invariant notified == old(notified) + multiset(Done(snapshot, todo))
        decreases todo
      {
        var contextId: nat :| contextId in todo;
        DoneStep(snapshot, todo, contextId);
        OnResult(snapshot[contextId], contextId);
        todo := todo - {contextId};
      }
      contextIdMap := map[];
      live := {};
    }
  }
}
