/**
 The published history of distributed-account bindings, and the observer that reads it.

 Every publication goes to one of two channels: the subscriber list (IPC) or the common
 events. A record is named by its OS account and its sub-profile. `Ended` is not
 published: it marks the point where the record itself stops existing.
 */
module BindingEvents {
  import opened AccountTypes

  datatype Key = Key(localId: int, subId: int)

  datatype Channel = Subscriber | Common

  datatype Kind = BOUND | LOGIN | LOGOUT | LOGOFF | TOKEN_INVALID | UNBOUND

  datatype Item = Published(channel: Channel, key: Key, kind: Kind) | Ended(key: Key)

  /**
   What one observer of one record on one channel knows:
   - `status`: the status the events tell of;
   - `open`: a BOUND was seen and no UNBOUND yet, in the record's present lifetime;
   - `ordered`: so far BOUND and UNBOUND alternated, starting with BOUND, and nothing else
     was published outside a BOUND ... UNBOUND pair;
   - `settled`: no past lifetime of the record ended while `open`.
   */
  datatype Observer = Observer(status: int, open: bool, ordered: bool, settled: bool)

  const FRESH := Observer(ACCOUNT_STATE_UNBOUND, false, true, true)

  function StatusAfter(status: int, kind: Kind): int {
    match kind
    case BOUND => status
    case LOGIN => ACCOUNT_STATE_LOGIN
    case LOGOUT => ACCOUNT_STATE_NOTLOGIN
    case LOGOFF => ACCOUNT_STATE_LOGOFF
    case TOKEN_INVALID => ACCOUNT_STATE_TOKEN_EXPIRED
    case UNBOUND => ACCOUNT_STATE_UNBOUND
  }

  function Hear(o: Observer, kind: Kind): Observer {
    Observer(
      StatusAfter(o.status, kind),
      if kind.BOUND? then true else if kind.UNBOUND? then false else o.open,
      o.ordered && (o.open <==> !kind.BOUND?),
      o.settled)
  }

  function Observe(o: Observer, item: Item, channel: Channel, key: Key): Observer {
    match item
    case Published(c, k, kind) => if c == channel && k == key then Hear(o, kind) else o
    case Ended(k) => if k == key then Observer(ACCOUNT_STATE_UNBOUND, false, o.ordered, o.settled && !o.open) else o
  }

  /** The observer's knowledge after a whole history. */
  function Replay(trace: seq<Item>, channel: Channel, key: Key): Observer {
    if trace == [] then FRESH
    else Observe(Replay(trace[..|trace| - 1], channel, key), trace[|trace| - 1], channel, key)
  }

  lemma ReplayOne(trace: seq<Item>, item: Item, channel: Channel, key: Key)
    ensures Replay(trace + [item], channel, key) == Observe(Replay(trace, channel, key), item, channel, key)
  {
    assert (trace + [item])[..|trace|] == trace;
  }

  /** `Publish` on one channel. */
  function On(trace: seq<Item>, channel: Channel, key: Key, kind: Kind): seq<Item> {
    trace + [Published(channel, key, kind)]
  }

  /** The pair of publications the services make almost everywhere. */
  function Both(trace: seq<Item>, key: Key, kind: Kind): seq<Item> {
    On(On(trace, Subscriber, key, kind), Common, key, kind)
  }

  lemma ReplayBoth(trace: seq<Item>, key: Key, kind: Kind, channel: Channel, k: Key)
    ensures Replay(Both(trace, key, kind), channel, k) ==
            if k == key then Hear(Replay(trace, channel, k), kind) else Replay(trace, channel, k)
  {
    var first := On(trace, Subscriber, key, kind);
    ReplayOne(trace, Published(Subscriber, key, kind), channel, k);
    ReplayOne(first, Published(Common, key, kind), channel, k);
  }

  lemma ReplayEnd(trace: seq<Item>, key: Key, channel: Channel, k: Key)
    ensures Replay(trace + [Ended(key)], channel, k) == Observe(Replay(trace, channel, k), Ended(key), channel, k)
  {
    ReplayOne(trace, Ended(key), channel, k);
  }

  /** The observer knows the status and has seen events in order. */
  predicate Tells(o: Observer, status: int) {
    o.status == status && (o.open <==> status != ACCOUNT_STATE_UNBOUND) && o.ordered
  }

  /** Before a record goes: LOGOUT only if logged in, UNBOUND only if bound. */
  function Farewell(trace: seq<Item>, key: Key, status: int): seq<Item> {
    if status == ACCOUNT_STATE_UNBOUND then trace
    else Both(if status == ACCOUNT_STATE_LOGIN then Both(trace, key, LOGOUT) else trace, key, UNBOUND)
  }

  lemma ReplayFarewell(trace: seq<Item>, key: Key, status: int, channel: Channel, k: Key)
    requires k == key ==> Tells(Replay(trace, channel, k), status)
    ensures
      var o := Replay(trace, channel, k);
      Replay(Farewell(trace, key, status), channel, k) ==
      if k == key then Observer(ACCOUNT_STATE_UNBOUND, false, true, o.settled) else o
  {
    if status == ACCOUNT_STATE_LOGIN {
      ReplayBoth(trace, key, LOGOUT, channel, k);
      ReplayBoth(Both(trace, key, LOGOUT), key, UNBOUND, channel, k);
    } else if status != ACCOUNT_STATE_UNBOUND {
      ReplayBoth(trace, key, UNBOUND, channel, k);
    }
  }

  /** `item` concerns the record `key` as seen on `channel`. */
  predicate Concerns(item: Item, channel: Channel, key: Key) {
    item == Ended(key) || (item.Published? && item.channel == channel && item.key == key)
  }

  /** The last item before position `n` that tells whether the record is bound, or -1. */
  function LastTurn(trace: seq<Item>, n: nat, channel: Channel, key: Key): (r: int)
    requires n <= |trace|
    ensures -1 <= r < n
    ensures 0 <= r ==> Concerns(trace[r], channel, key)
  {
    if n == 0 then -1
    else if IsTurn(trace[n - 1], channel, key) then n - 1
    else LastTurn(trace, n - 1, channel, key)
  }

  predicate IsTurn(item: Item, channel: Channel, key: Key) {
    Concerns(item, channel, key) && (item.Ended? || item.kind.BOUND? || item.kind.UNBOUND?)
  }

  /** Before position `n` the record was last seen bound. */
  predicate BoundBefore(trace: seq<Item>, n: nat, channel: Channel, key: Key)
    requires n <= |trace|
  {
    var last := LastTurn(trace, n, channel, key);
    0 <= last && trace[last] == Published(channel, key, BOUND)
  }

  /** Said of positions in the history: BOUND only when not bound, everything else only when bound. */
  ghost predicate WellOrdered(trace: seq<Item>, channel: Channel, key: Key) {
    forall i | 0 <= i < |trace| && trace[i].Published? && Concerns(trace[i], channel, key) ::
      BoundBefore(trace, i, channel, key) <==> !trace[i].kind.BOUND?
  }

  lemma {:induction false} LastTurnPrefix(trace: seq<Item>, m: nat, n: nat, channel: Channel, key: Key)
    requires n <= m <= |trace|
    ensures LastTurn(trace, n, channel, key) == LastTurn(trace[..m], n, channel, key)
  {
    if n > 0 {
      assert trace[..m][n - 1] == trace[n - 1];
      LastTurnPrefix(trace, m, n - 1, channel, key);
    }
  }

  /** The running observer and the positional reading agree. */
  lemma {:induction false} ObserverMeaning(trace: seq<Item>, channel: Channel, key: Key)
    ensures Replay(trace, channel, key).open <==> BoundBefore(trace, |trace|, channel, key)
    ensures Replay(trace, channel, key).ordered <==> WellOrdered(trace, channel, key)
  {
    if trace != [] {
      var n := |trace| - 1;
      var init := trace[..n];
      ObserverMeaning(init, channel, key);
      LastTurnPrefix(trace, n, n, channel, key);
      assert BoundBefore(trace, n, channel, key) <==> BoundBefore(init, n, channel, key);
      assert WellOrdered(trace, channel, key) <==>
        (WellOrdered(init, channel, key)
         && (trace[n].Published? && Concerns(trace[n], channel, key) ==>
               (BoundBefore(trace, n, channel, key) <==> !trace[n].kind.BOUND?)))
      by {
        forall i | 0 <= i < n ensures BoundBefore(trace, i, channel, key) <==> BoundBefore(init, i, channel, key) {
          LastTurnPrefix(trace, n, i, channel, key);
        }
        assert forall i | 0 <= i < n :: init[i] == trace[i];
      }
    }
  }

  // ---------- what is really published, across lifetimes ----------

  predicate Said(item: Item, channel: Channel, key: Key) {
    item.Published? && item.channel == channel && item.key == key
  }

  /** Everything published of a record on a channel, in order. */
  function Kinds(trace: seq<Item>, channel: Channel, key: Key): seq<Kind> {
    if trace == [] then []
    else
      var before := Kinds(trace[..|trace| - 1], channel, key);
      var last := trace[|trace| - 1];
      if Said(last, channel, key) then before + [last.kind] else before
  }

  lemma KindsOne(trace: seq<Item>, item: Item, channel: Channel, key: Key)
    ensures Kinds(trace + [item], channel, key) ==
            Kinds(trace, channel, key) + if Said(item, channel, key) then [item.kind] else []
  {
    assert (trace + [item])[..|trace|] == trace;
  }

  lemma KindsBoth(trace: seq<Item>, key: Key, kind: Kind, channel: Channel, k: Key)
    ensures Kinds(Both(trace, key, kind), channel, k) ==
            Kinds(trace, channel, k) + if k == key then [kind] else []
  {
    KindsOne(trace, Published(Subscriber, key, kind), channel, k);
    KindsOne(On(trace, Subscriber, key, kind), Published(Common, key, kind), channel, k);
  }

  /** What a farewell is to say of a record with this status. */
  function Goodbye(status: int): seq<Kind> {
    if status == ACCOUNT_STATE_UNBOUND then []
    else if status == ACCOUNT_STATE_LOGIN then [LOGOUT, UNBOUND]
    else [UNBOUND]
  }

  lemma FarewellSays(trace: seq<Item>, key: Key, status: int, channel: Channel, k: Key)
    ensures Kinds(Farewell(trace, key, status), channel, k) ==
            Kinds(trace, channel, k) + if k == key then Goodbye(status) else []
  {
    KindsBoth(trace, key, LOGOUT, channel, k);
    KindsBoth(Both(trace, key, LOGOUT), key, UNBOUND, channel, k);
    KindsBoth(trace, key, UNBOUND, channel, k);
  }

  lemma SaidInTurn(a: seq<Kind>, b: seq<Kind>, c: seq<Kind>)
    ensures a + b + c == a + (b + c)
  {
  }

  /** The same said `n` times over. */
  function Times(n: nat, said: seq<Kind>): seq<Kind> {
    if n == 0 then [] else said + Times(n - 1, said)
  }

  predicate BindsOrUnbinds(kind: Kind) {
    kind.BOUND? || kind.UNBOUND?
  }

  /** The BOUND and UNBOUND events published for a record on a channel, and nothing else. */
  function Turns(trace: seq<Item>, channel: Channel, key: Key): seq<Kind> {
    if trace == [] then []
    else
      var before := Turns(trace[..|trace| - 1], channel, key);
      var last := trace[|trace| - 1];
      if Said(last, channel, key) && BindsOrUnbinds(last.kind) then before + [last.kind] else before
  }

  lemma TurnsOne(trace: seq<Item>, item: Item, channel: Channel, key: Key)
    ensures Turns(trace + [item], channel, key) ==
            Turns(trace, channel, key) +
            (if Said(item, channel, key) && BindsOrUnbinds(item.kind) then [item.kind] else [])
  {
    assert (trace + [item])[..|trace|] == trace;
  }

  lemma TurnsBoth(trace: seq<Item>, key: Key, kind: Kind, channel: Channel)
    ensures Turns(Both(trace, key, kind), channel, key) ==
            Turns(trace, channel, key) + if BindsOrUnbinds(kind) then [kind] else []
  {
    TurnsOne(trace, Published(Subscriber, key, kind), channel, key);
    TurnsOne(On(trace, Subscriber, key, kind), Published(Common, key, kind), channel, key);
  }

  /**
   A reading of the published items alone, which the end of a record leaves no mark in: they
   are BOUND, UNBOUND, BOUND, ... from the first, and everything else comes after a BOUND that
   no UNBOUND has followed yet.
   */
  ghost predicate Alternates(trace: seq<Item>, channel: Channel, key: Key) {
    var turns := Turns(trace, channel, key);
    && (forall i | 0 <= i < |turns| :: turns[i] == if i % 2 == 0 then BOUND else UNBOUND)
    && (forall n | 0 <= n < |trace| && Said(trace[n], channel, key) && !BindsOrUnbinds(trace[n].kind) ::
          |Turns(trace[..n], channel, key)| % 2 == 1)
  }

  /** When no lifetime ended while bound, order within the lifetimes is order across them. */
  lemma {:induction false} AlternationMeaning(trace: seq<Item>, channel: Channel, key: Key)
    requires Replay(trace, channel, key).settled
    ensures Replay(trace, channel, key).ordered <==> Alternates(trace, channel, key)
    ensures Replay(trace, channel, key).ordered ==>
              (Replay(trace, channel, key).open <==> |Turns(trace, channel, key)| % 2 == 1)
  {
    if trace != [] {
      var n := |trace| - 1;
      var init := trace[..n];
      AlternationMeaning(init, channel, key);
      AlternatesStep(trace, channel, key);
    }
  }

  /** One item more. */
  lemma AlternatesStep(trace: seq<Item>, channel: Channel, key: Key)
    requires trace != []
    ensures
      var init, last := trace[..|trace| - 1], trace[|trace| - 1];
      Alternates(trace, channel, key) <==>
        Alternates(init, channel, key)
        && (Said(last, channel, key) ==> (last.kind.BOUND? <==> |Turns(init, channel, key)| % 2 == 0))
  {
    var n := |trace| - 1;
    var init, last := trace[..n], trace[n];
    var turns, before := Turns(trace, channel, key), Turns(init, channel, key);
    assert forall m | 0 <= m < n :: init[m] == trace[m] && init[..m] == trace[..m];
    assert forall i | 0 <= i < |before| :: turns[i] == before[i];
    if Said(last, channel, key) && BindsOrUnbinds(last.kind) {
      assert turns[|before|] == last.kind;
    }
  }
}
