/**
 Subscribers of distributed-account events on the service side: a list of records, one per
 listener, edited in place, described by a plain (listener, type) relation and the order in
 which the listeners joined. The remote objects of the listed listeners are watched for death.
 */
module SubscriberListSpec {
  import opened AccountTypes

  const NULL_LISTENER: nat := 0
  const ERR_NULL_PTR := IoError(22)
  const ERR_NO_CALLBACK_REGISTERED := IoError(23)

  const MAX_RETRY_TIMES := 10
  const E_IPC_ERROR := 29189
  const E_IPC_SA_DIED := 32

  type Relation = set<(nat, nat)>

  /** `watched`: the listeners whose death is reported, when there is a death recipient at all. */
  datatype State = State(order: seq<nat>, relation: Relation, watched: set<nat>)

  const INITIAL := State([], {}, {})

  datatype Outcome = Outcome(state: State, err: ErrCode)

  /**
   `added`, `removed`: putting the death recipient on the listener's remote object, or taking it
   off, worked; the results are not looked at.
   */
  datatype Step =
    | Subscribe(t: nat, listener: nat, added: bool)
    | UnsubscribeType(t: nat, listener: nat, removed: bool)
    | Unsubscribe(listener: nat, removed: bool)
    | Died(listener: nat)

  function Related(r: Relation, listener: nat): set<nat> {
    set p | p in r && p.0 == listener :: p.1
  }

  function Forget(r: Relation, listener: nat): Relation {
    set p | p in r && p.0 != listener
  }

  /** `order` without `listener`, the others where they were. */
  function Dropped(order: seq<nat>, listener: nat): seq<nat> {
    if order == [] then []
    else if order[0] == listener then Dropped(order[1..], listener)
    else [order[0]] + Dropped(order[1..], listener)
  }

  function Watch(watched: set<nat>, recipient: bool, listener: nat, added: bool): set<nat> {
    if recipient && added then watched + {listener} else watched
  }

  function Unwatch(watched: set<nat>, listener: nat, removed: bool): set<nat> {
    if removed then watched - {listener} else watched
  }

  function DoSubscribe(s: State, recipient: bool, t: nat, listener: nat, added: bool): Outcome {
    if listener == NULL_LISTENER then Outcome(s, ERR_NULL_PTR)
    else
      var s1 := s.(relation := s.relation + {(listener, t)});
      if listener in s.order then Outcome(s1, ERR_OK)
      else Outcome(s1.(order := s.order + [listener], watched := Watch(s.watched, recipient, listener, added)), ERR_OK)
  }

  function DoUnsubscribeType(s: State, t: nat, listener: nat, removed: bool): Outcome {
    if listener == NULL_LISTENER then Outcome(s, ERR_NULL_PTR)
    else if listener !in s.order then Outcome(s, ERR_NO_CALLBACK_REGISTERED)
    else
      var s1 := s.(relation := s.relation - {(listener, t)});
      if Related(s1.relation, listener) != {} then Outcome(s1, ERR_OK)
      else Outcome(s1.(order := Dropped(s.order, listener), watched := Unwatch(s.watched, listener, removed)), ERR_OK)
  }

  function DoUnsubscribe(s: State, listener: nat, removed: bool): Outcome {
    if listener == NULL_LISTENER then Outcome(s, ERR_NULL_PTR)
    else Outcome(State(Dropped(s.order, listener), Forget(s.relation, listener),
                       Unwatch(s.watched, listener, removed)), ERR_OK)
  }

  /** A dead listener is unsubscribed if its death is reported. */
  function Apply(s: State, recipient: bool, step: Step): State {
    match step
    case Subscribe(t, listener, added) => DoSubscribe(s, recipient, t, listener, added).state
    case UnsubscribeType(t, listener, removed) => DoUnsubscribeType(s, t, listener, removed).state
    case Unsubscribe(listener, removed) => DoUnsubscribe(s, listener, removed).state
    case Died(listener) => if listener in s.watched then DoUnsubscribe(s, listener, true).state else s
  }

  function Run(s: State, recipient: bool, steps: seq<Step>): State
    decreases |steps|
  {
    if steps == [] then s else Run(Apply(s, recipient, steps[0]), recipient, steps[1..])
  }

  predicate Distinct(order: seq<nat>) {
    forall i, j | 0 <= i < j < |order| :: order[i] != order[j]
  }

  /** Dropping takes out that listener and nobody else, and keeps the list free of repetitions. */
  lemma {:induction false} DroppedMeaning(order: seq<nat>, listener: nat)
    requires Distinct(order)
    ensures forall k :: k in Dropped(order, listener) <==> k in order && k != listener
    ensures Distinct(Dropped(order, listener))
    ensures listener !in order ==> Dropped(order, listener) == order
  {
    if order != [] {
      DistinctTail(order);
      DroppedMeaning(order[1..], listener);
      assert forall k :: k in order <==> k == order[0] || k in order[1..];
    }
  }

  lemma DistinctTail(order: seq<nat>)
    requires Distinct(order) && order != []
    ensures Distinct(order[1..]) && order[0] !in order[1..]
  {
  }

  lemma {:induction false} DroppedAt(order: seq<nat>, i: nat)
    requires Distinct(order) && i < |order|
    ensures Dropped(order, order[i]) == order[..i] + order[i + 1..]
  {
    var tail := order[1..];
    DistinctTail(order);
    if i == 0 {
      DroppedMeaning(tail, order[0]);
      assert order[..0] + order[1..] == tail;
    } else {
      DroppedAt(tail, i - 1);
      assert tail[i - 1] == order[i] && order[i] in tail;
      assert order[..i] + order[i + 1..] == [order[0]] + (tail[..i - 1] + tail[i..]);
    }
  }

  /** Listed once each; the listed are the related; nobody is watched without a death recipient. */
  ghost predicate Good(s: State, recipient: bool) {
    && Distinct(s.order)
    && (forall k :: k in s.order <==> Related(s.relation, k) != {})
    && (!recipient ==> s.watched == {})
  }

  /** With a death recipient, exactly the listed are watched. */
  ghost predicate Watches(s: State, recipient: bool) {
    recipient ==> forall k :: k in s.watched <==> k in s.order
  }

  /** A listener joins without being watched, or goes and stays watched. */
  predicate Misses(s: State, recipient: bool, step: Step) {
    recipient && step.listener != NULL_LISTENER &&
    match step
    case Subscribe(_, listener, added) => Related(s.relation, listener) == {} && !added
    case UnsubscribeType(t, listener, removed) => Related(s.relation, listener) == {t} && !removed
    case Unsubscribe(listener, removed) => Related(s.relation, listener) != {} && !removed
    case Died(_) => false
  }

  lemma RelatedAfter(r: Relation, r': Relation, listener: nat)
    requires forall p: (nat, nat) | p.0 != listener :: p in r <==> p in r'
    ensures forall k | k != listener :: Related(r', k) == Related(r, k)
  {
    forall k | k != listener ensures Related(r', k) == Related(r, k) {
      forall t | t in Related(r, k) ensures t in Related(r', k) {
        assert (k, t) in r && (k, t) in r';
      }
      forall t | t in Related(r', k) ensures t in Related(r, k) {
        assert (k, t) in r' && (k, t) in r;
      }
    }
  }

  lemma StepKeepsGood(s: State, recipient: bool, step: Step)
    requires Good(s, recipient)
    ensures Good(Apply(s, recipient, step), recipient)
  {
    var s' := Apply(s, recipient, step);
    RelatedAfter(s.relation, s'.relation, step.listener);
    DroppedMeaning(s.order, step.listener);
    if step.Subscribe? && step.listener != NULL_LISTENER {
      assert (step.listener, step.t) in s'.relation;
      assert step.t in Related(s'.relation, step.listener);
    }
  }

  lemma StepKeepsWatching(s: State, recipient: bool, step: Step)
    requires Good(s, recipient) && Watches(s, recipient)
    ensures Watches(Apply(s, recipient, step), recipient) <==> !Misses(s, recipient, step)
  {
    var s' := Apply(s, recipient, step);
    var l := step.listener;
    DroppedMeaning(s.order, l);
    if step.UnsubscribeType? {
      LastType(s.relation, l, step.t);
    }
    if Misses(s, recipient, step) {
      assert l in s'.watched <==> l !in s'.order;
    }
  }

  /** A listener loses its last relation with this type exactly when it has this one only. */
  lemma LastType(r: Relation, listener: nat, t: nat)
    ensures Related(r - {(listener, t)}, listener) == Related(r, listener) - {t}
  {
    forall u ensures u in Related(r - {(listener, t)}, listener) <==> u in Related(r, listener) - {t} {
      assert u in Related(r - {(listener, t)}, listener) <==> (listener, u) in r - {(listener, t)};
      assert u in Related(r, listener) <==> (listener, u) in r;
    }
  }

  ghost predicate AlwaysWatches(s: State, recipient: bool, steps: seq<Step>)
    decreases |steps|
  {
    Watches(s, recipient)
    && (steps == [] || AlwaysWatches(Apply(s, recipient, steps[0]), recipient, steps[1..]))
  }

  predicate NeverMisses(s: State, recipient: bool, steps: seq<Step>)
    decreases |steps|
  {
    steps == [] || (!Misses(s, recipient, steps[0])
                    && NeverMisses(Apply(s, recipient, steps[0]), recipient, steps[1..]))
  }

  /** Over every run: exactly the listed are watched all along, exactly when nobody joins unwatched or stays watched. */
  lemma {:induction false} RunKeepsWatching(s: State, recipient: bool, steps: seq<Step>)
    requires Good(s, recipient) && Watches(s, recipient)
    ensures AlwaysWatches(s, recipient, steps) <==> NeverMisses(s, recipient, steps)
    ensures NeverMisses(s, recipient, steps) ==> Watches(Run(s, recipient, steps), recipient)
    decreases |steps|
  {
    if steps != [] {
      var s1 := Apply(s, recipient, steps[0]);
      StepKeepsGood(s, recipient, steps[0]);
      StepKeepsWatching(s, recipient, steps[0]);
      if Watches(s1, recipient) {
        RunKeepsWatching(s1, recipient, steps[1..]);
      } else {
        assert !AlwaysWatches(s1, recipient, steps[1..]);
      }
    }
  }

  /** A listener that joined unwatched stays related for good when it dies. */
  lemma UnwatchedStaysBehind(recipient: bool, t: nat, listener: nat)
    requires listener != NULL_LISTENER
    ensures (listener, t) in Run(INITIAL, recipient, [Subscribe(t, listener, false), Died(listener)]).relation
  {
    var first, second := Subscribe(t, listener, false), Died(listener);
    var s1 := Apply(INITIAL, recipient, first);
    assert [first, second][1..] == [second] && [second][1..] == [];
    assert Run(s1, recipient, [second]) == Apply(s1, recipient, second);
  }

  /** Over every run of subscriptions, both ways of unsubscribing, and deaths. */
  lemma {:induction false} RunKeepsGood(s: State, recipient: bool, steps: seq<Step>)
    requires Good(s, recipient)
    ensures Good(Run(s, recipient, steps), recipient)
    decreases |steps|
  {
    if steps != [] {
      StepKeepsGood(s, recipient, steps[0]);
      RunKeepsGood(Apply(s, recipient, steps[0]), recipient, steps[1..]);
    }
  }

  /** What the list stands for: who is related to what, and who is watched. */
  datatype Plain = Plain(relation: Relation, watched: set<nat>)

  function PlainOf(s: State): Plain {
    Plain(s.relation, s.watched)
  }

  /**
   What calls and deaths do to a plain relation: a listener is watched from its first type on, no
   longer with its last, and forgotten when it dies watched.
   */
  function PlainAfter(p: Plain, recipient: bool, step: Step): Plain {
    var l := step.listener;
    if l == NULL_LISTENER then p else
    match step
    case Subscribe(t, _, added) =>
      Plain(p.relation + {(l, t)},
            if Related(p.relation, l) == {} then Watch(p.watched, recipient, l, added) else p.watched)
    case UnsubscribeType(t, _, removed) =>
      Plain(p.relation - {(l, t)},
            if Related(p.relation, l) == {t} then Unwatch(p.watched, l, removed) else p.watched)
    case Unsubscribe(_, removed) => Plain(Forget(p.relation, l), Unwatch(p.watched, l, removed))
    case Died(_) => if l in p.watched then Plain(Forget(p.relation, l), p.watched - {l}) else p
  }

  /** The list refines the plain relation: on good states no record keeping can be seen through it. */
  lemma ListRefinesRelation(s: State, recipient: bool, step: Step)
    requires Good(s, recipient)
    ensures PlainOf(Apply(s, recipient, step)) == PlainAfter(PlainOf(s), recipient, step)
  {
    var listener := step.listener;
    if listener !in s.order {
      assert Related(s.relation, listener) == {};
      forall p | p in s.relation ensures p.0 != listener {
        assert p.0 == listener ==> p.1 in Related(s.relation, listener);
      }
    }
    if step.UnsubscribeType? {
      LastType(s.relation, listener, step.t);
    }
  }

  function PlainRun(p: Plain, recipient: bool, steps: seq<Step>): Plain
    decreases |steps|
  {
    if steps == [] then p else PlainRun(PlainAfter(p, recipient, steps[0]), recipient, steps[1..])
  }

  /** Over every run from the empty list, the list says what the plain relation says. */
  lemma RunRefinesRelation(recipient: bool, steps: seq<Step>)
    ensures PlainOf(Run(INITIAL, recipient, steps)) == PlainRun(Plain({}, {}), recipient, steps)
  {
    assert forall k :: Related(INITIAL.relation, k) == {};
    RunRefines(INITIAL, recipient, steps);
  }

  lemma {:induction false} RunRefines(s: State, recipient: bool, steps: seq<Step>)
    requires Good(s, recipient)
    ensures PlainOf(Run(s, recipient, steps)) == PlainRun(PlainOf(s), recipient, steps)
    decreases |steps|
  {
    if steps != [] {
      StepKeepsGood(s, recipient, steps[0]);
      ListRefinesRelation(s, recipient, steps[0]);
      RunRefines(Apply(s, recipient, steps[0]), recipient, steps[1..]);
    }
  }

  /** Error codes: only a null listener, or a type taken from a listener nobody knows. */
  lemma ErrorsChangeNothing(s: State, recipient: bool, t: nat, listener: nat, worked: bool)
    requires Good(s, recipient)
    ensures DoSubscribe(s, recipient, t, listener, worked).err == ERR_OK <==> listener != NULL_LISTENER
    ensures DoUnsubscribeType(s, t, listener, worked).err == ERR_OK <==>
              listener != NULL_LISTENER && exists u :: (listener, u) in s.relation
    ensures DoUnsubscribeType(s, t, listener, worked).err != ERR_OK ==>
              DoUnsubscribeType(s, t, listener, worked).state == s
    ensures DoUnsubscribe(s, listener, worked).err != ERR_OK ==> DoUnsubscribe(s, listener, worked).state == s
  {
    if listener in s.order {
      var u :| u in Related(s.relation, listener);
      assert (listener, u) in s.relation;
    }
    forall u | (listener, u) in s.relation ensures listener in s.order {
      assert u in Related(s.relation, listener);
    }
  }

  // The rows of the list.

  datatype Row = Row(listener: nat, types: set<nat>)

  function OrderOf(rows: seq<Row>): (order: seq<nat>)
    ensures |order| == |rows|
  {
    seq(|rows|, i requires 0 <= i < |rows| => rows[i].listener)
  }

  function RelationOf(rows: seq<Row>): Relation {
    set i, t | 0 <= i < |rows| && t in rows[i].types :: (rows[i].listener, t)
  }

  lemma InRelation(rows: seq<Row>, k: nat, t: nat)
    ensures (k, t) in RelationOf(rows) <==> exists i | 0 <= i < |rows| :: rows[i].listener == k && t in rows[i].types
  {
    if i :| 0 <= i < |rows| && rows[i].listener == k && t in rows[i].types {
      assert (rows[i].listener, t) in RelationOf(rows);
    }
  }

  /** The types of a row are those its listener is related to. */
  lemma RowTypes(rows: seq<Row>, i: nat)
    requires Distinct(OrderOf(rows)) && i < |rows|
    ensures Related(RelationOf(rows), rows[i].listener) == rows[i].types
  {
    var k := rows[i].listener;
    forall t: nat ensures t in Related(RelationOf(rows), k) <==> t in rows[i].types {
      InRelation(rows, k, t);
      assert t in Related(RelationOf(rows), k) <==> (k, t) in RelationOf(rows);
      assert forall j | 0 <= j < |rows| && rows[j].listener == k :: OrderOf(rows)[j] == OrderOf(rows)[i];
    }
  }

  lemma SetRow(rows: seq<Row>, i: nat, types: set<nat>)
    requires Distinct(OrderOf(rows)) && i < |rows|
    ensures
      var rows' := rows[i := rows[i].(types := types)];
      && OrderOf(rows') == OrderOf(rows)
      && forall k: nat, t: nat :: (k, t) in RelationOf(rows') <==>
                                    if k == rows[i].listener then t in types else (k, t) in RelationOf(rows)
  {
    var rows' := rows[i := rows[i].(types := types)];
    assert OrderOf(rows') == OrderOf(rows);
    forall k: nat, t: nat
      ensures (k, t) in RelationOf(rows') <==> if k == rows[i].listener then t in types else (k, t) in RelationOf(rows)
    {
      InRelation(rows, k, t);
      InRelation(rows', k, t);
      if k == rows[i].listener {
        RowTypes(rows', i);
        assert t in Related(RelationOf(rows'), k) <==> (k, t) in RelationOf(rows');
      } else {
        assert forall j | 0 <= j < |rows| && rows[j].listener == k :: rows'[j] == rows[j];
        assert forall j | 0 <= j < |rows| && rows'[j].listener == k :: rows'[j] == rows[j];
      }
    }
  }

  lemma AddRow(rows: seq<Row>, row: Row)
    ensures OrderOf(rows + [row]) == OrderOf(rows) + [row.listener]
    ensures forall k: nat, t: nat :: (k, t) in RelationOf(rows + [row]) <==>
                                       (k, t) in RelationOf(rows) || (k == row.listener && t in row.types)
  {
    forall k: nat, t: nat
      ensures (k, t) in RelationOf(rows + [row]) <==>
                (k, t) in RelationOf(rows) || (k == row.listener && t in row.types)
    {
      InRelation(rows, k, t);
      InRelation(rows + [row], k, t);
      if i :| 0 <= i < |rows| && rows[i].listener == k && t in rows[i].types {
        assert (rows + [row])[i] == rows[i];
      }
      assert (rows + [row])[|rows|] == row;
    }
  }

  lemma DropRow(rows: seq<Row>, i: nat)
    requires Distinct(OrderOf(rows)) && i < |rows|
    ensures
      var rows' := rows[..i] + rows[i + 1..];
      && OrderOf(rows') == Dropped(OrderOf(rows), rows[i].listener)
      && RelationOf(rows') == Forget(RelationOf(rows), rows[i].listener)
  {
    var rows', l := rows[..i] + rows[i + 1..], rows[i].listener;
    DroppedAt(OrderOf(rows), i);
    assert OrderOf(rows') == OrderOf(rows)[..i] + OrderOf(rows)[i + 1..];
    forall k: nat, t: nat ensures (k, t) in RelationOf(rows') <==> (k, t) in Forget(RelationOf(rows), l) {
      DropRowAt(rows, i, k, t);
    }
  }

  lemma DropRowAt(rows: seq<Row>, i: nat, k: nat, t: nat)
    requires Distinct(OrderOf(rows)) && i < |rows|
    ensures (k, t) in RelationOf(rows[..i] + rows[i + 1..]) <==> (k, t) in RelationOf(rows) && k != rows[i].listener
  {
    var rows' := rows[..i] + rows[i + 1..];
    InRelation(rows, k, t);
    InRelation(rows', k, t);
    if j :| 0 <= j < |rows'| && rows'[j].listener == k && t in rows'[j].types {
      var j0 := if j < i then j else j + 1;
      assert rows[j0] == rows'[j] && OrderOf(rows)[j0] != OrderOf(rows)[i];
    }
    if j0 :| 0 <= j0 < |rows| && rows[j0].listener == k && t in rows[j0].types && j0 != i {
      assert rows'[if j0 < i then j0 else j0 - 1] == rows[j0];
    }
  }

  // What the edits of the list do to the state it stands for.

  function StateOf(rows: seq<Row>, watched: set<nat>): State {
    State(OrderOf(rows), RelationOf(rows), watched)
  }

  lemma Listed(rows: seq<Row>, i: nat)
    requires i < |rows|
    ensures rows[i].listener in OrderOf(rows)
  {
    assert OrderOf(rows)[i] == rows[i].listener;
  }

  lemma SubscribeListed(rows: seq<Row>, watched: set<nat>, recipient: bool, i: nat, t: nat, added: bool)
    requires Good(StateOf(rows, watched), recipient) && i < |rows| && rows[i].listener != NULL_LISTENER
    ensures
      var rows' := rows[i := rows[i].(types := rows[i].types + {t})];
      && Outcome(StateOf(rows', watched), ERR_OK) ==
         DoSubscribe(StateOf(rows, watched), recipient, t, rows[i].listener, added)
      && Good(StateOf(rows', watched), recipient)
  {
    var l := rows[i].listener;
    var rows' := rows[i := rows[i].(types := rows[i].types + {t})];
    Listed(rows, i);
    RowTypes(rows, i);
    SetRow(rows, i, rows[i].types + {t});
    assert forall u :: (l, u) in RelationOf(rows) <==> u in Related(RelationOf(rows), l);
    assert RelationOf(rows') == RelationOf(rows) + {(l, t)};
    StepKeepsGood(StateOf(rows, watched), recipient, Subscribe(t, l, added));
  }

  lemma SubscribeNew(rows: seq<Row>, watched: set<nat>, recipient: bool, l: nat, t: nat, added: bool)
    requires Good(StateOf(rows, watched), recipient) && l !in OrderOf(rows) && l != NULL_LISTENER
    ensures
      var s' := StateOf(rows + [Row(l, {t})], Watch(watched, recipient, l, added));
      && Outcome(s', ERR_OK) == DoSubscribe(StateOf(rows, watched), recipient, t, l, added)
      && Good(s', recipient)
  {
    AddRow(rows, Row(l, {t}));
    assert RelationOf(rows + [Row(l, {t})]) == RelationOf(rows) + {(l, t)};
    StepKeepsGood(StateOf(rows, watched), recipient, Subscribe(t, l, added));
  }

  lemma UnsubscribeTypeListed(rows: seq<Row>, watched: set<nat>, recipient: bool, i: nat, t: nat, removed: bool)
    requires Good(StateOf(rows, watched), recipient) && i < |rows| && rows[i].listener != NULL_LISTENER
    ensures
      var l := rows[i].listener;
      var rows1 := rows[i := rows[i].(types := rows[i].types - {t})];
      var s' := if rows1[i].types != {} then StateOf(rows1, watched)
                else StateOf(rows1[..i] + rows1[i + 1..], Unwatch(watched, l, removed));
      && Outcome(s', ERR_OK) == DoUnsubscribeType(StateOf(rows, watched), t, l, removed)
      && Good(s', recipient)
  {
    var l := rows[i].listener;
    var rows1 := rows[i := rows[i].(types := rows[i].types - {t})];
    Listed(rows, i);
    RowTypes(rows, i);
    SetRow(rows, i, rows[i].types - {t});
    assert forall u :: (l, u) in RelationOf(rows) <==> u in Related(RelationOf(rows), l);
    assert RelationOf(rows1) == RelationOf(rows) - {(l, t)};
    RowTypes(rows1, i);
    if rows1[i].types == {} {
      DropRow(rows1, i);
      ForgetNobody(RelationOf(rows1), l);
    }
    StepKeepsGood(StateOf(rows, watched), recipient, UnsubscribeType(t, l, removed));
  }

  lemma ForgetNobody(r: Relation, l: nat)
    requires Related(r, l) == {}
    ensures Forget(r, l) == r
  {
    assert forall p | p in r && p.0 == l :: p.1 in Related(r, l);
  }

  lemma UnsubscribeAny(rows: seq<Row>, watched: set<nat>, recipient: bool, i: nat, l: nat, removed: bool)
    requires Good(StateOf(rows, watched), recipient) && i <= |rows| && l != NULL_LISTENER
    requires if i < |rows| then rows[i].listener == l else l !in OrderOf(rows)
    ensures
      var rows' := if i < |rows| then rows[..i] + rows[i + 1..] else rows;
      var s' := StateOf(rows', Unwatch(watched, l, removed));
      && Outcome(s', ERR_OK) == DoUnsubscribe(StateOf(rows, watched), l, removed)
      && Good(s', recipient)
  {
    if i < |rows| { DropRow(rows, i); } else { ForgetNobody(RelationOf(rows), l); DroppedMeaning(OrderOf(rows), l); }
    StepKeepsGood(StateOf(rows, watched), recipient, Unsubscribe(l, removed));
  }

  // Publishing.

  /** Those of `order` that are related to `t` and whose proxy can be made, in order. */
  function Targets(order: seq<nat>, r: Relation, casts: set<nat>, t: nat): seq<nat> {
    if order == [] then []
    else (if (order[0], t) in r && order[0] in casts then [order[0]] else []) + Targets(order[1..], r, casts, t)
  }

  lemma {:induction false} TargetsMembers(order: seq<nat>, r: Relation, casts: set<nat>, t: nat)
    requires Distinct(order)
    ensures Distinct(Targets(order, r, casts, t))
    ensures forall k :: k in Targets(order, r, casts, t) <==> k in order && (k, t) in r && k in casts
  {
    if order != [] {
      assert Distinct(order[1..]) && order[0] !in order[1..];
      TargetsMembers(order[1..], r, casts, t);
    }
  }

  lemma {:induction false} TargetsAppend(order: seq<nat>, k: nat, r: Relation, casts: set<nat>, t: nat)
    ensures Targets(order + [k], r, casts, t)
            == Targets(order, r, casts, t) + (if (k, t) in r && k in casts then [k] else [])
  {
    if order == [] {
      assert [] + [k] == [k] && [k][1..] == [];
    } else {
      assert (order + [k])[1..] == order[1..] + [k];
      TargetsAppend(order[1..], k, r, casts, t);
    }
  }

  /** After any run, `Publish(t)` reaches exactly the listeners related to `t` that can be cast, once each. */
  lemma PublishReachesTheRelated(recipient: bool, steps: seq<Step>, casts: set<nat>, t: nat)
    ensures
      var s := Run(INITIAL, recipient, steps);
      var targets := Targets(s.order, s.relation, casts, t);
      Distinct(targets) && forall k :: k in targets <==> (k, t) in s.relation && k in casts
  {
    assert forall k :: Related(INITIAL.relation, k) == {};
    RunKeepsGood(INITIAL, recipient, steps);
    var s := Run(INITIAL, recipient, steps);
    TargetsMembers(s.order, s.relation, casts, t);
    forall k | (k, t) in s.relation ensures k in s.order {
      assert t in Related(s.relation, k);
    }
  }

  // Sending one event.

  /** Worth another try. */
  predicate Transient(code: int) {
    code == E_IPC_ERROR || code == E_IPC_SA_DIED
  }

  /** What the successive calls would answer; only ten can matter. */
  type Replies = r: seq<int> | |r| == MAX_RETRY_TIMES witness seq(MAX_RETRY_TIMES, _ => 0)
}

module SubscriberList {
  import opened AccountTypes
  import opened SubscriberListSpec

  class DistributedSubscribeRecord {
    var eventListener: nat
    var types: set<nat>

    constructor (eventListener: nat)
      ensures this.eventListener == eventListener && types == {}
    {
      this.eventListener := eventListener;
      types := {};
    }
  }

  function RowsOf(records: seq<DistributedSubscribeRecord>): (rows: seq<Row>)
    reads records
    ensures |rows| == |records|
    ensures forall i | 0 <= i < |rows| :: rows[i] == Row(records[i].eventListener, records[i].types)
  {
    if records == [] then []
    else RowsOf(records[..|records| - 1])
         + [Row(records[|records| - 1].eventListener, records[|records| - 1].types)]
  }

  class DistributedAccountSubscribeManager {
    /** Is there a death recipient? */
    const recipient: bool
    var subscribeRecords: seq<DistributedSubscribeRecord>
    /** The remote objects the recipient was added to. */
    ghost var watched: set<nat>

    function Rows(): seq<Row>
      reads this`subscribeRecords, subscribeRecords
    {
      RowsOf(subscribeRecords)
    }

    ghost function State(): SubscriberListSpec.State
      reads this, subscribeRecords
    {
      StateOf(Rows(), watched)
    }

    ghost predicate Separate()
      reads this`subscribeRecords
    {
      forall i, j | 0 <= i < j < |subscribeRecords| :: subscribeRecords[i] != subscribeRecords[j]
    }

    ghost predicate Valid()
      reads this, subscribeRecords
    {
      Separate() && Good(State(), recipient)
    }

    constructor (recipient: bool)
      ensures Valid() && this.recipient == recipient && State() == INITIAL
      ensures fresh(subscribeRecords)
    {
      this.recipient := recipient;
      subscribeRecords, watched := [], {};
    }

    /** Index of the record of a listener, or the number of records if there is none. */
    method Find(listener: nat) returns (i: nat)
      ensures i <= |subscribeRecords|
      ensures i < |subscribeRecords| ==> Rows()[i].listener == listener && listener in OrderOf(Rows())
      ensures i == |subscribeRecords| ==> listener !in OrderOf(Rows())
    {
      i := 0;
      while i < |subscribeRecords|
        invariant 0 <= i <= |subscribeRecords|
        invariant forall j | 0 <= j < i :: subscribeRecords[j].eventListener != listener
      {
        if subscribeRecords[i].eventListener == listener {
          assert OrderOf(Rows())[i] == listener;
          return;
        }
        i := i + 1;
      }
    }

    method SubscribeDistributedAccountEvent(t: nat, listener: nat, added: bool) returns (err: ErrCode)
      requires Valid()
      modifies this, subscribeRecords
      ensures Valid() && forall r | r in subscribeRecords :: r in old(subscribeRecords) || fresh(r)
      ensures Outcome(State(), err) == DoSubscribe(old(State()), recipient, t, listener, added)
    {
      if listener == NULL_LISTENER {
        return ERR_NULL_PTR;
      }
      ghost var rows, watched0 := Rows(), watched;
      var i := Find(listener);
      if i < |subscribeRecords| {
        SubscribeListed(rows, watched0, recipient, i, t, added);
        InsertType(i, t);
        return ERR_OK;
      }
      SubscribeNew(rows, watched0, recipient, listener, t, added);
      Append(listener, t, added);
      return ERR_OK;
    }

    method UnsubscribeDistributedAccountEventType(t: nat, listener: nat, removed: bool) returns (err: ErrCode)
      requires Valid()
      modifies this, subscribeRecords
      ensures Valid() && forall r | r in subscribeRecords :: r in old(subscribeRecords)
      ensures Outcome(State(), err) == DoUnsubscribeType(old(State()), t, listener, removed)
    {
      if listener == NULL_LISTENER {
        return ERR_NULL_PTR;
      }
      ghost var rows, watched0 := Rows(), watched;
      var i := Find(listener);
      if i == |subscribeRecords| {
        return ERR_NO_CALLBACK_REGISTERED;
      }
      UnsubscribeTypeListed(rows, watched0, recipient, i, t, removed);
      EraseType(i, t, removed);
      return ERR_OK;
    }

    /** Both by request and on behalf of the death recipient. */
    method UnsubscribeDistributedAccountEvent(listener: nat, removed: bool) returns (err: ErrCode)
      requires Valid()
      modifies this, subscribeRecords
      ensures Valid() && forall r | r in subscribeRecords :: r in old(subscribeRecords)
      ensures Outcome(State(), err) == DoUnsubscribe(old(State()), listener, removed)
    {
      if listener == NULL_LISTENER {
        return ERR_NULL_PTR;
      }
      ghost var rows, watched0 := Rows(), watched;
      var i := Find(listener);
      UnsubscribeAny(rows, watched0, recipient, i, listener, removed);
      Leave(i, listener, removed);
      return ERR_OK;
    }

    /** The listener is watched no longer, and its record, if there is one, goes. */
    method Leave(i: nat, listener: nat, removed: bool)
      requires i <= |subscribeRecords| && Separate()
      modifies this, subscribeRecords
      ensures Separate() && forall r | r in subscribeRecords :: r in old(subscribeRecords)
      ensures watched == Unwatch(old(watched), listener, removed)
      ensures Rows() == old(if i < |subscribeRecords| then Rows()[..i] + Rows()[i + 1..] else Rows())
    {
      watched := Unwatch(watched, listener, removed);
      if i < |subscribeRecords| {
        Erase(i);
      }
    }

    /** One type more for the record at `i`. */
    method InsertType(i: nat, t: nat)
      requires i < |subscribeRecords| && Separate()
      modifies subscribeRecords[i]
      ensures Rows() == old(Rows()[i := Row(Rows()[i].listener, Rows()[i].types + {t})])
    {
      subscribeRecords[i].types := subscribeRecords[i].types + {t};
    }

    /** One type fewer for the record at `i`, which goes with its last type. */
    method EraseType(i: nat, t: nat, removed: bool)
      requires i < |subscribeRecords| && Separate()
      modifies this, subscribeRecords[i]
      ensures Separate() && forall r | r in subscribeRecords :: r in old(subscribeRecords)
      ensures
        var rows, row := old(Rows()), old(Rows()[i]);
        var left := Row(row.listener, row.types - {t});
        && watched == (if left.types != {} then old(watched) else Unwatch(old(watched), row.listener, removed))
        && Rows() == if left.types != {} then rows[i := left] else rows[i := left][..i] + rows[i := left][i + 1..]
    {
      var record := subscribeRecords[i];
      record.types := record.types - {t};
      if record.types != {} {
        return;
      }
      watched := Unwatch(watched, record.eventListener, removed);
      Erase(i);
    }

    /** A new record at the end of the list, and its listener watched if that works. */
    method Append(listener: nat, t: nat, added: bool)
      requires Separate()
      modifies this
      ensures Separate() && Rows() == old(Rows()) + [Row(listener, {t})]
      ensures watched == Watch(old(watched), recipient, listener, added)
      ensures forall r | r in subscribeRecords :: r in old(subscribeRecords) || fresh(r)
    {
      var record := new DistributedSubscribeRecord(listener);
      watched := Watch(watched, recipient, listener, added);
      record.types := record.types + {t};
      assert record.types == {t};
      subscribeRecords := subscribeRecords + [record];
    }

    /** Blanks the record at `i` and takes it out of the list. */
    method Erase(i: nat)
      requires i < |subscribeRecords| && Separate()
      modifies this`subscribeRecords, subscribeRecords[i]
      ensures Separate() && forall r | r in subscribeRecords :: r in old(subscribeRecords)
      ensures Rows() == old(Rows()[..i] + Rows()[i + 1..])
    {
      subscribeRecords[i].eventListener := NULL_LISTENER;
      subscribeRecords := subscribeRecords[..i] + subscribeRecords[i + 1..];
    }

    method Publish(t: nat, casts: set<nat>) returns (sent: seq<nat>)
      requires Valid()
      ensures sent == Targets(OrderOf(Rows()), RelationOf(Rows()), casts, t)
    {
      ghost var order, r := OrderOf(Rows()), RelationOf(Rows());
      sent := [];
      var i := 0;
      while i < |subscribeRecords|
        invariant 0 <= i <= |subscribeRecords|
        invariant sent == Targets(order[..i], r, casts, t)
      {
        var record := subscribeRecords[i];
        RowTypes(Rows(), i);
        assert t in Related(r, record.eventListener) <==> (record.eventListener, t) in r;
        assert order[..i + 1] == order[..i] + [record.eventListener];
        TargetsAppend(order[..i], record.eventListener, r, casts, t);
        if t in record.types {
          if record.eventListener in casts {
            sent := sent + [record.eventListener];
          }
        }
        i := i + 1;
      }
      assert order[..i] == order;
    }
  }

  /** Calls again while the answer is one of two transient errors, ten times at most. */
  method SendDistributedAccountEventNotify(replies: Replies) returns (result: int, calls: nat)
    ensures 1 <= calls <= MAX_RETRY_TIMES
    ensures forall i | 0 <= i < calls - 1 :: Transient(replies[i])
    ensures result == replies[calls - 1]
    ensures calls < MAX_RETRY_TIMES ==> !Transient(result)
  {
    var retryTimes := 0;
    result := 0;
    calls := 0;
    while retryTimes < MAX_RETRY_TIMES
      invariant 0 <= retryTimes == calls <= MAX_RETRY_TIMES
      invariant forall i | 0 <= i < calls :: Transient(replies[i])
      invariant calls > 0 ==> result == replies[calls - 1]
    {
      result := replies[retryTimes];
      calls := calls + 1;
      if result == 0 || (result != E_IPC_ERROR && result != E_IPC_SA_DIED) {
        break;
      }
      retryTimes := retryTimes + 1;
    }
  }
}
