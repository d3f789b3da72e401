/**
 Database transactions of the application-account store. A recursive lock is taken when a
 transaction starts and released by its commit, by a rollback, or by the guard object whose
 deleter rolls back. Every call to the database engine answers as it likes.
 */
module TransactionsSpec {
  import opened AccountTypes

  const MAX_TIMES := 10
  const CHECK_KVSTORE_ERROR := IoError(10)
  const QUERY_DISTRIBUTE_DATA_ERROR := IoError(11)

  type Data = map<string, string>

  datatype Status = SUCCESS | IPC_ERROR | INTERNAL_ERROR | KEY_NOT_EXIST | NOT_SUPPORT

  /** What the engine answers, and whether it did the work; a success is never a lie. */
  datatype AnyReply = Reply(status: Status, done: bool)
  type Reply = r: AnyReply | r.status == SUCCESS ==> r.done witness Reply(SUCCESS, true)

  /** The answers to a call and to its repetition after an IPC error. */
  datatype Replies = Replies(first: Reply, second: Reply) {
    function Status(): Status {
      if first.status == IPC_ERROR then second.status else first.status
    }

    /** Did any of the calls made do its work? */
    predicate Done() {
      first.done || (first.status == IPC_ERROR && second.done)
    }
  }

  /** The engine: what is durable, and the working copy of the open transaction, if any. */
  datatype Store = Store(durable: Data, open: Option<Data>) {
    function View(): Data {
      if open.Some? then open.value else durable
    }
  }

  datatype Call = StartCall | CommitCall | RollbackCall | PutCall(entries: Data)

  function Perform(store: Store, call: Call): Store {
    match call
    case StartCall => store.(open := Some(store.View()))
    case CommitCall => Store(store.View(), None)
    case RollbackCall => store.(open := None)
    case PutCall(entries) =>
      if store.open.Some? then store.(open := Some(store.open.value + entries))
      else store.(durable := store.durable + entries)
  }

  function Once(store: Store, call: Call, reply: Reply): Store {
    if reply.done then Perform(store, call) else store
  }

  function Twice(store: Store, call: Call, replies: Replies): Store {
    var s1 := Once(store, call, replies.first);
    if replies.first.status == IPC_ERROR then Once(s1, call, replies.second) else s1
  }

  /** Repeating a call after an IPC error does no harm even if the first one had taken effect. */
  lemma TwiceIsOnce(store: Store, call: Call, replies: Replies)
    ensures Twice(store, call, replies) == if replies.Done() then Perform(store, call) else store
    ensures replies.Status() == SUCCESS ==> replies.Done()
  {
    if call.PutCall? {
      var s1 := Perform(store, call);
      assert s1.View() + call.entries == s1.View();
    }
  }

  /** One attempt at opening the store: its status, and whether a store object came back. */
  datatype Opening = Opening(ok: bool, pointer: bool)
  type Openings = o: seq<Opening> | |o| == MAX_TIMES witness seq(MAX_TIMES, _ => Opening(false, false))

  predicate Opens(o: Openings) {
    exists i | 0 <= i < |o| :: o[i].pointer
  }

  /** A data storage: depth of the transaction lock, whether a store object is held, the database. */
  datatype Storage = Storage(depth: int, present: bool, store: Store)

  datatype Io = Io(opening: Openings, replies: Replies)

  datatype Outcome = Outcome(state: Storage, err: ErrCode)

  function Checked(s: Storage, opening: Openings): Storage {
    s.(present := s.present || Opens(opening))
  }

  function DoStart(s: Storage, io: Io): Outcome {
    var s1 := Checked(s, io.opening);
    if !s1.present then Outcome(s1, CHECK_KVSTORE_ERROR)
    else
      var s2 := s1.(store := Twice(s1.store, StartCall, io.replies));
      if io.replies.Status() != SUCCESS then Outcome(s2, QUERY_DISTRIBUTE_DATA_ERROR)
      else Outcome(s2.(depth := s2.depth + 1), ERR_OK)
  }

  function DoCommit(s: Storage, io: Io): Outcome {
    var s1 := Checked(s, io.opening);
    if !s1.present then Outcome(s1, CHECK_KVSTORE_ERROR)
    else
      var s2 := s1.(store := Twice(s1.store, CommitCall, io.replies));
      if io.replies.Status() != SUCCESS then Outcome(s2, QUERY_DISTRIBUTE_DATA_ERROR)
      else Outcome(s2.(depth := s2.depth - 1), ERR_OK)
  }

  function DoRollback(s: Storage, io: Io): Outcome {
    var s1 := Checked(s, io.opening);
    if !s1.present then Outcome(s1.(depth := s1.depth - 1), CHECK_KVSTORE_ERROR)
    else
      var s2 := s1.(store := Twice(s1.store, RollbackCall, io.replies), depth := s1.depth - 1);
      Outcome(s2, if io.replies.Status() != SUCCESS then QUERY_DISTRIBUTE_DATA_ERROR else ERR_OK)
  }

  function DoPut(s: Storage, key: string, value: string, io: Io): Outcome {
    var s1 := Checked(s, io.opening);
    if !s1.present then Outcome(s1, CHECK_KVSTORE_ERROR)
    else
      Outcome(s1.(store := Twice(s1.store, PutCall(map[key := value]), io.replies)),
              if io.replies.Status() != SUCCESS then QUERY_DISTRIBUTE_DATA_ERROR else ERR_OK)
  }

  /** `Close` forgets the store object; the engine may drop an open transaction with it. */
  function DoClose(s: Storage, drops: bool): Storage {
    s.(present := false, store := if drops then Perform(s.store, RollbackCall) else s.store)
  }

  /**
   What the four calls answer: success exactly with a store object and a success of the engine,
   otherwise which of the two was missing. Without a store object the database is not touched.
   */
  lemma AnswersSayWhy(s: Storage, key: string, value: string, io: Io)
    ensures
      var has := s.present || Opens(io.opening);
      var want := if !has then CHECK_KVSTORE_ERROR
                  else if io.replies.Status() == SUCCESS then ERR_OK else QUERY_DISTRIBUTE_DATA_ERROR;
      && DoStart(s, io).err == DoCommit(s, io).err == DoRollback(s, io).err == DoPut(s, key, value, io).err == want
      && (!has ==> DoStart(s, io).state.store == DoCommit(s, io).state.store == DoRollback(s, io).state.store
                   == DoPut(s, key, value, io).state.store == s.store)
      && DoStart(s, io).state.present == DoCommit(s, io).state.present == DoRollback(s, io).state.present
         == DoPut(s, key, value, io).state.present == has
  {
  }

  /** A write puts its entry in what is read from then on and touches no other; a failure may have done so too. */
  lemma PutMeaning(s: Storage, key: string, value: string, io: Io)
    ensures
      var s' := DoPut(s, key, value, io).state;
      var was, now := s.store.View(), s'.store.View();
      var taken := (s.present || Opens(io.opening)) && io.replies.Done();
      && s'.depth == s.depth
      && (DoPut(s, key, value, io).err == ERR_OK ==> taken)
      && (taken ==> key in now && now[key] == value)
      && (!taken ==> s'.store == s.store)
      && (forall k | k != key :: (k in now <==> k in was) && (k in now ==> now[k] == was[k]))
      && (s.store.open.Some? ==> s'.store.durable == s.store.durable)
  {
    TwiceIsOnce(s.store, PutCall(map[key := value]), io.replies);
  }

  /** After `Close`, and as long as no store object can be had, every call is refused and nothing is read or written. */
  lemma ClosedRefuses(s: Storage, drops: bool, key: string, value: string, io: Io)
    requires !Opens(io.opening)
    ensures
      var closed := DoClose(s, drops);
      && closed.depth == s.depth && closed.store.durable == s.store.durable
      && DoStart(closed, io) == DoCommit(closed, io) == DoPut(closed, key, value, io)
         == Outcome(closed, CHECK_KVSTORE_ERROR)
  {
  }

  datatype MoveIo = MoveIo(source: Openings, destination: Openings, isKvStore: bool, read: Status,
                           start: Replies, put: Reply, commit: Replies, rollback: Replies)

  /** Copies every entry of `source` into `s`, in one transaction. `source` has been checked already. */
  function DoMove(s: Storage, source: Option<Storage>, io: MoveIo): Outcome {
    if source.None? || !source.value.present then Outcome(s, CHECK_KVSTORE_ERROR)
    else
      var s1 := Checked(s, io.destination);
      if !s1.present then Outcome(s1, CHECK_KVSTORE_ERROR)
      else if !io.isKvStore then Outcome(s1, ERR_OK)
      else if io.read != SUCCESS then Outcome(s1, QUERY_DISTRIBUTE_DATA_ERROR)
      else
        var started := DoStart(s1, Io(io.destination, io.start));
        if started.err != ERR_OK then started
        else
          var s2 := started.state.(store := Once(started.state.store, PutCall(source.value.store.View()), io.put));
          var back := Io(io.destination, io.rollback);
          if io.put.status != SUCCESS then Outcome(DoRollback(s2, back).state, QUERY_DISTRIBUTE_DATA_ERROR)
          else
            var committed := DoCommit(s2, Io(io.destination, io.commit));
            if committed.err != ERR_OK then Outcome(DoRollback(committed.state, back).state, committed.err)
            else committed
  }

  /**
   The batch move is all or nothing: what was there with the source's entries on top, or what
   was there. Success means the former, and an error can mean it only when the engine took a
   commit that it reported as failed. The lock is as deep after as before, on every path.
   */
  lemma MoveMeaning(s: Storage, source: Option<Storage>, io: MoveIo)
    ensures
      var r := DoMove(s, source, io);
      && r.state.depth == s.depth
      && (r.state.store.durable == s.store.durable
          || (source.Some? && r.state.store.durable == s.store.View() + source.value.store.View()))
      && (r.err == ERR_OK && io.isKvStore ==>
            source.Some? && r.state.store == Store(s.store.View() + source.value.store.View(), None))
      && (r.err == ERR_OK && !io.isKvStore ==> r.state.store == s.store)
      && (r.err != ERR_OK && !io.commit.Done() ==> r.state.store.durable == s.store.durable)
      && (r.err != ERR_OK && io.isKvStore && io.read == SUCCESS
          && io.start.Status() == SUCCESS && io.rollback.Done() ==>
            r.state.store.open.None? || r.state.store.open == s.store.open)
  {
    if source.Some? {
      var entries := source.value.store.View();
      TwiceIsOnce(s.store, StartCall, io.start);
      var store1 := Perform(s.store, StartCall);
      var store2 := Once(store1, PutCall(entries), io.put);
      TwiceIsOnce(store2, CommitCall, io.commit);
      TwiceIsOnce(store2, RollbackCall, io.rollback);
      TwiceIsOnce(Twice(store2, CommitCall, io.commit), RollbackCall, io.rollback);
    }
  }

  /** What the move answers: success exactly when every call on the way works, or there is nothing to be moved. */
  lemma MoveAnswers(s: Storage, source: Option<Storage>, io: MoveIo)
    ensures
      var ready := source.Some? && source.value.present && (s.present || Opens(io.destination));
      DoMove(s, source, io).err ==
      if !ready then CHECK_KVSTORE_ERROR
      else if !io.isKvStore then ERR_OK
      else if io.read == io.start.Status() == io.put.status == io.commit.Status() == SUCCESS then ERR_OK
      else QUERY_DISTRIBUTE_DATA_ERROR
  {
  }

  // Runs: any number of storages, and any number of guard variables.

  /** `guards[g] == d`: guard variable `g` holds a guard whose deleter rolls storage `d` back. */
  datatype World = World(storages: map<nat, Storage>, guards: map<nat, nat>)

  datatype Step =
    | StartDb(d: nat, guard: nat, io: Io, dropped: Io)
    | CommitDb(d: nat, guard: nat, io: Io)
    | DropGuard(guard: nat, io: Io)
    | Put(d: nat, key: string, value: string, io: Io)
    | Move(d: nat, source: nat, moveIo: MoveIo)
    | Close(d: nat, drops: bool)

  /** The storage a step works on exists. */
  predicate Names(w: World, step: Step) {
    match step
    case DropGuard(g, _) => true
    case Move(d, source, _) => d in w.storages && source in w.storages
    case _ => step.d in w.storages
  }

  ghost predicate Valid(w: World) {
    forall g | g in w.guards :: w.guards[g] in w.storages
  }

  function Set(w: World, d: nat, s: Storage): World {
    w.(storages := w.storages[d := s])
  }

  /** A guard variable lets go of its guard: the deleter rolls back, whatever the outcome. */
  function Drop(w: World, guard: nat, io: Io): World
    requires Valid(w)
  {
    if guard !in w.guards then w
    else
      var d := w.guards[guard];
      Set(w, d, DoRollback(w.storages[d], io).state).(guards := w.guards - {guard})
  }

  function Apply(w: World, step: Step): World
    requires Valid(w) && Names(w, step)
  {
    match step
    case StartDb(d, guard, io, dropped) =>
      var r := DoStart(w.storages[d], io);
      if r.err != ERR_OK then Set(w, d, r.state)
      else
        var w1 := Drop(Set(w, d, r.state), guard, dropped);
        w1.(guards := w1.guards[guard := d])
    case CommitDb(d, guard, io) =>
      var r := DoCommit(w.storages[d], io);
      if r.err != ERR_OK then Set(w, d, r.state)
      else Set(w, d, r.state).(guards := w.guards - {guard})
    case DropGuard(guard, io) => Drop(w, guard, io)
    case Put(d, key, value, io) => Set(w, d, DoPut(w.storages[d], key, value, io).state)
    case Move(d, source, io) =>
      var w1 := Set(w, source, Checked(w.storages[source], io.source));
      Set(w1, d, DoMove(w1.storages[d], Some(w1.storages[source]), io).state)
    case Close(d, drops) => Set(w, d, DoClose(w.storages[d], drops))
  }

  predicate Named(w: World, steps: seq<Step>) {
    forall i | 0 <= i < |steps| :: Names(w, steps[i])
  }

  ghost function Run(w: World, steps: seq<Step>): World
    requires Valid(w) && Named(w, steps)
    decreases |steps|
  {
    if steps == [] then w
    else StepKeepsValid(w, steps[0]); NamedTail(w, steps); Run(Apply(w, steps[0]), steps[1..])
  }

  lemma StepKeepsValid(w: World, step: Step)
    requires Valid(w) && Names(w, step)
    ensures Valid(Apply(w, step)) && Apply(w, step).storages.Keys == w.storages.Keys
  {
  }

  lemma NamedTail(w: World, steps: seq<Step>)
    requires Valid(w) && Named(w, steps) && steps != []
    ensures Named(Apply(w, steps[0]), steps[1..])
  {
    StepKeepsValid(w, steps[0]);
    var w1 := Apply(w, steps[0]);
    forall i | 0 <= i < |steps[1..]| ensures Names(w1, steps[1..][i]) {
      assert Names(w, steps[i + 1]);
    }
  }

  /** The guard variables that hold a guard on `d`. */
  ghost function Holders(w: World, d: nat): set<nat> {
    set g | g in w.guards && w.guards[g] == d
  }

  /** Every storage's lock is exactly as deep as it has live guards. */
  ghost predicate Balanced(w: World) {
    forall d | d in w.storages :: w.storages[d].depth == |Holders(w, d)|
  }

  /** A store object is held or can be had, and the engine reports success. */
  predicate Goes(s: Storage, io: Io) {
    (s.present || Opens(io.opening)) && io.replies.Status() == SUCCESS
  }

  /** A commit that goes through on behalf of a variable holding no guard on that storage. */
  predicate Overreleases(w: World, step: Step)
    requires Names(w, step)
  {
    step.CommitDb? && Goes(w.storages[step.d], step.io)
    && !(step.guard in w.guards && w.guards[step.guard] == step.d)
  }

  /** How the holders of a storage change when one guard variable changes. */
  lemma HoldersAfter(w: World, w': World, guard: nat, d: nat)
    requires w'.guards == w.guards - {guard}
             || (guard in w'.guards && w'.guards == w.guards[guard := w'.guards[guard]])
    ensures |Holders(w', d)| == |Holders(w, d)|
                                - (if guard in w.guards && w.guards[guard] == d then 1 else 0)
                                + (if guard in w'.guards && w'.guards[guard] == d then 1 else 0)
  {
    var rest := Holders(w, d) - {guard};
    assert Holders(w, d) == if guard in w.guards && w.guards[guard] == d then rest + {guard} else rest;
    assert Holders(w', d) == if guard in w'.guards && w'.guards[guard] == d then rest + {guard} else rest;
  }

  /** The lock goes out of step with the guards exactly on an over-releasing commit. */
  lemma StepBalances(w: World, step: Step)
    requires Valid(w) && Balanced(w) && Names(w, step)
    ensures Balanced(Apply(w, step)) <==> !Overreleases(w, step)
  {
    var w' := Apply(w, step);
    match step {
      case StartDb(d, guard, io, dropped) =>
        if DoStart(w.storages[d], io).err == ERR_OK {
          forall k | k in w'.storages ensures w'.storages[k].depth == |Holders(w', k)| {
            HoldersAfter(w, w', guard, k);
          }
        } else {
          forall k | k in w'.storages ensures w'.storages[k].depth == |Holders(w', k)| {
            assert Holders(w', k) == Holders(w, k);
          }
        }
      case CommitDb(d, guard, io) =>
        if DoCommit(w.storages[d], io).err == ERR_OK {
          HoldersAfter(w, w', guard, d);
          if !Overreleases(w, step) {
            forall k | k in w'.storages ensures w'.storages[k].depth == |Holders(w', k)| {
              HoldersAfter(w, w', guard, k);
            }
          }
        } else {
          forall k | k in w'.storages ensures w'.storages[k].depth == |Holders(w', k)| {
            assert Holders(w', k) == Holders(w, k);
          }
        }
      case DropGuard(guard, io) =>
        forall k | k in w'.storages ensures w'.storages[k].depth == |Holders(w', k)| {
          HoldersAfter(w, w', guard, k);
        }
      case Move(d, source, io) =>
        var w1 := Set(w, source, Checked(w.storages[source], io.source));
        MoveMeaning(w1.storages[d], Some(w1.storages[source]), io);
        forall k | k in w'.storages ensures w'.storages[k].depth == |Holders(w', k)| {
          assert Holders(w', k) == Holders(w, k);
        }
      case _ =>
        forall k | k in w'.storages ensures w'.storages[k].depth == |Holders(w', k)| {
          assert Holders(w', k) == Holders(w, k);
        }
    }
  }

  ghost predicate AlwaysBalanced(w: World, steps: seq<Step>)
    requires Valid(w) && Named(w, steps)
    decreases |steps|
  {
    Balanced(w)
    && (steps == [] || (StepKeepsValid(w, steps[0]); NamedTail(w, steps);
                        AlwaysBalanced(Apply(w, steps[0]), steps[1..])))
  }

  ghost predicate NeverOverreleases(w: World, steps: seq<Step>)
    requires Valid(w) && Named(w, steps)
    decreases |steps|
  {
    steps == []
    || (!Overreleases(w, steps[0])
        && (StepKeepsValid(w, steps[0]); NamedTail(w, steps);
            NeverOverreleases(Apply(w, steps[0]), steps[1..])))
  }

  /**
   Over every run of starts, commits that succeed or fail, retried commits, dropped guards,
   writes, moves and closes: the lock of every storage is as deep as it has live guards all
   along, exactly when no commit over-releases; then a world without guards holds no lock.
   */
  lemma {:induction false} LockDepthIsLiveGuards(w: World, steps: seq<Step>)
    requires Valid(w) && Balanced(w) && Named(w, steps)
    ensures AlwaysBalanced(w, steps) <==> NeverOverreleases(w, steps)
    ensures NeverOverreleases(w, steps) ==> Balanced(Run(w, steps))
    ensures NeverOverreleases(w, steps) && Run(w, steps).guards == map[] ==>
              forall d | d in Run(w, steps).storages :: Run(w, steps).storages[d].depth == 0
    decreases |steps|
  {
    if steps != [] {
      var w1 := Apply(w, steps[0]);
      StepKeepsValid(w, steps[0]);
      NamedTail(w, steps);
      StepBalances(w, steps[0]);
      if Balanced(w1) { LockDepthIsLiveGuards(w1, steps[1..]); } else { assert !AlwaysBalanced(w1, steps[1..]); }
    }
    var last := Run(w, steps);
    if NeverOverreleases(w, steps) && last.guards == map[] {
      forall d | d in last.storages ensures last.storages[d].depth == 0 {
        assert Holders(last, d) == {};
      }
    }
  }

  // What a transaction does to the data.

  /** Nothing but reads and writes happens on `d`, and no guard on it goes away. */
  predicate Inside(w: World, step: Step, d: nat) {
    match step
    case StartDb(k, g, _, _) => k != d && !(g in w.guards && w.guards[g] == d)
    case CommitDb(k, g, _) => k != d
    case DropGuard(g, _) => !(g in w.guards && w.guards[g] == d)
    case Put(_, _, _, _) => true
    case Move(k, _, _) => k != d
    case Close(k, _) => k != d
  }

  /** What a step writes to `d`: its entry, if the engine took it. */
  function Written(w: World, step: Step, d: nat): Data
    requires d in w.storages
  {
    if step.Put? && step.d == d && step.io.replies.Done() && Checked(w.storages[d], step.io.opening).present
    then map[step.key := step.value] else map[]
  }

  lemma InsideStep(w: World, step: Step, d: nat)
    requires Valid(w) && Names(w, step) && Inside(w, step, d)
    requires d in w.storages && w.storages[d].store.open.Some?
    ensures
      var store, store' := w.storages[d].store, Apply(w, step).storages[d].store;
      store' == store.(open := Some(store.View() + Written(w, step, d)))
  {
    var store := w.storages[d].store;
    if step.Put? && step.d == d {
      TwiceIsOnce(store, PutCall(map[step.key := step.value]), step.io.replies);
    }
    assert store.View() + map[] == store.View();
  }

  ghost predicate AllInside(w: World, steps: seq<Step>, d: nat)
    requires Valid(w) && Named(w, steps)
    decreases |steps|
  {
    steps == []
    || (Inside(w, steps[0], d)
        && (StepKeepsValid(w, steps[0]); NamedTail(w, steps); AllInside(Apply(w, steps[0]), steps[1..], d)))
  }

  /** Everything a run writes to `d`, later entries over earlier ones. */
  ghost function AllWritten(w: World, steps: seq<Step>, d: nat): Data
    requires Valid(w) && Named(w, steps) && d in w.storages
    decreases |steps|
  {
    if steps == [] then map[]
    else
      StepKeepsValid(w, steps[0]); NamedTail(w, steps);
      Written(w, steps[0], d) + AllWritten(Apply(w, steps[0]), steps[1..], d)
  }

  lemma OverlayOrder(a: Data, b: Data, c: Data)
    ensures a + b + c == a + (b + c) && a + map[] == a
  {
  }

  /** While a transaction is open nothing it writes is durable, whatever happens to other storages. */
  lemma {:induction false} InsideRun(w: World, steps: seq<Step>, d: nat)
    requires Valid(w) && Named(w, steps) && AllInside(w, steps, d)
    requires d in w.storages && w.storages[d].store.open.Some?
    ensures d in Run(w, steps).storages
    ensures
      var store, store' := w.storages[d].store, Run(w, steps).storages[d].store;
      store' == store.(open := Some(store.View() + AllWritten(w, steps, d)))
    decreases |steps|
  {
    var store := w.storages[d].store;
    if steps == [] {
      OverlayOrder(store.View(), map[], map[]);
    } else {
      var w1 := Apply(w, steps[0]);
      StepKeepsValid(w, steps[0]);
      NamedTail(w, steps);
      InsideStep(w, steps[0], d);
      InsideRun(w1, steps[1..], d);
      var first, rest := Written(w, steps[0], d), AllWritten(w1, steps[1..], d);
      OverlayOrder(store.View(), first, rest);
    }
  }

  /**
   A transaction is atomic. It starts with none open; any run follows that leaves it open; then
   a successful commit makes durable exactly what was written on top of what was there, and a
   guard whose rollback takes effect leaves what was there.
   */
  lemma TransactionIsAtomic(w: World, start: Step, steps: seq<Step>, guard: nat, d: nat, io: Io)
    requires Valid(w) && start.StartDb? && start.d == d && start.guard == guard && guard !in w.guards
    requires d in w.storages && w.storages[d].store.open.None?
    requires DoStart(w.storages[d], start.io).err == ERR_OK
    requires Valid(Apply(w, start)) && Named(Apply(w, start), steps) && AllInside(Apply(w, start), steps, d)
    ensures
      var w1 := Apply(w, start);
      var w2 := Run(w1, steps);
      && Valid(w2) && d in w2.storages
      && (DoCommit(w2.storages[d], io).err == ERR_OK ==>
            Apply(w2, CommitDb(d, guard, io)).storages[d].store
            == Store(w.storages[d].store.durable + AllWritten(w1, steps, d), None))
      && (w2.storages[d].present && io.replies.Done() && guard in w2.guards && w2.guards[guard] == d ==>
            Apply(w2, DropGuard(guard, io)).storages[d].store == w.storages[d].store)
  {
    var w1 := Apply(w, start);
    TwiceIsOnce(w.storages[d].store, StartCall, start.io.replies);
    InsideRun(w1, steps, d);
    RunKeepsValid(w1, steps);
    var w2 := Run(w1, steps);
    TwiceIsOnce(w2.storages[d].store, CommitCall, io.replies);
    TwiceIsOnce(w2.storages[d].store, RollbackCall, io.replies);
  }

  lemma {:induction false} RunKeepsValid(w: World, steps: seq<Step>)
    requires Valid(w) && Named(w, steps)
    ensures Valid(Run(w, steps)) && Run(w, steps).storages.Keys == w.storages.Keys
    decreases |steps|
  {
    if steps != [] {
      StepKeepsValid(w, steps[0]);
      NamedTail(w, steps);
      RunKeepsValid(Apply(w, steps[0]), steps[1..]);
    }
  }

  /**
   Starting again on a variable that still holds a guard keeps the lock in step, but the old
   guard's rollback throws the new transaction away: the guard is live and nothing is open.
   */
  lemma RestartLosesTheTransaction(w: World, d: nat, guard: nat, io: Io, dropped: Io)
    requires Valid(w) && d in w.storages && guard in w.guards && w.guards[guard] == d
    requires DoStart(w.storages[d], io).err == ERR_OK && dropped.replies.Done()
    ensures
      var w' := Apply(w, StartDb(d, guard, io, dropped));
      && w'.guards == w.guards && w'.storages[d].depth == w.storages[d].depth
      && w'.storages[d].store == Store(w.storages[d].store.durable, None)
  {
    var s1 := DoStart(w.storages[d], io).state;
    TwiceIsOnce(w.storages[d].store, StartCall, io.replies);
    TwiceIsOnce(s1.store, RollbackCall, dropped.replies);
  }
}

module Transactions {
  import opened AccountTypes
  import opened TransactionsSpec

  class AccountDataStorage {
    var transactionDepth: int
    var kvStorePtr: bool
    var store: Store

    function State(): Storage
      reads this
    {
      Storage(transactionDepth, kvStorePtr, store)
    }

    constructor (store: Store)
      ensures State() == Storage(0, false, store)
    {
      this.store := store;
      transactionDepth, kvStorePtr := 0, false;
    }

    /** Up to ten attempts at opening the store. */
    method CheckKvStore(opening: Openings) returns (ok: bool)
      modifies this`kvStorePtr
      ensures State() == Checked(old(State()), opening) && ok == kvStorePtr
    {
      if kvStorePtr {
        return true;
      }
      var tryTimes := MAX_TIMES;
      while tryTimes > 0
        invariant 0 <= tryTimes <= MAX_TIMES
        invariant kvStorePtr == exists i | 0 <= i < MAX_TIMES - tryTimes :: opening[i].pointer
      {
        var attempt := opening[MAX_TIMES - tryTimes];
        if attempt.pointer {
          kvStorePtr := true;
        }
        if attempt.ok && kvStorePtr {
          break;
        }
        tryTimes := tryTimes - 1;
      }
      return kvStorePtr;
    }

    /** Calls the engine, and once more if the answer is an IPC error. */
    method TryTwice(call: Call, replies: Replies) returns (status: Status)
      modifies this`store
      ensures store == Twice(old(store), call, replies) && status == replies.Status()
    {
      store := Once(store, call, replies.first);
      status := replies.first.status;
      if status == IPC_ERROR {
        store := Once(store, call, replies.second);
        status := replies.second.status;
      }
    }

    method StartTransaction(io: Io) returns (err: ErrCode)
      modifies this
      ensures Outcome(State(), err) == DoStart(old(State()), io)
    {
      var ok := CheckKvStore(io.opening);
      if !ok {
        return CHECK_KVSTORE_ERROR;
      }
      transactionDepth := transactionDepth + 1;
      var status := TryTwice(StartCall, io.replies);
      if status != SUCCESS {
        transactionDepth := transactionDepth - 1;
        return QUERY_DISTRIBUTE_DATA_ERROR;
      }
      return ERR_OK;
    }

    method Commit(io: Io) returns (err: ErrCode)
      modifies this
      ensures Outcome(State(), err) == DoCommit(old(State()), io)
    {
      var ok := CheckKvStore(io.opening);
      if !ok {
        return CHECK_KVSTORE_ERROR;
      }
      var status := TryTwice(CommitCall, io.replies);
      if status != SUCCESS {
        return QUERY_DISTRIBUTE_DATA_ERROR;
      }
      transactionDepth := transactionDepth - 1;
      return ERR_OK;
    }

    method Rollback(io: Io) returns (err: ErrCode)
      modifies this
      ensures Outcome(State(), err) == DoRollback(old(State()), io)
    {
      var ok := CheckKvStore(io.opening);
      if !ok {
        transactionDepth := transactionDepth - 1;
        return CHECK_KVSTORE_ERROR;
      }
      var status := TryTwice(RollbackCall, io.replies);
      transactionDepth := transactionDepth - 1;
      if status != SUCCESS {
        return QUERY_DISTRIBUTE_DATA_ERROR;
      }
      return ERR_OK;
    }

    method PutValueToKvStore(key: string, value: string, io: Io) returns (err: ErrCode)
      modifies this
      ensures Outcome(State(), err) == DoPut(old(State()), key, value, io)
    {
      var ok := CheckKvStore(io.opening);
      if !ok {
        return CHECK_KVSTORE_ERROR;
      }
      var status := TryTwice(PutCall(map[key := value]), io.replies);
      if status != SUCCESS {
        return QUERY_DISTRIBUTE_DATA_ERROR;
      }
      return ERR_OK;
    }

    method Close(drops: bool)
      modifies this
      ensures State() == DoClose(old(State()), drops)
    {
      if drops {
        store := Perform(store, RollbackCall);
      }
      kvStorePtr := false;
    }

    /** Copies everything `ptr` holds into this storage; `ptr` itself is at most opened. */
    method MoveData(ptr: AccountDataStorage?, io: MoveIo) returns (err: ErrCode)
      modifies this, if ptr == null then {} else {ptr}
      ensures ptr == null ==> Outcome(State(), err) == DoMove(old(State()), None, io)
      ensures ptr != null && ptr != this ==>
                && ptr.State() == Checked(old(ptr.State()), io.source)
                && Outcome(State(), err) == DoMove(old(State()), Some(ptr.State()), io)
      ensures ptr == this ==>
                var checked := Checked(old(State()), io.source);
                Outcome(State(), err) == DoMove(checked, Some(checked), io)
    {
      if ptr == null {
        return CHECK_KVSTORE_ERROR;
      }
      var ok := ptr.CheckKvStore(io.source);
      if !ok {
        return CHECK_KVSTORE_ERROR;
      }
      ok := CheckKvStore(io.destination);
      if !ok {
        return CHECK_KVSTORE_ERROR;
      }
      if !io.isKvStore {
        return ERR_OK;
      }
      var entries := ptr.store.View();
      if io.read != SUCCESS {
        return QUERY_DISTRIBUTE_DATA_ERROR;
      }
      err := StartTransaction(Io(io.destination, io.start));
      if err != ERR_OK {
        return;
      }
      store := Once(store, PutCall(entries), io.put);
      if io.put.status != SUCCESS {
        var _ := Rollback(Io(io.destination, io.rollback));
        return QUERY_DISTRIBUTE_DATA_ERROR;
      }
      err := Commit(Io(io.destination, io.commit));
      if err != ERR_OK {
        var _ := Rollback(Io(io.destination, io.rollback));
      }
    }
  }

  /** The guard variable: null, or a guard whose deleter rolls its storage back. */
  class DatabaseTransaction {
    var owner: AccountDataStorage?

    constructor ()
      ensures owner == null
    {
      owner := null;
    }

    /** The deleter, when the variable is overwritten or goes out of scope. */
    method Reset(io: Io)
      modifies this, owner
      ensures owner == null
      ensures old(owner) != null ==> old(owner).State() == DoRollback(old(owner.State()), io).state
    {
      if owner != null {
        var _ := owner.Rollback(io);
      }
      owner := null;
    }
  }

  method StartDbTransaction(storage: AccountDataStorage, guard: DatabaseTransaction, io: Io, oldIo: Io)
    returns (err: ErrCode)
    modifies storage, guard, guard.owner
    ensures err == DoStart(old(storage.State()), io).err
    ensures err != ERR_OK ==> guard.owner == old(guard.owner)
    ensures err != ERR_OK || old(guard.owner) != storage ==>
              storage.State() == DoStart(old(storage.State()), io).state
    ensures err == ERR_OK ==> guard.owner == storage
    ensures err == ERR_OK && old(guard.owner) == storage ==>
              storage.State() == DoRollback(DoStart(old(storage.State()), io).state, oldIo).state
    ensures old(guard.owner) != null && old(guard.owner) != storage ==>
              old(guard.owner).State() == if err == ERR_OK then DoRollback(old(guard.owner.State()), oldIo).state
                                          else old(guard.owner.State())
  {
    err := storage.StartTransaction(io);
    if err != ERR_OK {
      return;
    }
    guard.Reset(oldIo);
    guard.owner := storage;
  }

  method CommitDbTransaction(storage: AccountDataStorage, guard: DatabaseTransaction, io: Io) returns (err: ErrCode)
    modifies storage, guard
    ensures Outcome(storage.State(), err) == DoCommit(old(storage.State()), io)
    ensures guard.owner == if err == ERR_OK then null else old(guard.owner)
  {
    err := storage.Commit(io);
    if err != ERR_OK {
      return;
    }
    guard.owner := null;
  }
}
