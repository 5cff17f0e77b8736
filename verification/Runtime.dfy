/** The supervised runner: a runtime row driving the task store in bounded iterations. */
module Runtime {
  import opened Ordering
  import opened Outcomes
  import Orchestration

  datatype RuntimeState =
    | Initialized | Idle | Polling | Executing | Checkpointing
    | Paused | Interrupted | Recovering | Failed | Stopped

  function ValidTransitions(s: RuntimeState): set<RuntimeState> {
    match s
    case Initialized => {Idle, Stopped}
    case Idle => {Polling, Paused, Stopped, Interrupted}
    case Polling => {Executing, Idle, Checkpointing, Interrupted, Paused, Stopped}
    case Executing => {Polling, Checkpointing, Idle, Interrupted, Paused}
    case Checkpointing => {Idle, Polling, Interrupted, Paused}
    case Paused => {Idle, Recovering, Stopped}
    case Interrupted => {Recovering, Stopped}
    case Recovering => {Idle, Failed}
    case Failed => {Recovering, Stopped}
    case Stopped => {}
  }

  /** The same table seen from the state that is entered. */
  lemma StatesBefore(s: RuntimeState, target: RuntimeState)
    ensures target in ValidTransitions(s) <==>
              match target
              case Initialized => false
              case Idle => s in {Initialized, Polling, Executing, Checkpointing, Paused, Recovering}
              case Polling => s in {Idle, Executing, Checkpointing}
              case Executing => s == Polling
              case Checkpointing => s in {Polling, Executing}
              case Paused => s in {Idle, Polling, Executing, Checkpointing}
              case Interrupted => s in {Idle, Polling, Executing, Checkpointing}
              case Recovering => s in {Paused, Interrupted, Failed}
              case Failed => s == Recovering
              case Stopped => s in {Initialized, Idle, Polling, Paused, Interrupted, Failed}
  {
  }

  datatype LineageEvent = LineageEvent(oldState: Option<RuntimeState>, newState: RuntimeState, reason: string,
                                       iteration: int)

  datatype Checkpoint = Checkpoint(iteration: int, tasksExecuted: nat)

  // ---------------------------------------------------------------------------
  // The runtime row, its lineage and its checkpoints
  // ---------------------------------------------------------------------------

  const REGISTERED := "Runtime registered"

  ghost predicate IsHistory(h: seq<LineageEvent>) {
    && h != []
    && h[0] == LineageEvent(None, Initialized, REGISTERED, 0)
    && forall i | 1 <= i < |h| :: EventFollows(h, i)
  }

  ghost predicate EventFollows(h: seq<LineageEvent>, i: nat) {
    1 <= i < |h| && h[i].oldState == Some(h[i - 1].newState)
    && h[i].newState in ValidTransitions(h[i - 1].newState)
  }

  /** How many moves to `executing` the lineage records. */
  function ExecutingMoves(h: seq<LineageEvent>): nat {
    if h == [] then 0
    else ExecutingMoves(h[..|h| - 1]) + if h[|h| - 1].newState == Executing then 1 else 0
  }

  lemma ExecutingMovesSnoc(h: seq<LineageEvent>, e: LineageEvent)
    ensures ExecutingMoves(h + [e]) == ExecutingMoves(h) + if e.newState == Executing then 1 else 0
  {
    assert (h + [e])[..|h|] == h;
  }

  /** The row, its lineage and its checkpoints as a value. */
  datatype Row = Row(state: RuntimeState, iteration: int, lineage: seq<LineageEvent>, checkpoints: seq<Checkpoint>)

  /** `row` is `row0` after one logged move to `target`. */
  function Moved(row0: Row, target: RuntimeState, reason: string, iteration: int): Row {
    Row(target, iteration, row0.lineage + [LineageEvent(Some(row0.state), target, reason, iteration)], row0.checkpoints)
  }

  /** The row after a recovery: through recovering, unless it is there already, to idle. */
  function Recovered(row: Row, reason: string, iteration: int): Row {
    var recovering := if row.state == Recovering then row else Moved(row, Recovering, reason, iteration);
    Moved(recovering, Idle, RECOVERED + reason, iteration)
  }

  function Checkpointed(row0: Row, iteration: int, tasksExecuted: nat): Row {
    row0.(checkpoints := row0.checkpoints + [Checkpoint(iteration, tasksExecuted)])
  }

  class RuntimeRow {
    var state: RuntimeState
    var iteration: int
    var version: nat
    var lineage: seq<LineageEvent>
    var checkpoints: seq<Checkpoint>

    function Contents(): Row
      reads this
    {
      Row(state, iteration, lineage, checkpoints)
    }

    /** The row is what its lineage says. */
    ghost predicate Valid()
      reads this
    {
      && IsHistory(lineage) && version == |lineage|
      && lineage[|lineage| - 1].newState == state && lineage[|lineage| - 1].iteration == iteration
      && (state == Initialized ==> iteration == 0)
    }

    constructor ()
      ensures Valid() && Contents() == Row(Initialized, 0, [LineageEvent(None, Initialized, REGISTERED, 0)], [])
    {
      state, iteration, version := Initialized, 0, 1;
      lineage := [LineageEvent(None, Initialized, REGISTERED, 0)];
      checkpoints := [];
    }

    /** `transition_runtime` */
    method Transition(target: RuntimeState, reason: string, iter: int) returns (error: Option<Error>)
      requires Valid()
      modifies this`state, this`iteration, this`version, this`lineage
      ensures Valid()
      ensures error == if Blank(reason) then Some(ValidationError)
                       else if target !in ValidTransitions(old(state)) then Some(TransitionError) else None
      ensures Contents() == if error.None? then Moved(old(Contents()), target, reason, iter) else old(Contents())
    {
      if Blank(reason) { return Some(ValidationError); }
      if target !in ValidTransitions(state) { return Some(TransitionError); }
      lineage := lineage + [LineageEvent(Some(state), target, reason, iter)];
      assert forall i | 1 <= i < |lineage| :: EventFollows(lineage, i) by {
        forall i | 1 <= i < |lineage|
          ensures EventFollows(lineage, i)
        {
          if i < |lineage| - 1 { assert EventFollows(old(lineage), i); }
        }
      }
      state, iteration, version := target, iter, version + 1;
      return None;
    }

    /** `save_checkpoint` */
    method SaveCheckpoint(iter: int, tasksExecuted: nat, reason: string) returns (error: Option<Error>)
      modifies this`checkpoints
      ensures error == if Blank(reason) then Some(ValidationError) else None
      ensures Contents() == if error.None? then Checkpointed(old(Contents()), iter, tasksExecuted) else old(Contents())
    {
      if Blank(reason) { return Some(ValidationError); }
      checkpoints := checkpoints + [Checkpoint(iter, tasksExecuted)];
      return None;
    }

    /** `pause_runtime` and `stop_runtime`: without an iteration the row keeps its own. */
    method Move(target: RuntimeState, reason: string, iter: Option<int>) returns (error: Option<Error>)
      requires Valid()
      modifies this`state, this`iteration, this`version, this`lineage
      ensures Valid()
      ensures error == if Blank(reason) then Some(ValidationError)
                       else if target !in ValidTransitions(old(state)) then Some(TransitionError) else None
      ensures Contents() ==
                if error.None?
                then Moved(old(Contents()), target, reason, if iter.Some? then iter.value else old(iteration))
                else old(Contents())
    {
      hide IsHistory, ValidTransitions, Blank;
      error := Transition(target, reason, if iter.Some? then iter.value else iteration);
    }

    /** `recover_runtime`: through recovering to idle.  From recovering the first step is skipped, and
        with it the check of the reason, which the second step extends to a non-empty text. */
    method Recover(reason: string, iter: Option<int>) returns (error: Option<Error>)
      requires Valid()
      modifies this`state, this`iteration, this`version, this`lineage
      ensures Valid()
      ensures error == if old(state) != Recovering && Blank(reason) then Some(ValidationError)
                       else if old(state) !in {Interrupted, Failed, Paused, Recovering} then Some(TransitionError)
                       else None
      ensures Contents() == if error.None?
                            then Recovered(old(Contents()), reason, if iter.Some? then iter.value else old(iteration))
                            else old(Contents())
    {
      hide IsHistory, Blank;
      var effective := if iter.Some? then iter.value else iteration;
      if state != Recovering {
        error := Transition(Recovering, reason, effective);
        if error.Some? { return; }
      }
      RecoveredIsNotBlank(reason);
      error := Transition(Idle, RECOVERED + reason, effective);
    }
  }

  const RECOVERED := "Recovery complete \U{2014} "

  /** What a recovery leaves and logs: idle, with the caller's reason in every event. */
  lemma RecoveryIsLogged(row: Row, reason: string, i: int)
    ensures var text := "Recovery complete \U{2014} " + reason;
            Recovered(row, reason, i) ==
            Row(Idle, i,
                row.lineage
                + (if row.state == Recovering then []
                   else [LineageEvent(Some(row.state), Recovering, reason, i)])
                + [LineageEvent(Some(Recovering), Idle, text, i)],
                row.checkpoints)
  {
  }

  lemma PrefixedIsNotBlank(a: string, b: string)
    requires a != "" && !IsSpace(a[0])
    ensures !Blank(a + b)
  {
    assert (a + b)[0] == a[0];
  }

  lemma RecoveredIsNotBlank(reason: string)
    ensures !Blank(RECOVERED + reason)
  {
    PrefixedIsNotBlank(RECOVERED, reason);
  }

  /** `register_runtime` */
  method RegisterRuntime(name: string, database: string, actor: string) returns (r: Result<RuntimeRow>)
    ensures Blank(name) || Blank(database) || Blank(actor) ==> r == Err(ValidationError)
    ensures !Blank(name) && !Blank(database) && !Blank(actor) ==>
              && r.Ok? && fresh(r.value) && r.value.Valid()
              && r.value.Contents()
                 == Row(Initialized, 0, [LineageEvent(None, Initialized, "Runtime registered", 0)], [])
  {
    hide Blank, IsHistory;
    if Blank(name) || Blank(database) || Blank(actor) { return Err(ValidationError); }
    var row := new RuntimeRow();
    return Ok(row);
  }

  // ---------------------------------------------------------------------------
  // Executing one task
  // ---------------------------------------------------------------------------

  datatype HandlerResult = Success | Failure(error: string)

  /** What the registry knows and what its handlers return. */
  datatype Registry = Registry(types: set<string>, handle: int -> HandlerResult)

  const START_REASON := "Runtime: task execution started"

  function FinalState(t: Orchestration.Task, registry: Registry): Orchestration.TaskState {
    if t.taskType in registry.types && registry.handle(t.id).Success? then Orchestration.Completed
    else Orchestration.Failed
  }

  function FinalReason(t: Orchestration.Task, registry: Registry): string {
    if t.taskType !in registry.types then "missing_handler:" + t.taskType
    else match registry.handle(t.id)
      case Success => "Handler succeeded: " + t.taskType
      case Failure(error) => "Handler failed: " + error
  }

  function Started(db: Orchestration.Db, id: int, actor: string): Orchestration.Db
    requires id in db.tasks
  {
    Orchestration.Transitioned(db, id, Orchestration.Running, START_REASON, actor)
  }

  function Executed(db: Orchestration.Db, id: int, actor: string, registry: Registry): Orchestration.Db
    requires id in db.tasks
  {
    var t := db.tasks[id];
    Orchestration.Transitioned(Started(db, id, actor), id, FinalState(t, registry), FinalReason(t, registry), actor)
  }

  lemma ReasonsAreNotBlank(t: Orchestration.Task, registry: Registry)
    ensures !Blank(START_REASON) && !Blank(FinalReason(t, registry))
  {
    assert !IsSpace(START_REASON[0]);
    PrefixedIsNotBlank("missing_handler:", t.taskType);
    PrefixedIsNotBlank("Handler succeeded: ", t.taskType);
    if t.taskType in registry.types && registry.handle(t.id).Failure? {
      PrefixedIsNotBlank("Handler failed: ", registry.handle(t.id).error);
    }
  }

  /** `u` is the task `t` after its run: completed exactly when its type is registered and its handler
      succeeds, failed otherwise. */
  ghost predicate EndsAsHandled(t: Orchestration.Task, u: Orchestration.Task, registry: Registry) {
    && u.state == (if t.taskType in registry.types && registry.handle(t.id) == Success then Orchestration.Completed
                   else Orchestration.Failed)
    && u == t.(state := u.state, version := t.version + 2)
  }

  ghost predicate GivesReason(t: Orchestration.Task, reason: string, registry: Registry) {
    && (t.taskType !in registry.types ==> reason == "missing_handler:" + t.taskType)
    && (t.taskType in registry.types ==>
          match registry.handle(t.id)
          case Success => reason == "Handler succeeded: " + t.taskType
          case Failure(error) => reason == "Handler failed: " + error)
  }

  /** A run of a ready task changes that task only, and logs exactly its start and its end. */
  ghost predicate LogsRun(before: Orchestration.Db, after: Orchestration.Db, id: int, actor: string,
                          registry: Registry) {
    && id in before.tasks && id in after.tasks && EndsAsHandled(before.tasks[id], after.tasks[id], registry)
    && after == before.(tasks := before.tasks[id := after.tasks[id]], lineage := after.lineage)
    && |after.lineage| == |before.lineage| + 2 && after.lineage[..|before.lineage|] == before.lineage
    && var first, last := after.lineage[|before.lineage|], after.lineage[|before.lineage| + 1];
       var snapshot := Orchestration.DependencySnapshot(before, id);
       && first == Orchestration.LineageEvent(id, Some(before.tasks[id].state), Orchestration.Running,
                                              "Runtime: task execution started", actor, snapshot)
       && last == Orchestration.LineageEvent(id, Some(Orchestration.Running), after.tasks[id].state, last.reason,
                                             actor, snapshot)
       && GivesReason(before.tasks[id], last.reason, registry)
  }

  lemma ExecutedLogsRun(db: Orchestration.Db, id: int, actor: string, registry: Registry)
    requires id in db.tasks && db.tasks[id].id == id
    ensures LogsRun(db, Executed(db, id, actor, registry), id, actor, registry)
  {
    hide GivesReason, FinalReason;
    FinalReasonIsGiven(db.tasks[id], registry);
    SameSnapshot(db, id, actor);
    var started, after := Started(db, id, actor), Executed(db, id, actor, registry);
    assert after.lineage == db.lineage + [started.lineage[|db.lineage|]] + [after.lineage[|db.lineage| + 1]];
    assert after.tasks == db.tasks[id := after.tasks[id]];
  }

  lemma FinalReasonIsGiven(t: Orchestration.Task, registry: Registry)
    ensures GivesReason(t, FinalReason(t, registry), registry)
  {
  }

  lemma SameSnapshot(db: Orchestration.Db, id: int, actor: string)
    requires id in db.tasks
    ensures Orchestration.DependencySnapshot(Started(db, id, actor), id) == Orchestration.DependencySnapshot(db, id)
  {
  }

  datatype TaskOutcome = Done | LeftRunning | Refused(error: Error)

  /** Ready to running, then the handler, then completed or failed.  `interrupt` says whether a
      KeyboardInterrupt arrives while the handler runs; nothing catches it here. */
  method ExecuteTask(store: Orchestration.TaskStore, id: int, actor: string, registry: Registry, interrupt: bool)
    returns (r: TaskOutcome)
    modifies store
    ensures var before := old(store.Contents());
            var refusal := StartRefusal(before, id, actor);
            if refusal.Some? then r == Refused(refusal.value) && store.Contents() == before
            else id in before.tasks &&
                 if interrupt then r == LeftRunning && store.Contents() == Started(before, id, actor)
                 else r == Done && store.Contents() == Executed(before, id, actor, registry)
    ensures r == Done && old(store.Contents()).tasks[id].id == id ==>
              LogsRun(old(store.Contents()), store.Contents(), id, actor, registry)
  {
    hide Orchestration.DependencySnapshot, Blank, LogsRun;
    ghost var before := old(store.Contents());
    var running := store.TransitionTask(id, Orchestration.Running, START_REASON, actor);
    if running.Err? { return Refused(running.error); }
    var task := running.value;
    ReasonsAreNotBlank(task, registry);
    SameHandler(before.tasks[id], task, registry);
    if interrupt { return LeftRunning; }
    if before.tasks[id].id == id { ExecutedLogsRun(before, id, actor, registry); }
    if task.taskType !in registry.types {
      var _ := store.TransitionTask(id, Orchestration.Failed, "missing_handler:" + task.taskType, actor);
      return Done;
    }
    match registry.handle(task.id) {
      case Success =>
        var _ := store.TransitionTask(id, Orchestration.Completed, "Handler succeeded: " + task.taskType, actor);
      case Failure(error) =>
        var _ := store.TransitionTask(id, Orchestration.Failed, "Handler failed: " + error, actor);
    }
    return Done;
  }

  /** The refusal of the move to running: only a ready task starts. */
  function StartRefusal(db: Orchestration.Db, id: int, actor: string): Option<Error> {
    Orchestration.TransitionRefusal(db, id, Orchestration.Running, START_REASON, actor)
  }

  /** What a handler does depends on the task's id and type, which no transition changes. */
  lemma SameHandler(t: Orchestration.Task, u: Orchestration.Task, registry: Registry)
    requires t.id == u.id && t.taskType == u.taskType
    ensures FinalState(t, registry) == FinalState(u, registry) && FinalReason(t, registry) == FinalReason(u, registry)
  {
  }

  lemma ReadyTaskStarts(db: Orchestration.Db, id: int, actor: string)
    requires id in db.tasks && db.tasks[id].state == Orchestration.Ready
    ensures StartRefusal(db, id, actor) == if Blank(actor) then Some(ValidationError) else None
  {
    hide Blank;
    ReasonsAreNotBlank(db.tasks[id], Registry({}, _ => Success));
  }

  // ---------------------------------------------------------------------------
  // Executing from the head of the ready queue
  // ---------------------------------------------------------------------------

  function Ids(tasks: seq<Orchestration.Task>): seq<int> {
    seq(|tasks|, i requires 0 <= i < |tasks| => tasks[i].id)
  }

  /** The store after executing the tasks `ids` in order. */
  ghost function ExecutedAll(db: Orchestration.Db, ids: seq<int>, actor: string, registry: Registry): Orchestration.Db {
    if ids == [] then db
    else
      var before := ExecutedAll(db, ids[..|ids| - 1], actor, registry);
      var id := ids[|ids| - 1];
      if id in before.tasks then Executed(before, id, actor, registry) else before
  }

  ghost predicate Sound(db: Orchestration.Db) {
    Orchestration.LineageIsTruth(db)
  }

  lemma StartedIsSound(db: Orchestration.Db, id: int, actor: string)
    requires Sound(db) && id in db.tasks && db.tasks[id].state == Orchestration.Ready
    ensures Sound(Started(db, id, actor))
    ensures Started(db, id, actor).tasks == db.tasks[id := Started(db, id, actor).tasks[id]]
    ensures Started(db, id, actor).tasks[id].state == Orchestration.Running
  {
    hide Orchestration.RowIsTrue, Orchestration.DependencySnapshot;
    Orchestration.TransitionKeepsTruth(db, id, Orchestration.Running, START_REASON, actor);
  }

  lemma ExecutedIsSound(db: Orchestration.Db, id: int, actor: string, registry: Registry)
    requires Sound(db) && id in db.tasks && db.tasks[id].state == Orchestration.Ready
    ensures Sound(Executed(db, id, actor, registry))
    ensures Executed(db, id, actor, registry).tasks == db.tasks[id := Executed(db, id, actor, registry).tasks[id]]
    ensures EndsAsHandled(db.tasks[id], Executed(db, id, actor, registry).tasks[id], registry)
  {
    hide Orchestration.RowIsTrue, Orchestration.DependencySnapshot, FinalReason;
    StartedIsSound(db, id, actor);
    Orchestration.TransitionKeepsTruth(Started(db, id, actor), id, FinalState(db.tasks[id], registry),
                                       FinalReason(db.tasks[id], registry), actor);
  }

  ghost function Queue(db: Orchestration.Db): seq<Orchestration.Task>
    requires Sound(db)
  {
    QueueRows(db);
    Orchestration.InOrder(db, Orchestration.ReadyTasks(db))
  }

  lemma QueueRows(db: Orchestration.Db)
    requires Sound(db)
    ensures Orchestration.AreRows(db, Orchestration.ReadyTasks(db))
  {
    hide Orchestration.RowIsTrue;
  }

  lemma ReadyLosesHead(db: Orchestration.Db, after: Orchestration.Db, head: Orchestration.Task)
    requires Sound(db) && Sound(after) && head in Orchestration.ReadyTasks(db)
    requires head.id in after.tasks && after.tasks == db.tasks[head.id := after.tasks[head.id]]
    requires after.tasks[head.id].state != Orchestration.Ready
    ensures Orchestration.ReadyTasks(after) == Orchestration.ReadyTasks(db) - {head}
  {
    hide Sound, Orchestration.ReadyTasks;
    forall t
      ensures t in Orchestration.ReadyTasks(after) <==> t in Orchestration.ReadyTasks(db) - {head}
    {
      ReadyRow(db, t);
      ReadyRow(after, t);
      ReadyRow(db, head);
    }
  }

  lemma QueueIsSorted(db: Orchestration.Db)
    requires Sound(db)
    ensures Orchestration.AreRows(db, Orchestration.ReadyTasks(db))
    ensures TotalOrderOn(Orchestration.ReadyTasks(db), Orchestration.PriorityLe)
    ensures Queue(db) == SortedBy(Orchestration.ReadyTasks(db), Orchestration.PriorityLe)
    ensures Orchestration.ReadyTasks(db) == {} <==> Queue(db) == []
  {
    hide Orchestration.RowIsTrue;
    QueueRows(db);
  }

  /** Moving the head of the queue out of `ready` leaves exactly the rest of the queue. */
  lemma HeadLeavesQueue(db: Orchestration.Db, after: Orchestration.Db)
    requires Sound(db) && Sound(after) && Queue(db) != []
    requires var id := Queue(db)[0].id;
             id in after.tasks && after.tasks == db.tasks[id := after.tasks[id]]
             && after.tasks[id].state != Orchestration.Ready
    ensures Queue(after) == Queue(db)[1..]
  {
    hide *;
    QueueIsSorted(db);
    QueueIsSorted(after);
    SortedTail(Orchestration.ReadyTasks(db), Orchestration.PriorityLe);
    ReadyLosesHead(db, after, Queue(db)[0]);
  }

  /** The queue: exactly the ready tasks, each once, the smaller priority number first and at equal
      priority the smaller id. */
  lemma QueueIsByPriority(db: Orchestration.Db)
    requires Sound(db)
    ensures var q := Queue(db);
            && (forall t :: t in q <==> t.id in db.tasks && db.tasks[t.id] == t && t.state == Orchestration.Ready)
            && forall i, j | 0 <= i < j < |q| ::
                 q[i].priority < q[j].priority || (q[i].priority == q[j].priority && q[i].id < q[j].id)
  {
    hide Orchestration.RowIsTrue, Orchestration.ReadyTasks, TotalOrderOn;
    var q := Queue(db);
    QueueIsSorted(db);
    forall t
      ensures t in q <==> t.id in db.tasks && db.tasks[t.id] == t && t.state == Orchestration.Ready
    {
      ReadyRow(db, t);
    }
    QueueIdsDistinct(db);
    forall i, j | 0 <= i < j < |q|
      ensures q[i].priority < q[j].priority || (q[i].priority == q[j].priority && q[i].id < q[j].id)
    {
      assert Ids(q)[i] != Ids(q)[j];
    }
  }

  lemma ReadyRow(db: Orchestration.Db, t: Orchestration.Task)
    requires Sound(db)
    ensures t in Orchestration.ReadyTasks(db)
       <==> t.id in db.tasks && db.tasks[t.id] == t && t.state == Orchestration.Ready
  {
    hide Orchestration.RowIsTrue;
  }

  // ---------------------------------------------------------------------------
  // Draining the queue in batches
  // ---------------------------------------------------------------------------

  /** `list_tasks` is called with its default limit, although the poll promises all ready tasks. */
  const POLL_LIMIT: nat := 50

  /** Each of the tasks has ended as its handler says. */
  ghost predicate Settled(db: Orchestration.Db, tasks: seq<Orchestration.Task>, registry: Registry) {
    forall t | t in tasks :: t.id in db.tasks && EndsAsHandled(t, db.tasks[t.id], registry)
  }

  ghost predicate OthersUntouched(db0: Orchestration.Db, db: Orchestration.Db, tasks: seq<Orchestration.Task>) {
    && db.tasks.Keys == db0.tasks.Keys
    && forall id | id in db0.tasks && id !in Ids(tasks) :: db.tasks[id] == db0.tasks[id]
  }

  /** `db` is `db0` after executing, in order, exactly the first `k` tasks of its ready queue. */
  ghost predicate Drained(db0: Orchestration.Db, db: Orchestration.Db, k: nat, actor: string, registry: Registry)
  {
    && Sound(db0) && Sound(db) && k <= |Queue(db0)|
    && db == ExecutedAll(db0, Ids(Queue(db0)[..k]), actor, registry)
    && Queue(db) == Queue(db0)[k..]
    && Settled(db, Queue(db0)[..k], registry)
    && OthersUntouched(db0, db, Queue(db0)[..k])
  }

  /** As `Drained`, except that the next task of the queue has been started and not finished. */
  ghost predicate HalfDrained(db0: Orchestration.Db, db: Orchestration.Db, k: nat, actor: string, registry: Registry) {
    exists mid :: Drained(db0, mid, k, actor, registry) && k < |Queue(db0)|
                  && Queue(db0)[k].id in mid.tasks && db == Started(mid, Queue(db0)[k].id, actor)
  }

  lemma NothingDrained(db: Orchestration.Db, actor: string, registry: Registry)
    requires Sound(db)
    ensures Drained(db, db, 0, actor, registry)
  {
    hide Sound, Queue;
    assert Queue(db)[..0] == [] && Queue(db)[0..] == Queue(db);
    assert Ids([]) == [];
  }

  lemma HeadRow(db: Orchestration.Db)
    requires Sound(db) && Queue(db) != []
    ensures var t := Queue(db)[0];
            t.id in db.tasks && db.tasks[t.id] == t && t.state == Orchestration.Ready
  {
    hide Sound, Orchestration.ReadyTasks, TotalOrderOn;
    QueueIsSorted(db);
    assert Queue(db)[0] in Queue(db);
    ReadyRow(db, Queue(db)[0]);
  }

  lemma NextRow(db0: Orchestration.Db, db: Orchestration.Db, k: nat, actor: string, registry: Registry)
    requires Drained(db0, db, k, actor, registry) && k < |Queue(db0)|
    ensures var t := Queue(db0)[k];
            t.id in db.tasks && db.tasks[t.id] == t && t.state == Orchestration.Ready
  {
    hide Sound, Queue, ExecutedAll, Settled, OthersUntouched;
    HeadRow(db);
    assert Queue(db)[0] == Queue(db0)[k];
  }

  lemma IdsSnoc(q: seq<Orchestration.Task>, k: nat)
    requires k < |q|
    ensures Ids(q[..k + 1]) == Ids(q[..k]) + [q[k].id]
    ensures q[..k + 1] == q[..k] + [q[k]]
    ensures forall i | 0 <= i < k :: Ids(q[..k])[i] == q[i].id
  {
  }

  lemma ExecutedAllSnoc(db0: Orchestration.Db, ids: seq<int>, id: int, actor: string, registry: Registry)
    requires id in ExecutedAll(db0, ids, actor, registry).tasks
    ensures ExecutedAll(db0, ids + [id], actor, registry)
         == Executed(ExecutedAll(db0, ids, actor, registry), id, actor, registry)
  {
    hide Executed;
    assert (ids + [id])[..|ids|] == ids;
  }

  lemma DrainOne(db0: Orchestration.Db, db: Orchestration.Db, k: nat, actor: string, registry: Registry)
    requires Drained(db0, db, k, actor, registry) && k < |Queue(db0)| && Queue(db0)[k].id in db.tasks
    ensures Drained(db0, Executed(db, Queue(db0)[k].id, actor, registry), k + 1, actor, registry)
  {
    hide Sound, Queue, ExecutedAll, Executed, Started;
    var t := Queue(db0)[k];
    var after := Executed(db, t.id, actor, registry);
    NextRow(db0, db, k, actor, registry);
    ExecutedIsSound(db, t.id, actor, registry);
    assert Queue(db)[0] == t;
    HeadLeavesQueue(db, after);
    IdsSnoc(Queue(db0), k);
    ExecutedAllSnoc(db0, Ids(Queue(db0)[..k]), t.id, actor, registry);
    assert Queue(db0)[k..][1..] == Queue(db0)[k + 1..];
  }

  // ---------------------------------------------------------------------------
  // Calls and interrupts
  // ---------------------------------------------------------------------------

  /** Where a KeyboardInterrupt can arrive: on entry, at the top of the loop, around the phases, around
      and inside a task, and between a task's last commit and its being counted. */
  datatype Point =
    | Entering | Entered | Top | BeforePoll | AfterPoll | BeforeTask(k: nat) | InHandler(k: nat) | AfterTask(k: nat)
    | BeforeCheckpoint | InCheckpoint | BeforeIdle

  /** `RuntimeConfig`; a checkpoint interval below 1 is refused when the value is built. */
  datatype Config = Config(actor: string, maxIterations: Option<int>, checkpointEvery: int, allowUnbounded: bool)

  /** The arguments of a run: besides the source's own, when an interrupt arrives, and how many
      iterations are observed. */
  datatype Call = Call(config: Config, shouldStop: Option<int -> bool>, registry: Registry,
                       interrupt: (int, Point) -> bool, horizon: nat)

  function Min(a: nat, b: nat): nat { if a < b then a else b }

  /** Iteration `i` writes a checkpoint, if it takes tasks. */
  predicate Due(call: Call, i: int) {
    call.config.checkpointEvery >= 1 && i % call.config.checkpointEvery == 0
  }

  /** An iteration that takes `b` tasks ends at the first of them: its actor is blank. */
  predicate Refuses(call: Call, b: nat) {
    b > 0 && Blank(call.config.actor)
  }

  /** Iteration `i`, taking `b` tasks, comes by the point `p` unless an interrupt cuts it before. */
  predicate Passes(call: Call, i: int, b: nat, p: Point) {
    match p
    case Entering => false
    case Entered => false
    case Top => false
    case BeforePoll => true
    case AfterPoll => true
    case BeforeTask(k) => k < b && (Refuses(call, b) ==> k == 0)
    case InHandler(k) => k < b && !Refuses(call, b)
    case AfterTask(k) => k < b && !Refuses(call, b)
    case BeforeCheckpoint => b > 0 && !Refuses(call, b)
    case InCheckpoint => b > 0 && !Refuses(call, b) && Due(call, i)
    case BeforeIdle => b > 0 && !Refuses(call, b)
  }

  /** The order in which an iteration that takes `b` tasks comes by its points. */
  function Place(p: Point, b: nat): nat {
    match p
    case Entering => 0
    case Entered => 0
    case Top => 0
    case BeforePoll => 0
    case AfterPoll => 1
    case BeforeTask(k) => 3 * k + 2
    case InHandler(k) => 3 * k + 3
    case AfterTask(k) => 3 * k + 4
    case BeforeCheckpoint => 3 * b + 2
    case InCheckpoint => 3 * b + 3
    case BeforeIdle => 3 * b + 4
  }

  /** No interrupt arrives at the points of iteration `i` before place `m`. */
  ghost predicate Quiet(call: Call, i: int, b: nat, m: nat) {
    forall p | Passes(call, i, b, p) && Place(p, b) < m :: !call.interrupt(i, p)
  }

  /** No interrupt arrives at any point of iteration `i`. */
  ghost predicate Undisturbed(call: Call, i: int, b: nat) {
    forall p | Passes(call, i, b, p) :: !call.interrupt(i, p)
  }

  /** The first interrupt of iteration `i` arrives at `p`. */
  ghost predicate CutAt(call: Call, i: int, b: nat, p: Point) {
    Passes(call, i, b, p) && call.interrupt(i, p) && Quiet(call, i, b, Place(p, b))
  }

  lemma QuietNext(call: Call, i: int, b: nat, p: Point)
    requires Quiet(call, i, b, Place(p, b)) && Passes(call, i, b, p) && !call.interrupt(i, p)
    ensures Quiet(call, i, b, Place(p, b) + 1)
  {
    hide Refuses, Due;
    forall q | Passes(call, i, b, q) && Place(q, b) <= Place(p, b)
      ensures !call.interrupt(i, q)
    {
      if Place(q, b) == Place(p, b) { PlaceIsInjective(call, i, b, p, q); }
    }
  }

  lemma PlaceIsInjective(call: Call, i: int, b: nat, p: Point, q: Point)
    requires Passes(call, i, b, p) && Passes(call, i, b, q) && Place(p, b) == Place(q, b)
    ensures p == q
  {
    hide Refuses, Due;
  }

  /** Without a checkpoint, without tasks, or refused, the iteration has no further points. */
  lemma QuietToTheEnd(call: Call, i: int, b: nat, m: nat)
    requires Quiet(call, i, b, m)
    requires if b == 0 then m >= 2 else if Refuses(call, b) then m >= 3 else m >= 3 * b + 5
    ensures Undisturbed(call, i, b)
  {
    hide Refuses, Due;
  }

  lemma QuietPastCheckpoint(call: Call, i: int, b: nat)
    requires Quiet(call, i, b, 3 * b + 3) && !Due(call, i)
    ensures Quiet(call, i, b, 3 * b + 4)
  {
    hide Refuses, Due;
  }

  lemma CutOnce(call: Call, i: int, b: nat, p: Point, q: Point)
    requires CutAt(call, i, b, p) && CutAt(call, i, b, q)
    ensures p == q
  {
    hide Refuses, Due, Passes, Place;
    if Place(p, b) == Place(q, b) { PlaceIsInjective(call, i, b, p, q); }
  }

  // ---------------------------------------------------------------------------
  // The batch
  // ---------------------------------------------------------------------------

  /** What an interrupt at `p` leaves of a batch that had `k` tasks counted in all: those are settled,
      and the next one is untouched, started, or settled and not yet counted. */
  ghost predicate StoreAt(db0: Orchestration.Db, db: Orchestration.Db, k: nat, call: Call, p: Point) {
    match p
    case InHandler(_) => HalfDrained(db0, db, k, call.config.actor, call.registry)
    case AfterTask(_) => Drained(db0, db, k + 1, call.config.actor, call.registry)
    case _ => Drained(db0, db, k, call.config.actor, call.registry)
  }

  /** How many tasks of its batch an iteration has counted at the point `p`. */
  function Counted(b: nat, p: Point): nat {
    match p
    case BeforeTask(k) => k
    case InHandler(k) => k
    case AfterTask(k) => k
    case BeforeCheckpoint => b
    case InCheckpoint => b
    case BeforeIdle => b
    case _ => 0
  }

  datatype Status = Going | Broken(at: Point) | Rejected(error: Error)

  /** How the batch of iteration `i` ends: all of it, up to its first interrupt, or refused. */
  ghost predicate BatchEnds(db0: Orchestration.Db, db: Orchestration.Db, call: Call, i: int, b: nat, from: nat,
                            status: Status, executed: nat) {
    match status
    case Going =>
      && !Refuses(call, b) && Quiet(call, i, b, 3 * b + 2) && executed == b
      && Drained(db0, db, from + executed, call.config.actor, call.registry)
    case Broken(at) =>
      && (at.BeforeTask? || at.InHandler? || at.AfterTask?) && CutAt(call, i, b, at) && executed == Counted(b, at)
      && StoreAt(db0, db, from + executed, call, at)
    case Rejected(error) =>
      && Refuses(call, b) && Undisturbed(call, i, b) && executed == 0 && error == ValidationError
      && Drained(db0, db, from, call.config.actor, call.registry)
  }

  method ExecuteBatch(store: Orchestration.TaskStore, batch: seq<Orchestration.Task>, call: Call, iteration: int,
                      ghost db0: Orchestration.Db, ghost from: nat)
    returns (status: Status, executed: nat)
    requires Drained(db0, store.Contents(), from, call.config.actor, call.registry)
    requires from + |batch| <= |Queue(db0)| && batch == Queue(db0)[from..from + |batch|]
    requires Quiet(call, iteration, |batch|, 2)
    modifies store
    ensures BatchEnds(db0, store.Contents(), call, iteration, |batch|, from, status, executed)
  {
    hide *;
    executed := 0;
    BatchStarts(call, |batch|);
    while executed < |batch|
      invariant executed <= |batch|
      invariant Drained(db0, store.Contents(), from + executed, call.config.actor, call.registry)
      invariant Quiet(call, iteration, |batch|, Place(BeforeTask(executed), |batch|))
      invariant executed > 0 ==> !Refuses(call, |batch|)
    {
      ghost var mid := store.Contents();
      TaskPoints(call, iteration, |batch|, executed);
      if call.interrupt(iteration, BeforeTask(executed)) {
        BatchCut(db0, mid, call, iteration, |batch|, from, BeforeTask(executed));
        return Broken(BeforeTask(executed)), executed;
      }
      QuietNext(call, iteration, |batch|, BeforeTask(executed));
      NextInBatch(db0, mid, from, executed, batch, call.config.actor, call.registry);
      var id := batch[executed].id;
      ReadyTaskStarts(mid, id, call.config.actor);
      var r := ExecuteTask(store, id, call.config.actor, call.registry, call.interrupt(iteration, InHandler(executed)));
      TaskRefusal(call, |batch|);
      match r {
        case Refused(error) =>
          BatchRefused(db0, mid, call, iteration, |batch|, from);
          return Rejected(error), executed;
        case LeftRunning =>
          HalfDrains(db0, mid, from + executed, call.config.actor, call.registry);
          BatchCut(db0, store.Contents(), call, iteration, |batch|, from, InHandler(executed));
          return Broken(InHandler(executed)), executed;
        case Done =>
          DrainOne(db0, mid, from + executed, call.config.actor, call.registry);
          QuietNext(call, iteration, |batch|, InHandler(executed));
          if call.interrupt(iteration, AfterTask(executed)) {
            BatchCut(db0, store.Contents(), call, iteration, |batch|, from, AfterTask(executed));
            return Broken(AfterTask(executed)), executed;
          }
          QuietNext(call, iteration, |batch|, AfterTask(executed));
          executed := executed + 1;
      }
    }
    BatchDone(db0, store.Contents(), call, iteration, |batch|, from);
    return Going, executed;
  }

  lemma BatchStarts(call: Call, b: nat)
    ensures Place(BeforeTask(0), b) == 2
    ensures b == 0 ==> !Refuses(call, b)
  {
  }

  lemma TaskRefusal(call: Call, b: nat)
    ensures b > 0 ==> (Refuses(call, b) <==> Blank(call.config.actor))
  {
    hide Blank;
  }

  lemma TaskPoints(call: Call, i: int, b: nat, k: nat)
    requires k < b && (k > 0 ==> !Refuses(call, b))
    ensures Passes(call, i, b, BeforeTask(k))
    ensures !Refuses(call, b) ==> Passes(call, i, b, InHandler(k)) && Passes(call, i, b, AfterTask(k))
    ensures Place(InHandler(k), b) == Place(BeforeTask(k), b) + 1
    ensures Place(AfterTask(k), b) == Place(InHandler(k), b) + 1
    ensures Place(BeforeTask(k + 1), b) == Place(AfterTask(k), b) + 1
  {
    hide Refuses;
  }

  lemma BatchCut(db0: Orchestration.Db, db: Orchestration.Db, call: Call, i: int, b: nat, from: nat, p: Point)
    requires p.BeforeTask? || p.InHandler? || p.AfterTask?
    requires Passes(call, i, b, p) && call.interrupt(i, p) && Quiet(call, i, b, Place(p, b))
    requires match p
             case InHandler(k) => HalfDrained(db0, db, from + k, call.config.actor, call.registry)
             case AfterTask(k) => Drained(db0, db, from + k + 1, call.config.actor, call.registry)
             case BeforeTask(k) => Drained(db0, db, from + k, call.config.actor, call.registry)
    ensures BatchEnds(db0, db, call, i, b, from, Broken(p), p.k)
  {
    hide Drained, HalfDrained, Passes, Quiet, Place;
  }

  lemma BatchRefused(db0: Orchestration.Db, db: Orchestration.Db, call: Call, i: int, b: nat, from: nat)
    requires Refuses(call, b) && Quiet(call, i, b, Place(BeforeTask(0), b) + 1)
    requires Drained(db0, db, from, call.config.actor, call.registry)
    ensures BatchEnds(db0, db, call, i, b, from, Rejected(ValidationError), 0)
  {
    hide Drained, Passes, Quiet, Undisturbed;
    QuietToTheEnd(call, i, b, 3);
  }

  lemma BatchDone(db0: Orchestration.Db, db: Orchestration.Db, call: Call, i: int, b: nat, from: nat)
    requires !Refuses(call, b) && Quiet(call, i, b, Place(BeforeTask(b), b))
    requires Drained(db0, db, from + b, call.config.actor, call.registry)
    ensures BatchEnds(db0, db, call, i, b, from, Going, b)
  {
    hide Drained, Passes, Quiet, Undisturbed;
  }

  lemma HalfDrains(db0: Orchestration.Db, mid: Orchestration.Db, k: nat, actor: string, registry: Registry)
    requires Drained(db0, mid, k, actor, registry) && k < |Queue(db0)| && Queue(db0)[k].id in mid.tasks
    ensures HalfDrained(db0, Started(mid, Queue(db0)[k].id, actor), k, actor, registry)
  {
    hide Drained, Started;
  }

  lemma NextInBatch(db0: Orchestration.Db, db: Orchestration.Db, from: nat, i: nat,
                    batch: seq<Orchestration.Task>, actor: string, registry: Registry)
    requires Drained(db0, db, from + i, actor, registry)
    requires from + |batch| <= |Queue(db0)| && batch == Queue(db0)[from..from + |batch|] && i < |batch|
    ensures batch[i] == Queue(db0)[from + i] && batch[i].id in db.tasks
            && db.tasks[batch[i].id].state == Orchestration.Ready
  {
    hide Sound, Queue, ExecutedAll, Settled, OthersUntouched;
    assert batch[i] == Queue(db0)[from + i];
    NextRow(db0, db, from + i, actor, registry);
  }

  // ---------------------------------------------------------------------------
  // One iteration
  // ---------------------------------------------------------------------------

  method PollReadyTasks(store: Orchestration.TaskStore) returns (tasks: seq<Orchestration.Task>)
    requires Sound(store.Contents())
    ensures tasks == Queue(store.Contents())[..Min(POLL_LIMIT, |Queue(store.Contents())|)]
  {
    hide Orchestration.RowIsTrue, TotalOrderOn, IsListing;
    QueueIsSorted(store.Contents());
    var r := store.ListTasks(Some(Orchestration.Ready), None, None, POLL_LIMIT);
    tasks := r.value;
    ListsFirstIff(tasks, Orchestration.ReadyTasks(store.Contents()), Orchestration.PriorityLe, POLL_LIMIT);
  }

  /** The next batch is the next stretch of the queue as it was at the start. */
  lemma BatchIsNextStretch(db0: Orchestration.Db, db: Orchestration.Db, k: nat, actor: string, registry: Registry)
    requires Drained(db0, db, k, actor, registry)
    ensures var n := Min(POLL_LIMIT, |Queue(db)|);
            && |Queue(db)| == |Queue(db0)| - k
            && Queue(db)[..n] == Queue(db0)[k..k + n]
  {
    hide Sound, Queue, ExecutedAll, Settled, OthersUntouched;
  }

  /** The states the loop moves between. */
  const LIVE: set<RuntimeState> := {Idle, Polling, Executing, Checkpointing}

  /** The states a run starts from, and those it cannot start from. */
  const STARTABLE: set<RuntimeState> := {Initialized, Paused, Idle}
  const HALTED: set<RuntimeState> := {Interrupted, Recovering, Failed, Stopped}

  /** The moves the loop makes between its own states are all permitted. */
  lemma LoopMoves()
    ensures Executing in ValidTransitions(Polling) && Idle in ValidTransitions(Polling)
    ensures Checkpointing in ValidTransitions(Executing) && Idle in ValidTransitions(Executing)
    ensures Idle in ValidTransitions(Checkpointing)
    ensures forall s | s in {Initialized, Paused} :: Idle in ValidTransitions(s)
    ensures forall s | s !in {Initialized, Paused} ::
              (Interrupted in ValidTransitions(s) <==> s in LIVE) && (Paused in ValidTransitions(s) <==> s in LIVE)
    ensures forall s | s !in {Initialized, Paused} :: Polling in ValidTransitions(s) <==> s in LIVE && s != Polling
  {
  }

  /** The runner's own reasons. */
  datatype Step = Resume | Start | Poll | NoWork | Execute | Save | Saved | Unsaved | Maximum | Signal | Interrupt

  datatype StopReason = MaxIterations | ShouldStop

  function Reason(step: Step): string {
    match step
    case Resume => "Runner: resuming from paused"
    case Start => "Runner: starting from initialized"
    case Poll => "Runner: polling iteration"
    case NoWork => "Runner: no ready tasks"
    case Execute => "Runner: executing task(s)"
    case Save => "Runner: checkpointing after iteration"
    case Saved => "Runner: checkpoint complete"
    case Unsaved => "Runner: execution complete"
    case Maximum => "Runner: max_iterations reached"
    case Signal => "Runner: stopped by should_stop signal"
    case Interrupt => "Runner: KeyboardInterrupt received"
  }

  lemma ReasonsNotBlank()
    ensures forall step :: !Blank(Reason(step))
  {
    hide Reason;
    forall step
      ensures !Blank(Reason(step))
    {
      ReasonStarts(step);
      assert !IsSpace(Reason(step)[0]);
    }
  }

  lemma ReasonStarts(step: Step)
    ensures Reason(step) != [] && Reason(step)[0] == 'R'
  {
  }

  function Advanced(row: Row, target: RuntimeState, step: Step, iteration: int): Row {
    Moved(row, target, Reason(step), iteration)
  }

  /** A move of the runner itself, which never has a blank reason. */
  method Advance(rt: RuntimeRow, target: RuntimeState, step: Step, iteration: int) returns (error: Option<Error>)
    requires rt.Valid()
    modifies rt
    ensures rt.Valid()
    ensures error == if target in ValidTransitions(old(rt.state)) then None else Some(TransitionError)
    ensures rt.Contents() ==
              if error.None? then Advanced(old(rt.Contents()), target, step, iteration) else old(rt.Contents())
  {
    hide IsHistory, ValidTransitions, Blank, Reason;
    ReasonsNotBlank();
    error := rt.Transition(target, Reason(step), iteration);
  }

  // The row in the phases of iteration `i`; `done` counts the tasks executed up to its end.

  function PolledRow(row: Row, i: int): Row {
    Advanced(row, Polling, Poll, i)
  }

  function ExecutingRow(row: Row, i: int): Row {
    Advanced(PolledRow(row, i), Executing, Execute, i)
  }

  function SavingRow(row: Row, i: int): Row {
    Advanced(ExecutingRow(row, i), Checkpointing, Save, i)
  }

  function SavedRow(row: Row, call: Call, i: int, done: nat): Row {
    if Due(call, i) then Checkpointed(SavingRow(row, i), i, done) else ExecutingRow(row, i)
  }

  function IteratedRow(row: Row, call: Call, i: int, b: nat, done: nat): Row {
    if b == 0 then Advanced(PolledRow(row, i), Idle, NoWork, i)
    else Advanced(SavedRow(row, call, i, done), Idle, if Due(call, i) then Saved else Unsaved, i)
  }

  /** What a complete iteration logs, and what it writes. */
  lemma IterationIsLogged(row: Row, call: Call, i: int, b: nat, done: nat)
    requires call.config.checkpointEvery >= 1
    ensures var after := IteratedRow(row, call, i, b, done);
            var due := i % call.config.checkpointEvery == 0;
            && after.state == Idle && after.iteration == i
            && after.checkpoints == row.checkpoints + (if b > 0 && due then [Checkpoint(i, done)] else [])
            && after.lineage ==
               row.lineage
               + [LineageEvent(Some(row.state), Polling, "Runner: polling iteration", i)]
               + (if b == 0 then [LineageEvent(Some(Polling), Idle, "Runner: no ready tasks", i)]
                  else [LineageEvent(Some(Polling), Executing, "Runner: executing task(s)", i)]
                       + if due
                         then [LineageEvent(Some(Executing), Checkpointing, "Runner: checkpointing after iteration", i),
                               LineageEvent(Some(Checkpointing), Idle, "Runner: checkpoint complete", i)]
                         else [LineageEvent(Some(Executing), Idle, "Runner: execution complete", i)])
  {
  }

  function RowAt(row: Row, call: Call, i: int, done: nat, p: Point): Row {
    match p
    case Entering => row
    case Entered => row
    case Top => row
    case BeforePoll => row
    case AfterPoll => PolledRow(row, i)
    case InCheckpoint => SavingRow(row, i)
    case BeforeIdle => SavedRow(row, call, i, done)
    case _ => ExecutingRow(row, i)
  }

  function PausedRow(row: Row, i: int, reason: StopReason): Row {
    Advanced(row, Paused, if reason == MaxIterations then Maximum else Signal, i)
  }

  function InterruptedRow(row: Row, i: int, done: nat): Row {
    Checkpointed(Advanced(row, Interrupted, Interrupt, i), i, done)
  }

  /** Iteration `i`, entered in `state` and taking `b` tasks, comes to its end. */
  ghost predicate Completes(call: Call, state: RuntimeState, i: int, b: nat) {
    state in LIVE && state != Polling && Undisturbed(call, i, b) && !Refuses(call, b)
  }

  /** How iteration `i` ends: complete, cut at its first interrupt, or refused for the state of the row
      or for a blank actor. */
  ghost predicate IterationEnds(db0: Orchestration.Db, db: Orchestration.Db, row0: Row, row: Row, call: Call, i: int,
                                b: nat, from: nat, status: Status, executed: nat) {
    match status
    case Going =>
      && Completes(call, row0.state, i, b) && executed == b && row == IteratedRow(row0, call, i, b, from + b)
      && Drained(db0, db, from + b, call.config.actor, call.registry)
    case Broken(at) =>
      && CutAt(call, i, b, at) && (at != BeforePoll ==> row0.state in LIVE && row0.state != Polling)
      && executed == Counted(b, at) && row == RowAt(row0, call, i, from + b, at)
      && StoreAt(db0, db, from + executed, call, at)
    case Rejected(error) =>
      && executed == 0 && Drained(db0, db, from, call.config.actor, call.registry)
      && if error == ValidationError
         then && row0.state in LIVE && row0.state != Polling && Refuses(call, b) && Undisturbed(call, i, b)
              && row == ExecutingRow(row0, i)
         else && error == TransitionError && (row0.state in LIVE ==> row0.state == Polling)
              && !call.interrupt(i, BeforePoll) && row == row0
  }

  lemma PollPoints(call: Call, i: int, b: nat)
    ensures Passes(call, i, b, BeforePoll) && Passes(call, i, b, AfterPoll)
    ensures Quiet(call, i, b, Place(BeforePoll, b))
    ensures Place(AfterPoll, b) == Place(BeforePoll, b) + 1 && 2 == Place(AfterPoll, b) + 1
  {
    hide Refuses;
  }

  lemma CutBeforeBatch(db0: Orchestration.Db, db: Orchestration.Db, row0: Row, call: Call, i: int, b: nat, from: nat,
                       at: Point)
    requires at in {BeforePoll, AfterPoll} && CutAt(call, i, b, at)
    requires at == AfterPoll ==> row0.state in LIVE && row0.state != Polling
    requires Drained(db0, db, from, call.config.actor, call.registry)
    ensures IterationEnds(db0, db, row0, RowAt(row0, call, i, from + b, at), call, i, b, from, Broken(at), 0)
  {
    hide Drained, CutAt;
  }

  lemma IdleIteration(db0: Orchestration.Db, db: Orchestration.Db, row0: Row, call: Call, i: int, from: nat)
    requires Quiet(call, i, 0, 2) && row0.state in LIVE && row0.state != Polling
    requires Drained(db0, db, from, call.config.actor, call.registry)
    ensures IterationEnds(db0, db, row0, Advanced(PolledRow(row0, i), Idle, NoWork, i), call, i, 0, from, Going, 0)
  {
    hide Drained, Quiet, Undisturbed;
    QuietToTheEnd(call, i, 0, 2);
  }

  lemma RowStates(row: Row, i: int)
    ensures PolledRow(row, i).state == Polling && ExecutingRow(row, i).state == Executing
    ensures SavingRow(row, i).state == Checkpointing
  {
    hide Reason;
  }

  /** A batch found by the poll: executing, the tasks, and the checkpoint. */
  method ExecutePhase(rt: RuntimeRow, store: Orchestration.TaskStore, ready: seq<Orchestration.Task>, call: Call,
                      iteration: int, soFar: nat, ghost db0: Orchestration.Db, ghost row0: Row)
    returns (status: Status, executed: nat)
    requires rt.Valid() && rt.Contents() == PolledRow(row0, iteration) && call.config.checkpointEvery >= 1
    requires row0.state in LIVE && row0.state != Polling
    requires Drained(db0, store.Contents(), soFar, call.config.actor, call.registry)
    requires ready != [] && soFar + |ready| <= |Queue(db0)| && ready == Queue(db0)[soFar..soFar + |ready|]
    requires Quiet(call, iteration, |ready|, 2)
    modifies rt, store
    ensures rt.Valid()
    ensures IterationEnds(db0, store.Contents(), row0, rt.Contents(), call, iteration, |ready|, soFar, status, executed)
  {
    hide Drained, Queue, IsHistory, ValidTransitions, Quiet, Reason, Advanced, PolledRow, BatchEnds, IterationEnds;
    LoopMoves();
    RowStates(row0, iteration);
    var _ := Advance(rt, Executing, Execute, iteration);
    status, executed := ExecuteBatch(store, ready, call, iteration, db0, soFar);
    ghost var db := store.Contents();
    if status != Going {
      BatchLeft(db0, db, row0, call, iteration, |ready|, soFar, status, executed);
      return;
    }
    BatchTaken(db0, db, call, iteration, |ready|, soFar, executed);
    var broken := CheckpointPhase(rt, call, iteration, soFar + executed, |ready|, row0);
    if broken.Some? { status := Broken(broken.value); }
    CheckpointLeft(db0, db, row0, rt.Contents(), call, iteration, |ready|, soFar, broken);
  }

  lemma BatchLeft(db0: Orchestration.Db, db: Orchestration.Db, row0: Row, call: Call, i: int, b: nat, from: nat,
                  status: Status, executed: nat)
    requires BatchEnds(db0, db, call, i, b, from, status, executed) && status != Going
    requires row0.state in LIVE && row0.state != Polling
    ensures IterationEnds(db0, db, row0, ExecutingRow(row0, i), call, i, b, from, status, executed)
  {
    hide Drained, StoreAt, CutAt, Undisturbed, ExecutingRow;
  }

  lemma BatchTaken(db0: Orchestration.Db, db: Orchestration.Db, call: Call, i: int, b: nat, from: nat, executed: nat)
    requires BatchEnds(db0, db, call, i, b, from, Going, executed)
    ensures !Refuses(call, b) && Quiet(call, i, b, 3 * b + 2) && executed == b
    ensures Drained(db0, db, from + executed, call.config.actor, call.registry)
  {
    hide Drained, Quiet;
  }

  lemma CheckpointLeft(db0: Orchestration.Db, db: Orchestration.Db, row0: Row, row: Row, call: Call, i: int, b: nat,
                       from: nat, broken: Option<Point>)
    requires CheckpointEnds(row0, row, call, i, b, from + b, broken) && !Refuses(call, b)
    requires row0.state in LIVE && row0.state != Polling
    requires Drained(db0, db, from + b, call.config.actor, call.registry)
    ensures IterationEnds(db0, db, row0, row, call, i, b, from,
                          if broken.None? then Going else Broken(broken.value), b)
  {
    hide Drained, CutAt, Undisturbed, RowAt, IteratedRow;
  }

  /** How the checkpoint phase ends: with the row idle again, or at its first interrupt. */
  ghost predicate CheckpointEnds(row0: Row, row: Row, call: Call, i: int, b: nat, done: nat, broken: Option<Point>) {
    match broken
    case None => Undisturbed(call, i, b) && row == IteratedRow(row0, call, i, b, done)
    case Some(at) =>
      && at in {BeforeCheckpoint, InCheckpoint, BeforeIdle} && CutAt(call, i, b, at)
      && row == RowAt(row0, call, i, done, at)
  }

  /** After the batch: a checkpoint every `checkpointEvery` iterations, then back to idle. */
  method CheckpointPhase(rt: RuntimeRow, call: Call, iteration: int, tasksExecuted: nat, ghost b: nat, ghost row0: Row)
    returns (broken: Option<Point>)
    requires rt.Valid() && rt.Contents() == ExecutingRow(row0, iteration) && call.config.checkpointEvery >= 1
    requires b > 0 && !Refuses(call, b) && Quiet(call, iteration, b, 3 * b + 2)
    modifies rt
    ensures rt.Valid()
    ensures CheckpointEnds(row0, rt.Contents(), call, iteration, b, tasksExecuted, broken)
  {
    hide IsHistory, ValidTransitions, Blank, Reason, Quiet, Undisturbed, Advanced, ExecutingRow, Refuses;
    LoopMoves();
    ReasonsNotBlank();
    RowStates(row0, iteration);
    if call.interrupt(iteration, BeforeCheckpoint) { return Some(BeforeCheckpoint); }
    QuietNext(call, iteration, b, BeforeCheckpoint);
    var due := iteration % call.config.checkpointEvery == 0;
    if due {
      var _ := Advance(rt, Checkpointing, Save, iteration);
      if call.interrupt(iteration, InCheckpoint) { return Some(InCheckpoint); }
      QuietNext(call, iteration, b, InCheckpoint);
      var _ := rt.SaveCheckpoint(iteration, tasksExecuted, Reason(Save));
    } else {
      QuietPastCheckpoint(call, iteration, b);
    }
    if call.interrupt(iteration, BeforeIdle) { return Some(BeforeIdle); }
    QuietNext(call, iteration, b, BeforeIdle);
    QuietToTheEnd(call, iteration, b, 3 * b + 5);
    var _ := Advance(rt, Idle, if due then Saved else Unsaved, iteration);
    return None;
  }

  lemma DrainedBounds(db0: Orchestration.Db, db: Orchestration.Db, k: nat, actor: string, registry: Registry)
    requires Drained(db0, db, k, actor, registry)
    ensures Sound(db0) && Sound(db) && k <= |Queue(db0)|
  {
  }

  lemma RejectedAtPoll(db0: Orchestration.Db, db: Orchestration.Db, row0: Row, call: Call, i: int, b: nat, from: nat)
    requires !call.interrupt(i, BeforePoll) && (row0.state in LIVE ==> row0.state == Polling)
    requires Drained(db0, db, from, call.config.actor, call.registry)
    ensures IterationEnds(db0, db, row0, row0, call, i, b, from, Rejected(TransitionError), 0)
  {
    hide Drained;
  }

  /** Poll, execute, checkpoint: one round of the loop, from any state of the row. */
  method RunIteration(rt: RuntimeRow, store: Orchestration.TaskStore, call: Call, iteration: int, soFar: nat,
                      ghost db0: Orchestration.Db)
    returns (status: Status, executed: nat)
    requires rt.Valid() && call.config.checkpointEvery >= 1 && rt.state !in {Initialized, Paused}
    requires Drained(db0, store.Contents(), soFar, call.config.actor, call.registry)
    modifies rt, store
    ensures rt.Valid() && soFar <= |Queue(db0)|
    ensures IterationEnds(db0, store.Contents(), old(rt.Contents()), rt.Contents(), call, iteration,
                          Min(POLL_LIMIT, |Queue(db0)| - soFar), soFar, status, executed)
  {
    hide Drained, Queue, IsHistory, ValidTransitions, Quiet, Reason, Advanced, IterationEnds;
    LoopMoves();
    RowStates(rt.Contents(), iteration);
    executed := 0;
    ghost var row0 := rt.Contents();
    DrainedBounds(db0, store.Contents(), soFar, call.config.actor, call.registry);
    BatchIsNextStretch(db0, store.Contents(), soFar, call.config.actor, call.registry);
    ghost var b := Min(POLL_LIMIT, |Queue(db0)| - soFar);
    PollPoints(call, iteration, b);
    if call.interrupt(iteration, BeforePoll) {
      CutBeforeBatch(db0, store.Contents(), row0, call, iteration, b, soFar, BeforePoll);
      return Broken(BeforePoll), 0;
    }
    QuietNext(call, iteration, b, BeforePoll);
    var error := Advance(rt, Polling, Poll, iteration);
    if error.Some? {
      RejectedAtPoll(db0, store.Contents(), row0, call, iteration, b, soFar);
      return Rejected(TransitionError), 0;
    }
    if call.interrupt(iteration, AfterPoll) {
      CutBeforeBatch(db0, store.Contents(), row0, call, iteration, b, soFar, AfterPoll);
      return Broken(AfterPoll), 0;
    }
    QuietNext(call, iteration, b, AfterPoll);
    var ready := PollReadyTasks(store);
    if |ready| == 0 {
      error := Advance(rt, Idle, NoWork, iteration);
      IdleIteration(db0, store.Contents(), row0, call, iteration, soFar);
      return Going, 0;
    }
    status, executed := ExecutePhase(rt, store, ready, call, iteration, soFar, db0, row0);
  }

  // ---------------------------------------------------------------------------
  // A whole run
  // ---------------------------------------------------------------------------

  /** `at` is where the interrupt arrived.  `Uncaught` is a KeyboardInterrupt on entry, before the runner
      is ready to catch it. */
  datatype Outcome =
    | Finished(iterations: int, tasksExecuted: nat, reason: StopReason)
    | KeyboardInterrupt(at: Point)
    | Uncaught(at: Point)
    | Raised(error: Error)
    | StillRunning

  predicate Unbounded(call: Call) {
    call.config.maxIterations.None? && call.shouldStop.None? && !call.config.allowUnbounded
  }

  predicate AtMaximum(call: Call, iteration: int) {
    call.config.maxIterations.Some? && iteration >= call.config.maxIterations.value
  }

  predicate Signalled(call: Call, iteration: int) {
    call.shouldStop.Some? && call.shouldStop.value(iteration)
  }

  /** At the top of the loop, an interrupt, the maximum or the signal ends the run. */
  predicate StopsAt(call: Call, i: int) {
    call.interrupt(i, Top) || AtMaximum(call, i) || Signalled(call, i)
  }

  /** What `j` iterations take of `n` ready tasks, and what the next one takes. */
  function Taken(n: nat, j: nat): (taken: nat)
    ensures taken <= n
  {
    Min(n, POLL_LIMIT * j)
  }

  function Batch(n: nat, j: nat): nat {
    Min(POLL_LIMIT, n - Taken(n, j))
  }

  /** The row once the runner has entered: paused and initialized runtimes move to idle. */
  function EnteredRow(row0: Row): Row {
    if row0.state == Paused then Advanced(row0, Idle, Resume, row0.iteration)
    else if row0.state == Initialized then Advanced(row0, Idle, Start, 0)
    else row0
  }

  /** The row at the top of the loop after `j` iterations, with `n` tasks ready at the start. */
  function TopRow(call: Call, row0: Row, n: nat, j: nat): Row {
    if j == 0 then EnteredRow(row0)
    else IteratedRow(TopRow(call, row0, n, j - 1), call, row0.iteration + j, Batch(n, j - 1), Taken(n, j))
  }

  function TopState(row0: Row, j: nat): RuntimeState {
    if j == 0 then EnteredRow(row0).state else Idle
  }

  /** An initialized runtime is at iteration 0, as registration leaves it. */
  predicate StartsAtZero(row: Row) {
    row.state == Initialized ==> row.iteration == 0
  }

  lemma {:induction false} TopRowState(call: Call, row0: Row, n: nat, j: nat)
    ensures TopRow(call, row0, n, j).state == TopState(row0, j)
    ensures StartsAtZero(row0) ==> TopRow(call, row0, n, j).iteration == row0.iteration + j
  {
    hide Reason;
  }

  /** The run enters the loop and completes `j` iterations. */
  ghost predicate Reached(call: Call, row0: Row, n: nat, j: nat) {
    if j == 0 then
      !Unbounded(call) && !call.interrupt(row0.iteration, Entering) && !call.interrupt(row0.iteration, Entered)
    else
      && Reached(call, row0, n, j - 1) && !StopsAt(call, row0.iteration + j - 1)
      && Completes(call, TopState(row0, j - 1), row0.iteration + j, Batch(n, j - 1))
  }

  /** The run completes `j` iterations and then ends as `r`: said of the call and of the state and
      iteration of the row alone. */
  ghost predicate EndsAt(call: Call, row0: Row, n: nat, j: nat, r: Outcome) {
    var i, s, b := row0.iteration + j, TopState(row0, j), Batch(n, j);
    && j < call.horizon && Reached(call, row0, n, j)
    && match r
       case Finished(iterations, tasksExecuted, reason) =>
         && s in LIVE && !call.interrupt(i, Top) && iterations == i && tasksExecuted == Taken(n, j)
         && (if reason == MaxIterations then AtMaximum(call, i) else !AtMaximum(call, i) && Signalled(call, i))
       case KeyboardInterrupt(at) =>
         && s in LIVE
         && (if at == Top then call.interrupt(i, Top)
             else !StopsAt(call, i) && CutAt(call, i + 1, b, at) && (at != BeforePoll ==> s != Polling))
       case Raised(error) =>
         if error == ValidationError
         then s in LIVE && s != Polling && !StopsAt(call, i) && Refuses(call, b) && Undisturbed(call, i + 1, b)
         else && error == TransitionError
              && (s in LIVE ==> s == Polling && !StopsAt(call, i) && !call.interrupt(i + 1, BeforePoll))
       case Uncaught(_) => false
       case StillRunning => false
  }

  /** How many tasks had been counted when the run ended as `r`. */
  function DoneAt(n: nat, j: nat, r: Outcome): nat {
    if r.KeyboardInterrupt? && r.at != Top then Taken(n, j) + Counted(Batch(n, j), r.at) else Taken(n, j)
  }

  /** The row such a run leaves. */
  function EndRow(call: Call, row0: Row, n: nat, j: nat, r: Outcome): Row {
    var i, top := row0.iteration + j, TopRow(call, row0, n, j);
    match r
    case Finished(_, _, reason) => PausedRow(top, i, reason)
    case KeyboardInterrupt(at) =>
      if at == Top then InterruptedRow(top, i, DoneAt(n, j, r))
      else InterruptedRow(RowAt(top, call, i + 1, Taken(n, j + 1), at), i + 1, DoneAt(n, j, r))
    case Raised(error) => if error == ValidationError then ExecutingRow(top, i + 1) else top
    case Uncaught(_) => top
    case StillRunning => top
  }

  /** The store such a run leaves. */
  ghost predicate EndStore(db0: Orchestration.Db, db: Orchestration.Db, call: Call, n: nat, j: nat, r: Outcome) {
    if r.KeyboardInterrupt? then StoreAt(db0, db, DoneAt(n, j, r), call, r.at)
    else Drained(db0, db, DoneAt(n, j, r), call.config.actor, call.registry)
  }

  ghost predicate EndsInLoop(db0: Orchestration.Db, row0: Row, db: Orchestration.Db, row: Row, call: Call, n: nat,
                             j: nat, r: Outcome) {
    EndsAt(call, row0, n, j, r) && row == EndRow(call, row0, n, j, r) && EndStore(db0, db, call, n, j, r)
  }

  /** Everything a run promises, from the row and store it finds to those it leaves. */
  ghost predicate RunOk(db0: Orchestration.Db, row0: Row, db: Orchestration.Db, row: Row, call: Call, r: Outcome) {
    && Sound(db0)
    && var n := |Queue(db0)|;
       if r == Raised(ValueError) then
         Unbounded(call) && row == row0 && db == db0
       else if r.Uncaught? then
         && !Unbounded(call) && db == db0 && call.interrupt(row0.iteration, r.at)
         && (if r.at == Entering then row == row0
             else r.at == Entered && !call.interrupt(row0.iteration, Entering) && row == EnteredRow(row0))
       else if r == StillRunning then
         && Reached(call, row0, n, call.horizon) && row == TopRow(call, row0, n, call.horizon)
         && Drained(db0, db, Taken(n, call.horizon), call.config.actor, call.registry)
       else
         exists j: nat :: EndsInLoop(db0, row0, db, row, call, n, j, r)
  }

  method PauseAt(rt: RuntimeRow, iteration: int, tasksExecuted: nat, reason: StopReason) returns (r: Outcome)
    requires rt.Valid()
    modifies rt
    ensures rt.Valid()
    ensures if Paused in ValidTransitions(old(rt.state))
            then && r == Finished(iteration, tasksExecuted, reason)
                 && rt.Contents() == PausedRow(old(rt.Contents()), iteration, reason)
            else r == Raised(TransitionError) && rt.Contents() == old(rt.Contents())
  {
    hide IsHistory, ValidTransitions, Advanced;
    var error := Advance(rt, Paused, if reason == MaxIterations then Maximum else Signal, iteration);
    r := if error.None? then Finished(iteration, tasksExecuted, reason) else Raised(TransitionError);
  }

  /** The `except KeyboardInterrupt` branch: interrupted first, then a checkpoint. */
  method OnInterrupt(rt: RuntimeRow, iteration: int, tasksExecuted: nat, at: Point) returns (r: Outcome)
    requires rt.Valid()
    modifies rt
    ensures rt.Valid()
    ensures if Interrupted in ValidTransitions(old(rt.state))
            then && r == KeyboardInterrupt(at)
                 && rt.Contents() == InterruptedRow(old(rt.Contents()), iteration, tasksExecuted)
            else r == Raised(TransitionError) && rt.Contents() == old(rt.Contents())
  {
    hide IsHistory, ValidTransitions, Reason, Blank, Advanced;
    ReasonsNotBlank();
    var error := Advance(rt, Interrupted, Interrupt, iteration);
    if error.Some? { return Raised(TransitionError); }
    var _ := rt.SaveCheckpoint(iteration, tasksExecuted, Reason(Interrupt));
    return KeyboardInterrupt(at);
  }

  /** The top of the loop: first an interrupt, then the maximum, then the stop signal ends the run. */
  method StopCheck(rt: RuntimeRow, call: Call, iteration: int, tasksExecuted: nat) returns (r: Option<Outcome>)
    requires rt.Valid() && rt.state !in {Initialized, Paused}
    modifies rt
    ensures rt.Valid()
    ensures r.None? <==> !StopsAt(call, iteration)
    ensures r.None? ==> rt.Contents() == old(rt.Contents())
    ensures r.Some? ==>
              StopEnds(old(rt.Contents()), rt.Contents(), call, iteration, tasksExecuted, r.value)
  {
    hide IsHistory, ValidTransitions, Advanced;
    LoopMoves();
    if call.interrupt(iteration, Top) {
      var broken := OnInterrupt(rt, iteration, tasksExecuted, Top);
      return Some(broken);
    }
    if AtMaximum(call, iteration) {
      var paused := PauseAt(rt, iteration, tasksExecuted, MaxIterations);
      return Some(paused);
    }
    if Signalled(call, iteration) {
      var paused := PauseAt(rt, iteration, tasksExecuted, ShouldStop);
      return Some(paused);
    }
    return None;
  }

  /** What the top of the loop makes of the row. */
  ghost predicate StopEnds(row0: Row, row: Row, call: Call, i: int, done: nat, r: Outcome) {
    if row0.state !in LIVE then r == Raised(TransitionError) && row == row0
    else if call.interrupt(i, Top) then r == KeyboardInterrupt(Top) && row == InterruptedRow(row0, i, done)
    else if AtMaximum(call, i) then
      r == Finished(i, done, MaxIterations) && row == PausedRow(row0, i, MaxIterations)
    else
      Signalled(call, i) && r == Finished(i, done, ShouldStop) && row == PausedRow(row0, i, ShouldStop)
  }

  lemma CutPoint(row0: Row, call: Call, i: int, b: nat, done: nat, at: Point)
    requires CutAt(call, i, b, at)
    ensures !at.Entering? && !at.Entered? && !at.Top?
    ensures RowAt(row0, call, i, done, at).state in (if at == BeforePoll then {row0.state} else LIVE)
  {
    hide Reason, Quiet, Refuses;
  }

  /** How one iteration ends the run. */
  ghost predicate RoundEnds(db0: Orchestration.Db, db: Orchestration.Db, row0: Row, row: Row, call: Call, i: int,
                            b: nat, from: nat, r: Outcome) {
    match r
    case KeyboardInterrupt(at) =>
      && row0.state in LIVE && CutAt(call, i, b, at) && (at != BeforePoll ==> row0.state != Polling)
      && row == InterruptedRow(RowAt(row0, call, i, from + b, at), i, from + Counted(b, at))
      && StoreAt(db0, db, from + Counted(b, at), call, at)
    case Raised(error) =>
      && Drained(db0, db, from, call.config.actor, call.registry)
      && if error == ValidationError
         then && row0.state in LIVE && row0.state != Polling && Refuses(call, b) && Undisturbed(call, i, b)
              && row == ExecutingRow(row0, i)
         else && error == TransitionError && row == row0
              && (row0.state in LIVE ==> row0.state == Polling && !call.interrupt(i, BeforePoll))
    case _ => false
  }

  /** One iteration, and how it may end the run. */
  method Round(rt: RuntimeRow, store: Orchestration.TaskStore, call: Call, iteration: int, soFar: nat,
               ghost db0: Orchestration.Db)
    returns (r: Option<Outcome>, executed: nat)
    requires rt.Valid() && call.config.checkpointEvery >= 1 && rt.state !in {Initialized, Paused}
    requires Drained(db0, store.Contents(), soFar, call.config.actor, call.registry)
    modifies rt, store
    ensures rt.Valid() && soFar <= |Queue(db0)|
    ensures var b := Min(POLL_LIMIT, |Queue(db0)| - soFar);
            if r.None?
            then && executed == b && Completes(call, old(rt.state), iteration, b)
                 && rt.Contents() == IteratedRow(old(rt.Contents()), call, iteration, b, soFar + b)
                 && Drained(db0, store.Contents(), soFar + b, call.config.actor, call.registry)
            else RoundEnds(db0, store.Contents(), old(rt.Contents()), rt.Contents(), call, iteration, b, soFar, r.value)
  {
    hide Drained, Queue, Sound, IsHistory, ValidTransitions, Min, IterationEnds, RoundEnds, Completes, InterruptedRow,
         IteratedRow;
    LoopMoves();
    DrainedBounds(db0, store.Contents(), soFar, call.config.actor, call.registry);
    ghost var row0, b := rt.Contents(), Min(POLL_LIMIT, |Queue(db0)| - soFar);
    var status;
    status, executed := RunIteration(rt, store, call, iteration, soFar, db0);
    ghost var db, row := store.Contents(), rt.Contents();
    IterationLeft(db0, db, row0, row, call, iteration, b, soFar, status, executed);
    match status
    case Going =>
      return None, executed;
    case Rejected(error) =>
      return Some(Raised(error)), executed;
    case Broken(at) =>
      var broken := OnInterrupt(rt, iteration, soFar + executed, at);
      InterruptLeft(db0, db, row0, row, rt.Contents(), call, iteration, b, soFar, at, executed, broken);
      return Some(broken), executed;
  }

  lemma IterationLeft(db0: Orchestration.Db, db: Orchestration.Db, row0: Row, row: Row, call: Call, i: int, b: nat,
                      from: nat, status: Status, executed: nat)
    requires IterationEnds(db0, db, row0, row, call, i, b, from, status, executed)
    ensures status == Going ==>
              && executed == b && Completes(call, row0.state, i, b) && row == IteratedRow(row0, call, i, b, from + b)
              && Drained(db0, db, from + b, call.config.actor, call.registry)
    ensures status.Rejected? ==> RoundEnds(db0, db, row0, row, call, i, b, from, Raised(status.error))
    ensures status.Broken? ==>
              row.state in (if status.at == BeforePoll then {row0.state} else LIVE)
  {
    hide Drained, Completes, IteratedRow, CutAt, Undisturbed, StoreAt, RowAt, ExecutingRow, Refuses;
    if status.Broken? { CutPoint(row0, call, i, b, from + b, status.at); }
  }

  /** What the interrupt handler makes of an iteration that was cut. */
  lemma InterruptLeft(db0: Orchestration.Db, db: Orchestration.Db, row0: Row, mid: Row, row: Row, call: Call, i: int,
                      b: nat, from: nat, at: Point, executed: nat, r: Outcome)
    requires IterationEnds(db0, db, row0, mid, call, i, b, from, Broken(at), executed)
    requires mid.state in (if at == BeforePoll then {row0.state} else LIVE)
    requires if mid.state in LIVE
             then r == KeyboardInterrupt(at) && row == InterruptedRow(mid, i, from + executed)
             else r == Raised(TransitionError) && row == mid
    ensures RoundEnds(db0, db, row0, row, call, i, b, from, r)
  {
    hide Drained, CutAt, InterruptedRow, PolledRow, ExecutingRow, SavingRow, SavedRow;
  }

  /** Before the loop, where an interrupt is not caught. */
  method Enter(rt: RuntimeRow, call: Call) returns (escaped: Option<Point>)
    requires rt.Valid()
    modifies rt
    ensures rt.Valid() && rt.iteration == old(rt.iteration)
    ensures escaped == if call.interrupt(rt.iteration, Entering) then Some(Entering)
                       else if call.interrupt(rt.iteration, Entered) then Some(Entered) else None
    ensures rt.Contents() == if escaped == Some(Entering) then old(rt.Contents()) else EnteredRow(old(rt.Contents()))
  {
    hide IsHistory, ValidTransitions, Reason;
    LoopMoves();
    if call.interrupt(rt.iteration, Entering) { return Some(Entering); }
    if rt.state == Paused {
      var _ := Advance(rt, Idle, Resume, rt.iteration);
    } else if rt.state == Initialized {
      var _ := Advance(rt, Idle, Start, 0);
    }
    if call.interrupt(rt.iteration, Entered) { return Some(Entered); }
    return None;
  }

  /** At the top of the loop, `j` iterations into the run. */
  ghost predicate InLoop(db0: Orchestration.Db, row0: Row, db: Orchestration.Db, row: Row, call: Call, n: nat,
                         j: nat) {
    && Reached(call, row0, n, j) && row == TopRow(call, row0, n, j)
    && Drained(db0, db, Taken(n, j), call.config.actor, call.registry)
  }

  /** `run_iterations`, and `resume_runtime`, which delegates to it.  `horizon` bounds how many
      iterations are observed, so that a run without a maximum can be described by all its finite prefixes. */
  method RunIterations(rt: RuntimeRow, store: Orchestration.TaskStore, call: Call) returns (r: Outcome)
    requires rt.Valid() && Sound(store.Contents()) && call.config.checkpointEvery >= 1
    modifies rt, store
    ensures rt.Valid()
    ensures RunOk(old(store.Contents()), old(rt.Contents()), store.Contents(), rt.Contents(), call, r)
  {
    hide Drained, Queue, Sound, RunOk, InLoop, EnteredRow, Unbounded, StopsAt, Completes, StopEnds, RoundEnds,
         IsHistory, Taken, Batch, TopState, IteratedRow, Min;
    ghost var db0, row0 := store.Contents(), rt.Contents();
    if Unbounded(call) {
      UnboundedRun(db0, row0, call);
      return Raised(ValueError);
    }
    ghost var n := |Queue(db0)|;
    var escaped := Enter(rt, call);
    LoopStarts(db0, row0, call, escaped);
    if escaped.Some? { return Uncaught(escaped.value); }
    var iteration := rt.iteration;
    var tasksExecuted: nat := 0;
    var observed: nat := 0;
    while observed < call.horizon
      invariant rt.Valid() && observed <= call.horizon
      invariant iteration == row0.iteration + observed && tasksExecuted == Taken(n, observed)
      invariant InLoop(db0, row0, store.Contents(), rt.Contents(), call, n, observed)
    {
      ghost var mid, top := store.Contents(), rt.Contents();
      InLoopFacts(db0, row0, mid, top, call, n, observed);
      var stop := StopCheck(rt, call, iteration, tasksExecuted);
      if stop.Some? {
        StoppedRun(db0, row0, mid, top, rt.Contents(), call, observed, stop.value);
        return stop.value;
      }
      iteration := iteration + 1;
      var ended, executed := Round(rt, store, call, iteration, tasksExecuted, db0);
      if ended.Some? {
        EndedRun(db0, row0, mid, store.Contents(), top, rt.Contents(), call, observed, ended.value);
        return ended.value;
      }
      tasksExecuted := tasksExecuted + executed;
      LoopGoesOn(db0, row0, mid, store.Contents(), top, rt.Contents(), call, n, observed);
      observed := observed + 1;
    }
    ObservedRun(db0, row0, store.Contents(), rt.Contents(), call);
    return StillRunning;
  }

  lemma UnboundedRun(db0: Orchestration.Db, row0: Row, call: Call)
    requires Sound(db0) && Unbounded(call)
    ensures RunOk(db0, row0, db0, row0, call, Raised(ValueError))
  {
    hide Sound, Queue, Unbounded, EndsInLoop;
  }

  lemma LoopStarts(db0: Orchestration.Db, row0: Row, call: Call, escaped: Option<Point>)
    requires Sound(db0) && !Unbounded(call)
    requires escaped == if call.interrupt(row0.iteration, Entering) then Some(Entering)
                        else if call.interrupt(row0.iteration, Entered) then Some(Entered) else None
    ensures escaped == Some(Entering) ==> RunOk(db0, row0, db0, row0, call, Uncaught(Entering))
    ensures escaped == Some(Entered) ==> RunOk(db0, row0, db0, EnteredRow(row0), call, Uncaught(Entered))
    ensures escaped == None ==> InLoop(db0, row0, db0, EnteredRow(row0), call, |Queue(db0)|, 0)
    ensures Taken(|Queue(db0)|, 0) == 0
  {
    hide Sound, Queue, Unbounded, EndsInLoop, Drained, EnteredRow;
    NothingDrained(db0, call.config.actor, call.registry);
  }

  lemma InLoopFacts(db0: Orchestration.Db, row0: Row, db: Orchestration.Db, row: Row, call: Call, n: nat, j: nat)
    requires InLoop(db0, row0, db, row, call, n, j)
    ensures Drained(db0, db, Taken(n, j), call.config.actor, call.registry)
    ensures row.state == TopState(row0, j) && row.state !in {Initialized, Paused}
    ensures Batch(n, j) == Min(POLL_LIMIT, n - Taken(n, j)) && Taken(n, j + 1) == Taken(n, j) + Batch(n, j)
  {
    hide Drained, Reached, TopRow, Reason;
    TopRowState(call, row0, n, j);
  }

  lemma StoppedRun(db0: Orchestration.Db, row0: Row, db: Orchestration.Db, top: Row, row: Row, call: Call, j: nat,
                   r: Outcome)
    requires Sound(db0) && InLoop(db0, row0, db, top, call, |Queue(db0)|, j) && j < call.horizon
    requires StopsAt(call, row0.iteration + j) && top.state == TopState(row0, j)
    requires StopEnds(top, row, call, row0.iteration + j, Taken(|Queue(db0)|, j), r)
    ensures RunOk(db0, row0, db, row, call, r)
  {
    hide Sound, Queue, Drained, Reached, TopRow, Taken, InterruptedRow, Advanced, Undisturbed, TopState;
    assert EndsInLoop(db0, row0, db, row, call, |Queue(db0)|, j, r);
  }

  lemma EndedRun(db0: Orchestration.Db, row0: Row, mid: Orchestration.Db, db: Orchestration.Db, top: Row, row: Row,
                 call: Call, j: nat, r: Outcome)
    requires Sound(db0) && InLoop(db0, row0, mid, top, call, |Queue(db0)|, j) && j < call.horizon
    requires !StopsAt(call, row0.iteration + j) && top.state == TopState(row0, j)
    requires var n := |Queue(db0)|;
             && RoundEnds(db0, db, top, row, call, row0.iteration + j + 1, Batch(n, j), Taken(n, j), r)
             && Taken(n, j + 1) == Taken(n, j) + Batch(n, j)
    ensures RunOk(db0, row0, db, row, call, r)
  {
    hide Sound, Queue, Drained, Reached, TopRow, Taken, Batch, InterruptedRow, Advanced, Undisturbed, TopState, StopsAt,
         CutAt, StoreAt, ExecutingRow, RowAt, Refuses;
    if r.KeyboardInterrupt? { CutPoint(top, call, row0.iteration + j + 1, Batch(|Queue(db0)|, j), 0, r.at); }
    assert EndsInLoop(db0, row0, db, row, call, |Queue(db0)|, j, r);
  }

  lemma LoopGoesOn(db0: Orchestration.Db, row0: Row, mid: Orchestration.Db, db: Orchestration.Db, top: Row, row: Row,
                   call: Call, n: nat, j: nat)
    requires InLoop(db0, row0, mid, top, call, n, j) && !StopsAt(call, row0.iteration + j)
    requires top.state == TopState(row0, j) && Taken(n, j + 1) == Taken(n, j) + Batch(n, j)
    requires Completes(call, top.state, row0.iteration + j + 1, Batch(n, j))
    requires row == IteratedRow(top, call, row0.iteration + j + 1, Batch(n, j), Taken(n, j) + Batch(n, j))
    requires Drained(db0, db, Taken(n, j) + Batch(n, j), call.config.actor, call.registry)
    ensures InLoop(db0, row0, db, row, call, n, j + 1)
  {
    hide Drained, Completes, IteratedRow, Taken, Batch, TopState, StopsAt;
  }

  lemma ObservedRun(db0: Orchestration.Db, row0: Row, db: Orchestration.Db, row: Row, call: Call)
    requires Sound(db0) && InLoop(db0, row0, db, row, call, |Queue(db0)|, call.horizon)
    ensures RunOk(db0, row0, db, row, call, StillRunning)
  {
    hide Sound, Queue, Drained, Reached, TopRow, Taken;
  }

  // ---------------------------------------------------------------------------
  // A run has one ending
  // ---------------------------------------------------------------------------

  lemma {:induction false} ReachedBefore(call: Call, row0: Row, n: nat, j: nat, k: nat)
    requires Reached(call, row0, n, j) && k <= j
    ensures Reached(call, row0, n, k)
    ensures k < j ==> && !StopsAt(call, row0.iteration + k)
                      && Completes(call, TopState(row0, k), row0.iteration + k + 1, Batch(n, k))
    decreases j
  {
    hide StopsAt, Completes, TopState, Batch, Unbounded;
    if k < j { ReachedBefore(call, row0, n, j - 1, k); }
  }

  /** A run does not go on from where it ends. */
  lemma NothingAfterEnd(call: Call, row0: Row, n: nat, j: nat, r: Outcome, k: nat)
    requires EndsAt(call, row0, n, j, r) && j < k
    ensures !Reached(call, row0, n, k)
  {
    hide Reached, Passes, Place, Refuses, TopState, Batch, Taken, Quiet, AtMaximum, Signalled;
    if Reached(call, row0, n, k) {
      ReachedBefore(call, row0, n, k, j);
      PollPoints(call, row0.iteration + j + 1, Batch(n, j));
    }
  }

  lemma EndsOnce(call: Call, row0: Row, n: nat, j: nat, r: Outcome, k: nat, q: Outcome)
    requires EndsAt(call, row0, n, j, r) && EndsAt(call, row0, n, k, q)
    ensures j == k && r == q
  {
    hide Reached, Passes, Place, Refuses, TopState, Batch, Taken, Quiet, AtMaximum, Signalled, Undisturbed, CutAt;
    if j < k {
      NothingAfterEnd(call, row0, n, j, r, k);
    } else if k < j {
      NothingAfterEnd(call, row0, n, k, q, j);
    } else {
      EndsAlike(call, row0, n, j, r, q);
    }
  }

  lemma EndsAlike(call: Call, row0: Row, n: nat, j: nat, r: Outcome, q: Outcome)
    requires EndsAt(call, row0, n, j, r) && EndsAt(call, row0, n, j, q)
    ensures r == q
  {
    hide Reached, Passes, Place, Refuses, TopState, Batch, Taken, Quiet, AtMaximum, Signalled;
    var i, b := row0.iteration + j + 1, Batch(n, j);
    PollPoints(call, i, b);
    if r.KeyboardInterrupt? && q.KeyboardInterrupt? && r.at != Top && q.at != Top { CutOnce(call, i, b, r.at, q.at); }
  }

  /** However a call says the run ends, so it ends: the outcome, the row and the store are determined. */
  lemma RunEndsAsCalled(db0: Orchestration.Db, row0: Row, db: Orchestration.Db, row: Row, call: Call, r: Outcome,
                        j: nat, end: Outcome)
    requires RunOk(db0, row0, db, row, call, r) && EndsAt(call, row0, |Queue(db0)|, j, end)
    ensures r == end && EndsInLoop(db0, row0, db, row, call, |Queue(db0)|, j, r)
  {
    hide Sound, Queue, EndsAt, EndRow, EndStore, Drained;
    var n := |Queue(db0)|;
    ReachedAtEnd(call, row0, n, j, end);
    if r == StillRunning {
      NothingAfterEnd(call, row0, n, j, end, call.horizon);
    } else if r != Raised(ValueError) && !r.Uncaught? {
      var k: nat :| EndsInLoop(db0, row0, db, row, call, n, k, r);
      EndsOnce(call, row0, n, j, end, k, r);
    }
  }

  lemma ReachedAtEnd(call: Call, row0: Row, n: nat, j: nat, r: Outcome)
    requires EndsAt(call, row0, n, j, r)
    ensures j < call.horizon && Reached(call, row0, n, j) && Reached(call, row0, n, 0)
    ensures !Unbounded(call) && !call.interrupt(row0.iteration, Entering) && !call.interrupt(row0.iteration, Entered)
  {
    hide StopsAt, Completes, CutAt, Undisturbed, Unbounded;
    ReachedBefore(call, row0, n, j, 0);
  }

  // ---------------------------------------------------------------------------
  // Interrupts
  // ---------------------------------------------------------------------------

  /** After `j` iterations the path of the run meets an interrupt at `at`, and nothing before it. */
  ghost predicate Meets(call: Call, row0: Row, n: nat, j: nat, at: Point) {
    && j < call.horizon && Reached(call, row0, n, j)
    && if at == Top then call.interrupt(row0.iteration + j, Top)
       else !StopsAt(call, row0.iteration + j) && CutAt(call, row0.iteration + j + 1, Batch(n, j), at)
  }

  lemma MeetsIff(call: Call, row0: Row, n: nat, j: nat, at: Point)
    requires row0.state in STARTABLE
    ensures Meets(call, row0, n, j, at) <==> EndsAt(call, row0, n, j, KeyboardInterrupt(at))
  {
    hide Reached, CutAt, StopsAt, Batch, Taken, Reason;
  }

  /** A run ends interrupted exactly when its path meets an interrupt before the maximum, the signal and
      a refusal; `at` is the first one met. */
  lemma InterruptEndsRunIff(db0: Orchestration.Db, row0: Row, db: Orchestration.Db, row: Row, call: Call, r: Outcome,
                            at: Point)
    requires RunOk(db0, row0, db, row, call, r) && row0.state in STARTABLE
    ensures r == KeyboardInterrupt(at) <==> exists j: nat :: Meets(call, row0, |Queue(db0)|, j, at)
  {
    hide Sound, Queue, EndsAt, EndRow, EndStore, Drained, Meets, Reached;
    var n := |Queue(db0)|;
    if r == KeyboardInterrupt(at) {
      var j: nat :| EndsInLoop(db0, row0, db, row, call, n, j, r);
      MeetsIff(call, row0, n, j, at);
    }
    if j: nat :| Meets(call, row0, n, j, at) {
      MeetsIff(call, row0, n, j, at);
      RunEndsAsCalled(db0, row0, db, row, call, r, j, KeyboardInterrupt(at));
    }
  }

  /** What it leaves: the row interrupted, one more checkpoint than before the interrupt, with the tasks
      counted, and the store that the point of the interrupt says. */
  lemma InterruptLeaves(db0: Orchestration.Db, row0: Row, db: Orchestration.Db, row: Row, call: Call, r: Outcome,
                        j: nat, at: Point)
    requires RunOk(db0, row0, db, row, call, r) && row0.state in STARTABLE
    requires Meets(call, row0, |Queue(db0)|, j, at)
    ensures var n, done := |Queue(db0)|, DoneAt(|Queue(db0)|, j, KeyboardInterrupt(at));
            && row.state == Interrupted && row.iteration == row0.iteration + (if at == Top then j else j + 1)
            && row.checkpoints != [] && row.checkpoints[|row.checkpoints| - 1] == Checkpoint(row.iteration, done)
            && StoreAt(db0, db, done, call, at)
  {
    hide Sound, Queue, EndsAt, Drained, Meets, Reached, DoneAt, RowAt, StoreAt, Reason, TopRow;
    MeetsIff(call, row0, |Queue(db0)|, j, at);
    RunEndsAsCalled(db0, row0, db, row, call, r, j, KeyboardInterrupt(at));
  }

  /** An interrupt escapes exactly when it arrives on entry. */
  lemma UncaughtIff(db0: Orchestration.Db, row0: Row, db: Orchestration.Db, row: Row, call: Call, r: Outcome)
    requires RunOk(db0, row0, db, row, call, r)
    ensures r.Uncaught? <==>
              !Unbounded(call) && (call.interrupt(row0.iteration, Entering) || call.interrupt(row0.iteration, Entered))
    ensures r.Uncaught? ==>
              && r.at == (if call.interrupt(row0.iteration, Entering) then Entering else Entered)
              && db == db0 && row.checkpoints == row0.checkpoints
  {
    hide Sound, Queue, EndsAt, EndRow, EndStore, Drained, Reached, Unbounded, Reason, TopRow;
    var n := |Queue(db0)|;
    if r == StillRunning {
      ReachedBefore(call, row0, n, call.horizon, 0);
      EntersQuietly(call, row0, n);
    } else if r != Raised(ValueError) && !r.Uncaught? {
      var j: nat :| EndsInLoop(db0, row0, db, row, call, n, j, r);
      ReachedAtEnd(call, row0, n, j, r);
    }
  }

  lemma EntersQuietly(call: Call, row0: Row, n: nat)
    requires Reached(call, row0, n, 0)
    ensures !Unbounded(call) && !call.interrupt(row0.iteration, Entering) && !call.interrupt(row0.iteration, Entered)
  {
    hide Unbounded;
  }

  predicate IsSettled(db: Orchestration.Db, id: int) {
    id in db.tasks && db.tasks[id].state in {Orchestration.Completed, Orchestration.Failed}
  }

  /** Of the queue that `db0` had, exactly the first `c` tasks are settled in `db`. */
  ghost predicate SettlesFirst(db0: Orchestration.Db, db: Orchestration.Db, c: nat)
    requires Sound(db0)
  {
    c <= |Queue(db0)| && forall i | 0 <= i < |Queue(db0)| :: IsSettled(db, Queue(db0)[i].id) <==> i < c
  }

  lemma DrainedSettles(db0: Orchestration.Db, db: Orchestration.Db, k: nat, actor: string, registry: Registry)
    requires Sound(db0) && Drained(db0, db, k, actor, registry)
    ensures SettlesFirst(db0, db, k)
  {
    hide Sound, Queue, ExecutedAll, OthersUntouched, Orchestration.ReadyTasks;
    forall i | 0 <= i < |Queue(db0)|
      ensures IsSettled(db, Queue(db0)[i].id) <==> i < k
    {
      if i < k {
        assert Queue(db0)[..k][i] == Queue(db0)[i];
      } else {
        assert Queue(db)[i - k] == Queue(db0)[i];
        QueueIsSorted(db);
        assert Queue(db)[i - k] in Queue(db);
        ReadyRow(db, Queue(db0)[i]);
      }
    }
  }

  lemma HalfDrainedSettles(db0: Orchestration.Db, db: Orchestration.Db, k: nat, actor: string, registry: Registry)
    requires Sound(db0) && HalfDrained(db0, db, k, actor, registry)
    ensures SettlesFirst(db0, db, k)
  {
    hide Sound, Queue, Drained, Orchestration.DependencySnapshot;
    var mid :| Drained(db0, mid, k, actor, registry) && k < |Queue(db0)|
               && Queue(db0)[k].id in mid.tasks && db == Started(mid, Queue(db0)[k].id, actor);
    DrainedSettles(db0, mid, k, actor, registry);
    QueueIdsDistinct(db0);
    forall i | 0 <= i < |Queue(db0)|
      ensures IsSettled(db, Queue(db0)[i].id) <==> i < k
    {
      if i != k {
        assert Ids(Queue(db0))[i] != Ids(Queue(db0))[k];
        assert IsSettled(db, Queue(db0)[i].id) <==> IsSettled(mid, Queue(db0)[i].id);
      }
    }
  }

  /** The checkpoint of an interrupted run records exactly the settled tasks, unless the interrupt came
      between a task's last commit and its being counted: then it is one short. */
  lemma CheckpointIsExactIff(db0: Orchestration.Db, row0: Row, db: Orchestration.Db, row: Row, call: Call, r: Outcome)
    requires RunOk(db0, row0, db, row, call, r) && r.KeyboardInterrupt?
    ensures Sound(db0) && row.checkpoints != []
    ensures var c := row.checkpoints[|row.checkpoints| - 1].tasksExecuted;
            && SettlesFirst(db0, db, if r.at.AfterTask? then c + 1 else c)
            && (SettlesFirst(db0, db, c) <==> !r.at.AfterTask?)
  {
    hide Sound, Queue, EndsAt, Drained, HalfDrained, RowAt, Reason, TopRow, SettlesFirst, DoneAt;
    var n := |Queue(db0)|;
    var j: nat :| EndsInLoop(db0, row0, db, row, call, n, j, r);
    var done, actor, registry := DoneAt(n, j, r), call.config.actor, call.registry;
    match r.at {
      case InHandler(_) => HalfDrainedSettles(db0, db, done, actor, registry);
      case AfterTask(_) =>
        DrainedSettles(db0, db, done + 1, actor, registry);
        SettlesOnce(db0, db, done);
      case _ => DrainedSettles(db0, db, done, actor, registry);
    }
  }

  lemma SettlesOnce(db0: Orchestration.Db, db: Orchestration.Db, c: nat)
    requires Sound(db0) && SettlesFirst(db0, db, c + 1)
    ensures !SettlesFirst(db0, db, c)
  {
    hide Sound, Queue, IsSettled;
    assert IsSettled(db, Queue(db0)[c].id);
  }

  /** What a run whose one interrupt arrives at `at` in its first iteration must have for it to be met:
      `n` tasks, of which 50 are taken, and a due checkpoint for an interrupt inside one. */
  predicate IsMetAt(config: Config, iteration: int, n: nat, at: Point) {
    match at
    case BeforePoll => true
    case AfterPoll => true
    case BeforeTask(k) => k < n && k < 50
    case InHandler(k) => k < n && k < 50
    case AfterTask(k) => k < n && k < 50
    case BeforeCheckpoint => n >= 1
    case InCheckpoint => n >= 1 && config.checkpointEvery >= 1 && iteration % config.checkpointEvery == 0
    case BeforeIdle => n >= 1
    case _ => false
  }

  lemma ReachedAtOnce(call: Call, row0: Row, n: nat)
    requires !Unbounded(call)
    requires !call.interrupt(row0.iteration, Entering) && !call.interrupt(row0.iteration, Entered)
    ensures Reached(call, row0, n, 0)
  {
  }

  /** A lone interrupt in the first iteration ends the run there exactly when the iteration does what it
      arrives in: nothing is done in which the interrupt is ignored. */
  lemma LoneInterruptEndsRunIff(db0: Orchestration.Db, row0: Row, db: Orchestration.Db, row: Row, call: Call,
                                r: Outcome, at: Point)
    requires RunOk(db0, row0, db, row, call, r) && row0.state in STARTABLE
    requires !Blank(call.config.actor) && !Unbounded(call) && call.horizon > 0
    requires !AtMaximum(call, row0.iteration) && !Signalled(call, row0.iteration)
    requires !at.Entering? && !at.Entered? && !at.Top?
    requires forall i, p :: call.interrupt(i, p) <==> i == row0.iteration + 1 && p == at
    ensures r == KeyboardInterrupt(at) <==> IsMetAt(call.config, row0.iteration + 1, |Queue(db0)|, at)
  {
    hide Sound, Queue, AtMaximum, Signalled, Unbounded, Blank, RunOk, Reached, EndsAt;
    RunIsSound(db0, row0, db, row, call, r);
    var n := |Queue(db0)|;
    InterruptEndsRunIff(db0, row0, db, row, call, r, at);
    ReachedAtOnce(call, row0, n);
    assert Meets(call, row0, n, 0, at) <==> IsMetAt(call.config, row0.iteration + 1, n, at);
  }

  /** Such a run: the one interrupt arrives after the first task has been settled. */
  lemma LateInterruptUndercounts(db0: Orchestration.Db, row0: Row, db: Orchestration.Db, row: Row, call: Call,
                                 r: Outcome)
    requires RunOk(db0, row0, db, row, call, r) && row0.state in STARTABLE && Queue(db0) != []
    requires !Blank(call.config.actor) && !Unbounded(call) && call.horizon > 0
    requires !AtMaximum(call, row0.iteration) && !Signalled(call, row0.iteration)
    requires forall i, p :: call.interrupt(i, p) <==> i == row0.iteration + 1 && p == AfterTask(0)
    ensures r == KeyboardInterrupt(AfterTask(0))
    ensures row.checkpoints != [] && row.checkpoints[|row.checkpoints| - 1].tasksExecuted == 0
    ensures SettlesFirst(db0, db, 1)
  {
    hide Sound, Queue, Drained, Reason, AtMaximum, Signalled, Unbounded, Blank, RunOk, SettlesFirst, StoreAt;
    RunIsSound(db0, row0, db, row, call, r);
    var n := |Queue(db0)|;
    assert Meets(call, row0, n, 0, AfterTask(0));
    MeetsIff(call, row0, n, 0, AfterTask(0));
    RunEndsAsCalled(db0, row0, db, row, call, r, 0, KeyboardInterrupt(AfterTask(0)));
    InterruptLeaves(db0, row0, db, row, call, r, 0, AfterTask(0));
    CheckpointIsExactIff(db0, row0, db, row, call, r);
  }

  lemma RunIsSound(db0: Orchestration.Db, row0: Row, db: Orchestration.Db, row: Row, call: Call, r: Outcome)
    requires RunOk(db0, row0, db, row, call, r)
    ensures Sound(db0)
  {
    hide Sound, Queue, EndsInLoop, TopRow, EnteredRow;
  }

  /** A store with a ready task, as two calls leave it. */
  lemma ReadyTaskIsReachable(ops: seq<Orchestration.Op>)
    requires ops == [Orchestration.Create("title", "research", "actor", 1, "reason"),
                     Orchestration.Transition(1, Orchestration.Ready, "reason", "actor")]
    ensures var db := Orchestration.Run(Orchestration.EMPTY, ops);
            Sound(db) && |Queue(db)| == 1 && Queue(db)[0].id == 1
  {
    hide Queue, Orchestration.RowIsTrue, Orchestration.DependencySnapshot, Orchestration.ReadyTasks;
    Orchestration.ReachableLineageIsTruth(ops);
    var db := Orchestration.Run(Orchestration.EMPTY, ops);
    OneTaskIsReady(ops);
    QueueIsSorted(db);
    assert Orchestration.ReadyTasks(db) == {db.tasks[1]} by {
      forall t
        ensures t in Orchestration.ReadyTasks(db) <==> t in {db.tasks[1]}
      {
        ReadyRow(db, t);
      }
    }
  }

  lemma OneTaskIsReady(ops: seq<Orchestration.Op>)
    requires ops == [Orchestration.Create("title", "research", "actor", 1, "reason"),
                     Orchestration.Transition(1, Orchestration.Ready, "reason", "actor")]
    ensures var tasks := Orchestration.Run(Orchestration.EMPTY, ops).tasks;
            tasks.Keys == {1} && tasks[1].state == Orchestration.Ready
  {
    hide Orchestration.DependencySnapshot;
    var db := Orchestration.Run(Orchestration.EMPTY, ops[..1]);
    assert ops[..1] == [ops[0]];
    Orchestration.RunOne(Orchestration.EMPTY, ops[0]);
    assert !Blank("title") && !Blank("actor") && !Blank("reason") by {
      assert !IsSpace("title"[0]) && !IsSpace("actor"[0]) && !IsSpace("reason"[0]);
    }
    assert db == Orchestration.Step(Orchestration.EMPTY, ops[0]);
    assert db == Orchestration.Created(Orchestration.EMPTY, "title", "research", "actor", 1, "reason");
    assert db.tasks.Keys == {1} && db.tasks[1].state == Orchestration.Pending;
  }

  /** However an interrupt cuts a run, at most one of its own tasks is left in `running`: the next in
      the queue after those it counted, whose handler the interrupt hit. */
  lemma InterruptLeavesOneRunning(db0: Orchestration.Db, db: Orchestration.Db, k: nat, call: Call, p: Point, id: int)
    requires Sound(db0) && StoreAt(db0, db, k, call, p)
    requires id in db.tasks && db.tasks[id].state == Orchestration.Running
    ensures || (p.InHandler? && k < |Queue(db0)| && id == Queue(db0)[k].id)
            || (id in db0.tasks && db0.tasks[id] == db.tasks[id])
  {
    hide Queue, Drained, Orchestration.DependencySnapshot, Sound;
    var actor, registry := call.config.actor, call.registry;
    match p {
      case InHandler(_) =>
        var mid :| Drained(db0, mid, k, actor, registry) && Queue(db0)[k].id in mid.tasks
                   && db == Started(mid, Queue(db0)[k].id, actor);
        if id != Queue(db0)[k].id {
          assert mid.tasks[id] == db.tasks[id];
          DrainedRunning(db0, mid, k, actor, registry, id);
        }
      case AfterTask(_) => DrainedRunning(db0, db, k + 1, actor, registry, id);
      case _ => DrainedRunning(db0, db, k, actor, registry, id);
    }
  }

  lemma DrainedRunning(db0: Orchestration.Db, db: Orchestration.Db, k: nat, actor: string, registry: Registry, id: int)
    requires Drained(db0, db, k, actor, registry)
    requires id in db.tasks && db.tasks[id].state == Orchestration.Running
    ensures id in db0.tasks && db0.tasks[id] == db.tasks[id]
  {
    hide Queue, ExecutedAll, Sound;
    var ids := Ids(Queue(db0)[..k]);
    forall i | 0 <= i < |ids|
      ensures ids[i] != id
    {
      assert Queue(db0)[..k][i] in Queue(db0)[..k];
    }
  }

  // ---------------------------------------------------------------------------
  // Draining the queue
  // ---------------------------------------------------------------------------

  /** `db` is `db0` with its whole ready queue executed: in order, each task once, nothing else
      touched, and none ready any more. */
  ghost predicate WholeQueueExecuted(db0: Orchestration.Db, db: Orchestration.Db, actor: string, registry: Registry)
    requires Sound(db0)
  {
    && db == ExecutedAll(db0, Ids(Queue(db0)), actor, registry)
    && Settled(db, Queue(db0), registry) && OthersUntouched(db0, db, Queue(db0)) && Distinct(Ids(Queue(db0)))
    && forall id | id in db.tasks :: db.tasks[id].state != Orchestration.Ready
  }

  lemma DrainedToTheEnd(db0: Orchestration.Db, db: Orchestration.Db, actor: string, registry: Registry)
    requires Sound(db0) && Drained(db0, db, |Queue(db0)|, actor, registry)
    ensures WholeQueueExecuted(db0, db, actor, registry)
  {
    hide Settled, OthersUntouched, ExecutedAll, Queue, Orchestration.RowIsTrue, Orchestration.ReadyTasks;
    assert Queue(db0)[..|Queue(db0)|] == Queue(db0);
    QueueIdsDistinct(db0);
    assert Queue(db) == [];
    QueueIsSorted(db);
    forall id | id in db.tasks
      ensures db.tasks[id].state != Orchestration.Ready
    {
      ReadyRow(db, db.tasks[id]);
    }
  }

  lemma QueueIdsDistinct(db: Orchestration.Db)
    requires Sound(db)
    ensures Distinct(Ids(Queue(db)))
  {
    hide Orchestration.RowIsTrue, Orchestration.ReadyTasks, TotalOrderOn, OrderedBy;
    QueueIsSorted(db);
    var q := Queue(db);
    forall i, j | 0 <= i < j < |q|
      ensures q[i].id != q[j].id
    {
      assert q[i] in q && q[j] in q;
    }
  }

  /** ceil(n / 50) */
  function Batches(n: nat): nat {
    (n + 49) / 50
  }

  lemma IteratedMoves(row: Row, call: Call, i: int, b: nat, done: nat)
    ensures ExecutingMoves(IteratedRow(row, call, i, b, done).lineage)
         == ExecutingMoves(row.lineage) + if b > 0 then 1 else 0
  {
    hide Reason, ExecutingMoves;
    MovedMoves(row, Polling, Poll, i);
    if b == 0 {
      MovedMoves(PolledRow(row, i), Idle, NoWork, i);
    } else {
      MovedMoves(PolledRow(row, i), Executing, Execute, i);
      if Due(call, i) { MovedMoves(ExecutingRow(row, i), Checkpointing, Save, i); }
      MovedMoves(SavedRow(row, call, i, done), Idle, if Due(call, i) then Saved else Unsaved, i);
    }
  }

  lemma MovedMoves(row: Row, target: RuntimeState, step: Step, i: int)
    ensures ExecutingMoves(Advanced(row, target, step, i).lineage)
         == ExecutingMoves(row.lineage) + if target == Executing then 1 else 0
  {
    hide Reason;
    ExecutingMovesSnoc(row.lineage, LineageEvent(Some(row.state), target, Reason(step), i));
  }

  /** The moves to executing that the lineage records are the batches taken. */
  lemma {:induction false} BatchesAreLogged(call: Call, row0: Row, n: nat, j: nat)
    ensures ExecutingMoves(TopRow(call, row0, n, j).lineage) == ExecutingMoves(row0.lineage) + Batches(Taken(n, j))
  {
    hide ExecutingMoves, IteratedRow;
    if j == 0 {
      MovedMoves(row0, Idle, Resume, row0.iteration);
      MovedMoves(row0, Idle, Start, 0);
    } else {
      BatchesAreLogged(call, row0, n, j - 1);
      IteratedMoves(TopRow(call, row0, n, j - 1), call, row0.iteration + j, Batch(n, j - 1), Taken(n, j));
    }
  }

  /** A run that went through enough iterations, however it was stopped: its batches of at most fifty
      are, end to end, the whole ready queue in (priority, id) order, and its lineage holds exactly
      ceil(n / 50) executing moves. */
  lemma EnoughIterationsDrainQueue(db0: Orchestration.Db, row0: Row, db: Orchestration.Db, row: Row, call: Call,
                                   r: Outcome)
    requires RunOk(db0, row0, db, row, call, r) && StartsAtZero(row0)
    requires r.Finished? || r.StillRunning?
    requires row0.iteration <= row.iteration && |Queue(db0)| <= POLL_LIMIT * (row.iteration - row0.iteration)
    ensures Sound(db0) && WholeQueueExecuted(db0, db, call.config.actor, call.registry)
    ensures r.Finished? ==> r.tasksExecuted == |Queue(db0)|
    ensures ExecutingMoves(row.lineage) - ExecutingMoves(row0.lineage) == Batches(|Queue(db0)|)
  {
    hide Drained, Queue, Sound, ExecutingMoves, Reached, TopRow, Reason, WholeQueueExecuted, Batches;
    var n := |Queue(db0)|;
    if r == StillRunning {
      TopRowState(call, row0, n, call.horizon);
      BatchesAreLogged(call, row0, n, call.horizon);
    } else {
      var j: nat :| EndsInLoop(db0, row0, db, row, call, n, j, r);
      BatchesAreLogged(call, row0, n, j);
      MovedMoves(TopRow(call, row0, n, j), Paused, if r.reason == MaxIterations then Maximum else Signal,
                 row0.iteration + j);
    }
    DrainedToTheEnd(db0, db, call.config.actor, call.registry);
  }

  /** Without interrupts and signals, and below the maximum, every iteration completes. */
  lemma {:induction false} QuietlyReached(call: Call, row0: Row, n: nat, j: nat)
    requires row0.state in STARTABLE && !Blank(call.config.actor) && !Unbounded(call)
    requires forall i, p :: !call.interrupt(i, p)
    requires forall i :: !Signalled(call, i)
    requires forall i | row0.iteration <= i < row0.iteration + j :: !AtMaximum(call, i)
    ensures Reached(call, row0, n, j)
  {
    hide Signalled, AtMaximum, Unbounded, Blank, Reason, Passes;
    if j > 0 { QuietlyReached(call, row0, n, j - 1); }
  }

  /** A quiet run: started from a state it may start in, by a named actor, with a maximum that leaves
      room for the queue, no stop signal and no interrupt.  It reaches the maximum and nothing else,
      pauses there, and has executed the whole ready queue in exactly ceil(n / 50) batches. */
  lemma QuietRunDrainsQueue(db0: Orchestration.Db, row0: Row, db: Orchestration.Db, row: Row, call: Call, r: Outcome)
    requires RunOk(db0, row0, db, row, call, r) && StartsAtZero(row0)
    requires row0.state in STARTABLE && !Blank(call.config.actor)
    requires forall i, p :: !call.interrupt(i, p)
    requires forall i :: !Signalled(call, i)
    requires call.config.maxIterations.Some? && 0 <= call.config.maxIterations.value - row0.iteration < call.horizon
    requires |Queue(db0)| <= POLL_LIMIT * (call.config.maxIterations.value - row0.iteration)
    ensures r == Finished(call.config.maxIterations.value, |Queue(db0)|, MaxIterations)
    ensures row.state == Paused && row.iteration == call.config.maxIterations.value
    ensures ExecutingMoves(row.lineage) - ExecutingMoves(row0.lineage) == Batches(|Queue(db0)|)
    ensures Sound(db0) && WholeQueueExecuted(db0, db, call.config.actor, call.registry)
  {
    hide Drained, Queue, Sound, ExecutingMoves, Reached, TopRow, Reason, WholeQueueExecuted, Batches, Blank, Signalled;
    var n, max := |Queue(db0)|, call.config.maxIterations.value;
    var j := max - row0.iteration;
    QuietlyReached(call, row0, n, j);
    RunEndsAsCalled(db0, row0, db, row, call, r, j, Finished(max, Taken(n, j), MaxIterations));
    EnoughIterationsDrainQueue(db0, row0, db, row, call, r);
  }

  /** A run is refused as unbounded exactly without a maximum, a signal and the permission. */
  lemma UnboundedIff(db0: Orchestration.Db, row0: Row, db: Orchestration.Db, row: Row, call: Call, r: Outcome)
    requires RunOk(db0, row0, db, row, call, r)
    ensures r == Raised(ValueError) <==>
              call.config.maxIterations == None && call.shouldStop == None && !call.config.allowUnbounded
    ensures r == Raised(ValueError) ==> row == row0 && db == db0
  {
    hide Queue, Sound, Drained, EndRow, EndStore, Reached, TopRow, Passes, Taken, Batch;
    var n := |Queue(db0)|;
    if r == StillRunning {
      ReachedBefore(call, row0, n, call.horizon, 0);
      EntersQuietly(call, row0, n);
    } else if r != Raised(ValueError) && !r.Uncaught? {
      var j: nat :| EndsInLoop(db0, row0, db, row, call, n, j, r);
      ReachedAtEnd(call, row0, n, j, r);
    }
  }

  /** Nothing ends a run at the top of the loop at iteration `i`. */
  predicate RunsPast(call: Call, i: int) {
    && (call.config.maxIterations.Some? ==> i < call.config.maxIterations.value)
    && (call.shouldStop.Some? ==> !call.shouldStop.value(i)) && !call.interrupt(i, Top)
  }

  /** A run that finished did so at the first iteration that is at the maximum or whose signal says so,
      the maximum being looked at first. */
  lemma FinishesAtFirstCause(db0: Orchestration.Db, row0: Row, db: Orchestration.Db, row: Row, call: Call, r: Outcome)
    requires RunOk(db0, row0, db, row, call, r) && r.Finished?
    ensures row0.iteration <= r.iterations && row.state == Paused && row.iteration == r.iterations
    ensures var max, stop := call.config.maxIterations, call.shouldStop;
            && (r.reason == MaxIterations <==> max.Some? && r.iterations >= max.value)
            && (r.reason == ShouldStop ==> stop.Some? && stop.value(r.iterations))
            && forall i | row0.iteration <= i < r.iterations :: RunsPast(call, i)
  {
    hide Queue, Sound, Drained, EndStore, Reached, TopRow, Taken, Batch, Completes, Reason;
    var n := |Queue(db0)|;
    var j: nat :| EndsInLoop(db0, row0, db, row, call, n, j, r);
    forall i | row0.iteration <= i < r.iterations
      ensures RunsPast(call, i)
    {
      ReachedBefore(call, row0, n, j, i - row0.iteration);
    }
  }

  /** A blank actor executes nothing, and the first task it meets leaves the row in executing. */
  lemma BlankActorExecutesNothing(db0: Orchestration.Db, row0: Row, db: Orchestration.Db, row: Row, call: Call,
                                  r: Outcome)
    requires RunOk(db0, row0, db, row, call, r) && Blank(call.config.actor)
    ensures db == db0
    ensures r == Raised(ValidationError) ==>
              Sound(db0) && Queue(db0) != [] && row == ExecutingRow(EnteredRow(row0), row0.iteration + 1)
  {
    hide Queue, Sound, Reached, Reason, Blank, EnteredRow, ExecutingRow, EndsAt, DoneAt, Drained;
    var n, actor, registry := |Queue(db0)|, call.config.actor, call.registry;
    DrainedNothing(db0, db, actor, registry);
    if r == StillRunning {
      BlankTakesNothing(call, row0, n, call.horizon);
    } else if r != Raised(ValueError) && !r.Uncaught? {
      var j: nat :| EndsInLoop(db0, row0, db, row, call, n, j, r);
      BlankEnds(call, row0, n, j, r);
    }
  }

  lemma BlankEnds(call: Call, row0: Row, n: nat, j: nat, r: Outcome)
    requires EndsAt(call, row0, n, j, r) && Blank(call.config.actor)
    ensures DoneAt(n, j, r) == 0
    ensures r.KeyboardInterrupt? ==> !r.at.InHandler? && !r.at.AfterTask?
    ensures r == Raised(ValidationError) ==> j == 0 && n > 0
  {
    hide Reached, Blank, StopsAt, Undisturbed, Quiet, Due, TopState;
    BlankTakesNothing(call, row0, n, j);
  }

  lemma BlankTakesNothing(call: Call, row0: Row, n: nat, j: nat)
    requires Reached(call, row0, n, j) && Blank(call.config.actor)
    ensures Taken(n, j) == 0 && (n > 0 ==> j == 0)
  {
    hide Reached, Blank, Undisturbed, StopsAt, TopState;
    if j > 0 { ReachedBefore(call, row0, n, j, 0); }
  }

  lemma DrainedNothing(db0: Orchestration.Db, db: Orchestration.Db, actor: string, registry: Registry)
    ensures Drained(db0, db, 0, actor, registry) ==> db == db0
  {
    hide Sound, Queue;
    if Drained(db0, db, 0, actor, registry) { assert Ids(Queue(db0)[..0]) == []; }
  }

  /** A halted runtime is refused and left as it is, by a run that observes anything. */
  lemma HaltedRunIsRefused(db0: Orchestration.Db, row0: Row, db: Orchestration.Db, row: Row, call: Call, r: Outcome)
    requires RunOk(db0, row0, db, row, call, r) && row0.state in HALTED && call.horizon > 0
    requires !Unbounded(call) && !r.Uncaught?
    ensures r == Raised(TransitionError) && row == row0 && db == db0
  {
    hide Queue, Sound, EndsAt, EndRow, DoneAt, Unbounded, Drained, RunOk;
    UncaughtIff(db0, row0, db, row, call, r);
    RunIsSound(db0, row0, db, row, call, r);
    HaltedEnds(call, row0, |Queue(db0)|);
    RunEndsAsCalled(db0, row0, db, row, call, r, 0, Raised(TransitionError));
    DrainedNothing(db0, db, call.config.actor, call.registry);
  }

  lemma HaltedEnds(call: Call, row0: Row, n: nat)
    requires row0.state in HALTED && call.horizon > 0 && !Unbounded(call)
    requires !call.interrupt(row0.iteration, Entering) && !call.interrupt(row0.iteration, Entered)
    ensures EndsAt(call, row0, n, 0, Raised(TransitionError))
    ensures EndRow(call, row0, n, 0, Raised(TransitionError)) == row0
    ensures DoneAt(n, 0, Raised(TransitionError)) == 0
  {
    hide Unbounded, Reason, StopsAt, CutAt, Undisturbed;
  }

  // ---------------------------------------------------------------------------
  // What a run writes
  // ---------------------------------------------------------------------------

  /** Neither the lineage nor the checkpoints of `row0` are rewritten in `row`. */
  ghost predicate Extends(row0: Row, row: Row) {
    row0.lineage <= row.lineage && row0.checkpoints <= row.checkpoints
  }

  lemma {:induction false} TopRowExtends(call: Call, row0: Row, n: nat, j: nat)
    ensures Extends(row0, TopRow(call, row0, n, j))
  {
    hide Reason, Due, IteratedRow, Batch, Taken;
    if j == 0 {
      EntryExtends(row0);
    } else {
      TopRowExtends(call, row0, n, j - 1);
      IterationExtends(TopRow(call, row0, n, j - 1), call, row0.iteration + j, Batch(n, j - 1), Taken(n, j));
    }
  }

  lemma EntryExtends(row0: Row)
    ensures Extends(row0, EnteredRow(row0))
  {
    hide Reason;
  }

  lemma IterationExtends(row: Row, call: Call, i: int, b: nat, done: nat)
    ensures Extends(row, IteratedRow(row, call, i, b, done)) && Extends(row, ExecutingRow(row, i))
    ensures forall p :: Extends(row, RowAt(row, call, i, done, p))
  {
    hide Reason, Due;
  }

  /** Whatever happens, a run only appends to what the runtime has written. */
  lemma RunAppends(db0: Orchestration.Db, row0: Row, db: Orchestration.Db, row: Row, call: Call, r: Outcome)
    requires RunOk(db0, row0, db, row, call, r)
    ensures Extends(row0, row)
  {
    hide Queue, Sound, Drained, Reason, EndsAt, EndStore, TopRow, RowAt, IteratedRow, ExecutingRow, Reached, Batch,
         Taken, DoneAt;
    var n := |Queue(db0)|;
    if r == StillRunning {
      TopRowExtends(call, row0, n, call.horizon);
    } else if r != Raised(ValueError) && !r.Uncaught? {
      var j: nat :| EndsInLoop(db0, row0, db, row, call, n, j, r);
      TopRowExtends(call, row0, n, j);
      IterationExtends(TopRow(call, row0, n, j), call, row0.iteration + j + 1, Batch(n, j), Taken(n, j + 1));
    }
  }

  /** What a run logs on entry, before everything else it appends. */
  lemma EntryIsLogged(db0: Orchestration.Db, row0: Row, db: Orchestration.Db, row: Row, call: Call, r: Outcome)
    requires RunOk(db0, row0, db, row, call, r)
    requires r != Raised(ValueError) && r != Uncaught(Entering)
    ensures var was := Some(row0.state);
            var entry :=
              match row0.state
              case Paused => [LineageEvent(was, Idle, "Runner: resuming from paused", row0.iteration)]
              case Initialized => [LineageEvent(was, Idle, "Runner: starting from initialized", 0)]
              case _ => [];
            row0.lineage + entry <= row.lineage
  {
    hide Queue, Sound, Drained, EndsAt, EndStore, RowAt, IteratedRow, ExecutingRow, Reached, Batch, Taken, DoneAt,
         EndRow;
    var n := |Queue(db0)|;
    if r == StillRunning {
      TopRowKeepsEntry(call, row0, n, call.horizon);
    } else if !r.Uncaught? {
      var j: nat :| EndsInLoop(db0, row0, db, row, call, n, j, r);
      TopRowKeepsEntry(call, row0, n, j);
      EndExtendsTop(call, row0, n, j, r);
    }
  }

  lemma EndExtendsTop(call: Call, row0: Row, n: nat, j: nat, r: Outcome)
    ensures Extends(TopRow(call, row0, n, j), EndRow(call, row0, n, j, r))
  {
    hide TopRow, RowAt, IteratedRow, ExecutingRow, Batch, Taken, DoneAt, Reason;
    IterationExtends(TopRow(call, row0, n, j), call, row0.iteration + j + 1, Batch(n, j), Taken(n, j + 1));
  }

  lemma {:induction false} TopRowKeepsEntry(call: Call, row0: Row, n: nat, j: nat)
    ensures EnteredRow(row0).lineage <= TopRow(call, row0, n, j).lineage
  {
    hide IteratedRow, Batch, Taken, EnteredRow, Reason;
    if j > 0 {
      TopRowKeepsEntry(call, row0, n, j - 1);
      IterationExtends(TopRow(call, row0, n, j - 1), call, row0.iteration + j, Batch(n, j - 1), Taken(n, j));
    }
  }

  /** What a run that pauses or is interrupted logs last. */
  lemma EndIsLogged(db0: Orchestration.Db, row0: Row, db: Orchestration.Db, row: Row, call: Call, r: Outcome)
    requires RunOk(db0, row0, db, row, call, r) && (r.Finished? || r.KeyboardInterrupt?)
    ensures row.lineage != []
    ensures var last := row.lineage[|row.lineage| - 1];
            && last.newState == row.state && last.iteration == row.iteration
            && last.reason == (if r.KeyboardInterrupt? then "Runner: KeyboardInterrupt received"
                               else if r.reason == MaxIterations then "Runner: max_iterations reached"
                               else "Runner: stopped by should_stop signal")
  {
    hide Queue, Sound, Drained, EndsAt, EndStore, TopRow, RowAt, IteratedRow, ExecutingRow, Reached, Batch, Taken,
         DoneAt, Reason, PausedRow, InterruptedRow;
    var j: nat :| EndsInLoop(db0, row0, db, row, call, |Queue(db0)|, j, r);
    StopIsLogged();
  }

  lemma StopIsLogged()
    ensures forall row, i, stop :: StoppedAs(PausedRow(row, i, stop), Paused, i,
              if stop == MaxIterations then "Runner: max_iterations reached"
              else "Runner: stopped by should_stop signal")
    ensures forall row, i, done ::
              StoppedAs(InterruptedRow(row, i, done), Interrupted, i, "Runner: KeyboardInterrupt received")
  {
  }

  /** The row has come to `state` at iteration `i`, and the last event of its lineage says why. */
  predicate StoppedAs(row: Row, state: RuntimeState, i: int, reason: string) {
    && row.state == state && row.iteration == i
    && row.lineage != []
    && var last := row.lineage[|row.lineage| - 1];
       last.newState == state && last.iteration == i && last.reason == reason
  }

  /** The iteration never passes the maximum. */
  lemma RunKeepsMaximum(db0: Orchestration.Db, row0: Row, db: Orchestration.Db, row: Row, call: Call, r: Outcome)
    requires RunOk(db0, row0, db, row, call, r) && StartsAtZero(row0)
    requires call.config.maxIterations.Some?
    ensures row0.iteration <= row.iteration
    ensures row.iteration <= row0.iteration || row.iteration <= call.config.maxIterations.value
  {
    hide Queue, Sound, Drained, Reason, EndStore, TopRow, Reached, Batch, Taken, DoneAt, RowAt, CutAt, Completes,
         Undisturbed;
    var n := |Queue(db0)|;
    if r == StillRunning {
      TopRowState(call, row0, n, call.horizon);
      if call.horizon > 0 { ReachedBefore(call, row0, n, call.horizon, call.horizon - 1); }
    } else if r != Raised(ValueError) && !r.Uncaught? {
      var j: nat :| EndsInLoop(db0, row0, db, row, call, n, j, r);
      TopRowState(call, row0, n, j);
      if j > 0 { ReachedBefore(call, row0, n, j, j - 1); }
    }
  }

  /** The checkpoints that `j` completed iterations write. */
  function Periodic(call: Call, row0: Row, n: nat, j: nat): seq<Checkpoint> {
    if j == 0 then []
    else
      var i := row0.iteration + j;
      Periodic(call, row0, n, j - 1) + if Batch(n, j - 1) > 0 && Due(call, i) then [Checkpoint(i, Taken(n, j))] else []
  }

  lemma {:induction false} TopRowCheckpoints(call: Call, row0: Row, n: nat, j: nat)
    ensures TopRow(call, row0, n, j).checkpoints == row0.checkpoints + Periodic(call, row0, n, j)
  {
    hide Reason, Due, Taken, Batch;
    if j > 0 { TopRowCheckpoints(call, row0, n, j - 1); }
  }

  lemma {:induction false} PeriodicIff(call: Call, row0: Row, n: nat, j: nat, c: Checkpoint)
    ensures c in Periodic(call, row0, n, j) <==>
              exists k | 0 < k <= j :: c == Checkpoint(row0.iteration + k, Taken(n, k))
                                       && Due(call, row0.iteration + k) && Batch(n, k - 1) > 0
  {
    hide Due, Taken, Batch;
    if j > 0 { PeriodicIff(call, row0, n, j - 1, c); }
  }

  ghost predicate Ascends(cs: seq<Checkpoint>) {
    forall a, b | 0 <= a < b < |cs| :: cs[a].iteration < cs[b].iteration
  }

  lemma AscendsSnoc(cs: seq<Checkpoint>, c: Checkpoint)
    requires Ascends(cs) && forall d | d in cs :: d.iteration < c.iteration
    ensures Ascends(cs + [c])
  {
  }

  lemma {:induction false} PeriodicAscends(call: Call, row0: Row, n: nat, j: nat)
    ensures Ascends(Periodic(call, row0, n, j))
  {
    hide Due, Taken, Batch, Ascends;
    if j == 0 {
      AscendsNone();
    } else {
      PeriodicAscends(call, row0, n, j - 1);
      PeriodicBound(call, row0, n, j - 1);
      AscendsSnoc(Periodic(call, row0, n, j - 1), Checkpoint(row0.iteration + j, Taken(n, j)));
      assert Periodic(call, row0, n, j - 1) + [] == Periodic(call, row0, n, j - 1);
    }
  }

  lemma AscendsNone()
    ensures Ascends([])
  {
  }

  lemma PeriodicBound(call: Call, row0: Row, n: nat, j: nat)
    ensures forall c | c in Periodic(call, row0, n, j) :: row0.iteration < c.iteration <= row0.iteration + j
  {
    hide Due, Taken, Batch, Periodic;
    forall c | c in Periodic(call, row0, n, j)
      ensures row0.iteration < c.iteration <= row0.iteration + j
    {
      PeriodicIff(call, row0, n, j, c);
    }
  }

  /** `c` belongs to the run's `k`-th iteration, a multiple of the interval that found a ready task, and
      counts the tasks executed in fifties. */
  ghost predicate IsCheckpointOf(c: Checkpoint, call: Call, row0: Row, n: nat, k: nat)
    requires call.config.checkpointEvery >= 1 && k > 0
  {
    && c == Checkpoint(row0.iteration + k, if n < 50 * k then n else 50 * k)
    && (row0.iteration + k) % call.config.checkpointEvery == 0 && n > 50 * (k - 1)
  }

  lemma IsCheckpointOfIff(c: Checkpoint, call: Call, row0: Row, n: nat, k: nat)
    requires call.config.checkpointEvery >= 1 && k > 0
    ensures IsCheckpointOf(c, call, row0, n, k) <==>
              && c == Checkpoint(row0.iteration + k, Taken(n, k))
              && Due(call, row0.iteration + k) && Batch(n, k - 1) > 0
  {
  }

  /** A finished run has added, in ascending order, exactly one checkpoint for every iteration that is a
      multiple of the interval and took a batch, each with the tasks executed so far. */
  lemma FinishedRunCheckpoints(db0: Orchestration.Db, row0: Row, db: Orchestration.Db, row: Row, call: Call,
                               r: Outcome)
    requires RunOk(db0, row0, db, row, call, r) && r.Finished? && call.config.checkpointEvery >= 1
    ensures Sound(db0) && row0.iteration <= r.iterations && row0.checkpoints <= row.checkpoints
    ensures var n, j, cs := |Queue(db0)|, r.iterations - row0.iteration, row.checkpoints[|row0.checkpoints|..];
            && (forall c :: c in cs <==>
                  exists k | 0 < k <= j :: IsCheckpointOf(c, call, row0, n, k))
            && forall a, b | 0 <= a < b < |cs| :: cs[a].iteration < cs[b].iteration
  {
    hide Queue, Sound, Drained, Reason, EndStore, TopRow, Reached, Batch, Taken, DoneAt, Due, Periodic,
         Ascends, IsCheckpointOf;
    var n := |Queue(db0)|;
    var j: nat :| EndsInLoop(db0, row0, db, row, call, n, j, r);
    TopRowCheckpoints(call, row0, n, j);
    PeriodicAscends(call, row0, n, j);
    var cs := row.checkpoints[|row0.checkpoints|..];
    assert cs == Periodic(call, row0, n, j);
    AscendingIterations(cs);
    forall c
      ensures c in cs <==> exists k | 0 < k <= j :: IsCheckpointOf(c, call, row0, n, k)
    {
      PeriodicIff(call, row0, n, j, c);
      if c in cs {
        var k :| 0 < k <= j && c == Checkpoint(row0.iteration + k, Taken(n, k))
                 && Due(call, row0.iteration + k) && Batch(n, k - 1) > 0;
        IsCheckpointOfIff(c, call, row0, n, k);
      }
      if k :| 0 < k <= j && IsCheckpointOf(c, call, row0, n, k) {
        IsCheckpointOfIff(c, call, row0, n, k);
      }
    }
  }

  lemma AscendingIterations(cs: seq<Checkpoint>)
    requires Ascends(cs)
    ensures forall a, b | 0 <= a < b < |cs| :: cs[a].iteration < cs[b].iteration
  {
  }

  // ---------------------------------------------------------------------------
  // Runs and recoveries, one after the other
  // ---------------------------------------------------------------------------

  /** How often the task has been started. */
  function Starts(db: Orchestration.Db, id: int): nat {
    Orchestration.Moves(Orchestration.History(db.lineage, id), Orchestration.Ready, Orchestration.Running)
  }

  predicate IsReady(db: Orchestration.Db, id: int) {
    id in db.tasks && db.tasks[id].state == Orchestration.Ready
  }

  /** Starts and readiness together: what a runner can never increase. */
  function Budget(db: Orchestration.Db, id: int): nat {
    Starts(db, id) + if IsReady(db, id) then 1 else 0
  }

  lemma TransitionBudget(db: Orchestration.Db, id: int, target: Orchestration.TaskState, reason: string,
                         actor: string, k: int)
    requires id in db.tasks && target != Orchestration.Ready
    requires db.tasks[id].state == Orchestration.Ready <==> target == Orchestration.Running
    ensures Budget(Orchestration.Transitioned(db, id, target, reason, actor), k) == Budget(db, k)
  {
    hide Orchestration.DependencySnapshot, Orchestration.History;
    var after := Orchestration.Transitioned(db, id, target, reason, actor);
    var e := after.lineage[|db.lineage|];
    Orchestration.HistorySnoc(db.lineage, e, k);
    var h := Orchestration.History(db.lineage, k);
    assert (h + [e])[..|h|] == h;
  }

  lemma ExecutedBudget(db: Orchestration.Db, id: int, actor: string, registry: Registry, k: int)
    requires id in db.tasks && db.tasks[id].state == Orchestration.Ready
    ensures Budget(Started(db, id, actor), k) == Budget(db, k)
    ensures Budget(Executed(db, id, actor, registry), k) == Budget(db, k)
  {
    hide Budget, FinalReason, Orchestration.DependencySnapshot;
    TransitionBudget(db, id, Orchestration.Running, START_REASON, actor, k);
    TransitionBudget(Started(db, id, actor), id, FinalState(db.tasks[id], registry),
                     FinalReason(db.tasks[id], registry), actor, k);
  }

  lemma {:induction false} DrainedBudget(db0: Orchestration.Db, n: nat, actor: string, registry: Registry, k: int)
    requires Sound(db0) && n <= |Queue(db0)|
    ensures var db := ExecutedAll(db0, Ids(Queue(db0)[..n]), actor, registry);
            Drained(db0, db, n, actor, registry) && Budget(db, k) == Budget(db0, k)
  {
    hide Sound, Queue, ExecutedAll, Executed, Started, Settled, OthersUntouched, Budget;
    if n == 0 {
      NothingDrained(db0, actor, registry);
    } else {
      DrainedBudget(db0, n - 1, actor, registry, k);
      var before := ExecutedAll(db0, Ids(Queue(db0)[..n - 1]), actor, registry);
      NextRow(db0, before, n - 1, actor, registry);
      ExecutedBudget(before, Queue(db0)[n - 1].id, actor, registry, k);
      DrainOne(db0, before, n - 1, actor, registry);
    }
  }

  /** What a run cannot do to a task: revive it, touch it unless it was ready, or start it twice. */
  ghost predicate TasksKept(db0: Orchestration.Db, db: Orchestration.Db, id: int) {
    && (id in db.tasks <==> id in db0.tasks)
    && (id in db0.tasks && !IsReady(db0, id) ==> db.tasks[id] == db0.tasks[id])
    && Budget(db, id) == Budget(db0, id)
  }

  lemma StartsFromReady(db0: Orchestration.Db, n: nat, id: int)
    requires Sound(db0) && n < |Queue(db0)| && id == Queue(db0)[n].id
    ensures IsReady(db0, id)
  {
    hide Sound, Queue, Orchestration.ReadyTasks;
    QueueIsSorted(db0);
    assert Queue(db0)[n] in Queue(db0);
    ReadyRow(db0, Queue(db0)[n]);
  }

  lemma DrainedKeeps(db0: Orchestration.Db, db: Orchestration.Db, n: nat, actor: string, registry: Registry, id: int)
    requires Drained(db0, db, n, actor, registry)
    ensures TasksKept(db0, db, id)
  {
    hide Sound, Queue, Settled, Budget, IsReady, ExecutedAll;
    DrainedBounds(db0, db, n, actor, registry);
    DrainedBudget(db0, n, actor, registry, id);
    if id in Ids(Queue(db0)[..n]) {
      var i :| 0 <= i < n && Ids(Queue(db0)[..n])[i] == id;
      StartsFromReady(db0, i, id);
      ReadyIsRow(db0, id);
    }
  }

  lemma ReadyIsRow(db: Orchestration.Db, id: int)
    requires IsReady(db, id)
    ensures id in db.tasks
  {
  }

  lemma HalfDrainedKeeps(db0: Orchestration.Db, db: Orchestration.Db, n: nat, actor: string, registry: Registry,
                         id: int)
    requires Sound(db0) && HalfDrained(db0, db, n, actor, registry)
    ensures TasksKept(db0, db, id) && Sound(db)
  {
    hide Sound, Queue, Drained, Budget, Orchestration.DependencySnapshot;
    var mid :| Drained(db0, mid, n, actor, registry) && n < |Queue(db0)|
               && Queue(db0)[n].id in mid.tasks && db == Started(mid, Queue(db0)[n].id, actor);
    DrainedKeeps(db0, mid, n, actor, registry, id);
    DrainedBounds(db0, mid, n, actor, registry);
    NextRow(db0, mid, n, actor, registry);
    StartedIsSound(mid, Queue(db0)[n].id, actor);
    ExecutedBudget(mid, Queue(db0)[n].id, actor, registry, id);
    StartsFromReady(db0, n, Queue(db0)[n].id);
  }

  lemma RunKeepsTasks(db0: Orchestration.Db, row0: Row, db: Orchestration.Db, row: Row, call: Call, r: Outcome,
                      id: int)
    requires RunOk(db0, row0, db, row, call, r)
    ensures Sound(db) && TasksKept(db0, db, id)
  {
    hide Sound, Queue, Drained, HalfDrained, EndsAt, EndRow, DoneAt, Reached, TopRow, TasksKept, EnteredRow;
    var n, actor, registry := |Queue(db0)|, call.config.actor, call.registry;
    if r == StillRunning {
      DrainedKeeps(db0, db, Taken(n, call.horizon), actor, registry, id);
      DrainedBounds(db0, db, Taken(n, call.horizon), actor, registry);
    } else if r == Raised(ValueError) || r.Uncaught? {
      SameTasks(db0, id);
    } else {
      var j: nat :| EndsInLoop(db0, row0, db, row, call, n, j, r);
      var done := DoneAt(n, j, r);
      if r.KeyboardInterrupt? && r.at.InHandler? {
        HalfDrainedKeeps(db0, db, done, actor, registry, id);
      } else if r.KeyboardInterrupt? && r.at.AfterTask? {
        DrainedKeeps(db0, db, done + 1, actor, registry, id);
        DrainedBounds(db0, db, done + 1, actor, registry);
      } else {
        DrainedKeeps(db0, db, done, actor, registry, id);
        DrainedBounds(db0, db, done, actor, registry);
      }
    }
  }

  lemma SameTasks(db: Orchestration.Db, id: int)
    ensures TasksKept(db, db, id)
  {
    hide Budget;
  }

  /** A runtime and the task store it works on. */
  datatype Session = Session(db: Orchestration.Db, row: Row)

  /** A run of any actor, with any handlers, signals and interrupts, under the maximum. */
  ghost predicate RunStep(a: Session, b: Session, max: int) {
    exists call: Call, r: Outcome :: call.config.maxIterations == Some(max) && RunOk(a.db, a.row, b.db, b.row, call, r)
  }

  /** A recovery, a pause or a stop by the operator, without an iteration of its own. */
  ghost predicate OperatorStep(a: Session, b: Session) {
    && b.db == a.db
    && exists reason ::
         || b.row == Recovered(a.row, reason, a.row.iteration)
         || b.row == Moved(a.row, Paused, reason, a.row.iteration)
         || b.row == Moved(a.row, Stopped, reason, a.row.iteration)
  }

  ghost predicate StepAt(ss: seq<Session>, i: nat, max: int) {
    0 < i < |ss| && (RunStep(ss[i - 1], ss[i], max) || OperatorStep(ss[i - 1], ss[i]))
  }

  /** Runs, interrupts, recoveries and resumes, in any order and number. */
  ghost predicate IsTrace(ss: seq<Session>, max: int) {
    && ss != [] && Sound(ss[0].db) && StartsAtZero(ss[0].row)
    && forall i | 0 < i < |ss| :: StepAt(ss, i, max)
  }

  lemma RunStaysStarted(db0: Orchestration.Db, row0: Row, db: Orchestration.Db, row: Row, call: Call, r: Outcome)
    requires RunOk(db0, row0, db, row, call, r) && StartsAtZero(row0)
    ensures StartsAtZero(row)
  {
    hide Sound, Queue, Drained, EndsAt, EndStore, DoneAt, Reached, TopRow, RowAt, Reason, EnteredRow, TopState;
    var n := |Queue(db0)|;
    EnteredIsStarted(row0);
    if r == StillRunning {
      TopRowState(call, row0, n, call.horizon);
    } else if r != Raised(ValueError) && !r.Uncaught? {
      var j: nat :| EndsInLoop(db0, row0, db, row, call, n, j, r);
      TopRowState(call, row0, n, j);
    }
  }

  lemma EnteredIsStarted(row0: Row)
    ensures EnteredRow(row0).state != Initialized
    ensures forall j: nat :: TopState(row0, j) != Initialized
  {
    hide Reason;
  }

  /** One step of a trace, for a row and for a task. */
  lemma SessionStep(a: Session, b: Session, max: int, id: int)
    requires Sound(a.db) && StartsAtZero(a.row) && (RunStep(a, b, max) || OperatorStep(a, b))
    ensures Sound(b.db) && StartsAtZero(b.row) && TasksKept(a.db, b.db, id)
    ensures a.row.iteration <= b.row.iteration
    ensures b.row.iteration <= a.row.iteration || b.row.iteration <= max
  {
    hide Sound, TasksKept, RunOk, RECOVERED;
    if RunStep(a, b, max) {
      var call: Call, r: Outcome :| call.config.maxIterations == Some(max) && RunOk(a.db, a.row, b.db, b.row, call, r);
      RunKeepsTasks(a.db, a.row, b.db, b.row, call, r, id);
      RunStaysStarted(a.db, a.row, b.db, b.row, call, r);
      RunKeepsMaximum(a.db, a.row, b.db, b.row, call, r);
    } else {
      SameTasks(a.db, id);
    }
  }

  lemma TasksKeptOn(a: Orchestration.Db, b: Orchestration.Db, c: Orchestration.Db, id: int)
    requires TasksKept(a, b, id) && TasksKept(b, c, id)
    ensures TasksKept(a, c, id)
  {
    hide Starts;
  }

  /** Over any number of runs and recoveries a task that is not ready is never touched again, no task is
      ever started twice, and the iteration never passes the maximum. */
  lemma {:induction false} ResumesNeverRepeat(ss: seq<Session>, max: int, i: nat, j: nat, id: int)
    requires IsTrace(ss, max) && i <= j < |ss|
    ensures Sound(ss[j].db) && StartsAtZero(ss[j].row) && TasksKept(ss[i].db, ss[j].db, id)
    ensures ss[i].row.iteration <= ss[j].row.iteration
    ensures ss[j].row.iteration <= ss[i].row.iteration || ss[j].row.iteration <= max
    decreases j
  {
    hide Sound, TasksKept, RunStep, OperatorStep, StartsAtZero;
    if j == 0 {
      SameTasks(ss[0].db, id);
    } else {
      ResumesNeverRepeat(ss, max, if i < j then i else j - 1, j - 1, id);
      assert StepAt(ss, j, max);
      SessionStep(ss[j - 1], ss[j], max, id);
      if i < j { TasksKeptOn(ss[i].db, ss[j - 1].db, ss[j].db, id); } else { SameTasks(ss[j].db, id); }
    }
  }

  /** So a task is started at most once over the whole trace, and one left running by an interrupt stays
      running and is never polled again. */
  lemma StartedAtMostOnce(ss: seq<Session>, max: int, i: nat, j: nat, id: int)
    requires IsTrace(ss, max) && i <= j < |ss|
    ensures Starts(ss[j].db, id) - Starts(ss[i].db, id)
         == (if IsReady(ss[i].db, id) then 1 else 0) - (if IsReady(ss[j].db, id) then 1 else 0)
    ensures id in ss[i].db.tasks && ss[i].db.tasks[id].state == Orchestration.Running ==>
              && id in ss[j].db.tasks && ss[j].db.tasks[id] == ss[i].db.tasks[id]
              && Sound(ss[j].db) && forall t | t in Queue(ss[j].db) :: t.id != id
  {
    hide Sound, Queue, Starts, IsTrace, StartsAtZero, Orchestration.ReadyTasks;
    ResumesNeverRepeat(ss, max, i, j, id);
    QueueIsSorted(ss[j].db);
    forall t | t in Queue(ss[j].db)
      ensures IsReady(ss[j].db, t.id)
    {
      ReadyRow(ss[j].db, t);
    }
  }
}
