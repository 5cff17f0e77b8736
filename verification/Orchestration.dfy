/** The task table, its append-only lineage and its dependencies. */
module Orchestration {
  import opened Ordering
  import opened Outcomes
  import opened SuccessorGraph
  import opened Tables

  datatype TaskState = Pending | Ready | Running | Blocked | Completed | Failed | Cancelled | Superseded

  function ValidTransitions(s: TaskState): set<TaskState> {
    match s
    case Pending => {Ready, Blocked, Cancelled}
    case Ready => {Running, Blocked, Cancelled}
    case Running => {Completed, Failed, Blocked}
    case Blocked => {Ready, Cancelled}
    case Failed => {Ready, Cancelled}
    case Completed => {Superseded}
    case Cancelled => {}
    case Superseded => {}
  }

  /** The same table seen from the state that is entered. */
  lemma StatesBefore(s: TaskState, target: TaskState)
    ensures target in ValidTransitions(s) <==>
              match target
              case Pending => false
              case Ready => s in {Pending, Blocked, Failed}
              case Running => s == Ready
              case Blocked => s in {Pending, Ready, Running}
              case Completed => s == Running
              case Failed => s == Running
              case Cancelled => s in {Pending, Ready, Blocked, Failed}
              case Superseded => s == Completed
  {
  }

  const TASK_TYPES: set<string> :=
    {"research", "analysis", "validation", "calibration", "review", "governance",
     "implementation", "report", "semantic_extraction"}

  const DEPENDENCY_TYPES: set<string> := {"task_completion", "governance_approval", "validation_outcome"}

  datatype Task = Task(id: int, title: string, taskType: string, state: TaskState,
                       priority: int, actor: string, version: nat)

  datatype LineageEvent = LineageEvent(taskId: int, oldState: Option<TaskState>, newState: TaskState,
                                       reason: string, actor: string, dependencies: seq<int>)

  datatype Dependency = Dependency(taskId: int, dependsOn: int, kind: string)

  datatype Db = Db(tasks: map<int, Task>, lineage: seq<LineageEvent>, dependencies: seq<Dependency>, lastId: nat)

  const EMPTY: Db := Db(map[], [], [], 0)

  // ---------------------------------------------------------------------------
  // What each operation does
  // ---------------------------------------------------------------------------

  predicate CreateAccepted(title: string, taskType: string, actor: string, priority: int, reason: string) {
    !Blank(title) && taskType in TASK_TYPES && !Blank(actor) && 1 <= priority <= 5 && !Blank(reason)
  }

  function Created(db: Db, title: string, taskType: string, actor: string, priority: int, reason: string): Db {
    var id := db.lastId + 1;
    Db(db.tasks[id := Task(id, title, taskType, Pending, priority, actor, 1)],
       db.lineage + [LineageEvent(id, None, Pending, reason, actor, [])],
       db.dependencies, id)
  }

  predicate DependsOn(db: Db, id: int, on: int) {
    exists d | d in db.dependencies :: d.taskId == id && d.dependsOn == on
  }

  /** Sorted ids the task depends on at this moment. */
  function DependencySnapshot(db: Db, id: int): (r: seq<int>)
    ensures IsListing(r, set d | d in db.dependencies && d.taskId == id :: d.dependsOn, IntLe)
  {
    SortedBy(set d | d in db.dependencies && d.taskId == id :: d.dependsOn, IntLe)
  }

  /** The error `transition_task` raises, if any. */
  function TransitionRefusal(db: Db, id: int, target: TaskState, reason: string, actor: string): Option<Error> {
    if Blank(reason) || Blank(actor) then Some(ValidationError)
    else if id !in db.tasks then Some(NotFoundError)
    else if target !in ValidTransitions(db.tasks[id].state) then Some(TransitionError)
    else None
  }

  function Transitioned(db: Db, id: int, target: TaskState, reason: string, actor: string): Db
    requires id in db.tasks
  {
    var t := db.tasks[id];
    db.(tasks := db.tasks[id := t.(state := target, version := t.version + 1)],
        lineage := db.lineage + [LineageEvent(id, Some(t.state), target, reason, actor, DependencySnapshot(db, id))])
  }

  function DependencyRefusal(db: Db, id: int, on: int, kind: string): Option<Error> {
    if kind !in DEPENDENCY_TYPES || id == on then Some(ValidationError)
    else if id !in db.tasks || on !in db.tasks then Some(NotFoundError)
    else if DependsOn(db, id, on) then Some(ValidationError)
    else None
  }

  /** A dependency blocks until its upstream task is completed; a superseded one still blocks. */
  predicate Blocks(db: Db, d: Dependency) {
    d.dependsOn in db.tasks && db.tasks[d.dependsOn].state != Completed
  }

  function BlockingDependencies(db: Db, id: int): seq<Dependency> {
    Filter(db.dependencies, (d: Dependency) => d.taskId == id && Blocks(db, d))
  }

  const UNBLOCK_REASON: string := "All dependencies resolved - task unblocked"

  predicate Unblockable(db: Db, id: int) {
    id in db.tasks && db.tasks[id].state == Blocked && BlockingDependencies(db, id) == []
  }

  // ---------------------------------------------------------------------------
  // The store
  // ---------------------------------------------------------------------------

  ghost predicate WellKeyed(db: Db) {
    && (forall id | id in db.tasks :: db.tasks[id].id == id && 1 <= id <= db.lastId)
    && (forall d | d in db.dependencies :: d.taskId in db.tasks && d.dependsOn in db.tasks)
  }

  class TaskStore {
    var tasks: map<int, Task>
    var lineage: seq<LineageEvent>
    var dependencies: seq<Dependency>
    var lastId: nat

    function Contents(): Db
      reads this
    {
      Db(tasks, lineage, dependencies, lastId)
    }

    constructor ()
      ensures Contents() == EMPTY
    {
      tasks, lineage, dependencies, lastId := map[], [], [], 0;
    }

    method CreateTask(title: string, taskType: string, actor: string, priority: int, reason: string)
      returns (r: Result<Task>)
      modifies this
      ensures CreateAccepted(title, taskType, actor, priority, reason) ==>
                && Contents() == Created(old(Contents()), title, taskType, actor, priority, reason)
                && r == Ok(tasks[lastId])
      ensures !CreateAccepted(title, taskType, actor, priority, reason) ==>
                Contents() == old(Contents()) && r == Err(ValidationError)
    {
      if Blank(title) || taskType !in TASK_TYPES || Blank(actor) { return Err(ValidationError); }
      if !(1 <= priority <= 5) { return Err(ValidationError); }
      if Blank(reason) { return Err(ValidationError); }
      lastId := lastId + 1;
      tasks := tasks[lastId := Task(lastId, title, taskType, Pending, priority, actor, 1)];
      lineage := lineage + [LineageEvent(lastId, None, Pending, reason, actor, [])];
      return Ok(tasks[lastId]);
    }

    method TransitionTask(id: int, target: TaskState, reason: string, actor: string) returns (r: Result<Task>)
      modifies this
      ensures var refusal := TransitionRefusal(old(Contents()), id, target, reason, actor);
              if refusal.Some? then Contents() == old(Contents()) && r == Err(refusal.value)
              else && Contents() == Transitioned(old(Contents()), id, target, reason, actor)
                   && r == Ok(tasks[id])
    {
      hide DependencySnapshot, Blank, ValidTransitions;
      if Blank(reason) || Blank(actor) { return Err(ValidationError); }
      if id !in tasks { return Err(NotFoundError); }
      var row := tasks[id];
      if target !in ValidTransitions(row.state) { return Err(TransitionError); }
      var snapshot := DependencySnapshot(Contents(), id);
      tasks := tasks[id := row.(state := target, version := row.version + 1)];
      lineage := lineage + [LineageEvent(id, Some(row.state), target, reason, actor, snapshot)];
      return Ok(tasks[id]);
    }

    method AddDependency(id: int, on: int, kind: string) returns (r: Result<Dependency>)
      modifies this
      ensures var refusal := DependencyRefusal(old(Contents()), id, on, kind);
              var d := Dependency(id, on, kind);
              if refusal.Some? then Contents() == old(Contents()) && r == Err(refusal.value)
              else Contents() == old(Contents()).(dependencies := old(dependencies) + [d]) && r == Ok(d)
    {
      if kind !in DEPENDENCY_TYPES { return Err(ValidationError); }
      if id == on { return Err(ValidationError); }
      if id !in tasks || on !in tasks { return Err(NotFoundError); }
      if DependsOn(Contents(), id, on) { return Err(ValidationError); }
      dependencies := dependencies + [Dependency(id, on, kind)];
      return Ok(Dependency(id, on, kind));
    }

    method CheckAndUnblock(id: int, actor: string) returns (r: Result<bool>)
      modifies this
      ensures var before := old(Contents());
              if id !in before.tasks then Contents() == before && r == Err(NotFoundError)
              else if !Unblockable(before, id) then Contents() == before && r == Ok(false)
              else if Blank(actor) then Contents() == before && r == Err(ValidationError)
              else Contents() == Transitioned(before, id, Ready, UNBLOCK_REASON, actor) && r == Ok(true)
    {
      if id !in tasks { return Err(NotFoundError); }
      if tasks[id].state != Blocked { return Ok(false); }
      if BlockingDependencies(Contents(), id) != [] { return Ok(false); }
      assert !Blank(UNBLOCK_REASON) by { assert !IsSpace(UNBLOCK_REASON[0]); }
      var moved := TransitionTask(id, Ready, UNBLOCK_REASON, actor);
      match moved
      case Ok(_) => return Ok(true);
      case Err(e) => return Err(e);
    }

    /** Filter, ORDER BY priority ASC, id ASC, LIMIT; an empty text filters nothing, and SQLite takes a
        negative limit as none. */
    method ListTasks(state: Option<TaskState>, taskType: Option<string>, actor: Option<string>, limit: int)
      returns (r: Result<seq<Task>>)
      requires WellKeyed(Contents())
      ensures Given(taskType) && taskType.value !in TASK_TYPES ==> r == Err(ValidationError)
      ensures !Given(taskType) || taskType.value in TASK_TYPES ==>
                && r.Ok? && ListsFirst(r.value, Matching(Contents(), state, taskType, actor), PriorityLe, limit)
                && IsTaskList(Contents(), state, taskType, actor, limit, r.value)
    {
      hide IsTaskList;
      if Given(taskType) && taskType.value !in TASK_TYPES { return Err(ValidationError); }
      var rows := Matching(Contents(), state, taskType, actor);
      var listed := InOrder(Contents(), rows);
      RowsAreOrdered(Contents(), rows);
      CutListsFirst(listed, rows, PriorityLe, |Limited(listed, limit)|);
      ListIsTaskList(Contents(), state, taskType, actor, limit, Limited(listed, limit));
      return Ok(Limited(listed, limit));
    }
  }

  // ---------------------------------------------------------------------------
  // Queues
  // ---------------------------------------------------------------------------

  predicate PriorityLe(a: Task, b: Task) {
    a.priority < b.priority || (a.priority == b.priority && a.id <= b.id)
  }

  function Matching(db: Db, state: Option<TaskState>, taskType: Option<string>, actor: Option<string>): set<Task> {
    set id | id in db.tasks
             && (state.None? || db.tasks[id].state == state.value)
             && (Given(taskType) ==> db.tasks[id].taskType == taskType.value)
             && (Given(actor) ==> db.tasks[id].actor == actor.value)
           :: db.tasks[id]
  }

  /** The task is stored and has the state, the type and the actor that are asked for, if any. */
  ghost predicate IsMatch(db: Db, state: Option<TaskState>, taskType: Option<string>, actor: Option<string>, t: Task) {
    && t.id in db.tasks && db.tasks[t.id] == t
    && (state == None || state == Some(t.state))
    && (taskType == None || taskType == Some("") || taskType == Some(t.taskType))
    && (actor == None || actor == Some("") || actor == Some(t.actor))
  }

  ghost predicate ComesBefore(a: Task, b: Task) {
    a.priority < b.priority || (a.priority == b.priority && a.id < b.id)
  }

  /** Matching tasks, the smaller priority number first and then the smaller id; a match is left out only
      when the limit is reached by matches that come before it. */
  ghost predicate IsTaskList(db: Db, state: Option<TaskState>, taskType: Option<string>, actor: Option<string>,
                             limit: int, r: seq<Task>) {
    && (forall t | t in r :: IsMatch(db, state, taskType, actor, t))
    && (forall i, j | 0 <= i < j < |r| :: ComesBefore(r[i], r[j]))
    && (limit >= 0 ==> |r| <= limit)
    && forall t | IsMatch(db, state, taskType, actor, t) && t !in r ::
         limit == |r| && forall u | u in r :: ComesBefore(u, t)
  }

  lemma MatchingIff(db: Db, state: Option<TaskState>, taskType: Option<string>, actor: Option<string>, t: Task)
    requires WellKeyed(db)
    ensures t in Matching(db, state, taskType, actor) <==> IsMatch(db, state, taskType, actor, t)
  {
  }

  lemma ListIsTaskList(db: Db, state: Option<TaskState>, taskType: Option<string>, actor: Option<string>, limit: int,
                       r: seq<Task>)
    requires WellKeyed(db) && ListsFirst(r, Matching(db, state, taskType, actor), PriorityLe, limit)
    ensures IsTaskList(db, state, taskType, actor, limit, r)
  {
    hide Matching, IsMatch;
    var rows := Matching(db, state, taskType, actor);
    forall t
      ensures t in rows <==> IsMatch(db, state, taskType, actor, t)
      ensures t in rows ==> t.id in db.tasks && db.tasks[t.id] == t
    {
      MatchingIff(db, state, taskType, actor, t);
      if t in rows { MatchIsRow(db, state, taskType, actor, t); }
    }
    FirstAreBefore(db, r, rows, limit);
  }

  lemma FirstAreBefore(db: Db, r: seq<Task>, rows: set<Task>, limit: int)
    requires ListsFirst(r, rows, PriorityLe, limit) && AreRows(db, rows)
    ensures forall i, j | 0 <= i < j < |r| :: ComesBefore(r[i], r[j])
    ensures limit >= 0 ==> |r| <= limit
    ensures forall t | t in rows && t !in r :: limit == |r| && forall u | u in r :: ComesBefore(u, t)
  {
    forall i, j | 0 <= i < j < |r|
      ensures ComesBefore(r[i], r[j])
    {
      assert r[i] in rows && r[j] in rows;
    }
    forall t | t in rows && t !in r
      ensures limit == |r| && forall u | u in r :: ComesBefore(u, t)
    {
      SomeLeftOut(r, rows, t);
    }
  }

  lemma MatchIsRow(db: Db, state: Option<TaskState>, taskType: Option<string>, actor: Option<string>, t: Task)
    requires IsMatch(db, state, taskType, actor, t)
    ensures t.id in db.tasks && db.tasks[t.id] == t
  {
  }

  lemma SomeLeftOut(r: seq<Task>, rows: set<Task>, t: Task)
    requires Distinct(r) && (forall x | x in r :: x in rows) && t in rows && t !in r
    ensures |r| < |rows|
  {
    SameSize(r, Elements(r));
    SubsetIsSmaller(Elements(r), rows - {t});
  }

  ghost predicate AreRows(db: Db, rows: set<Task>) {
    forall t | t in rows :: t.id in db.tasks && db.tasks[t.id] == t
  }

  lemma RowsAreOrdered(db: Db, rows: set<Task>)
    requires AreRows(db, rows)
    ensures TotalOrderOn(rows, PriorityLe)
  {
  }

  function InOrder(db: Db, rows: set<Task>): (r: seq<Task>)
    requires AreRows(db, rows)
    ensures IsListing(r, rows, PriorityLe)
  {
    RowsAreOrdered(db, rows);
    SortedBy(rows, PriorityLe)
  }

  function Limited<T>(s: seq<T>, limit: int): seq<T> {
    if 0 <= limit <= |s| then s[..limit] else s
  }

  function ReadyTasks(db: Db): set<Task> {
    Matching(db, Some(Ready), None, None)
  }

  // ---------------------------------------------------------------------------
  // Runs
  // ---------------------------------------------------------------------------

  datatype Op =
    | Create(title: string, taskType: string, actor: string, priority: int, reason: string)
    | Transition(id: int, target: TaskState, reason: string, actor: string)
    | Depend(id: int, on: int, kind: string)
    | Unblock(id: int, actor: string)

  function Moved(db: Db, id: int, target: TaskState, reason: string, actor: string): Db {
    if TransitionRefusal(db, id, target, reason, actor).Some? then db
    else Transitioned(db, id, target, reason, actor)
  }

  function Step(db: Db, op: Op): Db {
    match op
    case Create(title, taskType, actor, priority, reason) =>
      if CreateAccepted(title, taskType, actor, priority, reason)
      then Created(db, title, taskType, actor, priority, reason) else db
    case Transition(id, target, reason, actor) => Moved(db, id, target, reason, actor)
    case Depend(id, on, kind) =>
      if DependencyRefusal(db, id, on, kind).Some? then db
      else db.(dependencies := db.dependencies + [Dependency(id, on, kind)])
    case Unblock(id, actor) =>
      if Unblockable(db, id) && !Blank(actor) then Transitioned(db, id, Ready, UNBLOCK_REASON, actor) else db
  }

  function Run(db: Db, ops: seq<Op>): Db {
    if ops == [] then db else Step(Run(db, ops[..|ops| - 1]), ops[|ops| - 1])
  }

  /** An unblock check succeeds exactly for a blocked task whose dependencies are all completed, known
      actor given; then the task is ready, and nothing else has changed but the log. */
  lemma UnblockedIff(db: Db, id: int, actor: string)
    requires WellKeyed(db)
    ensures var after := Step(db, Op.Unblock(id, actor));
            if && id in db.tasks && db.tasks[id].state == Blocked && !Blank(actor)
               && forall d | d in db.dependencies && d.taskId == id :: db.tasks[d.dependsOn].state == Completed
            then && after.tasks == db.tasks[id := db.tasks[id].(state := Ready, version := db.tasks[id].version + 1)]
                 && after.dependencies == db.dependencies
                 && after.lineage == db.lineage
                      + [LineageEvent(id, Some(Blocked), Ready, "All dependencies resolved - task unblocked", actor,
                                      DependencySnapshot(db, id))]
            else after == db
  {
    hide DependencySnapshot, Blank;
    UnblockableIff(db, id);
  }

  lemma UnblockableIff(db: Db, id: int)
    requires WellKeyed(db)
    ensures Unblockable(db, id) <==>
              && id in db.tasks && db.tasks[id].state == Blocked
              && forall d | d in db.dependencies && d.taskId == id :: db.tasks[d.dependsOn].state == Completed
  {
    var blocking := BlockingDependencies(db, id);
    if blocking != [] { assert blocking[0] in blocking; }
  }

  ghost predicate TaskIsValid(t: Task) {
    && !Blank(t.title) && !Blank(t.actor) && t.priority in {1, 2, 3, 4, 5} && IsTaskType(t.taskType)
  }

  ghost predicate IsTaskType(text: string) {
    || text == "research" || text == "analysis" || text == "validation" || text == "calibration"
    || text == "review" || text == "governance" || text == "implementation" || text == "report"
    || text == "semantic_extraction"
  }

  lemma TaskTypeIff(text: string)
    ensures text in TASK_TYPES <==> IsTaskType(text)
  {
  }

  /** A task is created exactly with a title, an actor and a reason, a known type and a priority from 1 to 5. */
  lemma CreationAcceptedIff(title: string, taskType: string, actor: string, priority: int, reason: string)
    ensures CreateAccepted(title, taskType, actor, priority, reason) <==>
              && !Blank(title) && !Blank(actor) && !Blank(reason) && IsTaskType(taskType)
              && priority in {1, 2, 3, 4, 5}
  {
    hide Blank, TASK_TYPES, IsTaskType;
    TaskTypeIff(taskType);
  }

  ghost predicate EdgeIsValid(db: Db, d: Dependency) {
    && d.taskId != d.dependsOn && d.taskId in db.tasks && d.dependsOn in db.tasks
    && (d.kind == "task_completion" || d.kind == "governance_approval" || d.kind == "validation_outcome")
  }

  /** No two dependencies join the same two tasks. */
  ghost predicate EdgesAreDistinct(edges: seq<Dependency>) {
    forall i, j | 0 <= i < j < |edges| ::
      edges[i].taskId != edges[j].taskId || edges[i].dependsOn != edges[j].dependsOn
  }

  ghost predicate RowsAreValid(db: Db) {
    && (forall id | id in db.tasks :: TaskIsValid(db.tasks[id]))
    && (forall d | d in db.dependencies :: EdgeIsValid(db, d))
    && EdgesAreDistinct(db.dependencies)
  }

  /** What every stored task and dependency satisfies, in every reachable store. */
  lemma {:induction false} ReachableRowsAreValid(ops: seq<Op>)
    ensures RowsAreValid(Run(EMPTY, ops))
  {
    hide Step, TaskIsValid, EdgeIsValid;
    if ops != [] {
      ReachableRowsAreValid(ops[..|ops| - 1]);
      StepKeepsValid(Run(EMPTY, ops[..|ops| - 1]), ops[|ops| - 1]);
    }
  }

  lemma StepKeepsValid(db: Db, op: Op)
    requires RowsAreValid(db)
    ensures RowsAreValid(Step(db, op))
  {
    hide Blank, DependencySnapshot, BlockingDependencies, TaskIsValid, EdgesAreDistinct, EdgeIsValid;
    var after := Step(db, op);
    TasksStayValid(db, op);
    forall d | d in after.dependencies
      ensures EdgeIsValid(after, d)
    {
      if d in db.dependencies {
        EdgeStays(db, after, d);
      } else {
        DependencyAcceptedIff(db, op.id, op.on, op.kind);
        NewEdge(after, d);
      }
    }
    if op.Depend? && DependencyRefusal(db, op.id, op.on, op.kind).None? {
      DependencyAcceptedIff(db, op.id, op.on, op.kind);
      EdgesSnoc(db.dependencies, Dependency(op.id, op.on, op.kind));
    }
  }

  lemma TasksStayValid(db: Db, op: Op)
    requires forall id | id in db.tasks :: TaskIsValid(db.tasks[id])
    ensures forall id | id in Step(db, op).tasks :: TaskIsValid(Step(db, op).tasks[id])
  {
    hide Blank, DependencySnapshot, BlockingDependencies, ValidTransitions, IsTaskType, TASK_TYPES;
    var after := Step(db, op);
    if op.Create? { TaskTypeIff(op.taskType); }
    forall id | id in after.tasks
      ensures TaskIsValid(after.tasks[id])
    {
      if id in db.tasks { assert TaskIsValid(db.tasks[id]); }
    }
  }

  lemma EdgeStays(db: Db, after: Db, d: Dependency)
    requires EdgeIsValid(db, d) && db.tasks.Keys <= after.tasks.Keys
    ensures EdgeIsValid(after, d)
  {
  }

  lemma NewEdge(db: Db, d: Dependency)
    requires d.kind == "task_completion" || d.kind == "governance_approval" || d.kind == "validation_outcome"
    requires d.taskId != d.dependsOn && d.taskId in db.tasks && d.dependsOn in db.tasks
    ensures EdgeIsValid(db, d)
  {
  }

  lemma EdgesSnoc(edges: seq<Dependency>, d: Dependency)
    requires EdgesAreDistinct(edges) && forall x | x in edges :: x.taskId != d.taskId || x.dependsOn != d.dependsOn
    ensures EdgesAreDistinct(edges + [d])
  {
  }

  /** A dependency is accepted exactly between two different stored tasks, with a known kind, and only once. */
  lemma DependencyAcceptedIff(db: Db, id: int, on: int, kind: string)
    ensures DependencyRefusal(db, id, on, kind).None? <==>
              && (kind == "task_completion" || kind == "governance_approval" || kind == "validation_outcome")
              && id != on && id in db.tasks && on in db.tasks
              && forall d | d in db.dependencies :: d.taskId != id || d.dependsOn != on
  {
  }

  // ---------------------------------------------------------------------------
  // Lineage is the truth
  // ---------------------------------------------------------------------------

  function History(lineage: seq<LineageEvent>, id: int): seq<LineageEvent> {
    if lineage == [] then []
    else
      var before := History(lineage[..|lineage| - 1], id);
      var e := lineage[|lineage| - 1];
      if e.taskId == id then before + [e] else before
  }

  /** `current_state_from_lineage` */
  function CurrentState(h: seq<LineageEvent>): Option<TaskState> {
    if h == [] then None else Some(h[|h| - 1].newState)
  }

  /** A creation followed by permitted transitions, each starting where the last one ended. */
  ghost predicate IsHistory(h: seq<LineageEvent>) {
    && h != []
    && var last := h[|h| - 1];
       if |h| == 1 then last.oldState == None && last.newState == Pending
       else
         && IsHistory(h[..|h| - 1])
         && last.oldState == CurrentState(h[..|h| - 1])
         && last.newState in ValidTransitions(last.oldState.value)
  }

  ghost predicate RowIsTrue(db: Db, id: int) {
    var h := History(db.lineage, id);
    if id in db.tasks then
      IsHistory(h) && CurrentState(h) == Some(db.tasks[id].state) && |h| == db.tasks[id].version
    else
      h == []
  }

  ghost predicate LineageIsTruth(db: Db) {
    WellKeyed(db) && forall id :: RowIsTrue(db, id)
  }

  lemma HistorySnoc(lineage: seq<LineageEvent>, e: LineageEvent, id: int)
    ensures History(lineage + [e], id)
         == if e.taskId == id then History(lineage, id) + [e] else History(lineage, id)
  {
    assert (lineage + [e])[..|lineage|] == lineage;
  }

  lemma HistoryGrows(h: seq<LineageEvent>, e: LineageEvent)
    requires IsHistory(h) && e.oldState == CurrentState(h) && e.newState in ValidTransitions(e.oldState.value)
    ensures IsHistory(h + [e]) && CurrentState(h + [e]) == Some(e.newState)
  {
    assert (h + [e])[..|h|] == h;
  }

  lemma TransitionKeepsTruth(db: Db, id: int, target: TaskState, reason: string, actor: string)
    requires LineageIsTruth(db) && id in db.tasks && target in ValidTransitions(db.tasks[id].state)
    ensures LineageIsTruth(Transitioned(db, id, target, reason, actor))
  {
    hide DependencySnapshot, ValidTransitions, IsHistory, History;
    var after := Transitioned(db, id, target, reason, actor);
    forall k
      ensures RowIsTrue(after, k)
    {
      assert RowIsTrue(db, k);
      HistorySnoc(db.lineage, after.lineage[|db.lineage|], k);
      if k == id { HistoryGrows(History(db.lineage, id), after.lineage[|db.lineage|]); }
    }
  }

  lemma CreateKeepsTruth(db: Db, title: string, taskType: string, actor: string, priority: int, reason: string)
    requires LineageIsTruth(db)
    ensures LineageIsTruth(Created(db, title, taskType, actor, priority, reason))
  {
    hide ValidTransitions, IsHistory, History;
    var after := Created(db, title, taskType, actor, priority, reason);
    forall k
      ensures RowIsTrue(after, k)
    {
      assert RowIsTrue(db, k);
      HistorySnoc(db.lineage, after.lineage[|db.lineage|], k);
      if k == after.lastId {
        FirstEvent(after.lineage[|db.lineage|]);
        assert [] + [after.lineage[|db.lineage|]] == [after.lineage[|db.lineage|]];
      }
    }
  }

  lemma FirstEvent(e: LineageEvent)
    requires e.oldState == None && e.newState == Pending
    ensures IsHistory([e]) && CurrentState([e]) == Some(Pending)
  {
  }

  lemma StepKeepsTruth(db: Db, op: Op)
    requires LineageIsTruth(db)
    ensures LineageIsTruth(Step(db, op))
  {
    hide IsHistory, History, DependencySnapshot;
    match op
    case Create(title, taskType, actor, priority, reason) =>
      CreateKeepsTruth(db, title, taskType, actor, priority, reason);
    case Transition(id, target, reason, actor) =>
      if TransitionRefusal(db, id, target, reason, actor).None? {
        TransitionKeepsTruth(db, id, target, reason, actor);
      }
    case Depend(id, on, kind) =>
      forall k
        ensures RowIsTrue(Step(db, op), k)
      {
        assert RowIsTrue(db, k);
      }
    case Unblock(id, actor) =>
      if Unblockable(db, id) { TransitionKeepsTruth(db, id, Ready, UNBLOCK_REASON, actor); }
  }

  /** In every reachable store the row is what the lineage says, and nothing more. */
  lemma {:induction false} ReachableLineageIsTruth(ops: seq<Op>)
    ensures LineageIsTruth(Run(EMPTY, ops))
  {
    assert LineageIsTruth(EMPTY);
    if ops != [] {
      ReachableLineageIsTruth(ops[..|ops| - 1]);
      StepKeepsTruth(Run(EMPTY, ops[..|ops| - 1]), ops[|ops| - 1]);
    }
  }

  /** How often the history moves from `a` to `b`. */
  function Moves(h: seq<LineageEvent>, a: TaskState, b: TaskState): nat {
    if h == [] then 0
    else
      var e := h[|h| - 1];
      Moves(h[..|h| - 1], a, b) + if e.oldState == Some(a) && e.newState == b then 1 else 0
  }

  /** Every run started is accounted for; a task completes at most once; every failure has been
      retried, cancelled, or is where the task still stands. */
  lemma {:induction false} RunsAreAccountedFor(h: seq<LineageEvent>)
    requires IsHistory(h)
    ensures var s := h[|h| - 1].newState;
            && Moves(h, Ready, Running) == Moves(h, Running, Completed) + Moves(h, Running, Failed)
                                           + Moves(h, Running, Blocked) + (if s == Running then 1 else 0)
            && Moves(h, Running, Failed) == Moves(h, Failed, Ready) + Moves(h, Failed, Cancelled)
                                            + (if s == Failed then 1 else 0)
            && Moves(h, Running, Completed) == (if s in {Completed, Superseded} then 1 else 0)
  {
    if |h| > 1 { RunsAreAccountedFor(h[..|h| - 1]); }
  }

  /** `count_task_retries` */
  function CountTaskRetries(db: Db, id: int): nat {
    Moves(History(db.lineage, id), Failed, Ready)
  }

  /** In every reachable store: the runs a task ever started are its completions, failures and blocked
      runs, plus the one in progress; its retries are its failures that were neither cancelled nor left
      standing. */
  lemma TaskRunsAreAccountedFor(ops: seq<Op>, id: int)
    requires id in Run(EMPTY, ops).tasks
    ensures var db := Run(EMPTY, ops);
            var h, s := History(db.lineage, id), db.tasks[id].state;
            && Moves(h, Ready, Running) == Moves(h, Running, Completed) + Moves(h, Running, Failed)
                                           + Moves(h, Running, Blocked) + (if s == Running then 1 else 0)
            && CountTaskRetries(db, id) == Moves(h, Running, Failed) - Moves(h, Failed, Cancelled)
                                           - (if s == Failed then 1 else 0)
            && Moves(h, Running, Completed) == (if s in {Completed, Superseded} then 1 else 0)
            && db.tasks[id].version == |h|
  {
    hide Run, Moves, IsHistory, History, WellKeyed;
    ReachableLineageIsTruth(ops);
    assert RowIsTrue(Run(EMPTY, ops), id);
    RunsAreAccountedFor(History(Run(EMPTY, ops).lineage, id));
  }

  // ---------------------------------------------------------------------------
  // Deadlock and progress
  // ---------------------------------------------------------------------------

  /** Every member is blocked and waits for a member, or for a task that can never complete again. */
  ghost predicate Stuck(db: Db, s: set<int>) {
    forall id | id in s ::
      && id in db.tasks && db.tasks[id].state == Blocked
      && exists d :: d in db.dependencies && d.taskId == id && HoldsBack(db, s, d)
  }

  ghost predicate HoldsBack(db: Db, s: set<int>, d: Dependency) {
    d.dependsOn in s || (d.dependsOn in db.tasks && db.tasks[d.dependsOn].state in {Cancelled, Superseded})
  }

  /** The op does not ready or cancel a member of `s` by an explicit transition. */
  predicate LeavesAlone(op: Op, s: set<int>) {
    op.Transition? && op.id in s ==> op.target !in ValidTransitions(Blocked)
  }

  lemma StuckTaskIsNotUnblockable(db: Db, s: set<int>, id: int)
    requires Stuck(db, s) && id in s
    ensures id in db.tasks && db.tasks[id].state == Blocked && !Unblockable(db, id)
  {
    var d :| d in db.dependencies && d.taskId == id && HoldsBack(db, s, d);
    assert Blocks(db, d);
    assert d in BlockingDependencies(db, id);
  }

  lemma StepKeepsStuck(db: Db, s: set<int>, op: Op)
    requires WellKeyed(db) && Stuck(db, s) && LeavesAlone(op, s)
    ensures Stuck(Step(db, op), s) && WellKeyed(Step(db, op))
  {
    hide HoldsBack, Stuck;
    forall id | id in s
      ensures id in db.tasks && db.tasks[id].state == Blocked && !Unblockable(db, id)
    {
      StuckTaskIsNotUnblockable(db, s, id);
    }
    StepLeavesBlocked(db, s, op);
    StillHeldBack(db, Step(db, op), s);
  }

  /** A step leaves the members blocked, keeps every dependency, and never revives a finished task. */
  lemma StepLeavesBlocked(db: Db, s: set<int>, op: Op)
    requires WellKeyed(db) && LeavesAlone(op, s)
    requires forall id | id in s :: id in db.tasks && db.tasks[id].state == Blocked && !Unblockable(db, id)
    ensures var after := Step(db, op);
            && WellKeyed(after)
            && (forall id | id in s :: id in after.tasks && after.tasks[id].state == Blocked)
            && (forall d | d in db.dependencies :: d in after.dependencies)
            && (forall id | id in db.tasks && db.tasks[id].state in {Cancelled, Superseded} ::
                  id in after.tasks && after.tasks[id].state == db.tasks[id].state)
  {
    hide DependencySnapshot, BlockingDependencies, DependsOn, Blank, TASK_TYPES, DEPENDENCY_TYPES;
  }

  lemma StillHeldBack(db: Db, after: Db, s: set<int>)
    requires Stuck(db, s)
    requires forall id | id in s :: id in after.tasks && after.tasks[id].state == Blocked
    requires forall d | d in db.dependencies :: d in after.dependencies
    requires forall id | id in db.tasks && db.tasks[id].state in {Cancelled, Superseded} ::
               id in after.tasks && after.tasks[id].state == db.tasks[id].state
    ensures Stuck(after, s)
  {
    forall id | id in s
      ensures exists d :: d in after.dependencies && d.taskId == id && HoldsBack(after, s, d)
    {
      var d :| d in db.dependencies && d.taskId == id && HoldsBack(db, s, d);
      assert d in after.dependencies && HoldsBack(after, s, d);
    }
  }

  /** A stuck set never moves: not by any sequence of creations, new dependencies, unblock checks,
      attempts to execute, and transitions of other tasks. */
  lemma {:induction false} StuckForever(db: Db, s: set<int>, ops: seq<Op>)
    requires WellKeyed(db) && Stuck(db, s)
    requires forall i | 0 <= i < |ops| :: LeavesAlone(ops[i], s)
    ensures Stuck(Run(db, ops), s) && WellKeyed(Run(db, ops))
  {
    if ops != [] {
      StuckForever(db, s, ops[..|ops| - 1]);
      StepKeepsStuck(Run(db, ops[..|ops| - 1]), s, ops[|ops| - 1]);
    }
  }

  /** Blocked tasks each waiting for the next, the last for the first. */
  ghost predicate IsWaitCycle(db: Db, c: seq<int>) {
    && c != [] && Distinct(c)
    && (forall i | 0 <= i < |c| :: c[i] in db.tasks && db.tasks[c[i]].state == Blocked)
    && (forall i | 0 <= i < |c| :: WaitsAt(db, c, i))
  }

  ghost predicate WaitsAt(db: Db, c: seq<int>, i: nat) {
    i < |c| && DependsOn(db, c[i], if i + 1 < |c| then c[i + 1] else c[0])
  }

  /** Every member is blocked and depends on a member. */
  ghost predicate WaitsWithin(db: Db, s: set<int>) {
    forall id | id in s ::
      id in db.tasks && db.tasks[id].state == Blocked && exists on :: on in s && DependsOn(db, id, on)
  }

  ghost function Upstream(db: Db, s: set<int>, id: int): (on: int)
    requires WaitsWithin(db, s) && id in s
    ensures on in s && DependsOn(db, id, on)
  {
    var on :| on in s && DependsOn(db, id, on);
    on
  }

  lemma WaitingWithinHasCycle(db: Db, s: set<int>, x: int)
    requires WaitsWithin(db, s) && x in s
    ensures exists c: seq<int> :: IsWaitCycle(db, c) && Elements(c) <= s
  {
    hide DependsOn, WaitsWithin, Upstream;
    var m := map id | id in s :: Upstream(db, s, id);
    var p := MaximalWalk(m, x);
    forall i | 0 <= i < |p|
      ensures p[i] in s
    {
      assert Closed(m, s);
      ClosedSpreads(m, s, p, 0, i);
    }
    assert Last(p) in m;
    var y := m[Last(p)];
    assert y in p;
    var i := PositionOf(p, y);
    ReentryIsCycle(m, p, i);
    WaitersAreBlocked(db, s);
    LinkedWaitIsCycle(db, s, m, p[i..]);
  }

  lemma PositionOf(p: seq<int>, y: int) returns (i: nat)
    requires y in p
    ensures i < |p| && p[i] == y
  {
    i :| i < |p| && p[i] == y;
  }

  lemma WaitersAreBlocked(db: Db, s: set<int>)
    requires WaitsWithin(db, s)
    ensures forall id | id in s :: id in db.tasks && db.tasks[id].state == Blocked
  {
    hide DependsOn;
  }

  lemma LinkedWaitIsCycle(db: Db, s: set<int>, m: map<int, int>, c: seq<int>)
    requires forall id | id in s :: id in db.tasks && db.tasks[id].state == Blocked
    requires m.Keys == s && forall id | id in s :: DependsOn(db, id, m[id])
    requires IsCycle(m, c) && forall i | 0 <= i < |c| :: c[i] in s
    ensures IsWaitCycle(db, c) && Elements(c) <= s
  {
    hide DependsOn;
    assert Last(c) == c[|c| - 1];
    forall i | 0 <= i < |c|
      ensures WaitsAt(db, c, i)
    {
      if i < |c| - 1 { assert m[c[i]] == c[i + 1]; } else { assert m[c[i]] == c[0]; }
    }
  }

  lemma WaitCycleIsStuck(db: Db, c: seq<int>)
    requires IsWaitCycle(db, c)
    ensures Elements(c) != {} && Stuck(db, Elements(c))
  {
    assert c[0] in Elements(c);
    var s := Elements(c);
    forall id | id in s
      ensures exists d :: d in db.dependencies && d.taskId == id && HoldsBack(db, s, d)
    {
      var i :| 0 <= i < |c| && c[i] == id;
      assert WaitsAt(db, c, i);
      var next := if i + 1 < |c| then c[i + 1] else c[0];
      assert next in s;
      var d :| d in db.dependencies && d.taskId == id && d.dependsOn == next;
      assert HoldsBack(db, s, d);
    }
  }

  ghost predicate OnlyBlockedOrCompleted(db: Db) {
    forall id | id in db.tasks :: db.tasks[id].state in {Blocked, Completed}
  }

  lemma StuckWaitsWithin(db: Db, s: set<int>)
    requires WellKeyed(db) && OnlyBlockedOrCompleted(db) && Stuck(db, s)
    ensures WaitsWithin(db, s)
  {
    hide HoldsBack, WellKeyed, OnlyBlockedOrCompleted;
    forall id | id in s
      ensures exists on :: on in s && DependsOn(db, id, on)
    {
      var d :| d in db.dependencies && d.taskId == id && HoldsBack(db, s, d);
      HolderIsInside(db, s, d);
      assert DependsOn(db, id, d.dependsOn);
    }
  }

  lemma HolderIsInside(db: Db, s: set<int>, d: Dependency)
    requires OnlyBlockedOrCompleted(db) && HoldsBack(db, s, d)
    ensures d.dependsOn in s
  {
  }

  /** Among blocked and completed tasks, some non-empty set is stuck forever exactly when
      blocked tasks wait for each other in a cycle. */
  lemma DeadlockIffWaitCycle(db: Db)
    requires WellKeyed(db) && OnlyBlockedOrCompleted(db)
    ensures (exists s: set<int> :: s != {} && Stuck(db, s)) <==> exists c: seq<int> :: IsWaitCycle(db, c)
  {
    hide *;
    if s: set<int> :| s != {} && Stuck(db, s) {
      var x := Pick(s);
      StuckWaitsWithin(db, s);
      WaitingWithinHasCycle(db, s, x);
    }
    if c: seq<int> :| IsWaitCycle(db, c) {
      WaitCycleIsStuck(db, c);
    }
  }

  ghost function BlockedIds(db: Db): set<int> {
    set id | id in db.tasks && db.tasks[id].state == Blocked
  }

  lemma NotUnblockableWaits(db: Db, id: int)
    requires WellKeyed(db) && OnlyBlockedOrCompleted(db) && id in BlockedIds(db) && !Unblockable(db, id)
    ensures exists on :: on in BlockedIds(db) && DependsOn(db, id, on)
  {
    var blocking := BlockingDependencies(db, id);
    var d := blocking[0];
    assert d in blocking;
    assert d.dependsOn in BlockedIds(db) && DependsOn(db, id, d.dependsOn);
  }

  /** When everything is blocked or completed, something is blocked, and no blocked tasks wait for
      each other in a cycle, then some unblock check succeeds. */
  lemma AcyclicWaitMakesProgress(db: Db)
    requires WellKeyed(db) && OnlyBlockedOrCompleted(db)
    requires exists id :: id in db.tasks && db.tasks[id].state == Blocked
    requires forall c: seq<int> :: !IsWaitCycle(db, c)
    ensures exists id :: Unblockable(db, id)
  {
    hide DependsOn, IsWaitCycle, BlockingDependencies, WellKeyed;
    var x :| x in db.tasks && db.tasks[x].state == Blocked;
    if forall id :: !Unblockable(db, id) {
      forall id | id in BlockedIds(db)
        ensures exists on :: on in BlockedIds(db) && DependsOn(db, id, on)
      {
        NotUnblockableWaits(db, id);
      }
      WaitingWithinHasCycle(db, BlockedIds(db), x);
    }
  }

  // ---------------------------------------------------------------------------
  // What is not stuck can be freed
  // ---------------------------------------------------------------------------

  /** A task that is not blocked and can still be completed. */
  predicate Completable(s: TaskState) { s in {Pending, Ready, Running, Failed, Completed} }

  /** An unblock check, or a transition of a task that is not blocked. */
  predicate Gentle(db: Db, op: Op) {
    op.Unblock? || (op.Transition? && op.id in db.tasks && db.tasks[op.id].state != Blocked)
  }

  ghost predicate AllGentle(db: Db, ops: seq<Op>) {
    ops == [] || (AllGentle(db, ops[..|ops| - 1]) && Gentle(Run(db, ops[..|ops| - 1]), ops[|ops| - 1]))
  }

  lemma {:induction false} RunConcat(db: Db, a: seq<Op>, b: seq<Op>)
    ensures Run(db, a + b) == Run(Run(db, a), b)
    ensures AllGentle(db, a) && AllGentle(Run(db, a), b) ==> AllGentle(db, a + b)
  {
    hide Step, Gentle;
    if b == [] {
      assert a + b == a;
    } else {
      RunConcat(db, a, b[..|b| - 1]);
      assert (a + b)[..|a + b| - 1] == a + b[..|b| - 1];
    }
  }

  /** `after` is `db` with some completable tasks completed. */
  ghost predicate Advanced(db: Db, after: Db) {
    && after.dependencies == db.dependencies && after.tasks.Keys == db.tasks.Keys && WellKeyed(after)
    && forall id | id in db.tasks ::
         || after.tasks[id].state == db.tasks[id].state
         || (Completable(db.tasks[id].state) && after.tasks[id].state == Completed)
  }

  const OPERATOR := "operator"

  function MoveOp(id: int, target: TaskState): Op { Op.Transition(id, target, OPERATOR, OPERATOR) }

  lemma MoveIsMade(db: Db, id: int, target: TaskState)
    requires WellKeyed(db) && id in db.tasks && target in ValidTransitions(db.tasks[id].state)
    ensures var after := Step(db, MoveOp(id, target));
            && after.dependencies == db.dependencies && after.tasks.Keys == db.tasks.Keys && WellKeyed(after)
            && after.tasks[id].state == target
            && forall k | k in db.tasks && k != id :: after.tasks[k] == db.tasks[k]
  {
    hide DependencySnapshot, ValidTransitions, Blank, OPERATOR;
    OperatorIsNotBlank();
  }

  lemma OperatorIsNotBlank()
    ensures !Blank(OPERATOR)
  {
    assert !IsSpace(OPERATOR[0]);
  }

  lemma RunOne(db: Db, op: Op)
    ensures Run(db, [op]) == Step(db, op)
    ensures AllGentle(db, [op]) <==> Gentle(db, op)
  {
    assert [op][..0] == [];
  }

  lemma {:induction false} CompleteTask(db: Db, id: int) returns (ops: seq<Op>)
    requires WellKeyed(db) && id in db.tasks && Completable(db.tasks[id].state)
    ensures AllGentle(db, ops) && Advanced(db, Run(db, ops)) && Run(db, ops).tasks[id].state == Completed
    decreases match db.tasks[id].state { case Completed => 0 case Running => 1 case Ready => 2 case _ => 3 }
  {
    hide Step, MoveOp, AllGentle, Run;
    if db.tasks[id].state == Completed {
      NoOps(db);
      return [];
    }
    var target := match db.tasks[id].state { case Running => Completed case Ready => Running case _ => Ready };
    var next := Step(db, MoveOp(id, target));
    MoveIsMade(db, id, target);
    MoveIsGentle(db, id, target);
    RunOne(db, MoveOp(id, target));
    var rest := CompleteTask(next, id);
    RunConcat(db, [MoveOp(id, target)], rest);
    ops := [MoveOp(id, target)] + rest;
  }

  lemma MoveIsGentle(db: Db, id: int, target: TaskState)
    requires id in db.tasks && db.tasks[id].state != Blocked
    ensures Gentle(db, MoveOp(id, target))
  {
  }

  lemma NoOps(db: Db)
    ensures Run(db, []) == db && AllGentle(db, [])
  {
  }

  lemma AdvancedFurther(a: Db, b: Db, c: Db)
    requires Advanced(a, b) && Advanced(b, c)
    ensures Advanced(a, c)
  {
    hide WellKeyed;
  }

  /** Every upstream task of the first `n` dependencies that concern `id` can be completed. */
  lemma {:induction false} CompleteUpstream(db: Db, id: int, n: nat) returns (ops: seq<Op>)
    requires WellKeyed(db) && n <= |db.dependencies|
    requires forall d | d in db.dependencies && d.taskId == id ::
               d.dependsOn in db.tasks && Completable(db.tasks[d.dependsOn].state)
    ensures AllGentle(db, ops) && Advanced(db, Run(db, ops))
    ensures forall i | 0 <= i < n && db.dependencies[i].taskId == id ::
              && db.dependencies[i].dependsOn in Run(db, ops).tasks
              && Run(db, ops).tasks[db.dependencies[i].dependsOn].state == Completed
  {
    hide AllGentle, Run;
    if n == 0 {
      NoOps(db);
      return [];
    }
    ops := CompleteUpstream(db, id, n - 1);
    var d := db.dependencies[n - 1];
    assert d in db.dependencies;
    if d.taskId == id {
      var mid := Run(db, ops);
      var last := CompleteTask(mid, d.dependsOn);
      AdvancedFurther(db, mid, Run(mid, last));
      RunConcat(db, ops, last);
      ops := ops + last;
    }
  }

  /** When nothing that `id` depends on is blocked, cancelled or superseded, `id` can be made ready. */
  lemma ReadyTask(db: Db, id: int) returns (ops: seq<Op>)
    requires WellKeyed(db) && id in db.tasks && db.tasks[id].state == Blocked
    requires forall d | d in db.dependencies && d.taskId == id ::
               d.dependsOn in db.tasks && Completable(db.tasks[d.dependsOn].state)
    ensures AllGentle(db, ops)
    ensures var after := Run(db, ops);
            && WellKeyed(after) && after.dependencies == db.dependencies && after.tasks.Keys == db.tasks.Keys
            && after.tasks[id].state == Ready
            && forall k | k in db.tasks && k != id ::
                 || after.tasks[k].state == db.tasks[k].state
                 || (Completable(db.tasks[k].state) && after.tasks[k].state == Completed)
  {
    hide AllGentle, Run, Blank, OPERATOR, DependencySnapshot;
    var first := CompleteUpstream(db, id, |db.dependencies|);
    var mid := Run(db, first);
    NoBlockingDependency(mid, id);
    OperatorIsNotBlank();
    RunOne(mid, Op.Unblock(id, OPERATOR));
    RunConcat(db, first, [Op.Unblock(id, OPERATOR)]);
    ops := first + [Op.Unblock(id, OPERATOR)];
  }

  lemma NoBlockingDependency(db: Db, id: int)
    requires id in db.tasks && db.tasks[id].state == Blocked
    requires forall i | 0 <= i < |db.dependencies| && db.dependencies[i].taskId == id ::
               db.dependencies[i].dependsOn in db.tasks && db.tasks[db.dependencies[i].dependsOn].state == Completed
    ensures Unblockable(db, id)
  {
    forall d | d in db.dependencies
      ensures !(d.taskId == id && Blocks(db, d))
    {
      var i :| 0 <= i < |db.dependencies| && db.dependencies[i] == d;
    }
    FilterNone(db.dependencies, (d: Dependency) => d.taskId == id && Blocks(db, d));
  }

  ghost predicate InStuckSet(db: Db, id: int) {
    exists s: set<int> :: id in s && Stuck(db, s)
  }

  /** Outside every stuck set, some blocked task depends only on tasks that can be completed. */
  lemma SomeTaskIsFree(db: Db, id: int) returns (free: int)
    requires WellKeyed(db) && id in BlockedIds(db) && !InStuckSet(db, id)
    ensures free in BlockedIds(db)
    ensures forall d | d in db.dependencies && d.taskId == free ::
              d.dependsOn in db.tasks && Completable(db.tasks[d.dependsOn].state)
  {
    var u := BlockedIds(db);
    assert !Stuck(db, u);
    free :| free in u && forall d | d in db.dependencies && d.taskId == free :: !HoldsBack(db, u, d);
  }

  lemma StuckBefore(db: Db, after: Db, s: set<int>)
    requires Stuck(after, s) && after.dependencies == db.dependencies && after.tasks.Keys == db.tasks.Keys
    requires forall k | k in db.tasks && after.tasks[k].state in {Blocked, Cancelled, Superseded} ::
               db.tasks[k].state == after.tasks[k].state
    ensures Stuck(db, s)
  {
    forall id | id in s
      ensures exists d :: d in db.dependencies && d.taskId == id && HoldsBack(db, s, d)
    {
      var d :| d in after.dependencies && d.taskId == id && HoldsBack(after, s, d);
      assert HoldsBack(db, s, d);
    }
  }

  lemma BlockedWithout(db: Db, after: Db, free: int)
    requires after.tasks.Keys == db.tasks.Keys && free in BlockedIds(db) && after.tasks[free].state == Ready
    requires forall k | k in db.tasks && k != free ::
               after.tasks[k].state == db.tasks[k].state
               || (Completable(db.tasks[k].state) && after.tasks[k].state == Completed)
    ensures BlockedIds(after) == BlockedIds(db) - {free} && |BlockedIds(after)| < |BlockedIds(db)|
  {
    forall k
      ensures k in BlockedIds(after) <==> k in BlockedIds(db) - {free}
    {
      if k in db.tasks && k != free { assert after.tasks[k].state == Blocked <==> db.tasks[k].state == Blocked; }
    }
  }

  /** The converse of `StuckForever`: a blocked task in no stuck set can be made ready by unblock checks
      and transitions of tasks that are not blocked. */
  lemma {:induction false} FreeTaskCanBeReadied(db: Db, id: int) returns (ops: seq<Op>)
    requires WellKeyed(db) && id in BlockedIds(db) && !InStuckSet(db, id)
    ensures AllGentle(db, ops) && id in Run(db, ops).tasks && Run(db, ops).tasks[id].state == Ready
    decreases |BlockedIds(db)|
  {
    hide AllGentle, Run, Stuck, WellKeyed;
    var free := SomeTaskIsFree(db, id);
    ops := ReadyTask(db, free);
    if free != id {
      var after := Run(db, ops);
      BlockedWithout(db, after, free);
      if InStuckSet(after, id) {
        var s: set<int> :| id in s && Stuck(after, s);
        StuckBefore(db, after, s);
        assert false;
      }
      var rest := FreeTaskCanBeReadied(after, id);
      RunConcat(db, ops, rest);
      ops := ops + rest;
    }
  }

  lemma {:induction false} GentleKeepsStuck(db: Db, s: set<int>, ops: seq<Op>)
    requires WellKeyed(db) && Stuck(db, s) && AllGentle(db, ops)
    ensures WellKeyed(Run(db, ops)) && Stuck(Run(db, ops), s)
  {
    hide Step, WellKeyed;
    if ops != [] {
      GentleKeepsStuck(db, s, ops[..|ops| - 1]);
      StepKeepsStuck(Run(db, ops[..|ops| - 1]), s, ops[|ops| - 1]);
    }
  }

  /** A blocked task is in a stuck set exactly when no sequence of unblock checks and transitions of
      tasks that are not blocked ever unblocks it. */
  lemma StuckIffNeverUnblocked(db: Db, id: int)
    requires WellKeyed(db) && id in BlockedIds(db)
    ensures InStuckSet(db, id) <==>
              forall ops | AllGentle(db, ops) :: id in Run(db, ops).tasks && Run(db, ops).tasks[id].state == Blocked
  {
    hide AllGentle, Run, WellKeyed;
    if InStuckSet(db, id) {
      var s: set<int> :| id in s && Stuck(db, s);
      forall ops | AllGentle(db, ops)
        ensures id in Run(db, ops).tasks && Run(db, ops).tasks[id].state == Blocked
      {
        GentleKeepsStuck(db, s, ops);
      }
    } else {
      var ops := FreeTaskCanBeReadied(db, id);
    }
  }

  /** A dependency on a superseded task blocks for good. */
  lemma SupersededDependencyBlocksForever(db: Db, id: int, d: Dependency, ops: seq<Op>)
    requires WellKeyed(db) && id in db.tasks && db.tasks[id].state == Blocked
    requires d in db.dependencies && d.taskId == id && db.tasks[d.dependsOn].state == Superseded
    requires forall i | 0 <= i < |ops| :: LeavesAlone(ops[i], {id})
    ensures id in Run(db, ops).tasks && Run(db, ops).tasks[id].state == Blocked
  {
    assert HoldsBack(db, {id}, d);
    StuckForever(db, {id}, ops);
  }

  /** Two calls of creation, one dependency and a few transitions lead to such a state. */
  lemma SupersededDependencyIsReachable() returns (ops: seq<Op>, d: Dependency)
    ensures var db := Run(EMPTY, ops);
            && WellKeyed(db) && d in db.dependencies && d.taskId in db.tasks && db.tasks[d.taskId].state == Blocked
            && db.tasks[d.dependsOn].state == Superseded
  {
    hide Run, MoveOp, DependencySnapshot, AllGentle;
    d := Dependency(1, 2, "task_completion");
    var setup, db := BlockedPair(d);
    var completion := CompleteTask(db, 2);
    var completed := Run(db, completion);
    MoveIsMade(completed, 2, Superseded);
    RunOne(completed, MoveOp(2, Superseded));
    RunConcat(EMPTY, setup, completion);
    RunConcat(EMPTY, setup + completion, [MoveOp(2, Superseded)]);
    ops := setup + completion + [MoveOp(2, Superseded)];
  }

  lemma BlockedPair(d: Dependency) returns (ops: seq<Op>, db: Db)
    requires d == Dependency(1, 2, "task_completion")
    ensures db == Run(EMPTY, ops) && WellKeyed(db) && db.dependencies == [d]
    ensures db.tasks.Keys == {1, 2} && db.tasks[1].state == Blocked && db.tasks[2].state == Pending
  {
    hide Run, Blank, OPERATOR, MoveOp, AllGentle;
    OperatorIsNotBlank();
    var create, depend := Op.Create(OPERATOR, "research", OPERATOR, 1, OPERATOR), Op.Depend(1, 2, "task_completion");
    RunOne(EMPTY, create);
    var one := Step(EMPTY, create);
    RunOne(one, create);
    RunConcat(EMPTY, [create], [create]);
    var two := Step(one, create);
    RunOne(two, depend);
    RunConcat(EMPTY, [create] + [create], [depend]);
    var three := Step(two, depend);
    MoveIsMade(three, 1, Blocked);
    RunOne(three, MoveOp(1, Blocked));
    RunConcat(EMPTY, [create] + [create] + [depend], [MoveOp(1, Blocked)]);
    ops := [create] + [create] + [depend] + [MoveOp(1, Blocked)];
    db := Step(three, MoveOp(1, Blocked));
  }
}
