/** The same pipeline with its requests interleaved: each `await` is a step, so what a request checked
    may be outdated by the time it commits. */
module PipelineRaces {
  import opened Wrappers
  import opened StageRule
  import opened JobStages
  import opened Pipeline

  /** An unfinished request, and what it has read or computed so far. */
  datatype Pending =
    | ApplyRead(candidate: nat, job: nat, resume: nat, first: Option<Stage>, user: nat, queued: bool)
    | ApplyChecked(row: AppRow, user: nat, queued: bool)
    | MoveRead(app: nat, current: Stage, target: StageId, recruiter: nat)
    | MoveChecked(move: AuditRow, current: Stage)
    | StatusChecked(job: nat, status: JobStatus)
    | AddChecked(job: nat, name: string, order: nat, isTerminal: bool)
    | EditChecked(job: nat, id: StageId, newName: Option<string>, flag: Option<bool>)
    | Gone

  datatype State = State(db: Db, pending: seq<Pending>)

  /** Creating a job is a single insert. `Advance` performs a pending request's next await; `Abandon` is
      a crash or an error. */
  datatype Event =
    | Create(recruiter: nat, stages: StagesInput)
    | BeginJob(request: Request)
    | BeginApply(user: nat, job: nat, resume: Option<nat>, queued: bool)
    | BeginMove(recruiter: nat, app: nat, target: Option<StageId>)
    | Advance(p: nat)
    | Abandon(p: nat)

  function Begin(s: State, pending: Pending): State {
    s.(pending := s.pending + [pending])
  }

  /** The read and the checks of a request to publish or close a job or to change its stages. */
  function CheckJob(db: Db, request: Request): Option<Pending> {
    match request
    case PublishJob(recruiter, job) =>
      if RequireOwnedJob(db, job, recruiter).Some? || !db.jobs[job].status.DRAFT? || |db.jobs[job].stages| == 0
        then None
      else Some(StatusChecked(job, PUBLISHED))
    case CloseJob(recruiter, job) =>
      if RequireOwnedJob(db, job, recruiter).Some? || db.jobs[job].status.CLOSED? then None
      else Some(StatusChecked(job, CLOSED))
    case AddJobStage(recruiter, job, name, isTerminal) =>
      if RequireOwnedJob(db, job, recruiter).Some? || db.jobs[job].status.CLOSED? then None
      else CheckAdd(db, job, name, isTerminal)
    case UpdateJobStage(recruiter, job, stage, name, flag) =>
      if RequireOwnedJob(db, job, recruiter).Some? || db.jobs[job].status.CLOSED? then None
      else CheckEdit(db, job, stage, name, flag)
    case CreateJob(_, _) => None
    case Apply(_, _, _, _) => None
    case Move(_, _, _) => None
  }

  function CheckAdd(db: Db, job: nat, name: Option<string>, isTerminal: bool): Option<Pending>
    requires job < |db.jobs|
  {
    var stages := db.jobs[job].stages;
    match ParseName(name)
    case Err(_) => None
    case Ok(trimmed) =>
      if NameTaken(stages, trimmed, None) then None
      else Some(AddChecked(job, trimmed, MaxOrder(stages) + 1, isTerminal))
  }

  function CheckEdit(db: Db, job: nat, id: StageId, name: Option<Option<string>>, flag: Option<bool>): Option<Pending>
    requires job < |db.jobs|
  {
    var stages := db.jobs[job].stages;
    if FindById(stages, id).None? then None
    else if name.None? then Some(EditChecked(job, id, None, flag))
    else
      match ParseName(name.value)
      case Err(_) => None
      case Ok(trimmed) => if NameTaken(stages, trimmed, Some(id))
        then None else Some(EditChecked(job, id, Some(trimmed), flag))
  }

  /** The unique indexes over a job's stages: exactly the same name, or the same order. */
  predicate SameName(stages: seq<Stage>, name: string, except: Option<StageId>) {
    exists i | 0 <= i < |stages| :: Some(stages[i].id) != except && stages[i].name == name
  }

  predicate SameOrder(stages: seq<Stage>, order: nat) {
    exists i | 0 <= i < |stages| :: stages[i].order == order
  }

  function CommitStatus(db: Db, job: nat, status: JobStatus): Db {
    if job < |db.jobs| then SetStatus(db, job, status) else db
  }

  /** The insert is refused when either index is violated. */
  predicate AddGoesThrough(db: Db, job: nat, name: string, order: nat) {
    job < |db.jobs| && !SameName(db.jobs[job].stages, name, None) && !SameOrder(db.jobs[job].stages, order)
  }

  function CommitAdd(db: Db, job: nat, name: string, order: nat, isTerminal: bool): Db {
    if AddGoesThrough(db, job, name, order)
    then SetStages(db, job, db.jobs[job].stages + [Stage(StageId(job, |db.jobs[job].stages|), name, order, isTerminal)])
    else db
  }

  predicate EditGoesThrough(db: Db, job: nat, id: StageId, newName: Option<string>) {
    && job < |db.jobs| && FindById(db.jobs[job].stages, id).Some?
    && (newName.Some? ==> !SameName(db.jobs[job].stages, newName.value, Some(id)))
  }

  function CommitEdit(db: Db, job: nat, id: StageId, newName: Option<string>, flag: Option<bool>): Db {
    if EditGoesThrough(db, job, id, newName) then
      var stages, i := db.jobs[job].stages, FindById(db.jobs[job].stages, id).value;
      SetStages(db, job,
                stages[i := stages[i].(name := newName.GetOr(stages[i].name),
                                       isTerminal := flag.GetOr(stages[i].isTerminal))])
    else db
  }

  function StartApply(dir: Directory, s: State, user: nat, job: nat, resume: Option<nat>, queued: bool): State {
    if user !in dir.candidates || job >= |s.db.jobs| || !s.db.jobs[job].status.PUBLISHED? || resume.None? then s
    else if resume.value !in dir.resumes || dir.resumes[resume.value] != dir.candidates[user] then s
    else
      var first := LowestStage(s.db.jobs[job].stages);
      s.(pending := s.pending + [ApplyRead(dir.candidates[user], job, resume.value, first, user, queued)])
  }

  function StartMove(s: State, recruiter: nat, app: nat, target: Option<StageId>): State {
    if target.None? || app >= |s.db.apps| || RequireOwnedJob(s.db, s.db.apps[app].job, recruiter).Some? then s
    else
      match StageRow(s.db, s.db.apps[app].current)
      case None => s
      case Some(current) => s.(pending := s.pending + [MoveRead(app, current, target.value, recruiter)])
  }

  /** The job read of a move, and the checks after it. */
  function CheckTarget(db: Db, app: nat, current: Stage, target: StageId, recruiter: nat): Pending {
    if app >= |db.apps| || db.apps[app].job >= |db.jobs| then Gone
    else
      var stages := db.jobs[db.apps[app].job].stages;
      var i := FindById(stages, target);
      if i.None? || CheckTransition(current, stages[i.value]).Some? then Gone
      else MoveChecked(AuditRow(app, current.id, target, recruiter), current)
  }

  function AdvancePending(s: State, p: nat): State
    requires p < |s.pending|
  {
    match s.pending[p]
    case ApplyRead(candidate, job, resume, first, user, queued) =>
      s.(pending := s.pending[p := if Applied(s.db, candidate, job) || first.None? then Gone
                                   else ApplyChecked(AppRow(candidate, job, resume, first.value.id), user, queued)])
    case ApplyChecked(row, user, queued) =>
      State(match CommitApply(s.db, row, user, queued) case Err(_) => s.db case Ok(db) => db, s.pending[p := Gone])
    case MoveRead(app, current, target, recruiter) =>
      s.(pending := s.pending[p := CheckTarget(s.db, app, current, target, recruiter)])
    case MoveChecked(move, _) => State(CommitMove(s.db, move), s.pending[p := Gone])
    case StatusChecked(job, status) => State(CommitStatus(s.db, job, status), s.pending[p := Gone])
    case AddChecked(job, name, order, isTerminal) =>
      State(CommitAdd(s.db, job, name, order, isTerminal), s.pending[p := Gone])
    case EditChecked(job, id, newName, flag) => State(CommitEdit(s.db, job, id, newName, flag), s.pending[p := Gone])
    case Gone => s
  }

  function Next(dir: Directory, s: State, event: Event): State {
    match event
    case Create(recruiter, stages) => s.(db := Pipeline.Next(dir, s.db, CreateJob(recruiter, stages)))
    case BeginJob(request) => if CheckJob(s.db, request).Some? then Begin(s, CheckJob(s.db, request).value) else s
    case BeginApply(user, job, resume, queued) => StartApply(dir, s, user, job, resume, queued)
    case BeginMove(recruiter, app, target) => StartMove(s, recruiter, app, target)
    case Advance(p) => if p < |s.pending| then AdvancePending(s, p) else s
    case Abandon(p) => if p < |s.pending| then s.(pending := s.pending[p := Gone]) else s
  }

  function Run(dir: Directory, s: State, events: seq<Event>): State {
    if |events| == 0 then s else Next(dir, Run(dir, s, events[..|events| - 1]), events[|events| - 1])
  }

  const START := State(EMPTY, [])

  /** Begun and then performed at once, a move is the serial request. */
  lemma UndisturbedMoveIsSerial(dir: Directory, db: Db, recruiter: nat, app: nat, target: Option<StageId>)
    ensures var s := Next(dir, State(db, []), BeginMove(recruiter, app, target));
            Next(dir, Next(dir, s, Advance(0)), Advance(0)).db == Pipeline.Next(dir, db, Move(recruiter, app, target))
  {
  }

  /** And so is a request about a job. */
  lemma UndisturbedJobRequestIsSerial(dir: Directory, db: Db, request: Request)
    requires TablesOk(db) && IsJobRequest(request) && !request.CreateJob?
    ensures Next(dir, Next(dir, State(db, []), BeginJob(request)), Advance(0)).db == Pipeline.Next(dir, db, request)
  {
    CheckedThenCommitted(dir, db, request);
    match request
    case AddJobStage(_, _, _, _) => AddCommitsSerially(dir, db, request);
    case UpdateJobStage(_, _, _, _, _) => UpdateCommitsSerially(dir, db, request);
    case PublishJob(_, _) =>
    case CloseJob(_, _) =>
  }

  lemma AddCommitsSerially(dir: Directory, db: Db, request: Request)
    requires TablesOk(db) && request.AddJobStage?
    ensures var p := CheckJob(db, request);
            Pipeline.Next(dir, db, request) == if p.None? then db else CommitJob(db, p.value)
  {
    if request.job < |db.jobs| { AddsAsChecked(db, request.job, request.name); }
  }

  lemma UpdateCommitsSerially(dir: Directory, db: Db, request: Request)
    requires TablesOk(db) && request.UpdateJobStage?
    ensures var p := CheckJob(db, request);
            Pipeline.Next(dir, db, request) == if p.None? then db else CommitJob(db, p.value)
  {
    if request.job < |db.jobs| && FindById(db.jobs[request.job].stages, request.stage).Some? {
      EditsAsChecked(db, request.job, request.stage, request.newName);
    }
  }

  /** The write that a checked job request ends with. */
  function CommitJob(db: Db, p: Pending): Db {
    match p
    case StatusChecked(job, status) => CommitStatus(db, job, status)
    case AddChecked(job, name, order, isTerminal) => CommitAdd(db, job, name, order, isTerminal)
    case EditChecked(job, id, newName, flag) => CommitEdit(db, job, id, newName, flag)
    case ApplyRead(_, _, _, _, _, _) => db
    case ApplyChecked(_, _, _) => db
    case MoveRead(_, _, _, _) => db
    case MoveChecked(_, _) => db
    case Gone => db
  }

  lemma CheckedThenCommitted(dir: Directory, db: Db, request: Request)
    ensures var p := CheckJob(db, request);
            Next(dir, Next(dir, State(db, []), BeginJob(request)), Advance(0)).db
            == if p.None? then db else CommitJob(db, p.value)
  {
  }

  lemma AddsAsChecked(db: Db, job: nat, name: Option<string>)
    requires TablesOk(db) && job < |db.jobs|
    ensures name.Some? && !NameTaken(db.jobs[job].stages, Trim(name.value), None) ==>
              AddGoesThrough(db, job, Trim(name.value), MaxOrder(db.jobs[job].stages) + 1)
  {
    assert WellPlaced(job, db.jobs[job].stages);
    MaxOrderOfNumbered(db.jobs[job].stages);
  }

  lemma EditsAsChecked(db: Db, job: nat, id: StageId, name: Option<Option<string>>)
    requires job < |db.jobs| && FindById(db.jobs[job].stages, id).Some?
    ensures name.None? ==> EditGoesThrough(db, job, id, None)
    ensures name.Some? && name.value.Some? && !NameTaken(db.jobs[job].stages, Trim(name.value.value), Some(id)) ==>
              EditGoesThrough(db, job, id, Some(Trim(name.value.value)))
  {
  }

  lemma UndisturbedApplyIsSerial(dir: Directory, db: Db, user: nat, job: nat, resume: Option<nat>, queued: bool)
    ensures var s := Next(dir, State(db, []), BeginApply(user, job, resume, queued));
            Next(dir, Next(dir, s, Advance(0)), Advance(0)).db
              == Pipeline.Next(dir, db, Apply(user, job, resume, queued))
  {
  }

  // ---- What survives every interleaving.

  predicate Visited(rows: seq<HistoryRow>, id: StageId) {
    exists k | 0 <= k < |rows| :: rows[k].to == id
  }

  /** Every row but the first comes from some earlier row's stage. */
  predicate FromEarlier(rows: seq<HistoryRow>) {
    forall i | 0 < i < |rows| :: rows[i].from.Some? && Visited(rows[..i], rows[i].from.value)
  }

  predicate Recorded(app: AppRow, rows: seq<HistoryRow>, entries: seq<AuditRow>) {
    && |rows| > 0 && rows[0].from.None? && rows[0].to == StageId(app.job, 0)
    && FromEarlier(rows) && Audited(rows, entries)
    && rows[|rows| - 1].to == app.current
  }

  ghost predicate AllRecorded(db: Db) {
    forall a | 0 <= a < |db.apps| :: Recorded(db.apps[a], HistoryOf(db, a), AuditOf(db, a))
  }

  predicate PendingOk(db: Db, p: Pending) {
    match p
    case ApplyRead(candidate, job, resume, first, user, queued) =>
      job < |db.jobs| && (first.Some? ==> first.value.id == StageId(job, 0))
    case ApplyChecked(row, user, queued) => AppOk(db, row) && row.current == StageId(row.job, 0)
    case MoveRead(app, current, target, recruiter) => app < |db.apps| && Visited(HistoryOf(db, app), current.id)
    case MoveChecked(move, current) =>
      && move.app < |db.apps| && Visited(HistoryOf(db, move.app), move.from)
      && move.to.job == db.apps[move.app].job && move.to.job < |db.jobs|
      && move.to.number < |db.jobs[move.to.job].stages|
      && move.from == current.id && !current.isTerminal
    case StatusChecked(job, status) => job < |db.jobs| && !status.DRAFT?
    case AddChecked(job, name, order, _) => job < |db.jobs| && IsName(name) && 1 <= order <= |db.jobs[job].stages| + 1
    case EditChecked(job, id, newName, _) =>
      && job < |db.jobs| && id.job == job && id.number < |db.jobs[job].stages|
      && (newName.Some? ==> IsName(newName.value))
    case Gone => true
  }

  ghost predicate Inv(s: State) {
    && TablesOk(s.db) && AllRecorded(s.db)
    && forall p | 0 <= p < |s.pending| :: PendingOk(s.db, s.pending[p])
  }

  lemma RecordedOneMore(app: AppRow, rows: seq<HistoryRow>, entries: seq<AuditRow>, move: AuditRow)
    requires Recorded(app, rows, entries) && Visited(rows, move.from)
    ensures Recorded(app.(current := move.to), rows + [AsHistory(move)], entries + [move])
  {
    var more := rows + [AsHistory(move)];
    forall i | 0 < i < |more| ensures more[i].from.Some? && Visited(more[..i], more[i].from.value) {
      if i < |rows| { assert more[..i] == rows[..i]; } else { assert more[..i] == rows; }
    }
  }

  lemma CommitMoveRecords(db: Db, move: AuditRow)
    requires AllRecorded(db) && move.app < |db.apps| && Visited(HistoryOf(db, move.app), move.from)
    ensures AllRecorded(CommitMove(db, move))
  {
    var after := CommitMove(db, move);
    forall a | 0 <= a < |after.apps| ensures Recorded(after.apps[a], HistoryOf(after, a), AuditOf(after, a)) {
      CommitMoveLogs(db, move, a);
      assert Recorded(db.apps[a], HistoryOf(db, a), AuditOf(db, a));
      if a == move.app { RecordedOneMore(db.apps[a], HistoryOf(db, a), AuditOf(db, a), move); }
    }
  }

  lemma NewAppRecorded(app: AppRow, row: HistoryRow)
    requires app.current == StageId(app.job, 0) && row.from.None? && row.to == app.current
    ensures Recorded(app, [row], [])
  {
  }

  lemma CommitApplyRecords(db: Db, row: AppRow, user: nat, queued: bool)
    requires LogsOk(db) && AllRecorded(db) && CommitApply(db, row, user, queued).Ok?
    requires row.current == StageId(row.job, 0)
    ensures AllRecorded(CommitApply(db, row, user, queued).value)
  {
    var after := CommitApply(db, row, user, queued).value;
    forall a | 0 <= a < |after.apps| ensures Recorded(after.apps[a], HistoryOf(after, a), AuditOf(after, a)) {
      CommitApplyLogs(db, row, user, queued, a);
      if a < |db.apps| {
        assert Recorded(db.apps[a], HistoryOf(db, a), AuditOf(db, a));
      } else {
        NewAppRecorded(row, HistoryRow(a, None, row.current, user));
      }
    }
  }

  /** Rows and stages are only added, and histories only grow. */
  ghost predicate Grows(db: Db, after: Db) {
    && JobsExtend(db, after) && AppsExtend(db, after)
    && forall a | 0 <= a < |db.apps| :: HistoryOf(db, a) <= HistoryOf(after, a)
  }

  lemma PendingOkGrows(db: Db, after: Db, p: Pending)
    requires Grows(db, after) && PendingOk(db, p)
    ensures PendingOk(after, p)
  {
    match p
    case MoveRead(app, current, _, _) => VisitedGrows(HistoryOf(db, app), HistoryOf(after, app), current.id);
    case MoveChecked(move, _) => VisitedGrows(HistoryOf(db, move.app), HistoryOf(after, move.app), move.from);
    case StatusChecked(_, _) =>
    case AddChecked(_, _, _, _) =>
    case EditChecked(_, _, _, _) =>
    case ApplyRead(_, _, _, _, _, _) =>
    case ApplyChecked(_, _, _) =>
    case Gone =>
  }

  lemma VisitedGrows(rows: seq<HistoryRow>, more: seq<HistoryRow>, id: StageId)
    requires rows <= more && Visited(rows, id)
    ensures Visited(more, id)
  {
    var k :| 0 <= k < |rows| && rows[k].to == id;
    assert more[k].to == id;
  }

  lemma CommitGrows(db: Db, move: AuditRow)
    ensures Grows(db, CommitMove(db, move))
  {
    if move.app < |db.apps| {
      forall a | 0 <= a < |db.apps| ensures HistoryOf(db, a) <= HistoryOf(CommitMove(db, move), a) {
        CommitMoveLogs(db, move, a);
      }
    }
  }

  lemma CommitApplyGrows(db: Db, row: AppRow, user: nat, queued: bool)
    requires LogsOk(db) && CommitApply(db, row, user, queued).Ok?
    ensures Grows(db, CommitApply(db, row, user, queued).value)
  {
    var after := CommitApply(db, row, user, queued).value;
    forall a | 0 <= a < |db.apps| ensures HistoryOf(db, a) <= HistoryOf(after, a) {
      CommitApplyLogs(db, row, user, queued, a);
    }
  }

  lemma NextDb(dir: Directory, s: State, event: Event)
    requires Inv(s)
    ensures var db := Next(dir, s, event).db; TablesOk(db) && AllRecorded(db) && Grows(s.db, db)
  {
    match event
    case Create(recruiter, stages) =>
      JobRequestKeepsTables(dir, s.db, CreateJob(recruiter, stages));
      SameRecords(s.db, Pipeline.Next(dir, s.db, CreateJob(recruiter, stages)));
    case BeginJob(_) =>
    case BeginApply(_, _, _, _) =>
    case BeginMove(_, _, _) =>
    case Abandon(_) =>
    case Advance(p) => if p < |s.pending| { AdvanceDb(s, p); }
  }

  lemma SameRecords(db: Db, after: Db)
    requires AllRecorded(db) && after.apps == db.apps && after.history == db.history && after.audit == db.audit
    requires JobsExtend(db, after)
    ensures AllRecorded(after) && Grows(db, after)
  {
    forall a | 0 <= a < |after.apps| ensures Recorded(after.apps[a], HistoryOf(after, a), AuditOf(after, a)) {
      assert Recorded(db.apps[a], HistoryOf(db, a), AuditOf(db, a));
    }
  }

  lemma StatusWriteDb(db: Db, job: nat, status: JobStatus)
    requires TablesOk(db) && AllRecorded(db) && job < |db.jobs|
    ensures var t := CommitStatus(db, job, status); TablesOk(t) && AllRecorded(t) && Grows(db, t)
  {
    SameRecords(db, CommitStatus(db, job, status));
  }

  lemma AddWriteDb(db: Db, job: nat, name: string, order: nat, isTerminal: bool)
    requires TablesOk(db) && AllRecorded(db) && job < |db.jobs| && IsName(name)
    requires 1 <= order <= |db.jobs[job].stages| + 1
    ensures var t := CommitAdd(db, job, name, order, isTerminal); TablesOk(t) && AllRecorded(t) && Grows(db, t)
  {
    if AddGoesThrough(db, job, name, order) {
      AddLandsNext(db, job, name, order);
      SetStagesOk(db, job, CommitAdd(db, job, name, order, isTerminal).jobs[job].stages);
      SameRecords(db, CommitAdd(db, job, name, order, isTerminal));
    }
  }

  /** Thanks to the index over orders, an insert that goes through is next in order, whatever was added
      since its request read the list. */
  lemma AddLandsNext(db: Db, job: nat, name: string, order: nat)
    requires TablesOk(db) && AddGoesThrough(db, job, name, order) && 1 <= order <= |db.jobs[job].stages| + 1
    ensures order == |db.jobs[job].stages| + 1 && WellPlaced(job, db.jobs[job].stages)
  {
    assert WellPlaced(job, db.jobs[job].stages);
    if order <= |db.jobs[job].stages| { OrdersInUse(job, db.jobs[job].stages, order); }
  }

  lemma OrdersInUse(job: nat, stages: seq<Stage>, order: nat)
    requires WellPlaced(job, stages) && 1 <= order <= |stages|
    ensures SameOrder(stages, order)
  {
    assert stages[order - 1].order == order;
  }

  lemma EditWriteDb(db: Db, job: nat, id: StageId, newName: Option<string>, flag: Option<bool>)
    requires TablesOk(db) && AllRecorded(db) && job < |db.jobs| && (newName.Some? ==> IsName(newName.value))
    ensures var t := CommitEdit(db, job, id, newName, flag); TablesOk(t) && AllRecorded(t) && Grows(db, t)
  {
    if EditGoesThrough(db, job, id, newName) {
      assert WellPlaced(job, db.jobs[job].stages);
      SetStagesOk(db, job, CommitEdit(db, job, id, newName, flag).jobs[job].stages);
      SameRecords(db, CommitEdit(db, job, id, newName, flag));
    }
  }

  lemma AdvanceDb(s: State, p: nat)
    requires Inv(s) && p < |s.pending|
    ensures var db := AdvancePending(s, p).db; TablesOk(db) && AllRecorded(db) && Grows(s.db, db)
  {
    assert PendingOk(s.db, s.pending[p]);
    match s.pending[p]
    case ApplyChecked(row, user, queued) =>
      if CommitApply(s.db, row, user, queued).Ok? {
        CommitApplyKeepsTables(s.db, row, user, queued);
        CommitApplyRecords(s.db, row, user, queued);
        CommitApplyGrows(s.db, row, user, queued);
      }
    case MoveChecked(move, _) =>
      CommitMoveKeepsTables(s.db, move);
      CommitMoveRecords(s.db, move);
      CommitGrows(s.db, move);
    case StatusChecked(job, status) => StatusWriteDb(s.db, job, status);
    case AddChecked(job, name, order, isTerminal) => AddWriteDb(s.db, job, name, order, isTerminal);
    case EditChecked(job, id, newName, flag) => EditWriteDb(s.db, job, id, newName, flag);
    case ApplyRead(_, _, _, _, _, _) =>
    case MoveRead(_, _, _, _) =>
    case Gone =>
  }

  lemma BegunIsOk(dir: Directory, s: State, event: Event)
    requires Inv(s) && |Next(dir, s, event).pending| > |s.pending|
    ensures PendingOk(s.db, Next(dir, s, event).pending[|s.pending|])
  {
    match event
    case BeginApply(_, job, _, _) => LowestOfOk(job, s.db.jobs[job].stages);
    case BeginMove(_, a, _) =>
      assert Recorded(s.db.apps[a], HistoryOf(s.db, a), AuditOf(s.db, a));
      assert HistoryOf(s.db, a)[|HistoryOf(s.db, a)| - 1].to == s.db.apps[a].current;
    case BeginJob(request) => CheckedJobIsOk(s.db, request);
  }

  lemma CheckedJobIsOk(db: Db, request: Request)
    requires TablesOk(db) && CheckJob(db, request).Some?
    ensures PendingOk(db, CheckJob(db, request).value)
  {
    match request
    case AddJobStage(_, job, name, _) =>
      assert WellPlaced(job, db.jobs[job].stages);
      MaxOrderOfNumbered(db.jobs[job].stages);
      TrimGivesName(name.value);
    case UpdateJobStage(_, job, stage, name, _) =>
      assert WellPlaced(job, db.jobs[job].stages);
      FindInOk(job, db.jobs[job].stages, stage);
      if name.Some? { TrimGivesName(name.value.value); }
    case PublishJob(_, _) =>
    case CloseJob(_, _) =>
  }

  lemma AdvancedIsOk(s: State, p: nat)
    requires Inv(s) && p < |s.pending|
    ensures PendingOk(s.db, AdvancePending(s, p).pending[p])
  {
    assert PendingOk(s.db, s.pending[p]);
    match s.pending[p]
    case ApplyRead(_, job, _, _, _, _) => assert WellPlaced(job, s.db.jobs[job].stages);
    case MoveRead(app, current, target, recruiter) =>
      assert AppOk(s.db, s.db.apps[app]);
      FindInOk(s.db.apps[app].job, s.db.jobs[s.db.apps[app].job].stages, target);
    case ApplyChecked(_, _, _) =>
    case MoveChecked(_, _) =>
    case StatusChecked(_, _) =>
    case AddChecked(_, _, _, _) =>
    case EditChecked(_, _, _, _) =>
    case Gone =>
  }

  /** A step adds a pending request, or replaces the one it is about, or leaves them all. */
  lemma NextShape(dir: Directory, s: State, event: Event)
    ensures var t := Next(dir, s, event);
            || t.pending == s.pending
            || (|t.pending| == |s.pending| + 1 && t.pending == s.pending + [t.pending[|s.pending|]] && t.db == s.db)
            || (event.Advance? && event.p < |s.pending| && t == AdvancePending(s, event.p)
                && |t.pending| == |s.pending| && t.pending == s.pending[event.p := t.pending[event.p]])
            || (event.Abandon? && event.p < |s.pending| && t.pending == s.pending[event.p := Gone])
  {
  }

  lemma NextKeepsInv(dir: Directory, s: State, event: Event)
    requires Inv(s)
    ensures Inv(Next(dir, s, event))
  {
    var t := Next(dir, s, event);
    NextDb(dir, s, event);
    NextShape(dir, s, event);
    forall p | 0 <= p < |t.pending| ensures PendingOk(t.db, t.pending[p]) {
      assert p < |s.pending| ==> PendingOk(s.db, s.pending[p]);
      if p >= |s.pending| { BegunIsOk(dir, s, event); }
      else if event == Advance(p) { AdvancedIsOk(s, p); }
      PendingOkGrows(s.db, t.db, t.pending[p]);
    }
  }

  lemma {:induction false} RunKeepsInv(dir: Directory, s: State, events: seq<Event>)
    requires Inv(s)
    ensures Inv(Run(dir, s, events))
  {
    if |events| > 0 {
      RunKeepsInv(dir, s, events[..|events| - 1]);
      NextKeepsInv(dir, Run(dir, s, events[..|events| - 1]), events[|events| - 1]);
    }
  }

  lemma StartInv()
    ensures Inv(START)
  {
  }

  /** In every interleaving each job's stages are ordered exactly 1..n, each application's history
      begins at its job's first stage, each later row comes from the stage of some earlier row, the
      last row is still the current stage, the audit is exactly the rows after the first, and no
      candidate has two applications to one job. */
  lemma HistoryInEveryInterleaving(dir: Directory, events: seq<Event>)
    ensures var db := Run(dir, START, events).db;
            && (forall a | 0 <= a < |db.apps| :: Recorded(db.apps[a], HistoryOf(db, a), AuditOf(db, a)))
            && AppliedOnce(db)
            && (forall j | 0 <= j < |db.jobs| :: WellPlaced(j, db.jobs[j].stages))
  {
    StartInv();
    RunKeepsInv(dir, START, events);
  }

  // ---- Which applications are queued for ranking.

  /** This event inserts application `a`, for a request whose rank job could be queued or not. */
  predicate InsertsApp(dir: Directory, s: State, event: Event, a: nat, queued: bool) {
    && event.Advance? && event.p < |s.pending| && s.pending[event.p].ApplyChecked?
    && s.pending[event.p].queued == queued
    && |s.db.apps| == a && |Next(dir, s, event).db.apps| == a + 1
  }

  predicate InsertedAt(dir: Directory, events: seq<Event>, m: nat, a: nat, queued: bool) {
    m < |events| && InsertsApp(dir, Run(dir, START, events[..m]), events[m], a, queued)
  }

  /** A step queues the application it inserts, if it inserts one and can queue it, and no other. */
  lemma NextQueues(dir: Directory, s: State, event: Event)
    requires Inv(s)
    ensures var t, a := Next(dir, s, event).db, |s.db.apps|;
            && t.rankQueue == s.db.rankQueue + (if InsertsApp(dir, s, event, a, true) then [a] else [])
            && (a < |t.apps| ==> |t.apps| == a + 1
                                 && (InsertsApp(dir, s, event, a, true) || InsertsApp(dir, s, event, a, false)))
  {
    if event.Create? { JobRequestKeepsTables(dir, s.db, CreateJob(event.recruiter, event.stages)); }
  }

  ghost predicate WasInserted(dir: Directory, events: seq<Event>, a: nat, queued: bool) {
    exists m: nat :: InsertedAt(dir, events, m, a, queued)
  }

  lemma InsertedEarlierOrNow(dir: Directory, events: seq<Event>, a: nat, queued: bool)
    requires |events| > 0
    ensures var before, n := events[..|events| - 1], |events| - 1;
            WasInserted(dir, events, a, queued)
            <==> WasInserted(dir, before, a, queued) || InsertsApp(dir, Run(dir, START, before), events[n], a, queued)
  {
    var before, n := events[..|events| - 1], |events| - 1;
    assert InsertedAt(dir, events, n, a, queued) == InsertsApp(dir, Run(dir, START, before), events[n], a, queued);
    forall m: nat | m < n ensures InsertedAt(dir, events, m, a, queued) == InsertedAt(dir, before, m, a, queued) {
      assert before[..m] == events[..m];
    }
  }

  /** In every interleaving an application is queued for ranking if and only if it was inserted by a request
      whose rank job could be queued; and every application was inserted by some request. */
  lemma {:induction false} QueuedExactly(dir: Directory, events: seq<Event>, a: nat)
    ensures var db := Run(dir, START, events).db;
            && (a in db.rankQueue <==> WasInserted(dir, events, a, true))
            && (a < |db.apps| <==> WasInserted(dir, events, a, true) || WasInserted(dir, events, a, false))
  {
    if |events| > 0 {
      var before, n := events[..|events| - 1], |events| - 1;
      QueuedExactly(dir, before, a);
      StartInv();
      RunKeepsInv(dir, START, before);
      NextQueues(dir, Run(dir, START, before), events[n]);
      NextDb(dir, Run(dir, START, before), events[n]);
      InsertedEarlierOrNow(dir, events, a, true);
      InsertedEarlierOrNow(dir, events, a, false);
    }
  }

  // ---- Who made a change.

  /** A checked request is signed by who is entitled to it. */
  predicate PendingSigned(dir: Directory, db: Db, p: Pending) {
    match p
    case ApplyRead(candidate, _, resume, _, user, _) =>
      && user in dir.candidates && dir.candidates[user] == candidate
      && resume in dir.resumes && dir.resumes[resume] == candidate
    case ApplyChecked(row, user, _) =>
      && user in dir.candidates && dir.candidates[user] == row.candidate
      && row.resume in dir.resumes && dir.resumes[row.resume] == row.candidate
    case MoveRead(app, _, _, recruiter) => app < |db.apps| && OwnedBy(db, db.apps[app].job, recruiter)
    case MoveChecked(move, _) => move.app < |db.apps| && OwnedBy(db, db.apps[move.app].job, move.changedBy)
    case StatusChecked(_, _) => true
    case AddChecked(_, _, _, _) => true
    case EditChecked(_, _, _, _) => true
    case Gone => true
  }

  predicate OwnedBy(db: Db, job: nat, recruiter: nat) {
    job < |db.jobs| && db.jobs[job].recruiter == recruiter
  }

  ghost predicate AllSigned(dir: Directory, s: State) {
    Signed(dir, s.db) && forall p | 0 <= p < |s.pending| :: PendingSigned(dir, s.db, s.pending[p])
  }

  lemma SignedStays(dir: Directory, db: Db, after: Db)
    requires Signed(dir, db) && JobsExtend(db, after) && AppsExtend(db, after)
    ensures forall i | 0 <= i < |db.history| :: SignedBy(dir, after, db.history[i])
  {
    forall i | 0 <= i < |db.history| ensures SignedBy(dir, after, db.history[i]) {
      assert SignedBy(dir, db, db.history[i]);
    }
  }

  lemma NextSignsRows(dir: Directory, s: State, event: Event)
    requires Inv(s) && AllSigned(dir, s)
    ensures Signed(dir, Next(dir, s, event).db)
  {
    NextDb(dir, s, event);
    SignedStays(dir, s.db, Next(dir, s, event).db);
    if event.Create? { NextKeepsSigned(dir, s.db, CreateJob(event.recruiter, event.stages)); }
    if event.Advance? && event.p < |s.pending| {
      assert PendingOk(s.db, s.pending[event.p]) && PendingSigned(dir, s.db, s.pending[event.p]);
      CommitSigns(dir, s, event.p);
    }
  }

  lemma CommitSigns(dir: Directory, s: State, p: nat)
    requires Inv(s) && Signed(dir, s.db) && p < |s.pending| && PendingSigned(dir, s.db, s.pending[p])
    requires AppsExtend(s.db, AdvancePending(s, p).db)
    requires forall i | 0 <= i < |s.db.history| :: SignedBy(dir, AdvancePending(s, p).db, s.db.history[i])
    ensures Signed(dir, AdvancePending(s, p).db)
  {
    assert PendingOk(s.db, s.pending[p]);
  }

  lemma AdvancedIsSigned(dir: Directory, s: State, p: nat)
    requires p < |s.pending| && PendingSigned(dir, s.db, s.pending[p])
    ensures PendingSigned(dir, s.db, AdvancePending(s, p).pending[p])
  {
  }

  lemma NextSignsPending(dir: Directory, s: State, event: Event)
    requires Inv(s) && AllSigned(dir, s)
    ensures var t := Next(dir, s, event); forall p | 0 <= p < |t.pending| :: PendingSigned(dir, t.db, t.pending[p])
  {
    var t := Next(dir, s, event);
    NextDb(dir, s, event);
    forall p | 0 <= p < |t.pending| ensures PendingSigned(dir, t.db, t.pending[p]) {
      SignedBefore(dir, s, event, p);
      SignedPendingStays(dir, s.db, t.db, t.pending[p]);
    }
  }

  /** After a step every pending request is signed against the tables before it. */
  lemma SignedBefore(dir: Directory, s: State, event: Event, p: nat)
    requires AllSigned(dir, s) && p < |Next(dir, s, event).pending|
    ensures PendingSigned(dir, s.db, Next(dir, s, event).pending[p])
  {
    NextShape(dir, s, event);
    assert p < |s.pending| ==> PendingSigned(dir, s.db, s.pending[p]);
    if event == Advance(p) && p < |s.pending| { AdvancedIsSigned(dir, s, p); }
  }

  lemma SignedPendingStays(dir: Directory, db: Db, after: Db, p: Pending)
    requires PendingSigned(dir, db, p) && JobsExtend(db, after) && AppsExtend(db, after)
    ensures PendingSigned(dir, after, p)
  {
  }

  /** In every interleaving each history row names who made the change, the candidate who applied or the
      recruiter who owns the job, and each application uses one of the candidate's own resumes. */
  lemma {:induction false} RecordsAreSigned(dir: Directory, events: seq<Event>)
    ensures AllSigned(dir, Run(dir, START, events))
  {
    if |events| > 0 {
      StartInv();
      RunKeepsInv(dir, START, events[..|events| - 1]);
      RecordsAreSigned(dir, events[..|events| - 1]);
      NextSignsRows(dir, Run(dir, START, events[..|events| - 1]), events[|events| - 1]);
      NextSignsPending(dir, Run(dir, START, events[..|events| - 1]), events[|events| - 1]);
    }
  }

  // ---- When the histories still link.

  /** The event commits a move of application `a`. */
  predicate CommitsMoveOf(s: State, event: Event, a: nat) {
    event.Advance? && event.p < |s.pending| && s.pending[event.p].MoveChecked? && s.pending[event.p].move.app == a
  }

  /** A committing move starts from the stage its application still is in. */
  predicate Timely(s: State, event: Event, a: nat) {
    CommitsMoveOf(s, event, a) && a < |s.db.apps| ==> s.pending[event.p].move.from == s.db.apps[a].current
  }

  predicate AllTimely(dir: Directory, s: State, events: seq<Event>, a: nat) {
    |events| > 0 ==>
      && AllTimely(dir, s, events[..|events| - 1], a)
      && Timely(Run(dir, s, events[..|events| - 1]), events[|events| - 1], a)
  }

  lemma AdvanceLogs(s: State, p: nat, a: nat)
    requires LogsOk(s.db) && p < |s.pending| && a < |s.db.apps|
    ensures var t := AdvancePending(s, p);
            && a < |t.db.apps|
            && HistoryOf(t.db, a) == if s.pending[p].MoveChecked? && s.pending[p].move.app == a
                                     then HistoryOf(s.db, a) + [AsHistory(s.pending[p].move)] else HistoryOf(s.db, a)
  {
    match s.pending[p]
    case MoveChecked(move, _) => if move.app < |s.db.apps| { CommitMoveLogs(s.db, move, a); }
    case ApplyChecked(row, user, queued) =>
      if CommitApply(s.db, row, user, queued).Ok? { CommitApplyLogs(s.db, row, user, queued, a); }
    case ApplyRead(_, _, _, _, _, _) =>
    case MoveRead(_, _, _, _) =>
    case StatusChecked(_, _) =>
    case AddChecked(_, _, _, _) =>
    case EditChecked(_, _, _, _) =>
    case Gone =>
  }

  lemma NextLogs(dir: Directory, s: State, event: Event, a: nat)
    requires Inv(s) && a < |s.db.apps|
    ensures var t := Next(dir, s, event);
            && a < |t.db.apps|
            && HistoryOf(t.db, a)
               == if CommitsMoveOf(s, event, a)
                  then HistoryOf(s.db, a) + [AsHistory(s.pending[event.p].move)]
                                     else HistoryOf(s.db, a)
  {
    match event
    case Create(recruiter, stages) => JobRequestKeepsTables(dir, s.db, CreateJob(recruiter, stages));
    case Advance(p) => if p < |s.pending| { AdvanceLogs(s, p, a); }
    case BeginJob(_) =>
    case BeginApply(_, _, _, _) =>
    case BeginMove(_, _, _) =>
    case Abandon(_) =>
  }

  lemma LinkedOneMore(rows: seq<HistoryRow>, row: HistoryRow)
    requires |rows| > 0
    ensures Linked(rows + [row]) <==> Linked(rows) && row.from == Some(rows[|rows| - 1].to)
  {
    var more := rows + [row];
    if Linked(more) {
      assert more[|rows|].from == Some(more[|rows| - 1].to);
      forall i | 0 < i < |rows| ensures rows[i].from == Some(rows[i - 1].to) {
        assert more[i].from == Some(more[i - 1].to);
      }
      assert more[0] == rows[0];
    }
  }

  lemma NextLinks(dir: Directory, s: State, event: Event, a: nat)
    requires Inv(s) && a < |s.db.apps|
    ensures Linked(HistoryOf(Next(dir, s, event).db, a)) <==> Linked(HistoryOf(s.db, a)) && Timely(s, event, a)
  {
    NextLogs(dir, s, event, a);
    assert Recorded(s.db.apps[a], HistoryOf(s.db, a), AuditOf(s.db, a));
    if CommitsMoveOf(s, event, a) {
      LinkedOneMore(HistoryOf(s.db, a), AsHistory(s.pending[event.p].move));
    }
  }

  lemma NewAppLinks(dir: Directory, s: State, event: Event, a: nat)
    requires Inv(s) && |s.db.apps| <= a < |Next(dir, s, event).db.apps|
    ensures Linked(HistoryOf(Next(dir, s, event).db, a)) && Timely(s, event, a)
  {
    if event.Create? {
      JobRequestKeepsTables(dir, s.db, CreateJob(event.recruiter, event.stages));
    } else {
      assert PendingOk(s.db, s.pending[event.p]);
      var apply := s.pending[event.p];
      CommitApplyLogs(s.db, apply.row, apply.user, apply.queued, a);
    }
  }

  lemma NoAppIsTimely(s: State, event: Event, a: nat)
    requires a >= |s.db.apps|
    ensures Timely(s, event, a)
  {
  }

  /** Over every interleaving: an application's history links up if and only if each of its moves was
      committed while the application still was in the stage the move had read. */
  lemma {:induction false} LinkedIffTimely(dir: Directory, events: seq<Event>, a: nat)
    requires a < |Run(dir, START, events).db.apps|
    ensures Linked(HistoryOf(Run(dir, START, events).db, a)) <==> AllTimely(dir, START, events, a)
  {
    var before := events[..|events| - 1];
    var s := Run(dir, START, before);
    StartInv();
    RunKeepsInv(dir, START, before);
    if a < |s.db.apps| {
      LinkedIffTimely(dir, before, a);
      NextLinks(dir, s, events[|events| - 1], a);
    } else {
      NewAppLinks(dir, s, events[|events| - 1], a);
      TimelyBeforeApp(dir, before, a);
    }
  }

  lemma {:induction false} TimelyBeforeApp(dir: Directory, events: seq<Event>, a: nat)
    requires a >= |Run(dir, START, events).db.apps|
    ensures AllTimely(dir, START, events, a)
  {
    if |events| > 0 {
      var before := events[..|events| - 1];
      StartInv();
      RunKeepsInv(dir, START, before);
      NextDb(dir, Run(dir, START, before), events[|events| - 1]);
      TimelyBeforeApp(dir, before, a);
      NoAppIsTimely(Run(dir, START, before), events[|events| - 1], a);
    }
  }

  /** An unfinished move of application `a`. */
  predicate MovePending(p: Pending, a: nat) {
    (p.MoveRead? && p.app == a) || (p.MoveChecked? && p.move.app == a)
  }

  function MoveSource(p: Pending): StageId
    requires p.MoveRead? || p.MoveChecked?
  {
    if p.MoveRead? then p.current.id else p.move.from
  }

  /** No move of application `a` begins while another one is unfinished. */
  predicate OneMoveAtATime(dir: Directory, s: State, events: seq<Event>, a: nat) {
    |events| > 0 ==>
      && OneMoveAtATime(dir, s, events[..|events| - 1], a)
      && var before := Run(dir, s, events[..|events| - 1]);
         (events[|events| - 1].BeginMove? && events[|events| - 1].app == a ==>
            forall p | 0 <= p < |before.pending| :: !MovePending(before.pending[p], a))
  }

  ghost predicate SoleMove(s: State, a: nat) {
    && (forall p, q | 0 <= p < |s.pending| && 0 <= q < |s.pending| && p != q ::
          MovePending(s.pending[p], a) ==> !MovePending(s.pending[q], a))
    && (forall p | 0 <= p < |s.pending| && MovePending(s.pending[p], a) ::
          a < |s.db.apps| && MoveSource(s.pending[p]) == s.db.apps[a].current)
  }

  lemma CurrentChangesByMove(dir: Directory, s: State, event: Event, a: nat)
    requires Inv(s) && a < |s.db.apps| && !CommitsMoveOf(s, event, a)
    ensures a < |Next(dir, s, event).db.apps| && Next(dir, s, event).db.apps[a] == s.db.apps[a]
  {
    if event.Create? { JobRequestKeepsTables(dir, s.db, CreateJob(event.recruiter, event.stages)); }
  }

  lemma StageRowHasId(db: Db, id: StageId)
    ensures StageRow(db, id).Some? ==> StageRow(db, id).value.id == id
  {
  }

  /** A step adds a pending move only by beginning one, and otherwise leaves the others alone and keeps
      what the advanced one had read. */
  lemma NextPending(dir: Directory, s: State, event: Event, a: nat)
    ensures var t := Next(dir, s, event);
            || t.pending == s.pending
            || (|t.pending| == |s.pending| + 1 && t.pending[..|s.pending|] == s.pending
                && var q := t.pending[|s.pending|];
                   MovePending(q, a) ==>
                     event.BeginMove? && event.app == a && a < |s.db.apps|
                     && MoveSource(q) == s.db.apps[a].current && t.db == s.db)
            || ((event.Advance? || event.Abandon?) && event.p < |s.pending|
                && var q := (if |t.pending| == |s.pending| then t.pending[event.p] else Gone);
                   && t.pending == s.pending[event.p := q]
                   && (CommitsMoveOf(s, event, a) ==> q == Gone)
                   && (MovePending(q, a) ==>
                         MovePending(s.pending[event.p], a) && MoveSource(q) == MoveSource(s.pending[event.p])))
  {
    if event.BeginMove? && a < |s.db.apps| { StageRowHasId(s.db, s.db.apps[a].current); }
  }

  lemma AddedKeepsSole(s: State, t: State, q: Pending, a: nat)
    requires SoleMove(s, a) && t.pending == s.pending + [q]
    requires a < |s.db.apps| ==> a < |t.db.apps| && t.db.apps[a] == s.db.apps[a]
    requires MovePending(q, a) ==>
               && (forall p | 0 <= p < |s.pending| :: !MovePending(s.pending[p], a))
               && a < |s.db.apps| && MoveSource(q) == s.db.apps[a].current
    ensures SoleMove(t, a)
  {
  }

  lemma AdvancedKeepsSole(s: State, t: State, p: nat, q: Pending, a: nat)
    requires SoleMove(s, a) && p < |s.pending| && t.pending == s.pending[p := q]
    requires MovePending(q, a) ==> MovePending(s.pending[p], a) && MoveSource(q) == MoveSource(s.pending[p])
    requires (a < |s.db.apps| ==> a < |t.db.apps| && t.db.apps[a] == s.db.apps[a])
             || (q == Gone && MovePending(s.pending[p], a))
    ensures SoleMove(t, a)
  {
  }

  lemma NextKeepsSoleMove(dir: Directory, s: State, event: Event, a: nat)
    requires Inv(s) && SoleMove(s, a)
    requires event.BeginMove? && event.app == a ==> forall p | 0 <= p < |s.pending| :: !MovePending(s.pending[p], a)
    ensures SoleMove(Next(dir, s, event), a)
  {
    var t := Next(dir, s, event);
    NextPending(dir, s, event, a);
    if a < |s.db.apps| && !CommitsMoveOf(s, event, a) { CurrentChangesByMove(dir, s, event, a); }
    if |t.pending| > |s.pending| {
      AddedKeepsSole(s, t, t.pending[|s.pending|], a);
    } else if t.pending != s.pending {
      AdvancedKeepsSole(s, t, event.p, t.pending[event.p], a);
    }
  }

  lemma SoleMoveIsTimely(s: State, event: Event, a: nat)
    requires SoleMove(s, a)
    ensures Timely(s, event, a)
  {
    if CommitsMoveOf(s, event, a) { assert MovePending(s.pending[event.p], a); }
  }

  /** So when the moves of an application do not overlap, its history links up, whatever else is
      going on at the same time. */
  lemma {:induction false} OneMoveAtATimeLinks(dir: Directory, events: seq<Event>, a: nat)
    requires OneMoveAtATime(dir, START, events, a)
    ensures SoleMove(Run(dir, START, events), a) && AllTimely(dir, START, events, a)
    ensures a < |Run(dir, START, events).db.apps| ==> Linked(HistoryOf(Run(dir, START, events).db, a))
  {
    if |events| > 0 {
      var before := events[..|events| - 1];
      OneMoveAtATimeLinks(dir, before, a);
      StartInv();
      RunKeepsInv(dir, START, before);
      NextKeepsSoleMove(dir, Run(dir, START, before), events[|events| - 1], a);
      SoleMoveIsTimely(Run(dir, START, before), events[|events| - 1], a);
    }
    if a < |Run(dir, START, events).db.apps| { LinkedIffTimely(dir, events, a); }
  }

  /** The events of two overlapping moves: both read and check, then both commit, `first` first. */
  function Race(recruiter: nat, a: nat, first: StageId, second: StageId): seq<Event> {
    [BeginMove(recruiter, a, Some(first)), BeginMove(recruiter, a, Some(second)), Advance(0), Advance(1), Advance(0),
     Advance(1)]
  }

  lemma {:induction false} RunConcat(dir: Directory, s: State, one: seq<Event>, two: seq<Event>)
    ensures Run(dir, s, one + two) == Run(dir, Run(dir, s, one), two)
  {
    if |two| == 0 {
      assert one + two == one;
    } else {
      assert (one + two)[..|one + two| - 1] == one + two[..|two| - 1];
      RunConcat(dir, s, one, two[..|two| - 1]);
    }
  }

  lemma RunTwo(dir: Directory, s: State, one: Event, two: Event)
    ensures Run(dir, s, [one, two]) == Next(dir, Next(dir, s, one), two)
  {
    assert [one, two][..1] == [one] && [one][..0] == [];
    assert Run(dir, s, [one]) == Next(dir, s, one);
  }

  lemma BothChecked(dir: Directory, db: Db, a: nat, first: nat, second: nat)
    requires TablesOk(db) && a < |db.apps|
    requires var stages := db.jobs[db.apps[a].job].stages;
             && first < |stages| && second < |stages|
             && Accepts(CurrentStage(db, a), stages[first]) && Accepts(CurrentStage(db, a), stages[second])
    ensures var owner, j := db.jobs[db.apps[a].job].recruiter, db.apps[a].job;
            var s := Run(dir, State(db, []),
                         [BeginMove(owner, a, Some(StageId(j, first))), BeginMove(owner, a, Some(StageId(j, second)))]);
            Run(dir, s, [Advance(0), Advance(1)])
            == State(db, [MoveChecked(AuditRow(a, db.apps[a].current, StageId(j, first), owner), CurrentStage(db, a)),
                          MoveChecked(AuditRow(a, db.apps[a].current, StageId(j, second), owner), CurrentStage(db, a))])
  {
    var owner, j := db.jobs[db.apps[a].job].recruiter, db.apps[a].job;
    var one, two := BeginMove(owner, a, Some(StageId(j, first))), BeginMove(owner, a, Some(StageId(j, second)));
    assert AppOk(db, db.apps[a]);
    FindInOk(j, db.jobs[j].stages, db.apps[a].current);
    FindInOk(j, db.jobs[j].stages, StageId(j, first));
    FindInOk(j, db.jobs[j].stages, StageId(j, second));
    RunTwo(dir, State(db, []), one, two);
    RunTwo(dir, Run(dir, State(db, []), [one, two]), Advance(0), Advance(1));
  }

  /** The two moves that a race of application `a` commits. */
  function RacingMove(db: Db, a: nat, to: nat): AuditRow
    requires a < |db.apps| && db.apps[a].job < |db.jobs|
  {
    AuditRow(a, db.apps[a].current, StageId(db.apps[a].job, to), db.jobs[db.apps[a].job].recruiter)
  }

  lemma RaceCommitsBoth(dir: Directory, db: Db, a: nat, first: nat, second: nat)
    requires TablesOk(db) && a < |db.apps|
    requires var stages := db.jobs[db.apps[a].job].stages;
             && first < |stages| && second < |stages|
             && Accepts(CurrentStage(db, a), stages[first]) && Accepts(CurrentStage(db, a), stages[second])
    ensures var race := Race(db.jobs[db.apps[a].job].recruiter, a, StageId(db.apps[a].job, first),
                             StageId(db.apps[a].job, second));
            && Run(dir, State(db, []), race[..5]).db == CommitMove(db, RacingMove(db, a, first))
            && Run(dir, State(db, []), race).db
               == CommitMove(CommitMove(db, RacingMove(db, a, first)), RacingMove(db, a, second))
  {
    var race := Race(db.jobs[db.apps[a].job].recruiter, a, StageId(db.apps[a].job, first),
                     StageId(db.apps[a].job, second));
    var m0, m1 := RacingMove(db, a, first), RacingMove(db, a, second);
    BothChecked(dir, db, a, first, second);
    RunConcat(dir, State(db, []), race[..2], race[2..4]);
    assert race[..2] + race[2..4] == race[..4];
    assert race[..5][..4] == race[..4] && race[..6][..5] == race[..5] && race[..6] == race;
    assert Run(dir, State(db, []), race[..4])
           == State(db, [MoveChecked(m0, CurrentStage(db, a)), MoveChecked(m1, CurrentStage(db, a))]);
    assert Run(dir, State(db, []), race[..5])
           == State(CommitMove(db, m0), [Gone, MoveChecked(m1, CurrentStage(db, a))]);
  }

  lemma CommitPlaces(db: Db, move: AuditRow)
    requires move.app < |db.apps| && db.apps[move.app].job < |db.jobs|
    requires move.to.job == db.apps[move.app].job && move.to.number < |db.jobs[move.to.job].stages|
    ensures var t := CommitMove(db, move);
            && t.jobs == db.jobs && t.apps == db.apps[move.app := db.apps[move.app].(current := move.to)]
            && AtTerminal(t, move.app) == db.jobs[move.to.job].stages[move.to.number].isTerminal
  {
  }

  lemma RaceBreaksLink(db: Db, m0: AuditRow, m1: AuditRow)
    requires m0.app == m1.app < |db.apps| && m0.to != m1.from && |HistoryOf(db, m0.app)| > 0
    ensures !Linked(HistoryOf(CommitMove(CommitMove(db, m0), m1), m0.app))
  {
    CommitMoveLogs(db, m0, m0.app);
    CommitMoveLogs(CommitMove(db, m0), m1, m0.app);
    LinkedOneMore(HistoryOf(CommitMove(db, m0), m0.app), AsHistory(m1));
  }

  /** Overlapping moves do break it: from any non-terminal stage with a terminal and a next one, the
      application reaches the terminal stage, is taken out of it again, and its history does not link. */
  lemma RacingMovesLeaveTerminal(dir: Directory, db: Db, a: nat, terminal: nat, other: nat)
    requires TablesOk(db) && AllRecorded(db) && a < |db.apps|
    requires var stages := db.jobs[db.apps[a].job].stages;
             && terminal < |stages| && other < |stages| && stages[terminal].isTerminal && !stages[other].isTerminal
             && Accepts(CurrentStage(db, a), stages[terminal]) && Accepts(CurrentStage(db, a), stages[other])
    ensures var race := Race(db.jobs[db.apps[a].job].recruiter, a, StageId(db.apps[a].job, terminal),
                             StageId(db.apps[a].job, other));
            var middle, after := Run(dir, State(db, []), race[..5]).db, Run(dir, State(db, []), race).db;
            && AtTerminal(middle, a) && !AtTerminal(after, a)
            && a < |after.apps| && after.apps[a].current == StageId(db.apps[a].job, other)
            && !Linked(HistoryOf(after, a))
  {
    var m0, m1 := RacingMove(db, a, terminal), RacingMove(db, a, other);
    RaceCommitsBoth(dir, db, a, terminal, other);
    CommitPlaces(db, m0);
    CommitPlaces(CommitMove(db, m0), m1);
    RaceBreaksLink(db, m0, m1);
  }
}
