/** The hiring pipeline: jobs with their stages, applications moving through them, the append-only
    history and the audit log. Requests here run one after the other; `PipelineRaces` interleaves them. */
module Pipeline {
  import opened Wrappers
  import opened Sequences
  import opened StageRule
  import opened JobStages
  import Keywords

  datatype JobStatus = DRAFT | PUBLISHED | CLOSED

  datatype JobRow = JobRow(recruiter: nat, status: JobStatus, stages: seq<Stage>)

  datatype AppRow = AppRow(candidate: nat, job: nat, resume: nat, current: StageId)

  datatype HistoryRow = HistoryRow(app: nat, from: Option<StageId>, to: StageId, changedBy: nat)

  datatype AuditRow = AuditRow(app: nat, from: StageId, to: StageId, changedBy: nat)

  datatype Db = Db(jobs: seq<JobRow>, apps: seq<AppRow>, history: seq<HistoryRow>, audit: seq<AuditRow>,
                   rankQueue: seq<nat>)

  const EMPTY := Db([], [], [], [], [])

  /** The profile of each user who is a candidate, and the owner of each resume. */
  datatype Directory = Directory(candidates: map<nat, nat>, resumes: map<nat, nat>)

  /** `queued` says whether the rank job could be queued; when not, that is only logged. */
  datatype Request =
    | CreateJob(recruiter: nat, stages: StagesInput)
    | PublishJob(recruiter: nat, job: nat)
    | CloseJob(recruiter: nat, job: nat)
    | AddJobStage(recruiter: nat, job: nat, name: Option<string>, isTerminal: bool)
    | UpdateJobStage(recruiter: nat, job: nat, stage: StageId, newName: Option<Option<string>>, flag: Option<bool>)
    | Apply(user: nat, job: nat, resume: Option<nat>, queued: bool)
    | Move(recruiter: nat, app: nat, target: Option<StageId>)

  // ---- Jobs.

  function RequireOwnedJob(db: Db, job: nat, recruiter: nat): Option<Refusal> {
    if job >= |db.jobs| then Some(JobNotFound)
    else if db.jobs[job].recruiter != recruiter then Some(NotOwner)
    else None
  }

  function SetStatus(db: Db, job: nat, status: JobStatus): Db
    requires job < |db.jobs|
  {
    db.(jobs := db.jobs[job := db.jobs[job].(status := status)])
  }

  function SetStages(db: Db, job: nat, stages: seq<Stage>): Db
    requires job < |db.jobs|
  {
    db.(jobs := db.jobs[job := db.jobs[job].(stages := stages)])
  }

  function HandleCreate(db: Db, recruiter: nat, input: StagesInput): Result<Db, Refusal> {
    match ParseStages(input)
    case Err(e) => Err(e)
    case Ok(parsed) => Ok(db.(jobs := db.jobs + [JobRow(recruiter, DRAFT, StoreStages(|db.jobs|, parsed))]))
  }

  function HandlePublish(db: Db, recruiter: nat, job: nat): Result<Db, Refusal> {
    match RequireOwnedJob(db, job, recruiter)
    case Some(e) => Err(e)
    case None =>
      if !db.jobs[job].status.DRAFT? then Err(NotDraft)
      else if |db.jobs[job].stages| == 0 then Err(NoStagesToPublish)
      else Ok(SetStatus(db, job, PUBLISHED))
  }

  function HandleClose(db: Db, recruiter: nat, job: nat): Result<Db, Refusal> {
    match RequireOwnedJob(db, job, recruiter)
    case Some(e) => Err(e)
    case None => if db.jobs[job].status.CLOSED? then Err(AlreadyClosed) else Ok(SetStatus(db, job, CLOSED))
  }

  function HandleAddStage(db: Db, recruiter: nat, job: nat, name: Option<string>,
                          isTerminal: bool): Result<Db, Refusal>
  {
    match RequireOwnedJob(db, job, recruiter)
    case Some(e) => Err(e)
    case None =>
      if db.jobs[job].status.CLOSED? then Err(JobClosed)
      else
        match AddStage(job, db.jobs[job].stages, name, isTerminal)
        case Err(e) => Err(e)
        case Ok(stages) => Ok(SetStages(db, job, stages))
  }

  function HandleUpdateStage(db: Db, recruiter: nat, job: nat, stage: StageId, name: Option<Option<string>>,
                             flag: Option<bool>)
    : Result<Db, Refusal>
  {
    match RequireOwnedJob(db, job, recruiter)
    case Some(e) => Err(e)
    case None =>
      if db.jobs[job].status.CLOSED? then Err(JobClosed)
      else
        match UpdateStage(db.jobs[job].stages, stage, name, flag)
        case Err(e) => Err(e)
        case Ok(stages) => Ok(SetStages(db, job, stages))
  }

  // ---- Applications: each request checks what it read, and then commits one transaction.

  predicate Applied(db: Db, candidate: nat, job: nat) {
    exists a | 0 <= a < |db.apps| :: db.apps[a].candidate == candidate && db.apps[a].job == job
  }

  function CheckApply(dir: Directory, db: Db, user: nat, job: nat, resume: Option<nat>): Result<AppRow, Refusal> {
    if user !in dir.candidates then Err(ProfileMissing)
    else if job >= |db.jobs| || !db.jobs[job].status.PUBLISHED? then Err(JobNotFound)
    else if resume.None? then Err(ResumeRequired)
    else if resume.value !in dir.resumes || dir.resumes[resume.value] != dir.candidates[user] then Err(ResumeNotYours)
    else if Applied(db, dir.candidates[user], job) then Err(AlreadyApplied)
    else
      match LowestStage(db.jobs[job].stages)
      case None => Err(NoPipelineStages)
      case Some(first) => Ok(AppRow(dir.candidates[user], job, resume.value, first.id))
  }

  /** The insert: the unique (candidate, job) index refuses a second row. */
  function CommitApply(db: Db, row: AppRow, user: nat, queued: bool): Result<Db, Refusal> {
    if Applied(db, row.candidate, row.job) then Err(AlreadyApplied)
    else Ok(db.(apps := db.apps + [row],
                history := db.history + [HistoryRow(|db.apps|, None, row.current, user)],
                rankQueue := if queued then db.rankQueue + [|db.apps|] else db.rankQueue))
  }

  function HandleApply(dir: Directory, db: Db, user: nat, job: nat, resume: Option<nat>,
                       queued: bool): Result<Db, Refusal>
  {
    match CheckApply(dir, db, user, job, resume)
    case Err(e) => Err(e)
    case Ok(row) => CommitApply(db, row, user, queued)
  }

  /** The stage row an application points to. */
  function StageRow(db: Db, id: StageId): Option<Stage> {
    if id.job >= |db.jobs| then None
    else
      var i := FindById(db.jobs[id.job].stages, id);
      if i.None? then None else Some(db.jobs[id.job].stages[i.value])
  }

  function CheckMove(db: Db, recruiter: nat, app: nat, target: Option<StageId>): Result<AuditRow, Refusal> {
    if target.None? then Err(StageRequired)
    else if app >= |db.apps| then Err(ApplicationNotFound)
    else
      var row := db.apps[app];
      match RequireOwnedJob(db, row.job, recruiter)
      case Some(e) => Err(e)
      case None =>
        var i := FindById(db.jobs[row.job].stages, target.value);
        if i.None? then Err(StageNotOnJob)
        else
          match StageRow(db, row.current)
          case None => Err(StageNotFound)
          case Some(current) =>
            match CheckTransition(current, db.jobs[row.job].stages[i.value])
            case Some(e) => Err(Transition(e))
            case None => Ok(AuditRow(app, row.current, target.value, recruiter))
  }

  /** The update, the history row and the audit row, in one transaction. */
  function CommitMove(db: Db, move: AuditRow): Db {
    if move.app >= |db.apps| then db
    else
      db.(apps := db.apps[move.app := db.apps[move.app].(current := move.to)],
          history := db.history + [AsHistory(move)],
          audit := db.audit + [move])
  }

  function HandleMove(db: Db, recruiter: nat, app: nat, target: Option<StageId>): Result<Db, Refusal> {
    match CheckMove(db, recruiter, app, target)
    case Err(e) => Err(e)
    case Ok(move) => Ok(CommitMove(db, move))
  }

  function Handle(dir: Directory, db: Db, request: Request): Result<Db, Refusal> {
    match request
    case CreateJob(recruiter, stages) => HandleCreate(db, recruiter, stages)
    case PublishJob(recruiter, job) => HandlePublish(db, recruiter, job)
    case CloseJob(recruiter, job) => HandleClose(db, recruiter, job)
    case AddJobStage(recruiter, job, name, isTerminal) => HandleAddStage(db, recruiter, job, name, isTerminal)
    case UpdateJobStage(recruiter, job, stage, name, flag) => HandleUpdateStage(db, recruiter, job, stage, name, flag)
    case Apply(user, job, resume, queued) => HandleApply(dir, db, user, job, resume, queued)
    case Move(recruiter, app, target) => HandleMove(db, recruiter, app, target)
  }

  /** A refused request changes nothing. */
  function Next(dir: Directory, db: Db, request: Request): Db {
    match Handle(dir, db, request)
    case Err(_) => db
    case Ok(after) => after
  }

  function Run(dir: Directory, db: Db, requests: seq<Request>): Db {
    if |requests| == 0 then db else Next(dir, Run(dir, db, requests[..|requests| - 1]), requests[|requests| - 1])
  }

  // ---- One application's history and audit entries.

  function HistoryFor(a: nat): HistoryRow -> bool { (h: HistoryRow) => h.app == a }
  function AuditFor(a: nat): AuditRow -> bool { (e: AuditRow) => e.app == a }

  function HistoryOf(db: Db, a: nat): seq<HistoryRow> { Filter(HistoryFor(a), db.history) }
  function AuditOf(db: Db, a: nat): seq<AuditRow> { Filter(AuditFor(a), db.audit) }

  /** Each row starts where the one before it ended; the first starts nowhere. */
  predicate Linked(rows: seq<HistoryRow>) {
    && |rows| > 0 && rows[0].from.None?
    && forall i | 0 < i < |rows| :: rows[i].from == Some(rows[i - 1].to)
  }

  /** The audit entry of a move's history row. */
  function AsAudit(h: HistoryRow): AuditRow
    requires h.from.Some?
  {
    AuditRow(h.app, h.from.value, h.to, h.changedBy)
  }

  function AsHistory(move: AuditRow): HistoryRow {
    HistoryRow(move.app, Some(move.from), move.to, move.changedBy)
  }

  predicate Audited(rows: seq<HistoryRow>, entries: seq<AuditRow>) {
    && |rows| == |entries| + 1
    && forall i | 0 < i < |rows| :: rows[i].from.Some? && entries[i - 1] == AsAudit(rows[i])
  }

  /** The history alone replays to the current stage, from the job's first one. */
  predicate Replays(app: AppRow, rows: seq<HistoryRow>, entries: seq<AuditRow>) {
    && Linked(rows) && Audited(rows, entries)
    && rows[0].to == StageId(app.job, 0)
    && rows[|rows| - 1].to == app.current
  }

  predicate AppOk(db: Db, app: AppRow) {
    && app.job < |db.jobs| && app.current.job == app.job && app.current.number < |db.jobs[app.job].stages|
  }

  predicate JobsOk(db: Db) {
    forall j | 0 <= j < |db.jobs| :: WellPlaced(j, db.jobs[j].stages)
  }

  predicate NamesOk(db: Db) {
    forall j | 0 <= j < |db.jobs| :: NamesDistinct(db.jobs[j].stages)
  }

  /** No candidate has two applications to one job. */
  predicate AppliedOnce(db: Db) {
    forall a, b | 0 <= a < b < |db.apps| ::
      db.apps[a].candidate != db.apps[b].candidate || db.apps[a].job != db.apps[b].job
  }

  predicate LogsOk(db: Db) {
    && (forall i | 0 <= i < |db.history| :: db.history[i].app < |db.apps|)
    && (forall i | 0 <= i < |db.audit| :: db.audit[i].app < |db.apps|)
  }

  /** Everything but the stage names and the links of the histories: this much also survives interleaved
      requests. */
  ghost predicate TablesOk(db: Db) {
    && JobsOk(db)
    && (forall a | 0 <= a < |db.apps| :: AppOk(db, db.apps[a]))
    && AppliedOnce(db)
    && LogsOk(db)
    && (forall i | 0 <= i < |db.rankQueue| :: db.rankQueue[i] < |db.apps|)
    && (forall i, k | 0 <= i < k < |db.rankQueue| :: db.rankQueue[i] < db.rankQueue[k])
  }

  ghost predicate AllReplay(db: Db) {
    forall a | 0 <= a < |db.apps| :: Replays(db.apps[a], HistoryOf(db, a), AuditOf(db, a))
  }

  ghost predicate Inv(db: Db) {
    TablesOk(db) && NamesOk(db) && AllReplay(db)
  }

  // ---- Each kind of request keeps the tables.

  lemma FindInOk(job: nat, stages: seq<Stage>, id: StageId)
    requires WellPlaced(job, stages)
    ensures FindById(stages, id) == if id.job == job && id.number < |stages| then Some(id.number) else None
  {
    if id.job == job && id.number < |stages| { assert stages[id.number].id == id; }
  }

  /** No job disappears or changes hands, and none loses a stage. Where the lists are well placed, this
      also keeps the id and the order of every stage. */
  predicate JobsExtend(before: Db, after: Db) {
    && |before.jobs| <= |after.jobs|
    && forall j | 0 <= j < |before.jobs| ::
         before.jobs[j].recruiter == after.jobs[j].recruiter && |before.jobs[j].stages| <= |after.jobs[j].stages|
  }

  predicate IsJobRequest(request: Request) { !request.Apply? && !request.Move? }

  lemma SetStagesOk(db: Db, job: nat, stages: seq<Stage>)
    requires TablesOk(db) && job < |db.jobs| && WellPlaced(job, stages) && |stages| >= |db.jobs[job].stages|
    ensures TablesOk(SetStages(db, job, stages)) && JobsExtend(db, SetStages(db, job, stages))
  {
  }

  lemma StageRequestKeepsTables(dir: Directory, db: Db, request: Request)
    requires TablesOk(db) && (request.AddJobStage? || request.UpdateJobStage?)
    ensures var t := Next(dir, db, request); TablesOk(t) && JobsExtend(db, t)
  {
    if Handle(dir, db, request).Ok? {
      match request
      case AddJobStage(_, job, name, isTerminal) =>
        AddKeepsPlaced(job, db.jobs[job].stages, name, isTerminal);
        SetStagesOk(db, job, AddStage(job, db.jobs[job].stages, name, isTerminal).value);
      case UpdateJobStage(_, job, stage, name, flag) =>
        UpdateKeepsPlaced(job, db.jobs[job].stages, stage, name, flag);
        SetStagesOk(db, job, UpdateStage(db.jobs[job].stages, stage, name, flag).value);
    }
  }

  lemma NewJobKeepsTables(db: Db, recruiter: nat, stages: seq<Stage>)
    requires TablesOk(db) && WellPlaced(|db.jobs|, stages)
    ensures var t := db.(jobs := db.jobs + [JobRow(recruiter, DRAFT, stages)]); TablesOk(t) && JobsExtend(db, t)
  {
  }

  lemma JobRequestKeepsTables(dir: Directory, db: Db, request: Request)
    requires TablesOk(db) && IsJobRequest(request)
    ensures var t := Next(dir, db, request); TablesOk(t) && JobsExtend(db, t)
    ensures var t := Next(dir, db, request);
            t.apps == db.apps && t.history == db.history && t.audit == db.audit && t.rankQueue == db.rankQueue
  {
    if request.CreateJob? {
      if ParseStages(request.stages).Ok? {
        StoredStagesOk(|db.jobs|, request.stages);
        NewJobKeepsTables(db, request.recruiter, StoreStages(|db.jobs|, ParseStages(request.stages).value));
      }
    } else if request.AddJobStage? || request.UpdateJobStage? {
      StageRequestKeepsTables(dir, db, request);
    }
  }

  lemma CommitApplyKeepsTables(db: Db, row: AppRow, user: nat, queued: bool)
    requires TablesOk(db) && AppOk(db, row) && CommitApply(db, row, user, queued).Ok?
    ensures TablesOk(CommitApply(db, row, user, queued).value)
  {
  }

  lemma CommitMoveKeepsTables(db: Db, move: AuditRow)
    requires TablesOk(db) && move.app < |db.apps|
    requires move.to.job == db.apps[move.app].job && move.to.number < |db.jobs[move.to.job].stages|
    ensures TablesOk(CommitMove(db, move))
  {
  }

  lemma CheckApplyGivesFirst(dir: Directory, db: Db, user: nat, job: nat, resume: Option<nat>)
    requires TablesOk(db) && CheckApply(dir, db, user, job, resume).Ok?
    ensures var row := CheckApply(dir, db, user, job, resume).value;
            AppOk(db, row) && row.job == job && row.current == StageId(job, 0)
  {
    LowestOfOk(job, db.jobs[job].stages);
  }

  /** What a checked move knows about the application it read. */
  predicate MoveOk(db: Db, move: AuditRow) {
    && move.app < |db.apps| && db.apps[move.app].job < |db.jobs|
    && move.to.job == db.apps[move.app].job && move.to.number < |db.jobs[move.to.job].stages|
    && move.from.job == move.to.job && move.from.number < |db.jobs[move.to.job].stages|
  }

  lemma CheckMoveKnows(db: Db, recruiter: nat, app: nat, target: Option<StageId>)
    requires TablesOk(db) && CheckMove(db, recruiter, app, target).Ok?
    ensures var move := CheckMove(db, recruiter, app, target).value;
            && MoveOk(db, move) && move.app == app && move.from == db.apps[app].current && target == Some(move.to)
            && move.changedBy == recruiter && recruiter == db.jobs[move.to.job].recruiter
            && Accepts(db.jobs[move.to.job].stages[move.from.number], db.jobs[move.to.job].stages[move.to.number])
  {
    var row := db.apps[app];
    assert AppOk(db, row);
    FindInOk(row.job, db.jobs[row.job].stages, target.value);
    FindInOk(row.job, db.jobs[row.job].stages, row.current);
  }

  // ---- Histories.

  lemma {:induction false} FilterSkips<T>(p: T -> bool, s: seq<T>)
    requires forall i | 0 <= i < |s| :: !p(s[i])
    ensures Filter(p, s) == []
  {
    if |s| > 0 { FilterSkips(p, s[..|s| - 1]); }
  }

  /** What a committed move adds to application `a`'s logs. */
  predicate CommitLogged(db: Db, move: AuditRow, a: nat) {
    var t := CommitMove(db, move);
    && HistoryOf(t, a) == (if a == move.app then HistoryOf(db, a) + [AsHistory(move)] else HistoryOf(db, a))
    && AuditOf(t, a) == (if a == move.app then AuditOf(db, a) + [move] else AuditOf(db, a))
  }

  lemma CommitMoveLogs(db: Db, move: AuditRow, a: nat)
    requires move.app < |db.apps|
    ensures CommitLogged(db, move, a)
  {
    FilterAppend(HistoryFor(a), db.history, AsHistory(move));
    FilterAppend(AuditFor(a), db.audit, move);
  }

  lemma CommitApplyLogs(db: Db, row: AppRow, user: nat, queued: bool, a: nat)
    requires LogsOk(db) && CommitApply(db, row, user, queued).Ok?
    ensures var t := CommitApply(db, row, user, queued).value;
            && HistoryOf(t, a)
               == (if a == |db.apps| then [HistoryRow(a, None, row.current, user)] else HistoryOf(db, a))
            && AuditOf(t, a) == AuditOf(db, a) && (a == |db.apps| ==> AuditOf(t, a) == [])
  {
    FilterAppend(HistoryFor(a), db.history, HistoryRow(|db.apps|, None, row.current, user));
    if a == |db.apps| {
      FilterSkips(HistoryFor(a), db.history);
      FilterSkips(AuditFor(a), db.audit);
    }
  }

  lemma ReplaysOneMore(app: AppRow, rows: seq<HistoryRow>, entries: seq<AuditRow>, move: AuditRow)
    requires Replays(app, rows, entries) && move.from == app.current
    ensures Replays(app.(current := move.to), rows + [AsHistory(move)], entries + [move])
  {
  }

  lemma SameLogs(db: Db, after: Db)
    requires AllReplay(db) && after.apps == db.apps && after.history == db.history && after.audit == db.audit
    ensures AllReplay(after)
  {
    forall a | 0 <= a < |after.apps| ensures Replays(after.apps[a], HistoryOf(after, a), AuditOf(after, a)) {
      assert Replays(db.apps[a], HistoryOf(db, a), AuditOf(db, a));
    }
  }

  lemma CommitApplyReplays(db: Db, row: AppRow, user: nat, queued: bool)
    requires LogsOk(db) && AllReplay(db) && CommitApply(db, row, user, queued).Ok? && row.current == StageId(row.job, 0)
    ensures AllReplay(CommitApply(db, row, user, queued).value)
  {
    var after := CommitApply(db, row, user, queued).value;
    forall a | 0 <= a < |after.apps| ensures Replays(after.apps[a], HistoryOf(after, a), AuditOf(after, a)) {
      CommitApplyLogs(db, row, user, queued, a);
      assert a < |db.apps| ==> Replays(db.apps[a], HistoryOf(db, a), AuditOf(db, a));
    }
  }

  lemma CommitMoveReplays(db: Db, move: AuditRow)
    requires AllReplay(db) && move.app < |db.apps| && move.from == db.apps[move.app].current
    ensures AllReplay(CommitMove(db, move))
  {
    var after := CommitMove(db, move);
    forall a | 0 <= a < |after.apps| ensures Replays(after.apps[a], HistoryOf(after, a), AuditOf(after, a)) {
      CommitMoveLogs(db, move, a);
      assert Replays(db.apps[a], HistoryOf(db, a), AuditOf(db, a));
      if a == move.app { ReplaysOneMore(db.apps[a], HistoryOf(db, a), AuditOf(db, a), move); }
    }
  }

  lemma NextKeepsReplay(dir: Directory, db: Db, request: Request)
    requires Inv(db)
    ensures AllReplay(Next(dir, db, request))
  {
    if IsJobRequest(request) {
      JobRequestKeepsTables(dir, db, request);
      SameLogs(db, Next(dir, db, request));
    } else if Handle(dir, db, request).Ok? {
      match request
      case Apply(user, job, resume, queued) =>
        CheckApplyGivesFirst(dir, db, user, job, resume);
        CommitApplyReplays(db, CheckApply(dir, db, user, job, resume).value, user, queued);
      case Move(recruiter, app, target) =>
        CheckMoveKnows(db, recruiter, app, target);
        CommitMoveReplays(db, CheckMove(db, recruiter, app, target).value);
    }
  }

  lemma NextKeepsTables(dir: Directory, db: Db, request: Request)
    requires TablesOk(db)
    ensures TablesOk(Next(dir, db, request))
  {
    if IsJobRequest(request) {
      JobRequestKeepsTables(dir, db, request);
    } else if Handle(dir, db, request).Ok? {
      match request
      case Apply(user, job, resume, queued) =>
        CheckApplyGivesFirst(dir, db, user, job, resume);
        CommitApplyKeepsTables(db, CheckApply(dir, db, user, job, resume).value, user, queued);
      case Move(recruiter, app, target) =>
        CheckMoveKnows(db, recruiter, app, target);
        CommitMoveKeepsTables(db, CheckMove(db, recruiter, app, target).value);
    }
  }

  lemma NextKeepsNames(dir: Directory, db: Db, request: Request)
    requires TablesOk(db) && NamesOk(db)
    ensures NamesOk(Next(dir, db, request))
  {
    if Handle(dir, db, request).Ok? {
      match request
      case CreateJob(_, input) => StoredStagesOk(|db.jobs|, input);
      case AddJobStage(_, job, name, isTerminal) => AddKeepsOk(job, db.jobs[job].stages, name, isTerminal);
      case UpdateJobStage(_, job, stage, name, flag) => UpdateKeepsOk(job, db.jobs[job].stages, stage, name, flag);
      case PublishJob(_, _) =>
      case CloseJob(_, _) =>
      case Apply(_, _, _, _) =>
      case Move(_, _, _) =>
    }
  }

  lemma NextKeepsInv(dir: Directory, db: Db, request: Request)
    requires Inv(db)
    ensures Inv(Next(dir, db, request))
  {
    NextKeepsTables(dir, db, request);
    NextKeepsNames(dir, db, request);
    NextKeepsReplay(dir, db, request);
  }

  lemma {:induction false} RunKeepsInv(dir: Directory, db: Db, requests: seq<Request>)
    requires Inv(db)
    ensures Inv(Run(dir, db, requests))
  {
    if |requests| > 0 {
      RunKeepsInv(dir, db, requests[..|requests| - 1]);
      NextKeepsInv(dir, Run(dir, db, requests[..|requests| - 1]), requests[|requests| - 1]);
    }
  }

  // ---- What every serial run of requests guarantees.

  lemma EmptyInv()
    ensures Inv(EMPTY)
  {
  }

  /** In every serial run each application's history is not empty, starts from nowhere at the job's
      lowest-order stage, links each row to the next, and ends at the current stage; its audit entries
      are exactly the history after the first row; and no candidate applied twice to a job. */
  lemma HistoryReplays(dir: Directory, requests: seq<Request>)
    ensures var db := Run(dir, EMPTY, requests);
            && AppliedOnce(db)
            && forall a | 0 <= a < |db.apps| ::
                 && db.apps[a].job < |db.jobs|
                 && Linked(HistoryOf(db, a)) && Audited(HistoryOf(db, a), AuditOf(db, a))
                 && HistoryOf(db, a)[|HistoryOf(db, a)| - 1].to == db.apps[a].current
                 && LowestStage(db.jobs[db.apps[a].job].stages).Some?
                 && HistoryOf(db, a)[0].to == LowestStage(db.jobs[db.apps[a].job].stages).value.id
  {
    EmptyInv();
    RunKeepsInv(dir, EMPTY, requests);
    var db := Run(dir, EMPTY, requests);
    forall a | 0 <= a < |db.apps|
      ensures db.apps[a].job < |db.jobs| && LowestStage(db.jobs[db.apps[a].job].stages).Some?
      ensures Replays(db.apps[a], HistoryOf(db, a), AuditOf(db, a))
      ensures LowestStage(db.jobs[db.apps[a].job].stages).value.id == StageId(db.apps[a].job, 0)
    {
      assert AppOk(db, db.apps[a]);
      LowestOfOk(db.apps[a].job, db.jobs[db.apps[a].job].stages);
    }
  }

  /** In every serial run each job has stages, ordered exactly 1..n, with names distinct up to letter
      case; each application's current stage is one of its job's; and so neither an application nor a
      publication is ever turned down for want of stages. */
  lemma StageListsStayWellFormed(dir: Directory, requests: seq<Request>, next: Request)
    ensures var db := Run(dir, EMPTY, requests);
            && (forall j | 0 <= j < |db.jobs| :: StagesOk(j, db.jobs[j].stages))
            && (forall a | 0 <= a < |db.apps| ::
                  StageRow(db, db.apps[a].current).Some? && db.apps[a].current.job == db.apps[a].job)
            && (Handle(dir, db, next).Err? ==> Handle(dir, db, next).error !in {NoPipelineStages, NoStagesToPublish})
  {
    EmptyInv();
    RunKeepsInv(dir, EMPTY, requests);
    var db := Run(dir, EMPTY, requests);
    forall a | 0 <= a < |db.apps|
      ensures StageRow(db, db.apps[a].current).Some? && db.apps[a].current.job == db.apps[a].job
    {
      assert AppOk(db, db.apps[a]);
      FindInOk(db.apps[a].job, db.jobs[db.apps[a].job].stages, db.apps[a].current);
    }
    if Handle(dir, db, next).Err? { RefusalsForWantOfStages(dir, db, next); }
  }

  lemma ApplyFindsAStage(dir: Directory, db: Db, user: nat, job: nat, resume: Option<nat>, queued: bool)
    requires TablesOk(db)
    ensures HandleApply(dir, db, user, job, resume, queued).Err? ==>
              HandleApply(dir, db, user, job, resume, queued).error
              in {ProfileMissing, JobNotFound, ResumeRequired, ResumeNotYours, AlreadyApplied}
  {
    if job < |db.jobs| { LowestOfOk(job, db.jobs[job].stages); }
  }

  lemma PublishFindsStages(db: Db, recruiter: nat, job: nat)
    requires TablesOk(db)
    ensures HandlePublish(db, recruiter, job).Err? ==>
              HandlePublish(db, recruiter, job).error in {JobNotFound, NotOwner, NotDraft}
  {
    if job < |db.jobs| { assert WellPlaced(job, db.jobs[job].stages); }
  }

  lemma RefusalsForWantOfStages(dir: Directory, db: Db, next: Request)
    requires TablesOk(db) && Handle(dir, db, next).Err?
    ensures Handle(dir, db, next).error !in {NoPipelineStages, NoStagesToPublish}
  {
    match next
    case CreateJob(_, input) => ParseRefusals(input);
    case PublishJob(recruiter, job) => PublishFindsStages(db, recruiter, job);
    case CloseJob(_, _) =>
    case AddJobStage(_, _, _, _) =>
    case UpdateJobStage(_, _, _, _, _) =>
    case Apply(user, job, resume, queued) => ApplyFindsAStage(dir, db, user, job, resume, queued);
    case Move(_, _, _) =>
  }

  lemma ParseRefusals(input: StagesInput)
    requires ParseStages(input).Err?
    ensures ParseStages(input).error in {StagesNotArray, StageNotObject, StageNameRequired, StageNamesNotUnique}
  {
    if input.Array? { ParseEachExactly(input.stages); }
  }

  function CurrentStage(db: Db, a: nat): Stage
    requires a < |db.apps| && AppOk(db, db.apps[a])
  {
    db.jobs[db.apps[a].job].stages[db.apps[a].current.number]
  }

  /** A move is accepted exactly when the recruiter owns the job, the target is one of its stages, and
      the rule allows it; and it changes nothing but that application's stage and the two logs. */
  lemma MoveAcceptedExactly(dir: Directory, db: Db, recruiter: nat, app: nat, target: Option<StageId>)
    requires TablesOk(db)
    ensures Handle(dir, db, Move(recruiter, app, target)).Ok? <==>
              && target.Some? && app < |db.apps| && db.jobs[db.apps[app].job].recruiter == recruiter
              && target.value.job == db.apps[app].job && target.value.number < |db.jobs[db.apps[app].job].stages|
              && Accepts(CurrentStage(db, app), db.jobs[db.apps[app].job].stages[target.value.number])
    ensures var t := Next(dir, db, Move(recruiter, app, target));
            && t.jobs == db.jobs && t.rankQueue == db.rankQueue
            && (forall a | 0 <= a < |db.apps| && a != app ::
                  t.apps[a] == db.apps[a] && HistoryOf(t, a) == HistoryOf(db, a))
  {
    if app < |db.apps| && target.Some? {
      assert AppOk(db, db.apps[app]);
      FindInOk(db.apps[app].job, db.jobs[db.apps[app].job].stages, target.value);
      FindInOk(db.apps[app].job, db.jobs[db.apps[app].job].stages, db.apps[app].current);
    }
    if Handle(dir, db, Move(recruiter, app, target)).Ok? {
      var move := CheckMove(db, recruiter, app, target).value;
      forall a | 0 <= a < |db.apps| && a != app ensures HistoryOf(CommitMove(db, move), a) == HistoryOf(db, a) {
        CommitMoveLogs(db, move, a);
      }
    }
  }

  /** Who made a change: the candidate for the first row, the job's owner for a move. */
  predicate SignedBy(dir: Directory, db: Db, h: HistoryRow) {
    && h.app < |db.apps| && db.apps[h.app].job < |db.jobs|
    && (if h.from.None? then h.changedBy in dir.candidates && dir.candidates[h.changedBy] == db.apps[h.app].candidate
        else h.changedBy == db.jobs[db.apps[h.app].job].recruiter)
  }

  ghost predicate Signed(dir: Directory, db: Db) {
    && (forall i | 0 <= i < |db.history| :: SignedBy(dir, db, db.history[i]))
    && (forall a | 0 <= a < |db.apps| ::
          db.apps[a].resume in dir.resumes && dir.resumes[db.apps[a].resume] == db.apps[a].candidate)
  }

  lemma NextKeepsSigned(dir: Directory, db: Db, request: Request)
    requires TablesOk(db) && Signed(dir, db)
    ensures Signed(dir, Next(dir, db, request))
  {
    var t := Next(dir, db, request);
    NextExtends(dir, db, request);
    if IsJobRequest(request) { JobRequestKeepsTables(dir, db, request); }
    if request.Move? && Handle(dir, db, request).Ok? {
      CheckMoveKnows(db, request.recruiter, request.app, request.target);
    }
    if request.Apply? && Handle(dir, db, request).Ok? {
      CheckApplyGivesFirst(dir, db, request.user, request.job, request.resume);
    }
    forall i | 0 <= i < |t.history| ensures SignedBy(dir, t, t.history[i]) {
      assert i < |db.history| ==> SignedBy(dir, db, db.history[i]);
    }
  }

  /** In every serial run each history row names who made the change, the candidate who applied or the
      recruiter who owns the job, and each application uses one of the candidate's own resumes. */
  lemma {:induction false} RecordsAreSigned(dir: Directory, requests: seq<Request>)
    ensures Signed(dir, Run(dir, EMPTY, requests))
  {
    if |requests| > 0 {
      EmptyInv();
      RunKeepsInv(dir, EMPTY, requests[..|requests| - 1]);
      RecordsAreSigned(dir, requests[..|requests| - 1]);
      NextKeepsSigned(dir, Run(dir, EMPTY, requests[..|requests| - 1]), requests[|requests| - 1]);
    }
  }

  function Phase(status: JobStatus): nat {
    match status
    case DRAFT => 0
    case PUBLISHED => 1
    case CLOSED => 2
  }

  /** Under serial requests a job only ever advances from draft to published to closed; a closed one
      never changes again, nor gains an application. */
  lemma {:induction false} JobsOnlyAdvance(dir: Directory, db: Db, requests: seq<Request>, j: nat)
    requires j < |db.jobs|
    ensures var t := Run(dir, db, requests);
            && j < |t.jobs| && Phase(db.jobs[j].status) <= Phase(t.jobs[j].status)
            && (db.jobs[j].status.CLOSED? ==> t.jobs[j] == db.jobs[j])
            && |db.apps| <= |t.apps|
            && (db.jobs[j].status.CLOSED? ==> forall a | |db.apps| <= a < |t.apps| :: t.apps[a].job != j)
  {
    if |requests| > 0 {
      JobsOnlyAdvance(dir, db, requests[..|requests| - 1], j);
      JobAdvances(dir, Run(dir, db, requests[..|requests| - 1]), requests[|requests| - 1], j);
    }
  }

  lemma JobAdvances(dir: Directory, db: Db, request: Request, j: nat)
    requires j < |db.jobs|
    ensures var t := Next(dir, db, request);
            && j < |t.jobs| && Phase(db.jobs[j].status) <= Phase(t.jobs[j].status)
            && (db.jobs[j].status.CLOSED? ==> t.jobs[j] == db.jobs[j])
            && |db.apps| <= |t.apps|
            && (forall a | 0 <= a < |db.apps| :: t.apps[a].job == db.apps[a].job)
            && (forall a | |db.apps| <= a < |t.apps| :: t.apps[a].job == j ==> db.jobs[j].status.PUBLISHED?)
  {
  }

  /** Whatever happened before, the stages the browser offers the recruiter for an application are
      exactly those a move to which the service would accept. */
  lemma OfferedMovesAreAccepted(dir: Directory, requests: seq<Request>, a: nat, id: StageId)
    requires a < |Run(dir, EMPTY, requests).apps|
    ensures var db := Run(dir, EMPTY, requests);
            && AppOk(db, db.apps[a])
            && (id in ValidTargetStageIds(CurrentStage(db, a), db.jobs[db.apps[a].job].stages) <==>
                  Handle(dir, db, Move(db.jobs[db.apps[a].job].recruiter, a, Some(id))).Ok?)
  {
    EmptyInv();
    RunKeepsInv(dir, EMPTY, requests);
    var db := Run(dir, EMPTY, requests);
    assert AppOk(db, db.apps[a]);
    var j := db.apps[a].job;
    var stages := db.jobs[j].stages;
    OkIsNumbered(j, stages);
    OfferedIffAccepted(CurrentStage(db, a), stages);
    MoveAcceptedExactly(dir, db, db.jobs[j].recruiter, a, Some(id));
    if id in AcceptedIds(CurrentStage(db, a), stages) {
      var k :| 0 <= k < |stages| && stages[k].id == id && Accepts(CurrentStage(db, a), stages[k]);
    }
  }

  // ---- How often an application can move.

  /** Some stage the job already had changed its terminal flag. */
  predicate FlagsChanged(before: Db, after: Db, j: nat) {
    j < |before.jobs| && j < |after.jobs| &&
      exists i | 0 <= i < |before.jobs[j].stages| ::
        i < |after.jobs[j].stages| && before.jobs[j].stages[i].isTerminal != after.jobs[j].stages[i].isTerminal
  }

  function Moves(db: Db, after: Db, a: nat): int {
    |HistoryOf(after, a)| - |HistoryOf(db, a)|
  }

  function Bit(b: bool): nat { if b then 1 else 0 }

  /** The moves left for application `a` while its job has at most `n` stages. */
  function Left(db: Db, a: nat, n: nat): nat {
    if a < |db.apps| && AppOk(db, db.apps[a])
    then Remaining(n, db.jobs[db.apps[a].job].stages, db.apps[a].current.number) else 0
  }

  predicate AtTerminal(db: Db, a: nat) {
    a < |db.apps| && AppOk(db, db.apps[a]) && CurrentStage(db, a).isTerminal
  }

  predicate AppsExtend(before: Db, after: Db) {
    && |before.apps| <= |after.apps|
    && forall a | 0 <= a < |before.apps| ::
         after.apps[a].job == before.apps[a].job && after.apps[a].candidate == before.apps[a].candidate
  }

  lemma NextExtends(dir: Directory, db: Db, request: Request)
    requires TablesOk(db)
    ensures JobsExtend(db, Next(dir, db, request)) && AppsExtend(db, Next(dir, db, request))
  {
    if IsJobRequest(request) { JobRequestKeepsTables(dir, db, request); }
  }

  lemma OtherRequestLeavesApp(dir: Directory, db: Db, request: Request, a: nat)
    requires TablesOk(db) && a < |db.apps| && !(request.Move? && request.app == a && Handle(dir, db, request).Ok?)
    ensures var t := Next(dir, db, request);
            && a < |t.apps| && t.apps[a] == db.apps[a] && HistoryOf(t, a) == HistoryOf(db, a)
            && (!IsJobRequest(request) ==> t.jobs == db.jobs)
  {
    if IsJobRequest(request) {
      JobRequestKeepsTables(dir, db, request);
    } else if Handle(dir, db, request).Ok? {
      match request
      case Apply(user, job, resume, queued) =>
        CommitApplyLogs(db, CheckApply(dir, db, user, job, resume).value, user, queued, a);
      case Move(recruiter, app, target) =>
        CommitMoveLogs(db, CheckMove(db, recruiter, app, target).value, a);
    }
  }

  lemma MoveBudget(dir: Directory, db: Db, recruiter: nat, a: nat, target: Option<StageId>, n: nat)
    requires TablesOk(db) && a < |db.apps| && Handle(dir, db, Move(recruiter, a, target)).Ok?
    ensures var t := Next(dir, db, Move(recruiter, a, target));
            && t.jobs == db.jobs && Moves(db, t, a) == 1 && !AtTerminal(db, a)
            && (|db.jobs[db.apps[a].job].stages| <= n ==> Left(t, a, n) < Left(db, a, n))
  {
    CheckMoveKnows(db, recruiter, a, target);
    var move := CheckMove(db, recruiter, a, target).value;
    CommitMoveLogs(db, move, a);
    assert AppOk(db, db.apps[a]);
    OkIsNumbered(move.to.job, db.jobs[move.to.job].stages);
    if |db.jobs[db.apps[a].job].stages| <= n {
      MovesUseUp(n, db.jobs[move.to.job].stages, move.from.number, move.to.number);
    }
  }

  /** One request's effect on application `a`: a move needs a non-terminal stage and uses up some of
      what is left; only a changed flag gives anything back. */
  lemma NextBudget(dir: Directory, db: Db, request: Request, a: nat, n: nat)
    requires TablesOk(db) && a < |db.apps| && db.apps[a].job < |Next(dir, db, request).jobs|
    requires |Next(dir, db, request).jobs[db.apps[a].job].stages| <= n
    ensures var t := Next(dir, db, request);
            && 0 <= Moves(db, t, a) <= 1
            && if FlagsChanged(db, t, db.apps[a].job)
               then Moves(db, t, a) == 0
               else Moves(db, t, a) <= Left(db, a, n) - Left(t, a, n)
                    && (if Moves(db, t, a) > 0 then !AtTerminal(db, a) else AtTerminal(t, a) == AtTerminal(db, a))
  {
    var t := Next(dir, db, request);
    NextKeepsTables(dir, db, request);
    NextExtends(dir, db, request);
    assert AppOk(db, db.apps[a]) && AppOk(t, t.apps[a]);
    if request.Move? && request.app == a {
      if Handle(dir, db, request).Ok? {
        MoveBudget(dir, db, request.recruiter, a, request.target, n);
      }
    } else {
      OtherRequestLeavesApp(dir, db, request, a);
      if !FlagsChanged(db, t, db.apps[a].job) { SameFlagsSameLeft(db, t, a, n); }
    }
  }

  /** An application that stays where it is, in a job whose flags do not change, has as many moves left. */
  lemma SameFlagsSameLeft(db: Db, t: Db, a: nat, n: nat)
    requires TablesOk(db) && TablesOk(t) && JobsExtend(db, t)
    requires a < |db.apps| && a < |t.apps| && t.apps[a] == db.apps[a] && !FlagsChanged(db, t, db.apps[a].job)
    ensures Left(t, a, n) == Left(db, a, n) && AtTerminal(t, a) == AtTerminal(db, a)
  {
    var j, k := db.apps[a].job, db.apps[a].current.number;
    assert AppOk(db, db.apps[a]) && AppOk(t, t.apps[a]);
    var stages, now := db.jobs[j].stages, t.jobs[j].stages;
    assert forall i | 0 <= i <= k :: stages[i].isTerminal == now[i].isTerminal;
    if TerminalBefore(stages, k) {
      var i :| 0 <= i < k && stages[i].isTerminal;
      assert now[i].isTerminal;
    }
  }

  lemma LeftBounded(db: Db, a: nat, n: nat)
    requires TablesOk(db) && a < |db.apps|
    requires db.apps[a].job < |db.jobs| && |db.jobs[db.apps[a].job].stages| <= n
    ensures n > 0 && Left(db, a, n) <= n - 1
  {
    assert AppOk(db, db.apps[a]);
    RemainingBounded(n, db.jobs[db.apps[a].job].stages, db.apps[a].current.number);
  }

  lemma FlagCleared(dir: Directory, db: Db, j: nat, k: nat)
    requires TablesOk(db) && j < |db.jobs| && !db.jobs[j].status.CLOSED? && k < |db.jobs[j].stages|
    ensures var stages := db.jobs[j].stages;
            Next(dir, db, UpdateJobStage(db.jobs[j].recruiter, j, StageId(j, k), None, Some(false)))
            == SetStages(db, j, stages[k := stages[k].(isTerminal := false)])
  {
    FindInOk(j, db.jobs[j].stages, StageId(j, k));
  }

  lemma MoveApplies(dir: Directory, db: Db, recruiter: nat, a: nat, target: StageId)
    requires TablesOk(db) && a < |db.apps| && Handle(dir, db, Move(recruiter, a, Some(target))).Ok?
    ensures var t := Next(dir, db, Move(recruiter, a, Some(target)));
            t.apps == db.apps[a := db.apps[a].(current := target)] && Moves(db, t, a) == 1
  {
    CheckMoveKnows(db, recruiter, a, Some(target));
    CommitMoveLogs(db, CheckMove(db, recruiter, a, Some(target)).value, a);
  }

  /** But not across them: whoever owns an open job can clear the flag of a terminal stage and then
      move an application out of it, to any terminal stage of the job. */
  lemma ClearedFlagReopens(dir: Directory, db: Db, a: nat, to: nat)
    requires TablesOk(db) && AtTerminal(db, a) && !db.jobs[db.apps[a].job].status.CLOSED?
    requires to < |db.jobs[db.apps[a].job].stages| && to != db.apps[a].current.number
    requires db.jobs[db.apps[a].job].stages[to].isTerminal
    ensures var owner, j := db.jobs[db.apps[a].job].recruiter, db.apps[a].job;
            var cleared := Next(dir, db, UpdateJobStage(owner, j, db.apps[a].current, None, Some(false)));
            var t := Next(dir, cleared, Move(owner, a, Some(StageId(j, to))));
            a < |t.apps| && t.apps[a] == db.apps[a].(current := StageId(j, to)) && Moves(cleared, t, a) == 1
  {
    var owner, j, k := db.jobs[db.apps[a].job].recruiter, db.apps[a].job, db.apps[a].current.number;
    var stages := db.jobs[j].stages;
    var cleared := SetStages(db, j, stages[k := stages[k].(isTerminal := false)]);
    FlagCleared(dir, db, j, k);
    NextKeepsTables(dir, db, UpdateJobStage(owner, j, StageId(j, k), None, Some(false)));
    assert WellPlaced(j, stages);
    MoveAcceptedExactly(dir, cleared, owner, a, Some(StageId(j, to)));
    MoveApplies(dir, cleared, owner, a, StageId(j, to));
  }

  // ---- The services over the tables.

  /** A request's answer: the refusal, if any. */
  function Refused(outcome: Result<Db, Refusal>): Option<Refusal> {
    match outcome
    case Err(e) => Some(e)
    case Ok(_) => None
  }

  lemma NextKeepsInvIf(dir: Directory, db: Db, request: Request)
    ensures Inv(db) ==> Inv(Next(dir, db, request))
  {
    if Inv(db) { NextKeepsInv(dir, db, request); }
  }

  predicate ReplaysFor(db: Db, a: nat)
    requires a < |db.apps|
  {
    Replays(db.apps[a], HistoryOf(db, a), AuditOf(db, a))
  }

  /** A move of `app` made from its current stage keeps a replaying history replaying, one row longer,
      and ends it at the new stage; nothing about other applications changes. */
  ghost predicate MoveExtends(before: Db, after: Db, app: nat, from: StageId, to: StageId) {
    && app < |before.apps| == |after.apps|
    && (ReplaysFor(before, app) && from == before.apps[app].current ==>
          ReplaysFor(after, app) && |HistoryOf(after, app)| == |HistoryOf(before, app)| + 1
          && after.apps[app].current == to)
    && (forall a | 0 <= a < |before.apps| && a != app ::
          after.apps[a] == before.apps[a] && HistoryOf(after, a) == HistoryOf(before, a)
          && AuditOf(after, a) == AuditOf(before, a))
  }

  lemma CommitMoveExtends(db: Db, move: AuditRow)
    requires move.app < |db.apps|
    ensures MoveExtends(db, CommitMove(db, move), move.app, move.from, move.to)
  {
    forall a | 0 <= a < |db.apps| ensures CommitLogged(db, move, a) { CommitMoveLogs(db, move, a); }
    if ReplaysFor(db, move.app) && move.from == db.apps[move.app].current {
      ReplaysOneMore(db.apps[move.app], HistoryOf(db, move.app), AuditOf(db, move.app), move);
    }
  }

  predicate SameLower(one: string, two: string) {
    Keywords.Lower(one) == Keywords.Lower(two)
  }

  /** The id of a stage of the list that has the lowest order. */
  predicate IsFirstStage(stages: seq<Stage>, id: StageId) {
    exists i | 0 <= i < |stages| ::
      stages[i].id == id && forall k | 0 <= k < |stages| :: stages[i].order <= stages[k].order
  }

  /** Why a move is refused, in this order, when the tables are in order. */
  function MoveRefusal(db: Db, recruiter: nat, app: nat, target: Option<StageId>): Option<Refusal>
    requires TablesOk(db)
  {
    if target.None? then Some(StageRequired)
    else if app >= |db.apps| then Some(ApplicationNotFound)
    else
      assert AppOk(db, db.apps[app]);
      var j, to := db.apps[app].job, target.value;
      var stages, current := db.jobs[j].stages, db.jobs[j].stages[db.apps[app].current.number];
      if db.jobs[j].recruiter != recruiter then Some(NotOwner)
      else if to.job != j || to.number >= |stages| then Some(StageNotOnJob)
      else if current.isTerminal then Some(Transition(TerminalReached))
      else if to.number == db.apps[app].current.number then Some(Transition(SameStage))
      else if !stages[to.number].isTerminal && to.number != db.apps[app].current.number + 1
        then Some(Transition(NotNextNorTerminal))
      else None
  }

  lemma MoveRefusedExactly(db: Db, recruiter: nat, app: nat, target: Option<StageId>)
    requires TablesOk(db)
    ensures MoveRefusal(db, recruiter, app, target)
         == match CheckMove(db, recruiter, app, target) case Ok(_) => None case Err(e) => Some(e)
  {
    if target.Some? && app < |db.apps| {
      var j := db.apps[app].job;
      assert AppOk(db, db.apps[app]) && WellPlaced(j, db.jobs[j].stages);
      FindInOk(j, db.jobs[j].stages, target.value);
      FindInOk(j, db.jobs[j].stages, db.apps[app].current);
    }
  }

  class PipelineService {
    const directory: Directory
    var jobs: seq<JobRow>
    var apps: seq<AppRow>
    var history: seq<HistoryRow>
    var audit: seq<AuditRow>
    var rankQueue: seq<nat>

    constructor (directory: Directory)
      ensures this.directory == directory && Tables() == EMPTY && Inv(Tables())
    {
      this.directory := directory;
      jobs, apps, history, audit, rankQueue := [], [], [], [], [];
    }

    function Tables(): Db
      reads this
    {
      Db(jobs, apps, history, audit, rankQueue)
    }

    method RequireOwned(job: nat, recruiter: nat) returns (refusal: Option<Refusal>)
      ensures refusal == RequireOwnedJob(Tables(), job, recruiter)
      ensures refusal == if job >= |jobs| then Some(JobNotFound)
                         else if jobs[job].recruiter != recruiter then Some(NotOwner) else None
    {
      if job >= |jobs| {
        return Some(JobNotFound);
      }
      if jobs[job].recruiter != recruiter {
        return Some(NotOwner);
      }
      return None;
    }

    method Create(recruiter: nat, stages: StagesInput) returns (refusal: Option<Refusal>)
      modifies this`jobs
      ensures Tables() == Next(directory, old(Tables()), CreateJob(recruiter, stages))
      ensures refusal == Refused(Handle(directory, old(Tables()), CreateJob(recruiter, stages)))
      ensures old(Inv(Tables())) ==> Inv(Tables())
      ensures IsListAnswer(stages, refusal)
      ensures refusal.Some? ==> jobs == old(jobs)
      ensures refusal.None? ==>
                && |jobs| == |old(jobs)| + 1 && old(jobs) <= jobs
                && var job := jobs[|old(jobs)|];
                   job.recruiter == recruiter && job.status.DRAFT? && IsNewList(|old(jobs)|, stages, job.stages)
    {
      ListAnswered(stages);
      NextKeepsInvIf(directory, Tables(), CreateJob(recruiter, stages));
      var parsed := ParseStages(stages);
      if parsed.Err? {
        return Some(parsed.error);
      }
      NewListStored(|jobs|, stages);
      jobs := jobs + [JobRow(recruiter, DRAFT, StoreStages(|jobs|, parsed.value))];
      return None;
    }

    method Publish(recruiter: nat, job: nat) returns (refusal: Option<Refusal>)
      modifies this`jobs
      ensures Tables() == Next(directory, old(Tables()), PublishJob(recruiter, job))
      ensures refusal == Refused(Handle(directory, old(Tables()), PublishJob(recruiter, job)))
      ensures old(Inv(Tables())) ==> Inv(Tables())
      ensures refusal == if job >= |old(jobs)| then Some(JobNotFound)
                         else if old(jobs)[job].recruiter != recruiter then Some(NotOwner)
                         else if !old(jobs)[job].status.DRAFT? then Some(NotDraft)
                         else if old(jobs)[job].stages == [] then Some(NoStagesToPublish) else None
      ensures jobs == if refusal.Some? then old(jobs) else old(jobs)[job := old(jobs)[job].(status := PUBLISHED)]
    {
      NextKeepsInvIf(directory, Tables(), PublishJob(recruiter, job));
      refusal := RequireOwned(job, recruiter);
      if refusal.Some? {
        return;
      }
      if !jobs[job].status.DRAFT? {
        return Some(NotDraft);
      }
      if |jobs[job].stages| == 0 {
        return Some(NoStagesToPublish);
      }
      jobs := jobs[job := jobs[job].(status := PUBLISHED)];
    }

    method Close(recruiter: nat, job: nat) returns (refusal: Option<Refusal>)
      modifies this`jobs
      ensures Tables() == Next(directory, old(Tables()), CloseJob(recruiter, job))
      ensures refusal == Refused(Handle(directory, old(Tables()), CloseJob(recruiter, job)))
      ensures old(Inv(Tables())) ==> Inv(Tables())
      ensures refusal == if job >= |old(jobs)| then Some(JobNotFound)
                         else if old(jobs)[job].recruiter != recruiter then Some(NotOwner)
                         else if old(jobs)[job].status.CLOSED? then Some(AlreadyClosed) else None
      ensures jobs == if refusal.Some? then old(jobs) else old(jobs)[job := old(jobs)[job].(status := CLOSED)]
    {
      NextKeepsInvIf(directory, Tables(), CloseJob(recruiter, job));
      refusal := RequireOwned(job, recruiter);
      if refusal.Some? {
        return;
      }
      if jobs[job].status.CLOSED? {
        return Some(AlreadyClosed);
      }
      jobs := jobs[job := jobs[job].(status := CLOSED)];
    }

    method AddStageTo(recruiter: nat, job: nat, name: Option<string>, isTerminal: bool)
      returns (refusal: Option<Refusal>)
      modifies this`jobs
      ensures Tables() == Next(directory, old(Tables()), AddJobStage(recruiter, job, name, isTerminal))
      ensures refusal == Refused(Handle(directory, old(Tables()), AddJobStage(recruiter, job, name, isTerminal)))
      ensures old(Inv(Tables())) ==> Inv(Tables())
      ensures refusal == if job >= |old(jobs)| then Some(JobNotFound)
                         else if old(jobs)[job].recruiter != recruiter then Some(NotOwner)
                         else if old(jobs)[job].status.CLOSED? then Some(JobClosed)
                         else if name.None? || Trim(name.value) == "" then Some(StageNameRequired)
                         else if exists i | 0 <= i < |old(jobs)[job].stages| ::
                                SameLower(old(jobs)[job].stages[i].name, Trim(name.value)) then Some(StageNameTaken)
                         else None
      ensures refusal.Some? ==> jobs == old(jobs)
      ensures refusal.None? && old(Inv(Tables())) ==>
                && job < |old(jobs)| && name.Some?
                && var stages := old(jobs)[job].stages;
                   var added := Stage(StageId(job, |stages|), Trim(name.value), |stages| + 1, isTerminal);
                   jobs == old(jobs)[job := old(jobs)[job].(stages := stages + [added])]
    {
      if Inv(Tables()) && job < |jobs| { MaxOrderOfNumbered(jobs[job].stages); }
      NextKeepsInvIf(directory, Tables(), AddJobStage(recruiter, job, name, isTerminal));
      refusal := RequireOwned(job, recruiter);
      if refusal.Some? {
        return;
      }
      if jobs[job].status.CLOSED? {
        return Some(JobClosed);
      }
      if name.None? || Trim(name.value) == "" {
        return Some(StageNameRequired);
      }
      var trimmed, stages := Trim(name.value), jobs[job].stages;
      if NameTaken(stages, trimmed, None) {
        return Some(StageNameTaken);
      }
      var stage := Stage(StageId(job, |stages|), trimmed, MaxOrder(stages) + 1, isTerminal);
      jobs := jobs[job := jobs[job].(stages := stages + [stage])];
    }

    method UpdateStageOf(recruiter: nat, job: nat, stage: StageId, name: Option<Option<string>>, flag: Option<bool>)
      returns (refusal: Option<Refusal>)
      modifies this`jobs
      ensures Tables() == Next(directory, old(Tables()), UpdateJobStage(recruiter, job, stage, name, flag))
      ensures refusal == Refused(Handle(directory, old(Tables()), UpdateJobStage(recruiter, job, stage, name, flag)))
      ensures old(Inv(Tables())) ==> Inv(Tables())
      ensures old(Inv(Tables())) ==>
                refusal == if job >= |old(jobs)| then Some(JobNotFound)
                           else if old(jobs)[job].recruiter != recruiter then Some(NotOwner)
                           else if old(jobs)[job].status.CLOSED? then Some(JobClosed)
                           else if stage.job != job || stage.number >= |old(jobs)[job].stages| then Some(StageNotFound)
                           else if name.None? then None
                           else if name.value.None? || Trim(name.value.value) == "" then Some(StageNameRequired)
                           else if exists i | 0 <= i < |old(jobs)[job].stages| && i != stage.number ::
                                  SameLower(old(jobs)[job].stages[i].name, Trim(name.value.value))
                             then Some(StageNameTaken)
                           else None
      ensures refusal.Some? ==> jobs == old(jobs)
      ensures refusal.None? && old(Inv(Tables())) ==>
                && job < |old(jobs)| && stage.number < |old(jobs)[job].stages| && (name.Some? ==> name.value.Some?)
                && var stages := old(jobs)[job].stages;
                   var updated := Stage(stages[stage.number].id,
                                        if name.Some? then Trim(name.value.value) else stages[stage.number].name,
                                        stages[stage.number].order,
                                        if flag.Some? then flag.value else stages[stage.number].isTerminal);
                   jobs == old(jobs)[job := old(jobs)[job].(stages := stages[stage.number := updated])]
    {
      if Inv(Tables()) && job < |jobs| { FindInOk(job, jobs[job].stages, stage); }
      NextKeepsInvIf(directory, Tables(), UpdateJobStage(recruiter, job, stage, name, flag));
      refusal := RequireOwned(job, recruiter);
      if refusal.Some? {
        return;
      }
      if jobs[job].status.CLOSED? {
        return Some(JobClosed);
      }
      var stages := jobs[job].stages;
      var found := FindById(stages, stage);
      if found.None? {
        return Some(StageNotFound);
      }
      var updated := stages[found.value];
      if name.Some? {
        if name.value.None? || Trim(name.value.value) == "" {
          return Some(StageNameRequired);
        }
        if NameTaken(stages, Trim(name.value.value), Some(stage)) {
          return Some(StageNameTaken);
        }
        updated := updated.(name := Trim(name.value.value));
      }
      if flag.Some? {
        updated := updated.(isTerminal := flag.value);
      }
      jobs := jobs[job := jobs[job].(stages := stages[found.value := updated])];
    }

    method ApplyToJob(user: nat, job: nat, resume: Option<nat>, queued: bool) returns (refusal: Option<Refusal>)
      modifies this`apps, this`history, this`rankQueue
      ensures Tables() == Next(directory, old(Tables()), Apply(user, job, resume, queued))
      ensures refusal == Refused(Handle(directory, old(Tables()), Apply(user, job, resume, queued)))
      ensures old(Inv(Tables())) ==> Inv(Tables())
      ensures refusal == if user !in directory.candidates then Some(ProfileMissing)
                         else if job >= |jobs| || !jobs[job].status.PUBLISHED? then Some(JobNotFound)
                         else if resume.None? then Some(ResumeRequired)
                         else if resume.value !in directory.resumes
                                 || directory.resumes[resume.value] != directory.candidates[user]
                           then Some(ResumeNotYours)
                         else if exists a | 0 <= a < |old(apps)| ::
                                old(apps)[a].candidate == directory.candidates[user] && old(apps)[a].job == job
                           then Some(AlreadyApplied)
                         else if jobs[job].stages == [] then Some(NoPipelineStages) else None
      ensures refusal.Some? ==> Tables() == old(Tables())
      ensures refusal.None? ==>
                && user in directory.candidates && job < |jobs| && resume.Some? && |apps| == |old(apps)| + 1
                && var n, first := |old(apps)|, apps[|old(apps)|].current;
                   && IsFirstStage(jobs[job].stages, first)
                   && apps == old(apps) + [AppRow(directory.candidates[user], job, resume.value, first)]
                   && history == old(history) + [HistoryRow(n, None, first, user)]
                   && rankQueue == old(rankQueue) + (if queued then [n] else [])
    {
      if job < |jobs| { LowestIs(jobs[job].stages); }
      NextKeepsInvIf(directory, Tables(), Apply(user, job, resume, queued));
      if user !in directory.candidates {
        return Some(ProfileMissing);
      }
      var candidate := directory.candidates[user];
      if job >= |jobs| || !jobs[job].status.PUBLISHED? {
        return Some(JobNotFound);
      }
      if resume.None? {
        return Some(ResumeRequired);
      }
      if resume.value !in directory.resumes || directory.resumes[resume.value] != candidate {
        return Some(ResumeNotYours);
      }
      if Applied(Tables(), candidate, job) {
        return Some(AlreadyApplied);
      }
      var first := LowestStage(jobs[job].stages);
      if first.None? {
        return Some(NoPipelineStages);
      }
      refusal := None;
      var app := |apps|;
      apps := apps + [AppRow(candidate, job, resume.value, first.value.id)];
      history := history + [HistoryRow(app, None, first.value.id, user)];
      if queued {
        rankQueue := rankQueue + [app];
      }
    }

    /** The repository's transaction: the stage, the history row and the audit entry. From the current
        stage it extends a history that replays to one that replays; other applications' stay. */
    method MoveToStage(app: nat, from: StageId, to: StageId, changedBy: nat)
      requires app < |apps|
      modifies this`apps, this`history, this`audit
      ensures Tables() == CommitMove(old(Tables()), AuditRow(app, from, to, changedBy))
      ensures MoveExtends(old(Tables()), Tables(), app, from, to)
      ensures apps == old(apps)[app := old(apps)[app].(current := to)]
      ensures history == old(history) + [HistoryRow(app, Some(from), to, changedBy)]
      ensures audit == old(audit) + [AuditRow(app, from, to, changedBy)]
    {
      CommitMoveExtends(Tables(), AuditRow(app, from, to, changedBy));
      apps := apps[app := apps[app].(current := to)];
      history := history + [HistoryRow(app, Some(from), to, changedBy)];
      audit := audit + [AuditRow(app, from, to, changedBy)];
    }

    method MoveApplicationToStage(recruiter: nat, app: nat, target: Option<StageId>) returns (refusal: Option<Refusal>)
      modifies this`apps, this`history, this`audit
      ensures Tables() == Next(directory, old(Tables()), Move(recruiter, app, target))
      ensures refusal == Refused(Handle(directory, old(Tables()), Move(recruiter, app, target)))
      ensures old(Inv(Tables())) ==> Inv(Tables())
      ensures old(Inv(Tables())) ==> refusal == MoveRefusal(old(Tables()), recruiter, app, target)
      ensures refusal.Some? ==> Tables() == old(Tables())
      ensures refusal.None? ==>
                && app < |old(apps)| && target.Some?
                && var from, to := old(apps)[app].current, target.value;
                   && apps == old(apps)[app := old(apps)[app].(current := to)]
                   && history == old(history) + [HistoryRow(app, Some(from), to, recruiter)]
                   && audit == old(audit) + [AuditRow(app, from, to, recruiter)]
    {
      if Inv(Tables()) { MoveRefusedExactly(Tables(), recruiter, app, target); }
      NextKeepsInvIf(directory, Tables(), Move(recruiter, app, target));
      if target.None? {
        return Some(StageRequired);
      }
      if app >= |apps| {
        return Some(ApplicationNotFound);
      }
      var row := apps[app];
      refusal := RequireOwned(row.job, recruiter);
      if refusal.Some? {
        return;
      }
      var found := FindById(jobs[row.job].stages, target.value);
      if found.None? {
        return Some(StageNotOnJob);
      }
      var current := StageRow(Tables(), row.current);
      if current.None? {
        return Some(StageNotFound);
      }
      var error := CheckTransition(current.value, jobs[row.job].stages[found.value]);
      if error.Some? {
        return Some(Transition(error.value));
      }
      MoveToStage(app, row.current, target.value, recruiter);
    }
  }
}
