/** What a request of the interleaved pipeline has read, against what it finds when it commits. */
module PipelineReads {
  import opened Wrappers
  import opened StageRule
  import opened JobStages
  import opened Pipeline
  import Races = PipelineRaces

  // ---- The last write since a request's first read.

  /** Some event from `k` on sets it, and none after that one resets it. */
  ghost predicate SetSince(sets: nat -> bool, resets: nat -> bool, k: nat, n: nat) {
    exists m: nat | k <= m < n && sets(m) :: forall i: nat | m < i < n :: !resets(i)
  }

  /** From `k` on, what holds is set and reset by single events. */
  ghost predicate IsWritten(holds: nat -> bool, sets: nat -> bool, resets: nat -> bool, k: nat, n: nat) {
    forall m: nat | k <= m < n :: holds(m + 1) == (sets(m) || (holds(m) && !resets(m)))
  }

  /** What is set and reset by single events, and does not hold at `k`, holds at `n` exactly if the last
      event in between that sets or resets it sets it. */
  lemma {:induction false} LastWriteDecides(holds: nat -> bool, sets: nat -> bool, resets: nat -> bool, k: nat, n: nat)
    requires k <= n && !holds(k) && IsWritten(holds, sets, resets, k, n)
    ensures holds(n) <==> SetSince(sets, resets, k, n)
  {
    if k < n {
      var last := n - 1;
      LastWriteDecides(holds, sets, resets, k, last);
      assert holds(last + 1) == (sets(last) || (holds(last) && !resets(last)));
      if SetSince(sets, resets, k, n) && !sets(last) {
        var m: nat :| k <= m < n && sets(m) && forall i: nat | m < i < n :: !resets(i);
        assert m < last && !resets(last);
      }
    }
  }

  lemma RunStep(dir: Directory, events: seq<Races.Event>, m: nat)
    requires m < |events|
    ensures Races.Run(dir, Races.START, events[..m + 1])
         == Races.Next(dir, Races.Run(dir, Races.START, events[..m]), events[m])
    ensures Races.Inv(Races.Run(dir, Races.START, events[..m]))
  {
    assert events[..m + 1][..m] == events[..m];
    Races.StartInv();
    Races.RunKeepsInv(dir, Races.START, events[..m]);
  }

  /** The event that begins pending request `p`, and performs its first read. */
  predicate BeginsAt(dir: Directory, events: seq<Races.Event>, k: nat, p: nat) {
    && k < |events|
    && |Races.Run(dir, Races.START, events[..k]).pending| == p
    && |Races.Run(dir, Races.START, events[..k + 1]).pending| == p + 1
  }

  lemma BeginsEarlier(dir: Directory, events: seq<Races.Event>, k: nat, p: nat)
    requires |events| > 0 && BeginsAt(dir, events[..|events| - 1], k, p)
    ensures BeginsAt(dir, events, k, p) && events[..|events| - 1][..k] == events[..k]
  {
    var before := events[..|events| - 1];
    assert before[..k] == events[..k] && before[..k + 1] == events[..k + 1];
  }

  lemma BeginsNow(dir: Directory, events: seq<Races.Event>, p: nat)
    requires |events| > 0 && |Races.Run(dir, Races.START, events[..|events| - 1]).pending| == p
    requires |Races.Run(dir, Races.START, events).pending| == p + 1
    ensures BeginsAt(dir, events, |events| - 1, p)
  {
    assert events[..|events|] == events;
  }

  /** A step adds at most one pending request, and never drops one. */
  lemma PendingGrowsByOne(dir: Directory, s: Races.State, event: Races.Event)
    ensures |s.pending| <= |Races.Next(dir, s, event).pending| <= |s.pending| + 1
  {
  }

  lemma {:induction false} PendingMonotone(dir: Directory, events: seq<Races.Event>, i: nat, k: nat)
    requires i <= k <= |events|
    ensures |Races.Run(dir, Races.START, events[..i]).pending| <= |Races.Run(dir, Races.START, events[..k]).pending|
  {
    if i < k {
      PendingMonotone(dir, events, i, k - 1);
      RunStep(dir, events, k - 1);
      PendingGrowsByOne(dir, Races.Run(dir, Races.START, events[..k - 1]), events[k - 1]);
    }
  }

  lemma BeginsOnce(dir: Directory, events: seq<Races.Event>, k: nat, other: nat, p: nat)
    requires BeginsAt(dir, events, k, p) && BeginsAt(dir, events, other, p)
    ensures other == k
  {
    if k < other { PendingMonotone(dir, events, k + 1, other); }
    if other < k { PendingMonotone(dir, events, other + 1, k); }
  }

  /** Since the first read of pending request `p`, some event sets it, and none after that resets it. */
  ghost predicate SetSinceRead(dir: Directory, events: seq<Races.Event>, p: nat, sets: nat -> bool,
                               resets: nat -> bool)
  {
    exists k | 0 <= k < |events| && BeginsAt(dir, events, k, p) :: SetSince(sets, resets, k, |events|)
  }

  lemma SetSinceExactly(dir: Directory, events: seq<Races.Event>, p: nat, holds: nat -> bool, sets: nat -> bool,
                        resets: nat -> bool, k: nat)
    requires BeginsAt(dir, events, k, p) && !holds(k) && IsWritten(holds, sets, resets, k, |events|)
    ensures holds(|events|) <==> SetSinceRead(dir, events, p, sets, resets)
  {
    LastWriteDecides(holds, sets, resets, k, |events|);
    if SetSinceRead(dir, events, p, sets, resets) {
      var other :|
        0 <= other < |events| && BeginsAt(dir, events, other, p) && SetSince(sets, resets, other, |events|);
      BeginsOnce(dir, events, k, other, p);
    }
  }

  // ---- Jobs closed in the meantime.

  /** Whether job `j` is closed after so many events. */
  function Closed(dir: Directory, events: seq<Races.Event>, j: nat): nat -> bool {
    (n: nat) =>
      n <= |events| && j < |Races.Run(dir, Races.START, events[..n]).db.jobs|
      && Races.Run(dir, Races.START, events[..n]).db.jobs[j].status.CLOSED?
  }

  /** The job that a pending request has checked to be open. */
  function JobOf(p: Races.Pending): Option<nat> {
    match p
    case ApplyRead(_, job, _, _, _, _) => Some(job)
    case ApplyChecked(row, _, _) => Some(row.job)
    case StatusChecked(job, _) => Some(job)
    case AddChecked(job, _, _, _) => Some(job)
    case EditChecked(job, _, _, _) => Some(job)
    case MoveRead(_, _, _, _) => None
    case MoveChecked(_, _) => None
    case Gone => None
  }

  lemma JobOfStays(dir: Directory, s: Races.State, event: Races.Event, p: nat)
    requires p < |s.pending| && JobOf(Races.Next(dir, s, event).pending[p]).Some?
    ensures JobOf(s.pending[p]) == JobOf(Races.Next(dir, s, event).pending[p])
  {
  }

  lemma OpenAtFirstRead(dir: Directory, s: Races.State, event: Races.Event)
    requires |Races.Next(dir, s, event).pending| == |s.pending| + 1
    requires JobOf(Races.Next(dir, s, event).pending[|s.pending|]).Some?
    ensures var j := JobOf(Races.Next(dir, s, event).pending[|s.pending|]).value;
            j < |s.db.jobs| && !s.db.jobs[j].status.CLOSED?
  {
  }

  lemma {:induction false} OpenWhenRead(dir: Directory, events: seq<Races.Event>, p: nat) returns (k: nat)
    requires p < |Races.Run(dir, Races.START, events).pending|
    requires JobOf(Races.Run(dir, Races.START, events).pending[p]).Some?
    ensures BeginsAt(dir, events, k, p)
    ensures !Closed(dir, events, JobOf(Races.Run(dir, Races.START, events).pending[p]).value)(k)
  {
    var before, n := events[..|events| - 1], |events| - 1;
    var s := Races.Run(dir, Races.START, before);
    PendingGrowsByOne(dir, s, events[n]);
    if p < |s.pending| {
      JobOfStays(dir, s, events[n], p);
      k := OpenWhenRead(dir, before, p);
      BeginsEarlier(dir, events, k, p);
    } else {
      k := n;
      BeginsNow(dir, events, p);
      OpenAtFirstRead(dir, s, events[n]);
    }
  }

  /** This event commits a change of the status of job `j`. */
  predicate WritesStatus(s: Races.State, event: Races.Event, j: nat, status: JobStatus) {
    event.Advance? && event.p < |s.pending| && s.pending[event.p] == Races.StatusChecked(j, status)
  }

  function StatusWrites(dir: Directory, events: seq<Races.Event>, j: nat, status: JobStatus): nat -> bool {
    (m: nat) => m < |events| && WritesStatus(Races.Run(dir, Races.START, events[..m]), events[m], j, status)
  }

  lemma ClosedStep(dir: Directory, events: seq<Races.Event>, j: nat, m: nat)
    requires m < |events|
    ensures var closed := Closed(dir, events, j);
            closed(m + 1)
            == (StatusWrites(dir, events, j, CLOSED)(m)
                || (closed(m) && !StatusWrites(dir, events, j, PUBLISHED)(m)))
  {
    RunStep(dir, events, m);
    var s := Races.Run(dir, Races.START, events[..m]);
    assert events[m].Advance? && events[m].p < |s.pending| ==> Races.PendingOk(s.db, s.pending[events[m].p]);
  }

  lemma ClosedIsWritten(dir: Directory, events: seq<Races.Event>, j: nat, k: nat)
    ensures IsWritten(Closed(dir, events, j), StatusWrites(dir, events, j, CLOSED),
                      StatusWrites(dir, events, j, PUBLISHED), k, |events|)
  {
    forall m: nat | k <= m < |events|
      ensures Closed(dir, events, j)(m + 1)
              == (StatusWrites(dir, events, j, CLOSED)(m)
                  || (Closed(dir, events, j)(m) && !StatusWrites(dir, events, j, PUBLISHED)(m)))
    {
      ClosedStep(dir, events, j, m);
    }
  }

  /** After request `p` first read it, a closing of job `j` was committed, and no publication of it since. */
  ghost predicate ClosedSinceRead(dir: Directory, events: seq<Races.Event>, p: nat, j: nat) {
    SetSinceRead(dir, events, p, StatusWrites(dir, events, j, CLOSED), StatusWrites(dir, events, j, PUBLISHED))
  }

  /** Whatever interleaves: a pending application, publication, closing or stage change finds its job
      closed exactly when, since that request has read it, a closing was committed and no publication
      after the closing. */
  lemma ClosedAtCommitExactly(dir: Directory, events: seq<Races.Event>, p: nat)
    requires p < |Races.Run(dir, Races.START, events).pending|
    requires JobOf(Races.Run(dir, Races.START, events).pending[p]).Some?
    ensures var j := JobOf(Races.Run(dir, Races.START, events).pending[p]).value;
            Closed(dir, events, j)(|events|) <==> ClosedSinceRead(dir, events, p, j)
  {
    var j := JobOf(Races.Run(dir, Races.START, events).pending[p]).value;
    var k := OpenWhenRead(dir, events, p);
    ClosedIsWritten(dir, events, j, k);
    SetSinceExactly(dir, events, p, Closed(dir, events, j), StatusWrites(dir, events, j, CLOSED),
                    StatusWrites(dir, events, j, PUBLISHED), k);
  }

  /** An application is inserted on a closed job if and only if, between the request's job read and its
      insert, a closing of the job was committed and no publication after it. */
  lemma InsertedOnClosedExactly(dir: Directory, events: seq<Races.Event>, p: nat)
    requires var s := Races.Run(dir, Races.START, events);
             && p < |s.pending| && s.pending[p].ApplyChecked?
             && CommitApply(s.db, s.pending[p].row, s.pending[p].user, s.pending[p].queued).Ok?
    ensures var s := Races.Run(dir, Races.START, events);
            var t, j := Races.Next(dir, s, Races.Advance(p)).db, s.pending[p].row.job;
            && t.apps == s.db.apps + [s.pending[p].row] && j < |t.jobs|
            && (t.jobs[j].status.CLOSED? <==> ClosedSinceRead(dir, events, p, j))
  {
    var s := Races.Run(dir, Races.START, events);
    Races.StartInv();
    Races.RunKeepsInv(dir, Races.START, events);
    assert Races.PendingOk(s.db, s.pending[p]);
    ClosedAtCommitExactly(dir, events, p);
    assert events[..|events|] == events;
  }

  lemma Then(dir: Directory, s: Races.State, events: seq<Races.Event>, event: Races.Event, before: Races.State,
             after: Races.State)
    requires Races.Run(dir, s, events) == before && Races.Next(dir, before, event) == after
    ensures Races.Run(dir, s, events + [event]) == after
  {
    assert (events + [event])[..|events|] == events;
  }

  /** It does happen: the owner closes the job between a candidate's read and insert. */
  lemma ApplicationsReachClosedJobs(dir: Directory, db: Db, user: nat, j: nat, resume: nat)
    returns (events: seq<Races.Event>)
    requires TablesOk(db) && CheckApply(dir, db, user, j, Some(resume)).Ok?
    ensures var t := Races.Run(dir, Races.State(db, []), events).db;
            && t.jobs == db.jobs[j := db.jobs[j].(status := CLOSED)]
            && t.apps == db.apps + [CheckApply(dir, db, user, j, Some(resume)).value]
  {
    var row, s := CheckApply(dir, db, user, j, Some(resume)).value, Races.State(db, []);
    var read := Races.ApplyRead(row.candidate, j, resume, LowestStage(db.jobs[j].stages), user, true);
    var checked := Races.ApplyChecked(row, user, true);
    var close, closed := CloseJob(db.jobs[j].recruiter, j), SetStatus(db, j, CLOSED);
    var s1 := Races.State(db, [read]);
    var s2 := Races.State(db, [read, Races.StatusChecked(j, CLOSED)]);
    var s3 := Races.State(closed, [read, Races.Gone]);
    var s4 := Races.State(closed, [checked, Races.Gone]);
    Then(dir, s, [], Races.BeginApply(user, j, Some(resume), true), s, s1);
    events := [] + [Races.BeginApply(user, j, Some(resume), true)];
    Then(dir, s, events, Races.BeginJob(close), s1, s2);
    events := events + [Races.BeginJob(close)];
    Then(dir, s, events, Races.Advance(1), s2, s3);
    events := events + [Races.Advance(1)];
    Then(dir, s, events, Races.Advance(0), s3, s4);
    events := events + [Races.Advance(0)];
    Then(dir, s, events, Races.Advance(0), s4, Races.Next(dir, s4, Races.Advance(0)));
    events := events + [Races.Advance(0)];
  }

  /** Nor is closed final: a publication that had read the draft writes over the closing. */
  lemma RacingPublishReopens(dir: Directory, db: Db, j: nat) returns (events: seq<Races.Event>)
    requires TablesOk(db) && j < |db.jobs| && db.jobs[j].status.DRAFT?
    ensures |events| == 4
    ensures Races.Run(dir, Races.State(db, []), events[..3]).db == SetStatus(db, j, CLOSED)
    ensures Races.Run(dir, Races.State(db, []), events).db == SetStatus(SetStatus(db, j, CLOSED), j, PUBLISHED)
  {
    var owner, s := db.jobs[j].recruiter, Races.State(db, []);
    var publish, close := Races.BeginJob(PublishJob(owner, j)), Races.BeginJob(CloseJob(owner, j));
    var s1 := Races.State(db, [Races.StatusChecked(j, PUBLISHED)]);
    var s2 := Races.State(db, [Races.StatusChecked(j, PUBLISHED), Races.StatusChecked(j, CLOSED)]);
    var s3 := Races.State(SetStatus(db, j, CLOSED), [Races.StatusChecked(j, PUBLISHED), Races.Gone]);
    assert WellPlaced(j, db.jobs[j].stages);
    Then(dir, s, [], publish, s, s1);
    Then(dir, s, [] + [publish], close, s1, s2);
    events := [] + [publish] + [close];
    Then(dir, s, events, Races.Advance(1), s2, s3);
    events := events + [Races.Advance(1)];
    Then(dir, s, events, Races.Advance(0), s3, Races.Next(dir, s3, Races.Advance(0)));
    assert (events + [Races.Advance(0)])[..3] == events;
    events := events + [Races.Advance(0)];
  }

  // ---- Flags raised in the meantime.

  /** Whether a stage is terminal after so many events. */
  function Flag(dir: Directory, events: seq<Races.Event>, id: StageId): nat -> bool {
    (n: nat) =>
      n <= |events| && StageRow(Races.Run(dir, Races.START, events[..n]).db, id).Some?
      && StageRow(Races.Run(dir, Races.START, events[..n]).db, id).value.isTerminal
  }

  /** The stage row that a pending move read for its application. */
  function StageRead(p: Races.Pending): Option<Stage> {
    match p
    case MoveRead(_, current, _, _) => Some(current)
    case MoveChecked(_, current) => Some(current)
    case ApplyRead(_, _, _, _, _, _) => None
    case ApplyChecked(_, _, _) => None
    case StatusChecked(_, _) => None
    case AddChecked(_, _, _, _) => None
    case EditChecked(_, _, _, _) => None
    case Gone => None
  }

  lemma StageReadStays(dir: Directory, s: Races.State, event: Races.Event, p: nat)
    requires p < |s.pending| && StageRead(Races.Next(dir, s, event).pending[p]).Some?
    ensures StageRead(s.pending[p]) == StageRead(Races.Next(dir, s, event).pending[p])
  {
  }

  /** The application that a pending move is about. */
  function MovedApp(p: Races.Pending): Option<nat> {
    match p
    case MoveRead(app, _, _, _) => Some(app)
    case MoveChecked(move, _) => Some(move.app)
    case ApplyRead(_, _, _, _, _, _) => None
    case ApplyChecked(_, _, _) => None
    case StatusChecked(_, _) => None
    case AddChecked(_, _, _, _) => None
    case EditChecked(_, _, _, _) => None
    case Gone => None
  }

  lemma MovedAppStays(dir: Directory, s: Races.State, event: Races.Event, p: nat)
    requires p < |s.pending| && MovedApp(Races.Next(dir, s, event).pending[p]).Some?
    ensures MovedApp(s.pending[p]) == MovedApp(Races.Next(dir, s, event).pending[p])
  {
  }

  /** The row `current` is the stage of application `a`. */
  predicate ReadsStage(db: Db, a: nat, current: Stage) {
    a < |db.apps| && db.apps[a].current == current.id && StageRow(db, current.id) == Some(current)
  }

  lemma StageReadAtBegin(dir: Directory, s: Races.State, event: Races.Event)
    requires |Races.Next(dir, s, event).pending| == |s.pending| + 1
    requires StageRead(Races.Next(dir, s, event).pending[|s.pending|]).Some?
    ensures var q := Races.Next(dir, s, event).pending[|s.pending|];
            ReadsStage(s.db, MovedApp(q).value, StageRead(q).value)
  {
    Races.StageRowHasId(s.db, s.db.apps[event.app].current);
  }

  /** The stage kept with a pending move is that of its application at the move's first read. */
  lemma {:induction false} StageWhenRead(dir: Directory, events: seq<Races.Event>, p: nat) returns (k: nat)
    requires p < |Races.Run(dir, Races.START, events).pending|
    requires StageRead(Races.Run(dir, Races.START, events).pending[p]).Some?
    ensures BeginsAt(dir, events, k, p)
    ensures var q := Races.Run(dir, Races.START, events).pending[p];
            ReadsStage(Races.Run(dir, Races.START, events[..k]).db, MovedApp(q).value, StageRead(q).value)
  {
    var before, n := events[..|events| - 1], |events| - 1;
    var s := Races.Run(dir, Races.START, before);
    PendingGrowsByOne(dir, s, events[n]);
    if p < |s.pending| {
      StageReadStays(dir, s, events[n], p);
      MovedAppStays(dir, s, events[n], p);
      k := StageWhenRead(dir, before, p);
      BeginsEarlier(dir, events, k, p);
    } else {
      k := n;
      BeginsNow(dir, events, p);
      StageReadAtBegin(dir, s, events[n]);
    }
  }

  /** This event commits an update that sets the flag of stage `id`. */
  predicate WritesFlag(s: Races.State, event: Races.Event, id: StageId, flag: bool) {
    && event.Advance? && event.p < |s.pending|
    && match s.pending[event.p]
       case EditChecked(job, stage, newName, written) =>
         stage == id && written == Some(flag) && Races.EditGoesThrough(s.db, job, id, newName)
       case ApplyRead(_, _, _, _, _, _) => false
       case ApplyChecked(_, _, _) => false
       case MoveRead(_, _, _, _) => false
       case MoveChecked(_, _) => false
       case StatusChecked(_, _) => false
       case AddChecked(_, _, _, _) => false
       case Gone => false
  }

  function FlagWrites(dir: Directory, events: seq<Races.Event>, id: StageId, flag: bool): nat -> bool {
    (m: nat) => m < |events| && WritesFlag(Races.Run(dir, Races.START, events[..m]), events[m], id, flag)
  }

  predicate IsTerminalRow(db: Db, id: StageId) {
    StageRow(db, id).Some? && StageRow(db, id).value.isTerminal
  }

  /** A stage that is there stays, and its flag is as the step writes it, if it does. */
  lemma NextFlag(dir: Directory, s: Races.State, event: Races.Event, id: StageId)
    requires Races.Inv(s) && StageRow(s.db, id).Some?
    ensures var after := Races.Next(dir, s, event).db;
            && StageRow(after, id).Some?
            && IsTerminalRow(after, id)
               == (WritesFlag(s, event, id, true) || (IsTerminalRow(s.db, id) && !WritesFlag(s, event, id, false)))
  {
    Races.NextDb(dir, s, event);
    var after := Races.Next(dir, s, event).db;
    assert WellPlaced(id.job, s.db.jobs[id.job].stages) && WellPlaced(id.job, after.jobs[id.job].stages);
    FindInOk(id.job, s.db.jobs[id.job].stages, id);
    FindInOk(id.job, after.jobs[id.job].stages, id);
    if event.Advance? && event.p < |s.pending| { AdvanceFlag(s, event.p, id); }
  }

  lemma AdvanceFlag(s: Races.State, p: nat, id: StageId)
    requires Races.Inv(s) && p < |s.pending| && id.job < |s.db.jobs| && id.number < |s.db.jobs[id.job].stages|
    ensures var after := Races.AdvancePending(s, p).db;
            && id.job < |after.jobs| && id.number < |after.jobs[id.job].stages|
            && after.jobs[id.job].stages[id.number].isTerminal
               == (WritesFlag(s, Races.Advance(p), id, true)
                   || (s.db.jobs[id.job].stages[id.number].isTerminal && !WritesFlag(s, Races.Advance(p), id, false)))
  {
    assert Races.PendingOk(s.db, s.pending[p]);
    if s.pending[p].EditChecked? {
      var job, stage := s.pending[p].job, s.pending[p].id;
      assert WellPlaced(job, s.db.jobs[job].stages);
      FindInOk(job, s.db.jobs[job].stages, stage);
    }
  }

  lemma {:induction false} RowStays(dir: Directory, events: seq<Races.Event>, id: StageId, k: nat, m: nat)
    requires k <= m <= |events| && StageRow(Races.Run(dir, Races.START, events[..k]).db, id).Some?
    ensures StageRow(Races.Run(dir, Races.START, events[..m]).db, id).Some?
  {
    if k < m {
      RowStays(dir, events, id, k, m - 1);
      RunStep(dir, events, m - 1);
      NextFlag(dir, Races.Run(dir, Races.START, events[..m - 1]), events[m - 1], id);
    }
  }

  lemma FlagStep(dir: Directory, events: seq<Races.Event>, id: StageId, k: nat, m: nat)
    requires k <= m < |events| && StageRow(Races.Run(dir, Races.START, events[..k]).db, id).Some?
    ensures Flag(dir, events, id)(m + 1)
         == (FlagWrites(dir, events, id, true)(m)
             || (Flag(dir, events, id)(m) && !FlagWrites(dir, events, id, false)(m)))
  {
    RowStays(dir, events, id, k, m);
    RunStep(dir, events, m);
    NextFlag(dir, Races.Run(dir, Races.START, events[..m]), events[m], id);
  }

  lemma FlagIsWritten(dir: Directory, events: seq<Races.Event>, id: StageId, k: nat)
    requires k <= |events| && StageRow(Races.Run(dir, Races.START, events[..k]).db, id).Some?
    ensures IsWritten(Flag(dir, events, id), FlagWrites(dir, events, id, true), FlagWrites(dir, events, id, false),
                      k, |events|)
  {
    forall m: nat | k <= m < |events|
      ensures Flag(dir, events, id)(m + 1)
              == (FlagWrites(dir, events, id, true)(m)
                  || (Flag(dir, events, id)(m) && !FlagWrites(dir, events, id, false)(m)))
    {
      FlagStep(dir, events, id, k, m);
    }
  }

  /** After move `p` first read it, an update was committed that raised the stage's flag, and none since that
      cleared it. */
  ghost predicate RaisedSinceRead(dir: Directory, events: seq<Races.Event>, p: nat, id: StageId) {
    SetSinceRead(dir, events, p, FlagWrites(dir, events, id, true), FlagWrites(dir, events, id, false))
  }

  /** The stage that a pending move has read is terminal now exactly when its flag was raised since. */
  lemma FlagAtCommitExactly(dir: Directory, events: seq<Races.Event>, p: nat)
    requires p < |Races.Run(dir, Races.START, events).pending|
    requires StageRead(Races.Run(dir, Races.START, events).pending[p]).Some?
    requires !StageRead(Races.Run(dir, Races.START, events).pending[p]).value.isTerminal
    ensures var id := StageRead(Races.Run(dir, Races.START, events).pending[p]).value.id;
            IsTerminalRow(Races.Run(dir, Races.START, events).db, id) <==> RaisedSinceRead(dir, events, p, id)
  {
    var id := StageRead(Races.Run(dir, Races.START, events).pending[p]).value.id;
    var k := StageWhenRead(dir, events, p);
    FlagIsWritten(dir, events, id, k);
    assert events[..|events|] == events;
    SetSinceExactly(dir, events, p, Flag(dir, events, id), FlagWrites(dir, events, id, true),
                    FlagWrites(dir, events, id, false), k);
  }

  lemma AtTerminalByFlag(db: Db, a: nat)
    requires TablesOk(db) && a < |db.apps|
    ensures StageRow(db, db.apps[a].current).Some?
    ensures AtTerminal(db, a) == IsTerminalRow(db, db.apps[a].current)
  {
    assert AppOk(db, db.apps[a]);
    FindInOk(db.apps[a].job, db.jobs[db.apps[a].job].stages, db.apps[a].current);
  }

  /** A move that is about to commit, while its application still is in the stage it had read, takes it out
      of a terminal stage if and only if that stage's flag was raised between the read and the commit. */
  lemma TimelyLeavesTerminalExactly(dir: Directory, events: seq<Races.Event>, p: nat)
    requires var s := Races.Run(dir, Races.START, events);
             && p < |s.pending| && s.pending[p].MoveChecked? && s.pending[p].move.app < |s.db.apps|
             && s.pending[p].move.from == s.db.apps[s.pending[p].move.app].current
    ensures var s := Races.Run(dir, Races.START, events);
            var move, current := s.pending[p].move, s.pending[p].current;
            && (AtTerminal(s.db, move.app) <==> RaisedSinceRead(dir, events, p, move.from))
            && StageRow(s.db, move.from).Some?
            && (AtTerminal(s.db, move.app) <==> StageRow(s.db, move.from).value.isTerminal != current.isTerminal)
  {
    var s := Races.Run(dir, Races.START, events);
    Races.StartInv();
    Races.RunKeepsInv(dir, Races.START, events);
    assert Races.PendingOk(s.db, s.pending[p]);
    AtTerminalByFlag(s.db, s.pending[p].move.app);
    FlagAtCommitExactly(dir, events, p);
  }

  // ---- Applications put into a terminal stage in the meantime.

  /** This event commits a move of application `a` into a stage that is, or is not, terminal then, or sets
      the flag of the stage that it is in so. */
  predicate PutsAt(s: Races.State, event: Races.Event, a: nat, terminal: bool) {
    || (Races.CommitsMoveOf(s, event, a) && IsTerminalRow(s.db, s.pending[event.p].move.to) == terminal)
    || (a < |s.db.apps| && WritesFlag(s, event, s.db.apps[a].current, terminal))
  }

  function Puts(dir: Directory, events: seq<Races.Event>, a: nat, terminal: bool): nat -> bool {
    (m: nat) => m < |events| && PutsAt(Races.Run(dir, Races.START, events[..m]), events[m], a, terminal)
  }

  /** Whether application `a` is in a terminal stage after so many events. */
  function Terminal(dir: Directory, events: seq<Races.Event>, a: nat): nat -> bool {
    (n: nat) => n <= |events| && AtTerminal(Races.Run(dir, Races.START, events[..n]).db, a)
  }

  lemma CommitPuts(db: Db, move: AuditRow)
    requires move.app < |db.apps| && TablesOk(CommitMove(db, move))
    ensures AtTerminal(CommitMove(db, move), move.app) == IsTerminalRow(db, move.to)
  {
    AtTerminalByFlag(CommitMove(db, move), move.app);
  }

  lemma NextTerminal(dir: Directory, s: Races.State, event: Races.Event, a: nat)
    requires Races.Inv(s) && a < |s.db.apps|
    ensures var after := Races.Next(dir, s, event).db;
            && a < |after.apps|
            && AtTerminal(after, a)
               == (PutsAt(s, event, a, true) || (AtTerminal(s.db, a) && !PutsAt(s, event, a, false)))
  {
    Races.NextDb(dir, s, event);
    if Races.CommitsMoveOf(s, event, a) {
      CommitPuts(s.db, s.pending[event.p].move);
    } else {
      AtTerminalByFlag(s.db, a);
      AtTerminalByFlag(Races.Next(dir, s, event).db, a);
      Races.CurrentChangesByMove(dir, s, event, a);
      NextFlag(dir, s, event, s.db.apps[a].current);
    }
  }

  lemma {:induction false} AppStays(dir: Directory, events: seq<Races.Event>, a: nat, k: nat, m: nat)
    requires k <= m <= |events| && a < |Races.Run(dir, Races.START, events[..k]).db.apps|
    ensures a < |Races.Run(dir, Races.START, events[..m]).db.apps|
  {
    if k < m {
      AppStays(dir, events, a, k, m - 1);
      RunStep(dir, events, m - 1);
      Races.NextDb(dir, Races.Run(dir, Races.START, events[..m - 1]), events[m - 1]);
    }
  }

  lemma TerminalStep(dir: Directory, events: seq<Races.Event>, a: nat, k: nat, m: nat)
    requires k <= m < |events| && a < |Races.Run(dir, Races.START, events[..k]).db.apps|
    ensures Terminal(dir, events, a)(m + 1)
         == (Puts(dir, events, a, true)(m) || (Terminal(dir, events, a)(m) && !Puts(dir, events, a, false)(m)))
  {
    AppStays(dir, events, a, k, m);
    RunStep(dir, events, m);
    NextTerminal(dir, Races.Run(dir, Races.START, events[..m]), events[m], a);
  }

  lemma TerminalIsWritten(dir: Directory, events: seq<Races.Event>, a: nat, k: nat)
    requires k <= |events| && a < |Races.Run(dir, Races.START, events[..k]).db.apps|
    ensures IsWritten(Terminal(dir, events, a), Puts(dir, events, a, true), Puts(dir, events, a, false), k, |events|)
  {
    forall m: nat | k <= m < |events|
      ensures Terminal(dir, events, a)(m + 1)
              == (Puts(dir, events, a, true)(m) || (Terminal(dir, events, a)(m) && !Puts(dir, events, a, false)(m)))
    {
      TerminalStep(dir, events, a, k, m);
    }
  }

  /** A checked move has read a stage that was not terminal. */
  lemma OpenStageWhenRead(dir: Directory, events: seq<Races.Event>, p: nat) returns (k: nat)
    requires p < |Races.Run(dir, Races.START, events).pending|
    requires Races.Run(dir, Races.START, events).pending[p].MoveChecked?
    ensures BeginsAt(dir, events, k, p)
    ensures var a := Races.Run(dir, Races.START, events).pending[p].move.app;
            a < |Races.Run(dir, Races.START, events[..k]).db.apps| && !Terminal(dir, events, a)(k)
  {
    var s := Races.Run(dir, Races.START, events);
    k := StageWhenRead(dir, events, p);
    Races.StartInv();
    Races.RunKeepsInv(dir, Races.START, events);
    assert Races.PendingOk(s.db, s.pending[p]);
    RunStep(dir, events, k);
    AtTerminalByFlag(Races.Run(dir, Races.START, events[..k]).db, s.pending[p].move.app);
  }

  /** After move `p` first read application `a`, the application was put into a terminal stage, or its stage
      made terminal, and it has not been put into a non-terminal one, nor its stage made so, since. */
  ghost predicate PutAtTerminalSinceRead(dir: Directory, events: seq<Races.Event>, p: nat, a: nat) {
    SetSinceRead(dir, events, p, Puts(dir, events, a, true), Puts(dir, events, a, false))
  }

  /** Whatever interleaves, overlapping moves included: a move that is about to commit takes its application
      out of a terminal stage if and only if, since the move's first read, the last committed move of that
      application or flag change of the stage it was in has put it at a terminal stage. */
  lemma LeavesTerminalExactly(dir: Directory, events: seq<Races.Event>, p: nat)
    requires p < |Races.Run(dir, Races.START, events).pending|
    requires Races.Run(dir, Races.START, events).pending[p].MoveChecked?
    ensures var s := Races.Run(dir, Races.START, events);
            var a := s.pending[p].move.app;
            AtTerminal(s.db, a) <==> PutAtTerminalSinceRead(dir, events, p, a)
  {
    var a := Races.Run(dir, Races.START, events).pending[p].move.app;
    var k := OpenStageWhenRead(dir, events, p);
    TerminalIsWritten(dir, events, a, k);
    assert events[..|events|] == events;
    SetSinceExactly(dir, events, p, Terminal(dir, events, a), Puts(dir, events, a, true), Puts(dir, events, a, false),
                    k);
  }

  // ---- Names taken in the meantime.

  /** If this event's stage write goes through, its name is still free up to letter case. */
  predicate FreeWrite(s: Races.State, event: Races.Event) {
    event.Advance? && event.p < |s.pending| ==>
      match s.pending[event.p]
      case AddChecked(job, name, order, _) =>
        Races.AddGoesThrough(s.db, job, name, order) ==> !NameTaken(s.db.jobs[job].stages, name, None)
      case EditChecked(job, id, newName, _) =>
        Races.EditGoesThrough(s.db, job, id, newName) && newName.Some? ==>
          !NameTaken(s.db.jobs[job].stages, newName.value, Some(id))
      case ApplyRead(_, _, _, _, _, _) => true
      case ApplyChecked(_, _, _) => true
      case MoveRead(_, _, _, _) => true
      case MoveChecked(_, _) => true
      case StatusChecked(_, _) => true
      case Gone => true
  }

  predicate AllFree(dir: Directory, events: seq<Races.Event>) {
    |events| > 0 ==>
      && AllFree(dir, events[..|events| - 1])
      && FreeWrite(Races.Run(dir, Races.START, events[..|events| - 1]), events[|events| - 1])
  }

  /** The names of every job are distinct up to letter case after each event. */
  predicate AlwaysDistinct(dir: Directory, events: seq<Races.Event>) {
    && NamesOk(Races.Run(dir, Races.START, events).db)
    && (|events| > 0 ==> AlwaysDistinct(dir, events[..|events| - 1]))
  }

  lemma AppendedNames(stages: seq<Stage>, stage: Stage)
    requires NamesDistinct(stages)
    ensures NamesDistinct(stages + [stage]) <==> !NameTaken(stages, stage.name, None)
  {
    var more := stages + [stage];
    if NamesDistinct(more) {
      forall i | 0 <= i < |stages| ensures !SameLower(stages[i].name, stage.name) {
        assert !SameLower(more[i].name, more[|stages|].name);
      }
    }
  }

  lemma RenamedNames(job: nat, stages: seq<Stage>, i: nat, stage: Stage)
    requires WellPlaced(job, stages) && NamesDistinct(stages) && i < |stages| && stage.id == stages[i].id
    ensures NamesDistinct(stages[i := stage]) <==> !NameTaken(stages, stage.name, Some(stage.id))
  {
    var renamed := stages[i := stage];
    if NamesDistinct(renamed) {
      forall k | 0 <= k < |stages| && k != i ensures !SameLower(stages[k].name, stage.name) {
        assert !SameLower(renamed[k].name, renamed[i].name);
      }
    }
    if !NameTaken(stages, stage.name, Some(stage.id)) {
      forall k, l | 0 <= k < l < |stages| ensures !SameLower(renamed[k].name, renamed[l].name) {
        if k == i { assert stages[l].id != stage.id; } else if l == i { assert stages[k].id != stage.id; }
      }
    }
  }

  /** A step keeps the names of every job distinct exactly when its stage write, if any, is free. */
  lemma NextKeepsDistinct(dir: Directory, s: Races.State, event: Races.Event)
    requires Races.Inv(s) && NamesOk(s.db)
    ensures NamesOk(Races.Next(dir, s, event).db) <==> FreeWrite(s, event)
  {
    if event.Create? { NextKeepsNames(dir, s.db, CreateJob(event.recruiter, event.stages)); }
    if event.Advance? && event.p < |s.pending| {
      assert Races.PendingOk(s.db, s.pending[event.p]);
      match s.pending[event.p]
      case AddChecked(job, name, order, isTerminal) => AddKeepsDistinct(s.db, job, name, order, isTerminal);
      case EditChecked(job, id, newName, flag) => EditKeepsDistinct(s.db, job, id, newName, flag);
      case ApplyRead(_, _, _, _, _, _) =>
      case ApplyChecked(_, _, _) =>
      case MoveRead(_, _, _, _) =>
      case MoveChecked(_, _) =>
      case StatusChecked(_, _) =>
      case Gone =>
    }
  }

  lemma AddKeepsDistinct(db: Db, job: nat, name: string, order: nat, isTerminal: bool)
    requires NamesOk(db)
    ensures NamesOk(Races.CommitAdd(db, job, name, order, isTerminal)) <==>
              (Races.AddGoesThrough(db, job, name, order) ==> !NameTaken(db.jobs[job].stages, name, None))
  {
    if Races.AddGoesThrough(db, job, name, order) {
      var stages := db.jobs[job].stages;
      var stage := Stage(StageId(job, |stages|), name, order, isTerminal);
      AppendedNames(stages, stage);
      OneListChanges(db, job, stages + [stage]);
    }
  }

  lemma OneListChanges(db: Db, job: nat, stages: seq<Stage>)
    requires NamesOk(db) && job < |db.jobs|
    ensures NamesOk(SetStages(db, job, stages)) <==> NamesDistinct(stages)
  {
    assert SetStages(db, job, stages).jobs[job].stages == stages;
  }

  lemma EditKeepsDistinct(db: Db, job: nat, id: StageId, newName: Option<string>, flag: Option<bool>)
    requires TablesOk(db) && NamesOk(db)
    ensures NamesOk(Races.CommitEdit(db, job, id, newName, flag)) <==>
              (Races.EditGoesThrough(db, job, id, newName) && newName.Some? ==>
                 !NameTaken(db.jobs[job].stages, newName.value, Some(id)))
  {
    if Races.EditGoesThrough(db, job, id, newName) {
      var stages := db.jobs[job].stages;
      var i := FindById(stages, id).value;
      var stage := stages[i].(name := newName.GetOr(stages[i].name), isTerminal := flag.GetOr(stages[i].isTerminal));
      assert WellPlaced(job, stages) && NamesDistinct(stages);
      RenamedNames(job, stages, i, stage);
      OneListChanges(db, job, stages[i := stage]);
      if newName.None? { OwnNameIsFree(job, stages, i); }
    }
  }

  lemma OwnNameIsFree(job: nat, stages: seq<Stage>, i: nat)
    requires WellPlaced(job, stages) && NamesDistinct(stages) && i < |stages|
    ensures !NameTaken(stages, stages[i].name, Some(stages[i].id))
  {
    forall k | 0 <= k < |stages| && Some(stages[k].id) != Some(stages[i].id)
      ensures !SameLower(stages[k].name, stages[i].name)
    {
      assert k < i || i < k;
    }
  }

  /** In every interleaving the names of each job stay distinct up to letter case if and only if every
      stage write that goes through finds its name still free; the unique index refuses equal names
      only. */
  lemma {:induction false} NamesStayDistinctExactly(dir: Directory, events: seq<Races.Event>)
    ensures AlwaysDistinct(dir, events) <==> AllFree(dir, events)
  {
    if |events| > 0 {
      var before := events[..|events| - 1];
      NamesStayDistinctExactly(dir, before);
      Races.StartInv();
      Races.RunKeepsInv(dir, Races.START, before);
      if AlwaysDistinct(dir, before) {
        DistinctNow(dir, before);
        NextKeepsDistinct(dir, Races.Run(dir, Races.START, before), events[|events| - 1]);
      }
    }
  }

  lemma DistinctNow(dir: Directory, events: seq<Races.Event>)
    requires AlwaysDistinct(dir, events)
    ensures NamesOk(Races.Run(dir, Races.START, events).db)
  {
  }

  /** A request of the owner to rename stage `i` of job `j`. */
  function Rename(db: Db, j: nat, i: nat, name: string): Races.Event
    requires j < |db.jobs|
  {
    Races.BeginJob(UpdateJobStage(db.jobs[j].recruiter, j, StageId(j, i), Some(Some(name)), None))
  }

  predicate IsNewName(stages: seq<Stage>, name: string) {
    Trim(name) == name != "" && forall k | 0 <= k < |stages| :: !SameLower(stages[k].name, name)
  }

  function TwoRenamed(stages: seq<Stage>, one: string, two: string): seq<Stage>
    requires |stages| >= 2
  {
    stages[0 := stages[0].(name := one)][1 := stages[1].(name := two)]
  }

  /** It does happen: two stages renamed at once, to names that differ in letter case only. */
  lemma RacingRenamesCollide(dir: Directory, db: Db, j: nat, one: string, two: string)
    requires TablesOk(db) && j < |db.jobs| && !db.jobs[j].status.CLOSED? && |db.jobs[j].stages| >= 2
    requires IsNewName(db.jobs[j].stages, one) && IsNewName(db.jobs[j].stages, two) && one != two && SameLower(one, two)
    ensures var events := [Rename(db, j, 0, one), Rename(db, j, 1, two)] + [Races.Advance(0), Races.Advance(1)];
            var after := Races.Run(dir, Races.State(db, []), events).db;
            && after == SetStages(db, j, TwoRenamed(db.jobs[j].stages, one, two))
            && !NamesOk(after)
  {
    var stages, s := db.jobs[j].stages, Races.State(db, []);
    var both := TwoRenamed(stages, one, two);
    var p0 := Races.EditChecked(j, StageId(j, 0), Some(one), None);
    var p1 := Races.EditChecked(j, StageId(j, 1), Some(two), None);
    RenamesBegin(dir, db, j, one, two);
    Races.RunConcat(dir, s, [Rename(db, j, 0, one), Rename(db, j, 1, two)], [Races.Advance(0), Races.Advance(1)]);
    EditsCommit(dir, db, p0, p1);
    RenamesCommit(db, j, one, two);
    assert SetStages(db, j, both).jobs[j].stages == both && SameLower(both[0].name, both[1].name);
  }

  lemma RenamesBegin(dir: Directory, db: Db, j: nat, one: string, two: string)
    requires TablesOk(db) && j < |db.jobs| && !db.jobs[j].status.CLOSED? && |db.jobs[j].stages| >= 2
    requires IsNewName(db.jobs[j].stages, one) && IsNewName(db.jobs[j].stages, two)
    ensures Races.Run(dir, Races.State(db, []), [Rename(db, j, 0, one), Rename(db, j, 1, two)])
         == Races.State(db,
                        [Races.EditChecked(j, StageId(j, 0), Some(one), None),
                         Races.EditChecked(j, StageId(j, 1), Some(two), None)])
  {
    Races.RunTwo(dir, Races.State(db, []), Rename(db, j, 0, one), Rename(db, j, 1, two));
    RenameIsChecked(db, j, 0, one);
    RenameIsChecked(db, j, 1, two);
  }

  lemma EditsCommit(dir: Directory, db: Db, p0: Races.Pending, p1: Races.Pending)
    requires p0.EditChecked? && p1.EditChecked?
    ensures Races.Run(dir, Races.State(db, [p0, p1]), [Races.Advance(0), Races.Advance(1)]).db
         == Races.CommitEdit(Races.CommitEdit(db, p0.job, p0.id, p0.newName, p0.flag), p1.job, p1.id, p1.newName,
                             p1.flag)
  {
    Races.RunTwo(dir, Races.State(db, [p0, p1]), Races.Advance(0), Races.Advance(1));
  }

  lemma RenamesCommit(db: Db, j: nat, one: string, two: string)
    requires TablesOk(db) && j < |db.jobs| && |db.jobs[j].stages| >= 2 && one != two
    requires IsNewName(db.jobs[j].stages, one) && IsNewName(db.jobs[j].stages, two)
    ensures Races.CommitEdit(Races.CommitEdit(db, j, StageId(j, 0), Some(one), None), j, StageId(j, 1), Some(two), None)
         == SetStages(db, j, TwoRenamed(db.jobs[j].stages, one, two))
  {
    TrimGivesName(one);
    RenameCommits(db, j, 0, one);
    RenameStillCommits(db, j, one, two);
  }

  lemma RenameIsChecked(db: Db, j: nat, i: nat, name: string)
    requires TablesOk(db) && j < |db.jobs| && !db.jobs[j].status.CLOSED? && i < |db.jobs[j].stages|
    requires IsNewName(db.jobs[j].stages, name)
    ensures Races.CheckJob(db, UpdateJobStage(db.jobs[j].recruiter, j, StageId(j, i), Some(Some(name)), None))
         == Some(Races.EditChecked(j, StageId(j, i), Some(name), None))
  {
    assert WellPlaced(j, db.jobs[j].stages);
    FindInOk(j, db.jobs[j].stages, StageId(j, i));
  }

  lemma RenameCommits(db: Db, j: nat, i: nat, name: string)
    requires TablesOk(db) && j < |db.jobs| && i < |db.jobs[j].stages|
    requires forall k | 0 <= k < |db.jobs[j].stages| && k != i :: db.jobs[j].stages[k].name != name
    ensures Races.CommitEdit(db, j, StageId(j, i), Some(name), None)
         == SetStages(db, j, db.jobs[j].stages[i := db.jobs[j].stages[i].(name := name)])
  {
    assert WellPlaced(j, db.jobs[j].stages);
    FindInOk(j, db.jobs[j].stages, StageId(j, i));
  }

  lemma RenameStillCommits(db: Db, j: nat, one: string, two: string)
    requires TablesOk(db) && j < |db.jobs| && |db.jobs[j].stages| >= 2 && one != two
    requires IsName(one) && forall k | 0 <= k < |db.jobs[j].stages| :: db.jobs[j].stages[k].name != two
    ensures var stages := db.jobs[j].stages;
            var renamed := stages[0 := stages[0].(name := one)];
            Races.CommitEdit(SetStages(db, j, renamed), j, StageId(j, 1), Some(two), None)
            == SetStages(db, j, renamed[1 := stages[1].(name := two)])
  {
    var stages := db.jobs[j].stages;
    var renamed := stages[0 := stages[0].(name := one)];
    assert WellPlaced(j, stages);
    SetStagesOk(db, j, renamed);
    RenameCommits(SetStages(db, j, renamed), j, 1, two);
  }
}
