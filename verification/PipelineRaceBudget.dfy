/** How often an application can move when requests interleave: as often as with serial requests, and once
    around the pipeline more for each move that would no longer be accepted at the moment it commits. */
module PipelineRaceBudget {
  import opened Wrappers
  import opened StageRule
  import opened JobStages
  import opened Pipeline
  import opened PipelineBudget
  import Races = PipelineRaces

  /** A committing move of application `a` would be accepted, as it is, if it were requested only now. */
  predicate Sound(s: Races.State, event: Races.Event, a: nat) {
    Races.CommitsMoveOf(s, event, a) && a < |s.db.apps| ==>
      StillAccepted(s.db, s.pending[event.p].move)
  }

  predicate StillAccepted(db: Db, move: AuditRow) {
    CheckMove(db, move.changedBy, move.app, Some(move.to)) == Ok(move)
  }

  /** How many moves of application `a` were committed that would no longer have been accepted then. */
  function UnsoundCommits(dir: Directory, s: Races.State, events: seq<Races.Event>, a: nat): nat {
    if |events| == 0 then 0
    else
      UnsoundCommits(dir, s, events[..|events| - 1], a)
      + Bit(!Sound(Races.Run(dir, s, events[..|events| - 1]), events[|events| - 1], a))
  }

  function RaceTrace(dir: Directory, s: Races.State, events: seq<Races.Event>): (trace: Trace)
    ensures |trace| == |events| + 1 && trace[0] == s.db && Last(trace) == Races.Run(dir, s, events).db
  {
    if |events| == 0 then [s.db]
    else RaceTrace(dir, s, events[..|events| - 1]) + [Races.Run(dir, s, events).db]
  }

  /** A step that leaves the application and its history alone. */
  lemma QuietStep(before: Db, after: Db, a: nat)
    requires TablesOk(before) && TablesOk(after) && JobsExtend(before, after)
    requires a < |before.apps| && a < |after.apps| && after.apps[a] == before.apps[a]
    requires HistoryOf(after, a) == HistoryOf(before, a)
    ensures BudgetStep(before, after, a) && !IsJump(before, after, a)
  {
    if !FlagsChanged(before, after, before.apps[a].job) {
      forall n: nat ensures Left(after, a, n) == Left(before, a, n) && AtTerminal(after, a) == AtTerminal(before, a) {
        SameFlagsSameLeft(before, after, a, n);
      }
    }
  }

  /** A sound move is the serial request. */
  lemma SoundMoveIsSerial(dir: Directory, db: Db, move: AuditRow)
    requires StillAccepted(db, move)
    ensures CommitMove(db, move) == Pipeline.Next(dir, db, Move(move.changedBy, move.app, Some(move.to)))
  {
  }

  lemma CommitIsBudgetStep(dir: Directory, db: Db, move: AuditRow)
    requires TablesOk(db) && move.app < |db.apps| && TablesOk(CommitMove(db, move))
    ensures BudgetStep(db, CommitMove(db, move), move.app)
    ensures StillAccepted(db, move) ==> !IsJump(db, CommitMove(db, move), move.app)
  {
    CommitMoveLogs(db, move, move.app);
    if StillAccepted(db, move) {
      SoundMoveIsSerial(dir, db, move);
      NextIsBudgetStep(dir, db, Move(move.changedBy, move.app, Some(move.to)), move.app);
    }
  }

  lemma StepIsBudgetStep(dir: Directory, s: Races.State, event: Races.Event, a: nat)
    requires Races.Inv(s) && a < |s.db.apps|
    ensures var after := Races.Next(dir, s, event).db;
            BudgetStep(s.db, after, a) && (Sound(s, event, a) ==> !IsJump(s.db, after, a))
  {
    Races.NextDb(dir, s, event);
    if Races.CommitsMoveOf(s, event, a) {
      CommitIsBudgetStep(dir, s.db, s.pending[event.p].move);
    } else {
      Races.NextLogs(dir, s, event, a);
      Races.CurrentChangesByMove(dir, s, event, a);
      QuietStep(s.db, Races.Next(dir, s, event).db, a);
    }
  }

  lemma {:induction false} RaceIsBudgetTrace(dir: Directory, s: Races.State, events: seq<Races.Event>, a: nat)
    requires Races.Inv(s) && a < |s.db.apps|
    ensures BudgetTrace(RaceTrace(dir, s, events), a)
    ensures Jumps(RaceTrace(dir, s, events), a) <= UnsoundCommits(dir, s, events, a)
  {
    if |events| > 0 {
      var before := events[..|events| - 1];
      RaceIsBudgetTrace(dir, s, before, a);
      TraceKeepsApp(RaceTrace(dir, s, before), a);
      Races.RunKeepsInv(dir, s, before);
      StepIsBudgetStep(dir, Races.Run(dir, s, before), events[|events| - 1], a);
      LongerTrace(RaceTrace(dir, s, before), Races.Run(dir, s, events).db, a);
    }
  }

  // ---- When moves are sound.

  /** What a pending move of application `a` has read or checked still is so. */
  predicate UpToDate(db: Db, p: Races.Pending, a: nat) {
    match p
    case MoveRead(app, current, _, recruiter) =>
      app == a ==>
        && a < |db.apps| && db.apps[a].current == current.id && RequireOwnedJob(db, db.apps[a].job, recruiter).None?
        && StageRow(db, current.id).Some? && SameRule(StageRow(db, current.id).value, current)
    case MoveChecked(move, _) => move.app == a ==> StillAccepted(db, move)
    case ApplyRead(_, _, _, _, _, _) => true
    case ApplyChecked(_, _, _) => true
    case StatusChecked(_, _) => true
    case AddChecked(_, _, _, _) => true
    case EditChecked(_, _, _, _) => true
    case Gone => true
  }

  /** Alike in all that the transition rule looks at. */
  predicate SameRule(one: Stage, two: Stage) {
    one.id == two.id && one.order == two.order && one.isTerminal == two.isTerminal
  }

  ghost predicate AllUpToDate(s: Races.State, a: nat) {
    forall p | 0 <= p < |s.pending| :: UpToDate(s.db, s.pending[p], a)
  }

  /** This event changes a flag of the job of application `a`. */
  predicate ChangesFlags(dir: Directory, s: Races.State, event: Races.Event, a: nat) {
    a < |s.db.apps| && FlagsChanged(s.db, Races.Next(dir, s, event).db, s.db.apps[a].job)
  }

  predicate NoMovePending(s: Races.State, a: nat) {
    forall p | 0 <= p < |s.pending| :: !Races.MovePending(s.pending[p], a)
  }

  /** No flag of its job changes while a move of application `a` is unfinished. */
  predicate QuietFlags(dir: Directory, s: Races.State, events: seq<Races.Event>, a: nat) {
    |events| > 0 ==>
      && QuietFlags(dir, s, events[..|events| - 1], a)
      && var before := Races.Run(dir, s, events[..|events| - 1]);
         (ChangesFlags(dir, before, events[|events| - 1], a) ==> NoMovePending(before, a))
  }

  lemma StageRowKept(db: Db, after: Db, id: StageId)
    requires TablesOk(db) && TablesOk(after) && JobsExtend(db, after) && !FlagsChanged(db, after, id.job)
    requires StageRow(db, id).Some?
    ensures StageRow(after, id).Some? && SameRule(StageRow(after, id).value, StageRow(db, id).value)
  {
    var j := id.job;
    assert WellPlaced(j, db.jobs[j].stages) && WellPlaced(j, after.jobs[j].stages);
    FindInOk(j, db.jobs[j].stages, id);
    FindInOk(j, after.jobs[j].stages, id);
  }

  lemma SameRuleSameAnswer(one: Stage, two: Stage, target: Stage, target': Stage)
    requires SameRule(one, two) && SameRule(target, target')
    ensures CheckTransition(one, target) == CheckTransition(two, target')
  {
  }

  /** A move that is accepted is still accepted after a step that changes neither its application nor the
      flags of its job. */
  lemma StaysAccepted(db: Db, after: Db, move: AuditRow)
    requires TablesOk(db) && TablesOk(after) && JobsExtend(db, after) && StillAccepted(db, move)
    requires move.app < |db.apps| && move.app < |after.apps| && after.apps[move.app] == db.apps[move.app]
    requires !FlagsChanged(db, after, db.apps[move.app].job)
    ensures StillAccepted(after, move)
  {
    var a := move.app;
    var j := db.apps[a].job;
    CheckMoveKnows(db, move.changedBy, a, Some(move.to));
    assert AppOk(db, db.apps[a]);
    FindInOk(j, db.jobs[j].stages, move.to);
    FindInOk(j, after.jobs[j].stages, move.to);
    StageRowKept(db, after, db.apps[a].current);
    StageRowKept(db, after, move.to);
    SameRuleSameAnswer(StageRow(after, db.apps[a].current).value, StageRow(db, db.apps[a].current).value,
                       StageRow(after, move.to).value, StageRow(db, move.to).value);
  }

  lemma StaysUpToDate(db: Db, after: Db, p: Races.Pending, a: nat)
    requires TablesOk(db) && TablesOk(after) && JobsExtend(db, after) && UpToDate(db, p, a) && Races.PendingOk(db, p)
    requires a < |db.apps| ==>
               a < |after.apps| && after.apps[a] == db.apps[a] && !FlagsChanged(db, after, db.apps[a].job)
    ensures UpToDate(after, p, a)
  {
    if Races.MovePending(p, a) {
      assert AppOk(db, db.apps[a]);
      match p
      case MoveRead(_, current, _, _) => StageRowKept(db, after, current.id);
      case MoveChecked(move, _) => StaysAccepted(db, after, move);
    }
  }

  /** The check of a move whose first read is up to date is the check of the serial request. */
  lemma CheckedIsAccepted(db: Db, a: nat, current: Stage, target: StageId, recruiter: nat)
    requires TablesOk(db) && UpToDate(db, Races.MoveRead(a, current, target, recruiter), a)
    ensures UpToDate(db, Races.CheckTarget(db, a, current, target, recruiter), a)
  {
    var j := db.apps[a].job;
    assert AppOk(db, db.apps[a]);
    FindInOk(j, db.jobs[j].stages, target);
    if target.job == j && target.number < |db.jobs[j].stages| {
      SameRuleSameAnswer(StageRow(db, current.id).value, current, db.jobs[j].stages[target.number],
                         db.jobs[j].stages[target.number]);
    }
  }

  lemma AdvancedIsUpToDate(s: Races.State, p: nat, a: nat)
    requires Races.Inv(s) && AllUpToDate(s, a) && p < |s.pending|
    ensures var t := Races.AdvancePending(s, p); UpToDate(s.db, t.pending[p], a)
    ensures Races.AdvancePending(s, p).pending[p].Gone? || Races.AdvancePending(s, p).db == s.db
  {
    assert UpToDate(s.db, s.pending[p], a);
    match s.pending[p]
    case MoveRead(app, current, target, recruiter) =>
      if app == a { CheckedIsAccepted(s.db, a, current, target, recruiter); }
    case MoveChecked(_, _) =>
    case ApplyRead(_, _, _, _, _, _) =>
    case ApplyChecked(_, _, _) =>
    case StatusChecked(_, _) =>
    case AddChecked(_, _, _, _) =>
    case EditChecked(_, _, _, _) =>
    case Gone =>
  }

  lemma BegunIsUpToDate(dir: Directory, s: Races.State, event: Races.Event, a: nat)
    requires |Races.Next(dir, s, event).pending| > |s.pending|
    ensures UpToDate(s.db, Races.Next(dir, s, event).pending[|s.pending|], a)
  {
    if event.BeginMove? { Races.StageRowHasId(s.db, s.db.apps[event.app].current); }
  }

  /** After a step every pending request still is up to date against the tables before it. */
  lemma UpToDateBefore(dir: Directory, s: Races.State, event: Races.Event, a: nat, p: nat)
    requires Races.Inv(s) && AllUpToDate(s, a) && p < |Races.Next(dir, s, event).pending|
    ensures UpToDate(s.db, Races.Next(dir, s, event).pending[p], a)
  {
    Races.NextShape(dir, s, event);
    assert p < |s.pending| ==> UpToDate(s.db, s.pending[p], a);
    if p >= |s.pending| { BegunIsUpToDate(dir, s, event, a); }
    else if event == Races.Advance(p) { AdvancedIsUpToDate(s, p, a); }
  }

  lemma CommitLeavesNoMove(dir: Directory, s: Races.State, event: Races.Event, a: nat, p: nat)
    requires Races.SoleMove(s, a) && p < |Races.Next(dir, s, event).pending|
    requires Races.MovePending(Races.Next(dir, s, event).pending[p], a)
    ensures !Races.CommitsMoveOf(s, event, a)
  {
    Races.NextPending(dir, s, event, a);
    if Races.CommitsMoveOf(s, event, a) && p != event.p { assert Races.MovePending(s.pending[event.p], a); }
  }

  /** What a step that commits no move of application `a` does to the tables, as far as it matters. */
  lemma TablesStep(dir: Directory, s: Races.State, event: Races.Event, a: nat)
    requires Races.Inv(s) && !Races.CommitsMoveOf(s, event, a)
    ensures var after := Races.Next(dir, s, event).db;
            && TablesOk(s.db) && TablesOk(after) && JobsExtend(s.db, after)
            && (a < |s.db.apps| ==> a < |after.apps| && after.apps[a] == s.db.apps[a])
  {
    Races.NextDb(dir, s, event);
    if a < |s.db.apps| { Races.CurrentChangesByMove(dir, s, event, a); }
  }

  lemma WritingStepAddsNone(dir: Directory, s: Races.State, event: Races.Event)
    ensures Races.Next(dir, s, event).db != s.db ==> |Races.Next(dir, s, event).pending| == |s.pending|
  {
  }

  lemma MoveWasPending(dir: Directory, s: Races.State, event: Races.Event, a: nat, p: nat)
    requires p < |s.pending| && Races.MovePending(Races.Next(dir, s, event).pending[p], a)
    ensures Races.MovePending(s.pending[p], a)
  {
    Races.NextPending(dir, s, event, a);
  }

  /** The tables changed under an unfinished move of application `a`. */
  lemma KeptOverWrite(dir: Directory, s: Races.State, event: Races.Event, a: nat, p: nat)
    requires Races.Inv(s) && Races.SoleMove(s, a) && AllUpToDate(s, a)
    requires ChangesFlags(dir, s, event, a) ==> NoMovePending(s, a)
    requires p < |s.pending| == |Races.Next(dir, s, event).pending|
    requires Races.MovePending(Races.Next(dir, s, event).pending[p], a)
    ensures UpToDate(Races.Next(dir, s, event).db, Races.Next(dir, s, event).pending[p], a)
  {
    var t := Races.Next(dir, s, event);
    MoveWasPending(dir, s, event, a, p);
    CommitLeavesNoMove(dir, s, event, a, p);
    UpToDateBefore(dir, s, event, a, p);
    TablesStep(dir, s, event, a);
    PendingStaysOk(dir, s, event, p);
    StaysUpToDate(s.db, t.db, t.pending[p], a);
  }

  lemma PendingStaysOk(dir: Directory, s: Races.State, event: Races.Event, p: nat)
    requires Races.Inv(s) && p < |s.pending|
    ensures p < |Races.Next(dir, s, event).pending| && Races.PendingOk(s.db, Races.Next(dir, s, event).pending[p])
  {
    Races.NextShape(dir, s, event);
    assert Races.PendingOk(s.db, s.pending[p]);
    if event == Races.Advance(p) { Races.AdvancedIsOk(s, p); }
  }

  lemma NextKeepsUpToDate(dir: Directory, s: Races.State, event: Races.Event, a: nat)
    requires Races.Inv(s) && Races.SoleMove(s, a) && AllUpToDate(s, a)
    requires ChangesFlags(dir, s, event, a) ==> NoMovePending(s, a)
    ensures AllUpToDate(Races.Next(dir, s, event), a)
  {
    var t := Races.Next(dir, s, event);
    WritingStepAddsNone(dir, s, event);
    forall p | 0 <= p < |t.pending| ensures UpToDate(t.db, t.pending[p], a) {
      if Races.MovePending(t.pending[p], a) {
        if t.db == s.db { UpToDateBefore(dir, s, event, a, p); } else { KeptOverWrite(dir, s, event, a, p); }
      }
    }
  }

  /** When the moves of an application do not overlap, and no flag of its job changes while one of them is
      unfinished, each of them is sound, whatever else is going on. */
  lemma {:induction false} UndisturbedMovesAreSound(dir: Directory, events: seq<Races.Event>, a: nat)
    requires Races.OneMoveAtATime(dir, Races.START, events, a) && QuietFlags(dir, Races.START, events, a)
    ensures UnsoundCommits(dir, Races.START, events, a) == 0
    ensures Races.SoleMove(Races.Run(dir, Races.START, events), a)
    ensures AllUpToDate(Races.Run(dir, Races.START, events), a)
  {
    if |events| > 0 {
      var before, n := events[..|events| - 1], |events| - 1;
      var s := Races.Run(dir, Races.START, before);
      UndisturbedMovesAreSound(dir, before, a);
      Races.StartInv();
      Races.RunKeepsInv(dir, Races.START, before);
      Races.NextKeepsSoleMove(dir, s, events[n], a);
      NextKeepsUpToDate(dir, s, events[n], a);
      if Races.CommitsMoveOf(s, events[n], a) { assert UpToDate(s.db, s.pending[events[n].p], a); }
    }
  }

  lemma {:induction false} UnsoundSplits(dir: Directory, before: seq<Races.Event>, later: seq<Races.Event>, a: nat)
    ensures UnsoundCommits(dir, Races.START, before + later, a)
         == UnsoundCommits(dir, Races.START, before, a)
            + UnsoundCommits(dir, Races.Run(dir, Races.START, before), later, a)
  {
    if |later| == 0 {
      assert before + later == before;
    } else {
      assert (before + later)[..|before + later| - 1] == before + later[..|later| - 1];
      UnsoundSplits(dir, before, later[..|later| - 1], a);
      Races.RunConcat(dir, Races.START, before, later[..|later| - 1]);
    }
  }

  /** The run from the state after `before`, in which application `a` exists, on. */
  lemma LaterIsBudgetTrace(dir: Directory, before: seq<Races.Event>, later: seq<Races.Event>, a: nat)
    requires a < |Races.Run(dir, Races.START, before).db.apps|
    ensures var s := Races.Run(dir, Races.START, before);
            && BudgetTrace(RaceTrace(dir, s, later), a)
            && Jumps(RaceTrace(dir, s, later), a) <= UnsoundCommits(dir, s, later, a)
            && Races.Run(dir, Races.START, before + later) == Races.Run(dir, s, later)
  {
    Races.StartInv();
    Races.RunKeepsInv(dir, Races.START, before);
    RaceIsBudgetTrace(dir, Races.Run(dir, Races.START, before), later, a);
    Races.RunConcat(dir, Races.START, before, later);
  }

  lemma MoreJumpsBound(moves: int, toggles: nat, jumps: nat, more: nat, n: nat)
    requires IsBounded(moves, toggles, jumps, n) && jumps <= more
    ensures IsBounded(moves, toggles, more, n)
  {
    assert jumps * n <= more * n;
  }

  /** In every interleaving, and from any moment on, an application makes at most
      (toggles + 1) * (n - 1) + unsound * n moves, where n is its job's final number of stages and `unsound`
      counts those of its moves that would no longer have been accepted when they committed. */
  lemma MovesBounded(dir: Directory, before: seq<Races.Event>, later: seq<Races.Event>, a: nat)
    requires a < |Races.Run(dir, Races.START, before).db.apps|
    ensures var s, t := Races.Run(dir, Races.START, before), Races.Run(dir, Races.START, before + later).db;
            var j := s.db.apps[a].job;
            && j < |t.jobs|
            && IsBounded(Moves(s.db, t, a), Toggles(RaceTrace(dir, s, later), j), UnsoundCommits(dir, s, later, a),
                         |t.jobs[j].stages|)
  {
    var s := Races.Run(dir, Races.START, before);
    var trace, j := RaceTrace(dir, s, later), s.db.apps[a].job;
    LaterIsBudgetTrace(dir, before, later, a);
    MovesOfTrace(trace, a);
    MoreJumpsBound(Moves(s.db, Last(trace), a), Toggles(trace, j), Jumps(trace, a), UnsoundCommits(dir, s, later, a),
                   |Last(trace).jobs[j].stages|);
  }

  /** It enters a terminal stage at most once more than flags of its job are changed and unsound moves are
      committed. */
  lemma TerminalEntriesBounded(dir: Directory, before: seq<Races.Event>, later: seq<Races.Event>, a: nat)
    requires a < |Races.Run(dir, Races.START, before).db.apps|
    ensures var s, t := Races.Run(dir, Races.START, before), Races.Run(dir, Races.START, before + later).db;
            TerminalEntries(RaceTrace(dir, s, later), a) + Bit(!AtTerminal(t, a))
            <= Toggles(RaceTrace(dir, s, later), s.db.apps[a].job) + UnsoundCommits(dir, s, later, a)
               + Bit(!AtTerminal(s.db, a))
  {
    LaterIsBudgetTrace(dir, before, later, a);
    EntriesOfTrace(RaceTrace(dir, Races.Run(dir, Races.START, before), later), a);
  }

  /** And between flag changes and unsound moves a terminal stage is final: nothing is moved, nothing is
      logged. */
  lemma TerminalIsFinalBetweenToggles(dir: Directory, before: seq<Races.Event>, later: seq<Races.Event>, a: nat)
    requires AtTerminal(Races.Run(dir, Races.START, before).db, a)
    requires var s := Races.Run(dir, Races.START, before);
             && a < |s.db.apps| && Toggles(RaceTrace(dir, s, later), s.db.apps[a].job) == 0
             && UnsoundCommits(dir, s, later, a) == 0
    ensures var s, t := Races.Run(dir, Races.START, before), Races.Run(dir, Races.START, before + later).db;
            AtTerminal(t, a) && |HistoryOf(t, a)| == |HistoryOf(s.db, a)|
  {
    LaterIsBudgetTrace(dir, before, later, a);
    FinalInTrace(RaceTrace(dir, Races.Run(dir, Races.START, before), later), a);
  }

  lemma UndisturbedFromHere(dir: Directory, before: seq<Races.Event>, later: seq<Races.Event>, a: nat)
    requires Races.OneMoveAtATime(dir, Races.START, before + later, a)
    requires QuietFlags(dir, Races.START, before + later, a)
    ensures UnsoundCommits(dir, Races.Run(dir, Races.START, before), later, a) == 0
  {
    UndisturbedMovesAreSound(dir, before + later, a);
    UnsoundSplits(dir, before, later, a);
  }

  /** All three at once, for an application whose moves do not overlap and are not met by a flag change. */
  lemma UndisturbedBudget(dir: Directory, before: seq<Races.Event>, later: seq<Races.Event>, a: nat)
    requires Races.OneMoveAtATime(dir, Races.START, before + later, a)
    requires QuietFlags(dir, Races.START, before + later, a)
    requires a < |Races.Run(dir, Races.START, before).db.apps|
    ensures var s, t := Races.Run(dir, Races.START, before), Races.Run(dir, Races.START, before + later).db;
            var j, trace := s.db.apps[a].job, RaceTrace(dir, s, later);
            && j < |t.jobs| && IsBounded(Moves(s.db, t, a), Toggles(trace, j), 0, |t.jobs[j].stages|)
            && TerminalEntries(trace, a) + Bit(!AtTerminal(t, a)) <= Toggles(trace, j) + Bit(!AtTerminal(s.db, a))
            && (AtTerminal(s.db, a) && Toggles(trace, j) == 0 ==>
                  AtTerminal(t, a) && |HistoryOf(t, a)| == |HistoryOf(s.db, a)|)
  {
    UndisturbedFromHere(dir, before, later, a);
    MovesBounded(dir, before, later, a);
    TerminalEntriesBounded(dir, before, later, a);
    var s := Races.Run(dir, Races.START, before);
    if AtTerminal(s.db, a) && Toggles(RaceTrace(dir, s, later), s.db.apps[a].job) == 0 {
      TerminalIsFinalBetweenToggles(dir, before, later, a);
    }
  }

  lemma StepInReach(dir: Directory, s: Races.State, event: Races.Event, a: nat)
    requires Races.Inv(s) && Sound(s, event, a) && AppInReach(s.db, a) && !ChangesFlags(dir, s, event, a)
    ensures AppInReach(Races.Next(dir, s, event).db, a)
  {
    if Races.CommitsMoveOf(s, event, a) {
      var move := s.pending[event.p].move;
      SoundMoveIsSerial(dir, s.db, move);
      MoveInReach(dir, s.db, move.changedBy, a, Some(move.to));
    } else {
      TablesStep(dir, s, event, a);
      QuietInReach(s.db, Races.Next(dir, s, event).db, a);
    }
  }

  lemma LastToggle(dir: Directory, s: Races.State, events: seq<Races.Event>, j: nat)
    requires |events| > 0
    ensures var before := events[..|events| - 1];
            Toggles(RaceTrace(dir, s, events), j)
            == Toggles(RaceTrace(dir, s, before), j)
               + Bit(FlagsChanged(Races.Run(dir, s, before).db, Races.Run(dir, s, events).db, j))
  {
    assert RaceTrace(dir, s, events)[..|events|] == RaceTrace(dir, s, events[..|events| - 1]);
  }

  lemma RaceKeepsJob(dir: Directory, s: Races.State, events: seq<Races.Event>, a: nat)
    requires Races.Inv(s) && a < |s.db.apps|
    ensures var t := Races.Run(dir, s, events);
            Races.Inv(t) && a < |t.db.apps| && t.db.apps[a].job == s.db.apps[a].job
  {
    Races.RunKeepsInv(dir, s, events);
    RaceIsBudgetTrace(dir, s, events, a);
    TraceKeepsApp(RaceTrace(dir, s, events), a);
  }

  /** And while no flag of its job changes, even as stages are added, it is only ever in the stages that the
      reachability theorem allows. */
  lemma {:induction false} StaysInReach(dir: Directory, s: Races.State, events: seq<Races.Event>, a: nat)
    requires Races.Inv(s) && AppInReach(s.db, a) && UnsoundCommits(dir, s, events, a) == 0
    requires Toggles(RaceTrace(dir, s, events), s.db.apps[a].job) == 0
    ensures AppInReach(Races.Run(dir, s, events).db, a)
  {
    if |events| > 0 {
      var before, n := events[..|events| - 1], |events| - 1;
      LastToggle(dir, s, events, s.db.apps[a].job);
      StaysInReach(dir, s, before, a);
      RaceKeepsJob(dir, s, before, a);
      StepInReach(dir, Races.Run(dir, s, before), events[n], a);
    }
  }

  /** As it is from the moment it was inserted. */
  lemma InsertedInReach(dir: Directory, s: Races.State, event: Races.Event, a: nat)
    requires Races.Inv(s) && |s.db.apps| <= a < |Races.Next(dir, s, event).db.apps|
    ensures AppInReach(Races.Next(dir, s, event).db, a)
  {
    Races.NextDb(dir, s, event);
    if event.Create? {
      JobRequestKeepsTables(dir, s.db, CreateJob(event.recruiter, event.stages));
    } else {
      assert Races.PendingOk(s.db, s.pending[event.p]);
    }
    FirstIsInReach(Races.Next(dir, s, event).db, a);
  }

  /** Soundness is needed with a single move, too: when the flag of its stage is raised before it commits,
      the application is taken out of a stage that is terminal by then. */
  lemma FlagRaisedDuringMove(dir: Directory, db: Db, a: nat, to: nat) returns (events: seq<Races.Event>)
    requires TablesOk(db) && a < |db.apps| && !db.jobs[db.apps[a].job].status.CLOSED?
    requires to < |db.jobs[db.apps[a].job].stages| && !db.jobs[db.apps[a].job].stages[to].isTerminal
    requires Accepts(CurrentStage(db, a), db.jobs[db.apps[a].job].stages[to])
    ensures |events| > 0 && Races.OneMoveAtATime(dir, Races.State(db, []), events, a)
    ensures var middle := Races.Run(dir, Races.State(db, []), events[..|events| - 1]);
            var after := Races.Run(dir, Races.State(db, []), events).db;
            && AtTerminal(middle.db, a) && !AtTerminal(after, a)
            && a < |after.apps| && after.apps[a].current == StageId(db.apps[a].job, to)
  {
    var j, k, owner := db.apps[a].job, db.apps[a].current.number, db.jobs[db.apps[a].job].recruiter;
    var s, current := Races.State(db, []), CurrentStage(db, a);
    var raised := SetStages(db, j, db.jobs[j].stages[k := current.(isTerminal := true)]);
    var move := AuditRow(a, db.apps[a].current, StageId(j, to), owner);
    var raise := Races.BeginJob(UpdateJobStage(owner, j, db.apps[a].current, None, Some(true)));
    var edit := Races.EditChecked(j, db.apps[a].current, None, Some(true));
    var s1 := Races.State(db, [Races.MoveRead(a, current, StageId(j, to), owner)]);
    var s2 := Races.State(db, [Races.MoveChecked(move, current)]);
    var s3 := Races.State(db, [Races.MoveChecked(move, current), edit]);
    var s4 := Races.State(raised, [Races.MoveChecked(move, current), Races.Gone]);
    RaisingSteps(dir, db, a, to);
    events := ThenOneMove(dir, s, [], Races.BeginMove(owner, a, Some(StageId(j, to))), s, s1, a);
    events := ThenOneMove(dir, s, events, Races.Advance(0), s1, s2, a);
    events := ThenOneMove(dir, s, events, raise, s2, s3, a);
    events := ThenOneMove(dir, s, events, Races.Advance(1), s3, s4, a);
    var before := events;
    events := ThenOneMove(dir, s, events, Races.Advance(0), s4, Races.Next(dir, s4, Races.Advance(0)), a);
    assert events[..|events| - 1] == before;
    RaisedThenMoved(db, a, to);
  }

  lemma ThenOneMove(dir: Directory, s: Races.State, events: seq<Races.Event>, event: Races.Event,
                    before: Races.State, after: Races.State, a: nat) returns (more: seq<Races.Event>)
    requires Races.Run(dir, s, events) == before && Races.Next(dir, before, event) == after
    requires Races.OneMoveAtATime(dir, s, events, a) && (event.BeginMove? ==> before.pending == [])
    ensures more == events + [event] && Races.Run(dir, s, more) == after && Races.OneMoveAtATime(dir, s, more, a)
  {
    more := events + [event];
    assert more[..|events|] == events;
  }

  lemma RaisingSteps(dir: Directory, db: Db, a: nat, to: nat)
    requires TablesOk(db) && a < |db.apps| && !db.jobs[db.apps[a].job].status.CLOSED?
    requires to < |db.jobs[db.apps[a].job].stages| && Accepts(CurrentStage(db, a), db.jobs[db.apps[a].job].stages[to])
    ensures var j, k, owner := db.apps[a].job, db.apps[a].current.number, db.jobs[db.apps[a].job].recruiter;
            var current, move := CurrentStage(db, a), AuditRow(a, db.apps[a].current, StageId(j, to), owner);
            var edit := Races.EditChecked(j, db.apps[a].current, None, Some(true));
            && StageRow(db, db.apps[a].current) == Some(current)
            && Races.CheckTarget(db, a, current, StageId(j, to), owner) == Races.MoveChecked(move, current)
            && Races.CheckJob(db, UpdateJobStage(owner, j, db.apps[a].current, None, Some(true))) == Some(edit)
            && Races.CommitEdit(db, j, db.apps[a].current, None, Some(true))
               == SetStages(db, j, db.jobs[j].stages[k := current.(isTerminal := true)])
  {
    assert AppOk(db, db.apps[a]);
    FindInOk(db.apps[a].job, db.jobs[db.apps[a].job].stages, db.apps[a].current);
    FindInOk(db.apps[a].job, db.jobs[db.apps[a].job].stages, StageId(db.apps[a].job, to));
  }

  lemma RaisedThenMoved(db: Db, a: nat, to: nat)
    requires TablesOk(db) && a < |db.apps| && to < |db.jobs[db.apps[a].job].stages|
    requires !db.jobs[db.apps[a].job].stages[to].isTerminal && to != db.apps[a].current.number
    ensures var j, k, owner := db.apps[a].job, db.apps[a].current.number, db.jobs[db.apps[a].job].recruiter;
            var raised := SetStages(db, j, db.jobs[j].stages[k := CurrentStage(db, a).(isTerminal := true)]);
            AtTerminal(raised, a)
              && !AtTerminal(CommitMove(raised, AuditRow(a, db.apps[a].current, StageId(j, to), owner)), a)
  {
    assert AppOk(db, db.apps[a]);
  }
}
