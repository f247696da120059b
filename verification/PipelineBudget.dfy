/** How often an application can move. The results are about successive snapshots of the tables, so
    that they serve requests that run one after the other and, in `PipelineRaces`, interleaved ones. */
module PipelineBudget {
  import opened Wrappers
  import opened StageRule
  import opened JobStages
  import opened Pipeline

  /** Snapshots of the tables, each one step after the one before. */
  type Trace = seq<Db>

  /** One step moves application `a` at most once, and not when it changes a flag of its job. */
  ghost predicate BudgetStep(before: Db, after: Db, a: nat) {
    && a < |before.apps| && a < |after.apps| && before.apps[a].job == after.apps[a].job
    && TablesOk(before) && TablesOk(after) && JobsExtend(before, after)
    && 0 <= Moves(before, after, a) <= 1
    && (FlagsChanged(before, after, before.apps[a].job) ==> Moves(before, after, a) == 0)
  }

  /** An ordinary step: a move needs a non-terminal stage and uses up some of the moves left. */
  ghost predicate UsesUp(before: Db, after: Db, a: nat)
    requires a < |before.apps|
  {
    && (if Moves(before, after, a) > 0 then !AtTerminal(before, a) else AtTerminal(after, a) == AtTerminal(before, a))
    && forall n: nat | before.apps[a].job < |after.jobs| && |after.jobs[before.apps[a].job].stages| <= n ::
         Moves(before, after, a) <= Left(before, a, n) - Left(after, a, n)
  }

  /** A step that breaks this without changing a flag. */
  ghost predicate IsJump(before: Db, after: Db, a: nat) {
    a < |before.apps| && !FlagsChanged(before, after, before.apps[a].job) && !UsesUp(before, after, a)
  }

  ghost predicate BudgetTrace(trace: Trace, a: nat) {
    && |trace| > 0 && a < |trace[0].apps| && TablesOk(trace[0])
    && forall i | 0 < i < |trace| :: BudgetStep(trace[i - 1], trace[i], a)
  }

  function Last(trace: Trace): Db
    requires |trace| > 0
  {
    trace[|trace| - 1]
  }

  /** How many steps changed a terminal flag of job `j`. */
  function Toggles(trace: Trace, j: nat): nat {
    if |trace| <= 1 then 0
    else Toggles(trace[..|trace| - 1], j) + Bit(FlagsChanged(trace[|trace| - 2], trace[|trace| - 1], j))
  }

  /** How many steps moved application `a` into a stage that is terminal then. */
  function TerminalEntries(trace: Trace, a: nat): nat {
    if |trace| <= 1 then 0
    else
      TerminalEntries(trace[..|trace| - 1], a)
      + Bit(Moves(trace[|trace| - 2], trace[|trace| - 1], a) > 0 && AtTerminal(trace[|trace| - 1], a))
  }

  ghost function Jumps(trace: Trace, a: nat): nat {
    if |trace| <= 1 then 0
    else Jumps(trace[..|trace| - 1], a) + Bit(IsJump(trace[|trace| - 2], trace[|trace| - 1], a))
  }

  /** What the steps give back: `n - 1` moves for a changed flag, `n` for a jump. */
  ghost function Allowance(trace: Trace, j: nat, a: nat, n: nat): nat
    requires n > 0
  {
    if |trace| <= 1 then 0
    else
      Allowance(trace[..|trace| - 1], j, a, n)
      + (if FlagsChanged(trace[|trace| - 2], trace[|trace| - 1], j) then n - 1 else 0)
      + (if IsJump(trace[|trace| - 2], trace[|trace| - 1], a) then n else 0)
  }

  lemma {:induction false} AllowanceIsProduct(trace: Trace, j: nat, a: nat, n: nat)
    requires n > 0
    ensures Allowance(trace, j, a, n) == Toggles(trace, j) * (n - 1) + Jumps(trace, a) * n
  {
    if |trace| > 1 {
      AllowanceIsProduct(trace[..|trace| - 1], j, a, n);
      OneMore(Toggles(trace[..|trace| - 1], j), n - 1);
      OneMore(Jumps(trace[..|trace| - 1], a), n);
    }
  }

  lemma OneMore(k: nat, n: nat)
    ensures (k + 1) * n == k * n + n
  {
  }

  lemma ShorterTrace(trace: Trace, a: nat)
    requires BudgetTrace(trace, a) && |trace| > 1
    ensures BudgetTrace(trace[..|trace| - 1], a) && Last(trace[..|trace| - 1]) == trace[|trace| - 2]
    ensures BudgetStep(trace[|trace| - 2], trace[|trace| - 1], a)
  {
    assert BudgetStep(trace[|trace| - 1 - 1], trace[|trace| - 1], a);
  }

  lemma LongerTrace(trace: Trace, next: Db, a: nat)
    requires BudgetTrace(trace, a) && BudgetStep(Last(trace), next, a)
    ensures BudgetTrace(trace + [next], a)
    ensures Jumps(trace + [next], a) == Jumps(trace, a) + Bit(IsJump(Last(trace), next, a))
  {
    var more := trace + [next];
    assert more[..|trace|] == trace;
    forall i | 0 < i < |more| ensures BudgetStep(more[i - 1], more[i], a) {
      assert i < |trace| ==> BudgetStep(trace[i - 1], trace[i], a);
    }
  }

  /** The application keeps its job, and the job's stages are only added to. */
  lemma {:induction false} TraceKeepsApp(trace: Trace, a: nat)
    requires BudgetTrace(trace, a)
    ensures var last := Last(trace);
            && TablesOk(last) && a < |last.apps| && last.apps[a].job == trace[0].apps[a].job
            && trace[0].apps[a].job < |last.jobs|
  {
    if |trace| > 1 {
      ShorterTrace(trace, a);
      TraceKeepsApp(trace[..|trace| - 1], a);
    }
    assert AppOk(Last(trace), Last(trace).apps[a]);
  }

  /** While its job ends up with at most `n` stages, an application makes at most as many moves as were
      left to it, plus what is given back. */
  lemma {:induction false} MovesWithinBudget(trace: Trace, a: nat, n: nat)
    requires BudgetTrace(trace, a) && trace[0].apps[a].job < |Last(trace).jobs|
    requires 0 < |Last(trace).jobs[trace[0].apps[a].job].stages| <= n
    ensures 0 <= Moves(trace[0], Last(trace), a)
    ensures Moves(trace[0], Last(trace), a) + Left(Last(trace), a, n)
         <= Left(trace[0], a, n) + Allowance(trace, trace[0].apps[a].job, a, n)
  {
    if |trace| > 1 {
      var before := trace[..|trace| - 1];
      ShorterTrace(trace, a);
      TraceKeepsApp(before, a);
      assert WellPlaced(trace[0].apps[a].job, Last(before).jobs[trace[0].apps[a].job].stages);
      MovesWithinBudget(before, a, n);
      LeftBounded(Last(trace), a, n);
    }
  }

  /** `n - 1` moves to begin with and after each changed flag, `n` with each jump. */
  predicate IsBounded(moves: int, toggles: nat, jumps: nat, n: nat) {
    n > 0 && moves <= (toggles + 1) * (n - 1) + jumps * n
  }

  /** So, where n is the final number of stages, it makes at most (toggles + 1) * (n - 1) + jumps * n moves. */
  lemma MovesOfTrace(trace: Trace, a: nat)
    requires BudgetTrace(trace, a)
    ensures var j := trace[0].apps[a].job;
            && j < |Last(trace).jobs|
            && IsBounded(Moves(trace[0], Last(trace), a), Toggles(trace, j), Jumps(trace, a),
                         |Last(trace).jobs[j].stages|)
  {
    TraceKeepsApp(trace, a);
    var j := trace[0].apps[a].job;
    var n := |Last(trace).jobs[j].stages|;
    assert WellPlaced(j, Last(trace).jobs[j].stages);
    MovesWithinBudget(trace, a, n);
    StagesOnlyAdded(trace, a);
    LeftBounded(trace[0], a, n);
    AllowanceIsProduct(trace, j, a, n);
    BoundAddsUp(Moves(trace[0], Last(trace), a), Left(trace[0], a, n), Toggles(trace, j), Jumps(trace, a), n);
  }

  lemma BoundAddsUp(moves: int, left: nat, toggles: nat, jumps: nat, n: nat)
    requires n > 0 && left <= n - 1 && moves <= left + (toggles * (n - 1) + jumps * n)
    ensures IsBounded(moves, toggles, jumps, n)
  {
    OneMore(toggles, n - 1);
  }

  lemma {:induction false} StagesOnlyAdded(trace: Trace, a: nat)
    requires BudgetTrace(trace, a)
    ensures var j := trace[0].apps[a].job;
            j < |trace[0].jobs| && j < |Last(trace).jobs|
            && |trace[0].jobs[j].stages| <= |Last(trace).jobs[j].stages|
  {
    assert AppOk(trace[0], trace[0].apps[a]);
    if |trace| > 1 {
      ShorterTrace(trace, a);
      StagesOnlyAdded(trace[..|trace| - 1], a);
    }
  }

  /** And it enters a terminal stage at most once more than flags are changed and jumps are made. */
  lemma {:induction false} EntriesOfTrace(trace: Trace, a: nat)
    requires BudgetTrace(trace, a)
    ensures TerminalEntries(trace, a) + Bit(!AtTerminal(Last(trace), a))
         <= Toggles(trace, trace[0].apps[a].job) + Jumps(trace, a) + Bit(!AtTerminal(trace[0], a))
  {
    if |trace| > 1 {
      ShorterTrace(trace, a);
      TraceKeepsApp(trace[..|trace| - 1], a);
      EntriesOfTrace(trace[..|trace| - 1], a);
    }
  }

  /** Between flag changes, and without jumps, a terminal stage is final: nothing is moved, nothing is
      logged. */
  lemma FinalInTrace(trace: Trace, a: nat)
    requires BudgetTrace(trace, a) && AtTerminal(trace[0], a)
    requires Toggles(trace, trace[0].apps[a].job) == 0 && Jumps(trace, a) == 0
    ensures AtTerminal(Last(trace), a) && |HistoryOf(Last(trace), a)| == |HistoryOf(trace[0], a)|
  {
    TraceKeepsApp(trace, a);
    var j := trace[0].apps[a].job;
    var n := |Last(trace).jobs[j].stages|;
    assert WellPlaced(j, Last(trace).jobs[j].stages);
    MovesWithinBudget(trace, a, n);
    AllowanceIsProduct(trace, j, a, n);
    EntriesOfTrace(trace, a);
  }

  // ---- Requests one after the other.

  function SerialTrace(dir: Directory, db: Db, requests: seq<Request>): (trace: Trace)
    ensures |trace| == |requests| + 1 && trace[0] == db && Last(trace) == Run(dir, db, requests)
  {
    if |requests| == 0 then [db]
    else SerialTrace(dir, db, requests[..|requests| - 1]) + [Run(dir, db, requests)]
  }

  lemma NextIsBudgetStep(dir: Directory, db: Db, request: Request, a: nat)
    requires TablesOk(db) && a < |db.apps|
    ensures BudgetStep(db, Next(dir, db, request), a) && !IsJump(db, Next(dir, db, request), a)
  {
    var t := Next(dir, db, request);
    NextKeepsTables(dir, db, request);
    NextExtends(dir, db, request);
    assert AppOk(db, db.apps[a]);
    NextBudget(dir, db, request, a, |t.jobs[db.apps[a].job].stages|);
    forall n: nat | |t.jobs[db.apps[a].job].stages| <= n
      ensures !FlagsChanged(db, t, db.apps[a].job) ==> Moves(db, t, a) <= Left(db, a, n) - Left(t, a, n)
    {
      NextBudget(dir, db, request, a, n);
    }
  }

  lemma {:induction false} SerialIsBudgetTrace(dir: Directory, db: Db, requests: seq<Request>, a: nat)
    requires TablesOk(db) && a < |db.apps|
    ensures BudgetTrace(SerialTrace(dir, db, requests), a) && Jumps(SerialTrace(dir, db, requests), a) == 0
  {
    if |requests| > 0 {
      var before := requests[..|requests| - 1];
      SerialIsBudgetTrace(dir, db, before, a);
      TraceKeepsApp(SerialTrace(dir, db, before), a);
      NextIsBudgetStep(dir, Run(dir, db, before), requests[|requests| - 1], a);
      LongerTrace(SerialTrace(dir, db, before), Run(dir, db, requests), a);
    }
  }

  /** Serial requests: at most (toggles + 1) * (n - 1) moves, where n is the job's final number of stages. */
  lemma SerialMovesBounded(dir: Directory, db: Db, requests: seq<Request>, a: nat)
    requires TablesOk(db) && a < |db.apps|
    ensures var t, j := Run(dir, db, requests), db.apps[a].job;
            && j < |t.jobs|
            && IsBounded(Moves(db, t, a), Toggles(SerialTrace(dir, db, requests), j), 0, |t.jobs[j].stages|)
  {
    SerialIsBudgetTrace(dir, db, requests, a);
    MovesOfTrace(SerialTrace(dir, db, requests), a);
  }

  /** Serial requests: a terminal stage is entered at most once more than flags are changed. */
  lemma SerialTerminalEntriesBounded(dir: Directory, db: Db, requests: seq<Request>, a: nat)
    requires TablesOk(db) && a < |db.apps|
    ensures TerminalEntries(SerialTrace(dir, db, requests), a) + Bit(!AtTerminal(Run(dir, db, requests), a))
         <= Toggles(SerialTrace(dir, db, requests), db.apps[a].job) + Bit(!AtTerminal(db, a))
  {
    SerialIsBudgetTrace(dir, db, requests, a);
    EntriesOfTrace(SerialTrace(dir, db, requests), a);
  }

  /** Serial requests: between flag changes a terminal stage is final. */
  lemma SerialTerminalIsFinal(dir: Directory, db: Db, requests: seq<Request>, a: nat)
    requires TablesOk(db) && a < |db.apps| && AtTerminal(db, a)
    requires Toggles(SerialTrace(dir, db, requests), db.apps[a].job) == 0
    ensures AtTerminal(Run(dir, db, requests), a)
    ensures |HistoryOf(Run(dir, db, requests), a)| == |HistoryOf(db, a)|
  {
    SerialIsBudgetTrace(dir, db, requests, a);
    FinalInTrace(SerialTrace(dir, db, requests), a);
  }

  // ---- Where applications can be while no flag changes.

  /** Application `a` is in a stage that can be reached from its job's first. */
  predicate AppInReach(db: Db, a: nat) {
    a < |db.apps| && AppOk(db, db.apps[a]) && CanReach(db.jobs[db.apps[a].job].stages, db.apps[a].current.number)
  }

  /** So is every application of job `j`. */
  predicate InReach(db: Db, j: nat) {
    forall a | 0 <= a < |db.apps| && db.apps[a].job == j :: AppInReach(db, a)
  }

  lemma SameFlagsSameReach(db: Db, after: Db, j: nat, k: nat)
    requires TablesOk(db) && TablesOk(after) && JobsExtend(db, after) && !FlagsChanged(db, after, j)
    requires j < |db.jobs| && k < |db.jobs[j].stages| && CanReach(db.jobs[j].stages, k)
    ensures k < |after.jobs[j].stages| && CanReach(after.jobs[j].stages, k)
  {
    assert WellPlaced(j, db.jobs[j].stages) && WellPlaced(j, after.jobs[j].stages);
    var stages, now := db.jobs[j].stages, after.jobs[j].stages;
    assert forall i | 0 <= i < |stages| :: stages[i].isTerminal == now[i].isTerminal;
  }

  /** A step that leaves an application where it is, and its job's flags alone. */
  lemma QuietInReach(db: Db, after: Db, a: nat)
    requires TablesOk(db) && TablesOk(after) && JobsExtend(db, after) && AppInReach(db, a)
    requires a < |after.apps| && after.apps[a] == db.apps[a] && !FlagsChanged(db, after, db.apps[a].job)
    ensures AppInReach(after, a)
  {
    assert AppOk(after, after.apps[a]);
    SameFlagsSameReach(db, after, db.apps[a].job, db.apps[a].current.number);
  }

  lemma MoveInReach(dir: Directory, db: Db, recruiter: nat, a: nat, target: Option<StageId>)
    requires TablesOk(db) && AppInReach(db, a) && Handle(dir, db, Move(recruiter, a, target)).Ok?
    ensures AppInReach(Next(dir, db, Move(recruiter, a, target)), a)
  {
    var j, move := db.apps[a].job, CheckMove(db, recruiter, a, target).value;
    CheckMoveKnows(db, recruiter, a, target);
    OkIsNumbered(j, db.jobs[j].stages);
    MoveStaysInReach(db.jobs[j].stages, move.from.number, move.to.number);
  }

  /** An application that was just made is in the first stage. */
  lemma FirstIsInReach(db: Db, a: nat)
    requires TablesOk(db) && a < |db.apps| && db.apps[a].current == StageId(db.apps[a].job, 0)
    ensures AppInReach(db, a)
  {
    assert AppOk(db, db.apps[a]);
  }

  lemma NextInReach(dir: Directory, db: Db, request: Request, a: nat)
    requires TablesOk(db) && a < |Next(dir, db, request).apps| && (a < |db.apps| ==> AppInReach(db, a))
    requires !FlagsChanged(db, Next(dir, db, request), Next(dir, db, request).apps[a].job)
    ensures AppInReach(Next(dir, db, request), a)
  {
    var t := Next(dir, db, request);
    NextKeepsTables(dir, db, request);
    NextExtends(dir, db, request);
    if request.Move? && request.app == a && Handle(dir, db, request).Ok? {
      MoveInReach(dir, db, request.recruiter, a, request.target);
    } else if a < |db.apps| {
      OtherRequestLeavesApp(dir, db, request, a);
      QuietInReach(db, t, a);
    } else {
      NewAppIsFirst(dir, db, request, a);
      FirstIsInReach(t, a);
    }
  }

  lemma NewAppIsFirst(dir: Directory, db: Db, request: Request, a: nat)
    requires TablesOk(db) && |db.apps| <= a < |Next(dir, db, request).apps|
    ensures Next(dir, db, request).apps[a].current == StageId(Next(dir, db, request).apps[a].job, 0)
  {
    if IsJobRequest(request) {
      JobRequestKeepsTables(dir, db, request);
    } else if request.Apply? {
      CheckApplyGivesFirst(dir, db, request.user, request.job, request.resume);
    }
  }

  /** Serial requests: while no flag of a job changes, even as stages are added, its applications are only
      ever in the stages that the reachability theorem allows. */
  lemma {:induction false} SerialStaysInReach(dir: Directory, requests: seq<Request>, j: nat)
    requires Toggles(SerialTrace(dir, EMPTY, requests), j) == 0
    ensures InReach(Run(dir, EMPTY, requests), j)
  {
    if |requests| > 0 {
      var before := requests[..|requests| - 1];
      var db, t := Run(dir, EMPTY, before), Run(dir, EMPTY, requests);
      assert SerialTrace(dir, EMPTY, requests)[..|requests|] == SerialTrace(dir, EMPTY, before);
      SerialStaysInReach(dir, before, j);
      EmptyInv();
      RunKeepsInv(dir, EMPTY, before);
      NextExtends(dir, db, requests[|requests| - 1]);
      forall a | 0 <= a < |t.apps| && t.apps[a].job == j ensures AppInReach(t, a) {
        NextInReach(dir, db, requests[|requests| - 1], a);
      }
    }
  }
}
