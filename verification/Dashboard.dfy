/** The recruiter's dashboard: counts derived from the pipeline's tables, in one snapshot and at different
    moments, one job's pipeline, and the chart that sums stages of the same name. */
module Dashboard {
  import opened Wrappers
  import opened Sequences
  import opened StageRule
  import opened JobStages
  import opened Pipeline
  import Keywords
  import Races = PipelineRaces

  datatype StageCount = StageCount(stageId: StageId, stageName: string, isTerminal: bool, count: nat)

  // Predicates over applications, as named functions so that counts can be compared.

  function AtStage(id: StageId): AppRow -> bool { (app: AppRow) => app.current == id }
  function InJob(j: nat): AppRow -> bool { (app: AppRow) => app.job == j }

  predicate Owns(db: Db, recruiter: nat, j: nat) {
    j < |db.jobs| && db.jobs[j].recruiter == recruiter
  }

  predicate IsTerminalNow(db: Db, app: AppRow) {
    StageRow(db, app.current).Some? && StageRow(db, app.current).value.isTerminal
  }

  function OfRecruiter(db: Db, recruiter: nat): AppRow -> bool { (app: AppRow) => Owns(db, recruiter, app.job) }
  function Active(db: Db, recruiter: nat): AppRow -> bool {
    (app: AppRow) => Owns(db, recruiter, app.job) && StageRow(db, app.current).Some?
      && !StageRow(db, app.current).value.isTerminal
  }
  function Terminal(db: Db, recruiter: nat): AppRow -> bool {
    (app: AppRow) => Owns(db, recruiter, app.job) && IsTerminalNow(db, app)
  }

  function CountTotal(db: Db, recruiter: nat): nat { Count(OfRecruiter(db, recruiter), db.apps) }
  function CountActive(db: Db, recruiter: nat): nat { Count(Active(db, recruiter), db.apps) }
  function CountTerminal(db: Db, recruiter: nat): nat { Count(Terminal(db, recruiter), db.apps) }

  function StageCountOf(db: Db, stage: Stage): StageCount {
    StageCount(stage.id, stage.name, stage.isTerminal, Count(AtStage(stage.id), db.apps))
  }

  /** The stage rows of a list, each with the applications that point to it. */
  function StageCounts(db: Db, stages: seq<Stage>): seq<StageCount> {
    seq(|stages|, i requires 0 <= i < |stages| => StageCountOf(db, stages[i]))
  }

  function OwnStageCounts(db: Db, recruiter: nat, j: nat): seq<StageCount> {
    if Owns(db, recruiter, j) then StageCounts(db, db.jobs[j].stages) else []
  }

  /** The stages of the recruiter's jobs among the first `m`; of one job only when `only` is given. */
  function ByStage(db: Db, recruiter: nat, only: Option<nat>, m: nat): seq<StageCount> {
    if m == 0 then []
    else ByStage(db, recruiter, only, m - 1)
         + (if only.None? || only.value == m - 1 then OwnStageCounts(db, recruiter, m - 1) else [])
  }

  function ApplicationsByStage(db: Db, recruiter: nat, only: Option<nat>): seq<StageCount> {
    ByStage(db, recruiter, only, |db.jobs|)
  }

  function TotalOf(entries: seq<StageCount>): nat {
    if |entries| == 0 then 0 else TotalOf(entries[..|entries| - 1]) + entries[|entries| - 1].count
  }

  // ---- Conservation.

  /** What the counts rely on: well-formed stage lists, and applications placed in their jobs' stages. */
  predicate Placed(db: Db) {
    JobsOk(db) && forall a | 0 <= a < |db.apps| :: AppOk(db, db.apps[a])
  }

  lemma {:induction false} CountSplits(p: AppRow -> bool, q: AppRow -> bool, r: AppRow -> bool, s: seq<AppRow>)
    requires forall i | 0 <= i < |s| :: p(s[i]) == (q(s[i]) || r(s[i])) && !(q(s[i]) && r(s[i]))
    ensures Count(p, s) == Count(q, s) + Count(r, s)
  {
    if |s| > 0 { CountSplits(p, q, r, s[..|s| - 1]); }
  }

  lemma {:induction false} CountSame(p: AppRow -> bool, q: AppRow -> bool, s: seq<AppRow>)
    requires forall i | 0 <= i < |s| :: p(s[i]) == q(s[i])
    ensures Count(p, s) == Count(q, s)
  {
    if |s| > 0 { CountSame(p, q, s[..|s| - 1]); }
  }

  /** At one of the first `k` stages of job `j`. */
  function AtStagesBelow(j: nat, k: nat): AppRow -> bool {
    (app: AppRow) => app.current.job == j && app.current.number < k
  }

  /** In one of the recruiter's jobs among the first `m`. */
  function InJobsBelow(db: Db, recruiter: nat, m: nat): AppRow -> bool {
    (app: AppRow) => app.job < m && Owns(db, recruiter, app.job)
  }

  lemma TotalSnoc(entries: seq<StageCount>, last: StageCount)
    ensures TotalOf(entries + [last]) == TotalOf(entries) + last.count
  {
    assert (entries + [last])[..|entries|] == entries;
  }

  lemma StageCountsStep(db: Db, stages: seq<Stage>, k: nat)
    requires k < |stages|
    ensures StageCounts(db, stages[..k + 1]) == StageCounts(db, stages[..k]) + [StageCountOf(db, stages[k])]
  {
  }

  lemma OneMoreStage(db: Db, j: nat, k: nat)
    ensures Count(AtStagesBelow(j, k + 1), db.apps)
            == Count(AtStagesBelow(j, k), db.apps) + Count(AtStage(StageId(j, k)), db.apps)
  {
    CountSplits(AtStagesBelow(j, k + 1), AtStagesBelow(j, k), AtStage(StageId(j, k)), db.apps);
  }

  lemma {:induction false} StagesSum(db: Db, j: nat, stages: seq<Stage>, k: nat)
    requires k <= |stages| && forall i | 0 <= i < |stages| :: stages[i].id == StageId(j, i)
    ensures TotalOf(StageCounts(db, stages[..k])) == Count(AtStagesBelow(j, k), db.apps)
  {
    if k == 0 {
      CountZero(AtStagesBelow(j, 0), db.apps);
    } else {
      StagesSum(db, j, stages, k - 1);
      StageCountsStep(db, stages, k - 1);
      TotalSnoc(StageCounts(db, stages[..k - 1]), StageCountOf(db, stages[k - 1]));
      OneMoreStage(db, j, k - 1);
    }
  }

  /** A job's stages account for all its applications. */
  lemma JobSum(db: Db, j: nat)
    requires Placed(db) && j < |db.jobs|
    ensures TotalOf(StageCounts(db, db.jobs[j].stages)) == Count(InJob(j), db.apps)
  {
    var stages := db.jobs[j].stages;
    assert WellPlaced(j, stages);
    StagesSum(db, j, stages, |stages|);
    assert stages[..|stages|] == stages;
    forall a | 0 <= a < |db.apps| ensures AtStagesBelow(j, |stages|)(db.apps[a]) == InJob(j)(db.apps[a]) {
      assert AppOk(db, db.apps[a]);
    }
    CountSame(AtStagesBelow(j, |stages|), InJob(j), db.apps);
  }

  lemma {:induction false} SumOfBoth(s: seq<StageCount>, t: seq<StageCount>)
    ensures TotalOf(s + t) == TotalOf(s) + TotalOf(t)
  {
    if |t| == 0 {
      assert s + t == s;
    } else {
      assert (s + t)[..|s + t| - 1] == s + t[..|t| - 1];
      SumOfBoth(s, t[..|t| - 1]);
    }
  }

  lemma OneMoreJob(db: Db, recruiter: nat, m: nat)
    requires m < |db.jobs|
    ensures Count(InJobsBelow(db, recruiter, m + 1), db.apps)
         == Count(InJobsBelow(db, recruiter, m), db.apps)
           + (if Owns(db, recruiter, m) then Count(InJob(m), db.apps) else 0)
  {
    if Owns(db, recruiter, m) {
      CountSplits(InJobsBelow(db, recruiter, m + 1), InJobsBelow(db, recruiter, m), InJob(m), db.apps);
    } else {
      CountSame(InJobsBelow(db, recruiter, m + 1), InJobsBelow(db, recruiter, m), db.apps);
    }
  }

  /** Each job's stages account for its applications. */
  ghost predicate JobsAddUp(db: Db) {
    forall j | 0 <= j < |db.jobs| :: TotalOf(StageCounts(db, db.jobs[j].stages)) == Count(InJob(j), db.apps)
  }

  lemma PlacedAddsUp(db: Db)
    requires Placed(db)
    ensures JobsAddUp(db)
  {
    forall j | 0 <= j < |db.jobs| ensures TotalOf(StageCounts(db, db.jobs[j].stages)) == Count(InJob(j), db.apps) {
      JobSum(db, j);
    }
  }

  lemma OneMoreJobListed(db: Db, recruiter: nat, m: nat)
    requires JobsAddUp(db) && m < |db.jobs|
    ensures TotalOf(ByStage(db, recruiter, None, m + 1))
         == TotalOf(ByStage(db, recruiter, None, m)) + (if Owns(db, recruiter, m) then Count(InJob(m), db.apps) else 0)
  {
    SumOfBoth(ByStage(db, recruiter, None, m), OwnStageCounts(db, recruiter, m));
  }

  lemma {:induction false} SameSteps(f: nat -> nat, g: nat -> nat, m: nat)
    requires f(0) == g(0) && forall k: nat | k < m :: f(k + 1) - f(k) == g(k + 1) - g(k)
    ensures f(m) == g(m)
  {
    if m > 0 {
      SameSteps(f, g, m - 1);
      assert f(m - 1 + 1) - f(m - 1) == g(m - 1 + 1) - g(m - 1);
    }
  }

  lemma JobsSum(db: Db, recruiter: nat)
    requires JobsAddUp(db)
    ensures TotalOf(ByStage(db, recruiter, None, |db.jobs|)) == Count(InJobsBelow(db, recruiter, |db.jobs|), db.apps)
  {
    var listed := (m: nat) => TotalOf(ByStage(db, recruiter, None, m));
    var counted := (m: nat) => Count(InJobsBelow(db, recruiter, m), db.apps);
    CountZero(InJobsBelow(db, recruiter, 0), db.apps);
    forall m: nat | m < |db.jobs| ensures listed(m + 1) - listed(m) == counted(m + 1) - counted(m) {
      OneMoreJob(db, recruiter, m);
      OneMoreJobListed(db, recruiter, m);
    }
    SameSteps(listed, counted, |db.jobs|);
  }

  lemma CurrentRowExists(db: Db, a: nat)
    requires Placed(db) && a < |db.apps|
    ensures StageRow(db, db.apps[a].current).Some?
  {
    assert AppOk(db, db.apps[a]);
    FindInOk(db.apps[a].job, db.jobs[db.apps[a].job].stages, db.apps[a].current);
  }

  lemma ActiveOrTerminal(db: Db, recruiter: nat)
    requires Placed(db)
    ensures CountTotal(db, recruiter) == CountActive(db, recruiter) + CountTerminal(db, recruiter)
  {
    forall a | 0 <= a < |db.apps| ensures StageRow(db, db.apps[a].current).Some? { CurrentRowExists(db, a); }
    CountSplits(OfRecruiter(db, recruiter), Active(db, recruiter), Terminal(db, recruiter), db.apps);
  }

  /** In one snapshot, the per-stage counts sum to the recruiter's total, which is the active and the
      terminal applications together. */
  lemma CountsAreConserved(db: Db, recruiter: nat)
    requires Placed(db)
    ensures TotalOf(ApplicationsByStage(db, recruiter, None)) == CountTotal(db, recruiter)
    ensures CountTotal(db, recruiter) == CountActive(db, recruiter) + CountTerminal(db, recruiter)
  {
    PlacedAddsUp(db);
    JobsSum(db, recruiter);
    CountSame(InJobsBelow(db, recruiter, |db.jobs|), OfRecruiter(db, recruiter), db.apps);
    ActiveOrTerminal(db, recruiter);
  }

  // ---- What is counted, and what is listed.

  function AppsAt(db: Db, id: StageId): set<nat> {
    set a: nat | a < |db.apps| && db.apps[a].current == id
  }

  /** The recruiter's applications. */
  function OwnApps(db: Db, recruiter: nat): set<nat> {
    set a: nat | a < |db.apps| && db.apps[a].job < |db.jobs| && db.jobs[db.apps[a].job].recruiter == recruiter
  }

  /** Those of them whose current stage is, or is not, terminal. */
  function OwnAppsAt(db: Db, recruiter: nat, terminal: bool): set<nat> {
    set a: nat | a in OwnApps(db, recruiter) && StageRow(db, db.apps[a].current).Some?
                 && StageRow(db, db.apps[a].current).value.isTerminal == terminal
  }

  lemma CountsAreSizes(db: Db, recruiter: nat)
    ensures CountTotal(db, recruiter) == |OwnApps(db, recruiter)|
    ensures CountActive(db, recruiter) == |OwnAppsAt(db, recruiter, false)|
    ensures CountTerminal(db, recruiter) == |OwnAppsAt(db, recruiter, true)|
  {
    CountIsSize(OfRecruiter(db, recruiter), db.apps);
    CountIsSize(Active(db, recruiter), db.apps);
    CountIsSize(Terminal(db, recruiter), db.apps);
    assert OwnApps(db, recruiter) == Places(OfRecruiter(db, recruiter), db.apps);
    assert OwnAppsAt(db, recruiter, false) == Places(Active(db, recruiter), db.apps);
    assert OwnAppsAt(db, recruiter, true) == Places(Terminal(db, recruiter), db.apps);
  }

  /** The entry of stage `k` of job `j`: its id, name and flag, and how many applications are at it. */
  predicate IsEntryOf(db: Db, j: nat, k: nat, entry: StageCount) {
    && j < |db.jobs| && k < |db.jobs[j].stages|
    && var stage := db.jobs[j].stages[k];
       entry == StageCount(stage.id, stage.name, stage.isTerminal, |AppsAt(db, stage.id)|)
  }

  /** One of the recruiter's jobs among the first `m`, or just the job asked for. */
  predicate IsListedJob(db: Db, recruiter: nat, only: Option<nat>, m: nat, j: nat) {
    j < m && j < |db.jobs| && db.jobs[j].recruiter == recruiter && (only.Some? ==> only.value == j)
  }

  ghost predicate IsListed(db: Db, recruiter: nat, only: Option<nat>, m: nat, entry: StageCount) {
    exists j: nat, k: nat :: IsListedJob(db, recruiter, only, m, j) && IsEntryOf(db, j, k, entry)
  }

  lemma CountAtStage(db: Db, id: StageId)
    ensures Count(AtStage(id), db.apps) == |AppsAt(db, id)|
  {
    CountIsSize(AtStage(id), db.apps);
    assert AppsAt(db, id) == Places(AtStage(id), db.apps);
  }

  lemma StageEntry(db: Db, j: nat, k: nat)
    requires j < |db.jobs| && k < |db.jobs[j].stages|
    ensures IsEntryOf(db, j, k, StageCountOf(db, db.jobs[j].stages[k]))
  {
    CountAtStage(db, db.jobs[j].stages[k].id);
  }

  lemma OwnEntries(db: Db, j: nat, entry: StageCount)
    requires j < |db.jobs|
    ensures entry in StageCounts(db, db.jobs[j].stages) <==> exists k: nat :: IsEntryOf(db, j, k, entry)
  {
    forall k: nat | k < |db.jobs[j].stages| ensures IsEntryOf(db, j, k, StageCountOf(db, db.jobs[j].stages[k])) {
      StageEntry(db, j, k);
    }
    if k: nat :| IsEntryOf(db, j, k, entry) { assert StageCounts(db, db.jobs[j].stages)[k] == entry; }
  }

  lemma {:induction false} ListedEntries(db: Db, recruiter: nat, only: Option<nat>, m: nat, entry: StageCount)
    requires m <= |db.jobs|
    ensures entry in ByStage(db, recruiter, only, m) <==> IsListed(db, recruiter, only, m, entry)
  {
    if m > 0 {
      var j := m - 1;
      ListedEntries(db, recruiter, only, j, entry);
      OwnEntries(db, j, entry);
      if IsListed(db, recruiter, only, m, entry) && !IsListed(db, recruiter, only, j, entry) {
        var i: nat, k: nat :| IsListedJob(db, recruiter, only, m, i) && IsEntryOf(db, i, k, entry);
        assert i == j;
      }
      if IsListed(db, recruiter, only, j, entry) {
        var i: nat, k: nat :| IsListedJob(db, recruiter, only, j, i) && IsEntryOf(db, i, k, entry);
        assert IsListedJob(db, recruiter, only, m, i);
      }
      if entry in ByStage(db, recruiter, only, m) && entry !in ByStage(db, recruiter, only, j) {
        var k: nat :| IsEntryOf(db, j, k, entry);
        assert IsListedJob(db, recruiter, only, m, j);
      }
      if IsListedJob(db, recruiter, only, m, j) && exists k: nat :: IsEntryOf(db, j, k, entry) {
        assert entry in OwnStageCounts(db, recruiter, j);
      }
    }
  }

  /** The list has exactly the entries of the stages of the recruiter's jobs, or of the one asked for. */
  lemma StagesListedExactly(db: Db, recruiter: nat, only: Option<nat>, entry: StageCount)
    ensures entry in ApplicationsByStage(db, recruiter, only) <==>
              exists j: nat, k: nat :: IsListedJob(db, recruiter, only, |db.jobs|, j) && IsEntryOf(db, j, k, entry)
  {
    ListedEntries(db, recruiter, only, |db.jobs|, entry);
  }

  /** Which holds after every serial run of requests. */
  lemma CountsConservedInEveryRun(dir: Directory, requests: seq<Request>, recruiter: nat)
    ensures var db := Run(dir, EMPTY, requests);
            TotalOf(ApplicationsByStage(db, recruiter, None)) == CountTotal(db, recruiter)
            && CountTotal(db, recruiter) == CountActive(db, recruiter) + CountTerminal(db, recruiter)
  {
    EmptyInv();
    RunKeepsInv(dir, EMPTY, requests);
    CountsAreConserved(Run(dir, EMPTY, requests), recruiter);
  }

  /** And at every moment of every interleaving. */
  lemma CountsConservedInEveryInterleaving(dir: Directory, events: seq<Races.Event>, recruiter: nat)
    ensures var db := Races.Run(dir, Races.START, events).db;
            TotalOf(ApplicationsByStage(db, recruiter, None)) == CountTotal(db, recruiter)
            && CountTotal(db, recruiter) == CountActive(db, recruiter) + CountTerminal(db, recruiter)
  {
    Races.StartInv();
    Races.RunKeepsInv(dir, Races.START, events);
    CountsAreConserved(Races.Run(dir, Races.START, events).db, recruiter);
  }

  // ---- Counts taken at different moments.

  /** The tables after the first `n` events of an interleaved run. */
  function After(dir: Directory, events: seq<Races.Event>, n: nat): Db
    requires n <= |events|
  {
    Races.Run(dir, Races.START, events[..n]).db
  }

  /** Two moments of one interleaved run: jobs, stages and applications are only added. */
  lemma {:induction false} MomentsOfOneRun(dir: Directory, events: seq<Races.Event>, i: nat, k: nat)
    requires i <= k <= |events|
    ensures var db, later := After(dir, events, i), After(dir, events, k);
            Placed(db) && Placed(later) && JobsExtend(db, later) && AppsExtend(db, later)
  {
    Races.StartInv();
    if i == k {
      Races.RunKeepsInv(dir, Races.START, events[..i]);
    } else {
      var before := events[..k - 1];
      MomentsOfOneRun(dir, events, i, k - 1);
      assert events[..k][..k - 1] == before;
      Races.RunKeepsInv(dir, Races.START, before);
      Races.NextDb(dir, Races.Run(dir, Races.START, before), events[k - 1]);
    }
  }

  function CountBelow(p: nat -> bool, n: nat): nat {
    if n == 0 then 0 else CountBelow(p, n - 1) + (if p(n - 1) then 1 else 0)
  }

  /** Application `a` is in a terminal stage of one of the recruiter's jobs. */
  function TerminalAt(db: Db, recruiter: nat): nat -> bool {
    (a: nat) => a < |db.apps| && Terminal(db, recruiter)(db.apps[a])
  }

  function Gained(p: nat -> bool, q: nat -> bool): nat -> bool { (a: nat) => !p(a) && q(a) }

  lemma {:induction false} CountBelowDiffers(p: nat -> bool, q: nat -> bool, n: nat)
    ensures CountBelow(q, n) + CountBelow(Gained(q, p), n) == CountBelow(p, n) + CountBelow(Gained(p, q), n)
  {
    if n > 0 { CountBelowDiffers(p, q, n - 1); }
  }

  lemma {:induction false} TerminalByIndex(db: Db, recruiter: nat, apps: seq<AppRow>, n: nat)
    requires apps <= db.apps && |apps| <= n && (n > |apps| ==> apps == db.apps)
    ensures CountBelow(TerminalAt(db, recruiter), n) == Count(Terminal(db, recruiter), apps)
  {
    if n > |apps| {
      TerminalByIndex(db, recruiter, apps, n - 1);
    } else if n > 0 {
      TerminalByIndex(db, recruiter, apps[..n - 1], n - 1);
    }
  }

  /** How many applications are in a terminal stage of the recruiter's jobs in the second snapshot, and were
      not in the first. */
  function Entered(db: Db, other: Db, recruiter: nat): nat {
    CountBelow(Gained(TerminalAt(db, recruiter), TerminalAt(other, recruiter)), |db.apps| + |other.apps|)
  }

  lemma TerminalCountsDiffer(db: Db, other: Db, recruiter: nat)
    ensures CountTerminal(other, recruiter) + Entered(other, db, recruiter)
         == CountTerminal(db, recruiter) + Entered(db, other, recruiter)
  {
    var n := |db.apps| + |other.apps|;
    CountBelowDiffers(TerminalAt(db, recruiter), TerminalAt(other, recruiter), n);
    TerminalByIndex(db, recruiter, db.apps, n);
    TerminalByIndex(other, recruiter, other.apps, n);
  }

  /** The applications to the recruiter's jobs that were inserted between two snapshots. */
  function Inserted(db: Db, later: Db, recruiter: nat): nat
    requires |db.apps| <= |later.apps|
  {
    Count(OfRecruiter(later, recruiter), later.apps[|db.apps|..])
  }

  lemma {:induction false} CountConcat(p: AppRow -> bool, s: seq<AppRow>, t: seq<AppRow>)
    ensures Count(p, s + t) == Count(p, s) + Count(p, t)
  {
    if |t| == 0 {
      assert s + t == s;
    } else {
      assert (s + t)[..|s + t| - 1] == s + t[..|t| - 1];
      CountConcat(p, s, t[..|t| - 1]);
    }
  }

  lemma {:induction false} CountSameRows(p: AppRow -> bool, q: AppRow -> bool, s: seq<AppRow>, t: seq<AppRow>)
    requires |s| == |t| && forall i | 0 <= i < |s| :: p(s[i]) == q(t[i])
    ensures Count(p, s) == Count(q, t)
  {
    if |s| > 0 { CountSameRows(p, q, s[..|s| - 1], t[..|t| - 1]); }
  }

  lemma TotalsDifferByInsertions(db: Db, later: Db, recruiter: nat)
    requires Placed(db) && JobsExtend(db, later) && AppsExtend(db, later)
    ensures CountTotal(later, recruiter) == CountTotal(db, recruiter) + Inserted(db, later, recruiter)
  {
    var k := |db.apps|;
    assert later.apps[..k] + later.apps[k..] == later.apps;
    CountConcat(OfRecruiter(later, recruiter), later.apps[..k], later.apps[k..]);
    forall a | 0 <= a < k
      ensures OfRecruiter(db, recruiter)(db.apps[a]) == OfRecruiter(later, recruiter)(later.apps[..k][a])
    {
      assert AppOk(db, db.apps[a]);
    }
    CountSameRows(OfRecruiter(db, recruiter), OfRecruiter(later, recruiter), db.apps, later.apps[..k]);
  }

  /** The same, whichever of the two snapshots was taken first. */
  function InsertedSince(db: Db, other: Db, recruiter: nat): int {
    if |db.apps| <= |other.apps| then Inserted(db, other, recruiter) else 0 - Inserted(other, db, recruiter)
  }

  lemma TotalsDiffer(dir: Directory, events: seq<Races.Event>, i: nat, k: nat, recruiter: nat)
    requires i <= |events| && k <= |events|
    ensures var db, other := After(dir, events, i), After(dir, events, k);
            CountTotal(other, recruiter) == CountTotal(db, recruiter) + InsertedSince(db, other, recruiter)
  {
    var db, other := After(dir, events, i), After(dir, events, k);
    if i <= k {
      MomentsOfOneRun(dir, events, i, k);
      TotalsDifferByInsertions(db, other, recruiter);
    } else {
      MomentsOfOneRun(dir, events, k, i);
      TotalsDifferByInsertions(other, db, recruiter);
    }
  }

  /** The overview's queries run at any four moments of a run, in any order: the total at `x`, the stages at
      `y`, the active applications at `z` and the terminal ones at `w`. The stages add up to the total
      except for the applications inserted in between; active and terminal ones do except for those, and
      for the ones that entered or left a terminal stage in between. */
  lemma OverviewExactly(dir: Directory, events: seq<Races.Event>, x: nat, y: nat, z: nat, w: nat, recruiter: nat)
    requires x <= |events| && y <= |events| && z <= |events| && w <= |events|
    ensures var total, stages := After(dir, events, x), After(dir, events, y);
            var active, over := After(dir, events, z), After(dir, events, w);
            && TotalOf(ApplicationsByStage(stages, recruiter, None))
               == CountTotal(total, recruiter) + InsertedSince(total, stages, recruiter)
            && CountActive(active, recruiter) + CountTerminal(over, recruiter)
               == CountTotal(total, recruiter) + InsertedSince(total, active, recruiter)
                  + Entered(active, over, recruiter) - Entered(over, active, recruiter)
  {
    var active, over := After(dir, events, z), After(dir, events, w);
    TotalsDiffer(dir, events, x, y, recruiter);
    TotalsDiffer(dir, events, x, z, recruiter);
    CountsConservedInEveryInterleaving(dir, events[..y], recruiter);
    CountsConservedInEveryInterleaving(dir, events[..z], recruiter);
    TerminalCountsDiffer(active, over, recruiter);
  }

  /** So they need not add up: an application moved to a terminal stage between the two queries is counted
      by both. */
  lemma MoveIsCountedTwice(dir: Directory, db: Db, a: nat, target: StageId)
    requires TablesOk(db) && a < |db.apps| && db.apps[a].job < |db.jobs|
    requires Handle(dir, db, Move(db.jobs[db.apps[a].job].recruiter, a, Some(target))).Ok?
    requires StageRow(db, target).Some? && StageRow(db, target).value.isTerminal
    ensures var recruiter := db.jobs[db.apps[a].job].recruiter;
            var later := Next(dir, db, Move(recruiter, a, Some(target)));
            CountActive(db, recruiter) + CountTerminal(later, recruiter) == CountTotal(db, recruiter) + 1
  {
    var recruiter := db.jobs[db.apps[a].job].recruiter;
    var later, moved := Next(dir, db, Move(recruiter, a, Some(target))), db.apps[a].(current := target);
    CheckMoveKnows(db, recruiter, a, Some(target));
    MoveApplies(dir, db, recruiter, a, target);
    FindInOk(db.apps[a].job, db.jobs[db.apps[a].job].stages, db.apps[a].current);
    OneMoreTerminal(db, later, recruiter, a, moved);
    ActiveOrTerminal(db, recruiter);
  }

  lemma OneMoreTerminal(db: Db, later: Db, recruiter: nat, a: nat, moved: AppRow)
    requires a < |db.apps| && later.jobs == db.jobs && later.apps == db.apps[a := moved]
    requires !Terminal(db, recruiter)(db.apps[a]) && Terminal(db, recruiter)(moved)
    ensures CountTerminal(later, recruiter) == CountTerminal(db, recruiter) + 1
  {
    CountUpdate(Terminal(db, recruiter), db.apps, a, moved);
    CountSame(Terminal(db, recruiter), Terminal(later, recruiter), later.apps);
  }

  // ---- One job's pipeline.

  datatype PipelineStage = PipelineStage(stageId: StageId, stageName: string, order: nat, isTerminal: bool,
                                         applicationCount: nat)

  datatype JobPipeline = JobPipeline(jobId: nat, totalApplications: nat, stages: seq<PipelineStage>)

  function ListedStage(db: Db, stage: Stage): PipelineStage {
    PipelineStage(stage.id, stage.name, stage.order, stage.isTerminal, Count(AtStage(stage.id), db.apps))
  }

  lemma {:induction false} NoJobYet(db: Db, recruiter: nat, j: nat, m: nat)
    requires m <= j
    ensures ByStage(db, recruiter, Some(j), m) == []
  {
    if m > 0 { NoJobYet(db, recruiter, j, m - 1); }
  }

  lemma {:induction false} OnlyOneJob(db: Db, recruiter: nat, j: nat, m: nat)
    requires j < m
    ensures ByStage(db, recruiter, Some(j), m) == OwnStageCounts(db, recruiter, j)
  {
    if m == j + 1 { NoJobYet(db, recruiter, j, j); } else { OnlyOneJob(db, recruiter, j, m - 1); }
  }

  /** The counts as a map by stage id. */
  method CountsById(entries: seq<StageCount>) returns (counts: map<StageId, nat>)
    requires forall i, k | 0 <= i < k < |entries| :: entries[i].stageId != entries[k].stageId
    ensures forall i | 0 <= i < |entries| ::
              entries[i].stageId in counts && counts[entries[i].stageId] == entries[i].count
    ensures forall id | id in counts :: exists i | 0 <= i < |entries| :: entries[i].stageId == id
  {
    counts := map[];
    for n := 0 to |entries|
      invariant forall i | 0 <= i < n :: entries[i].stageId in counts && counts[entries[i].stageId] == entries[i].count
      invariant forall id | id in counts :: exists i | 0 <= i < n :: entries[i].stageId == id
    {
      counts := counts[entries[n].stageId := entries[n].count];
    }
  }

  function Unfilled(stage: Stage): PipelineStage {
    PipelineStage(stage.id, stage.name, stage.order, stage.isTerminal, 0)
  }

  /** Fill in each stage's count, in place, and add the counts up. There may be counts of more stages. */
  method FillCounts(sorted: seq<Stage>, entries: seq<StageCount>, counts: map<StageId, nat>)
    returns (stages: seq<PipelineStage>, total: nat)
    requires |sorted| <= |entries|
    requires forall i | 0 <= i < |sorted| ::
               entries[i].stageId == sorted[i].id && sorted[i].id in counts && counts[sorted[i].id] == entries[i].count
    ensures |stages| == |sorted|
    ensures forall i | 0 <= i < |sorted| :: stages[i] == Unfilled(sorted[i]).(applicationCount := entries[i].count)
    ensures total == TotalOf(entries[..|sorted|])
  {
    stages := seq(|sorted|, i requires 0 <= i < |sorted| => Unfilled(sorted[i]));
    total := 0;
    for n := 0 to |stages|
      invariant |stages| == |sorted|
      invariant forall i | 0 <= i < n :: stages[i] == Unfilled(sorted[i]).(applicationCount := entries[i].count)
      invariant forall i | n <= i < |stages| :: stages[i] == Unfilled(sorted[i])
      invariant total == TotalOf(entries[..n])
    {
      var count := if stages[n].stageId in counts then counts[stages[n].stageId] else 0;
      stages := stages[n := stages[n].(applicationCount := count)];
      assert entries[..n + 1][..n] == entries[..n];
      total := total + count;
    }
  }

  predicate Listed(j: nat, stages: seq<Stage>) {
    forall i | 0 <= i < |stages| :: stages[i].id == StageId(j, i) && stages[i].order == i + 1
  }

  /** The listing of the stages read, from the counts of the stages there are by then. */
  method ListStages(later: Db, j: nat, sorted: seq<Stage>, now: seq<Stage>, stageCounts: seq<StageCount>)
    returns (stages: seq<PipelineStage>, total: nat)
    requires Listed(j, sorted) && Listed(j, now) && |sorted| <= |now| && stageCounts == StageCounts(later, now)
    ensures |stages| == |sorted| && total == TotalOf(stageCounts[..|sorted|])
    ensures forall i | 0 <= i < |sorted| :: stages[i] == ListedStage(later, sorted[i])
  {
    assert forall i | 0 <= i < |now| :: stageCounts[i] == StageCountOf(later, now[i]);
    var countsByStageId := CountsById(stageCounts);
    stages, total := FillCounts(sorted, stageCounts, countsByStageId);
  }

  lemma ListedTotal(db: Db, j: nat, stages: seq<Stage>, k: nat)
    requires Listed(j, stages) && k <= |stages|
    ensures TotalOf(StageCounts(db, stages)[..k]) == Count(AtStagesBelow(j, k), db.apps)
  {
    StagesSum(db, j, stages, k);
    assert StageCounts(db, stages)[..k] == StageCounts(db, stages[..k]);
  }

  lemma PlacedIsListed(db: Db, j: nat)
    requires Placed(db) && j < |db.jobs|
    ensures Listed(j, db.jobs[j].stages) && SortByOrder(db.jobs[j].stages) == db.jobs[j].stages
  {
    assert WellPlaced(j, db.jobs[j].stages);
    LowestOfOk(j, db.jobs[j].stages);
  }

  lemma JobIsListed(db: Db, later: Db, recruiter: nat, j: nat)
    requires Placed(db) && Placed(later) && JobsExtend(db, later) && Owns(db, recruiter, j)
    ensures var stages, now := db.jobs[j].stages, later.jobs[j].stages;
            && Listed(j, stages) && Listed(j, now) && |stages| <= |now| && SortByOrder(stages) == stages
            && ApplicationsByStage(later, recruiter, Some(j)) == StageCounts(later, now)
            && TotalOf(StageCounts(later, now)[..|stages|]) == Count(AtStagesBelow(j, |stages|), later.apps)
  {
    PlacedIsListed(db, j);
    PlacedIsListed(later, j);
    OnlyOneJob(later, recruiter, j, |later.jobs|);
    ListedTotal(later, j, later.jobs[j].stages, |db.jobs[j].stages|);
  }

  /** The listing takes two reads, of the job and then of the counts, between which stages may be added and
      applications moved. It has each stage of the first read once, by order, with the applications at
      that stage by the second; its total is those of all the listed stages. */
  method GetJobPipeline(db: Db, later: Db, recruiter: nat, j: nat) returns (r: Option<JobPipeline>)
    requires Placed(db) && Placed(later) && JobsExtend(db, later)
    ensures r.Some? <==> Owns(db, recruiter, j)
    ensures r.Some? ==>
              && r.value.jobId == j
              && |r.value.stages| == |db.jobs[j].stages|
              && (forall i | 0 <= i < |db.jobs[j].stages| ::
                    var stage := db.jobs[j].stages[i];
                    r.value.stages[i] == PipelineStage(stage.id, stage.name, stage.order, stage.isTerminal,
                                                       |AppsAt(later, stage.id)|))
              && (forall i | 0 <= i < |r.value.stages| :: r.value.stages[i].order == i + 1)
              && r.value.totalApplications == Count(AtStagesBelow(j, |db.jobs[j].stages|), later.apps)
  {
    if j >= |db.jobs| || db.jobs[j].recruiter != recruiter {
      return None;
    }
    JobIsListed(db, later, recruiter, j);
    var sorted := SortByOrder(db.jobs[j].stages);
    var stageCounts := ApplicationsByStage(later, recruiter, Some(j));
    var stages, total := ListStages(later, j, sorted, later.jobs[j].stages, stageCounts);
    forall i | 0 <= i < |sorted| ensures stages[i].applicationCount == |AppsAt(later, sorted[i].id)| {
      CountAtStage(later, sorted[i].id);
    }
    r := Some(JobPipeline(j, total, stages));
  }

  /** At a stage of job `j` beyond the first `k`. */
  function AtStagesFrom(j: nat, k: nat): AppRow -> bool {
    (app: AppRow) => app.job == j && app.current.number >= k
  }

  /** That total is all applications of the job if and only if none sits in a stage added after the first
      read; in particular when both reads see the same tables. */
  lemma ListedTotalExactly(db: Db, later: Db, j: nat)
    requires Placed(db) && Placed(later) && JobsExtend(db, later) && j < |db.jobs|
    ensures var n := |db.jobs[j].stages|;
            && (Count(AtStagesBelow(j, n), later.apps) == Count(InJob(j), later.apps) <==>
                  forall a | 0 <= a < |later.apps| && later.apps[a].job == j :: later.apps[a].current.number < n)
            && (later == db ==> Count(AtStagesBelow(j, n), later.apps) == Count(InJob(j), later.apps))
  {
    var n := |db.jobs[j].stages|;
    forall a | 0 <= a < |later.apps| ensures AppOk(later, later.apps[a]) {
    }
    CountSplits(InJob(j), AtStagesBelow(j, n), AtStagesFrom(j, n), later.apps);
    if a :| 0 <= a < |later.apps| && AtStagesFrom(j, n)(later.apps[a]) {
      CountPositive(AtStagesFrom(j, n), later.apps, a);
    } else {
      CountZero(AtStagesFrom(j, n), later.apps);
    }
  }

  // ---- The chart.

  datatype AggregatedStage = AggregatedStage(stageName: string, count: nat)

  function Names(entries: seq<StageCount>): (r: seq<string>)
    ensures |r| == |entries| && forall i | 0 <= i < |entries| :: r[i] == entries[i].stageName
  {
    if |entries| == 0 then [] else Names(entries[..|entries| - 1]) + [entries[|entries| - 1].stageName]
  }

  /** The count of all entries of one name. */
  function CountNamed(entries: seq<StageCount>, name: string): nat {
    if |entries| == 0 then 0
    else
      var last := entries[|entries| - 1];
      CountNamed(entries[..|entries| - 1], name) + (if last.stageName == name then last.count else 0)
  }

  function TotalNamed(entries: seq<StageCount>, names: seq<string>): nat {
    if |names| == 0 then 0 else TotalNamed(entries, names[..|names| - 1]) + CountNamed(entries, names[|names| - 1])
  }

  /** One more entry changes the sum over a list of distinct names by its count, if it is named there. */
  lemma {:induction false} OneMoreEntry(entries: seq<StageCount>, names: seq<string>)
    requires |entries| > 0 && Keywords.Distinct(names)
    ensures var last := entries[|entries| - 1];
            TotalNamed(entries, names)
            == TotalNamed(entries[..|entries| - 1], names) + (if last.stageName in names then last.count else 0)
  {
    if |names| > 0 {
      var n := |names| - 1;
      OneMoreEntry(entries, names[..n]);
      assert names == names[..n] + [names[n]];
    }
  }

  lemma {:induction false} UnnamedIsZero(entries: seq<StageCount>, name: string)
    requires name !in Names(entries)
    ensures CountNamed(entries, name) == 0
  {
    if |entries| > 0 {
      assert Names(entries)[|entries| - 1] == entries[|entries| - 1].stageName;
      assert forall i | 0 <= i < |entries| - 1 :: Names(entries[..|entries| - 1])[i] == Names(entries)[i];
      UnnamedIsZero(entries[..|entries| - 1], name);
    }
  }

  /** Summing by name keeps the total. */
  lemma {:induction false} TotalByName(entries: seq<StageCount>)
    ensures TotalNamed(entries, Keywords.Dedupe(Names(entries))) == TotalOf(entries)
  {
    if |entries| > 0 {
      var n := |entries| - 1;
      var before, last := entries[..n], entries[n];
      var names := Keywords.Dedupe(Names(before));
      TotalByName(before);
      Keywords.DedupeMembers(Names(before));
      OneMoreEntry(entries, names);
      assert Names(entries)[..n] == Names(before) && Names(entries)[n] == last.stageName;
      if last.stageName !in Names(before) {
        UnnamedIsZero(before, last.stageName);
        assert Keywords.Dedupe(Names(entries)) == names + [last.stageName];
        assert (names + [last.stageName])[..|names|] == names;
      } else {
        assert Keywords.Dedupe(Names(entries)) == names + [] == names;
      }
    }
  }

  /** One more entry, in the terms of the loop below. */
  lemma EntryAdded(entries: seq<StageCount>, n: nat)
    requires n < |entries|
    ensures var before, after, name := entries[..n], entries[..n + 1], entries[n].stageName;
            && Keywords.Dedupe(Names(after))
               == Keywords.Dedupe(Names(before)) + (if name in Keywords.Dedupe(Names(before)) then [] else [name])
            && (name !in Keywords.Dedupe(Names(before)) ==> CountNamed(before, name) == 0)
            && (forall other ::
                  CountNamed(after, other)
                    == CountNamed(before, other) + (if other == name then entries[n].count else 0))
  {
    var before, after, name := entries[..n], entries[..n + 1], entries[n].stageName;
    assert after[..n] == before;
    assert Names(after) == Names(before) + [name];
    Keywords.DedupeMembers(Names(before));
    Keywords.DedupeAppend(Names(before), name);
    if name !in Names(before) { UnnamedIsZero(before, name); }
  }

  /** What the map holds after some entries. */
  ghost predicate Tallied(entries: seq<StageCount>, keys: seq<string>, totals: map<string, nat>) {
    && keys == Keywords.Dedupe(Names(entries))
    && (forall name :: name in totals <==> name in keys)
    && (forall name | name in totals :: totals[name] == CountNamed(entries, name))
  }

  lemma TallyStep(entries: seq<StageCount>, n: nat, keys: seq<string>, totals: map<string, nat>)
    requires n < |entries| && Tallied(entries[..n], keys, totals)
    ensures var name := entries[n].stageName;
            if name in totals then Tallied(entries[..n + 1], keys, totals[name := totals[name] + entries[n].count])
            else Tallied(entries[..n + 1], keys + [name], totals[name := 0 + entries[n].count])
  {
    EntryAdded(entries, n);
  }

  function RowsOf(keys: seq<string>, totals: map<string, nat>): (rows: seq<AggregatedStage>)
    requires forall name | name in keys :: name in totals
    ensures |rows| == |keys| && forall i | 0 <= i < |keys| :: rows[i] == AggregatedStage(keys[i], totals[keys[i]])
  {
    if |keys| == 0 then []
    else
      assert keys[|keys| - 1] in keys;
      RowsOf(keys[..|keys| - 1], totals) + [AggregatedStage(keys[|keys| - 1], totals[keys[|keys| - 1]])]
  }

  /** The chart's rows: each name once, in order of first occurrence, with its summed count; the rows
      add up to what the entries add up to. */
  method AggregateByStageName(entries: seq<StageCount>) returns (rows: seq<AggregatedStage>)
    ensures |rows| == |Keywords.Dedupe(Names(entries))|
    ensures forall i | 0 <= i < |rows| ::
              rows[i] == AggregatedStage(Keywords.Dedupe(Names(entries))[i],
                                         CountNamed(entries, Keywords.Dedupe(Names(entries))[i]))
    ensures RowTotal(rows) == TotalOf(entries)
  {
    // A map that remembers the order of insertion.
    var keys: seq<string>, totals: map<string, nat> := [], map[];
    for n := 0 to |entries|
      invariant Tallied(entries[..n], keys, totals)
    {
      var stage := entries[n];
      TallyStep(entries, n, keys, totals);
      if stage.stageName in totals {
        totals := totals[stage.stageName := totals[stage.stageName] + stage.count];
      } else {
        totals := totals[stage.stageName := 0 + stage.count];
        keys := keys + [stage.stageName];
      }
    }
    assert entries[..|entries|] == entries;
    rows := RowsOf(keys, totals);
    TotalByName(entries);
    RowsTotal(entries, keys, rows);
  }

  function RowTotal(rows: seq<AggregatedStage>): nat {
    if |rows| == 0 then 0 else RowTotal(rows[..|rows| - 1]) + rows[|rows| - 1].count
  }

  lemma {:induction false} RowsTotal(entries: seq<StageCount>, names: seq<string>, rows: seq<AggregatedStage>)
    requires |rows| == |names| && forall i | 0 <= i < |rows| :: rows[i].count == CountNamed(entries, names[i])
    ensures RowTotal(rows) == TotalNamed(entries, names)
  {
    if |rows| > 0 { RowsTotal(entries, names[..|names| - 1], rows[..|rows| - 1]); }
  }
}
