/** The stage transition rule, the browser's own copy of it, and what an application can reach. */
module StageRule {
  import opened Wrappers

  /** A stage's identity: its job, and a number that is fresh within the job. */
  datatype StageId = StageId(job: nat, number: nat)

  datatype Stage = Stage(id: StageId, name: string, order: nat, isTerminal: bool)

  datatype TransitionError = TerminalReached | SameStage | NotNextNorTerminal

  /** The backend's check: `None` when the move is accepted. */
  function CheckTransition(current: Stage, target: Stage): Option<TransitionError> {
    if current.isTerminal then Some(TerminalReached)
    else if target.id == current.id then Some(SameStage)
    else if target.isTerminal then None
    else if target.order != current.order + 1 then Some(NotNextNorTerminal)
    else None
  }

  predicate Accepts(current: Stage, target: Stage) {
    CheckTransition(current, target).None?
  }

  // ---- The browser's copy.

  function FindByOrder(stages: seq<Stage>, order: nat): Option<Stage> {
    if |stages| == 0 then None
    else if stages[0].order == order then Some(stages[0])
    else FindByOrder(stages[1..], order)
  }

  function ValidTargetStageIds(current: Stage, stages: seq<Stage>): set<StageId> {
    if current.isTerminal then {}
    else
      var next := FindByOrder(stages, current.order + 1);
      (if next.Some? then {next.value.id} else {})
      + (set stage | stage in stages && stage.isTerminal && stage.id != current.id :: stage.id)
  }

  predicate DistinctIds(stages: seq<Stage>) {
    forall i, k | 0 <= i < k < |stages| :: stages[i].id != stages[k].id
  }

  predicate DistinctOrders(stages: seq<Stage>) {
    forall i, k | 0 <= i < k < |stages| :: stages[i].order != stages[k].order
  }

  lemma {:induction false} FindByOrderFinds(stages: seq<Stage>, order: nat)
    ensures FindByOrder(stages, order).Some? ==>
              FindByOrder(stages, order).value in stages && FindByOrder(stages, order).value.order == order
    ensures FindByOrder(stages, order).None? ==> forall stage | stage in stages :: stage.order != order
  {
    if |stages| > 0 {
      FindByOrderFinds(stages[1..], order);
    }
  }

  function AcceptedIds(current: Stage, stages: seq<Stage>): set<StageId> {
    set stage | stage in stages && Accepts(current, stage) :: stage.id
  }

  /** The browser never offers a stage the backend refuses. */
  lemma OfferedIsAccepted(current: Stage, stages: seq<Stage>)
    requires DistinctIds(stages) && current in stages
    ensures ValidTargetStageIds(current, stages) <= AcceptedIds(current, stages)
  {
    FindByOrderFinds(stages, current.order + 1);
    var next := FindByOrder(stages, current.order + 1);
    if !current.isTerminal && next.Some? {
      var i :| 0 <= i < |stages| && stages[i] == next.value;
      var k :| 0 <= k < |stages| && stages[k] == current;
      assert Accepts(current, next.value);
    }
  }

  /** With distinct orders, the stages it offers are exactly the accepted ones. */
  lemma OfferedIffAccepted(current: Stage, stages: seq<Stage>)
    requires DistinctIds(stages) && DistinctOrders(stages) && current in stages
    ensures ValidTargetStageIds(current, stages) == AcceptedIds(current, stages)
  {
    OfferedIsAccepted(current, stages);
    FindByOrderFinds(stages, current.order + 1);
    forall stage | stage in stages && Accepts(current, stage) ensures stage.id in ValidTargetStageIds(current, stages) {
      if !stage.isTerminal {
        var next := FindByOrder(stages, current.order + 1).value;
        var i :| 0 <= i < |stages| && stages[i] == stage;
        var k :| 0 <= k < |stages| && stages[k] == next;
        assert i == k;
      }
    }
  }

  // ---- Reachability, for stages listed by order 1..n.

  predicate Numbered(stages: seq<Stage>) {
    DistinctIds(stages) && forall i | 0 <= i < |stages| :: stages[i].order == i + 1
  }

  /** A history of positions: it starts at the first stage, and every move is accepted. */
  predicate IsPath(stages: seq<Stage>, path: seq<nat>) {
    && |path| > 0 && path[0] == 0
    && (forall i | 0 <= i < |path| :: path[i] < |stages|)
    && (forall i | 0 <= i < |path| - 1 :: Accepts(stages[path[i]], stages[path[i + 1]]))
  }

  ghost predicate Reachable(stages: seq<Stage>, k: nat) {
    exists path: seq<nat> :: IsPath(stages, path) && path[|path| - 1] == k
  }

  /** No terminal stage up to and including `k`. */
  predicate OpenPrefix(stages: seq<Stage>, k: nat)
    requires k < |stages|
  {
    forall i | 0 <= i <= k :: !stages[i].isTerminal
  }

  predicate CanReach(stages: seq<Stage>, k: nat)
    requires k < |stages|
  {
    if stages[0].isTerminal then k == 0 else stages[k].isTerminal || OpenPrefix(stages, k)
  }

  lemma MoveStaysInReach(stages: seq<Stage>, from: nat, to: nat)
    requires Numbered(stages) && from < |stages| && to < |stages| && CanReach(stages, from)
    requires Accepts(stages[from], stages[to])
    ensures CanReach(stages, to)
  {
  }

  lemma {:induction false} PathStaysInReach(stages: seq<Stage>, path: seq<nat>)
    requires Numbered(stages) && IsPath(stages, path)
    ensures path[|path| - 1] < |stages| && CanReach(stages, path[|path| - 1])
  {
    var n := |path| - 1;
    if n > 0 {
      assert IsPath(stages, path[..n]);
      PathStaysInReach(stages, path[..n]);
      assert Accepts(stages[path[n - 1]], stages[path[n]]);
      MoveStaysInReach(stages, path[n - 1], path[n]);
    }
  }

  function Ascent(k: nat): (path: seq<nat>)
    ensures |path| == k + 1 && forall i | 0 <= i <= k :: path[i] == i
  {
    if k == 0 then [0] else Ascent(k - 1) + [k]
  }

  lemma AscentIsPath(stages: seq<Stage>, k: nat)
    requires Numbered(stages) && k < |stages| && OpenPrefix(stages, k)
    ensures IsPath(stages, Ascent(k))
  {
    var path := Ascent(k);
    forall i | 0 <= i < |path| - 1 ensures Accepts(stages[path[i]], stages[path[i + 1]]) {
      assert stages[i].id != stages[i + 1].id;
    }
  }

  /** Exactly these stages can ever be reached: the first alone when it is terminal; otherwise every
      terminal stage, and the non-terminal ones before the first terminal one. */
  lemma ReachableExactly(stages: seq<Stage>, k: nat)
    requires Numbered(stages) && k < |stages|
    ensures Reachable(stages, k) <==> CanReach(stages, k)
  {
    if Reachable(stages, k) {
      var path: seq<nat> :| IsPath(stages, path) && path[|path| - 1] == k;
      PathStaysInReach(stages, path);
    }
    if CanReach(stages, k) {
      if k == 0 {
        assert IsPath(stages, [0]) && [0 as nat][0] == k;
      } else if OpenPrefix(stages, k) {
        AscentIsPath(stages, k);
      } else {
        var path: seq<nat> := [0, k];
        assert stages[0].id != stages[k].id;
        assert IsPath(stages, path);
      }
    }
  }

  /** Nothing is accepted from stage `k`. */
  predicate Stuck(stages: seq<Stage>, k: nat)
    requires k < |stages|
  {
    forall i | 0 <= i < |stages| :: !Accepts(stages[k], stages[i])
  }

  /** A non-terminal stage is a dead end exactly when it is the last and there is no terminal one. */
  lemma StuckExactly(stages: seq<Stage>, k: nat)
    requires Numbered(stages) && k < |stages| && !stages[k].isTerminal
    ensures Stuck(stages, k) <==> k == |stages| - 1 && forall i | 0 <= i < |stages| :: !stages[i].isTerminal
  {
    if k + 1 < |stages| {
      assert stages[k].id != stages[k + 1].id;
      assert Accepts(stages[k], stages[k + 1]);
    }
    forall i | 0 <= i < |stages| && stages[i].isTerminal ensures Accepts(stages[k], stages[i]) {
      assert i < k || k < i;
      assert stages[k].id != stages[i].id;
    }
  }

  /** Some stage before the `k`-th is terminal. */
  predicate TerminalBefore(stages: seq<Stage>, k: nat)
    requires k <= |stages|
  {
    exists i | 0 <= i < k :: stages[i].isTerminal
  }

  /** How many moves are left from stage `k` when the pipeline has at most `n` stages: up to the last one,
      and then to a terminal stage further back, if there is any. */
  function Remaining(n: nat, stages: seq<Stage>, k: nat): nat
    requires k < |stages|
  {
    if stages[k].isTerminal || k >= n then 0 else n - 1 - k + (if TerminalBefore(stages, k) then 1 else 0)
  }

  lemma RemainingBounded(n: nat, stages: seq<Stage>, k: nat)
    requires k < |stages| <= n
    ensures Remaining(n, stages, k) <= n - 1
  {
  }

  /** Every accepted move uses some of it up. */
  lemma MovesUseUp(n: nat, stages: seq<Stage>, from: nat, to: nat)
    requires Numbered(stages) && from < |stages| <= n && to < |stages| && Accepts(stages[from], stages[to])
    ensures Remaining(n, stages, to) < Remaining(n, stages, from)
  {
    if stages[to].isTerminal && from == n - 1 { assert TerminalBefore(stages, from); }
  }

  /** So, with fixed flags, a path makes at most n - 1 moves, and only its last stage is terminal. */
  lemma {:induction false} PathsAreShort(stages: seq<Stage>, path: seq<nat>)
    requires Numbered(stages) && IsPath(stages, path)
    ensures |path| - 1 + Remaining(|stages|, stages, path[|path| - 1]) <= |stages| - 1
    ensures forall i | 0 <= i < |path| - 1 :: !stages[path[i]].isTerminal
  {
    var n := |path| - 1;
    RemainingBounded(|stages|, stages, path[n]);
    if n > 0 {
      assert IsPath(stages, path[..n]);
      PathsAreShort(stages, path[..n]);
      assert Accepts(stages[path[n - 1]], stages[path[n]]);
      MovesUseUp(|stages|, stages, path[n - 1], path[n]);
    }
  }
}
