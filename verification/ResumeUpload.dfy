/** Resume upload: check for a duplicate, store the object, insert the row, and delete the object
    again when the insert fails. Every `await` is a step, so uploads interleave and may crash. */
module ResumeUpload {
  import opened Wrappers

  datatype ResumeRow = ResumeRow(candidate: nat, hash: nat, key: nat)

  datatype Outcome = Created | Conflict | Failed | Crashed

  /** The await an upload is about to perform. */
  datatype Pc =
    | AtCheck | AtStore | AtInsert | AtCleanup(outcome: Outcome) | AtEnqueue(resume: nat)
    | Finished(outcome: Outcome)

  /** One upload request; its storage key is fresh, and is the request's own number. `inserted`
      records a committed row, `orphaned` an object left behind by a failed or missed cleanup. */
  datatype Upload = Upload(candidate: nat, hash: nat, pc: Pc, inserted: bool, orphaned: bool)

  datatype System = System(objects: set<nat>, rows: seq<ResumeRow>, uploads: seq<Upload>, parseQueue: seq<nat>)

  /** `ok` says whether the storage, database or queue call itself succeeded. */
  datatype Event =
    | Begin(candidate: nat, hash: nat)
    | Check(u: nat)
    | Store(u: nat, ok: bool)
    | Insert(u: nat, ok: bool)
    | Cleanup(u: nat, ok: bool)
    | Enqueue(u: nat, ok: bool)
    | Crash(u: nat)

  predicate Exists(rows: seq<ResumeRow>, candidate: nat, hash: nat) {
    exists i | 0 <= i < |rows| :: rows[i].candidate == candidate && rows[i].hash == hash
  }

  /** An object is stored whose row is not committed yet. */
  predicate Holding(upload: Upload) { upload.pc.AtInsert? || upload.pc.AtCleanup? }

  function At(s: System, u: nat, upload: Upload): System
    requires u < |s.uploads|
  {
    s.(uploads := s.uploads[u := upload])
  }

  /** What the request does next, given the tables and whether the call succeeds. */
  function Advance(s: System, u: nat, ok: bool): System
    requires u < |s.uploads|
  {
    var me := s.uploads[u];
    match me.pc
    case AtCheck =>
      At(s, u, me.(pc := if Exists(s.rows, me.candidate, me.hash) then Finished(Conflict) else AtStore))
    case AtStore =>
      if ok then At(s.(objects := s.objects + {u}), u, me.(pc := AtInsert)) else At(s, u, me.(pc := Finished(Failed)))
    case AtInsert =>
      // The unique (candidate, hash) index refuses a second row.
      if Exists(s.rows, me.candidate, me.hash) then At(s, u, me.(pc := AtCleanup(Conflict)))
      else if !ok then At(s, u, me.(pc := AtCleanup(Failed)))
      else At(s.(rows := s.rows + [ResumeRow(me.candidate, me.hash, u)]), u,
              me.(pc := AtEnqueue(|s.rows|), inserted := true))
    case AtCleanup(outcome) =>
      // A failed delete is swallowed.
      if ok then At(s.(objects := s.objects - {u}), u, me.(pc := Finished(outcome)))
      else At(s, u, me.(pc := Finished(outcome), orphaned := true))
    case AtEnqueue(resume) =>
      // A failed enqueue is only logged.
      At(if ok then s.(parseQueue := s.parseQueue + [resume]) else s, u, me.(pc := Finished(Created)))
    case Finished(_) => s
  }

  /** A step that is not enabled changes nothing. */
  function Next(s: System, event: Event): System {
    match event
    case Begin(candidate, hash) => s.(uploads := s.uploads + [Upload(candidate, hash, AtCheck, false, false)])
    case Check(u) => if u < |s.uploads| && s.uploads[u].pc.AtCheck? then Advance(s, u, true) else s
    case Store(u, ok) => if u < |s.uploads| && s.uploads[u].pc.AtStore? then Advance(s, u, ok) else s
    case Insert(u, ok) => if u < |s.uploads| && s.uploads[u].pc.AtInsert? then Advance(s, u, ok) else s
    case Cleanup(u, ok) => if u < |s.uploads| && s.uploads[u].pc.AtCleanup? then Advance(s, u, ok) else s
    case Enqueue(u, ok) => if u < |s.uploads| && s.uploads[u].pc.AtEnqueue? then Advance(s, u, ok) else s
    case Crash(u) =>
      if u < |s.uploads| && !s.uploads[u].pc.Finished?
      then At(s, u, s.uploads[u].(pc := Finished(Crashed), orphaned := Holding(s.uploads[u])))
      else s
  }

  function Run(s: System, events: seq<Event>): System {
    if |events| == 0 then s else Next(Run(s, events[..|events| - 1]), events[|events| - 1])
  }

  const EMPTY := System({}, [], [], [])

  function RowKeys(s: System): set<nat> { set i | 0 <= i < |s.rows| :: s.rows[i].key }
  function InFlightKeys(s: System): set<nat> { set u: nat | u < |s.uploads| && Holding(s.uploads[u]) }
  function OrphanKeys(s: System): set<nat> { set u: nat | u < |s.uploads| && s.uploads[u].orphaned }

  predicate StageOk(me: Upload) {
    match me.pc
    case AtEnqueue(_) => me.inserted && !me.orphaned
    case AtCleanup(outcome) => !me.inserted && !me.orphaned && (outcome.Conflict? || outcome.Failed?)
    case Finished(outcome) =>
      (outcome.Created? ==> me.inserted) && (outcome.Conflict? || outcome.Failed? ==> !me.inserted)
        && !(me.inserted && me.orphaned)
    case _ => !me.inserted && !me.orphaned
  }

  /** One upload's record fits its place in the request. */
  predicate UploadOk(s: System, u: nat)
    requires u < |s.uploads|
  {
    var me := s.uploads[u];
    && StageOk(me)
    && (me.inserted <==> u in RowKeys(s))
    && (u in s.objects <==> me.inserted || me.orphaned || Holding(me))
    && (me.pc.AtEnqueue? ==> me.pc.resume < |s.rows| && s.rows[me.pc.resume].key == u && me.pc.resume !in s.parseQueue)
    && (me.pc in {AtCleanup(Conflict), Finished(Conflict)} ==> Exists(s.rows, me.candidate, me.hash))
  }

  ghost predicate RowsOk(s: System) {
    && (forall i | 0 <= i < |s.rows| :: s.rows[i].key < |s.uploads|
          && s.rows[i].candidate == s.uploads[s.rows[i].key].candidate
          && s.rows[i].hash == s.uploads[s.rows[i].key].hash)
    && (forall i, k | 0 <= i < k < |s.rows| :: s.rows[i].key != s.rows[k].key
          && (s.rows[i].candidate != s.rows[k].candidate || s.rows[i].hash != s.rows[k].hash))
    && (forall k | k in s.objects :: k < |s.uploads|)
    && (forall i | 0 <= i < |s.parseQueue| :: s.parseQueue[i] < |s.rows|)
    && (forall i, k | 0 <= i < k < |s.parseQueue| :: s.parseQueue[i] != s.parseQueue[k])
  }

  ghost predicate Inv(s: System) {
    RowsOk(s) && forall u | 0 <= u < |s.uploads| :: UploadOk(s, u)
  }

  lemma RowKeysAppend(s: System, row: ResumeRow)
    ensures RowKeys(s.(rows := s.rows + [row])) == RowKeys(s) + {row.key}
  {
    var t := s.(rows := s.rows + [row]);
    forall k | k in RowKeys(s) + {row.key} ensures k in RowKeys(t) {
      if k == row.key { assert t.rows[|s.rows|].key == k; }
      else { var i :| 0 <= i < |s.rows| && s.rows[i].key == k; assert t.rows[i].key == k; }
    }
  }

  lemma AdvanceKeepsRows(s: System, u: nat, ok: bool)
    requires Inv(s) && u < |s.uploads|
    ensures RowsOk(Advance(s, u, ok))
  {
    assert UploadOk(s, u);
  }

  lemma AdvanceKeys(s: System, u: nat, ok: bool)
    requires u < |s.uploads|
    ensures var t := Advance(s, u, ok);
            RowKeys(t) == RowKeys(s) + (if |t.rows| > |s.rows| then {u} else {})
  {
    var t := Advance(s, u, ok);
    if |t.rows| > |s.rows| { RowKeysAppend(s, t.rows[|s.rows|]); }
  }

  lemma ExistsStays(rows: seq<ResumeRow>, more: seq<ResumeRow>, candidate: nat, hash: nat)
    requires rows <= more && Exists(rows, candidate, hash)
    ensures Exists(more, candidate, hash)
  {
    var i :| 0 <= i < |rows| && rows[i].candidate == candidate && rows[i].hash == hash;
    assert more[i] == rows[i];
  }

  lemma AdvanceKeepsMine(s: System, u: nat, ok: bool)
    requires Inv(s) && u < |s.uploads|
    ensures UploadOk(Advance(s, u, ok), u)
  {
    assert UploadOk(s, u);
    AdvanceKeys(s, u, ok);
  }

  lemma AdvanceKeepsOther(s: System, u: nat, ok: bool, v: nat)
    requires Inv(s) && u < |s.uploads| && v < |s.uploads| && u != v
    ensures UploadOk(Advance(s, u, ok), v)
  {
    assert UploadOk(s, u) && UploadOk(s, v);
    AdvanceKeys(s, u, ok);
    var other := s.uploads[v];
    if Exists(s.rows, other.candidate, other.hash) {
      ExistsStays(s.rows, Advance(s, u, ok).rows, other.candidate, other.hash);
    }
  }

  lemma AdvanceKeepsInv(s: System, u: nat, ok: bool)
    requires Inv(s) && u < |s.uploads|
    ensures Inv(Advance(s, u, ok))
  {
    AdvanceKeepsRows(s, u, ok);
    forall v | 0 <= v < |s.uploads| ensures UploadOk(Advance(s, u, ok), v) {
      if v == u { AdvanceKeepsMine(s, v, ok); } else { AdvanceKeepsOther(s, u, ok, v); }
    }
  }

  lemma NextKeepsInv(s: System, event: Event)
    requires Inv(s)
    ensures Inv(Next(s, event))
  {
    var t := Next(s, event);
    match event
    case Begin(_, _) =>
      assert RowKeys(t) == RowKeys(s);
      forall v | 0 <= v < |t.uploads| ensures UploadOk(t, v) {
        if v < |s.uploads| { assert UploadOk(s, v); }
      }
    case Crash(u) =>
      assert RowKeys(t) == RowKeys(s);
      forall v | 0 <= v < |t.uploads| ensures UploadOk(t, v) { assert UploadOk(s, v); }
    case Check(u) => if t != s { AdvanceKeepsInv(s, u, true); }
    case Store(u, ok) => if t != s { AdvanceKeepsInv(s, u, ok); }
    case Insert(u, ok) => if t != s { AdvanceKeepsInv(s, u, ok); }
    case Cleanup(u, ok) => if t != s { AdvanceKeepsInv(s, u, ok); }
    case Enqueue(u, ok) => if t != s { AdvanceKeepsInv(s, u, ok); }
  }

  lemma NextKeepsInvIf(s: System, event: Event)
    ensures Inv(s) ==> Inv(Next(s, event))
  {
    if Inv(s) { NextKeepsInv(s, event); }
  }

  lemma {:induction false} RunKeepsInv(s: System, events: seq<Event>)
    requires Inv(s)
    ensures Inv(Run(s, events))
  {
    if |events| > 0 {
      RunKeepsInv(s, events[..|events| - 1]);
      NextKeepsInv(Run(s, events[..|events| - 1]), events[|events| - 1]);
    }
  }

  lemma ObjectPlace(s: System, k: nat)
    requires Inv(s)
    ensures k in s.objects <==> k in RowKeys(s) || k in InFlightKeys(s) || k in OrphanKeys(s)
    ensures k in RowKeys(s) ==> k !in InFlightKeys(s) && k !in OrphanKeys(s)
    ensures k in InFlightKeys(s) ==> k !in OrphanKeys(s)
  {
    if k < |s.uploads| { assert UploadOk(s, k) && StageOk(s.uploads[k]); }
  }

  /** Conservation, in every interleaving with failures and crashes: the stored objects are exactly
      those of rows, of uploads still in flight and of uploads whose cleanup failed or never ran,
      with no object counted twice. */
  lemma ObjectsConserved(events: seq<Event>)
    ensures var s := Run(EMPTY, events);
            && s.objects == RowKeys(s) + InFlightKeys(s) + OrphanKeys(s)
            && RowKeys(s) !! InFlightKeys(s) !! OrphanKeys(s)
  {
    RunKeepsInv(EMPTY, events);
    var s := Run(EMPTY, events);
    forall k: nat
      ensures k in s.objects <==> k in RowKeys(s) || k in InFlightKeys(s) || k in OrphanKeys(s)
      ensures k in RowKeys(s) ==> k !in InFlightKeys(s) && k !in OrphanKeys(s)
      ensures k in InFlightKeys(s) ==> k !in OrphanKeys(s)
    {
      ObjectPlace(s, k);
    }
  }

  /** No (candidate, hash) pair ever has two rows, every row's object is present, a row exists
      exactly for the uploads that committed one, and each resume is queued for parsing at most once. */
  lemma RowsAreUniqueAndBacked(events: seq<Event>)
    ensures var s := Run(EMPTY, events);
            && (forall i, k | 0 <= i < k < |s.rows| ::
                  s.rows[i].candidate != s.rows[k].candidate || s.rows[i].hash != s.rows[k].hash)
            && (forall i | 0 <= i < |s.rows| :: s.rows[i].key in s.objects)
            && (forall u | 0 <= u < |s.uploads| :: s.uploads[u].pc == Finished(Created) ==> u in RowKeys(s))
            && (forall u | 0 <= u < |s.uploads| ::
                  s.uploads[u].pc in {Finished(Conflict), Finished(Failed)} ==> u !in RowKeys(s))
            && (forall u | 0 <= u < |s.uploads| && s.uploads[u].pc == Finished(Conflict) ::
                  Exists(s.rows, s.uploads[u].candidate, s.uploads[u].hash))
            && (forall i, k | 0 <= i < k < |s.parseQueue| :: s.parseQueue[i] != s.parseQueue[k])
  {
    RunKeepsInv(EMPTY, events);
    var s := Run(EMPTY, events);
    forall i | 0 <= i < |s.rows| ensures s.rows[i].key in s.objects {
      assert s.rows[i].key in RowKeys(s);
      assert UploadOk(s, s.rows[i].key);
    }
    forall u | 0 <= u < |s.uploads|
      ensures s.uploads[u].pc == Finished(Created) ==> u in RowKeys(s)
      ensures s.uploads[u].pc in {Finished(Conflict), Finished(Failed)} ==> u !in RowKeys(s)
      ensures s.uploads[u].pc == Finished(Conflict) ==> Exists(s.rows, s.uploads[u].candidate, s.uploads[u].hash)
    {
      assert UploadOk(s, u) && StageOk(s.uploads[u]);
    }
  }

  datatype UploadError = ProfileMissing | InvalidFile | AlreadyUploaded | StorageFailed | InsertFailed

  class ResumeService {
    var objects: set<nat>
    var rows: seq<ResumeRow>
    var uploads: seq<Upload>
    var parseQueue: seq<nat>

    constructor ()
      ensures State() == EMPTY
    {
      objects, rows, uploads, parseQueue := {}, [], [], [];
    }

    function State(): System
      reads this
    {
      System(objects, rows, uploads, parseQueue)
    }

    method FindByCandidateAndHash(u: nat)
      requires u < |uploads| && uploads[u].pc.AtCheck?
      modifies this
      ensures State() == Next(old(State()), Check(u))
      ensures old(Inv(State())) ==> Inv(State())
    {
      NextKeepsInvIf(State(), Check(u));
      var existing := Exists(rows, uploads[u].candidate, uploads[u].hash);
      uploads := uploads[u := uploads[u].(pc := if existing then Finished(Conflict) else AtStore)];
    }

    method StoreObject(u: nat, ok: bool)
      requires u < |uploads| && uploads[u].pc.AtStore?
      modifies this
      ensures State() == Next(old(State()), Store(u, ok))
      ensures old(Inv(State())) ==> Inv(State())
    {
      NextKeepsInvIf(State(), Store(u, ok));
      if ok {
        objects := objects + {u};
      }
      uploads := uploads[u := uploads[u].(pc := if ok then AtInsert else Finished(Failed))];
    }

    method CreateRow(u: nat, ok: bool)
      requires u < |uploads| && uploads[u].pc.AtInsert?
      modifies this
      ensures State() == Next(old(State()), Insert(u, ok))
      ensures old(Inv(State())) ==> Inv(State())
      ensures var me := old(uploads)[u];
              var taken := exists i | 0 <= i < |old(rows)| ::
                old(rows)[i].candidate == me.candidate && old(rows)[i].hash == me.hash;
              && rows == old(rows) + (if ok && !taken then [ResumeRow(me.candidate, me.hash, u)] else [])
              && uploads == old(uploads)[u := uploads[u]]
              && uploads[u] == (if taken then me.(pc := AtCleanup(Conflict))
                                else if !ok then me.(pc := AtCleanup(Failed))
                                else me.(pc := AtEnqueue(|old(rows)|), inserted := true))
      ensures objects == old(objects) && parseQueue == old(parseQueue)
    {
      NextKeepsInvIf(State(), Insert(u, ok));
      var me := uploads[u];
      if Exists(rows, me.candidate, me.hash) {
        uploads := uploads[u := me.(pc := AtCleanup(Conflict))];
      } else if !ok {
        uploads := uploads[u := me.(pc := AtCleanup(Failed))];
      } else {
        rows := rows + [ResumeRow(me.candidate, me.hash, u)];
        uploads := uploads[u := me.(pc := AtEnqueue(|rows| - 1), inserted := true)];
      }
    }

    method DeleteObject(u: nat, ok: bool)
      requires u < |uploads| && uploads[u].pc.AtCleanup?
      modifies this
      ensures State() == Next(old(State()), Cleanup(u, ok))
      ensures old(Inv(State())) ==> Inv(State())
      ensures objects == if ok then old(objects) - {u} else old(objects)
      ensures uploads == old(uploads)[u := old(uploads)[u].(pc := Finished(old(uploads)[u].pc.outcome),
                                                            orphaned := old(uploads)[u].orphaned || !ok)]
      ensures rows == old(rows) && parseQueue == old(parseQueue)
    {
      NextKeepsInvIf(State(), Cleanup(u, ok));
      var outcome := uploads[u].pc.outcome;
      if ok {
        objects := objects - {u};
        uploads := uploads[u := uploads[u].(pc := Finished(outcome))];
      } else {
        uploads := uploads[u := uploads[u].(pc := Finished(outcome), orphaned := true)];
      }
    }

    method EnqueueParse(u: nat, ok: bool)
      requires u < |uploads| && uploads[u].pc.AtEnqueue?
      modifies this
      ensures State() == Next(old(State()), Enqueue(u, ok))
      ensures old(Inv(State())) ==> Inv(State())
    {
      NextKeepsInvIf(State(), Enqueue(u, ok));
      if ok {
        parseQueue := parseQueue + [uploads[u].pc.resume];
      }
      uploads := uploads[u := uploads[u].(pc := Finished(Created))];
    }

    /** The insert and what follows it: the clean-up after a refusal, or the parse job. */
    method InsertAndSettle(u: nat, inserted: bool, deleted: bool, enqueued: bool) returns (created: bool)
      requires Inv(State()) && u < |uploads| && uploads[u].pc.AtInsert?
      modifies this
      ensures Inv(State())
      ensures created <==> inserted && !Exists(old(rows), old(uploads)[u].candidate, old(uploads)[u].hash)
      ensures created ==> && rows == old(rows) + [ResumeRow(old(uploads)[u].candidate, old(uploads)[u].hash, u)]
                          && objects == old(objects)
                          && parseQueue == old(parseQueue) + (if enqueued then [|old(rows)|] else [])
      ensures !created ==> && rows == old(rows) && parseQueue == old(parseQueue)
                           && objects == (if deleted then old(objects) - {u} else old(objects))
    {
      CreateRow(u, inserted);
      created := uploads[u].pc.AtEnqueue?;
      if created {
        EnqueueParse(u, enqueued);
      } else {
        DeleteObject(u, deleted);
      }
    }

    /** The whole request with nothing in between: a success adds exactly one row with its object;
        a refusal changes no row, and leaves an object behind only if its delete fails. */
    method UploadResume(candidate: Option<nat>, valid: bool, hash: nat,
                        stored: bool, inserted: bool, deleted: bool, enqueued: bool)
      returns (r: Result<nat, UploadError>)
      requires Inv(State())
      modifies this
      ensures Inv(State())
      ensures (if r.Ok? then None else Some(r.error))
              == if candidate.None? then Some(ProfileMissing)
                 else if !valid then Some(InvalidFile)
                 else if exists i | 0 <= i < |old(rows)| ::
                        old(rows)[i].candidate == candidate.value && old(rows)[i].hash == hash
                   then Some(AlreadyUploaded)
                 else if !stored then Some(StorageFailed)
                 else if !inserted then Some(InsertFailed) else None
      ensures r.Ok? ==> && r.value == old(|rows|)
                        && rows == old(rows) + [ResumeRow(candidate.value, hash, old(|uploads|))]
                        && objects == old(objects) + {old(|uploads|)}
                        && parseQueue == old(parseQueue) + (if enqueued then [r.value] else [])
      ensures r.Err? ==> && rows == old(rows) && parseQueue == old(parseQueue)
                         && objects == (if r.error.InsertFailed? && !deleted
                                        then old(objects) + {old(|uploads|)} else old(objects))
    {
      if candidate.None? {
        return Err(ProfileMissing);
      }
      if !valid {
        return Err(InvalidFile);
      }
      var u := |uploads|;
      assert u !in objects;
      NextKeepsInv(State(), Begin(candidate.value, hash));
      uploads := uploads + [Upload(candidate.value, hash, AtCheck, false, false)];
      FindByCandidateAndHash(u);
      if uploads[u].pc.Finished? {
        return Err(AlreadyUploaded);
      }
      StoreObject(u, stored);
      if !stored {
        return Err(StorageFailed);
      }
      var created := InsertAndSettle(u, inserted, deleted, enqueued);
      return if created then Ok(|rows| - 1) else Err(InsertFailed);
    }
  }
}
