/** The `application.rank` worker over its tables. Every delivery takes one step per `await` that
    touches a table; deliveries crash anywhere, are repeated, and interleave with each other, with
    the writes of any `resume.parse` deliveries, and with recruiters editing job texts. */
module ApplicationRanking {
  import opened Wrappers
  import opened Sequences
  import opened DeterministicScore
  import opened CosineSimilarity
  import Keywords
  import Parser = ResumeParser

  /** Whether an embedding service is configured, what it answers, and the square root in use. */
  datatype Services = Services(embeddings: bool, model: string -> Vector, sqrt: real -> real)

  const MAX_INPUT_CHARS := 8000

  datatype Job = Job(title: string, description: string, requirements: string, embedding: Vector)

  datatype ResumeRow = ResumeRow(row: Parser.Resume, embedding: Vector)

  datatype Ranking = Ranking(score: int, deterministic: int, similarity: Option<int>)

  /** `ranking` is set together with `rankedAt`. */
  datatype Application = Application(job: nat, resume: Option<nat>, ranking: Option<Ranking>)

  /** The await a delivery is about to perform. Embedding calls and the rationale touch no table, so
      they belong to the write that follows them. */
  datatype Pc =
    | AtApplication
    | AtJob
    | AtResume
    | AtCacheJob
    | AtCacheResume(jobVector: Vector)
    | AtWrite(ranking: Ranking)
    | Ended

  /** One delivery, with the rows it read and the ranking it wrote. */
  datatype Delivery = Delivery(
    app: nat, pc: Pc, seenJob: Option<Job>, seenResume: Option<ResumeRow>, result: Option<Ranking>)

  datatype System = System(
    jobs: seq<Job>, resumes: seq<ResumeRow>, apps: seq<Application>, deliveries: seq<Delivery>)

  datatype Event =
    | Start(app: nat)
    | Advance(d: nat)
    | Crash(d: nat)
    | ParseWrite(resume: nat, write: Parser.RowWrite)
    | Edit(job: nat, title: Option<string>, description: Option<string>, requirements: Option<string>)

  function JobText(job: Job): string {
    job.title + "\n\n" + job.description + "\n\n" + job.requirements
  }

  function Head(text: string): string {
    if |text| <= MAX_INPUT_CHARS then text else text[..MAX_INPUT_CHARS]
  }

  function Embed(sv: Services, text: string): Vector {
    sv.model(Head(text))
  }

  function CandidateText(resume: Option<ResumeRow>): string {
    if resume.Some? && resume.value.row.parsedData.Some? then resume.value.row.parsedData.value.rawText else ""
  }

  function CandidateSkills(resume: Option<ResumeRow>): seq<string> {
    if resume.Some? && resume.value.row.parsedData.Some? && resume.value.row.parsedData.value.structured.Some?
    then resume.value.row.parsedData.value.structured.value.skills else []
  }

  predicate Settled(resume: ResumeRow) {
    resume.row.status.PARSED? || resume.row.status.FAILED?
  }

  function BaseScore(jobText: string, resume: Option<ResumeRow>): int {
    ComputeDeterministicScore(jobText, CandidateSkills(resume), CandidateText(resume)).score
  }

  function SimilarityScore(sv: Services, a: Vector, b: Vector): int {
    Round(Similarity(sv.sqrt, a, b) * 100.0)
  }

  function Blended(base: int, similarity: int): Ranking {
    Ranking(Blend(base, similarity), base, Some(similarity))
  }

  predicate UsesEmbedding(sv: Services, resume: Option<ResumeRow>) {
    sv.embeddings && resume.Some? && CandidateText(resume) != ""
  }

  /** The ranking computed from the texts alone, with no cache anywhere. */
  function CleanRanking(sv: Services, jobText: string, resume: Option<ResumeRow>): Ranking {
    if UsesEmbedding(sv, resume)
    then Blended(BaseScore(jobText, resume), SimilarityScore(sv, Embed(sv, jobText), Embed(sv, CandidateText(resume))))
    else Ranking(BaseScore(jobText, resume), BaseScore(jobText, resume), None)
  }

  // ---- The steps.

  function WithDelivery(s: System, d: nat, delivery: Delivery): System
    requires d < |s.deliveries|
  {
    s.(deliveries := s.deliveries[d := delivery])
  }

  function ResumeOf(s: System, app: Application): Option<ResumeRow> {
    if app.resume.Some? && app.resume.value < |s.resumes| then Some(s.resumes[app.resume.value]) else None
  }

  /** What follows once the job's vector is known. */
  function AfterJobVector(sv: Services, me: Delivery, jobVector: Vector): Pc
    requires me.seenJob.Some? && me.seenResume.Some?
  {
    if me.seenResume.value.embedding == [] then AtCacheResume(jobVector)
    else AtWrite(Blended(BaseScore(JobText(me.seenJob.value), me.seenResume),
                         SimilarityScore(sv, jobVector, me.seenResume.value.embedding)))
  }

  function AfterResume(sv: Services, me: Delivery): Pc
    requires me.seenJob.Some?
  {
    if !UsesEmbedding(sv, me.seenResume) then AtWrite(CleanRanking(sv, JobText(me.seenJob.value), me.seenResume))
    else if me.seenJob.value.embedding == [] then AtCacheJob
    else AfterJobVector(sv, me, me.seenJob.value.embedding)
  }

  function ReadApplication(s: System, d: nat): System
    requires d < |s.deliveries|
  {
    var me := s.deliveries[d];
    // Missing, or ranked by an earlier delivery.
    WithDelivery(s, d, me.(pc := if me.app >= |s.apps| || s.apps[me.app].ranking.Some? then Ended else AtJob))
  }

  function ReadJob(s: System, d: nat): System
    requires d < |s.deliveries| && s.deliveries[d].app < |s.apps|
  {
    var me := s.deliveries[d];
    var job := s.apps[me.app].job;
    WithDelivery(s, d, if job >= |s.jobs| then me.(pc := Ended) else me.(seenJob := Some(s.jobs[job]), pc := AtResume))
  }

  function ReadResume(sv: Services, s: System, d: nat): System
    requires d < |s.deliveries| && s.deliveries[d].app < |s.apps| && s.deliveries[d].seenJob.Some?
  {
    var me := s.deliveries[d];
    var resume := ResumeOf(s, s.apps[me.app]);
    // Parsing has not finished: throw, and let the queue retry.
    if resume.Some? && !Settled(resume.value) then WithDelivery(s, d, me.(pc := Ended))
    else
      var seen := me.(seenResume := resume);
      WithDelivery(s, d, seen.(pc := AfterResume(sv, seen)))
  }

  function CacheJob(sv: Services, s: System, d: nat): System
    requires d < |s.deliveries| && s.deliveries[d].app < |s.apps| && s.apps[s.deliveries[d].app].job < |s.jobs|
    requires s.deliveries[d].seenJob.Some? && s.deliveries[d].seenResume.Some?
  {
    var me := s.deliveries[d];
    var job := s.apps[me.app].job;
    var vector := Embed(sv, JobText(me.seenJob.value));
    WithDelivery(s.(jobs := s.jobs[job := s.jobs[job].(embedding := vector)]), d,
                 me.(pc := AfterJobVector(sv, me, vector)))
  }

  function CacheResume(sv: Services, s: System, d: nat): System
    requires d < |s.deliveries| && s.deliveries[d].app < |s.apps| && ResumeOf(s, s.apps[s.deliveries[d].app]).Some?
    requires s.deliveries[d].seenJob.Some? && s.deliveries[d].pc.AtCacheResume?
  {
    var me := s.deliveries[d];
    var resume := s.apps[me.app].resume.value;
    var vector := Embed(sv, CandidateText(me.seenResume));
    var ranking := Blended(BaseScore(JobText(me.seenJob.value), me.seenResume),
                           SimilarityScore(sv, me.pc.jobVector, vector));
    WithDelivery(s.(resumes := s.resumes[resume := s.resumes[resume].(embedding := vector)]), d,
                 me.(pc := AtWrite(ranking)))
  }

  function WriteRanking(s: System, d: nat): System
    requires d < |s.deliveries| && s.deliveries[d].app < |s.apps| && s.deliveries[d].pc.AtWrite?
  {
    var me := s.deliveries[d];
    var app := s.apps[me.app].(ranking := Some(me.pc.ranking));
    WithDelivery(s.(apps := s.apps[me.app := app]), d, me.(pc := Ended, result := Some(me.pc.ranking)))
  }

  /** What a delivery's place requires of its record. */
  predicate Ready(s: System, me: Delivery) {
    match me.pc
    case AtApplication => true
    case AtJob => me.app < |s.apps|
    case AtResume => me.app < |s.apps| && me.seenJob.Some? && s.apps[me.app].job < |s.jobs|
    case AtCacheJob =>
      me.app < |s.apps| && s.apps[me.app].job < |s.jobs| && me.seenJob.Some? && me.seenResume.Some?
    case AtCacheResume(_) =>
      me.app < |s.apps| && me.seenJob.Some? && me.seenResume.Some? && ResumeOf(s, s.apps[me.app]).Some?
    case AtWrite(_) => me.app < |s.apps| && me.seenJob.Some?
    case Ended => true
  }

  function AdvanceStep(sv: Services, s: System, d: nat): System
    requires d < |s.deliveries| && Ready(s, s.deliveries[d])
  {
    match s.deliveries[d].pc
    case AtApplication => ReadApplication(s, d)
    case AtJob => ReadJob(s, d)
    case AtResume => ReadResume(sv, s, d)
    case AtCacheJob => CacheJob(sv, s, d)
    case AtCacheResume(_) => CacheResume(sv, s, d)
    case AtWrite(_) => WriteRanking(s, d)
    case Ended => s
  }

  /** A recruiter's edit: the given fields change, and any given field clears the cached vector. */
  function EditJob(job: Job, title: Option<string>, description: Option<string>, requirements: Option<string>): Job {
    Job(title.GetOr(job.title), description.GetOr(job.description), requirements.GetOr(job.requirements),
        if title.Some? || description.Some? || requirements.Some? then [] else job.embedding)
  }

  /** Parsing stores the extraction of the file, which is the same text every time. */
  predicate Extracts(row: Parser.Resume, write: Parser.RowWrite) {
    write.WriteParsed? ==> write.data.rawText == row.file.text
  }

  /** A step that is not enabled changes nothing. */
  function Next(sv: Services, s: System, event: Event): System {
    match event
    case Start(app) => s.(deliveries := s.deliveries + [Delivery(app, AtApplication, None, None, None)])
    case Advance(d) => if d < |s.deliveries| && Ready(s, s.deliveries[d]) then AdvanceStep(sv, s, d) else s
    case Crash(d) => if d < |s.deliveries| then WithDelivery(s, d, s.deliveries[d].(pc := Ended)) else s
    case ParseWrite(r, write) =>
      if r < |s.resumes| && Extracts(s.resumes[r].row, write)
      then s.(resumes := s.resumes[r := s.resumes[r].(row := Parser.ApplyWrite(s.resumes[r].row, write))])
      else s
    case Edit(j, title, description, requirements) =>
      if j < |s.jobs| then s.(jobs := s.jobs[j := EditJob(s.jobs[j], title, description, requirements)]) else s
  }

  function Run(sv: Services, s: System, events: seq<Event>): System {
    if |events| == 0 then s else Next(sv, Run(sv, s, events[..|events| - 1]), events[|events| - 1])
  }

  /** Any tables in which nothing has been parsed, embedded or ranked yet, and nothing is running. */
  predicate IsInitial(s: System) {
    && (forall j | 0 <= j < |s.jobs| :: s.jobs[j].embedding == [])
    && (forall r | 0 <= r < |s.resumes| :: s.resumes[r].embedding == [] && s.resumes[r].row.status.UPLOADED?
          && s.resumes[r].row.parsedData.None? && s.resumes[r].row.parseError.None?)
    && (forall a | 0 <= a < |s.apps| :: s.apps[a].ranking.None?)
    && s.deliveries == []
  }

  // ---- The resume side: holds in every interleaving.

  predicate ResumeOk(sv: Services, resume: ResumeRow) {
    && (resume.row.parsedData.Some? ==> resume.row.parsedData.value.rawText == resume.row.file.text)
    && (resume.row.status.PARSED? ==> resume.row.parsedData.Some?)
    && (resume.row.status.FAILED? ==> resume.row.parseError.Some?)
    && (resume.embedding == [] || resume.embedding == Embed(sv, resume.row.file.text))
  }

  /** A parse has stored its data or its error. */
  predicate ParseConcluded(resume: ResumeRow) {
    resume.row.parsedData.Some? || resume.row.parseError.Some?
  }

  /** A resume as read earlier, against its row now. */
  predicate SeenResumeOk(sv: Services, seen: ResumeRow, now: ResumeRow) {
    ResumeOk(sv, seen) && Settled(seen) && seen.row.file == now.row.file && ParseConcluded(now)
  }

  predicate PastResumeRead(d: Delivery) {
    d.pc.AtCacheJob? || d.pc.AtCacheResume? || d.pc.AtWrite? || d.result.Some?
  }

  predicate DeliveryOk(sv: Services, s: System, d: Delivery) {
    && Ready(s, d)
    && (!d.pc.Ended? ==> d.result.None?)
    && (d.result.Some? ==> d.app < |s.apps| && d.seenJob.Some? && s.apps[d.app].ranking.Some?)
    && (PastResumeRead(d) ==>
          match ResumeOf(s, s.apps[d.app])
          case None => d.seenResume.None?
          case Some(now) => d.seenResume.Some? && SeenResumeOk(sv, d.seenResume.value, now))
    && (d.pc.AtCacheJob? || d.pc.AtCacheResume? ==> UsesEmbedding(sv, d.seenResume))
    && (d.pc.AtCacheJob? ==> d.seenJob.value.embedding == [])
  }

  ghost predicate RankedByDelivery(s: System, a: nat)
    requires a < |s.apps|
  {
    s.apps[a].ranking.Some? ==>
      exists d | 0 <= d < |s.deliveries| :: s.deliveries[d].app == a && s.deliveries[d].result == s.apps[a].ranking
  }

  ghost predicate Inv(sv: Services, s: System) {
    && (forall r | 0 <= r < |s.resumes| :: ResumeOk(sv, s.resumes[r]))
    && (forall d | 0 <= d < |s.deliveries| :: DeliveryOk(sv, s, s.deliveries[d]))
    && (forall a | 0 <= a < |s.apps| :: RankedByDelivery(s, a))
  }

  /** What no step ever undoes. */
  predicate Extends(s: System, t: System) {
    && |t.jobs| == |s.jobs| && |t.resumes| == |s.resumes| && |t.apps| == |s.apps| && |s.deliveries| <= |t.deliveries|
    && (forall r | 0 <= r < |s.resumes| :: t.resumes[r].row.file == s.resumes[r].row.file
          && (ParseConcluded(s.resumes[r]) ==> ParseConcluded(t.resumes[r])))
    && (forall a | 0 <= a < |s.apps| :: t.apps[a].job == s.apps[a].job && t.apps[a].resume == s.apps[a].resume
          && (s.apps[a].ranking.Some? ==> t.apps[a].ranking.Some?))
  }

  lemma AdvanceExtends(sv: Services, s: System, d: nat)
    requires d < |s.deliveries| && Ready(s, s.deliveries[d])
    ensures Extends(s, AdvanceStep(sv, s, d))
  {
  }

  lemma NextExtends(sv: Services, s: System, event: Event)
    ensures Extends(s, Next(sv, s, event))
  {
    if event.Advance? && event.d < |s.deliveries| && Ready(s, s.deliveries[event.d]) { AdvanceExtends(sv, s, event.d); }
  }

  lemma DeliveryOkExtends(sv: Services, s: System, t: System, d: Delivery)
    requires Extends(s, t) && DeliveryOk(sv, s, d)
    ensures DeliveryOk(sv, t, d)
  {
  }

  predicate Live(d: Delivery) { !d.pc.Ended? }

  /** A delivery's step changes its own record, and an application only by writing its ranking. */
  lemma AdvanceKeepsOthers(sv: Services, s: System, d: nat)
    requires d < |s.deliveries| && Ready(s, s.deliveries[d])
    ensures var t := AdvanceStep(sv, s, d);
            && t.deliveries == s.deliveries[d := t.deliveries[d]] && t.deliveries[d].app == s.deliveries[d].app
            && (Live(t.deliveries[d]) ==> Live(s.deliveries[d]))
            && |t.apps| == |s.apps|
            && (s.deliveries[d].pc.AtWrite? ==>
                  t.apps == s.apps[s.deliveries[d].app := t.apps[s.deliveries[d].app]]
                  && t.apps[s.deliveries[d].app].ranking.Some? && t.deliveries[d].result.Some?)
            && (!s.deliveries[d].pc.AtWrite? ==> t.apps == s.apps && t.deliveries[d].result == s.deliveries[d].result)
            && (s.deliveries[d].pc.AtApplication? && Live(t.deliveries[d]) ==>
                  s.deliveries[d].app < |s.apps| && s.apps[s.deliveries[d].app].ranking.None?)
  {
  }

  lemma ParseWriteKeepsOk(sv: Services, resume: ResumeRow, write: Parser.RowWrite)
    requires ResumeOk(sv, resume) && Extracts(resume.row, write)
    ensures ResumeOk(sv, resume.(row := Parser.ApplyWrite(resume.row, write)))
  {
  }

  lemma NextKeepsResumes(sv: Services, s: System, event: Event)
    requires Inv(sv, s)
    ensures forall r | 0 <= r < |Next(sv, s, event).resumes| :: ResumeOk(sv, Next(sv, s, event).resumes[r])
  {
    if event.Advance? && event.d < |s.deliveries| {
      assert DeliveryOk(sv, s, s.deliveries[event.d]);
    }
    if event.ParseWrite? && event.resume < |s.resumes| && Extracts(s.resumes[event.resume].row, event.write) {
      ParseWriteKeepsOk(sv, s.resumes[event.resume], event.write);
    }
  }

  lemma AdvanceKeepsMine(sv: Services, s: System, d: nat)
    requires Inv(sv, s) && d < |s.deliveries| && Ready(s, s.deliveries[d])
    ensures DeliveryOk(sv, AdvanceStep(sv, s, d), AdvanceStep(sv, s, d).deliveries[d])
  {
    assert DeliveryOk(sv, s, s.deliveries[d]);
  }

  lemma NextKeepsDeliveries(sv: Services, s: System, event: Event)
    requires Inv(sv, s)
    ensures var t := Next(sv, s, event); forall d | 0 <= d < |t.deliveries| :: DeliveryOk(sv, t, t.deliveries[d])
  {
    var t := Next(sv, s, event);
    NextExtends(sv, s, event);
    forall d | 0 <= d < |t.deliveries| ensures DeliveryOk(sv, t, t.deliveries[d]) {
      if event == Advance(d) && d < |s.deliveries| && Ready(s, s.deliveries[d]) {
        AdvanceKeepsMine(sv, s, d);
      } else if d < |s.deliveries| {
        DeliveryOkExtends(sv, s, t, s.deliveries[d]);
      }
    }
  }

  lemma NextKeepsRankedBy(sv: Services, s: System, event: Event)
    requires Inv(sv, s)
    ensures var t := Next(sv, s, event); forall a | 0 <= a < |t.apps| :: RankedByDelivery(t, a)
  {
    var t := Next(sv, s, event);
    forall a | 0 <= a < |t.apps| ensures RankedByDelivery(t, a) {
      assert RankedByDelivery(s, a);
      NextExtends(sv, s, event);
      if t.apps[a].ranking != s.apps[a].ranking {
        assert t.deliveries[event.d].app == a && t.deliveries[event.d].result == t.apps[a].ranking;
      } else if t.apps[a].ranking.Some? {
        var d :| 0 <= d < |s.deliveries| && s.deliveries[d].app == a && s.deliveries[d].result == s.apps[a].ranking;
        assert DeliveryOk(sv, s, s.deliveries[d]);
        ResultStays(sv, s, event, d);
      }
    }
  }

  lemma ResultStays(sv: Services, s: System, event: Event, d: nat)
    requires d < |s.deliveries| && s.deliveries[d].result.Some? && DeliveryOk(sv, s, s.deliveries[d])
    ensures var t := Next(sv, s, event); d < |t.deliveries| && t.deliveries[d] == s.deliveries[d]
  {
    if event.Advance? && event.d < |s.deliveries| && Ready(s, s.deliveries[event.d]) {
      if event.d == d { assert AdvanceStep(sv, s, d) == s; } else { AdvanceKeepsOthers(sv, s, event.d); }
    }
  }

  lemma NextKeepsInv(sv: Services, s: System, event: Event)
    requires Inv(sv, s)
    ensures Inv(sv, Next(sv, s, event))
  {
    NextKeepsResumes(sv, s, event);
    NextKeepsDeliveries(sv, s, event);
    NextKeepsRankedBy(sv, s, event);
  }

  lemma NextKeepsInvIf(sv: Services, s: System, event: Event)
    ensures Inv(sv, s) ==> Inv(sv, Next(sv, s, event))
  {
    if Inv(sv, s) { NextKeepsInv(sv, s, event); }
  }

  lemma {:induction false} RunKeepsInv(sv: Services, s: System, events: seq<Event>)
    requires Inv(sv, s)
    ensures Inv(sv, Run(sv, s, events)) && Extends(s, Run(sv, s, events))
  {
    if |events| > 0 {
      RunKeepsInv(sv, s, events[..|events| - 1]);
      NextKeepsInv(sv, Run(sv, s, events[..|events| - 1]), events[|events| - 1]);
      NextExtends(sv, Run(sv, s, events[..|events| - 1]), events[|events| - 1]);
    }
  }

  lemma InitialInv(sv: Services, s: System)
    requires IsInitial(s)
    ensures Inv(sv, s)
  {
  }

  /** The snapshot a ranking was computed from: no resume at all, or one whose parsing had ended; and
      then the row itself holds parsed data or an error from there on. */
  predicate WaitedForParsing(s: System, d: Delivery) {
    && d.app < |s.apps|
    && match ResumeOf(s, s.apps[d.app])
       case None => d.seenResume.None?
       case Some(now) => d.seenResume.Some? && Settled(d.seenResume.value) && ParseConcluded(now)
  }

  /** In every interleaving of rank deliveries, parse writes, edits and crashes: a ranking is written
      only by a delivery that waited for parsing, and the resume's cached vector is empty or the
      embedding of the text of its file. */
  lemma RankingWaitsForParsing(sv: Services, s: System, events: seq<Event>)
    requires IsInitial(s)
    ensures var t := Run(sv, s, events);
            && (forall d | 0 <= d < |t.deliveries| && t.deliveries[d].result.Some? ::
                  WaitedForParsing(t, t.deliveries[d]))
            && (forall a | 0 <= a < |t.apps| :: RankedByDelivery(t, a))
            && |t.resumes| == |s.resumes|
            && (forall r | 0 <= r < |t.resumes| ::
                  t.resumes[r].embedding == [] || t.resumes[r].embedding == Embed(sv, s.resumes[r].row.file.text))
  {
    InitialInv(sv, s);
    RunKeepsInv(sv, s, events);
    var t := Run(sv, s, events);
    forall d | 0 <= d < |t.deliveries| && t.deliveries[d].result.Some? ensures WaitedForParsing(t, t.deliveries[d]) {
      assert DeliveryOk(sv, t, t.deliveries[d]);
    }
    forall r | 0 <= r < |t.resumes|
      ensures t.resumes[r].embedding == [] || t.resumes[r].embedding == Embed(sv, s.resumes[r].row.file.text)
    {
      assert ResumeOk(sv, t.resumes[r]);
    }
  }

  /** Until the resume's parsing has stored data or an error, its application is not ranked. */
  lemma NoRankingBeforeParsing(sv: Services, s: System, events: seq<Event>, a: nat)
    requires IsInitial(s) && a < |s.apps| && s.apps[a].resume.Some? && s.apps[a].resume.value < |s.resumes|
    ensures var t := Run(sv, s, events);
            && |t.apps| == |s.apps| && |t.resumes| == |s.resumes|
            && (t.apps[a].ranking.Some? ==> ParseConcluded(t.resumes[s.apps[a].resume.value]))
  {
    InitialInv(sv, s);
    RunKeepsInv(sv, s, events);
    var t := Run(sv, s, events);
    if t.apps[a].ranking.Some? {
      assert RankedByDelivery(t, a);
      var d :| 0 <= d < |t.deliveries| && t.deliveries[d].app == a && t.deliveries[d].result == t.apps[a].ranking;
      assert DeliveryOk(sv, t, t.deliveries[d]);
    }
  }

  /** `rankedAt` is never cleared. */
  lemma {:induction false} RankedForever(sv: Services, s: System, events: seq<Event>, a: nat)
    requires a < |s.apps| && s.apps[a].ranking.Some?
    ensures a < |Run(sv, s, events).apps| && Run(sv, s, events).apps[a].ranking.Some?
  {
    if |events| > 0 {
      RankedForever(sv, s, events[..|events| - 1], a);
      NextExtends(sv, Run(sv, s, events[..|events| - 1]), events[|events| - 1]);
    }
  }

  // ---- The job side: coherent exactly when every vector is written for the text still stored.

  predicate JobOk(sv: Services, job: Job) {
    job.embedding == [] || job.embedding == Embed(sv, JobText(job))
  }

  ghost predicate JobsOk(sv: Services, s: System) {
    forall j | 0 <= j < |s.jobs| :: JobOk(sv, s.jobs[j])
  }

  predicate WritesJobVector(s: System, event: Event) {
    event.Advance? && event.d < |s.deliveries| && Ready(s, s.deliveries[event.d])
      && s.deliveries[event.d].pc.AtCacheJob?
  }

  /** A job vector is about to be written: the text it was made from is still the stored one, as far
      as the embedding looks. */
  predicate FreshWrite(s: System, event: Event) {
    WritesJobVector(s, event) ==>
      var me := s.deliveries[event.d];
      Head(JobText(me.seenJob.value)) == Head(JobText(s.jobs[s.apps[me.app].job]))
  }

  predicate AllFresh(sv: Services, s: System, events: seq<Event>) {
    |events| > 0 ==>
      && AllFresh(sv, s, events[..|events| - 1])
      && FreshWrite(Run(sv, s, events[..|events| - 1]), events[|events| - 1])
  }

  ghost predicate AlwaysJobsOk(sv: Services, s: System, events: seq<Event>) {
    JobsOk(sv, Run(sv, s, events)) && (|events| > 0 ==> AlwaysJobsOk(sv, s, events[..|events| - 1]))
  }

  /** A delivery's vectors and rankings are those computed without caches. */
  predicate VectorsOk(sv: Services, d: Delivery) {
    && (!d.pc.Ended? && d.seenJob.Some? ==> JobOk(sv, d.seenJob.value))
    && (d.pc.AtCacheResume? && d.seenJob.Some? ==> d.pc.jobVector == Embed(sv, JobText(d.seenJob.value)))
    && (d.pc.AtWrite? && d.seenJob.Some? ==> d.pc.ranking == CleanRanking(sv, JobText(d.seenJob.value), d.seenResume))
    && (d.result.Some? && d.seenJob.Some? ==>
          d.result.value == CleanRanking(sv, JobText(d.seenJob.value), d.seenResume))
  }

  ghost predicate AllVectorsOk(sv: Services, s: System) {
    forall d | 0 <= d < |s.deliveries| :: VectorsOk(sv, s.deliveries[d])
  }

  /** A seen resume's cached vector, if any, is the one that would be computed. */
  lemma SeenVector(sv: Services, resume: ResumeRow)
    requires ResumeOk(sv, resume) && CandidateText(Some(resume)) != "" && resume.embedding != []
    ensures resume.embedding == Embed(sv, CandidateText(Some(resume)))
  {
  }

  lemma AfterJobVectorClean(sv: Services, me: Delivery, jobVector: Vector)
    requires me.seenJob.Some? && me.seenResume.Some? && ResumeOk(sv, me.seenResume.value)
    requires UsesEmbedding(sv, me.seenResume)
    requires jobVector == Embed(sv, JobText(me.seenJob.value))
    ensures var pc := AfterJobVector(sv, me, jobVector);
            || pc == AtCacheResume(jobVector)
            || pc == AtWrite(CleanRanking(sv, JobText(me.seenJob.value), me.seenResume))
  {
    if me.seenResume.value.embedding != [] { SeenVector(sv, me.seenResume.value); }
  }

  lemma AdvanceKeepsVectors(sv: Services, s: System, d: nat)
    requires Inv(sv, s) && JobsOk(sv, s) && AllVectorsOk(sv, s)
    requires d < |s.deliveries| && Ready(s, s.deliveries[d]) && !s.deliveries[d].pc.AtResume?
    ensures VectorsOk(sv, AdvanceStep(sv, s, d).deliveries[d])
  {
    var me := s.deliveries[d];
    assert DeliveryOk(sv, s, me) && VectorsOk(sv, me);
    if me.pc.AtCacheJob? { AfterJobVectorClean(sv, me, Embed(sv, JobText(me.seenJob.value))); }
  }

  lemma ReadKeepsVectors(sv: Services, s: System, d: nat)
    requires Inv(sv, s) && AllVectorsOk(sv, s)
    requires d < |s.deliveries| && Ready(s, s.deliveries[d]) && s.deliveries[d].pc.AtResume?
    ensures VectorsOk(sv, ReadResume(sv, s, d).deliveries[d])
  {
    var me := s.deliveries[d];
    var resume := ResumeOf(s, s.apps[me.app]);
    assert DeliveryOk(sv, s, me) && VectorsOk(sv, me);
    if UsesEmbedding(sv, resume) && me.seenJob.value.embedding != [] {
      assert ResumeOk(sv, resume.value);
      AfterJobVectorClean(sv, me.(seenResume := resume), me.seenJob.value.embedding);
    }
  }

  lemma AdvanceKeepsAllVectors(sv: Services, s: System, d: nat)
    requires Inv(sv, s) && JobsOk(sv, s) && AllVectorsOk(sv, s) && d < |s.deliveries| && Ready(s, s.deliveries[d])
    ensures AllVectorsOk(sv, AdvanceStep(sv, s, d))
  {
    AdvanceKeepsOthers(sv, s, d);
    if s.deliveries[d].pc.AtResume? { ReadKeepsVectors(sv, s, d); } else { AdvanceKeepsVectors(sv, s, d); }
  }

  lemma NextKeepsVectors(sv: Services, s: System, event: Event)
    requires Inv(sv, s) && JobsOk(sv, s) && AllVectorsOk(sv, s)
    ensures AllVectorsOk(sv, Next(sv, s, event))
  {
    if event.Advance? && event.d < |s.deliveries| && Ready(s, s.deliveries[event.d]) {
      AdvanceKeepsAllVectors(sv, s, event.d);
    }
  }

  lemma NextKeepsJobs(sv: Services, s: System, event: Event)
    requires JobsOk(sv, s) && FreshWrite(s, event)
    ensures JobsOk(sv, Next(sv, s, event))
  {
  }

  lemma {:induction false} FreshKeepsVectors(sv: Services, s: System, events: seq<Event>)
    requires IsInitial(s) && AllFresh(sv, s, events)
    ensures JobsOk(sv, Run(sv, s, events)) && AllVectorsOk(sv, Run(sv, s, events))
    ensures AlwaysJobsOk(sv, s, events)
  {
    if |events| > 0 {
      var before := events[..|events| - 1];
      FreshKeepsVectors(sv, s, before);
      InitialInv(sv, s);
      RunKeepsInv(sv, s, before);
      NextKeepsJobs(sv, Run(sv, s, before), events[|events| - 1]);
      NextKeepsVectors(sv, Run(sv, s, before), events[|events| - 1]);
    }
  }

  // ---- What a ranking is, without the functions that compute it.

  predicate IsNearest(n: int, x: real) {
    n as real - 0.5 <= x < n as real + 0.5
  }

  /** The first 8000 characters. */
  predicate IsHead(head: string, text: string) {
    head <= text && |head| == if |text| < 8000 then |text| else 8000
  }

  /** The similarity score of two texts: the service sees the head of each. */
  ghost predicate IsSimilarity(sv: Services, s: int, jobText: string, candidateText: string) {
    exists j, c ::
      && IsHead(j, jobText) && IsHead(c, candidateText)
      && IsNearest(s, 100.0 * Similarity(sv.sqrt, sv.model(j), sv.model(c)))
  }

  /** 40% of one and 60% of the other, rounded with halves up. */
  predicate IsBlend(r: int, deterministic: int, similarity: int) {
    5 * (2 * r - 1) <= 4 * deterministic + 6 * similarity < 5 * (2 * r + 1)
  }

  /** The ranking of a job's three texts for a resume: the keyword score alone, or blended with the
      similarity, which is there exactly when a service is configured and the resume has a text. The
      keywords looked for are those of the three texts, each at its first occurrence. */
  ghost predicate IsRankingOf(sv: Services, ranking: Ranking, title: string, description: string, requirements: string,
                              resume: Option<ResumeRow>)
  {
    var text := title + "\n\n" + description + "\n\n" + requirements;
    var data := if resume.Some? then resume.value.row.parsedData else None;
    var raw := if data.Some? then data.value.rawText else "";
    var skills := if data.Some? && data.value.structured.Some? then data.value.structured.value.skills else [];
    && Keywords.ExtractKeywords(text)
       == Keywords.Dedupe(Keywords.ExtractKeywords(title) + Keywords.ExtractKeywords(description)
                          + Keywords.ExtractKeywords(requirements))
    && ranking.deterministic == ComputeDeterministicScore(text, skills, raw).score
    && (ranking.similarity.Some? <==> sv.embeddings && raw != "")
    && (ranking.similarity.None? ==> ranking.score == ranking.deterministic)
    && (ranking.similarity.Some? ==>
          && IsSimilarity(sv, ranking.similarity.value, text, raw)
          && IsBlend(ranking.score, ranking.deterministic, ranking.similarity.value))
  }

  lemma SimilarityScoreIs(sv: Services, jobText: string, candidateText: string)
    ensures IsSimilarity(sv, SimilarityScore(sv, Embed(sv, jobText), Embed(sv, candidateText)), jobText, candidateText)
  {
    var x := Similarity(sv.sqrt, Embed(sv, jobText), Embed(sv, candidateText)) * 100.0;
    assert IsHead(Head(jobText), jobText) && IsHead(Head(candidateText), candidateText);
    assert IsNearest(Round(x), 100.0 * Similarity(sv.sqrt, sv.model(Head(jobText)), sv.model(Head(candidateText))));
  }

  lemma CleanRankingIs(sv: Services, job: Job, resume: Option<ResumeRow>)
    ensures IsRankingOf(sv, CleanRanking(sv, JobText(job), resume), job.title, job.description, job.requirements,
                        resume)
  {
    Keywords.KeywordsOfThreeTexts(job.title, job.description, job.requirements);
    SimilarityScoreIs(sv, JobText(job), CandidateText(resume));
    BlendExactly(BaseScore(JobText(job), resume),
                 SimilarityScore(sv, Embed(sv, JobText(job)), Embed(sv, CandidateText(resume))));
  }

  ghost predicate RankedClean(sv: Services, s: System, a: nat)
    requires a < |s.apps|
  {
    s.apps[a].ranking.Some? ==>
      exists d | 0 <= d < |s.deliveries| ::
        && s.deliveries[d].app == a && s.deliveries[d].seenJob.Some?
        && var job := s.deliveries[d].seenJob.value;
           IsRankingOf(sv, s.apps[a].ranking.value, job.title, job.description, job.requirements,
                       s.deliveries[d].seenResume)
  }

  /** The caches are transparent: when every job vector is written for the text still stored, each
      stored vector is the embedding of the job's current text, and each stored ranking is what
      computing everything afresh from the rows its delivery read would give. */
  lemma CachesAreTransparent(sv: Services, s: System, events: seq<Event>)
    requires IsInitial(s) && AllFresh(sv, s, events)
    ensures var t := Run(sv, s, events);
            && (forall j | 0 <= j < |t.jobs| ::
                  t.jobs[j].embedding == [] || t.jobs[j].embedding == Embed(sv, JobText(t.jobs[j])))
            && (forall a | 0 <= a < |t.apps| :: RankedClean(sv, t, a))
  {
    var t := Run(sv, s, events);
    FreshKeepsVectors(sv, s, events);
    InitialInv(sv, s);
    RunKeepsInv(sv, s, events);
    forall j | 0 <= j < |t.jobs|
      ensures t.jobs[j].embedding == [] || t.jobs[j].embedding == Embed(sv, JobText(t.jobs[j]))
    {
      assert JobOk(sv, t.jobs[j]);
    }
    forall a | 0 <= a < |t.apps| ensures RankedClean(sv, t, a) {
      assert RankedByDelivery(t, a);
      if t.apps[a].ranking.Some? {
        var d :| 0 <= d < |t.deliveries| && t.deliveries[d].app == a && t.deliveries[d].result == t.apps[a].ranking;
        assert DeliveryOk(sv, t, t.deliveries[d]) && VectorsOk(sv, t.deliveries[d]);
        CleanRankingIs(sv, t.deliveries[d].seenJob.value, t.deliveries[d].seenResume);
      }
    }
  }

  /** The service tells texts apart, and never answers with an empty vector. */
  ghost predicate IsFaithful(sv: Services) {
    && (forall x :: sv.model(x) != [])
    && (forall x, y :: sv.model(x) == sv.model(y) ==> x == y)
  }

  lemma StaleWriteBreaksJob(sv: Services, s: System, event: Event)
    requires IsFaithful(sv) && !FreshWrite(s, event)
    ensures !JobsOk(sv, Next(sv, s, event))
  {
    var me := s.deliveries[event.d];
    var job := s.apps[me.app].job;
    assert !JobOk(sv, Next(sv, s, event).jobs[job]);
  }

  /** With such a service that condition is exact: the job vectors are coherent throughout a run if
      and only if no vector is written for a text that has been edited away. */
  lemma {:induction false} CoherentIffFresh(sv: Services, s: System, events: seq<Event>)
    requires IsInitial(s) && IsFaithful(sv)
    ensures AlwaysJobsOk(sv, s, events) <==> AllFresh(sv, s, events)
  {
    if AllFresh(sv, s, events) { FreshKeepsVectors(sv, s, events); }
    if |events| > 0 {
      var before := events[..|events| - 1];
      CoherentIffFresh(sv, s, before);
      if !FreshWrite(Run(sv, s, before), events[|events| - 1]) {
        StaleWriteBreaksJob(sv, Run(sv, s, before), events[|events| - 1]);
      }
    }
  }

  /** A delivery that read the job without a vector and has not written one yet. */
  predicate Pending(s: System, d: Delivery, job: nat) {
    && (d.pc.AtResume? || d.pc.AtCacheJob?)
    && d.app < |s.apps| && s.apps[d.app].job == job && d.seenJob.Some? && d.seenJob.value.embedding == []
  }

  /** No edit of a job's content lands while some delivery is between its read and its vector write. */
  predicate QuietEdits(sv: Services, s: System, events: seq<Event>) {
    |events| > 0 ==>
      var before := events[..|events| - 1];
      && QuietEdits(sv, s, before)
      && (events[|events| - 1].Edit? ==>
            forall d | 0 <= d < |Run(sv, s, before).deliveries| ::
              !Pending(Run(sv, s, before), Run(sv, s, before).deliveries[d], events[|events| - 1].job))
  }

  predicate StillFresh(s: System, d: Delivery) {
    d.app < |s.apps| && s.apps[d.app].job < |s.jobs| && Pending(s, d, s.apps[d.app].job) ==>
      JobText(d.seenJob.value) == JobText(s.jobs[s.apps[d.app].job])
  }

  ghost predicate PendingFresh(s: System) {
    forall d | 0 <= d < |s.deliveries| :: StillFresh(s, s.deliveries[d])
  }

  lemma AdvanceKeepsTexts(sv: Services, s: System, d: nat)
    requires d < |s.deliveries| && Ready(s, s.deliveries[d])
    ensures var t := AdvanceStep(sv, s, d);
            |t.jobs| == |s.jobs| && forall j | 0 <= j < |s.jobs| :: JobText(t.jobs[j]) == JobText(s.jobs[j])
  {
  }

  lemma AdvanceKeepsMineFresh(sv: Services, s: System, d: nat)
    requires PendingFresh(s) && d < |s.deliveries| && Ready(s, s.deliveries[d])
    ensures StillFresh(AdvanceStep(sv, s, d), AdvanceStep(sv, s, d).deliveries[d])
  {
    assert StillFresh(s, s.deliveries[d]);
  }

  lemma AdvanceKeepsPendingFresh(sv: Services, s: System, d: nat)
    requires PendingFresh(s) && d < |s.deliveries| && Ready(s, s.deliveries[d])
    ensures PendingFresh(AdvanceStep(sv, s, d))
  {
    var t := AdvanceStep(sv, s, d);
    AdvanceExtends(sv, s, d);
    AdvanceKeepsOthers(sv, s, d);
    AdvanceKeepsTexts(sv, s, d);
    AdvanceKeepsMineFresh(sv, s, d);
    forall k | 0 <= k < |t.deliveries| ensures StillFresh(t, t.deliveries[k]) {
      assert StillFresh(s, s.deliveries[k]);
    }
  }

  lemma NextKeepsPendingFresh(sv: Services, s: System, event: Event)
    requires PendingFresh(s)
    requires event.Edit? ==> forall d | 0 <= d < |s.deliveries| :: !Pending(s, s.deliveries[d], event.job)
    ensures PendingFresh(Next(sv, s, event))
  {
    if event.Advance? && event.d < |s.deliveries| && Ready(s, s.deliveries[event.d]) {
      AdvanceKeepsPendingFresh(sv, s, event.d);
    }
  }

  lemma PendingWriteIsFresh(sv: Services, s: System, event: Event)
    requires Inv(sv, s) && PendingFresh(s)
    ensures FreshWrite(s, event)
  {
    if WritesJobVector(s, event) {
      assert DeliveryOk(sv, s, s.deliveries[event.d]) && StillFresh(s, s.deliveries[event.d]);
    }
  }

  /** So it is enough that no content edit lands between a delivery's job read and its vector write. */
  lemma {:induction false} QuietEditsAreFresh(sv: Services, s: System, events: seq<Event>)
    requires IsInitial(s) && QuietEdits(sv, s, events)
    ensures AllFresh(sv, s, events) && PendingFresh(Run(sv, s, events))
  {
    if |events| > 0 {
      var before := events[..|events| - 1];
      QuietEditsAreFresh(sv, s, before);
      InitialInv(sv, s);
      RunKeepsInv(sv, s, before);
      PendingWriteIsFresh(sv, Run(sv, s, before), events[|events| - 1]);
      NextKeepsPendingFresh(sv, Run(sv, s, before), events[|events| - 1]);
    }
  }

  lemma Then(sv: Services, s: System, events: seq<Event>, event: Event, before: System, after: System)
    requires Run(sv, s, events) == before && Next(sv, before, event) == after
    ensures Run(sv, s, events + [event]) == after
  {
    assert (events + [event])[..|events|] == events;
  }

  /** One job, one resume that ends parsed, and one application whose only delivery is `me`. */
  function Single(job: Job, resume: ResumeRow, deliveries: seq<Delivery>): System {
    System([job], [resume], [Application(0, Some(0), None)], deliveries)
  }

  function UploadedResume(file: Parser.File): ResumeRow {
    ResumeRow(Parser.Resume(file, Parser.UPLOADED, None, None), [])
  }

  function ParsedResume(file: Parser.File): ResumeRow {
    ResumeRow(Parser.Resume(file, Parser.PARSED, Some(Parser.ParsedData(file.text, None)), None), [])
  }

  lemma ReadSteps(sv: Services, file: Parser.File, job: Job)
    requires sv.embeddings && file.text != "" && job.embedding == []
    ensures var resume, me := ParsedResume(file), Delivery(0, AtApplication, None, None, None);
            var read := me.(seenJob := Some(job), pc := AtResume);
            && Next(sv, Single(job, resume, [me]), Advance(0)) == Single(job, resume, [me.(pc := AtJob)])
            && Next(sv, Single(job, resume, [me.(pc := AtJob)]), Advance(0)) == Single(job, resume, [read])
            && Next(sv, Single(job, resume, [read]), Advance(0))
               == Single(job, resume, [read.(seenResume := Some(resume), pc := AtCacheJob)])
  {
  }

  lemma ParsedAndStarted(sv: Services, file: Parser.File, job: Job) returns (events: seq<Event>)
    ensures Run(sv, Single(job, UploadedResume(file), []), events)
         == Single(job, ParsedResume(file), [Delivery(0, AtApplication, None, None, None)])
  {
    var s, resume := Single(job, UploadedResume(file), []), ParsedResume(file);
    var parse := ParseWrite(0, Parser.WriteParsed(Parser.ParsedData(file.text, None)));
    Then(sv, s, [], parse, s, Single(job, resume, []));
    events := [] + [parse];
    Then(sv, s, events, Start(0), Single(job, resume, []),
         Single(job, resume, [Delivery(0, AtApplication, None, None, None)]));
    events := events + [Start(0)];
  }

  lemma ReadsMissingVector(sv: Services, file: Parser.File, job: Job) returns (events: seq<Event>)
    requires sv.embeddings && file.text != "" && job.embedding == []
    ensures Run(sv, Single(job, UploadedResume(file), []), events)
         == Single(job, ParsedResume(file), [Delivery(0, AtCacheJob, Some(job), Some(ParsedResume(file)), None)])
  {
    var s, resume := Single(job, UploadedResume(file), []), ParsedResume(file);
    var me := Delivery(0, AtApplication, None, None, None);
    var read := me.(seenJob := Some(job), pc := AtResume);
    ReadSteps(sv, file, job);
    events := ParsedAndStarted(sv, file, job);
    Then(sv, s, events, Advance(0), Single(job, resume, [me]), Single(job, resume, [me.(pc := AtJob)]));
    events := events + [Advance(0)];
    Then(sv, s, events, Advance(0), Single(job, resume, [me.(pc := AtJob)]), Single(job, resume, [read]));
    events := events + [Advance(0)];
    Then(sv, s, events, Advance(0), Single(job, resume, [read]),
         Single(job, resume, [read.(seenResume := Some(resume), pc := AtCacheJob)]));
    events := events + [Advance(0)];
  }

  /** Otherwise a stale vector can stay: an edit between the job read and the vector write. */
  lemma EditInBetweenLeavesStaleVector(sv: Services, file: Parser.File, job: Job, title: string)
    returns (events: seq<Event>)
    requires sv.embeddings && file.text != "" && job.embedding == []
    requires Embed(sv, JobText(job)) !in {[], Embed(sv, JobText(job.(title := title)))}
    ensures IsInitial(Single(job, UploadedResume(file), []))
    ensures var t := Run(sv, Single(job, UploadedResume(file), []), events);
            && t.jobs == [job.(title := title, embedding := Embed(sv, JobText(job)))]
            && !JobOk(sv, t.jobs[0])
  {
    var s, edited := Single(job, UploadedResume(file), []), job.(title := title);
    events := ReadsMissingVector(sv, file, job);
    var before := Run(sv, s, events);
    Then(sv, s, events, Edit(0, Some(title), None, None), before, before.(jobs := [edited]));
    events := events + [Edit(0, Some(title), None, None)];
    Then(sv, s, events, Advance(0), before.(jobs := [edited]), Next(sv, before.(jobs := [edited]), Advance(0)));
    events := events + [Advance(0)];
  }

  // ---- Non-overlapping deliveries of one application's job.

  function RankedFor(a: nat): Delivery -> bool { (d: Delivery) => d.app == a && d.result.Some? }

  predicate Idle(s: System, a: nat) {
    forall d | 0 <= d < |s.deliveries| && s.deliveries[d].app == a :: !Live(s.deliveries[d])
  }

  /** No delivery for application `a` starts while another one is live. */
  predicate NonOverlapping(sv: Services, s: System, events: seq<Event>, a: nat) {
    |events| > 0 ==>
      && NonOverlapping(sv, s, events[..|events| - 1], a)
      && (events[|events| - 1] == Start(a) ==> Idle(Run(sv, s, events[..|events| - 1]), a))
  }

  ghost predicate OneLive(s: System, a: nat) {
    forall i, k | 0 <= i < |s.deliveries| && 0 <= k < |s.deliveries| && i != k ::
      s.deliveries[i].app == a && s.deliveries[k].app == a && Live(s.deliveries[i]) ==> !Live(s.deliveries[k])
  }

  /** A live delivery that found its application unranked still finds it so. */
  ghost predicate StillUnranked(s: System, a: nat) {
    && (forall d | 0 <= d < |s.deliveries| ::
          s.deliveries[d].app == a && Live(s.deliveries[d]) && !s.deliveries[d].pc.AtApplication? ==>
            a < |s.apps| && s.apps[a].ranking.None?)
    && Count(RankedFor(a), s.deliveries) == (if a < |s.apps| && s.apps[a].ranking.Some? then 1 else 0)
  }

  lemma AdvanceKeepsUnranked(sv: Services, s: System, d: nat, a: nat)
    requires Inv(sv, s) && OneLive(s, a) && StillUnranked(s, a) && d < |s.deliveries| && Ready(s, s.deliveries[d])
    ensures OneLive(AdvanceStep(sv, s, d), a) && StillUnranked(AdvanceStep(sv, s, d), a)
  {
    var t := AdvanceStep(sv, s, d);
    AdvanceKeepsOthers(sv, s, d);
    assert DeliveryOk(sv, s, s.deliveries[d]);
    CountUpdate(RankedFor(a), s.deliveries, d, t.deliveries[d]);
  }

  lemma CrashKeepsUnranked(sv: Services, s: System, d: nat, a: nat)
    requires OneLive(s, a) && StillUnranked(s, a) && d < |s.deliveries|
    ensures OneLive(Next(sv, s, Crash(d)), a) && StillUnranked(Next(sv, s, Crash(d)), a)
  {
    CountUpdate(RankedFor(a), s.deliveries, d, s.deliveries[d].(pc := Ended));
  }

  lemma NextKeepsUnranked(sv: Services, s: System, event: Event, a: nat)
    requires Inv(sv, s) && OneLive(s, a) && StillUnranked(s, a)
    requires event == Start(a) ==> Idle(s, a)
    ensures OneLive(Next(sv, s, event), a) && StillUnranked(Next(sv, s, event), a)
  {
    match event
    case Start(app) => CountAppend(RankedFor(a), s.deliveries, Delivery(app, AtApplication, None, None, None));
    case Advance(d) => if d < |s.deliveries| && Ready(s, s.deliveries[d]) { AdvanceKeepsUnranked(sv, s, d, a); }
    case Crash(d) => if d < |s.deliveries| { CrashKeepsUnranked(sv, s, d, a); }
    case ParseWrite(_, _) =>
    case Edit(_, _, _, _) =>
  }

  /** When deliveries for an application do not overlap, its ranking is written at most once: exactly
      one delivery wrote it if it is ranked, and none otherwise. */
  lemma {:induction false} RankedAtMostOnce(sv: Services, s: System, events: seq<Event>, a: nat)
    requires IsInitial(s) && NonOverlapping(sv, s, events, a)
    ensures OneLive(Run(sv, s, events), a) && StillUnranked(Run(sv, s, events), a)
    ensures var t := Run(sv, s, events);
            Count(RankedFor(a), t.deliveries) == (if a < |t.apps| && t.apps[a].ranking.Some? then 1 else 0)
  {
    if |events| > 0 {
      var before := events[..|events| - 1];
      RankedAtMostOnce(sv, s, before, a);
      InitialInv(sv, s);
      RunKeepsInv(sv, s, before);
      NextKeepsUnranked(sv, Run(sv, s, before), events[|events| - 1], a);
    }
  }

  // ---- The worker over its tables: one method per await.

  /** All invariants at once: every row, vector and record agrees with recomputation. */
  ghost predicate Coherent(sv: Services, s: System) {
    Inv(sv, s) && JobsOk(sv, s) && AllVectorsOk(sv, s)
  }

  lemma NextKeepsCoherent(sv: Services, s: System, event: Event)
    requires Coherent(sv, s) && FreshWrite(s, event)
    ensures Coherent(sv, Next(sv, s, event))
  {
    NextKeepsInv(sv, s, event);
    NextKeepsJobs(sv, s, event);
    NextKeepsVectors(sv, s, event);
  }

  /** A cached vector afterwards: the service's answer for the head of the text if one was needed and
      missing, and otherwise as it was. */
  ghost predicate IsCached(sv: Services, after: Vector, before: Vector, needed: bool, text: string) {
    if needed && before == [] then exists head :: IsHead(head, text) && after == sv.model(head) else after == before
  }

  lemma EmbedIsCached(sv: Services, text: string)
    ensures IsCached(sv, Embed(sv, text), [], true, text)
  {
    assert IsHead(Head(text), text);
  }

  /** The ranking of application `a` is stored, from its job's three texts and its resume, and so are the
      vectors of the two if they were needed and missing. Nothing else changes. */
  ghost predicate RanksOne(sv: Services, s: System, t: System, a: nat) {
    && a < |s.apps| == |t.apps| && s.apps[a].job < |s.jobs| == |t.jobs| && |t.resumes| == |s.resumes|
    && t.apps == s.apps[a := s.apps[a].(ranking := t.apps[a].ranking)] && t.apps[a].ranking.Some?
    && var j, resume, ranking := s.apps[a].job, ResumeOf(s, s.apps[a]), t.apps[a].ranking.value;
       && IsRankingOf(sv, ranking, s.jobs[j].title, s.jobs[j].description, s.jobs[j].requirements, resume)
       && t.jobs == s.jobs[j := s.jobs[j].(embedding := t.jobs[j].embedding)]
       && IsCached(sv, t.jobs[j].embedding, s.jobs[j].embedding, ranking.similarity.Some?,
                   s.jobs[j].title + "\n\n" + s.jobs[j].description + "\n\n" + s.jobs[j].requirements)
       && (resume.None? ==> t.resumes == s.resumes)
       && (resume.Some? ==> CachesResume(sv, s, t, s.apps[a].resume.value, ranking.similarity.Some?))
  }

  ghost predicate CachesResume(sv: Services, s: System, t: System, r: nat, needed: bool) {
    && r < |s.resumes| == |t.resumes|
    && t.resumes == s.resumes[r := s.resumes[r].(embedding := t.resumes[r].embedding)]
    && var data := s.resumes[r].row.parsedData;
       IsCached(sv, t.resumes[r].embedding, s.resumes[r].embedding, needed,
                if data.Some? then data.value.rawText else "")
  }

  /** The tables as an undisturbed delivery leaves them. */
  predicate RankedTables(sv: Services, s: System, t: System, a: nat)
    requires a < |s.apps| && s.apps[a].job < |s.jobs|
  {
    var j, resume := s.apps[a].job, ResumeOf(s, s.apps[a]);
    var text, used := JobText(s.jobs[j]), UsesEmbedding(sv, resume);
    && t.apps == s.apps[a := s.apps[a].(ranking := Some(CleanRanking(sv, text, resume)))]
    && t.jobs == (if used && s.jobs[j].embedding == []
                  then s.jobs[j := s.jobs[j].(embedding := Embed(sv, text))] else s.jobs)
    && t.resumes == (if used && resume.value.embedding == []
                     then s.resumes[s.apps[a].resume.value :=
                                      resume.value.(embedding := Embed(sv, CandidateText(resume)))]
                     else s.resumes)
  }

  lemma RankedTablesAre(sv: Services, s: System, t: System, a: nat)
    requires a < |s.apps| && s.apps[a].job < |s.jobs| && RankedTables(sv, s, t, a)
    ensures RanksOne(sv, s, t, a)
  {
    var job, resume := s.jobs[s.apps[a].job], ResumeOf(s, s.apps[a]);
    CleanRankingIs(sv, job, resume);
    EmbedIsCached(sv, JobText(job));
    EmbedIsCached(sv, CandidateText(resume));
  }

  /** The delivery is going to store a vector of its resume. */
  predicate FillsResume(d: Delivery) {
    d.pc.AtCacheResume? || (d.pc.AtCacheJob? && d.seenResume.Some? && d.seenResume.value.embedding == [])
  }

  datatype Outcome = Skipped | Retry | Ranked

  class RankProcessor {
    const services: Services
    var jobs: seq<Job>
    var resumes: seq<ResumeRow>
    var apps: seq<Application>
    var deliveries: seq<Delivery>

    constructor (services: Services, jobs: seq<Job>, resumes: seq<ResumeRow>, apps: seq<Application>)
      ensures this.services == services && State() == System(jobs, resumes, apps, [])
    {
      this.services := services;
      this.jobs, this.resumes, this.apps, deliveries := jobs, resumes, apps, [];
    }

    function State(): System
      reads this
    {
      System(jobs, resumes, apps, deliveries)
    }

    method Begin(app: nat) returns (d: nat)
      modifies this`deliveries
      ensures State() == Next(services, old(State()), Start(app)) && d == old(|deliveries|)
      ensures old(Coherent(services, State())) ==> Coherent(services, State())
    {
      if Coherent(services, State()) { NextKeepsCoherent(services, State(), Start(app)); }
      d := |deliveries|;
      deliveries := deliveries + [Delivery(app, AtApplication, None, None, None)];
    }

    method FindApplication(d: nat)
      requires d < |deliveries| && deliveries[d].pc.AtApplication?
      modifies this`deliveries
      ensures State() == Next(services, old(State()), Advance(d))
      ensures old(Coherent(services, State())) ==> Coherent(services, State())
    {
      if Coherent(services, State()) { NextKeepsCoherent(services, State(), Advance(d)); }
      var me := deliveries[d];
      if me.app >= |apps| || apps[me.app].ranking.Some? {
        deliveries := deliveries[d := me.(pc := Ended)];
      } else {
        deliveries := deliveries[d := me.(pc := AtJob)];
      }
    }

    method FindJob(d: nat)
      requires d < |deliveries| && deliveries[d].pc.AtJob? && Ready(State(), deliveries[d])
      modifies this`deliveries
      ensures State() == Next(services, old(State()), Advance(d))
      ensures old(Coherent(services, State())) ==> Coherent(services, State())
    {
      if Coherent(services, State()) { NextKeepsCoherent(services, State(), Advance(d)); }
      var me := deliveries[d];
      var job := apps[me.app].job;
      if job >= |jobs| {
        deliveries := deliveries[d := me.(pc := Ended)];
      } else {
        deliveries := deliveries[d := me.(seenJob := Some(jobs[job]), pc := AtResume)];
      }
    }

    method FindResume(d: nat)
      requires d < |deliveries| && deliveries[d].pc.AtResume? && Ready(State(), deliveries[d])
      modifies this`deliveries
      ensures State() == Next(services, old(State()), Advance(d))
      ensures old(Coherent(services, State())) ==> Coherent(services, State())
    {
      if Coherent(services, State()) { NextKeepsCoherent(services, State(), Advance(d)); }
      var me := deliveries[d];
      var resume := ResumeOf(State(), apps[me.app]);
      if resume.Some? && !resume.value.row.status.PARSED? && !resume.value.row.status.FAILED? {
        deliveries := deliveries[d := me.(pc := Ended)];
      } else {
        me := me.(seenResume := resume);
        deliveries := deliveries[d := me.(pc := AfterResume(services, me))];
      }
    }

    method UpdateJobEmbedding(d: nat)
      requires d < |deliveries| && deliveries[d].pc.AtCacheJob? && Ready(State(), deliveries[d])
      modifies this`jobs, this`deliveries
      ensures State() == Next(services, old(State()), Advance(d))
      ensures old(Coherent(services, State()) && FreshWrite(State(), Advance(d))) ==> Coherent(services, State())
      ensures var j, seen := apps[old(deliveries)[d].app].job, old(deliveries)[d].seenJob.value;
              && |jobs| == |old(jobs)| && jobs == old(jobs)[j := old(jobs)[j].(embedding := jobs[j].embedding)]
              && IsCached(services, jobs[j].embedding, [], true,
                          seen.title + "\n\n" + seen.description + "\n\n" + seen.requirements)
    {
      if Coherent(services, State()) && FreshWrite(State(), Advance(d)) {
        NextKeepsCoherent(services, State(), Advance(d));
      }
      var me := deliveries[d];
      var job := apps[me.app].job;
      var vector := Embed(services, JobText(me.seenJob.value));
      EmbedIsCached(services, JobText(me.seenJob.value));
      jobs := jobs[job := jobs[job].(embedding := vector)];
      deliveries := deliveries[d := me.(pc := AfterJobVector(services, me, vector))];
    }

    method UpdateResumeEmbedding(d: nat)
      requires d < |deliveries| && deliveries[d].pc.AtCacheResume? && Ready(State(), deliveries[d])
      modifies this`resumes, this`deliveries
      ensures State() == Next(services, old(State()), Advance(d))
      ensures old(Coherent(services, State())) ==> Coherent(services, State())
    {
      if Coherent(services, State()) { NextKeepsCoherent(services, State(), Advance(d)); }
      var me := deliveries[d];
      var resume := apps[me.app].resume.value;
      var vector := Embed(services, CandidateText(me.seenResume));
      resumes := resumes[resume := resumes[resume].(embedding := vector)];
      var base := BaseScore(JobText(me.seenJob.value), me.seenResume);
      var ranking := Blended(base, SimilarityScore(services, me.pc.jobVector, vector));
      deliveries := deliveries[d := me.(pc := AtWrite(ranking))];
    }

    method UpdateRanking(d: nat)
      requires d < |deliveries| && deliveries[d].pc.AtWrite? && Ready(State(), deliveries[d])
      modifies this`apps, this`deliveries
      ensures State() == Next(services, old(State()), Advance(d))
      ensures old(Coherent(services, State())) ==> Coherent(services, State())
    {
      if Coherent(services, State()) { NextKeepsCoherent(services, State(), Advance(d)); }
      var me := deliveries[d];
      apps := apps[me.app := apps[me.app].(ranking := Some(me.pc.ranking))];
      deliveries := deliveries[d := me.(pc := Ended, result := Some(me.pc.ranking))];
    }

    /** A recruiter's edit of a job's content. */
    method UpdateJob(j: nat, title: Option<string>, description: Option<string>, requirements: Option<string>)
      requires j < |jobs|
      modifies this`jobs
      ensures State() == Next(services, old(State()), Edit(j, title, description, requirements))
      ensures old(Coherent(services, State())) ==> Coherent(services, State())
      ensures |jobs| == |old(jobs)| && jobs == old(jobs)[j := jobs[j]]
      ensures jobs[j].title == if title.Some? then title.value else old(jobs[j].title)
      ensures jobs[j].description == if description.Some? then description.value else old(jobs[j].description)
      ensures jobs[j].requirements == if requirements.Some? then requirements.value else old(jobs[j].requirements)
      ensures jobs[j].embedding
              == if title.None? && description.None? && requirements.None? then old(jobs[j].embedding) else []
    {
      if Coherent(services, State()) {
        NextKeepsCoherent(services, State(), Edit(j, title, description, requirements));
      }
      var job := jobs[j];
      if title.Some? || description.Some? || requirements.Some? {
        job := job.(embedding := []);
      }
      if title.Some? { job := job.(title := title.value); }
      if description.Some? { job := job.(description := description.value); }
      if requirements.Some? { job := job.(requirements := requirements.value); }
      jobs := jobs[j := job];
    }

    /** Fill the caches that were empty, undisturbed. */
    method FillVectors(d: nat)
      requires Coherent(services, State()) && d < |deliveries|
      requires deliveries[d].pc.AtCacheJob? || deliveries[d].pc.AtCacheResume? || deliveries[d].pc.AtWrite?
      requires StillFresh(State(), deliveries[d])
      modifies this`jobs, this`resumes, this`deliveries
      ensures Coherent(services, State()) && |deliveries| == |old(deliveries)|
      ensures var me := old(deliveries)[d]; deliveries[d] == me.(pc := deliveries[d].pc) && deliveries[d].pc.AtWrite?
      ensures old(deliveries)[d].app < |apps|
      ensures old(deliveries[d].pc.AtCacheJob?) ==>
                && old(deliveries)[d].seenJob.Some? && apps[old(deliveries)[d].app].job < |old(jobs)|
                && var j := apps[old(deliveries)[d].app].job;
                   jobs == old(jobs)[j := old(jobs)[j].(
                             embedding := Embed(services, JobText(old(deliveries)[d].seenJob.value)))]
      ensures !old(deliveries[d].pc.AtCacheJob?) ==> jobs == old(jobs)
      ensures old(FillsResume(deliveries[d])) ==>
                && ResumeOf(old(State()), apps[old(deliveries)[d].app]).Some?
                && var r := apps[old(deliveries)[d].app].resume.value;
                   resumes == old(resumes)[r := old(resumes)[r].(
                                embedding := Embed(services, CandidateText(old(deliveries)[d].seenResume)))]
      ensures !old(FillsResume(deliveries[d])) ==> resumes == old(resumes)
    {
      assert DeliveryOk(services, State(), deliveries[d]);
      if deliveries[d].pc.AtCacheJob? {
        UpdateJobEmbedding(d);
        assert DeliveryOk(services, State(), deliveries[d]);
      }
      if deliveries[d].pc.AtCacheResume? {
        UpdateResumeEmbedding(d);
      }
    }

    /** From the reads to the ranking, undisturbed. */
    method Rank(d: nat)
      requires Coherent(services, State()) && d < |deliveries|
      requires deliveries[d].pc.AtCacheJob? || deliveries[d].pc.AtCacheResume? || deliveries[d].pc.AtWrite?
      requires StillFresh(State(), deliveries[d])
      modifies this
      ensures Coherent(services, State())
      ensures old(deliveries)[d].app < |old(apps)| && old(deliveries)[d].seenJob.Some?
      ensures var me := old(deliveries)[d];
              apps == old(apps)[me.app := old(apps)[me.app].(
                ranking := Some(CleanRanking(services, JobText(me.seenJob.value), me.seenResume)))]
      ensures old(deliveries[d].pc.AtCacheJob?) ==>
                && apps[old(deliveries)[d].app].job < |old(jobs)|
                && var j := apps[old(deliveries)[d].app].job;
                   jobs == old(jobs)[j := old(jobs)[j].(
                             embedding := Embed(services, JobText(old(deliveries)[d].seenJob.value)))]
      ensures !old(deliveries[d].pc.AtCacheJob?) ==> jobs == old(jobs)
      ensures old(FillsResume(deliveries[d])) ==>
                && ResumeOf(old(State()), old(apps)[old(deliveries)[d].app]).Some?
                && var r := old(apps)[old(deliveries)[d].app].resume.value;
                   resumes == old(resumes)[r := old(resumes)[r].(
                                embedding := Embed(services, CandidateText(old(deliveries)[d].seenResume)))]
      ensures !old(FillsResume(deliveries[d])) ==> resumes == old(resumes)
    {
      FillVectors(d);
      assert DeliveryOk(services, State(), deliveries[d]) && VectorsOk(services, deliveries[d]);
      UpdateRanking(d);
    }

    /** The three reads, undisturbed: they change no table. */
    method ReadRows(a: nat) returns (d: nat, outcome: Outcome)
      requires Coherent(services, State())
      modifies this`deliveries
      ensures Coherent(services, State()) && d < |deliveries|
      ensures outcome.Skipped? <==> a >= |apps| || apps[a].ranking.Some? || apps[a].job >= |jobs|
      ensures outcome.Retry? <==>
                && !outcome.Skipped? && ResumeOf(State(), apps[a]).Some?
                && ResumeOf(State(), apps[a]).value.row.status !in {Parser.PARSED, Parser.FAILED}
      ensures outcome.Ranked? ==>
                && a < |apps| && apps[a].job < |jobs|
                && (deliveries[d].pc.AtCacheJob? || deliveries[d].pc.AtCacheResume? || deliveries[d].pc.AtWrite?)
                && deliveries[d].app == a && deliveries[d].seenJob == Some(jobs[apps[a].job])
                && deliveries[d].seenResume == ResumeOf(State(), apps[a])
                && deliveries[d].pc == AfterResume(services, deliveries[d])
    {
      d := Begin(a);
      FindApplication(d);
      if deliveries[d].pc.Ended? {
        return d, Skipped;
      }
      FindJob(d);
      if deliveries[d].pc.Ended? {
        return d, Skipped;
      }
      FindResume(d);
      outcome := if deliveries[d].pc.Ended? then Retry else Ranked;
    }

    /** One undisturbed delivery: it does nothing for a missing or ranked application, or one whose job is
        missing; asks for a retry while the resume is being parsed; and otherwise stores the ranking of
        the job's texts for that resume, and the two vectors if they were needed and missing. */
    method Process(a: nat) returns (outcome: Outcome)
      requires Coherent(services, State())
      modifies this
      ensures Coherent(services, State())
      ensures outcome.Skipped? <==> a >= |old(apps)| || old(apps)[a].ranking.Some? || old(apps)[a].job >= |old(jobs)|
      ensures outcome.Retry? <==>
                && !outcome.Skipped?
                && var resume := old(apps)[a].resume;
                   && resume.Some? && resume.value < |old(resumes)|
                   && old(resumes)[resume.value].row.status !in {Parser.PARSED, Parser.FAILED}
      ensures !outcome.Ranked? ==> apps == old(apps) && jobs == old(jobs) && resumes == old(resumes)
      ensures outcome.Ranked? ==> RanksOne(services, old(State()), State(), a)
    {
      var d: nat;
      ghost var before := State();
      d, outcome := ReadRows(a);
      if outcome.Ranked? {
        Rank(d);
        RankedTablesAre(services, before, State(), a);
      }
    }
  }
}
