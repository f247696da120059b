/** The `resume.parse` worker for one resume and its queue job: deliveries do not overlap, but any
    attempt may throw or crash at any await, be retried, and finally fire the failure hook. */
module ResumeParser {
  import opened Wrappers
  import Queue = RetryQueue

  datatype Format = Pdf | Docx | LegacyDoc | Unknown

  /** A stored file: its type, and the trimmed text that extraction yields for it. */
  datatype File = File(format: Format, text: string)

  datatype Structured = Structured(skills: seq<string>, phone: Option<string>)

  datatype ParsedData = ParsedData(rawText: string, structured: Option<Structured>)

  datatype Status = UPLOADED | PROCESSING | PARSED | FAILED

  datatype Resume = Resume(file: File, status: Status, parsedData: Option<ParsedData>, parseError: Option<string>)

  /** The status updates the worker performs on a row. */
  datatype RowWrite = WriteProcessing | WriteParsed(data: ParsedData) | WriteFailed(error: string)

  function ApplyWrite(row: Resume, write: RowWrite): Resume {
    match write
    case WriteProcessing => row.(status := PROCESSING)
    case WriteParsed(data) => row.(status := PARSED, parsedData := Some(data))
    case WriteFailed(error) => row.(status := FAILED, parseError := Some(error))
  }

  /** Only PDF and DOCX files have a text; the others fail at once and for good. */
  predicate Supported(file: File) {
    file.format.Pdf? || file.format.Docx?
  }

  /** A phone number that is there and not empty. */
  predicate IsGiven(phone: Option<string>) {
    phone.Some? && phone.value != ""
  }

  /** The await an attempt is about to perform. */
  datatype Pc =
    | Idle
    | AtLoad
    | AtProcessing
    | AtDownload
    | AtExtract(bytes: File)
    | AtStructure(rawText: string)
    | AtParsed(data: ParsedData)
    | AtBackfill(phone: string)
    | AtSavePhone(phone: string)

  /** A final failure whose hook is due, or has fired, but has not written yet. */
  datatype Failure = Failure(error: string, thrownAt: Pc)

  /** `candidate` is missing, or has an optional phone. `hookLost` records a hook that was never called, or
      whose write failed. */
  datatype State = State(
    extractor: bool,
    job: Queue.Job,
    resume: Option<Resume>,
    candidate: Option<Option<string>>,
    pc: Pc,
    hook: Option<Failure>,
    hookLost: bool)

  /** `Advance` completes the current await; `structured` and `saved` are what the extractor returns
      and whether the phone could be stored. `HookWrite` is the call of the hook with its write, `HookLost`
      the loss of the worker before the call, or a hook that fired and could not write. `PhoneStored` is
      another writer of the candidate's phone: a profile update, or the backfill of another resume. */
  datatype Event =
    | Pick
    | Advance(structured: Structured, saved: bool)
    | Throw(error: string)
    | Crash
    | HookWrite
    | HookLost(fired: bool)
    | PhoneStored(phone: string)

  function Complete(s: State): State {
    s.(job := Queue.Next(s.job, Queue.Complete), pc := Idle)
  }

  function Fail(s: State, unrecoverable: bool, error: string): State {
    var job := Queue.Next(s.job, Queue.Throw(unrecoverable));
    s.(job := job, pc := Idle,
       hook := if job.hooks.due > s.job.hooks.due then Some(Failure(error, s.pc)) else s.hook)
  }

  function WriteRow(s: State, write: RowWrite): State
    requires s.resume.Some?
  {
    s.(resume := Some(ApplyWrite(s.resume.value, write)))
  }

  function AdvanceStep(s: State, structured: Structured, saved: bool): State {
    match s.pc
    case Idle => s
    case AtLoad => if s.resume.None? || s.resume.value.status.PARSED? then Complete(s) else s.(pc := AtProcessing)
    case AtProcessing => if s.resume.None? then s else WriteRow(s, WriteProcessing).(pc := AtDownload)
    case AtDownload => if s.resume.None? then s else s.(pc := AtExtract(s.resume.value.file))
    case AtExtract(bytes) =>
      if !Supported(bytes) then Fail(s, true, "unsupported")
      else if s.extractor then s.(pc := AtStructure(bytes.text))
      else s.(pc := AtParsed(ParsedData(bytes.text, None)))
    case AtStructure(rawText) => s.(pc := AtParsed(ParsedData(rawText, Some(structured))))
    case AtParsed(data) =>
      if s.resume.None? then s
      else
        var written := WriteRow(s, WriteParsed(data));
        if data.structured.Some? && IsGiven(data.structured.value.phone)
        then written.(pc := AtBackfill(data.structured.value.phone.value))
        else Complete(written)
    case AtBackfill(phone) =>
      if s.candidate.None? || IsGiven(s.candidate.value) then Complete(s) else s.(pc := AtSavePhone(phone))
    case AtSavePhone(phone) =>
      // A refused phone is only logged.
      Complete(if saved then s.(candidate := Some(Some(phone))) else s)
  }

  /** A step that is not enabled changes nothing. */
  function Next(s: State, event: Event): State {
    match event
    case Pick => if s.job.status.Waiting? then s.(job := Queue.Next(s.job, Queue.Pick), pc := AtLoad) else s
    case Advance(structured, saved) => AdvanceStep(s, structured, saved)
    case Throw(error) => if s.pc.Idle? || s.pc.AtSavePhone? then s else Fail(s, false, error)
    case Crash => if s.pc.Idle? then s else s.(job := Queue.Next(s.job, Queue.Crash), pc := Idle)
    case HookWrite =>
      if s.hook.None? then s
      else
        var written := if s.resume.None? then s else WriteRow(s, WriteFailed(s.hook.value.error));
        written.(job := Queue.Next(s.job, Queue.FireHook), hook := None)
    case HookLost(fired) =>
      if s.hook.None? then s
      else
        var job := Queue.Next(s.job, if fired then Queue.FireHook else Queue.LoseHook);
        s.(job := job, hook := None, hookLost := true)
    case PhoneStored(phone) =>
      // Every writer stores a non-empty number.
      if s.candidate.Some? && phone != "" then s.(candidate := Some(Some(phone))) else s
  }

  function Run(s: State, events: seq<Event>): State {
    if |events| == 0 then s else Next(Run(s, events[..|events| - 1]), events[|events| - 1])
  }

  /** A freshly uploaded resume whose job has just been queued. */
  function Fresh(opts: Queue.Options, extractor: bool, file: File, candidate: Option<Option<string>>): State {
    State(extractor, Queue.NewJob(opts), Some(Resume(file, UPLOADED, None, None)), candidate, Idle, None, false)
  }

  /** Stored or pending parse results are the extraction of the stored file. */
  predicate IsExtraction(s: State, file: File, data: ParsedData) {
    Supported(file) && data.rawText == file.text && (data.structured.Some? <==> s.extractor)
  }

  predicate PcOk(s: State, row: Resume) {
    match s.pc
    case Idle => true
    case AtLoad => true
    case AtProcessing => !row.status.PARSED?
    case AtDownload => row.status.PROCESSING?
    case AtExtract(bytes) => row.status.PROCESSING? && bytes == row.file
    case AtStructure(rawText) =>
      row.status.PROCESSING? && Supported(row.file) && rawText == row.file.text && s.extractor
    case AtParsed(data) => row.status.PROCESSING? && IsExtraction(s, row.file, data)
    case AtBackfill(_) => row.status.PARSED?
    case AtSavePhone(_) => row.status.PARSED?
  }

  predicate RowOk(s: State, row: Resume) {
    && (row.status.PARSED? ==> row.parsedData.Some?)
    && (row.parsedData.Some? ==> IsExtraction(s, row.file, row.parsedData.value))
    && (row.status.FAILED? ==> row.parseError.Some? && s.job.status.Failed? && s.hook.None?)
    && (row.status.UPLOADED? ==> row.parsedData.None? && row.parseError.None?)
    && (row.status.PARSED? && s.hook.Some? ==> s.hook.value.thrownAt.AtLoad? || s.hook.value.thrownAt.AtBackfill?)
    && (s.job.status.Failed? ==> s.hook.Some? || s.hookLost || row.status.FAILED?)
  }

  predicate Shape(s: State) {
    && (s.pc.Idle? <==> !s.job.status.Active?)
    && (s.hook.Some? ==> s.job.status.Failed?)
    && s.job.hooks.due == (if s.hook.Some? then 1 else 0)
    && (s.resume.None? ==> s.pc.Idle? || s.pc.AtLoad?)
    && (s.resume.Some? ==> PcOk(s, s.resume.value) && RowOk(s, s.resume.value))
  }

  ghost predicate Inv(s: State) {
    Queue.Accounted(s.job) && Shape(s)
  }

  /** A throw settles the job: retried, or failed with its hook called. */
  lemma FailSettles(s: State, unrecoverable: bool, error: string)
    requires s.job.status.Active?
    ensures var t := Fail(s, unrecoverable, error);
            && (t.job.status.Waiting? || t.job.status.Failed?)
            && t.hook == (if t.job.status.Failed? then Some(Failure(error, s.pc)) else s.hook)
            && t.job.hooks == (if t.job.status.Failed? then Queue.OneDue(s.job.hooks) else s.job.hooks)
  {
  }

  lemma NextKeepsJob(s: State, event: Event)
    requires Queue.Accounted(s.job)
    ensures Queue.Accounted(Next(s, event).job) && Next(s, event).job.opts == s.job.opts
  {
    Queue.NextAccounted(s.job, Queue.Pick);
    Queue.NextAccounted(s.job, Queue.Crash);
    Queue.NextAccounted(s.job, Queue.Complete);
    Queue.NextAccounted(s.job, Queue.Throw(true));
    Queue.NextAccounted(s.job, Queue.Throw(false));
    Queue.NextAccounted(s.job, Queue.FireHook);
    Queue.NextAccounted(s.job, Queue.LoseHook);
  }

  lemma FailKeepsShape(s: State, unrecoverable: bool, error: string)
    requires Shape(s) && !s.pc.Idle? && !s.pc.AtSavePhone?
    ensures Shape(Fail(s, unrecoverable, error))
  {
    FailSettles(s, unrecoverable, error);
  }

  lemma AdvanceKeepsShape(s: State, structured: Structured, saved: bool)
    requires Shape(s)
    ensures Shape(AdvanceStep(s, structured, saved))
  {
    if s.pc.AtExtract? && !Supported(s.pc.bytes) { FailKeepsShape(s, true, "unsupported"); }
  }

  lemma NextKeepsShape(s: State, event: Event)
    requires Shape(s)
    ensures Shape(Next(s, event))
  {
    match event
    case Advance(structured, saved) => AdvanceKeepsShape(s, structured, saved);
    case Throw(error) => if !s.pc.Idle? && !s.pc.AtSavePhone? { FailKeepsShape(s, false, error); }
    case _ =>
  }

  lemma NextKeepsInv(s: State, event: Event)
    requires Inv(s)
    ensures Inv(Next(s, event)) && Next(s, event).extractor == s.extractor
  {
    NextKeepsJob(s, event);
    NextKeepsShape(s, event);
  }

  lemma NextKeepsInvIf(s: State, event: Event)
    ensures Inv(s) ==> Inv(Next(s, event))
  {
    if Inv(s) { NextKeepsInv(s, event); }
  }

  lemma {:induction false} RunKeepsInv(s: State, events: seq<Event>)
    requires Inv(s)
    ensures Inv(Run(s, events)) && Run(s, events).extractor == s.extractor
  {
    if |events| > 0 {
      RunKeepsInv(s, events[..|events| - 1]);
      NextKeepsInv(Run(s, events[..|events| - 1]), events[|events| - 1]);
    }
  }

  lemma FreshInv(opts: Queue.Options, extractor: bool, file: File, candidate: Option<Option<string>>)
    ensures Inv(Fresh(opts, extractor, file, candidate))
  {
  }

  lemma NextKeepsFile(s: State, event: Event)
    ensures s.resume.Some? <==> Next(s, event).resume.Some?
    ensures s.resume.Some? ==> Next(s, event).resume.value.file == s.resume.value.file
    ensures s.resume.Some? && !s.resume.value.status.UPLOADED? ==> !Next(s, event).resume.value.status.UPLOADED?
  {
  }

  /** The row never disappears, keeps its file, and never becomes UPLOADED again. */
  lemma {:induction false} RunKeepsFile(s: State, events: seq<Event>)
    requires s.resume.Some?
    ensures Run(s, events).resume.Some? && Run(s, events).resume.value.file == s.resume.value.file
    ensures !s.resume.value.status.UPLOADED? ==> !Run(s, events).resume.value.status.UPLOADED?
  {
    if |events| > 0 {
      RunKeepsFile(s, events[..|events| - 1]);
      NextKeepsFile(Run(s, events[..|events| - 1]), events[|events| - 1]);
    }
  }

  /** Over every run of attempts, throws, crashes and hook calls: a PARSED resume stores exactly the
      extraction of its file; a FAILED one has an error and a job that is over; and a job that is
      over leaves its resume FAILED unless the hook is still to write or its write was lost. */
  lemma ResumeLifecycle(opts: Queue.Options, extractor: bool, file: File, candidate: Option<Option<string>>,
                        events: seq<Event>)
    ensures var s := Run(Fresh(opts, extractor, file, candidate), events);
            && s.resume.Some?
            && var row := s.resume.value;
               && row.file == file
               && (row.status.PARSED? ==> row.parsedData.Some?)
               && (row.parsedData.Some? ==>
                     file.format in {Pdf, Docx} && row.parsedData.value.rawText == file.text
                     && (row.parsedData.value.structured.Some? <==> extractor))
               && (row.status.FAILED? ==> row.parseError.Some? && s.job.status.Failed? && s.pc.Idle?)
               && (s.job.status.Failed? ==> row.status.FAILED? || s.hook.Some? || s.hookLost)
               && (s.hook.Some? <==> s.job.hooks.due > 0)
  {
    FreshInv(opts, extractor, file, candidate);
    RunKeepsInv(Fresh(opts, extractor, file, candidate), events);
    RunKeepsFile(Fresh(opts, extractor, file, candidate), events);
  }

  /** FAILED is final: no later event delivers the job again or changes the row. */
  lemma {:induction false} FailedIsFinal(s: State, events: seq<Event>)
    requires Inv(s) && s.resume.Some? && s.resume.value.status.FAILED?
    ensures Run(s, events) == s.(candidate := Run(s, events).candidate)
  {
    if |events| > 0 {
      FailedIsFinal(s, events[..|events| - 1]);
    }
  }

  /** A delivery that starts on a PARSED resume finishes at its first read and writes nothing. */
  lemma ParsedDeliveryWritesNothing(s: State, structured: Structured, saved: bool)
    requires Inv(s) && s.resume.Some? && s.resume.value.status.PARSED? && s.job.status.Waiting?
    ensures var t := Next(Next(s, Pick), Advance(structured, saved));
            t.resume == s.resume && t.candidate == s.candidate && t.job.status.Completed? && t.pc.Idle?
  {
  }

  ghost predicate StillParsed(s: State, data: ParsedData) {
    && s.resume.Some? && s.resume.value.parsedData == Some(data)
    && (s.resume.value.status.PARSED? || s.resume.value.status.FAILED?)
  }

  /** Once PARSED, the stored data never changes again; the status can only become FAILED. */
  lemma {:induction false} ParsedDataSurvives(s: State, events: seq<Event>)
    requires Inv(s) && s.resume.Some? && s.resume.value.status.PARSED?
    ensures StillParsed(Run(s, events), s.resume.value.parsedData.value)
  {
    if |events| > 0 {
      ParsedDataSurvives(s, events[..|events| - 1]);
      RunKeepsInv(s, events[..|events| - 1]);
    }
  }

  /** PARSED is left exactly when the failure hook of a job that is over writes; and the attempt that
      failed the job then threw either at the phone backfill's lookup or at a redelivery's first read. */
  lemma ParsedIsLeftOnlyByTheHook(s: State, event: Event)
    requires Inv(s) && s.resume.Some? && s.resume.value.status.PARSED?
    ensures !Next(s, event).resume.value.status.PARSED? <==> event.HookWrite? && s.hook.Some?
    ensures s.hook.Some? ==>
              s.job.status.Failed? && (s.hook.value.thrownAt.AtBackfill? || s.hook.value.thrownAt.AtLoad?)
  {
  }

  /** Such a hook is pending exactly after a last attempt threw on the already PARSED resume. */
  lemma LastAttemptOnParsed(s: State, error: string)
    requires Inv(s) && s.resume.Some? && s.resume.value.status.PARSED? && s.pc != Idle && !s.pc.AtSavePhone?
    ensures Next(s, Throw(error)).hook.Some? <==> s.job.attemptsMade + 1 >= s.job.opts.attempts.GetOr(1)
    ensures Next(s, Throw(error)).hook.Some? ==>
              Next(Next(s, Throw(error)), HookWrite).resume.value
              == s.resume.value.(status := FAILED, parseError := Some(error))
  {
  }

  lemma Then(s: State, events: seq<Event>, event: Event, before: State, after: State)
    requires Run(s, events) == before && Next(before, event) == after
    ensures Run(s, events + [event]) == after
  {
    assert (events + [event])[..|events|] == events;
  }

  function Uploaded(file: File): Resume {
    Resume(file, UPLOADED, None, None)
  }

  /** What an attempt stores for a file with this text and an extractor that finds this phone. */
  function Found(text: string, phone: string): ParsedData {
    ParsedData(text, Some(Structured([], Some(phone))))
  }

  /** A resume job with the default options, of a candidate without a phone. */
  function DefaultStart(file: File): State {
    Fresh(Queue.DEFAULT_OPTIONS, true, file, Some(None))
  }

  lemma AwaitsUpToBackfill(s: State, file: File, phone: string)
    requires s.pc.AtLoad? && s.extractor && s.resume == Some(Uploaded(file)) && phone != ""
    requires file.format in {Pdf, Docx}
    ensures var step, row := Advance(Structured([], Some(phone)), true), Uploaded(file).(status := PROCESSING);
            var s1, s2 := s.(pc := AtProcessing), s.(resume := Some(row), pc := AtDownload);
            var s3, s4 := s2.(pc := AtExtract(file)), s2.(pc := AtStructure(file.text));
            && Next(s, step) == s1 && Next(s1, step) == s2 && Next(s2, step) == s3 && Next(s3, step) == s4
            && Next(s4, step) == s4.(pc := AtParsed(Found(file.text, phone)))
            && Next(s4.(pc := AtParsed(Found(file.text, phone))), step)
               == s4.(resume := Some(row.(status := PARSED, parsedData := Some(Found(file.text, phone)))),
                      pc := AtBackfill(phone))
  {
  }

  /** An attempt that got as far as the backfill. */
  lemma ReachesBackfill(start: State, events: seq<Event>, file: File, phone: string) returns (more: seq<Event>)
    requires var s := Run(start, events);
             s.pc.Idle? && s.job.status.Waiting? && s.extractor && s.resume == Some(Uploaded(file)) && phone != ""
    requires file.format in {Pdf, Docx}
    ensures var s := Run(start, events);
            Run(start, more) == s.(
              job := Queue.Next(s.job, Queue.Pick), pc := AtBackfill(phone),
              resume := Some(Resume(file, PARSED, Some(Found(file.text, phone)), None)))
  {
    var step := Advance(Structured([], Some(phone)), true);
    var s := Run(start, events);
    var s0 := s.(job := Queue.Next(s.job, Queue.Pick), pc := AtLoad);
    var s1 := s0.(pc := AtProcessing);
    var s2 := s0.(resume := Some(Uploaded(file).(status := PROCESSING)), pc := AtDownload);
    var s3, s4 := s2.(pc := AtExtract(file)), s2.(pc := AtStructure(file.text));
    var s5 := s4.(pc := AtParsed(Found(file.text, phone)));
    AwaitsUpToBackfill(s0, file, phone);
    Then(start, events, Pick, s, s0);
    more := events + [Pick];
    Then(start, more, step, s0, s1);
    more := more + [step];
    Then(start, more, step, s1, s2);
    more := more + [step];
    Then(start, more, step, s2, s3);
    more := more + [step];
    Then(start, more, step, s3, s4);
    more := more + [step];
    Then(start, more, step, s4, s5);
    more := more + [step];
    Then(start, more, step, s5, Next(s5, step));
    more := more + [step];
  }

  lemma ThrowRetries(start: State, n: nat, backoff: nat)
    requires n < 4 && start.pc.Idle? && start.hook.None?
    ensures Fail(start.(job := Queue.Retried(n, backoff).(status := Queue.Active), pc := AtLoad), false, "")
         == start.(job := Queue.Retried(n + 1, backoff + 2000 * Queue.Pow2(n)))
  {
  }

  /** One more attempt that throws at its first read, and is retried. */
  lemma OneMoreThrow(start: State, events: seq<Event>, n: nat, backoff: nat)
    requires n < 4 && start.pc.Idle? && start.hook.None?
    requires Run(start, events) == start.(job := Queue.Retried(n, backoff))
    ensures Run(start, events + [Pick] + [Throw("")])
         == start.(job := Queue.Retried(n + 1, backoff + 2000 * Queue.Pow2(n)))
  {
    var active := start.(job := Queue.Retried(n, backoff).(status := Queue.Active), pc := AtLoad);
    ThrowRetries(start, n, backoff);
    Then(start, events, Pick, start.(job := Queue.Retried(n, backoff)), active);
    Then(start, events + [Pick], Throw(""), active, Fail(active, false, ""));
  }

  lemma FourThrows(file: File) returns (events: seq<Event>)
    ensures Run(DefaultStart(file), events) == DefaultStart(file).(job := Queue.Retried(4, 30000))
  {
    var start := DefaultStart(file);
    events := [];
    var n, backoff := 0, 0;
    while n < 4
      invariant n <= 4 && backoff == 2000 * (Queue.Pow2(n) - 1)
      invariant Run(start, events) == start.(job := Queue.Retried(n, backoff))
    {
      OneMoreThrow(start, events, n, backoff);
      events := events + [Pick] + [Throw("")];
      n, backoff := n + 1, backoff + 2000 * Queue.Pow2(n);
    }
    assert Queue.Pow2(4) == 16;
  }

  /** It does happen with the options in use: after four attempts that threw, the fifth stores the text
      and the data, its candidate lookup for the phone throws, and the resume ends FAILED. */
  lemma BackfillLookupCanFailAParsedResume(file: File, phone: string, error: string) returns (events: seq<Event>)
    requires phone != "" && file.format in {Pdf, Docx}
    ensures Run(DefaultStart(file), events).resume
         == Some(Resume(file, FAILED, Some(Found(file.text, phone)), Some(error)))
  {
    var start := DefaultStart(file);
    events := FourThrows(file);
    events := ReachesBackfill(start, events, file, phone);
    var parsed := Run(start, events);
    Then(start, events, Throw(error), parsed, Fail(parsed, false, error));
    events := events + [Throw(error)];
    Then(start, events, HookWrite, Fail(parsed, false, error), Next(Fail(parsed, false, error), HookWrite));
    events := events + [HookWrite];
  }

  // ---- The candidate's phone, which others write too.

  /** Event `k` is a lookup that found no phone, and its delivery has not written since. */
  predicate LookupFoundNone(s: State, events: seq<Event>, k: nat) {
    && k < |events| && Run(s, events[..k]).pc.AtBackfill?
    && Run(s, events[..k]).candidate.Some? && !IsGiven(Run(s, events[..k]).candidate.value)
    && forall n | k < n <= |events| :: Run(s, events[..n]).pc.AtSavePhone?
  }

  predicate StoredAfter(events: seq<Event>, k: nat) {
    exists m | k < m < |events| :: events[m].PhoneStored? && events[m].phone != ""
  }

  /** Some other writer stored a phone between the backfill's lookup, which found none, and now. */
  predicate StoredSinceLookup(s: State, events: seq<Event>) {
    exists k | 0 <= k < |events| :: LookupFoundNone(s, events, k) && StoredAfter(events, k)
  }

  lemma PrefixOfPrefix(events: seq<Event>, n: nat)
    requires n < |events|
    ensures events[..|events| - 1][..n] == events[..n]
  {
  }

  lemma LookupContinues(s: State, events: seq<Event>, k: nat)
    requires |events| > 0 && LookupFoundNone(s, events[..|events| - 1], k) && Run(s, events).pc.AtSavePhone?
    ensures LookupFoundNone(s, events, k)
  {
    PrefixOfPrefix(events, k);
    forall n | k < n <= |events| ensures Run(s, events[..n]).pc.AtSavePhone? {
      if n < |events| { PrefixOfPrefix(events, n); } else { assert events[..n] == events; }
    }
  }

  lemma LookupNow(s: State, events: seq<Event>)
    requires |events| > 0 && Run(s, events).pc.AtSavePhone? && !Run(s, events[..|events| - 1]).pc.AtSavePhone?
    ensures LookupFoundNone(s, events, |events| - 1)
  {
    assert events[..|events|] == events;
  }

  lemma StoredOneMore(events: seq<Event>, k: nat)
    requires k < |events| - 1
    ensures StoredAfter(events, k) <==>
              || StoredAfter(events[..|events| - 1], k)
              || (events[|events| - 1].PhoneStored? && events[|events| - 1].phone != "")
  {
    var n := |events| - 1;
    if StoredAfter(events[..n], k) {
      var m :| k < m < n && events[..n][m].PhoneStored? && events[..n][m].phone != "";
      assert events[m].PhoneStored?;
    }
    if m :| k < m < |events| && events[m].PhoneStored? && events[m].phone != "" && m < n {
      assert events[..n][m].PhoneStored?;
    }
  }

  /** While the backfill's write is still to come, its lookup is somewhere in the past, and a phone is
      there exactly when it was stored after that lookup. */
  lemma {:induction false} PendingWriteLookedUp(s: State, events: seq<Event>) returns (k: nat)
    requires !s.pc.AtSavePhone? && Run(s, events).pc.AtSavePhone?
    ensures LookupFoundNone(s, events, k) && Run(s, events).candidate.Some?
    ensures IsGiven(Run(s, events).candidate.value) <==> StoredAfter(events, k)
  {
    var before := events[..|events| - 1];
    if Run(s, before).pc.AtSavePhone? {
      k := PendingWriteLookedUp(s, before);
      LookupContinues(s, events, k);
      StoredOneMore(events, k);
    } else {
      k := |events| - 1;
      LookupNow(s, events);
    }
  }

  lemma LookupIsUnique(s: State, events: seq<Event>, k: nat, other: nat)
    requires LookupFoundNone(s, events, k) && LookupFoundNone(s, events, other)
    ensures k == other
  {
  }

  /** Over every run: the next step of the worker replaces a phone that is there if and only if it is a
      backfill write that succeeds, the phone was stored between that backfill's lookup and now, and
      it is a different one. */
  lemma PhoneReplacedExactly(opts: Queue.Options, extractor: bool, file: File, candidate: Option<Option<string>>,
                             events: seq<Event>, structured: Structured, saved: bool)
    ensures var start := Fresh(opts, extractor, file, candidate);
            var s, t := Run(start, events), Next(Run(start, events), Advance(structured, saved));
            s.candidate.Some? && IsGiven(s.candidate.value) && t.candidate != s.candidate <==>
              && saved && StoredSinceLookup(start, events)
              && s.pc.AtSavePhone? && s.candidate != Some(Some(s.pc.phone))
  {
    var start := Fresh(opts, extractor, file, candidate);
    if Run(start, events).pc.AtSavePhone? {
      var k := PendingWriteLookedUp(start, events);
      if StoredSinceLookup(start, events) {
        var other :| 0 <= other < |events| && LookupFoundNone(start, events, other) && StoredAfter(events, other);
        LookupIsUnique(start, events, k, other);
      }
    }
  }

  /** It does happen: a profile update between the lookup and the write is overwritten. */
  lemma BackfillOverwritesNewerPhone(file: File, phone: string, own: string) returns (events: seq<Event>)
    requires phone != "" && own != "" && phone != own && file.format in {Pdf, Docx}
    ensures |events| > 0
    ensures Run(DefaultStart(file), events[..|events| - 1]).candidate == Some(Some(own))
    ensures Run(DefaultStart(file), events).candidate == Some(Some(phone))
  {
    var start, step := DefaultStart(file), Advance(Structured([], None), true);
    events := ReachesBackfill(start, [], file, phone);
    var s := Run(start, events);
    Then(start, events, step, s, s.(pc := AtSavePhone(phone)));
    events := events + [step];
    var stored := s.(pc := AtSavePhone(phone), candidate := Some(Some(own)));
    Then(start, events, PhoneStored(own), s.(pc := AtSavePhone(phone)), stored);
    events := events + [PhoneStored(own)];
    Then(start, events, step, stored, Next(stored, step));
    assert (events + [step])[..|events|] == events;
    events := events + [step];
  }

  /** The processor over its row: one method per await. */
  class ParseProcessor {
    const extractor: bool
    var job: Queue.Job
    var resume: Option<Resume>
    var candidate: Option<Option<string>>
    var pc: Pc
    var hook: Option<Failure>
    var hookLost: bool

    constructor (opts: Queue.Options, extractor: bool, file: File, candidate: Option<Option<string>>)
      ensures Current() == Fresh(opts, extractor, file, candidate)
    {
      this.extractor := extractor;
      job := Queue.NewJob(opts);
      resume := Some(Resume(file, UPLOADED, None, None));
      this.candidate := candidate;
      pc, hook, hookLost := Idle, None, false;
    }

    function Current(): State
      reads this
    {
      State(extractor, job, resume, candidate, pc, hook, hookLost)
    }

    method Finish()
      modifies this
      ensures Current() == Complete(old(Current()))
    {
      job := Queue.Next(job, Queue.Complete);
      pc := Idle;
    }

    /** The attempt throws; the queue decides, and the `failed` handler calls the hook on the last one. */
    method ThrowError(unrecoverable: bool, error: string)
      modifies this
      ensures Current() == Fail(old(Current()), unrecoverable, error)
    {
      var due := job.hooks.due;
      job := Queue.Next(job, Queue.Throw(unrecoverable));
      if job.hooks.due > due {
        hook := Some(Failure(error, pc));
      }
      pc := Idle;
    }

    method UpdateStatus(write: RowWrite)
      requires resume.Some?
      modifies this`resume
      ensures Current() == WriteRow(old(Current()), write)
    {
      match write {
        case WriteProcessing =>
          resume := Some(resume.value.(status := PROCESSING));
        case WriteParsed(data) =>
          resume := Some(resume.value.(status := PARSED, parsedData := Some(data)));
        case WriteFailed(error) =>
          resume := Some(resume.value.(status := FAILED, parseError := Some(error)));
      }
    }

    method Deliver()
      requires job.status.Waiting?
      modifies this
      ensures Current() == Next(old(Current()), Pick)
      ensures old(Inv(Current())) ==> Inv(Current())
    {
      NextKeepsInvIf(Current(), Pick);
      job := Queue.Next(job, Queue.Pick);
      pc := AtLoad;
    }

    method Load(structured: Structured, saved: bool)
      requires pc.AtLoad?
      modifies this
      ensures Current() == Next(old(Current()), Advance(structured, saved))
      ensures old(Inv(Current())) ==> Inv(Current())
    {
      NextKeepsInvIf(Current(), Advance(structured, saved));
      if resume.None? || resume.value.status.PARSED? {
        Finish();
      } else {
        pc := AtProcessing;
      }
    }

    method MarkProcessing(structured: Structured, saved: bool)
      requires pc.AtProcessing? && resume.Some?
      modifies this
      ensures Current() == Next(old(Current()), Advance(structured, saved))
      ensures old(Inv(Current())) ==> Inv(Current())
    {
      NextKeepsInvIf(Current(), Advance(structured, saved));
      UpdateStatus(WriteProcessing);
      pc := AtDownload;
    }

    method Download(structured: Structured, saved: bool)
      requires pc.AtDownload? && resume.Some?
      modifies this
      ensures Current() == Next(old(Current()), Advance(structured, saved))
      ensures old(Inv(Current())) ==> Inv(Current())
    {
      NextKeepsInvIf(Current(), Advance(structured, saved));
      pc := AtExtract(resume.value.file);
    }

    method ExtractResumeText(structured: Structured, saved: bool)
      requires pc.AtExtract?
      modifies this
      ensures Current() == Next(old(Current()), Advance(structured, saved))
      ensures old(Inv(Current())) ==> Inv(Current())
    {
      NextKeepsInvIf(Current(), Advance(structured, saved));
      var bytes := pc.bytes;
      if !Supported(bytes) {
        ThrowError(true, "unsupported");
        return;
      }
      if extractor {
        pc := AtStructure(bytes.text);
      } else {
        pc := AtParsed(ParsedData(bytes.text, None));
      }
    }

    method ExtractStructured(structured: Structured, saved: bool)
      requires pc.AtStructure?
      modifies this
      ensures Current() == Next(old(Current()), Advance(structured, saved))
      ensures old(Inv(Current())) ==> Inv(Current())
    {
      NextKeepsInvIf(Current(), Advance(structured, saved));
      pc := AtParsed(ParsedData(pc.rawText, Some(structured)));
    }

    method StoreParsed(structured: Structured, saved: bool)
      requires pc.AtParsed? && resume.Some?
      modifies this
      ensures Current() == Next(old(Current()), Advance(structured, saved))
      ensures old(Inv(Current())) ==> Inv(Current())
    {
      NextKeepsInvIf(Current(), Advance(structured, saved));
      var data := pc.data;
      UpdateStatus(WriteParsed(data));
      if data.structured.Some? && IsGiven(data.structured.value.phone) {
        pc := AtBackfill(data.structured.value.phone.value);
      } else {
        Finish();
      }
    }

    /** The backfill's lookup: it goes on only for a candidate that exists and has no phone. */
    method LookUpCandidate(structured: Structured, saved: bool)
      requires pc.AtBackfill?
      modifies this
      ensures Current() == Next(old(Current()), Advance(structured, saved))
      ensures old(Inv(Current())) ==> Inv(Current())
      ensures candidate == old(candidate) && resume == old(resume)
      ensures pc == if candidate.Some? && !IsGiven(candidate.value) then AtSavePhone(old(pc).phone) else Idle
    {
      NextKeepsInvIf(Current(), Advance(structured, saved));
      if candidate.None? || IsGiven(candidate.value) {
        Finish();
      } else {
        pc := AtSavePhone(pc.phone);
      }
    }

    /** The backfill's write, whatever the phone is by now; a refusal is only logged. */
    method UpdatePhone(structured: Structured, saved: bool)
      requires pc.AtSavePhone?
      modifies this
      ensures Current() == Next(old(Current()), Advance(structured, saved))
      ensures old(Inv(Current())) ==> Inv(Current())
      ensures candidate == (if saved then Some(Some(old(pc).phone)) else old(candidate))
      ensures pc.Idle? && resume == old(resume)
    {
      NextKeepsInvIf(Current(), Advance(structured, saved));
      if saved {
        candidate := Some(Some(pc.phone));
      }
      Finish();
    }

    /** Both awaits with nothing in between: only then is a phone that is there never replaced. */
    method BackfillCandidatePhone(structured: Structured, saved: bool)
      requires pc.AtBackfill?
      modifies this
      ensures old(Inv(Current())) ==> Inv(Current())
      ensures candidate == if saved && old(candidate) in {Some(None), Some(Some(""))}
                           then Some(Some(old(pc).phone)) else old(candidate)
      ensures pc.Idle? && resume == old(resume)
      ensures job == Queue.Next(old(job), Queue.Complete)
    {
      LookUpCandidate(structured, saved);
      if pc.AtSavePhone? {
        UpdatePhone(structured, saved);
      }
    }

    method OnFinalFailure()
      requires hook.Some?
      modifies this
      ensures Current() == Next(old(Current()), HookWrite)
      ensures old(Inv(Current())) ==> Inv(Current())
      ensures resume == if old(resume).None? then None
              else Some(old(resume).value.(status := FAILED, parseError := Some(old(hook).value.error)))
      ensures hook.None? && candidate == old(candidate)
    {
      NextKeepsInvIf(Current(), HookWrite);
      if resume.Some? {
        UpdateStatus(WriteFailed(hook.value.error));
      }
      job := Queue.Next(job, Queue.FireHook);
      hook := None;
    }

    /** From the queue to the extracted text, undisturbed; an unsupported file ends the job here. */
    method ReadFile(structured: Structured, saved: bool)
      requires Inv(Current()) && job.status.Waiting? && resume.Some? && !resume.value.status.PARSED?
      modifies this
      ensures Inv(Current()) && resume == old(Some(resume.value.(status := PROCESSING))) && candidate == old(candidate)
      ensures resume.value.file.format in {Pdf, Docx} ==>
                && job.status.Active?
                && pc == (if extractor then AtStructure(resume.value.file.text)
                          else AtParsed(ParsedData(resume.value.file.text, None)))
      ensures resume.value.file.format in {LegacyDoc, Unknown} ==> job.status.Failed? && hook.Some? && pc.Idle?
    {
      Deliver();
      Load(structured, saved);
      MarkProcessing(structured, saved);
      Download(structured, saved);
      FailSettles(Current(), true, "unsupported");
      ExtractResumeText(structured, saved);
    }

    /** From the extracted text to the end, undisturbed. */
    method StoreResult(structured: Structured, saved: bool)
      requires Inv(Current()) && job.status.Active? && resume.Some?
      requires pc == if extractor then AtStructure(resume.value.file.text)
                     else AtParsed(ParsedData(resume.value.file.text, None))
      modifies this
      ensures Inv(Current()) && job.status.Completed?
      ensures resume == Some(old(resume).value.(
                               status := PARSED,
                               parsedData := Some(ParsedData(old(resume).value.file.text,
                                                             if extractor then Some(structured) else None))))
      ensures candidate == if extractor && saved && structured.phone.Some? && structured.phone.value != ""
                              && old(candidate) in {Some(None), Some(Some(""))}
                           then Some(Some(structured.phone.value)) else old(candidate)
    {
      if pc.AtStructure? {
        ExtractStructured(structured, saved);
      }
      StoreParsed(structured, saved);
      if pc.AtBackfill? {
        BackfillCandidatePhone(structured, saved);
      }
    }

    /** One undisturbed attempt on a resume that is not PARSED yet. A PDF or DOCX file is parsed, and the
        candidate's phone is filled in if one was found, they have none, and the write succeeds; any other
        file fails the job at once, with nothing stored but the status. */
    method Process(structured: Structured, saved: bool)
      requires Inv(Current()) && job.status.Waiting? && resume.Some? && !resume.value.status.PARSED?
      modifies this
      ensures Inv(Current())
      ensures old(resume).value.file.format in {Pdf, Docx} ==>
                && job.status.Completed?
                && resume == Some(old(resume).value.(
                               status := PARSED,
                               parsedData := Some(ParsedData(old(resume).value.file.text,
                                                             if extractor then Some(structured) else None))))
                && candidate == (if extractor && saved && structured.phone.Some? && structured.phone.value != ""
                                    && old(candidate) in {Some(None), Some(Some(""))}
                                 then Some(Some(structured.phone.value)) else old(candidate))
      ensures old(resume).value.file.format in {LegacyDoc, Unknown} ==>
                && job.status.Failed? && hook.Some?
                && resume == Some(old(resume).value.(status := PROCESSING)) && candidate == old(candidate)
    {
      ReadFile(structured, saved);
      if !pc.Idle? {
        assert !resume.value.file.format.LegacyDoc? && !resume.value.file.format.Unknown?;
        StoreResult(structured, saved);
      }
    }
  }
}
