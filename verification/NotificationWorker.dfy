/** The `notification.send` worker: upsert by the queue job's id, look up the user, send the email,
    mark the row processed, publish. Every `await` is one step, so deliveries of one job can crash
    anywhere, be repeated, and interleave. */
module NotificationWorker {
  import opened Wrappers
  import opened Sequences

  datatype JobData = JobData(userId: nat, kind: string, title: string, message: string)

  /** A row of the notification table; its id is its position. */
  datatype Row = Row(sourceJobId: nat, data: JobData, processed: bool, isRead: bool)

  datatype Email = Email(job: nat, to: string, subject: string, body: string)

  datatype Published = Published(userId: nat, row: nat, notification: Row)

  datatype ReadError = NotificationNotFound | NotYours

  /** The await a delivery is about to perform. */
  datatype Pc =
    | AtUpsert
    | AtFindUser(row: nat)
    | AtSend(row: nat, address: string)
    | AtMark(row: nat)
    | AtPublish(row: nat, notification: Row)
    | Ended

  /** One delivery of a queue job, with a record of what it did. */
  datatype Delivery = Delivery(job: nat, pc: Pc, foundUser: bool, sent: bool, marked: bool, published: bool)

  /** `jobs` holds the queued data, indexed by job id. */
  datatype System = System(
    jobs: seq<JobData>,
    rows: seq<Row>,
    deliveries: seq<Delivery>,
    emails: seq<Email>,
    published: seq<Published>)

  /** `Crash` is any attempt that dies or throws at its current await. */
  datatype Event =
    | Start(jobId: Option<nat>)
    | Upsert(d: nat)
    | FindUser(d: nat, address: Option<string>)
    | Send(d: nat)
    | Mark(d: nat)
    | Publish(d: nat, delivered: bool)
    | Crash(d: nat)
    | MarkRead(row: nat, userId: nat)

  function FindRow(rows: seq<Row>, jobId: nat): (r: Option<nat>)
    ensures r.Some? ==> r.value < |rows| && rows[r.value].sourceJobId == jobId
    ensures r.None? ==> forall i | 0 <= i < |rows| :: rows[i].sourceJobId != jobId
  {
    if |rows| == 0 then None
    else if rows[|rows| - 1].sourceJobId == jobId then Some(|rows| - 1)
    else FindRow(rows[..|rows| - 1], jobId)
  }

  function WithDelivery(s: System, d: nat, delivery: Delivery): System
    requires d < |s.deliveries|
  {
    s.(deliveries := s.deliveries[d := delivery])
  }

  function StartDelivery(s: System, jobId: Option<nat>): System {
    // A job without an id throws before touching anything.
    if jobId.None? || jobId.value >= |s.jobs| then s
    else s.(deliveries := s.deliveries + [Delivery(jobId.value, AtUpsert, false, false, false, false)])
  }

  function UpsertRow(s: System, d: nat): System
    requires d < |s.deliveries| && s.deliveries[d].pc.AtUpsert? && s.deliveries[d].job < |s.jobs|
  {
    var me := s.deliveries[d];
    match FindRow(s.rows, me.job)
    case None =>
      WithDelivery(s.(rows := s.rows + [Row(me.job, s.jobs[me.job], false, false)]), d, me.(pc := AtFindUser(|s.rows|)))
    case Some(row) =>
      WithDelivery(s, d, me.(pc := if s.rows[row].processed then Ended else AtFindUser(row)))
  }

  /** The email of a job. */
  function EmailOf(jobs: seq<JobData>, job: nat, address: string): Email
    requires job < |jobs|
  {
    Email(job, address, jobs[job].title, jobs[job].message)
  }

  function SendEmail(s: System, d: nat): System
    requires d < |s.deliveries| && s.deliveries[d].pc.AtSend? && s.deliveries[d].job < |s.jobs|
  {
    var me := s.deliveries[d];
    WithDelivery(s.(emails := s.emails + [EmailOf(s.jobs, me.job, me.pc.address)]), d,
                 me.(pc := AtMark(me.pc.row), sent := true))
  }

  function MarkProcessed(s: System, d: nat): System
    requires d < |s.deliveries| && s.deliveries[d].pc.AtMark? && s.deliveries[d].pc.row < |s.rows|
  {
    var me := s.deliveries[d];
    var row := me.pc.row;
    var notification := s.rows[row].(processed := true);
    WithDelivery(s.(rows := s.rows[row := notification]), d, me.(pc := AtPublish(row, notification), marked := true))
  }

  function PublishCreated(s: System, d: nat, delivered: bool): System
    requires d < |s.deliveries| && s.deliveries[d].pc.AtPublish? && s.deliveries[d].job < |s.jobs|
  {
    var me := s.deliveries[d];
    var event := Published(s.jobs[me.job].userId, me.pc.row, me.pc.notification);
    // A failed publish is logged and swallowed.
    if delivered
    then WithDelivery(s.(published := s.published + [event]), d, me.(pc := Ended, published := true))
    else WithDelivery(s, d, me.(pc := Ended))
  }

  function MarkAsRead(s: System, row: nat, userId: nat): System {
    if row < |s.rows| && s.rows[row].data.userId == userId && !s.rows[row].isRead
    then s.(rows := s.rows[row := s.rows[row].(isRead := true)])
    else s
  }

  /** A step that is not enabled changes nothing. */
  function Next(s: System, event: Event): System {
    match event
    case Start(jobId) => StartDelivery(s, jobId)
    case Upsert(d) =>
      if d < |s.deliveries| && s.deliveries[d].pc.AtUpsert? && s.deliveries[d].job < |s.jobs|
        then UpsertRow(s, d) else s
    case FindUser(d, address) =>
      if d < |s.deliveries| && s.deliveries[d].pc.AtFindUser? then
        var me := s.deliveries[d];
        match address
        case Some(to) => WithDelivery(s, d, me.(pc := AtSend(me.pc.row, to), foundUser := true))
        case None => WithDelivery(s, d, me.(pc := AtMark(me.pc.row)))
      else s
    case Send(d) =>
      if d < |s.deliveries| && s.deliveries[d].pc.AtSend? && s.deliveries[d].job < |s.jobs| then SendEmail(s, d) else s
    case Mark(d) =>
      if d < |s.deliveries| && s.deliveries[d].pc.AtMark? && s.deliveries[d].pc.row < |s.rows|
        then MarkProcessed(s, d) else s
    case Publish(d, delivered) =>
      if d < |s.deliveries| && s.deliveries[d].pc.AtPublish? && s.deliveries[d].job < |s.jobs|
      then PublishCreated(s, d, delivered) else s
    case Crash(d) =>
      if d < |s.deliveries| then WithDelivery(s, d, s.deliveries[d].(pc := Ended)) else s
    case MarkRead(row, userId) => MarkAsRead(s, row, userId)
  }

  function Run(s: System, events: seq<Event>): System {
    if |events| == 0 then s else Next(Run(s, events[..|events| - 1]), events[|events| - 1])
  }

  function Initial(jobs: seq<JobData>): System {
    System(jobs, [], [], [], [])
  }

  // Predicates over table entries, as named functions so that counts can be compared.

  function EmailFor(job: nat): Email -> bool { (e: Email) => e.job == job }
  function PublishedFor(job: nat): Published -> bool { (p: Published) => p.notification.sourceJobId == job }
  function SentBy(job: nat): Delivery -> bool { (d: Delivery) => d.job == job && d.sent }
  function MarkedBy(job: nat): Delivery -> bool { (d: Delivery) => d.job == job && d.marked }
  function MarkedWithUser(job: nat): Delivery -> bool { (d: Delivery) => d.job == job && d.marked && d.foundUser }
  function SentUnmarked(job: nat): Delivery -> bool { (d: Delivery) => d.job == job && d.sent && !d.marked }
  function PublishedBy(job: nat): Delivery -> bool { (d: Delivery) => d.job == job && d.published }
  /** Past the processed check and not yet past the email. */
  function MaySend(job: nat): Delivery -> bool { (d: Delivery) => d.job == job && (d.pc.AtFindUser? || d.pc.AtSend?) }

  function SentCount(s: System, job: nat): nat { Count(EmailFor(job), s.emails) }

  predicate Live(d: Delivery) { !d.pc.Ended? }

  /** A snapshot of a row taken by the mark: processed, and the job's own data. */
  predicate IsMarkedRow(s: System, row: nat, notification: Row) {
    && row < |s.rows| && notification.processed
    && notification.sourceJobId == s.rows[row].sourceJobId && notification.data == s.rows[row].data
  }

  /** What a delivery's record may look like at each await. */
  predicate Coherent(s: System, d: Delivery) {
    && d.job < |s.jobs|
    && (d.published ==> d.marked)
    && (d.marked ==> d.sent == d.foundUser)
    && (d.sent ==> d.foundUser)
    && (d.pc.AtUpsert? ==> !d.foundUser)
    && (d.pc.AtFindUser? ==> !d.foundUser)
    && (d.pc.AtSend? ==> d.foundUser && !d.sent)
    && (d.pc.AtMark? ==> d.sent == d.foundUser)
    && (d.pc.AtPublish? ==> d.marked && !d.published && IsMarkedRow(s, d.pc.row, d.pc.notification))
    && (d.pc.AtUpsert? || d.pc.AtFindUser? || d.pc.AtSend? || d.pc.AtMark? ==> !d.marked)
    && (d.pc.AtFindUser? || d.pc.AtSend? || d.pc.AtMark? || d.pc.AtPublish? ==>
          d.pc.row < |s.rows| && s.rows[d.pc.row].sourceJobId == d.job)
    && (d.marked ==> exists r | 0 <= r < |s.rows| :: s.rows[r].sourceJobId == d.job && s.rows[r].processed)
  }

  predicate EmailOk(s: System, e: Email) {
    e.job < |s.jobs| && e.subject == s.jobs[e.job].title && e.body == s.jobs[e.job].message
  }

  predicate PublishedOk(s: System, p: Published) {
    IsMarkedRow(s, p.row, p.notification) && p.userId == p.notification.data.userId
  }

  /** Rows are unique per job id, and rows and emails carry exactly the job's own data. */
  ghost predicate TablesOk(s: System) {
    && (forall i, k | 0 <= i < k < |s.rows| :: s.rows[i].sourceJobId != s.rows[k].sourceJobId)
    && (forall i | 0 <= i < |s.rows| ::
          s.rows[i].sourceJobId < |s.jobs| && s.rows[i].data == s.jobs[s.rows[i].sourceJobId])
    && (forall i | 0 <= i < |s.emails| :: EmailOk(s, s.emails[i]))
    && (forall i | 0 <= i < |s.published| :: PublishedOk(s, s.published[i]))
  }

  ghost predicate CountsOk(s: System, job: nat) {
    && SentCount(s, job) == Count(SentBy(job), s.deliveries)
    && Count(PublishedFor(job), s.published) == Count(PublishedBy(job), s.deliveries)
    && (forall r | 0 <= r < |s.rows| && s.rows[r].sourceJobId == job && s.rows[r].processed ::
          Count(MarkedBy(job), s.deliveries) > 0)
  }

  ghost predicate Inv(s: System) {
    && TablesOk(s)
    && (forall i | 0 <= i < |s.deliveries| :: Coherent(s, s.deliveries[i]))
    && (forall job :: CountsOk(s, job))
  }

  function Bit(b: bool): int { if b then 1 else 0 }

  /** Rows are only added or have their flags raised. */
  ghost predicate RowsExtend(s: System, t: System) {
    && s.jobs == t.jobs && |s.rows| <= |t.rows|
    && forall i | 0 <= i < |s.rows| ::
         && t.rows[i].sourceJobId == s.rows[i].sourceJobId && t.rows[i].data == s.rows[i].data
         && (s.rows[i].processed ==> t.rows[i].processed) && (s.rows[i].isRead ==> t.rows[i].isRead)
  }

  lemma NextRows(s: System, event: Event)
    ensures RowsExtend(s, Next(s, event))
  {
  }

  lemma CoherentExtends(s: System, t: System, d: Delivery)
    requires RowsExtend(s, t) && Coherent(s, d)
    ensures Coherent(t, d)
  {
    if d.marked {
      var r :| 0 <= r < |s.rows| && s.rows[r].sourceJobId == d.job && s.rows[r].processed;
      assert t.rows[r].sourceJobId == d.job && t.rows[r].processed;
    }
  }

  lemma NextKeepsRows(s: System, event: Event)
    requires TablesOk(s)
    ensures var t := Next(s, event);
            && (forall i, k | 0 <= i < k < |t.rows| :: t.rows[i].sourceJobId != t.rows[k].sourceJobId)
            && (forall i | 0 <= i < |t.rows| ::
                  t.rows[i].sourceJobId < |t.jobs| && t.rows[i].data == t.jobs[t.rows[i].sourceJobId])
  {
    NextRows(s, event);
    if |Next(s, event).rows| > |s.rows| {
      assert event.Upsert? && FindRow(s.rows, s.deliveries[event.d].job).None?;
    }
  }

  lemma NextKeepsMessages(s: System, event: Event)
    requires TablesOk(s)
    requires forall i | 0 <= i < |s.deliveries| :: Coherent(s, s.deliveries[i])
    ensures var t := Next(s, event);
            && (forall i | 0 <= i < |t.emails| :: EmailOk(t, t.emails[i]))
            && (forall i | 0 <= i < |t.published| :: PublishedOk(t, t.published[i]))
  {
    var t := Next(s, event);
    NextRows(s, event);
    forall i | 0 <= i < |t.published| ensures PublishedOk(t, t.published[i]) {
      if i < |s.published| { assert PublishedOk(s, s.published[i]); }
      else { assert Coherent(s, s.deliveries[event.d]); }
    }
    forall i | 0 <= i < |t.emails| ensures EmailOk(t, t.emails[i]) {
      if i < |s.emails| { assert EmailOk(s, s.emails[i]); }
    }
  }

  lemma NextKeepsTables(s: System, event: Event)
    requires Inv(s)
    ensures TablesOk(Next(s, event))
  {
    NextKeepsRows(s, event);
    NextKeepsMessages(s, event);
  }

  /** The delivery an event advances, if it is enabled. */
  function Actor(event: Event): Option<nat> {
    match event
    case Start(_) => None
    case MarkRead(_, _) => None
    case Upsert(d) => Some(d)
    case FindUser(d, _) => Some(d)
    case Send(d) => Some(d)
    case Mark(d) => Some(d)
    case Publish(d, _) => Some(d)
    case Crash(d) => Some(d)
  }

  lemma NextShape(s: System, event: Event)
    ensures var t := Next(s, event);
            || t.deliveries == s.deliveries
            || (event.Start? && event.jobId.Some? && event.jobId.value < |s.jobs|
                && t.deliveries == s.deliveries + [Delivery(event.jobId.value, AtUpsert, false, false, false, false)])
            || (Actor(event).Some? && Actor(event).value < |s.deliveries| && |t.deliveries| == |s.deliveries|
                && var d := Actor(event).value;
                   t.deliveries == s.deliveries[d := t.deliveries[d]] && t.deliveries[d].job == s.deliveries[d].job)
  {
  }

  lemma MarkMakesProcessed(s: System, d: nat)
    requires Inv(s) && d < |s.deliveries|
    ensures Coherent(Next(s, Mark(d)), Next(s, Mark(d)).deliveries[d])
  {
    assert Coherent(s, s.deliveries[d]);
    var t := Next(s, Mark(d));
    if t != s {
      var row := s.deliveries[d].pc.row;
      assert t.rows[row].sourceJobId == s.deliveries[d].job && t.rows[row].processed;
    }
  }

  lemma ActorStaysCoherent(s: System, event: Event, d: nat)
    requires Inv(s) && Actor(event) == Some(d) && d < |s.deliveries|
    ensures Coherent(Next(s, event), Next(s, event).deliveries[d])
  {
    var t := Next(s, event);
    var me := s.deliveries[d];
    assert Coherent(s, me);
    NextRows(s, event);
    CoherentExtends(s, t, me);
    if event.Mark? { MarkMakesProcessed(s, d); }
  }

  lemma NextKeepsCoherent(s: System, event: Event)
    requires Inv(s)
    ensures var t := Next(s, event); forall i | 0 <= i < |t.deliveries| :: Coherent(t, t.deliveries[i])
  {
    var t := Next(s, event);
    NextRows(s, event);
    NextShape(s, event);
    forall i | 0 <= i < |t.deliveries| ensures Coherent(t, t.deliveries[i]) {
      if Actor(event) == Some(i) {
        ActorStaysCoherent(s, event, i);
      } else if i < |s.deliveries| {
        CoherentExtends(s, t, s.deliveries[i]);
      }
    }
  }

  /** An email is added exactly when a delivery's record says so. */
  lemma ActorEmails(s: System, event: Event, d: nat, job: nat)
    requires Actor(event) == Some(d) && d < |s.deliveries| && Coherent(s, s.deliveries[d])
    ensures var t := Next(s, event);
            SentCount(t, job) - SentCount(s, job)
              == Bit(SentBy(job)(t.deliveries[d])) - Bit(SentBy(job)(s.deliveries[d]))
  {
    var t := Next(s, event);
    if t.emails != s.emails { CountAppend(EmailFor(job), s.emails, t.emails[|s.emails|]); }
  }

  /** And so is an event. */
  lemma ActorPublishes(s: System, event: Event, d: nat, job: nat)
    requires Actor(event) == Some(d) && d < |s.deliveries| && Coherent(s, s.deliveries[d])
    ensures var t := Next(s, event);
            Count(PublishedFor(job), t.published) - Count(PublishedFor(job), s.published)
            == Bit(PublishedBy(job)(t.deliveries[d])) - Bit(PublishedBy(job)(s.deliveries[d]))
  {
    var t := Next(s, event);
    if t.published != s.published { CountAppend(PublishedFor(job), s.published, t.published[|s.published|]); }
  }

  lemma ActorKeepsMarks(s: System, event: Event, d: nat, job: nat)
    requires Inv(s) && Actor(event) == Some(d) && d < |s.deliveries|
    requires Next(s, event).deliveries == s.deliveries[d := Next(s, event).deliveries[d]]
    ensures var t := Next(s, event);
            forall r | 0 <= r < |t.rows| && t.rows[r].sourceJobId == job && t.rows[r].processed ::
              Count(MarkedBy(job), t.deliveries) > 0
  {
    var t := Next(s, event);
    assert CountsOk(s, job) && Coherent(s, s.deliveries[d]);
    if t.rows != s.rows && event.Mark? && s.deliveries[d].job == job {
      CountPositive(MarkedBy(job), t.deliveries, d);
    } else {
      CountUpdate(MarkedBy(job), s.deliveries, d, t.deliveries[d]);
    }
  }

  lemma StartKeepsCounts(s: System, jobId: nat, job: nat)
    requires jobId < |s.jobs| && CountsOk(s, job)
    ensures CountsOk(StartDelivery(s, Some(jobId)), job)
  {
    var me := Delivery(jobId, AtUpsert, false, false, false, false);
    CountAppend(SentBy(job), s.deliveries, me);
    CountAppend(MarkedBy(job), s.deliveries, me);
    CountAppend(PublishedBy(job), s.deliveries, me);
  }

  lemma ActorKeepsCounts(s: System, event: Event, d: nat, job: nat)
    requires Inv(s) && Actor(event) == Some(d) && d < |s.deliveries|
    ensures CountsOk(Next(s, event), job)
  {
    var t := Next(s, event);
    NextShape(s, event);
    assert t.deliveries == s.deliveries[d := t.deliveries[d]];
    ActorKeepsMarks(s, event, d, job);
    assert Coherent(s, s.deliveries[d]);
    ActorEmails(s, event, d, job);
    ActorPublishes(s, event, d, job);
    assert CountsOk(s, job);
    CountUpdate(SentBy(job), s.deliveries, d, t.deliveries[d]);
    CountUpdate(PublishedBy(job), s.deliveries, d, t.deliveries[d]);
  }

  lemma NextKeepsCounts(s: System, event: Event, job: nat)
    requires Inv(s)
    ensures CountsOk(Next(s, event), job)
  {
    assert CountsOk(s, job);
    if event.Start? && event.jobId.Some? && event.jobId.value < |s.jobs| {
      StartKeepsCounts(s, event.jobId.value, job);
    } else if Actor(event).Some? && Actor(event).value < |s.deliveries| {
      ActorKeepsCounts(s, event, Actor(event).value, job);
    }
  }

  lemma NextKeepsInv(s: System, event: Event)
    requires Inv(s)
    ensures Inv(Next(s, event)) && Next(s, event).jobs == s.jobs
  {
    NextRows(s, event);
    NextKeepsTables(s, event);
    NextKeepsCoherent(s, event);
    forall job ensures CountsOk(Next(s, event), job) { NextKeepsCounts(s, event, job); }
  }

  lemma {:induction false} RunKeepsInv(s: System, events: seq<Event>)
    requires Inv(s)
    ensures Inv(Run(s, events)) && Run(s, events).jobs == s.jobs
  {
    if |events| > 0 {
      RunKeepsInv(s, events[..|events| - 1]);
      NextKeepsInv(Run(s, events[..|events| - 1]), events[|events| - 1]);
    }
  }

  lemma InitialInv(jobs: seq<JobData>)
    ensures Inv(Initial(jobs))
  {
  }

  lemma {:induction false} SentSplits(s: System, job: nat, ds: seq<Delivery>)
    requires forall i | 0 <= i < |ds| :: Coherent(s, ds[i])
    ensures Count(SentBy(job), ds) == Count(MarkedWithUser(job), ds) + Count(SentUnmarked(job), ds)
  {
    if |ds| > 0 {
      SentSplits(s, job, ds[..|ds| - 1]);
      assert Coherent(s, ds[|ds| - 1]);
    }
  }

  /** In every interleaving with crashes: one row per job id, each row and email carrying the job's
      own data, and the emails of a job are those of deliveries that marked after finding the
      user plus those of deliveries that sent but did not commit the mark. */
  lemma EmailAccounting(jobs: seq<JobData>, events: seq<Event>, job: nat)
    ensures var s := Run(Initial(jobs), events);
            && TablesOk(s) && s.jobs == jobs
            && SentCount(s, job) == Count(MarkedWithUser(job), s.deliveries) + Count(SentUnmarked(job), s.deliveries)
            && Count(PublishedFor(job), s.published) <= Count(MarkedBy(job), s.deliveries)
  {
    InitialInv(jobs);
    RunKeepsInv(Initial(jobs), events);
    var s := Run(Initial(jobs), events);
    SentSplits(s, job, s.deliveries);
    assert CountsOk(s, job);
    forall i | 0 <= i < |s.deliveries| && PublishedBy(job)(s.deliveries[i]) ensures MarkedBy(job)(s.deliveries[i]) {
      assert Coherent(s, s.deliveries[i]);
    }
    CountMonotone(PublishedBy(job), MarkedBy(job), s.deliveries);
  }

  ghost predicate Processed(s: System, job: nat) {
    exists r | 0 <= r < |s.rows| :: s.rows[r].sourceJobId == job && s.rows[r].processed
  }

  lemma ProcessedStays(s: System, event: Event, job: nat)
    requires Inv(s) && Processed(s, job)
    ensures Processed(Next(s, event), job)
  {
    var r :| 0 <= r < |s.rows| && s.rows[r].sourceJobId == job && s.rows[r].processed;
    var t := Next(s, event);
    assert t.rows[r].sourceJobId == job && t.rows[r].processed;
  }

  lemma UpsertOfProcessedEnds(s: System, d: nat)
    requires Inv(s) && d < |s.deliveries| && s.deliveries[d].pc.AtUpsert? && Processed(s, s.deliveries[d].job)
    ensures Next(s, Upsert(d)).deliveries[d].pc.Ended?
  {
    assert Coherent(s, s.deliveries[d]);
  }

  lemma ActorSendsOnce(s: System, event: Event, job: nat, d: nat)
    requires Inv(s) && Processed(s, job) && Actor(event) == Some(d) && d < |s.deliveries|
    ensures var was, now := s.deliveries[d], Next(s, event).deliveries[d];
            Bit(SentBy(job)(now)) + Bit(MaySend(job)(now)) <= Bit(SentBy(job)(was)) + Bit(MaySend(job)(was))
  {
    assert Coherent(s, s.deliveries[d]);
    if event.Upsert? && s.deliveries[d].job == job && s.deliveries[d].pc.AtUpsert? { UpsertOfProcessedEnds(s, d); }
  }

  lemma NoNewSender(s: System, event: Event, job: nat)
    requires Inv(s) && Processed(s, job)
    ensures var t := Next(s, event);
            SentCount(t, job) + Count(MaySend(job), t.deliveries)
              <= SentCount(s, job) + Count(MaySend(job), s.deliveries)
  {
    var t := Next(s, event);
    NextShape(s, event);
    if t.deliveries != s.deliveries {
      match Actor(event)
      case None =>
        CountAppend(MaySend(job), s.deliveries, t.deliveries[|s.deliveries|]);
      case Some(d) =>
        assert Coherent(s, s.deliveries[d]);
        CountUpdate(MaySend(job), s.deliveries, d, t.deliveries[d]);
        ActorEmails(s, event, d, job);
        ActorSendsOnce(s, event, job, d);
    }
  }

  /** Once a job's row is processed, only deliveries already past the check can still send: every
      delivery that starts, or reaches the upsert, after the mark sends nothing. */
  lemma {:induction false} AfterMarkOnlyInFlightSend(s: System, events: seq<Event>, job: nat)
    requires Inv(s) && Processed(s, job)
    ensures Processed(Run(s, events), job)
    ensures SentCount(Run(s, events), job) + Count(MaySend(job), Run(s, events).deliveries)
         <= SentCount(s, job) + Count(MaySend(job), s.deliveries)
  {
    if |events| > 0 {
      var before := events[..|events| - 1];
      AfterMarkOnlyInFlightSend(s, before, job);
      RunKeepsInv(s, before);
      ProcessedStays(Run(s, before), events[|events| - 1], job);
      NoNewSender(Run(s, before), events[|events| - 1], job);
    }
  }

  // Deliveries of a job that do not overlap.

  predicate Idle(s: System, job: nat) {
    forall i | 0 <= i < |s.deliveries| :: s.deliveries[i].job == job ==> !Live(s.deliveries[i])
  }

  /** Along the run, a delivery of `job` starts only when no other is in progress. */
  predicate NonOverlapping(s: System, events: seq<Event>, job: nat) {
    |events| > 0 ==>
      && NonOverlapping(s, events[..|events| - 1], job)
      && (events[|events| - 1] == Start(Some(job)) ==> Idle(Run(s, events[..|events| - 1]), job))
  }

  predicate BeforeMark(d: Delivery) { d.pc.AtFindUser? || d.pc.AtSend? || d.pc.AtMark? }

  ghost predicate AtMostOneLive(s: System, job: nat) {
    forall i, k | 0 <= i < |s.deliveries| && 0 <= k < |s.deliveries| && i != k ::
      s.deliveries[i].job == job && s.deliveries[k].job == job && Live(s.deliveries[i]) ==> !Live(s.deliveries[k])
  }

  ghost predicate MarkedOnce(s: System, job: nat) {
    && Count(MarkedBy(job), s.deliveries) <= 1
    && (forall i | 0 <= i < |s.deliveries| ::
          s.deliveries[i].job == job && BeforeMark(s.deliveries[i]) ==> Count(MarkedBy(job), s.deliveries) == 0)
  }

  ghost predicate SerialInv(s: System, job: nat) {
    AtMostOneLive(s, job) && MarkedOnce(s, job)
  }

  lemma UnprocessedMeansUnmarked(s: System, job: nat)
    requires Inv(s) && !Processed(s, job)
    ensures Count(MarkedBy(job), s.deliveries) == 0
  {
    forall i | 0 <= i < |s.deliveries| ensures !MarkedBy(job)(s.deliveries[i]) {
      assert Coherent(s, s.deliveries[i]);
    }
    CountZero(MarkedBy(job), s.deliveries);
  }

  lemma ActorKeepsOneLive(s: System, event: Event, job: nat, d: nat)
    requires AtMostOneLive(s, job) && Actor(event) == Some(d) && d < |s.deliveries|
    ensures AtMostOneLive(Next(s, event), job)
    ensures Live(Next(s, event).deliveries[d]) ==> Live(s.deliveries[d])
  {
    NextShape(s, event);
  }

  lemma ActorMarks(s: System, event: Event, job: nat, d: nat)
    requires Actor(event) == Some(d) && d < |s.deliveries| && Coherent(s, s.deliveries[d])
    ensures var was, now := s.deliveries[d], Next(s, event).deliveries[d];
            && Next(s, event).deliveries == s.deliveries[d := now] && now.job == was.job
            && Count(MarkedBy(job), Next(s, event).deliveries) - Count(MarkedBy(job), s.deliveries)
               == Bit(was.job == job && now.marked && !was.marked)
            && (now.marked && !was.marked ==> BeforeMark(was))
            && (BeforeMark(now) ==> BeforeMark(was) || was.pc.AtUpsert?)
            && (BeforeMark(now) && was.pc.AtUpsert? ==> event == Upsert(d))
  {
    NextShape(s, event);
    CountUpdate(MarkedBy(job), s.deliveries, d, Next(s, event).deliveries[d]);
  }

  lemma ActorKeepsMarkedOnce(s: System, event: Event, job: nat, d: nat)
    requires Inv(s) && SerialInv(s, job) && Actor(event) == Some(d) && d < |s.deliveries|
    ensures MarkedOnce(Next(s, event), job)
  {
    var was, now := s.deliveries[d], Next(s, event).deliveries[d];
    assert Coherent(s, was);
    ActorMarks(s, event, job, d);
    if was.job == job && was.pc.AtUpsert? && BeforeMark(now) {
      if Processed(s, job) { UpsertOfProcessedEnds(s, d); }
      UnprocessedMeansUnmarked(s, job);
    }
  }

  lemma NextKeepsSerial(s: System, event: Event, job: nat)
    requires Inv(s) && SerialInv(s, job)
    requires event == Start(Some(job)) ==> Idle(s, job)
    ensures SerialInv(Next(s, event), job)
  {
    var t := Next(s, event);
    NextShape(s, event);
    if t.deliveries != s.deliveries {
      match Actor(event)
      case None => CountAppend(MarkedBy(job), s.deliveries, t.deliveries[|s.deliveries|]);
      case Some(d) =>
        ActorKeepsOneLive(s, event, job, d);
        ActorKeepsMarkedOnce(s, event, job, d);
    }
  }

  lemma {:induction false} RunKeepsSerial(s: System, events: seq<Event>, job: nat)
    requires Inv(s) && SerialInv(s, job) && NonOverlapping(s, events, job)
    ensures SerialInv(Run(s, events), job)
  {
    if |events| > 0 {
      var before := events[..|events| - 1];
      RunKeepsSerial(s, before, job);
      RunKeepsInv(s, before);
      NextKeepsSerial(Run(s, before), events[|events| - 1], job);
    }
  }

  /** When deliveries of a job do not overlap, the mark and the publish each happen at most once,
      and the emails sent are one for the marking delivery if it found the user, plus one for each
      delivery that sent but never committed the mark. */
  lemma NonOverlappingDeliveryCounts(jobs: seq<JobData>, events: seq<Event>, job: nat)
    requires NonOverlapping(Initial(jobs), events, job)
    ensures var s := Run(Initial(jobs), events);
            && Count(MarkedBy(job), s.deliveries) == (if Processed(s, job) then 1 else 0)
            && Count(PublishedFor(job), s.published) <= 1
            && SentCount(s, job) == Count(MarkedWithUser(job), s.deliveries) + Count(SentUnmarked(job), s.deliveries)
            && Count(MarkedWithUser(job), s.deliveries) <= 1
  {
    EmailAccounting(jobs, events, job);
    InitialInv(jobs);
    RunKeepsInv(Initial(jobs), events);
    RunKeepsSerial(Initial(jobs), events, job);
    var s := Run(Initial(jobs), events);
    CountMonotone(MarkedWithUser(job), MarkedBy(job), s.deliveries);
    assert CountsOk(s, job);
    if !Processed(s, job) { UnprocessedMeansUnmarked(s, job); }
  }

  // ---- When a job is emailed more than once.

  /** Event `m` sends an email for `job`. */
  predicate SendsAt(s: System, events: seq<Event>, m: nat, job: nat) {
    && m < |events| && events[m].Send?
    && var d, before := events[m].d, Run(s, events[..m]);
       d < |before.deliveries| && before.deliveries[d].pc.AtSend? && before.deliveries[d].job == job < |before.jobs|
  }

  /** Event `k` stops a delivery of `job` that has sent its email and is about to set the mark. */
  predicate StopsUnmarked(s: System, events: seq<Event>, k: nat, job: nat) {
    && k < |events| && events[k].Crash?
    && events[k].d < |Run(s, events[..k]).deliveries| && Run(s, events[..k]).deliveries[events[k].d].pc.AtMark?
    && exists i | 0 <= i < k :: SendsAt(s, events, i, job) && events[i].d == events[k].d
  }

  /** A delivery of `job` is stopped between its email and its mark, and some delivery sends after that. */
  predicate SendsAfterStop(s: System, events: seq<Event>, job: nat) {
    exists k, m | 0 <= k < m < |events| :: StopsUnmarked(s, events, k, job) && SendsAt(s, events, m, job)
  }

  lemma PrefixOfPrefix(events: seq<Event>, n: nat)
    requires n < |events|
    ensures events[..|events| - 1][..n] == events[..n]
  {
  }

  lemma SendsAtEarlier(s: System, events: seq<Event>, m: nat, job: nat)
    requires m < |events| - 1
    ensures SendsAt(s, events[..|events| - 1], m, job) <==> SendsAt(s, events, m, job)
  {
    PrefixOfPrefix(events, m);
  }

  lemma StopsEarlier(s: System, events: seq<Event>, k: nat, job: nat)
    requires |events| > 0 && StopsUnmarked(s, events[..|events| - 1], k, job)
    ensures StopsUnmarked(s, events, k, job)
  {
    var before := events[..|events| - 1];
    PrefixOfPrefix(events, k);
    var i :| 0 <= i < k && SendsAt(s, before, i, job) && before[i].d == before[k].d;
    SendsAtEarlier(s, events, i, job);
  }

  lemma EmailsGrow(s: System, event: Event, job: nat)
    ensures SentCount(Next(s, event), job) >= SentCount(s, job)
  {
    var t := Next(s, event);
    if t.emails != s.emails { CountAppend(EmailFor(job), s.emails, t.emails[|s.emails|]); }
  }

  lemma SendAddsOne(s: System, events: seq<Event>, job: nat)
    requires |events| > 0 && SendsAt(s, events, |events| - 1, job)
    ensures SentCount(Run(s, events), job) == SentCount(Run(s, events[..|events| - 1]), job) + 1
  {
    var before := Run(s, events[..|events| - 1]);
    var me := before.deliveries[events[|events| - 1].d];
    CountAppend(EmailFor(job), before.emails, EmailOf(before.jobs, me.job, me.pc.address));
  }

  lemma {:induction false} OneSendCounts(s: System, events: seq<Event>, i: nat, job: nat)
    requires SendsAt(s, events, i, job)
    ensures SentCount(Run(s, events), job) >= 1
  {
    if i == |events| - 1 {
      SendAddsOne(s, events, job);
    } else {
      SendsAtEarlier(s, events, i, job);
      OneSendCounts(s, events[..|events| - 1], i, job);
      EmailsGrow(Run(s, events[..|events| - 1]), events[|events| - 1], job);
    }
  }

  lemma {:induction false} TwoSendsCount(s: System, events: seq<Event>, i: nat, m: nat, job: nat)
    requires i < m && SendsAt(s, events, i, job) && SendsAt(s, events, m, job)
    ensures SentCount(Run(s, events), job) >= 2
  {
    SendsAtEarlier(s, events, i, job);
    if m == |events| - 1 {
      OneSendCounts(s, events[..|events| - 1], i, job);
      SendAddsOne(s, events, job);
    } else {
      SendsAtEarlier(s, events, m, job);
      TwoSendsCount(s, events[..|events| - 1], i, m, job);
      EmailsGrow(Run(s, events[..|events| - 1]), events[|events| - 1], job);
    }
  }

  /** A delivery whose record says it sent did so at some event. */
  lemma {:induction false} SentAtSomeEvent(jobs: seq<JobData>, events: seq<Event>, d: nat) returns (i: nat)
    requires d < |Run(Initial(jobs), events).deliveries| && Run(Initial(jobs), events).deliveries[d].sent
    ensures SendsAt(Initial(jobs), events, i, Run(Initial(jobs), events).deliveries[d].job) && events[i].d == d
  {
    var before, n := events[..|events| - 1], |events| - 1;
    var s := Run(Initial(jobs), before);
    NextShape(s, events[n]);
    if d < |s.deliveries| && s.deliveries[d].sent {
      i := SentAtSomeEvent(jobs, before, d);
      SendsAtEarlier(Initial(jobs), events, i, s.deliveries[d].job);
    } else {
      i := n;
    }
  }

  lemma StoppingStep(s: System, event: Event, d: nat)
    requires Inv(s) && d < |Next(s, event).deliveries|
    requires var now := Next(s, event).deliveries[d]; now.sent && !now.marked && now.pc.Ended?
    ensures d < |s.deliveries| && s.deliveries[d].job == Next(s, event).deliveries[d].job
    ensures s.deliveries[d].sent && !s.deliveries[d].marked
    ensures s.deliveries[d].pc.Ended? || (event == Crash(d) && s.deliveries[d].pc.AtMark?)
  {
    NextShape(s, event);
    assert d < |s.deliveries| ==> Coherent(s, s.deliveries[d]);
  }

  /** A delivery that sent, and ended without setting the mark, was stopped in between. */
  lemma {:induction false} StoppedInBetween(jobs: seq<JobData>, events: seq<Event>, d: nat) returns (k: nat)
    requires var s := Run(Initial(jobs), events);
             d < |s.deliveries| && s.deliveries[d].sent && !s.deliveries[d].marked && s.deliveries[d].pc.Ended?
    ensures StopsUnmarked(Initial(jobs), events, k, Run(Initial(jobs), events).deliveries[d].job)
  {
    var before := events[..|events| - 1];
    StoppedBefore(jobs, events, d);
    if Run(Initial(jobs), before).deliveries[d].pc.Ended? {
      k := StoppedInBetween(jobs, before, d);
      StopsEarlier(Initial(jobs), events, k, Run(Initial(jobs), before).deliveries[d].job);
    } else {
      k := |events| - 1;
      StoppedNow(jobs, events, d);
    }
  }

  lemma StoppedBefore(jobs: seq<JobData>, events: seq<Event>, d: nat)
    requires var s := Run(Initial(jobs), events);
             d < |s.deliveries| && s.deliveries[d].sent && !s.deliveries[d].marked && s.deliveries[d].pc.Ended?
    ensures |events| > 0
    ensures var s := Run(Initial(jobs), events[..|events| - 1]);
            && d < |s.deliveries| && s.deliveries[d].job == Run(Initial(jobs), events).deliveries[d].job
            && s.deliveries[d].sent && !s.deliveries[d].marked
            && (s.deliveries[d].pc.Ended? || (events[|events| - 1] == Crash(d) && s.deliveries[d].pc.AtMark?))
  {
    InitialInv(jobs);
    RunKeepsInv(Initial(jobs), events[..|events| - 1]);
    StoppingStep(Run(Initial(jobs), events[..|events| - 1]), events[|events| - 1], d);
  }

  lemma StoppedNow(jobs: seq<JobData>, events: seq<Event>, d: nat)
    requires |events| > 0 && events[|events| - 1] == Crash(d)
    requires var s := Run(Initial(jobs), events[..|events| - 1]);
             d < |s.deliveries| && s.deliveries[d].sent && !s.deliveries[d].marked && s.deliveries[d].pc.AtMark?
    ensures StopsUnmarked(Initial(jobs), events, |events| - 1,
                          Run(Initial(jobs), events[..|events| - 1]).deliveries[d].job)
  {
    var before := events[..|events| - 1];
    var i := SentAtSomeEvent(jobs, before, d);
    SendsAtEarlier(Initial(jobs), events, i, Run(Initial(jobs), before).deliveries[d].job);
  }

  lemma {:induction false} SomeoneSent(job: nat, ds: seq<Delivery>) returns (d: nat)
    requires Count(SentBy(job), ds) > 0
    ensures d < |ds| && SentBy(job)(ds[d])
  {
    var n := |ds| - 1;
    if SentBy(job)(ds[n]) { d := n; } else { d := SomeoneSent(job, ds[..n]); }
  }

  /** A further email of a job with serial deliveries follows one that was stopped unmarked. */
  lemma SecondSendFollowsStop(jobs: seq<JobData>, events: seq<Event>, job: nat) returns (k: nat)
    requires NonOverlapping(Initial(jobs), events, job) && SentCount(Run(Initial(jobs), events), job) > 0
    requires exists d | 0 <= d < |Run(Initial(jobs), events).deliveries| ::
               Run(Initial(jobs), events).deliveries[d].job == job
               && Run(Initial(jobs), events).deliveries[d].pc.AtSend?
    ensures StopsUnmarked(Initial(jobs), events, k, job)
  {
    var s := Run(Initial(jobs), events);
    InitialInv(jobs);
    RunKeepsInv(Initial(jobs), events);
    RunKeepsSerial(Initial(jobs), events, job);
    assert CountsOk(s, job);
    var sender :| 0 <= sender < |s.deliveries| && s.deliveries[sender].job == job && s.deliveries[sender].pc.AtSend?;
    var d := SomeoneSent(job, s.deliveries);
    assert Coherent(s, s.deliveries[sender]) && Coherent(s, s.deliveries[d]);
    if s.deliveries[d].marked { CountPositive(MarkedBy(job), s.deliveries, d); }
    k := StoppedInBetween(jobs, events, d);
  }

  lemma {:induction false} TwoEmailsFollowStop(jobs: seq<JobData>, events: seq<Event>, job: nat)
    requires NonOverlapping(Initial(jobs), events, job) && SentCount(Run(Initial(jobs), events), job) >= 2
    ensures SendsAfterStop(Initial(jobs), events, job)
  {
    if |events| > 0 {
      var before, n, s := events[..|events| - 1], |events| - 1, Run(Initial(jobs), events[..|events| - 1]);
      if SentCount(s, job) >= 2 {
        TwoEmailsFollowStop(jobs, before, job);
        var k, m :|
          0 <= k < m < n && StopsUnmarked(Initial(jobs), before, k, job) && SendsAt(Initial(jobs), before, m, job);
        StopsEarlier(Initial(jobs), events, k, job);
        SendsAtEarlier(Initial(jobs), events, m, job);
      } else {
        NewEmailIsSend(jobs, events, job);
        var k := SecondSendFollowsStop(jobs, before, job);
        StopsEarlier(Initial(jobs), events, k, job);
      }
    }
  }

  lemma NewEmail(s: System, event: Event, job: nat)
    requires SentCount(Next(s, event), job) > SentCount(s, job)
    ensures event.Send? && event.d < |s.deliveries| && s.deliveries[event.d].pc.AtSend?
    ensures s.deliveries[event.d].job == job < |s.jobs|
    ensures SentCount(Next(s, event), job) == SentCount(s, job) + 1
  {
    var t := Next(s, event);
    if t.emails != s.emails {
      assert event.Send?;
      CountAppend(EmailFor(job), s.emails, t.emails[|s.emails|]);
    }
  }

  lemma NewEmailIsSend(jobs: seq<JobData>, events: seq<Event>, job: nat)
    requires |events| > 0
    requires SentCount(Run(Initial(jobs), events), job) > SentCount(Run(Initial(jobs), events[..|events| - 1]), job)
    ensures SendsAt(Initial(jobs), events, |events| - 1, job)
    ensures SentCount(Run(Initial(jobs), events), job) == SentCount(Run(Initial(jobs), events[..|events| - 1]), job) + 1
  {
    NewEmail(Run(Initial(jobs), events[..|events| - 1]), events[|events| - 1], job);
  }

  /** When deliveries of a job do not overlap, its user is emailed more than once if and only if a
      delivery is stopped between its email and its mark and some later delivery sends. */
  lemma EmailedTwiceExactly(jobs: seq<JobData>, events: seq<Event>, job: nat)
    requires NonOverlapping(Initial(jobs), events, job)
    ensures SentCount(Run(Initial(jobs), events), job) >= 2 <==> SendsAfterStop(Initial(jobs), events, job)
  {
    if SendsAfterStop(Initial(jobs), events, job) {
      StopThenSendRepeats(Initial(jobs), events, job);
    } else if SentCount(Run(Initial(jobs), events), job) >= 2 {
      TwoEmailsFollowStop(jobs, events, job);
    }
  }

  /** That direction needs no restriction on overlap. */
  lemma StopThenSendRepeats(s: System, events: seq<Event>, job: nat)
    requires SendsAfterStop(s, events, job)
    ensures SentCount(Run(s, events), job) >= 2
  {
    var k, m :| 0 <= k < m < |events| && StopsUnmarked(s, events, k, job) && SendsAt(s, events, m, job);
    var i :| 0 <= i < k && SendsAt(s, events, i, job) && events[i].d == events[k].d;
    TwoSendsCount(s, events, i, m, job);
  }

  lemma RunSnoc(s: System, events: seq<Event>, event: Event)
    ensures Run(s, events + [event]) == Next(Run(s, events), event)
  {
    assert (events + [event])[..|events|] == events;
  }

  function Twice(data: JobData, rows: seq<Row>, first: Delivery, second: Delivery, emails: seq<Email>,
                 published: seq<Published>): System
  {
    System([data], rows, [first, second], emails, published)
  }

  /** Both deliveries take the same step, one after the other. */
  lemma BothStep(data: JobData, events: seq<Event>, e0: Event, e1: Event, before: System, middle: System, after: System)
    requires Run(Initial([data]), events) == before
    requires Next(before, e0) == middle && Next(middle, e1) == after
    ensures Run(Initial([data]), events + [e0, e1]) == after
  {
    RunSnoc(Initial([data]), events, e0);
    RunSnoc(Initial([data]), events + [e0], e1);
    assert events + [e0] + [e1] == events + [e0, e1];
  }

  /** What the first three awaits do, for both deliveries in turn. */
  lemma FirstSteps(data: JobData, address: string)
    ensures var row, email := [Row(0, data, false, false)], Email(0, address, data.title, data.message);
            var d0 := Delivery(0, AtUpsert, false, false, false, false);
            var d1 := Delivery(0, AtFindUser(0), false, false, false, false);
            var d2 := Delivery(0, AtSend(0, address), true, false, false, false);
            var d3 := Delivery(0, AtMark(0), true, true, false, false);
            && Next(Twice(data, [], d0, d0, [], []), Upsert(0)) == Twice(data, row, d1, d0, [], [])
            && Next(Twice(data, row, d1, d0, [], []), Upsert(1)) == Twice(data, row, d1, d1, [], [])
            && Next(Twice(data, row, d1, d1, [], []), FindUser(0, Some(address))) == Twice(data, row, d2, d1, [], [])
            && Next(Twice(data, row, d2, d1, [], []), FindUser(1, Some(address))) == Twice(data, row, d2, d2, [], [])
            && Next(Twice(data, row, d2, d2, [], []), Send(0)) == Twice(data, row, d3, d2, [email], [])
            && Next(Twice(data, row, d3, d2, [email], []), Send(1)) == Twice(data, row, d3, d3, [email, email], [])
  {
  }

  lemma TwoSends(data: JobData, address: string, events: seq<Event>)
    requires var d := Delivery(0, AtUpsert, false, false, false, false);
             Run(Initial([data]), events) == Twice(data, [], d, d, [], [])
    ensures var d := Delivery(0, AtMark(0), true, true, false, false);
            var email := Email(0, address, data.title, data.message);
            Run(Initial([data]),
                events + [Upsert(0), Upsert(1)] + [FindUser(0, Some(address)), FindUser(1, Some(address))]
                  + [Send(0), Send(1)])
            == Twice(data, [Row(0, data, false, false)], d, d, [email, email], [])
  {
    var row, email := [Row(0, data, false, false)], Email(0, address, data.title, data.message);
    var d0 := Delivery(0, AtUpsert, false, false, false, false);
    var d1 := Delivery(0, AtFindUser(0), false, false, false, false);
    var d2 := Delivery(0, AtSend(0, address), true, false, false, false);
    var d3 := Delivery(0, AtMark(0), true, true, false, false);
    FirstSteps(data, address);
    BothStep(data, events, Upsert(0), Upsert(1),
             Twice(data, [], d0, d0, [], []), Twice(data, row, d1, d0, [], []), Twice(data, row, d1, d1, [], []));
    var found := events + [Upsert(0), Upsert(1)];
    BothStep(data, found, FindUser(0, Some(address)), FindUser(1, Some(address)),
             Twice(data, row, d1, d1, [], []), Twice(data, row, d2, d1, [], []), Twice(data, row, d2, d2, [], []));
    BothStep(data, found + [FindUser(0, Some(address)), FindUser(1, Some(address))], Send(0), Send(1),
             Twice(data, row, d2, d2, [], []), Twice(data, row, d3, d2, [email], []),
             Twice(data, row, d3, d3, [email, email], []));
  }

  /** Without that restriction both counts can reach two: a redelivery that passes the check before
      the first delivery marks the row sends the email and marks the row again. */
  lemma OverlappingDeliveriesRepeat(data: JobData, address: string) returns (events: seq<Event>)
    ensures var s := Run(Initial([data]), events);
            SentCount(s, 0) == 2 && Count(MarkedBy(0), s.deliveries) == 2
  {
    var start, d := Initial([data]), Delivery(0, AtUpsert, false, false, false, false);
    BothStep(data, [], Start(Some(0)), Start(Some(0)), start, start.(deliveries := [d]), Twice(data, [], d, d, [], []));
    events := [] + [Start(Some(0)), Start(Some(0))];
    TwoSends(data, address, events);
    events := events + [Upsert(0), Upsert(1)] + [FindUser(0, Some(address)), FindUser(1, Some(address))]
      + [Send(0), Send(1)];
    var row, done := Row(0, data, false, false), Row(0, data, true, false);
    var email := Email(0, address, data.title, data.message);
    var d3 := Delivery(0, AtMark(0), true, true, false, false);
    var d4 := Delivery(0, AtPublish(0, done), true, true, true, false);
    BothStep(data, events, Mark(0), Mark(1), Twice(data, [row], d3, d3, [email, email], []),
             Twice(data, [done], d4, d3, [email, email], []), Twice(data, [done], d4, d4, [email, email], []));
    events := events + [Mark(0), Mark(1)];
    CountTwo(MarkedBy(0), d4);
    CountTwo(EmailFor(0), email);
  }

  lemma Then(data: JobData, events: seq<Event>, event: Event, before: System, after: System)
    requires Run(Initial([data]), events) == before && Next(before, event) == after
    requires NonOverlapping(Initial([data]), events, 0) && (event == Start(Some(0)) ==> Idle(before, 0))
    ensures Run(Initial([data]), events + [event]) == after && NonOverlapping(Initial([data]), events + [event], 0)
  {
    assert (events + [event])[..|events|] == events;
  }

  lemma SerialSteps(data: JobData, address: string, before: System, d: nat)
    requires before.jobs == [data] && d == |before.deliveries|
    requires before.rows == [Row(0, data, false, false)] || before.rows == []
    ensures var email := Email(0, address, data.title, data.message);
            var d0 := Delivery(0, AtUpsert, false, false, false, false);
            var d1 := Delivery(0, AtFindUser(0), false, false, false, false);
            var d2 := Delivery(0, AtSend(0, address), true, false, false, false);
            var d3 := Delivery(0, AtMark(0), true, true, false, false);
            var s0 := before.(deliveries := before.deliveries + [d0]);
            var s1 := before.(rows := [Row(0, data, false, false)], deliveries := before.deliveries + [d1]);
            var s2 := s1.(deliveries := before.deliveries + [d2]);
            var s3 := s1.(deliveries := before.deliveries + [d3], emails := before.emails + [email]);
            && Next(before, Start(Some(0))) == s0 && Next(s0, Upsert(d)) == s1
            && Next(s1, FindUser(d, Some(address))) == s2 && Next(s2, Send(d)) == s3
  {
  }

  /** One more delivery, up to its email. */
  lemma OneMoreDelivery(data: JobData, address: string, events: seq<Event>, d: nat) returns (more: seq<Event>)
    requires NonOverlapping(Initial([data]), events, 0)
    requires var s := Run(Initial([data]), events);
             && s.jobs == [data] && d == |s.deliveries| && Idle(s, 0)
             && (s.rows == [Row(0, data, false, false)] || s.rows == [])
    ensures var s := Run(Initial([data]), events);
            && NonOverlapping(Initial([data]), more, 0)
            && Run(Initial([data]), more) == s.(
                 rows := [Row(0, data, false, false)],
                 deliveries := s.deliveries + [Delivery(0, AtMark(0), true, true, false, false)],
                 emails := s.emails + [Email(0, address, data.title, data.message)])
  {
    var s := Run(Initial([data]), events);
    SerialSteps(data, address, s, d);
    var s0 := Next(s, Start(Some(0)));
    var s1 := Next(s0, Upsert(d));
    var s2 := Next(s1, FindUser(d, Some(address)));
    Then(data, events, Start(Some(0)), s, s0);
    more := events + [Start(Some(0))];
    Then(data, more, Upsert(d), s0, s1);
    more := more + [Upsert(d)];
    Then(data, more, FindUser(d, Some(address)), s1, s2);
    more := more + [FindUser(d, Some(address))];
    Then(data, more, Send(d), s2, Next(s2, Send(d)));
    more := more + [Send(d)];
  }

  /** Nor is overlap needed: a delivery that is stopped between its email and its mark is redelivered,
      and emails again. */
  lemma RedeliveryRepeatsEmail(data: JobData, address: string) returns (events: seq<Event>)
    ensures NonOverlapping(Initial([data]), events, 0)
    ensures SentCount(Run(Initial([data]), events), 0) == 2
  {
    events := OneMoreDelivery(data, address, [], 0);
    var s := Run(Initial([data]), events);
    var stopped := s.(deliveries := [Delivery(0, Ended, true, true, false, false)]);
    Then(data, events, Crash(0), s, stopped);
    events := OneMoreDelivery(data, address, events + [Crash(0)], 1);
    var email := Email(0, address, data.title, data.message);
    CountTwo(EmailFor(0), email);
    assert Run(Initial([data]), events).emails == [email, email];
  }

  lemma CountTwo<T>(p: T -> bool, x: T)
    requires p(x)
    ensures Count(p, [x, x]) == 2
  {
    CountAppend(p, [], x);
    CountAppend(p, [x], x);
    assert [] + [x] == [x] && [x] + [x] == [x, x];
  }

  /** Exactly one row carries the job's id. */
  predicate HasOnlyRow(s: System, job: nat) {
    exists r | 0 <= r < |s.rows| ::
      s.rows[r].sourceJobId == job && forall i | 0 <= i < |s.rows| && i != r :: s.rows[i].sourceJobId != job
  }

  lemma UpsertFinds(s: System, d: nat)
    requires Inv(s) && d < |s.deliveries| && s.deliveries[d].pc.AtUpsert?
    ensures var t, job := Next(s, Upsert(d)), s.deliveries[d].job;
            && Inv(t) && HasOnlyRow(t, job)
            && (t.deliveries[d].pc.Ended? <==> Processed(s, job))
            && (!t.deliveries[d].pc.Ended? ==> t.deliveries[d].pc.AtFindUser?)
  {
    NextKeepsInv(s, Upsert(d));
    assert Coherent(s, s.deliveries[d]);
    var t, job := Next(s, Upsert(d)), s.deliveries[d].job;
    if Processed(s, job) { UpsertOfProcessedEnds(s, d); }
    var r := FindRow(t.rows, job);
    assert t.rows[r.value].sourceJobId == job;
  }

  /** The worker over its tables: one method per await, each taking exactly the step above. */
  class Processor {
    const jobs: seq<JobData>
    var rows: seq<Row>
    var deliveries: seq<Delivery>
    var emails: seq<Email>
    var published: seq<Published>

    constructor (jobs: seq<JobData>)
      ensures State() == Initial(jobs)
    {
      this.jobs := jobs;
      rows, deliveries, emails, published := [], [], [], [];
    }

    function State(): System
      reads this
    {
      System(jobs, rows, deliveries, emails, published)
    }

    method Begin(jobId: Option<nat>) returns (d: nat)
      modifies this
      ensures State() == Next(old(State()), Start(jobId))
      ensures d == old(|deliveries|)
      ensures rows == old(rows) && emails == old(emails) && published == old(published)
    {
      d := |deliveries|;
      if jobId.Some? && jobId.value < |jobs| {
        deliveries := deliveries + [Delivery(jobId.value, AtUpsert, false, false, false, false)];
      }
    }

    method FindOrCreateBySourceJobId(d: nat)
      requires d < |deliveries| && deliveries[d].pc.AtUpsert? && deliveries[d].job < |jobs|
      modifies this
      ensures State() == Next(old(State()), Upsert(d))
      ensures old(Inv(State())) ==> Inv(State()) && HasOnlyRow(State(), deliveries[d].job) && old(rows) <= rows
      ensures var job := old(deliveries)[d].job;
              rows == if exists i | 0 <= i < |old(rows)| :: old(rows)[i].sourceJobId == job then old(rows)
                      else old(rows) + [Row(job, jobs[job], false, false)]
      ensures emails == old(emails) && published == old(published)
      ensures old(Inv(State())) ==>
                (deliveries[d].pc.Ended? <==> old(Processed(State(), deliveries[d].job)))
                && (!deliveries[d].pc.Ended? ==>
                      deliveries[d].pc.AtFindUser? && deliveries[d].pc.row < |rows|
                      && rows[deliveries[d].pc.row].sourceJobId == old(deliveries)[d].job)
    {
      if Inv(State()) { UpsertFinds(State(), d); }
      var me := deliveries[d];
      var found := FindRow(rows, me.job);
      if found.None? {
        rows := rows + [Row(me.job, jobs[me.job], false, false)];
        deliveries := deliveries[d := me.(pc := AtFindUser(|rows| - 1))];
      } else if rows[found.value].processed {
        deliveries := deliveries[d := me.(pc := Ended)];
      } else {
        deliveries := deliveries[d := me.(pc := AtFindUser(found.value))];
      }
    }

    method FindUserById(d: nat, address: Option<string>)
      requires d < |deliveries| && deliveries[d].pc.AtFindUser?
      modifies this
      ensures State() == Next(old(State()), FindUser(d, address))
    {
      var me := deliveries[d];
      if address.Some? {
        deliveries := deliveries[d := me.(pc := AtSend(me.pc.row, address.value), foundUser := true)];
      } else {
        deliveries := deliveries[d := me.(pc := AtMark(me.pc.row))];
      }
    }

    method SendMail(d: nat)
      requires d < |deliveries| && deliveries[d].pc.AtSend? && deliveries[d].job < |jobs|
      modifies this
      ensures State() == Next(old(State()), Send(d))
      ensures var me := old(deliveries)[d];
              emails == old(emails) + [Email(me.job, me.pc.address, jobs[me.job].title, jobs[me.job].message)]
    {
      var me := deliveries[d];
      emails := emails + [Email(me.job, me.pc.address, jobs[me.job].title, jobs[me.job].message)];
      deliveries := deliveries[d := me.(pc := AtMark(me.pc.row), sent := true)];
    }

    method SetProcessed(d: nat)
      requires d < |deliveries| && deliveries[d].pc.AtMark? && deliveries[d].pc.row < |rows|
      modifies this
      ensures State() == Next(old(State()), Mark(d))
      ensures old(Inv(State())) ==> Inv(State()) && Processed(State(), deliveries[d].job)
      ensures var r := old(deliveries)[d].pc.row; rows == old(rows)[r := old(rows)[r].(processed := true)]
      ensures emails == old(emails) && published == old(published)
    {
      if Inv(State()) {
        NextKeepsInv(State(), Mark(d));
        MarkMakesProcessed(State(), d);
      }
      var me := deliveries[d];
      rows := rows[me.pc.row := rows[me.pc.row].(processed := true)];
      deliveries := deliveries[d := me.(pc := AtPublish(me.pc.row, rows[me.pc.row]), marked := true)];
    }

    method PublishNotificationCreated(d: nat, delivered: bool)
      requires d < |deliveries| && deliveries[d].pc.AtPublish? && deliveries[d].job < |jobs|
      modifies this
      ensures State() == Next(old(State()), Publish(d, delivered))
      ensures var me := old(deliveries)[d];
              published == old(published)
                           + (if delivered then [Published(jobs[me.job].userId, me.pc.row, me.pc.notification)] else [])
    {
      var me := deliveries[d];
      if delivered {
        published := published + [Published(jobs[me.job].userId, me.pc.row, me.pc.notification)];
      }
      deliveries := deliveries[d := me.(pc := Ended, published := me.published || delivered)];
    }

    /** The user opens a notification: only the owner's request raises the flag, and nothing else moves. */
    method MarkNotificationAsRead(row: nat, userId: nat) returns (r: Result<Row, ReadError>)
      modifies this
      ensures State() == Next(old(State()), MarkRead(row, userId))
      ensures r == (if row >= |rows| then Err(NotificationNotFound)
                    else if rows[row].data.userId != userId then Err(NotYours)
                    else Ok(rows[row]))
      ensures r.Ok? ==> r.value == old(rows)[row].(isRead := true)
      ensures rows == if r.Ok? then old(rows)[row := r.value] else old(rows)
      ensures deliveries == old(deliveries) && emails == old(emails) && published == old(published)
    {
      if row >= |rows| {
        return Err(NotificationNotFound);
      }
      if rows[row].data.userId != userId {
        return Err(NotYours);
      }
      if !rows[row].isRead {
        rows := rows[row := rows[row].(isRead := true)];
      }
      return Ok(rows[row]);
    }

    /** The lookup and the email, undisturbed. */
    method Notify(d: nat, address: Option<string>)
      requires Inv(State()) && d < |deliveries| && deliveries[d].pc.AtFindUser?
      modifies this
      ensures Inv(State()) && d < |deliveries| && deliveries[d].pc.AtMark?
      ensures rows == old(rows) && published == old(published)
      ensures deliveries[d].job == old(deliveries)[d].job && deliveries[d].pc.row == old(deliveries)[d].pc.row
      ensures deliveries[d].job < |jobs|
      ensures var job := deliveries[d].job;
              emails == old(emails) + (if address.None? then []
                                       else [Email(job, address.value, jobs[job].title, jobs[job].message)])
    {
      assert Coherent(State(), deliveries[d]);
      NextKeepsInv(State(), FindUser(d, address));
      FindUserById(d, address);
      if address.Some? {
        NextKeepsInv(State(), Send(d));
        SendMail(d);
      }
    }

    /** The mark and the event, undisturbed. */
    method Conclude(d: nat, delivered: bool)
      requires Inv(State()) && d < |deliveries| && deliveries[d].pc.AtMark?
      modifies this
      ensures Inv(State()) && emails == old(emails) && Processed(State(), old(deliveries)[d].job)
      ensures old(deliveries)[d].job < |jobs| && old(deliveries)[d].pc.row < |old(rows)|
      ensures var r, job := old(deliveries)[d].pc.row, old(deliveries)[d].job;
              && rows == old(rows)[r := old(rows)[r].(processed := true)]
              && published == old(published) + (if delivered then [Published(jobs[job].userId, r, rows[r])] else [])
    {
      assert Coherent(State(), deliveries[d]);
      NextKeepsInv(State(), Mark(d));
      MarkMakesProcessed(State(), d);
      SetProcessed(d);
      assert Coherent(State(), deliveries[d]);
      NextKeepsInv(State(), Publish(d, delivered));
      ProcessedStays(State(), Publish(d, delivered), deliveries[d].job);
      PublishNotificationCreated(d, delivered);
    }

    /** Everything after the upsert, undisturbed. */
    method NotifyAndConclude(d: nat, address: Option<string>, delivered: bool)
      requires Inv(State()) && d < |deliveries| && deliveries[d].pc.AtFindUser?
      modifies this
      ensures Inv(State()) && Processed(State(), old(deliveries)[d].job)
      ensures old(deliveries)[d].job < |jobs| && old(deliveries)[d].pc.row < |old(rows)|
      ensures var r, job := old(deliveries)[d].pc.row, old(deliveries)[d].job;
              && rows == old(rows)[r := old(rows)[r].(processed := true)]
              && emails == old(emails) + (if address.None? then []
                                          else [Email(job, address.value, jobs[job].title, jobs[job].message)])
              && published == old(published) + (if delivered then [Published(jobs[job].userId, r, rows[r])] else [])
    {
      Notify(d, address);
      Conclude(d, delivered);
    }

    /** The upsert of a new delivery, undisturbed: it ends there exactly if the row was processed. */
    method Claim(jobId: nat) returns (d: nat)
      requires Inv(State()) && jobId < |jobs|
      modifies this
      ensures Inv(State()) && d < |deliveries| && deliveries[d].job == jobId
      ensures emails == old(emails) && published == old(published)
      ensures rows == if exists i | 0 <= i < |old(rows)| :: old(rows)[i].sourceJobId == jobId then old(rows)
                      else old(rows) + [Row(jobId, jobs[jobId], false, false)]
      ensures deliveries[d].pc.Ended? <==> old(Processed(State(), jobId))
      ensures deliveries[d].pc.Ended? ==> Processed(State(), jobId)
      ensures !deliveries[d].pc.Ended? ==>
                deliveries[d].pc.AtFindUser? && deliveries[d].pc.row < |rows|
                && rows[deliveries[d].pc.row].sourceJobId == jobId
    {
      NextKeepsInv(State(), Start(Some(jobId)));
      d := Begin(Some(jobId));
      FindOrCreateBySourceJobId(d);
    }

    /** One undisturbed delivery. For a row that is processed it does nothing. Otherwise it creates the row
        if there is none, sends the one email when the user exists, marks the row, and publishes it. */
    method Process(jobId: nat, address: Option<string>, delivered: bool)
      requires Inv(State()) && jobId < |jobs|
      modifies this
      ensures Inv(State()) && Processed(State(), jobId)
      ensures old(Processed(State(), jobId)) ==>
                rows == old(rows) && emails == old(emails) && published == old(published)
      ensures !old(Processed(State(), jobId)) ==>
                && emails == old(emails) + (if address.None? then []
                                            else [Email(jobId, address.value, jobs[jobId].title, jobs[jobId].message)])
                && exists r | 0 <= r < |rows| ::
                     && rows[r].sourceJobId == jobId
                     && rows == (if r < |old(rows)| then old(rows)[r := old(rows)[r].(processed := true)]
                                 else old(rows) + [Row(jobId, jobs[jobId], true, false)])
                     && published == old(published) + (if delivered
                                                       then [Published(jobs[jobId].userId, r, rows[r])] else [])
    {
      var d := Claim(jobId);
      if !deliveries[d].pc.Ended? {
        var r := deliveries[d].pc.row;
        NotifyAndConclude(d, address, delivered);
        assert rows[r].sourceJobId == jobId;
      }
    }
  }
}
