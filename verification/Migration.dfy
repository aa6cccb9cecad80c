/** Moving a v1 install over: its queue, its session, and its journal, through any crashes. */
module Migration {
  import opened Domain

  /** A parsed v1 job; the audio of a recording chunk may sit in the journal. */
  datatype LegacyJob = LegacyJob(
    id: Id,
    sequence: int,
    kind: string,
    payload: string,
    inJournal: bool,
    createdAt: Time,
    attempts: int,
    nextAttemptAt: Time,
    lastError: Option<string>)

  datatype Legacy = Legacy(
    installationId: string,
    nextEventSequence: int,
    queue: seq<LegacyJob>,
    origin: Option<string>,
    sessionToken: Option<string>,
    refreshToken: Option<string>)

  datatype Session = Session(
    installationId: string,
    origin: string,
    sessionToken: Option<string>,
    refreshToken: Option<string>)

  type Journal = map<Id, string>
  type Queue = map<int, QueueRow>
  type NumberedRow = (int, QueueRow)

  /** A chunk job whose payload is gone has nothing left to send. */
  function ToQueueRow(job: LegacyJob, journal: Journal): Option<NumberedRow> {
    if job.kind == "recording.chunk" && job.inJournal && job.id !in journal then None
    else
      var payload := if job.kind == "recording.chunk" && job.inJournal then journal[job.id] else job.payload;
      Some((job.sequence,
            QueueRow(Event(job.id, job.kind, payload), job.createdAt, job.attempts, job.nextAttemptAt, job.lastError, None)))
  }

  function ToQueueRows(jobs: seq<LegacyJob>, journal: Journal): seq<NumberedRow> {
    if jobs == [] then []
    else
      var last := ToQueueRow(jobs[|jobs| - 1], journal);
      ToQueueRows(jobs[..|jobs| - 1], journal) + if last.Some? then [last.value] else []
  }

  // ----- the import -----

  function Put(queue: Queue, rows: seq<NumberedRow>): Queue {
    if rows == [] then queue
    else Put(queue, rows[..|rows| - 1])[rows[|rows| - 1].0 := rows[|rows| - 1].1]
  }

  function Max(a: int, b: int): int { if a < b then b else a }

  function NextAfter(start: int, rows: seq<NumberedRow>): int {
    if rows == [] then start else Max(NextAfter(start, rows[..|rows| - 1]), rows[|rows| - 1].0 + 1)
  }

  predicate Numbered(queue: Queue, next: int) { forall s :: s in queue ==> s < next }

  predicate Has(rows: seq<NumberedRow>, s: int) { exists i :: 0 <= i < |rows| && rows[i].0 == s }

  lemma {:induction false} PutHolds(queue: Queue, rows: seq<NumberedRow>, s: int)
    ensures s in Put(queue, rows) <==> s in queue || Has(rows, s)
    ensures !Has(rows, s) && s in queue ==> Put(queue, rows)[s] == queue[s]
    ensures Has(rows, s) ==> exists i :: 0 <= i < |rows| && rows[i] == (s, Put(queue, rows)[s])
  {
    if rows != [] {
      var init, last := rows[..|rows| - 1], rows[|rows| - 1];
      PutHolds(queue, init, s);
      if Has(init, s) {
        var i :| 0 <= i < |init| && init[i].0 == s;
        assert rows[i].0 == s;
      }
      if last.0 == s {
        assert rows[|rows| - 1] == (s, last.1);
      } else if Has(init, s) {
        var i :| 0 <= i < |init| && init[i] == (s, Put(queue, init)[s]);
        assert rows[i] == init[i];
      }
    }
  }

  lemma {:induction false} NextIsBeyond(start: int, rows: seq<NumberedRow>, s: int)
    ensures start <= NextAfter(start, rows)
    ensures Has(rows, s) ==> s < NextAfter(start, rows)
  {
    if rows != [] {
      NextIsBeyond(start, rows[..|rows| - 1], s);
      if Has(rows, s) && rows[|rows| - 1].0 != s {
        var i :| 0 <= i < |rows| && rows[i].0 == s;
        assert rows[..|rows| - 1][i].0 == s;
      }
    }
  }

  /** After the import every number in use is below the next one, so no later row takes its place. */
  lemma ImportKeepsNumbers(queue: Queue, next: int, start: int, rows: seq<NumberedRow>)
    requires Numbered(queue, next)
    ensures Numbered(Put(queue, rows), Max(NextAfter(start, rows), next))
  {
    forall s | s in Put(queue, rows) ensures s < Max(NextAfter(start, rows), next) {
      PutHolds(queue, rows, s);
      NextIsBeyond(start, rows, s);
    }
  }

  /** The import keeps what was queued, and brings every legacy row. */
  ghost predicate LosesNothing(queue: Queue, rows: seq<NumberedRow>) {
    var after := Put(queue, rows);
    && (forall s :: s in queue ==> s in after && after[s] == queue[s])
    && (forall i :: 0 <= i < |rows| ==> rows[i].0 in after && after[rows[i].0] == rows[i].1)
  }

  /**
   * It loses nothing exactly when no two rows, queued or legacy, share a number and differ.
   * On an empty queue that is when the legacy numbers are distinct, or repeat a row.
   */
  lemma LosesNothingExactlyWhen(queue: Queue, rows: seq<NumberedRow>)
    ensures LosesNothing(queue, rows)
            <==> && (forall i :: 0 <= i < |rows| && rows[i].0 in queue ==> rows[i].1 == queue[rows[i].0])
                 && (forall i, j :: 0 <= i < |rows| && 0 <= j < |rows| && rows[i].0 == rows[j].0 ==> rows[i].1 == rows[j].1)
  {
    hide Put;
    forall s ensures s in Put(queue, rows) <==> s in queue || Has(rows, s)
      ensures !Has(rows, s) && s in queue ==> Put(queue, rows)[s] == queue[s]
      ensures Has(rows, s) ==> exists i :: 0 <= i < |rows| && rows[i] == (s, Put(queue, rows)[s])
    {
      PutHolds(queue, rows, s);
    }
    forall i | 0 <= i < |rows| ensures Has(rows, rows[i].0) {}
  }

  // ----- the whole migration, with crashes and everything else the extension does -----

  /** Where the migration of this wake stands; a crash forgets it. */
  datatype Stage =
    | Idle
    | Importing(legacy: Legacy, rows: seq<NumberedRow>)
    | MovingSession(legacy: Legacy)
    | Removing
    | DeletingJournal

  /** `imports` is history. A v1 state that does not parse is stored as nothing. */
  datatype Install = Install(
    stored: Option<Option<Legacy>>,
    journal: Journal,
    queue: Queue,
    nextSequence: int,
    importedV1: bool,
    session: Option<Session>,
    stage: Stage,
    imports: nat)

  datatype Step =
    | Wake
    | Import
    | MoveSession
    | Remove
    | DeleteJournal
    | Crash
    | Queue(job: Job, now: Time)
    | Deliver(s: int)
    | SignIn(session: Session)
    | SignOut

  predicate IsMigration(step: Step) {
    step.Wake? || step.Import? || step.MoveSession? || step.Remove? || step.DeleteJournal?
  }

  /** The order of the stages is that of the code; other handlers that touch the session wait for it. */
  function Next(w: Install, step: Step): Install {
    match step
    case Wake =>
      if !w.stage.Idle? || w.stored.None? then w
      else if w.stored.value.None? then w.(stage := Removing)
      else w.(stage := Importing(w.stored.value.value, ToQueueRows(w.stored.value.value.queue, w.journal)))
    case Import =>
      if !w.stage.Importing? then w
      else if w.importedV1 then w.(stage := MovingSession(w.stage.legacy))
      else w.(
        stage := MovingSession(w.stage.legacy),
        queue := Put(w.queue, w.stage.rows),
        nextSequence := Max(NextAfter(w.stage.legacy.nextEventSequence, w.stage.rows), w.nextSequence),
        importedV1 := true,
        imports := w.imports + 1)
    case MoveSession =>
      if !w.stage.MovingSession? then w
      else if w.stage.legacy.origin.None? || w.session.Some? then w.(stage := Removing)
      else
        var legacy := w.stage.legacy;
        w.(stage := Removing,
           session := Some(Session(legacy.installationId, legacy.origin.value, legacy.sessionToken, legacy.refreshToken)))
    case Remove => if !w.stage.Removing? then w else w.(stage := DeletingJournal, stored := None)
    case DeleteJournal => if !w.stage.DeletingJournal? then w else w.(stage := Idle, journal := map[])
    case Crash => w.(stage := Idle)
    case Queue(job, now) =>
      w.(queue := w.queue[w.nextSequence := QueueRow(job, now, 0, now, None, None)], nextSequence := w.nextSequence + 1)
    case Deliver(s) => w.(queue := w.queue - {s})
    case SignIn(session) => if !w.stage.Idle? then w else w.(session := Some(session))
    case SignOut =>
      if !w.stage.Idle? || w.session.None? then w
      else w.(session := Some(w.session.value.(sessionToken := None, refreshToken := None)))
  }

  function Run(w: Install, steps: seq<Step>): Install
    decreases |steps|
  {
    if steps == [] then w else Run(Next(w, steps[0]), steps[1..])
  }

  /** An install as v1 left it, before the first wake. */
  predicate IsV1(w: Install) {
    && w.stage.Idle? && !w.importedV1 && w.imports == 0
    && w.queue == map[] && w.nextSequence == 1 && w.session.None?
  }

  ghost predicate Sound(start: Install, w: Install) {
    && w.imports == (if w.importedV1 then 1 else 0)
    && Numbered(w.queue, w.nextSequence)
    && (w.stored.Some? ==> w.stored == start.stored)
    && (w.stored.Some? || w.stage.DeletingJournal? ==> w.journal == start.journal)
    && (start.stored.Some? && start.stored.value.Some? ==>
          && (w.stage.Importing? ==>
                && w.stage.legacy == start.stored.value.value
                && w.stage.rows == ToQueueRows(start.stored.value.value.queue, start.journal))
          && (w.stored.None? || w.stage.MovingSession? || w.stage.Removing? || w.stage.DeletingJournal? ==> w.importedV1))
    && (w.stage.Importing? || w.stage.MovingSession? || w.stage.Removing? ==> w.stored.Some?)
    && (w.stage.Importing? || w.stage.MovingSession? ==> start.stored.Some? && start.stored.value.Some?)
    && (w.stage.DeletingJournal? ==> w.stored.None?)
  }

  lemma StepKeeps(start: Install, w: Install, step: Step)
    requires Sound(start, w)
    ensures Sound(start, Next(w, step))
  {
    hide Put, NextAfter, ToQueueRows;
    if step.Import? && w.stage.Importing? && !w.importedV1 {
      ImportKeepsNumbers(w.queue, w.nextSequence, w.stage.legacy.nextEventSequence, w.stage.rows);
    }
  }

  lemma {:induction false} RunKeeps(start: Install, w: Install, steps: seq<Step>)
    requires Sound(start, w)
    ensures Sound(start, Run(w, steps))
    decreases |steps|
  {
    hide Sound, Next;
    if steps != [] {
      StepKeeps(start, w, steps[0]);
      RunKeeps(start, Next(w, steps[0]), steps[1..]);
    }
  }

  /** However often it crashes and wakes, the queue is imported at most once, and the v1 data is removed only after it was. */
  lemma ImportedAtMostOnce(start: Install, steps: seq<Step>)
    requires IsV1(start)
    ensures
      var w := Run(start, steps);
      && w.imports <= 1
      && (w.imports == 1 <==> w.importedV1)
      && (start.stored.Some? && start.stored.value.Some? && w.stored.None? ==> w.imports == 1)
      && Numbered(w.queue, w.nextSequence)
  {
    hide Run;
    RunKeeps(start, start, steps);
  }

  /** The import brings the same rows at whichever wake it commits: those of the state and the journal v1 left. */
  lemma ImportBringsTheV1Rows(start: Install, steps: seq<Step>)
    requires IsV1(start) && start.stored.Some? && start.stored.value.Some?
    requires Next(Run(start, steps), Import).imports != Run(start, steps).imports
    ensures
      var w, legacy := Run(start, steps), start.stored.value.value;
      Next(w, Import).queue == Put(w.queue, ToQueueRows(legacy.queue, start.journal))
  {
    hide Run, Put;
    RunKeeps(start, start, steps);
  }

  /** Once imported, a row that left the queue does not come back: a delivered v1 job is not sent twice. */
  lemma {:induction false} DeliveredStaysDelivered(w: Install, steps: seq<Step>, s: int)
    requires w.importedV1 && s < w.nextSequence && s !in w.queue
    ensures s !in Run(w, steps).queue
    decreases |steps|
  {
    hide Put;
    if steps != [] { DeliveredStaysDelivered(Next(w, steps[0]), steps[1..], s); }
  }

  /** The migration gives an install without a session its v1 session, and never touches another. */
  lemma SessionIsNotOverwritten(w: Install, step: Step)
    requires IsMigration(step)
    ensures w.session.Some? ==> Next(w, step).session == w.session
    ensures Next(w, step).session != w.session ==>
      step.MoveSession? && w.stage.MovingSession? && Next(w, step).session.Some?
      && Some(Next(w, step).session.value.origin) == w.stage.legacy.origin
  {
  }

  /** A wake that is not cut off ends with the queue imported, a session if v1 had an origin, and no v1 data. */
  lemma OneWholeWakeMigrates(start: Install, steps: seq<Step>)
    requires IsV1(start) && start.stored.Some? && start.stored.value.Some?
    requires Run(start, steps).stage.Idle? && Run(start, steps).stored.Some?
    ensures
      var w := Run(Run(start, steps), [Wake, Import, MoveSession, Remove, DeleteJournal]);
      && w.importedV1 && w.stored.None? && w.journal == map[] && w.stage.Idle?
      && (start.stored.value.value.origin.Some? ==> w.session.Some?)
  {
    hide Run, Put, NextAfter, ToQueueRows;
    RunKeeps(start, start, steps);
    var before := Run(start, steps);
    var a := Next(before, Wake);
    var b := Next(a, Import);
    var c := Next(b, MoveSession);
    var d := Next(c, Remove);
    var e := Next(d, DeleteJournal);
    FiveSteps(before, Wake, Import, MoveSession, Remove, DeleteJournal);
  }

  /** The payload of a v1 job: for a chunk whose audio was moved away, what the journal has under its id. */
  function PayloadOf(job: LegacyJob, journal: Journal): Option<string> {
    if job.kind != "recording.chunk" || !job.inJournal then Some(job.payload)
    else if job.id in journal then Some(journal[job.id])
    else None
  }

  /** The row is the v1 job under its old number, as an event. */
  predicate IsRowOf(row: NumberedRow, job: LegacyJob, payload: string) {
    && row.0 == job.sequence && row.1.job == Event(job.id, job.kind, payload)
    && row.1.createdAt == job.createdAt && row.1.attempts == job.attempts && row.1.nextAttemptAt == job.nextAttemptAt
    && row.1.lastError == job.lastError && row.1.deadAt.None?
  }

  lemma LastRowIsTheJob(jobs: seq<LegacyJob>, journal: Journal)
    requires jobs != []
    ensures
      var n := |jobs| - 1;
      var before, rows, payload := ToQueueRows(jobs[..n], journal), ToQueueRows(jobs, journal), PayloadOf(jobs[n], journal);
      if payload.None? then rows == before
      else |rows| == |before| + 1 && rows[..|before|] == before && IsRowOf(rows[|before|], jobs[n], payload.value)
  {
  }

  /** The rows are those of the jobs that have a payload, in order. */
  lemma {:induction false} RowsAreTheJobs(jobs: seq<LegacyJob>, journal: Journal) returns (places: seq<nat>)
    ensures |places| == |ToQueueRows(jobs, journal)|
    ensures forall i, j :: 0 <= i < j < |places| ==> places[i] < places[j]
    ensures forall i: nat :: i in places <==> i < |jobs| && PayloadOf(jobs[i], journal).Some?
    ensures forall k :: 0 <= k < |places| ==>
      && places[k] in places && places[k] < |jobs|
      && IsRowOf(ToQueueRows(jobs, journal)[k], jobs[places[k]], PayloadOf(jobs[places[k]], journal).value)
  {
    if jobs == [] {
      places := [];
    } else {
      hide IsRowOf, PayloadOf, ToQueueRow, ToQueueRows;
      var n := |jobs| - 1;
      places := RowsAreTheJobs(jobs[..n], journal);
      LastRowIsTheJob(jobs, journal);
      if PayloadOf(jobs[n], journal).Some? { places := places + [n]; }
    }
  }

  /** With distinct numbers, each v1 job that has a payload is in the queue after the import, and nothing else is new. */
  lemma ImportedRowsAreTheJobs(queue: Queue, jobs: seq<LegacyJob>, journal: Journal)
    requires forall i, j :: 0 <= i < j < |jobs| ==> jobs[i].sequence != jobs[j].sequence
    ensures
      var after := Put(queue, ToQueueRows(jobs, journal));
      && (forall i :: 0 <= i < |jobs| && PayloadOf(jobs[i], journal).Some? ==>
            jobs[i].sequence in after
            && IsRowOf((jobs[i].sequence, after[jobs[i].sequence]), jobs[i], PayloadOf(jobs[i], journal).value))
      && (forall s :: s in after && s !in queue ==>
            exists i :: 0 <= i < |jobs| && PayloadOf(jobs[i], journal).Some? && jobs[i].sequence == s)
  {
    hide Put, ToQueueRows, IsRowOf, PayloadOf;
    var rows := ToQueueRows(jobs, journal);
    var places := RowsAreTheJobs(jobs, journal);
    forall k | 0 <= k < |rows| ensures rows[k].0 == jobs[places[k]].sequence {
      NumberOfRow(rows[k], jobs[places[k]], PayloadOf(jobs[places[k]], journal).value);
    }
    forall i | 0 <= i < |jobs| && PayloadOf(jobs[i], journal).Some?
      ensures jobs[i].sequence in Put(queue, rows)
      ensures IsRowOf((jobs[i].sequence, Put(queue, rows)[jobs[i].sequence]), jobs[i], PayloadOf(jobs[i], journal).value)
    {
      var s := jobs[i].sequence;
      assert i in places;
      var k :| 0 <= k < |places| && places[k] == i;
      assert Has(rows, s) by { assert rows[k].0 == s; }
      PutHolds(queue, rows, s);
      var j :| 0 <= j < |rows| && rows[j] == (s, Put(queue, rows)[s]);
      assert jobs[places[j]].sequence == s;
    }
    forall s | s in Put(queue, rows) && s !in queue
      ensures exists i :: 0 <= i < |jobs| && PayloadOf(jobs[i], journal).Some? && jobs[i].sequence == s
    {
      PutHolds(queue, rows, s);
      var j :| 0 <= j < |rows| && rows[j] == (s, Put(queue, rows)[s]);
      assert places[j] in places && jobs[places[j]].sequence == s;
    }
  }

  lemma NumberOfRow(row: NumberedRow, job: LegacyJob, payload: string)
    requires IsRowOf(row, job, payload)
    ensures row.0 == job.sequence
  {
  }

  /** An install without a session gets that of v1, if v1 knew where it was signed in. */
  lemma SessionIsTheV1Session(w: Install)
    requires w.stage.MovingSession? && w.session.None?
    ensures
      var legacy, after := w.stage.legacy, Next(w, MoveSession).session;
      if legacy.origin.None? then after.None?
      else after.Some? && after.value.installationId == legacy.installationId && after.value.origin == legacy.origin.value
           && after.value.sessionToken == legacy.sessionToken && after.value.refreshToken == legacy.refreshToken
  {
  }

  lemma {:induction false} NextIsLeast(start: int, rows: seq<NumberedRow>, bound: int)
    requires start <= bound && forall i :: 0 <= i < |rows| ==> rows[i].0 < bound
    ensures NextAfter(start, rows) <= bound
  {
    if rows != [] { NextIsLeast(start, rows[..|rows| - 1], bound); }
  }

  /** The import goes on from where v1 stood, or later if that is in use: the new next number is the least that will do. */
  lemma ImportGoesOnCounting(w: Install, bound: int)
    requires w.stage.Importing? && !w.importedV1
    ensures
      w.nextSequence <= bound && w.stage.legacy.nextEventSequence <= bound
      && (forall i :: 0 <= i < |w.stage.rows| ==> w.stage.rows[i].0 < bound)
      <==> Next(w, Import).nextSequence <= bound
  {
    hide Put;
    var start, rows := w.stage.legacy.nextEventSequence, w.stage.rows;
    forall i | 0 <= i < |rows| ensures rows[i].0 < NextAfter(start, rows) {
      assert Has(rows, rows[i].0);
      NextIsBeyond(start, rows, rows[i].0);
    }
    NextIsBeyond(start, rows, 0);
    if start <= bound && forall i :: 0 <= i < |rows| ==> rows[i].0 < bound { NextIsLeast(start, rows, bound); }
  }

  lemma FiveSteps(w: Install, a: Step, b: Step, c: Step, d: Step, e: Step)
    ensures Run(w, [a, b, c, d, e]) == Next(Next(Next(Next(Next(w, a), b), c), d), e)
  {
    hide Next;
    FirstStep(w, a, [b, c, d, e]);
    FirstStep(Next(w, a), b, [c, d, e]);
    FirstStep(Next(Next(w, a), b), c, [d, e]);
    FirstStep(Next(Next(Next(w, a), b), c), d, [e]);
    FirstStep(Next(Next(Next(Next(w, a), b), c), d), e, []);
  }

  lemma FirstStep(w: Install, step: Step, rest: seq<Step>)
    ensures Run(w, [step] + rest) == Run(Next(w, step), rest)
    ensures rest == [] ==> Run(w, [step]) == Next(w, step)
  {
    hide Next;
    assert ([step] + rest)[1..] == rest;
    assert [step] + [] == [step];
  }

  // ----- the migration as the code runs it -----

  class Stores {
    var stored: Option<Option<Legacy>>
    var journal: Journal
    var queue: Queue
    var nextSequence: int
    var importedV1: bool
    var session: Option<Session>

    ghost function View(stage: Stage, imports: nat): Install
      reads this
    {
      Install(stored, journal, queue, nextSequence, importedV1, session, stage, imports)
    }

    constructor (stored: Option<Option<Legacy>>, journal: Journal)
      ensures View(Idle, 0) == Install(stored, journal, map[], 1, false, None, Idle, 0)
    {
      this.stored, this.journal := stored, journal;
      queue, nextSequence, importedV1, session := map[], 1, false, None;
    }

    /** One transaction. */
    method ImportQueue(legacy: Legacy, rows: seq<NumberedRow>)
      modifies `queue, `nextSequence, `importedV1
      ensures forall n: nat ::
        View(MovingSession(legacy), if old(importedV1) then n else n + 1)
        == Next(old(View(Importing(legacy, rows), n)), Import)
    {
      if importedV1 { return; }
      var next := legacy.nextEventSequence;
      ghost var before := queue;
      for i := 0 to |rows|
        invariant queue == Put(before, rows[..i]) && next == NextAfter(legacy.nextEventSequence, rows[..i])
        invariant nextSequence == old(nextSequence) && importedV1 == old(importedV1)
      {
        assert rows[..i + 1][..i] == rows[..i];
        queue := queue[rows[i].0 := rows[i].1];
        next := Max(next, rows[i].0 + 1);
      }
      assert rows[..|rows|] == rows;
      nextSequence := Max(next, nextSequence);
      importedV1 := true;
    }

    method ImportSession(legacy: Legacy)
      modifies `session
      ensures forall n: nat :: View(Removing, n) == Next(old(View(MovingSession(legacy), n)), MoveSession)
    {
      if legacy.origin.None? || session.Some? { return; }
      session := Some(Session(legacy.installationId, legacy.origin.value, legacy.sessionToken, legacy.refreshToken));
    }

    /** A wake that nothing cuts off is the steps in order. */
    method MigrateV1(ghost n: nat) returns (ghost imports: nat)
      modifies this
      ensures View(Idle, imports)
              == if old(stored).None? then old(View(Idle, n))
                 else if old(stored).value.None? then Run(old(View(Idle, n)), [Wake, Remove, DeleteJournal])
                 else Run(old(View(Idle, n)), [Wake, Import, MoveSession, Remove, DeleteJournal])
    {
      hide Put, NextAfter;
      imports := n;
      if stored.None? { return; }
      if stored.value.Some? {
        var legacy := stored.value.value;
        var rows := ToQueueRows(legacy.queue, journal);
        imports := if importedV1 then n else n + 1;
        ghost var woken := View(Importing(legacy, rows), n);
        ImportQueue(legacy, rows);
        assert View(MovingSession(legacy), imports) == Next(woken, Import);
        ImportSession(legacy);
        assert View(Removing, imports) == Next(Next(woken, Import), MoveSession);
        FiveSteps(old(View(Idle, n)), Wake, Import, MoveSession, Remove, DeleteJournal);
      } else {
        ThreeSteps(old(View(Idle, n)), Wake, Remove, DeleteJournal);
      }
      stored := None;
      journal := map[];
    }
  }

  lemma ThreeSteps(w: Install, a: Step, b: Step, c: Step)
    ensures Run(w, [a, b, c]) == Next(Next(Next(w, a), b), c)
  {
    hide Next;
    FirstStep(w, a, [b, c]);
    FirstStep(Next(w, a), b, [c]);
    FirstStep(Next(Next(w, a), b), c, []);
  }
}
