/** Sharded ingest: one dispatcher, any number of workers, and the sequential ingest they refine. */
module Ingest {
  import opened Domain
  import RowHash

  type Record = string

  /** The columns of a normalized row that the worker looks at; the others are in `rest`. */
  datatype Row = Row(
    dni: Option<string>,
    companyRuc: Option<string>,
    companyName: string,
    roleName: string,
    repDocType: string,
    repDocNumber: string,
    hadRepDocInput: bool,
    hadPhoneInput: bool,
    phones: seq<string>,
    rest: string)

  /** Normalization and hashing of one record. */
  datatype Reader = Reader(normalize: Record -> Row, hash: Record -> string)

  datatype Task = Task(number: int, record: Record)

  datatype Staged = Staged(number: int, row: Row, hash: string)

  datatype Counters = Counters(total: int, accepted: int, invalidDoc: int, invalidRuc: int, invalidPhone: int)

  const ZERO := Counters(0, 0, 0, 0, 0)

  function Plus(a: Counters, b: Counters): Counters {
    Counters(a.total + b.total, a.accepted + b.accepted, a.invalidDoc + b.invalidDoc,
             a.invalidRuc + b.invalidRuc, a.invalidPhone + b.invalidPhone)
  }

  // ----- one record -----

  /** Nothing in the row identifies anyone. */
  predicate NamesNobody(row: Row) {
    row.dni.None? && row.companyRuc.None? && row.roleName == "" && row.repDocNumber == "" && row.phones == []
  }

  function One(b: bool): int { if b then 1 else 0 }

  function CountersOfRow(row: Row): Counters {
    Counters(
      1,
      One(!NamesNobody(row)),
      One(row.hadRepDocInput && row.repDocType == ""),
      One(NamesNobody(row) && row.companyName != ""),
      One(!NamesNobody(row) && row.hadPhoneInput && row.phones == []))
  }

  function StagedOf(reader: Reader, task: Task): seq<Staged> {
    var row := reader.normalize(task.record);
    if NamesNobody(row) then [] else [Staged(task.number, row, reader.hash(task.record))]
  }

  // ----- a list of tasks, in order -----

  function Accepted(reader: Reader, tasks: seq<Task>): seq<Staged> {
    if tasks == [] then []
    else Accepted(reader, tasks[..|tasks| - 1]) + StagedOf(reader, tasks[|tasks| - 1])
  }

  function Counted(reader: Reader, tasks: seq<Task>): Counters {
    if tasks == [] then ZERO
    else Plus(Counted(reader, tasks[..|tasks| - 1]), CountersOfRow(reader.normalize(tasks[|tasks| - 1].record)))
  }

  function Tasks(records: seq<Record>): seq<Task> {
    seq(|records|, i requires 0 <= i < |records| => Task(i + 1, records[i]))
  }

  /** Round robin. */
  function WorkerOf(index: nat, workers: nat): nat
    requires workers > 0
  {
    index % workers
  }

  /** The tasks that go to worker `w`. */
  function TasksFor(records: seq<Record>, workers: nat, w: nat): seq<Task>
    requires workers > 0
  {
    if records == [] then []
    else
      var last := |records| - 1;
      TasksFor(records[..last], workers, w) + if WorkerOf(last, workers) == w then [Task(last + 1, records[last])] else []
  }

  // ----- the worker -----

  class ShardWorker {
    var stored: seq<Staged>
    var open: seq<Staged>
    var counters: Counters

    constructor ()
      ensures stored == [] && open == [] && counters == ZERO
    {
      stored, open, counters := [], [], ZERO;
    }

    method Commit()
      modifies this
      ensures stored == old(stored) + old(open) && open == [] && counters == old(counters)
    {
      stored, open := stored + open, [];
    }

    /** Counts a record, and stages it if it names someone. */
    method StageOne(reader: Reader, task: Task) returns (staged: bool)
      modifies this
      ensures stored == old(stored) && open == old(open) + StagedOf(reader, task)
      ensures counters == Plus(old(counters), CountersOfRow(reader.normalize(task.record)))
      ensures staged <==> StagedOf(reader, task) != []
    {
      counters := counters.(total := counters.total + 1);
      var row := reader.normalize(task.record);
      if row.hadRepDocInput && |row.repDocType| == 0 {
        counters := counters.(invalidDoc := counters.invalidDoc + 1);
      }
      if row.dni.None? && row.companyRuc.None? && |row.roleName| == 0 && |row.repDocNumber| == 0 && |row.phones| == 0 {
        if row.companyRuc.None? && |row.companyName| > 0 {
          counters := counters.(invalidRuc := counters.invalidRuc + 1);
        }
        return false;
      }
      if row.hadPhoneInput && |row.phones| == 0 {
        counters := counters.(invalidPhone := counters.invalidPhone + 1);
      }
      counters := counters.(accepted := counters.accepted + 1);
      open := open + [Staged(task.number, row, reader.hash(task.record))];
      return true;
    }

    /** Commits in batches; when it ends nothing is left uncommitted. */
    method Run(reader: Reader, tasks: seq<Task>, batchSize: nat)
      requires stored == [] && open == [] && counters == ZERO
      modifies this
      ensures stored == Accepted(reader, tasks) && open == []
      ensures counters == Counted(reader, tasks)
    {
      hide StagedOf, CountersOfRow;
      var i, inBatch := 0, 0;
      while i < |tasks|
        invariant 0 <= i <= |tasks|
        invariant stored + open == Accepted(reader, tasks[..i])
        invariant counters == Counted(reader, tasks[..i])
      {
        assert tasks[..i + 1][..i] == tasks[..i];
        var staged := StageOne(reader, tasks[i]);
        i := i + 1;
        if staged {
          inBatch := inBatch + 1;
          if inBatch >= batchSize {
            Commit();
            inBatch := 0;
          }
        }
      }
      assert tasks[..i] == tasks;
      Commit();
    }
  }

  // ----- the whole ingest -----

  const MAX_WORKERS := 64

  function Clamped(workers: nat): nat {
    if workers < 1 then 1 else if workers > MAX_WORKERS then MAX_WORKERS else workers
  }

  datatype Session = Session(shards: seq<seq<Staged>>, counters: Counters, dispatched: int)

  datatype Outcome = Finished(session: Session) | TooManyRows

  /** Round robin over the workers' channels, up to the row cap. */
  method Dispatch(records: seq<Record>, workers: nat, maxRows: int) returns (queues: seq<seq<Task>>, total: int, ok: bool)
    requires workers > 0
    ensures ok <==> |records| <= maxRows || |records| == 0
    ensures |queues| == workers
    ensures ok ==> total == |records| && forall w :: 0 <= w < workers ==> queues[w] == TasksFor(records, workers, w)
  {
    queues, total, ok := seq(workers, _ => []), 0, true;
    for index := 0 to |records|
      invariant |queues| == workers && total == index && ok
      invariant index > 0 ==> index <= maxRows
      invariant forall w :: 0 <= w < workers ==> queues[w] == TasksFor(records[..index], workers, w)
    {
      var number := index + 1;
      if number > maxRows { return queues, total, false; }
      var w := WorkerOf(index, workers);
      assert records[..index + 1][..index] == records[..index];
      queues := queues[w := queues[w] + [Task(number, records[index])]];
      total := total + 1;
    }
    assert records[..|records|] == records;
  }

  function Totalled(reader: Reader, records: seq<Record>, workers: nat, k: nat): Counters
    requires workers > 0
  {
    if k == 0 then ZERO
    else Plus(Totalled(reader, records, workers, k - 1), Counted(reader, TasksFor(records, workers, k - 1)))
  }

  method IngestToShards(reader: Reader, records: seq<Record>, workers: nat, batchSize: nat, maxRows: int)
    returns (outcome: Outcome)
    ensures outcome.TooManyRows? <==> |records| > maxRows && |records| > 0
    ensures outcome.Finished? ==>
      var n, session := Clamped(workers), outcome.session;
      && |session.shards| == n
      && (forall w :: 0 <= w < n ==> session.shards[w] == Accepted(reader, TasksFor(records, n, w)))
      && session.counters == Totalled(reader, records, n, n)
      && session.dispatched == |records|
  {
    hide Accepted, Counted, TasksFor, Plus, WorkerOf;
    var n := Clamped(workers);
    var queues, dispatched, ok := Dispatch(records, n, maxRows);
    if !ok { return TooManyRows; }
    var counters, shards := ZERO, [];
    for w := 0 to n
      invariant |shards| == w
      invariant forall v :: 0 <= v < w ==> shards[v] == Accepted(reader, TasksFor(records, n, v))
      invariant counters == Totalled(reader, records, n, w)
    {
      var worker := new ShardWorker();
      worker.Run(reader, queues[w], batchSize);
      counters := Plus(counters, worker.counters);
      shards := shards + [worker.stored];
    }
    return Finished(Session(shards, counters, dispatched));
  }

  // ----- it is the sequential ingest -----

  function Gathered(reader: Reader, records: seq<Record>, workers: nat, k: nat): seq<Staged>
    requires workers > 0
  {
    if k == 0 then []
    else Gathered(reader, records, workers, k - 1) + Accepted(reader, TasksFor(records, workers, k - 1))
  }

  lemma OneMoreTask(reader: Reader, tasks: seq<Task>, task: Task)
    ensures Accepted(reader, tasks + [task]) == Accepted(reader, tasks) + StagedOf(reader, task)
    ensures Counted(reader, tasks + [task]) == Plus(Counted(reader, tasks), CountersOfRow(reader.normalize(task.record)))
  {
    hide StagedOf, CountersOfRow, Plus;
    assert (tasks + [task])[..|tasks|] == tasks;
  }

  /** The last record goes to one worker and to no other. */
  lemma LastRecordFor(reader: Reader, records: seq<Record>, workers: nat, w: nat)
    requires workers > 0 && records != []
    ensures
      var last := |records| - 1;
      var before, now := TasksFor(records[..last], workers, w), TasksFor(records, workers, w);
      var row := Task(last + 1, records[last]);
      && Accepted(reader, now)
         == Accepted(reader, before) + (if WorkerOf(last, workers) == w then StagedOf(reader, row) else [])
      && Counted(reader, now)
         == if WorkerOf(last, workers) == w then Plus(Counted(reader, before), CountersOfRow(reader.normalize(records[last])))
            else Counted(reader, before)
  {
    hide StagedOf, CountersOfRow, Plus, WorkerOf, Accepted, Counted;
    var last := |records| - 1;
    var tasks, task := TasksFor(records[..last], workers, w), Task(last + 1, records[last]);
    if WorkerOf(last, workers) == w {
      OneMoreTask(reader, tasks, task);
    } else {
      assert TasksFor(records, workers, w) == tasks;
      assert Accepted(reader, tasks) + [] == Accepted(reader, tasks);
    }
  }

  lemma {:induction false} LastRecordGathered(reader: Reader, records: seq<Record>, workers: nat, k: nat)
    requires workers > 0 && records != []
    ensures
      var last := |records| - 1;
      var before, now := Gathered(reader, records[..last], workers, k), Gathered(reader, records, workers, k);
      multiset(now) == multiset(before)
        + if WorkerOf(last, workers) < k then multiset(StagedOf(reader, Task(last + 1, records[last]))) else multiset{}
  {
    hide StagedOf, Accepted, TasksFor, WorkerOf;
    if k > 0 {
      LastRecordGathered(reader, records, workers, k - 1);
      LastRecordFor(reader, records, workers, k - 1);
    }
  }

  lemma PlusLaws(a: Counters, b: Counters, c: Counters)
    ensures Plus(Plus(a, c), b) == Plus(Plus(a, b), c) && Plus(a, Plus(b, c)) == Plus(Plus(a, b), c)
    ensures Plus(a, ZERO) == a
  {
  }

  lemma {:induction false} LastRecordTotalled(reader: Reader, records: seq<Record>, workers: nat, k: nat)
    requires workers > 0 && records != []
    ensures
      var last := |records| - 1;
      Totalled(reader, records, workers, k)
      == Plus(Totalled(reader, records[..last], workers, k),
              if WorkerOf(last, workers) < k then CountersOfRow(reader.normalize(records[last])) else ZERO)
  {
    hide CountersOfRow, Counted, TasksFor, WorkerOf, Plus;
    var last := |records| - 1;
    if k == 0 {
      PlusLaws(ZERO, ZERO, ZERO);
    } else {
      LastRecordTotalled(reader, records, workers, k - 1);
      LastRecordFor(reader, records, workers, k - 1);
      var sum := Totalled(reader, records[..last], workers, k - 1);
      var mine := Counted(reader, TasksFor(records[..last], workers, k - 1));
      PlusLaws(sum, mine, CountersOfRow(reader.normalize(records[last])));
      PlusLaws(sum, mine, ZERO);
    }
  }

  lemma {:induction false} NothingGathered(reader: Reader, workers: nat, k: nat)
    requires workers > 0
    ensures Gathered(reader, [], workers, k) == [] && Totalled(reader, [], workers, k) == ZERO
  {
    if k > 0 { NothingGathered(reader, workers, k - 1); }
  }

  /** For any number of workers the shards together hold the rows a sequential ingest accepts, and count the same. */
  lemma {:induction false} ShardsRefineSequential(reader: Reader, records: seq<Record>, workers: nat)
    requires workers > 0
    ensures multiset(Gathered(reader, records, workers, workers)) == multiset(Accepted(reader, Tasks(records)))
    ensures Totalled(reader, records, workers, workers) == Counted(reader, Tasks(records))
    decreases |records|
  {
    hide StagedOf, CountersOfRow;
    if records == [] {
      NothingGathered(reader, workers, workers);
    } else {
      var last := |records| - 1;
      ShardsRefineSequential(reader, records[..last], workers);
      LastRecordGathered(reader, records, workers, workers);
      LastRecordTotalled(reader, records, workers, workers);
      assert Tasks(records)[..last] == Tasks(records[..last]);
    }
  }

  lemma {:induction false} CountedTotal(reader: Reader, tasks: seq<Task>)
    ensures Counted(reader, tasks).total == |tasks| && Counted(reader, tasks).accepted == |Accepted(reader, tasks)|
  {
    if tasks != [] { CountedTotal(reader, tasks[..|tasks| - 1]); }
  }

  /** Every row is accepted or not, and what is invalid is among those it is counted for. */
  lemma {:induction false} CountersAreConsistent(reader: Reader, tasks: seq<Task>)
    ensures
      var c := Counted(reader, tasks);
      && 0 <= c.invalidPhone <= c.accepted <= c.total
      && 0 <= c.invalidRuc <= c.total - c.accepted
      && 0 <= c.invalidDoc <= c.total
  {
    if tasks != [] { CountersAreConsistent(reader, tasks[..|tasks| - 1]); }
  }

  // ----- what the counters count -----

  function RowOf(reader: Reader, tasks: seq<Task>, i: nat): Row
    requires i < |tasks|
  {
    reader.normalize(tasks[i].record)
  }

  /** The row names a person, a company, a role, a document or a phone. */
  predicate NamesSomeone(row: Row) {
    row.dni.Some? || row.companyRuc.Some? || row.roleName != "" || row.repDocNumber != "" || row.phones != []
  }

  predicate HasBadDoc(row: Row) { row.hadRepDocInput && row.repDocType == "" }

  /** A company without a valid ruc is all there is. */
  predicate HasBadRuc(row: Row) { !NamesSomeone(row) && row.companyName != "" }

  predicate HasBadPhone(row: Row) { NamesSomeone(row) && row.hadPhoneInput && row.phones == [] }

  /** The tasks, by place, whose row meets a condition. */
  function Where(reader: Reader, tasks: seq<Task>, meets: Row -> bool): set<nat> {
    set i: nat | 0 <= i < |tasks| && meets(RowOf(reader, tasks, i))
  }

  lemma WhereLast(reader: Reader, tasks: seq<Task>, meets: Row -> bool)
    requires tasks != []
    ensures
      var n := |tasks| - 1;
      |Where(reader, tasks, meets)| == |Where(reader, tasks[..n], meets)| + One(meets(RowOf(reader, tasks, n)))
  {
    var n := |tasks| - 1;
    forall i: nat | i < n ensures RowOf(reader, tasks[..n], i) == RowOf(reader, tasks, i) {
    }
    var before := Where(reader, tasks[..n], meets);
    assert Where(reader, tasks, meets) == if meets(RowOf(reader, tasks, n)) then before + {n} else before;
    assert n !in before;
  }

  /** Each counter is the number of tasks whose row meets its condition. */
  lemma {:induction false} CountersMean(reader: Reader, tasks: seq<Task>)
    ensures
      var c := Counted(reader, tasks);
      && c.total == |tasks|
      && c.accepted == |Where(reader, tasks, NamesSomeone)|
      && c.invalidDoc == |Where(reader, tasks, HasBadDoc)|
      && c.invalidRuc == |Where(reader, tasks, HasBadRuc)|
      && c.invalidPhone == |Where(reader, tasks, HasBadPhone)|
  {
    hide Where;
    if tasks == [] {
      NowhereInNone(reader);
    } else {
      var n := |tasks| - 1;
      CountersMean(reader, tasks[..n]);
      WhereLast(reader, tasks, NamesSomeone);
      WhereLast(reader, tasks, HasBadDoc);
      WhereLast(reader, tasks, HasBadRuc);
      WhereLast(reader, tasks, HasBadPhone);
    }
  }

  lemma NowhereInNone(reader: Reader)
    ensures forall meets: Row -> bool :: Where(reader, [], meets) == {}
  {
  }

  lemma LastAccepted(reader: Reader, tasks: seq<Task>)
    requires tasks != []
    ensures
      var n := |tasks| - 1;
      var row := RowOf(reader, tasks, n);
      Accepted(reader, tasks)
      == Accepted(reader, tasks[..n])
         + if NamesSomeone(row) then [Staged(tasks[n].number, row, reader.hash(tasks[n].record))] else []
  {
  }

  /** The places, in order, of the tasks whose row names someone. */
  ghost predicate NamingPlaces(reader: Reader, tasks: seq<Task>, places: seq<nat>) {
    && (forall i, j :: 0 <= i < j < |places| ==> places[i] < places[j])
    && (forall i: nat :: i in places <==> i < |tasks| && NamesSomeone(RowOf(reader, tasks, i)))
  }

  predicate StagedAs(reader: Reader, staged: Staged, task: Task) {
    staged == Staged(task.number, reader.normalize(task.record), reader.hash(task.record))
  }

  ghost predicate StagedFrom(reader: Reader, rows: seq<Staged>, tasks: seq<Task>, places: seq<nat>) {
    |rows| == |places| && forall k :: 0 <= k < |places| ==> places[k] < |tasks| && StagedAs(reader, rows[k], tasks[places[k]])
  }

  lemma OneMorePlace(reader: Reader, tasks: seq<Task>, places: seq<nat>)
    requires tasks != [] && NamingPlaces(reader, tasks[..|tasks| - 1], places)
    ensures
      var n := |tasks| - 1;
      NamingPlaces(reader, tasks, if NamesSomeone(RowOf(reader, tasks, n)) then places + [n] else places)
  {
    hide NamesSomeone;
    var n := |tasks| - 1;
    forall i: nat | i < n ensures RowOf(reader, tasks[..n], i) == RowOf(reader, tasks, i) {
    }
    forall k | 0 <= k < |places| ensures places[k] < n { assert places[k] in places; }
  }

  lemma OneMoreStaged(reader: Reader, rows: seq<Staged>, tasks: seq<Task>, places: seq<nat>)
    requires tasks != [] && StagedFrom(reader, rows, tasks[..|tasks| - 1], places)
    ensures
      var n := |tasks| - 1;
      var task := tasks[n];
      && StagedFrom(reader, rows, tasks, places)
      && StagedFrom(reader, rows + [Staged(task.number, RowOf(reader, tasks, n), reader.hash(task.record))], tasks, places + [n])
  {
  }

  /** Staged are, in order, exactly the tasks whose row names someone, each under its number with its record's hash. */
  lemma {:induction false} AcceptedMeans(reader: Reader, tasks: seq<Task>) returns (places: seq<nat>)
    ensures NamingPlaces(reader, tasks, places)
    ensures StagedFrom(reader, Accepted(reader, tasks), tasks, places)
  {
    if tasks == [] {
      places := [];
    } else {
      hide NamingPlaces, StagedFrom, Accepted, NamesSomeone;
      var n := |tasks| - 1;
      places := AcceptedMeans(reader, tasks[..n]);
      var rows := Accepted(reader, tasks[..n]);
      LastAccepted(reader, tasks);
      OneMorePlace(reader, tasks, places);
      OneMoreStaged(reader, rows, tasks, places);
      if NamesSomeone(RowOf(reader, tasks, n)) { places := places + [n]; } else { assert rows + [] == rows; }
    }
  }

  lemma NextDivided(n: nat, w: nat)
    requires w > 0
    ensures if n % w == w - 1 then (n + 1) / w == n / w + 1 && (n + 1) % w == 0
            else (n + 1) / w == n / w && (n + 1) % w == n % w + 1
  {
    var q, r := n / w, n % w;
    assert n == q * w + r;
    if r == w - 1 {
      assert n + 1 == (q + 1) * w;
      DividedAs(n + 1, w, q + 1, 0);
    } else {
      DividedAs(n + 1, w, q, r + 1);
    }
  }

  lemma DividedAs(n: nat, w: nat, q: nat, r: nat)
    requires n == q * w + r && r < w
    ensures n / w == q && n % w == r
  {
    var d := n / w - q;
    assert n == (n / w) * w + n % w;
    assert (n / w) * w == q * w + d * w;
    assert d * w == r - n % w;
    Multiples(d, w);
  }

  lemma Multiples(d: int, w: int)
    requires w > 0
    ensures d >= 1 ==> d * w >= w
    ensures d <= -1 ==> d * w <= -w
  {
  }

  /** Every worker gets its equal share of the records, and the first ones one more of the remainder. */
  lemma {:induction false} SharesAreEven(records: seq<Record>, workers: nat, w: nat)
    requires w < workers
    ensures |TasksFor(records, workers, w)| == |records| / workers + One(w < |records| % workers)
    decreases |records|
  {
    if records == [] {
      DividedAs(0, workers, 0, 0);
    } else {
      var last := |records| - 1;
      SharesAreEven(records[..last], workers, w);
      NextDivided(last, workers);
    }
  }

  /** What was asked for, but one worker at least and 64 at most. */
  lemma WorkersInRange(workers: nat)
    ensures 1 <= Clamped(workers) <= 64
    ensures 1 <= workers <= 64 ==> Clamped(workers) == workers
  {
  }

  /** The check on dispatched rows after the merge never fires. */
  lemma DispatchedIsTotal(reader: Reader, records: seq<Record>, workers: nat)
    requires workers > 0
    ensures Totalled(reader, records, workers, workers).total == |records|
  {
    ShardsRefineSequential(reader, records, workers);
    CountedTotal(reader, Tasks(records));
  }

  // ----- into the merge -----

  /** A shard as the merge reads it: row numbers and hashes. */
  function HashesOf(rows: seq<Staged>): RowHash.Shard {
    if rows == [] then map[]
    else HashesOf(rows[..|rows| - 1])[rows[|rows| - 1].number := rows[|rows| - 1].hash]
  }

  /** The records that make a staged row. */
  predicate Stages(reader: Reader, records: seq<Record>, number: int) {
    1 <= number <= |records| && !NamesNobody(reader.normalize(records[number - 1]))
  }

  function HashesFor(reader: Reader, records: seq<Record>, workers: nat, w: nat): RowHash.Shard
    requires workers > 0
  {
    HashesOf(Accepted(reader, TasksFor(records, workers, w)))
  }

  lemma OneMoreRecord(reader: Reader, records: seq<Record>, workers: nat, w: nat)
    requires workers > 0 && records != []
    ensures
      var last := |records| - 1;
      var before := HashesFor(reader, records[..last], workers, w);
      HashesFor(reader, records, workers, w)
      == if WorkerOf(last, workers) == w && !NamesNobody(reader.normalize(records[last]))
         then before[last + 1 := reader.hash(records[last])] else before
  {
    hide WorkerOf, NamesNobody, HashesOf, StagedOf, Accepted, TasksFor, Counted, CountersOfRow, Plus;
    var last := |records| - 1;
    var before := Accepted(reader, TasksFor(records[..last], workers, w));
    LastRecordFor(reader, records, workers, w);
    if WorkerOf(last, workers) == w {
      MoreHashes(reader, before, Task(last + 1, records[last]));
    } else {
      assert before + [] == before;
    }
  }

  /** A row is in the shard of the worker its number went to, and in no other. */
  lemma {:induction false} ShardHolds(reader: Reader, records: seq<Record>, workers: nat, w: nat, number: int)
    requires workers > 0
    ensures
      var shard := HashesFor(reader, records, workers, w);
      && (number in shard <==> Stages(reader, records, number) && WorkerOf(number - 1, workers) == w)
      && (number in shard ==> shard[number] == reader.hash(records[number - 1]))
    decreases |records|
  {
    hide WorkerOf, NamesNobody, HashesFor;
    if records == [] {
      NoHashes(reader, workers, w);
    } else {
      ShardHolds(reader, records[..|records| - 1], workers, w, number);
      OneMoreRecord(reader, records, workers, w);
    }
  }

  lemma NoHashes(reader: Reader, workers: nat, w: nat)
    requires workers > 0
    ensures HashesFor(reader, [], workers, w) == map[]
  {
  }

  lemma MoreHashes(reader: Reader, rows: seq<Staged>, task: Task)
    ensures HashesOf(rows + StagedOf(reader, task))
            == if NamesNobody(reader.normalize(task.record)) then HashesOf(rows)
               else HashesOf(rows)[task.number := reader.hash(task.record)]
  {
    hide NamesNobody;
    if NamesNobody(reader.normalize(task.record)) {
      assert rows + [] == rows;
    } else {
      assert (rows + StagedOf(reader, task))[..|rows|] == rows;
    }
  }

  function ShardsFor(reader: Reader, records: seq<Record>, workers: nat): seq<RowHash.Shard>
    requires workers > 0
  {
    seq(workers, w requires 0 <= w < workers => HashesFor(reader, records, workers, w))
  }

  lemma ShardsShareNothing(reader: Reader, records: seq<Record>, workers: nat)
    requires workers > 0
    ensures RowHash.Disjoint(ShardsFor(reader, records, workers))
  {
    hide HashesFor, WorkerOf;
    var shards := ShardsFor(reader, records, workers);
    forall i, j | 0 <= i < j < |shards| ensures shards[i].Keys !! shards[j].Keys {
      forall n ensures !(n in shards[i] && n in shards[j]) {
        ShardHolds(reader, records, workers, i, n);
        ShardHolds(reader, records, workers, j, n);
      }
    }
  }

  lemma WorkerInRange(index: nat, workers: nat)
    requires workers > 0
    ensures WorkerOf(index, workers) < workers
  {
  }

  lemma UnionOfShards(reader: Reader, records: seq<Record>, workers: nat, n: int)
    requires workers > 0
    ensures
      var union := RowHash.Union(ShardsFor(reader, records, workers));
      (n in union <==> Stages(reader, records, n)) && (n in union ==> union[n] == reader.hash(records[n - 1]))
  {
    hide HashesFor, WorkerOf;
    var shards := ShardsFor(reader, records, workers);
    ShardsShareNothing(reader, records, workers);
    RowHash.UnionHolds(shards, n);
    forall w | 0 <= w < workers
      ensures n in shards[w] <==> Stages(reader, records, n) && WorkerOf(n - 1, workers) == w
      ensures n in shards[w] ==> shards[w][n] == reader.hash(records[n - 1])
    {
      ShardHolds(reader, records, workers, w, n);
    }
    if Stages(reader, records, n) {
      WorkerInRange(n - 1, workers);
      assert n in shards[WorkerOf(n - 1, workers)];
    }
  }

  /** What the merge records does not depend on the number of workers. */
  lemma WorkerCountDoesNotMatter(
    reader: Reader, records: seq<Record>, a: nat, b: nat, latest: RowHash.Latest, source: int, snapshot: int)
    requires a > 0 && b > 0
    ensures RowHash.MergedAll(latest, source, ShardsFor(reader, records, a), snapshot)
            == RowHash.MergedAll(latest, source, ShardsFor(reader, records, b), snapshot)
  {
    hide ShardsFor, RowHash.MergedAll, RowHash.Union, Stages, RowHash.Disjoint;
    ShardsShareNothing(reader, records, a);
    ShardsShareNothing(reader, records, b);
    RowHash.ShardByShardIsAtOnce(latest, source, ShardsFor(reader, records, a), snapshot);
    RowHash.ShardByShardIsAtOnce(latest, source, ShardsFor(reader, records, b), snapshot);
    var x, y := RowHash.Union(ShardsFor(reader, records, a)), RowHash.Union(ShardsFor(reader, records, b));
    forall n: int ensures (n in x <==> n in y) && (n in x ==> x[n] == y[n]) {
      UnionOfShards(reader, records, a, n);
      UnionOfShards(reader, records, b, n);
    }
    assert x == y;
  }
}
