/**
 Concurrent calls of `OfflineMessage::insert`, statement by statement: the flush runs under
 `queueMutex_`, the insert of the current message does not.
 */
module OfflineStoreThreads {

  import opened ChatTypes
  import opened OfflineStore

  datatype Job =
    | NoJob
    | Trying(row: Row, nulls: nat)
    /** Inside the flush loop, under `queueMutex_`. */
    | Flushing(row: Row, nulls: nat)
    /** The front of the queue is in the table and about to be popped. */
    | Popping(row: Row, nulls: nat)
    | Storing(row: Row, nulls: nat)
    | GivingUp(row: Row)

  datatype State = State(
    table: seq<Row>,
    queue: seq<Row>,
    queueLock: Option<nat>,
    jobs: seq<Job>,
    given: seq<Row>
  )

  datatype Action =
    | Call(t: nat, row: Row)
    | GotNull(t: nat)
    | BorrowAndLock(t: nat)
    | Execute(t: nat)
    | Pop(t: nat)
    | EndFlush(t: nat)
    | Throw(t: nat)
    | Store(t: nat)
    | Enqueue(t: nat)

  predicate Enabled(s: State, a: Action) {
    a.t < |s.jobs| &&
    match a
    case Call(t, row) => s.jobs[t].NoJob?
    case GotNull(t) => s.jobs[t].Trying?
    case BorrowAndLock(t) => s.jobs[t].Trying? && s.queueLock.None?
    case Execute(t) => s.jobs[t].Flushing? && s.queue != []
    case Pop(t) => s.jobs[t].Popping? && s.queue != []
    case EndFlush(t) => s.jobs[t].Flushing? && s.queue == []
    case Throw(t) => s.jobs[t].Flushing? || s.jobs[t].Storing?
    case Store(t) => s.jobs[t].Storing?
    case Enqueue(t) => s.jobs[t].GivingUp? && s.queueLock.None?
  }

  function Next(s: State, a: Action): State
    requires Enabled(s, a)
  {
    var t := a.t;
    var job := s.jobs[t];
    match a
    case Call(_, row) => s.(jobs := s.jobs[t := Trying(row, 0)], given := s.given + [row])
    case GotNull(_) =>
      s.(jobs := s.jobs[t := if job.nulls + 1 < MAX_RETRIES then Trying(job.row, job.nulls + 1) else GivingUp(job.row)])
    case BorrowAndLock(_) => s.(jobs := s.jobs[t := Flushing(job.row, job.nulls)], queueLock := Some(t))
    case Execute(_) => s.(table := s.table + [s.queue[0]], jobs := s.jobs[t := Popping(job.row, job.nulls)])
    case Pop(_) => s.(queue := s.queue[1..], jobs := s.jobs[t := Flushing(job.row, job.nulls)])
    case EndFlush(_) => s.(jobs := s.jobs[t := Storing(job.row, job.nulls)], queueLock := None)
    case Throw(_) =>
      s.(jobs := s.jobs[t := Trying(job.row, job.nulls)],
         queueLock := if job.Flushing? then None else s.queueLock)
    case Store(_) => s.(table := s.table + [job.row], jobs := s.jobs[t := NoJob])
    case Enqueue(_) => s.(queue := s.queue + [job.row], jobs := s.jobs[t := NoJob])
  }

  predicate Valid(s: State, run: seq<Action>)
    decreases |run|
  {
    run == [] || (Enabled(s, run[0]) && Valid(Next(s, run[0]), run[1..]))
  }

  function Exec(s: State, run: seq<Action>): State
    requires Valid(s, run)
    decreases |run|
  {
    if run == [] then s else Exec(Next(s, run[0]), run[1..])
  }

  function Count(rows: seq<Row>, r: Row): nat {
    if rows == [] then 0 else One(rows[0] == r) + Count(rows[1..], r)
  }

  lemma {:induction false} CountSnoc(rows: seq<Row>, x: Row, r: Row)
    ensures Count(rows + [x], r) == Count(rows, r) + One(x == r)
  {
    if rows == [] {
      assert [x][1..] == [];
      assert rows + [x] == [x];
    } else {
      assert (rows + [x])[1..] == rows[1..] + [x];
      CountSnoc(rows[1..], x, r);
    }
  }

  lemma {:induction false} CountIsMultiplicity(rows: seq<Row>, r: Row)
    ensures Count(rows, r) == multiset(rows)[r]
  {
    if rows == [] {
    } else {
      assert rows == [rows[0]] + rows[1..];
      CountIsMultiplicity(rows[1..], r);
    }
  }

  function Holds(job: Job, r: Row): nat {
    One(!job.NoJob? && job.row == r)
  }

  /** How many calls in progress carry `r`. */
  function InProgress(jobs: seq<Job>, r: Row): nat {
    if jobs == [] then 0 else Holds(jobs[0], r) + InProgress(jobs[1..], r)
  }

  lemma {:induction false} InProgressUpdate(jobs: seq<Job>, t: nat, job: Job, r: Row)
    requires t < |jobs|
    ensures InProgress(jobs[t := job], r) + Holds(jobs[t], r) == InProgress(jobs, r) + Holds(job, r)
  {
    if t == 0 {
      assert jobs[t := job][1..] == jobs[1..];
    } else {
      assert jobs[t := job][1..] == jobs[1..][t - 1 := job];
      InProgressUpdate(jobs[1..], t - 1, job, r);
    }
  }

  /** The row that is in the table and still at the front of the queue, between insert and pop. */
  function Doubled(s: State): Option<Row> {
    if s.queueLock.Some? && s.queueLock.value < |s.jobs| && s.jobs[s.queueLock.value].Popping? && s.queue != []
    then Some(s.queue[0]) else None
  }

  ghost predicate LockInv(s: State) {
    && (forall t :: 0 <= t < |s.jobs| && (s.jobs[t].Flushing? || s.jobs[t].Popping?) ==> s.queueLock == Some(t))
    && (forall t :: 0 <= t < |s.jobs| && s.jobs[t].Popping? ==> s.queue != [])
    && (s.queueLock.Some? ==>
          && s.queueLock.value < |s.jobs|
          && (s.jobs[s.queueLock.value].Flushing? || s.jobs[s.queueLock.value].Popping?))
  }

  function Places(s: State, r: Row): nat {
    Count(s.table, r) + Count(s.queue, r) + InProgress(s.jobs, r)
  }

  ghost predicate Conserved(s: State) {
    forall r :: Places(s, r) == Count(s.given, r) + One(Doubled(s) == Some(r))
  }

  lemma {:induction false} LockStep(s: State, a: Action)
    requires LockInv(s) && Enabled(s, a)
    ensures LockInv(Next(s, a))
  {
  }

  /** The row doubled changes only when a row is executed or popped. */
  lemma {:induction false} DoubledStep(s: State, a: Action)
    requires LockInv(s) && Enabled(s, a)
    ensures Doubled(Next(s, a)) ==
      if a.Execute? then Some(s.queue[0]) else if a.Pop? then None else Doubled(s)
    ensures a.Execute? ==> Doubled(s) == None
    ensures a.Pop? ==> Doubled(s) == Some(s.queue[0])
  {
  }

  lemma {:induction false} PlacesStep(s: State, a: Action, r: Row)
    requires Enabled(s, a)
    ensures Places(Next(s, a), r) + One(a.Pop? && s.queue[0] == r)
         == Places(s, r) + One(a.Call? && a.row == r) + One(a.Execute? && s.queue[0] == r)
  {
    InProgressUpdate(s.jobs, a.t, Next(s, a).jobs[a.t], r);
    if a.Execute? {
      CountSnoc(s.table, s.queue[0], r);
    } else if a.Store? {
      CountSnoc(s.table, s.jobs[a.t].row, r);
    } else if a.Enqueue? {
      CountSnoc(s.queue, s.jobs[a.t].row, r);
    }
  }

  lemma {:induction false} ConservedStep(s: State, a: Action)
    requires LockInv(s) && Conserved(s) && Enabled(s, a)
    ensures Conserved(Next(s, a))
  {
    var s' := Next(s, a);
    DoubledStep(s, a);
    forall r ensures Places(s', r) == Count(s'.given, r) + One(Doubled(s') == Some(r)) {
      assert Places(s, r) == Count(s.given, r) + One(Doubled(s) == Some(r));
      PlacesStep(s, a, r);
      if a.Call? {
        CountSnoc(s.given, a.row, r);
      }
    }
  }

  lemma {:induction false} ConservedRun(s: State, run: seq<Action>)
    requires LockInv(s) && Conserved(s) && Valid(s, run)
    ensures LockInv(Exec(s, run)) && Conserved(Exec(s, run))
    decreases |run|
  {
    if run == [] {
    } else {
      LockStep(s, run[0]);
      ConservedStep(s, run[0]);
      ConservedRun(Next(s, run[0]), run[1..]);
    }
  }

  /** No call in progress, and what earlier calls left in the table and the queue. */
  function Start(threads: nat, table: seq<Row>, queue: seq<Row>): State {
    State(table, queue, None, seq(threads, _ => NoJob), table + queue)
  }

  lemma {:induction false} NothingInProgress(jobs: seq<Job>, r: Row)
    requires forall i :: 0 <= i < |jobs| ==> jobs[i].NoJob?
    ensures InProgress(jobs, r) == 0
  {
    if jobs == [] {
    } else {
      NothingInProgress(jobs[1..], r);
    }
  }

  predicate AtRest(s: State) {
    forall i :: 0 <= i < |s.jobs| ==> s.jobs[i].NoJob?
  }

  lemma {:induction false} StartIsConserved(threads: nat, table: seq<Row>, queue: seq<Row>)
    ensures LockInv(Start(threads, table, queue)) && Conserved(Start(threads, table, queue))
  {
    var s := Start(threads, table, queue);
    forall r ensures Places(s, r) == Count(s.given, r) {
      NothingInProgress(s.jobs, r);
      CountIsMultiplicity(table, r);
      CountIsMultiplicity(queue, r);
      CountIsMultiplicity(table + queue, r);
    }
  }

  lemma {:induction false} ConservedAtRest(s: State)
    requires LockInv(s) && Conserved(s) && AtRest(s)
    ensures multiset(s.table + s.queue) == multiset(s.given)
  {
    forall r ensures multiset(s.table + s.queue)[r] == multiset(s.given)[r] {
      assert Places(s, r) == Count(s.given, r) + One(Doubled(s) == Some(r));
      NothingInProgress(s.jobs, r);
      CountIsMultiplicity(s.table, r);
      CountIsMultiplicity(s.queue, r);
      CountIsMultiplicity(s.given, r);
    }
  }

  /**
   Any number of threads inserting at once, with null connections and exceptions anywhere:
   whenever no call is in progress, the rows and the queue hold each message, those found there
   at the start included, exactly as often as it was given.
   */
  lemma {:induction false} ConcurrentInsertsConserve(threads: nat, table: seq<Row>, queue: seq<Row>, run: seq<Action>)
    requires Valid(Start(threads, table, queue), run) && AtRest(Exec(Start(threads, table, queue), run))
    ensures var s := Exec(Start(threads, table, queue), run);
      multiset(s.table + s.queue) == multiset(s.given)
  {
    var s0 := Start(threads, table, queue);
    StartIsConserved(threads, table, queue);
    ConservedRun(s0, run);
    ConservedAtRest(Exec(s0, run));
  }

  // ---------- When a call gives up ----------

  /** The null connections thread `t` has got in its current call, continuing from `n`. */
  function NullsGot(run: seq<Action>, t: nat, n: nat): nat {
    if run == [] then n
    else
      NullsGot(run[1..], t,
        if run[0].t != t then n else if run[0].Call? then 0 else if run[0].GotNull? then n + 1 else n)
  }

  /** A call goes on with fewer than three null connections and is giving up with three. */
  predicate Counts(job: Job, n: nat) {
    match job
    case NoJob => true
    case GivingUp(_) => n == 3
    case _ => n == job.nulls && n < 3
  }

  lemma {:induction false} CountsRun(s: State, run: seq<Action>, t: nat, n: nat)
    requires Valid(s, run) && t < |s.jobs| && Counts(s.jobs[t], n)
    ensures t < |Exec(s, run).jobs| && Counts(Exec(s, run).jobs[t], NullsGot(run, t, n))
    decreases |run|
  {
    if run == [] {
    } else {
      var a := run[0];
      var n' := if a.t != t then n else if a.Call? then 0 else if a.GotNull? then n + 1 else n;
      assert Counts(Next(s, a).jobs[t], n');
      CountsRun(Next(s, a), run[1..], t, n');
    }
  }

  /**
   Under every interleaving and however many exceptions are thrown, a call puts its message into
   the failure queue exactly on its third null connection, and not before.
   */
  lemma {:induction false} GivesUpOnThirdNull(threads: nat, table: seq<Row>, queue: seq<Row>, run: seq<Action>, t: nat)
    requires Valid(Start(threads, table, queue), run) && t < threads
    ensures var jobs := Exec(Start(threads, table, queue), run).jobs;
      t < |jobs| && (jobs[t].NoJob? || (jobs[t].GivingUp? <==> NullsGot(run, t, 0) == 3))
  {
    CountsRun(Start(threads, table, queue), run, t, 0);
  }

  // ---------- The failure queue is a queue ----------

  function QueuedLog(s: State, run: seq<Action>): seq<Row>
    requires Valid(s, run)
    decreases |run|
  {
    if run == [] then []
    else (if run[0].Enqueue? then [s.jobs[run[0].t].row] else []) + QueuedLog(Next(s, run[0]), run[1..])
  }

  /** The rows put into the table by flushes, each when it is popped from the queue. */
  function FlushedLog(s: State, run: seq<Action>): seq<Row>
    requires Valid(s, run)
    decreases |run|
  {
    if run == [] then []
    else (if run[0].Pop? then [s.queue[0]] else []) + FlushedLog(Next(s, run[0]), run[1..])
  }

  /** Messages leave the failure queue in the order they were put into it, whichever thread flushes. */
  lemma {:induction false} FlushedInOrder(s: State, run: seq<Action>)
    requires Valid(s, run)
    ensures s.queue + QueuedLog(s, run) == FlushedLog(s, run) + Exec(s, run).queue
    decreases |run|
  {
    if run == [] {
    } else {
      var s', rest := Next(s, run[0]), run[1..];
      var queued := if run[0].Enqueue? then [s.jobs[run[0].t].row] else [];
      var flushed := if run[0].Pop? then [s.queue[0]] else [];
      assert s.queue + queued == flushed + s'.queue;
      FlushedInOrder(s', rest);
      ThenAppend(s.queue, queued, QueuedLog(s', rest));
      ThenAppend(flushed, s'.queue, QueuedLog(s', rest));
      ThenAppend(flushed, FlushedLog(s', rest), Exec(s, run).queue);
    }
  }
}
