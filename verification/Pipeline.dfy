/**
 The asynchronous judge as one transition system.  Any number of clients offer
 tasks, `max_concurrent` workers pop and judge them, an operator may sweep stuck
 rows, and one owner starts and stops the scheduler.  A step is one lock region,
 one atomic operation, one SQL statement or one Docker call; every Docker and
 database call may fail.
 */
module Pipeline {
  import opened Options
  import opened Submissions
  import opened Containers

  datatype Config = Config(maxConcurrent: int, maxQueueSize: int, hasClient: bool)

  datatype Task = Task(id: int, user: int, problem: int, language: string, code: string)

  /** `Joining` runs from the moment shutdown raises its flag until every worker is joined. */
  datatype Phase = NotStarted | Spawning | Serving | Joining | Down

  /** How a judged task is to be written back; only some failures own a task directory to clean. */
  datatype Ending = SystemError(cleanup: bool) | Verdict(result: Outcome)

  /**
   Where a worker stands; each constructor is the point just before its next step.
   `lease` is the pool container the worker must report as released, and `settled`
   records that its write of an existing row was answered.
   */
  datatype Worker =
    | Waiting
    | Popped(task: Task)
    | Entered(task: Task)
    | Staging(task: Task)
    | Pooling(task: Task)
    | Discarding(task: Task, cid: Cid)
    | Creating(task: Task, lease: Option<Cid>)
    | Starting(task: Task, lease: Option<Cid>, cid: Cid)
    | Awaiting(task: Task, lease: Option<Cid>, cid: Cid)
    | Killing(task: Task, lease: Option<Cid>, cid: Cid)
    | Reading(task: Task, lease: Option<Cid>, cid: Cid)
    | Removing(task: Task, lease: Option<Cid>, cid: Cid, ending: Ending)
    | Writing(task: Task, lease: Option<Cid>, ending: Ending)
    | CheckingIn(task: Task, lease: Option<Cid>, result: Outcome)
    | Publishing(task: Task, lease: Option<Cid>, result: Outcome)
    | Cleaning(task: Task, lease: Option<Cid>, settled: bool)
    | Leaving(task: Task, settled: bool)
    | Exited

  /** A statement either answers, or fails with its effect applied or not. */
  datatype Reply = Answered | Failed(applied: bool)

  datatype Act =
    | Pop | Exit | Enter | RejectNoClient | Claim(reply: Reply) | Stage(ok: bool)
    | AskPool(got: Option<Cid>) | Discard(ok: bool) | MakeBox(made: CreateReply) | Launch(ok: bool)
    | Await(exited: bool) | KillBox | ReadLogs(result: Outcome) | RemoveBox(ok: bool)
    | WriteBack(reply: Reply, message: string, now: int)
    | CheckIn | Publish | CleanUp | Leave

  datatype Step =
    | Submit(id: int, now: int)
    | Offer(task: Task)
    | Push(task: Task)
    | Sweep(cutoff: int)
    | Begin | Spawn | SpawnFails | StopRequested | AllJoined | Restart
    | Work(i: nat, act: Act)

  /**
   The waiting tasks; the other fields record who passed the `running_` test, what was accepted and what was popped.
   */
  datatype Queue = Queue(offers: multiset<Task>, waiting: seq<Task>, accepted: seq<Task>, popped: seq<Task>)

  /**
   The table, with per submission id: claims won, rows made terminal, rows swept back, and verdicts whose write was
   seen to flip.
   */
  datatype Db = Db(rows: Table, claims: multiset<int>, flips: multiset<int>, sweeps: multiset<int>,
                   verdicts: multiset<int>)

  /** A published row, assembled from the task and the result; its times are left empty unless positive. */
  datatype Event = Event(id: int, user: int, problem: int, language: string, code: string, status: Status,
                         timeUsed: Option<int>, memoryUsed: Option<int>, errorMessage: Option<string>)

  function Positive(o: Option<int>): Option<int> {
    if o.Some? && o.value > 0 then o else None
  }

  function EventOf(t: Task, r: Outcome): Event {
    Event(t.id, t.user, t.problem, t.language, t.code, r.status, Positive(r.timeUsed), Positive(r.memoryUsed),
          if r.errorMessage == "" then None else Some(r.errorMessage))
  }

  /** A call to `try_checkin`. */
  datatype Visit = Visit(user: int, problem: int, id: int)

  function VisitOf(t: Task): Visit {
    Visit(t.user, t.problem, t.id)
  }

  datatype Outbox = Outbox(published: seq<Event>, checkins: seq<Visit>)

  /** `restarted` records that the scheduler was started again after a shutdown, which never lowers `shutting_down_`. */
  datatype State = State(
    cfg: Config, phase: Phase, running: bool, shuttingDown: bool, queue: Queue,
    runningCount: int, workers: seq<Worker>, db: Db, docker: Docker, outbox: Outbox, restarted: bool)

  function Init(cfg: Config): State {
    State(cfg, NotStarted, false, false, Queue(multiset{}, [], [], []), 0, [],
          Db(map[], multiset{}, multiset{}, multiset{}, multiset{}), Docker([], map[]), Outbox([], []), false)
  }

  predicate AllExited(ws: seq<Worker>) {
    forall i | 0 <= i < |ws| :: ws[i].Exited?
  }

  /** No worker is left and none is being spawned: until another start nothing in the queue can be popped. */
  predicate NoneLeft(s: State) {
    s.phase != NotStarted && s.phase != Spawning && AllExited(s.workers)
  }

  predicate QueueFull(cfg: Config, q: Queue) {
    cfg.maxQueueSize > 0 && |q.waiting| >= cfg.maxQueueSize
  }

  predicate ActEnabled(s: State, w: Worker, a: Act) {
    match a
    case Pop => w.Waiting? && s.queue.waiting != []
    case Exit => w.Waiting? && s.shuttingDown && s.queue.waiting == []
    case Enter => w.Popped?
    case RejectNoClient => w.Entered? && !s.cfg.hasClient
    case Claim(_) => w.Entered? && s.cfg.hasClient
    case Stage(_) => w.Staging?
    case AskPool(got) => w.Pooling? && (got.Some? ==> got.value !in s.docker.boxes)
    case Discard(_) => w.Discarding?
    case MakeBox(made) => w.Creating? && FreshReply(s.docker.boxes, made)
    case Launch(_) => w.Starting?
    case Await(_) => w.Awaiting?
    case KillBox => w.Killing?
    case ReadLogs(_) => w.Reading?
    case RemoveBox(_) => w.Removing?
    case WriteBack(_, _, _) => w.Writing?
    case CheckIn => w.CheckingIn?
    case Publish => w.Publishing?
    case CleanUp => w.Cleaning?
    case Leave => w.Leaving?
  }

  predicate Enabled(s: State, step: Step) {
    match step
    case Submit(id, _) => id !in s.db.rows
    case Offer(_) => s.running
    case Push(t) => t in s.queue.offers
    case Sweep(_) => true
    case Begin => s.phase == NotStarted && s.cfg.maxConcurrent >= 1
    case Spawn => s.phase == Spawning
    case SpawnFails => s.phase == Spawning
    case StopRequested => s.phase == NotStarted || s.phase == Serving
    case AllJoined => s.phase == Joining && AllExited(s.workers)
    case Restart => s.phase == Down && s.cfg.maxConcurrent >= 1
    case Work(i, a) => i < |s.workers| && ActEnabled(s, s.workers[i], a)
  }

  // ---- clients and the operator ------------------------------------------

  function Pushed(s: State, t: Task): Queue {
    var q := s.queue.(offers := s.queue.offers - multiset{t});
    if QueueFull(s.cfg, q) then q
    else q.(waiting := q.waiting + [t], accepted := q.accepted + [t])
  }

  function SweptDb(db: Db, cutoff: int): Db {
    db.(rows := Swept(db.rows, cutoff), sweeps := db.sweeps + multiset(Stuck(db.rows, cutoff)))
  }

  // ---- one act of one worker, component by component ----------------------

  predicate TakesEffect(r: Reply) {
    r.Answered? || r.applied
  }

  /** Where the worker goes. */
  function NextWorker(s: State, w: Worker, a: Act): Worker
    requires ActEnabled(s, w, a)
  {
    match a
    case Pop => Popped(s.queue.waiting[0])
    case Exit => Exited
    case Enter => Entered(w.task)
    case RejectNoClient => Writing(w.task, None, SystemError(false))
    case Claim(reply) =>
      if reply.Answered? && Claimable(s.db.rows, w.task.id) then Staging(w.task) else Leaving(w.task, false)
    case Stage(ok) => if ok then Pooling(w.task) else Writing(w.task, None, SystemError(false))
    case AskPool(got) => if got.Some? then Discarding(w.task, got.value) else Creating(w.task, None)
    case Discard(ok) => Creating(w.task, if ok then Some(w.cid) else None)
    case MakeBox(made) =>
      if made.Created? then Starting(w.task, w.lease, made.cid) else Writing(w.task, w.lease, SystemError(true))
    case Launch(ok) =>
      if ok then Awaiting(w.task, w.lease, w.cid) else Removing(w.task, w.lease, w.cid, SystemError(true))
    case Await(exited) =>
      if exited then Reading(w.task, w.lease, w.cid) else Killing(w.task, w.lease, w.cid)
    case KillBox => Removing(w.task, w.lease, w.cid, SystemError(true))
    case ReadLogs(r) => Removing(w.task, w.lease, w.cid, Verdict(r))
    case RemoveBox(_) => Writing(w.task, w.lease, w.ending)
    case WriteBack(reply, _, _) => AfterWrite(s.db.rows, w, reply)
    case CheckIn => Publishing(w.task, w.lease, w.result)
    case Publish => Cleaning(w.task, w.lease, true)
    case CleanUp => Leaving(w.task, w.settled)
    case Leave => Waiting
  }

  /** A verdict is announced only by a worker whose answered write flipped the row; `finish_se` announces nothing. */
  function AfterWrite(rows: Table, w: Worker, reply: Reply): Worker
    requires w.Writing?
  {
    var settled := reply.Answered? && w.task.id in rows;
    match w.ending
    case SystemError(cleanup) => if cleanup then Cleaning(w.task, w.lease, settled) else Leaving(w.task, settled)
    case Verdict(r) =>
      if !IsVerdict(r.status) then Cleaning(w.task, w.lease, false)
      else if !reply.Answered? || !Open(rows, w.task.id) then Cleaning(w.task, w.lease, settled)
      else if r.status == Ac then CheckingIn(w.task, w.lease, r)
      else Publishing(w.task, w.lease, r)
  }

  function NextQueue(q: Queue, a: Act): Queue
    requires a.Pop? ==> q.waiting != []
  {
    if a.Pop? then q.(waiting := q.waiting[1..], popped := q.popped + [q.waiting[0]]) else q
  }

  function NextCount(n: int, a: Act): int {
    if a.Enter? then n + 1 else if a.Leave? then n - 1 else n
  }

  function NextDb(db: Db, w: Worker, a: Act): Db {
    if a.Claim? && w.Entered? && TakesEffect(a.reply) && Claimable(db.rows, w.task.id) then
      db.(rows := Claimed(db.rows, w.task.id), claims := db.claims + multiset{w.task.id})
    else if a.WriteBack? && w.Writing? && TakesEffect(a.reply) && Open(db.rows, w.task.id) then
      match w.ending
      case SystemError(_) => WriteRow(db, w.task.id, Outcome(Se, None, None, a.message), a.now)
      case Verdict(r) =>
        if !IsVerdict(r.status) then db
        else
          var db' := WriteRow(db, w.task.id, r, a.now);
          if a.reply.Answered? then db'.(verdicts := db'.verdicts + multiset{w.task.id}) else db'
    else db
  }

  function WriteRow(db: Db, id: int, o: Outcome, now: int): Db {
    db.(rows := Finished(db.rows, id, o, now), flips := db.flips + multiset{id})
  }

  /** The Docker call an act makes, if any. */
  function CallOf(w: Worker, a: Act): Option<Op> {
    match a
    case AskPool(got) => if got.Some? then Some(Handed(got.value)) else None
    case Discard(ok) => if w.Discarding? then Some(RemoveCall(w.cid, ok)) else None
    case MakeBox(made) => CreateCall(made)
    case Launch(_) => if w.Starting? then Some(Start(w.cid)) else None
    case Await(_) => if w.Awaiting? then Some(Wait(w.cid)) else None
    case KillBox => if w.Killing? then Some(Kill(w.cid)) else None
    case ReadLogs(_) => if w.Reading? then Some(Logs(w.cid)) else None
    case RemoveBox(ok) => if w.Removing? then Some(RemoveCall(w.cid, ok)) else None
    case _ => None
  }

  function NextOutbox(o: Outbox, w: Worker, a: Act): Outbox {
    if a.CheckIn? && w.CheckingIn? then o.(checkins := o.checkins + [VisitOf(w.task)])
    else if a.Publish? && w.Publishing? then o.(published := o.published + [EventOf(w.task, w.result)])
    else o
  }

  function Acted(s: State, i: nat, a: Act): State
    requires i < |s.workers| && ActEnabled(s, s.workers[i], a)
  {
    var w := s.workers[i];
    State(s.cfg, s.phase, s.running, s.shuttingDown,
          NextQueue(s.queue, a), NextCount(s.runningCount, a), s.workers[i := NextWorker(s, w, a)],
          NextDb(s.db, w, a), NextDocker(s.docker, CallOf(w, a)), NextOutbox(s.outbox, w, a), s.restarted)
  }

  function Spawned(s: State): State {
    var workers := s.workers + [Waiting];
    s.(workers := workers, phase := if |workers| >= s.cfg.maxConcurrent then Serving else Spawning)
  }

  function Apply(s: State, step: Step): State
    requires Enabled(s, step)
  {
    match step
    case Submit(id, now) => s.(db := s.db.(rows := s.db.rows[id := NewRow(now)]))
    case Offer(t) => s.(queue := s.queue.(offers := s.queue.offers + multiset{t}))
    case Push(t) => s.(queue := Pushed(s, t))
    case Sweep(cutoff) => s.(db := SweptDb(s.db, cutoff))
    case Begin => s.(phase := Spawning, running := true)
    case Spawn => Spawned(s)
    case SpawnFails => s.(shuttingDown := true, phase := Joining)
    case StopRequested => s.(shuttingDown := true, phase := Joining)
    case AllJoined => s.(running := false, phase := Down)
    case Restart => s.(phase := Spawning, running := true, workers := [], restarted := true)
    case Work(i, a) => Acted(s, i, a)
  }

  function Next(s: Option<State>, step: Step): Option<State> {
    if s.Some? && Enabled(s.value, step) then Some(Apply(s.value, step)) else None
  }

  /** The state after a run from `s`, or `None` when some step of it was not enabled. */
  function Exec(s: State, run: seq<Step>): Option<State> {
    if run == [] then Some(s) else Next(Exec(s, run[..|run| - 1]), run[|run| - 1])
  }
}
