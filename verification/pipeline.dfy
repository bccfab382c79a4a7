/** The accrual pipeline as a labelled transition system: any number of pool workers, the agent's control loop, the
    semaphore and the request watcher.

    Every goroutine is a program counter; an event is one action of one of them. Which ready action comes next, what
    the client answers, and when timers fire is left open. */
module Pipeline {
  import opened Results
  import opened Semaphores
  import opened Workers

  /** `counterCapacity` is the buffer of the request channel. */
  datatype Config = Config(workerCount: nat, maxRequests: nat, counterCapacity: nat)

  datatype Pc =
    | Selecting                              // at the top of the loop
    | Entering(job: string)                  // has a job, about to acquire
    | Admitted(job: string)                  // past the block check, about to read the channel field
    | Waiting(job: string, chan: nat)        // offering to the channel it has read
    | Dropping(job: string)                  // refused; its result is not sent yet
    | Counting(job: string)                  // has a token; about to count the request
    | Calling(job: string)                   // counted; the call has not begun
    | InCall(job: string)
    | Releasing(job: string, answer: Answer)
    | Reporting(job: string, answer: Answer)
    | Checking(answer: Answer)               // reported a failure; about to look at its context
    | Cancelling(rate: Rate)
    | Announcing(rate: Rate)
    | Leaving
    | Gone

  /** `gen` is the pool start a worker belongs to; `late` tells whether it has begun a call under a done context. */
  datatype Worker = Worker(gen: nat, pc: Pc, late: bool)

  /** Where the agent is. */
  datatype Phase =
    | Starting(left: nat)                    // in pool.Start, `left` workers still to spawn
    | Listening                              // at the select
    | Draining                               // has a rate announcement, waits for the workers
    | Drained                                // about to stop the request watcher and arm the timer
    | Restarting(newMax: nat)                // about to restart the request watcher
    | Resizing(newMax: nat)                  // entering ChangeMaxRequests
    | AwaitingIdle(newMax: nat)              // in its wait loop
    | Stopping                               // context done, waits for the workers
    | Closing(done: nat)                     // has closed `done` of the three channels
    | Stopped

  /** A request-watcher goroutine, listening together with a stop channel or about to write the counter back. */
  datatype Routine = Receiving(stop: nat) | Storing(read: nat) | Exited

  /** The request watcher: its counter, the stop channels it has made (true once closed), and its goroutines. */
  datatype Watcher = Watcher(count: nat, stops: seq<bool>, routines: seq<Routine>)

  datatype Report = Report(worker: nat, job: string, outcome: Outcome)

  /** A client call: its generation, and whether a worker had already cancelled that generation when it began. */
  datatype Call = Call(gen: nat, afterCancel: bool)

  /** An announcement received, with what it said, or a timer firing, with the rate measured then. */
  datatype Mark = Announced(gen: nat, worker: nat, rate: Rate) | Fired(gen: nat, rpm: nat)

  /** The pool's shared objects: the WaitGroup, the semaphore, the number of the last pool start and the generations
      that a worker has cancelled. */
  datatype Pool = Pool(wg: int, sema: Sema, gen: nat, cancelled: set<nat>)

  /** The agent's variables, and the announcements it has received and timer firings it has seen, in order. */
  datatype Agent = Agent(phase: Phase, rate: Rate, timerArmed: bool, marks: seq<Mark>)

  /** Which channels the agent has closed, and whether someone sent on a closed one. */
  datatype Closed = Closed(requests: bool, rate: bool, results: bool, panicked: bool)

  /** The request channel's buffer and its watcher; then, for reference, what had been counted and what was buffered
      when the watcher last started, and whether each start so far found no earlier goroutine of it running. */
  datatype Counter = Counter(buffered: nat, watcher: Watcher, countedThen: nat, bufferedThen: nat, sole: bool)

  /** What workers have done so far: jobs taken, results sent, requests counted, calls begun, releases made. */
  datatype Past = Past(taken: seq<string>, sent: seq<Report>, counted: nat, calls: seq<Call>, releases: nat)

  datatype State = State(cfg: Config, done: bool, jobsClosed: bool, workers: seq<Worker>,
                         pool: Pool, agent: Agent, closed: Closed, counter: Counter, past: Past)

  datatype Act =
    | Take(job: string) | SeeDone | SeeClosed
    | Admit | Deny | Choose | Acquire | TimeOut | SendRefused
    | Count | BeginCall | Answer(answer: Answer) | Release | SendResult
    | Check | Cancel | Announce | Finish

  /** The actions that pass something between a worker and the watcher: a job one way, a result the other. */
  predicate HandOver(act: Act) {
    act.Take? || act.SendRefused? || act.SendResult?
  }

  datatype AgentAct =
    | StartReturns | SeeContextDone | WaitReturns | CloseNext
    | Arm | Fire(rpm: nat) | RestartWatcher | BeginResize

  datatype RoutineAct = Receive | Store | Exit

  /** Spawning and the end of a resize are the agent's too; they stand apart because they touch the pool. */
  datatype Event =
    | ContextDone | CloseJobs
    | Step(i: nat, act: Act)
    | Spawn | FinishResize
    | AgentDoes(move: AgentAct)
    | RoutineDoes(r: nat, tick: RoutineAct)

  // ---------------------------------------------------------------- counting workers

  /** What workers are counted by. */
  datatype Trait = IsLive | IsHolding | IsBeforeCall | IsUnreported | IsDoomed | IsLate(gen: nat) | IsOf(gen: nat)

  /** A worker that has met a 429 and will announce it. */
  predicate Doomed(pc: Pc) {
    pc.Cancelling? || pc.Announcing?
  }

  predicate Has(w: Worker, t: Trait) {
    match t
    case IsLive => !w.pc.Gone?
    case IsHolding =>      // between a successful acquire and the receive in the release
      w.pc.Counting? || w.pc.Calling? || w.pc.InCall? || w.pc.Releasing?
    case IsBeforeCall => w.pc.Calling?
    case IsUnreported =>   // between counting its request and reporting its answer
      w.pc.Calling? || w.pc.InCall? || w.pc.Releasing? || w.pc.Reporting?
    case IsDoomed => Doomed(w.pc)
    case IsLate(gen) => w.gen == gen && w.late
    case IsOf(gen) => w.gen == gen
  }

  function CountIf(ws: seq<Worker>, t: Trait): nat {
    if ws == [] then 0 else CountIf(ws[..|ws| - 1], t) + if Has(ws[|ws| - 1], t) then 1 else 0
  }

  /** The job a worker has taken and not yet reported. */
  function InHand(pc: Pc): Option<string> {
    match pc
    case Entering(job) => Some(job)
    case Admitted(job) => Some(job)
    case Waiting(job, _) => Some(job)
    case Dropping(job) => Some(job)
    case Counting(job) => Some(job)
    case Calling(job) => Some(job)
    case InCall(job) => Some(job)
    case Releasing(job, _) => Some(job)
    case Reporting(job, _) => Some(job)
    case _ => None
  }

  function Bag(job: Option<string>): multiset<string> {
    match job
    case None => multiset{}
    case Some(j) => multiset{j}
  }

  function JobOf(w: Worker): multiset<string> {
    Bag(InHand(w.pc))
  }

  function Held(ws: seq<Worker>): multiset<string> {
    if ws == [] then multiset{} else Held(ws[..|ws| - 1]) + JobOf(ws[|ws| - 1])
  }

  function Jobs(rs: seq<Report>): seq<string> {
    seq(|rs|, i requires 0 <= i < |rs| => rs[i].job)
  }

  // ---------------------------------------------------------------- the request watcher

  /** Start: reset the counter, make a stop channel, run a goroutine. */
  function StartWatcher(w: Watcher): Watcher {
    Watcher(0, w.stops + [false], w.routines + [Receiving(|w.stops|)])
  }

  function StopWatcher(w: Watcher): Watcher {
    if w.stops == [] then w else w.(stops := w.stops[|w.stops| - 1 := true])
  }

  predicate AllExited(w: Watcher) {
    forall r :: 0 <= r < |w.routines| ==> w.routines[r].Exited?
  }

  // ---------------------------------------------------------------- the worker

  /** A worker's context is done when the agent's is, or when its generation has been cancelled. */
  predicate Done(s: State, gen: nat) {
    s.done || gen in s.pool.cancelled
  }

  /** A call begun under a done context fails, and not with "no content". */
  predicate CanAnswer(w: Worker, a: Answer) {
    w.late ==> a.TooMany? || a.Failed?
  }

  predicate ActEnabled(s: State, w: Worker, act: Act) {
    match act
    case Take(_) => w.pc.Selecting? && !s.jobsClosed
    case SeeDone => w.pc.Selecting? && Done(s, w.gen)
    case SeeClosed => w.pc.Selecting? && s.jobsClosed
    case Admit => w.pc.Entering? && !s.pool.sema.blockAcquire
    case Deny => w.pc.Entering? && s.pool.sema.blockAcquire
    case Choose => w.pc.Admitted? && s.pool.sema.chans != []
    case Acquire => w.pc.Waiting? && CanSend(s.pool.sema, w.pc.chan)
    case TimeOut => w.pc.Waiting?
    case SendRefused => w.pc.Dropping?
    case Count => w.pc.Counting? && (s.closed.requests || s.counter.buffered < s.cfg.counterCapacity)
    case BeginCall => w.pc.Calling?
    case Answer(a) => w.pc.InCall? && CanAnswer(w, a)
    case Release => w.pc.Releasing? && CanReceive(s.pool.sema)
    case SendResult => w.pc.Reporting?
    case Check => w.pc.Checking?
    case Cancel => w.pc.Cancelling?
    case Announce => w.pc.Announcing? && (s.closed.rate || s.agent.phase.Listening?)
    case Finish => w.pc.Leaving?
  }

  function NextPc(s: State, w: Worker, act: Act): Pc
    requires ActEnabled(s, w, act)
  {
    match act
    case Take(job) => Entering(job)
    case SeeDone => Leaving
    case SeeClosed => Leaving
    case Admit => Admitted(w.pc.job)
    case Deny => Dropping(w.pc.job)
    case Choose => Waiting(w.pc.job, |s.pool.sema.chans| - 1)
    case Acquire => Counting(w.pc.job)
    case TimeOut => Dropping(w.pc.job)
    case SendRefused => Selecting
    case Count => Calling(w.pc.job)
    case BeginCall => InCall(w.pc.job)
    case Answer(a) => Releasing(w.pc.job, a)
    case Release => Reporting(w.pc.job, w.pc.answer)
    case SendResult => if w.pc.answer.Data? || w.pc.answer.NoContent? then Selecting else Checking(w.pc.answer)
    case Check =>
      if Done(s, w.gen) then Leaving
      else if w.pc.answer.TooMany? then Cancelling(w.pc.answer.rate)
      else Selecting
    case Cancel => Announcing(w.pc.rate)
    case Announce => Leaving
    case Finish => Gone
  }

  function NextWorker(s: State, w: Worker, act: Act): Worker
    requires ActEnabled(s, w, act)
  {
    Worker(w.gen, NextPc(s, w, act), w.late || (act.BeginCall? && Done(s, w.gen)))
  }

  /** An action's effect on the pool, ... */
  function PoolAfter(s: State, w: Worker, act: Act): Pool
    requires ActEnabled(s, w, act)
  {
    match act
    case Acquire => s.pool.(sema := Sent(s.pool.sema, w.pc.chan))
    case Release => s.pool.(sema := Received(s.pool.sema))
    case Cancel => s.pool.(cancelled := s.pool.cancelled + {w.gen})
    case Finish => s.pool.(wg := s.pool.wg - 1)
    case _ => s.pool
  }

  /** ... on the agent, to whom an announcement is handed over, ... */
  function AgentAfter(s: State, i: nat, w: Worker, act: Act): Agent
    requires ActEnabled(s, w, act)
  {
    if act.Announce? && !s.closed.rate then
      s.agent.(phase := Draining, rate := w.pc.rate, marks := s.agent.marks + [Announced(w.gen, i, w.pc.rate)])
    else s.agent
  }

  /** ... on the channels: a send on a closed one panics, ... */
  function ClosedAfter(s: State, act: Act): Closed {
    var bad := match act
               case SendRefused => s.closed.results
               case SendResult => s.closed.results
               case Count => s.closed.requests
               case Announce => s.closed.rate
               case _ => false;
    if bad then s.closed.(panicked := true) else s.closed
  }

  /** ... and on the histories. */
  function PastAfter(s: State, i: nat, w: Worker, act: Act): Past
    requires ActEnabled(s, w, act)
  {
    match act
    case Take(job) => s.past.(taken := s.past.taken + [job])
    case SendRefused => s.past.(sent := s.past.sent + [Report(i, w.pc.job, Refused)])
    case SendResult => s.past.(sent := s.past.sent + [Report(i, w.pc.job, Answered(w.pc.answer))])
    case Count => s.past.(counted := s.past.counted + 1)
    case BeginCall => s.past.(calls := s.past.calls + [Call(w.gen, w.gen in s.pool.cancelled)])
    case Release => s.past.(releases := s.past.releases + 1)
    case _ => s.past
  }

  function StepOf(s: State, i: nat, act: Act): State
    requires i < |s.workers| && ActEnabled(s, s.workers[i], act)
  {
    var w := s.workers[i];
    var counter :=
      if act.Count? && !s.closed.requests then s.counter.(buffered := s.counter.buffered + 1) else s.counter;
    State(s.cfg, s.done, s.jobsClosed, s.workers[i := NextWorker(s, w, act)],
          PoolAfter(s, w, act), AgentAfter(s, i, w, act), ClosedAfter(s, act), counter, PastAfter(s, i, w, act))
  }

  // ---------------------------------------------------------------- the transition system

  function Init(cfg: Config): State {
    State(cfg, false, false, [],
          Pool(0, NewSema(cfg.maxRequests), 0, {}),
          Agent(Starting(cfg.workerCount), Rate(0, 0), false, []),
          Closed(false, false, false, false),
          Counter(0, StartWatcher(Watcher(0, [], [])), 0, 0, true),
          Past([], [], 0, [], 0))
  }

  predicate AgentEnabled(s: State, move: AgentAct) {
    var phase := s.agent.phase;
    match move
    case StartReturns => phase == Starting(0)
    case SeeContextDone => phase.Listening? && s.done
    case WaitReturns => (phase.Stopping? || phase.Draining?) && s.pool.wg == 0
    case CloseNext => phase.Closing? && phase.done < 3
    case Arm => phase.Drained?
    case Fire(_) => phase.Listening? && s.agent.timerArmed
    case RestartWatcher => phase.Restarting?
    case BeginResize => phase.Resizing?
  }

  /** The request limit for the next generation: the announced rate over the measured one. */
  function LimitFor(cfg: Config, rate: Rate, rpm: nat): nat {
    if rpm != 0 then rate.rpm / rpm else cfg.maxRequests
  }

  /** The agent's next phase; a fired timer computes the new request limit. */
  function NextPhase(s: State, move: AgentAct): Phase
    requires AgentEnabled(s, move)
  {
    match move
    case StartReturns => Listening
    case SeeContextDone => Stopping
    case WaitReturns => if s.agent.phase.Stopping? then Closing(0) else Drained
    case CloseNext => if s.agent.phase.done < 2 then Closing(s.agent.phase.done + 1) else Stopped
    case Arm => Listening
    case Fire(rpm) => Restarting(LimitFor(s.cfg, s.agent.rate, rpm))
    case RestartWatcher => Resizing(s.agent.phase.newMax)
    case BeginResize => AwaitingIdle(s.agent.phase.newMax)
  }

  /** Closing a closed channel panics too. */
  function CloseOne(c: Closed, done: nat): Closed {
    if done == 0 then c.(panicked := c.panicked || c.requests, requests := true)
    else if done == 1 then c.(panicked := c.panicked || c.rate, rate := true)
    else c.(panicked := c.panicked || c.results, results := true)
  }

  function AgentStep(s: State, move: AgentAct): State
    requires AgentEnabled(s, move)
  {
    var armed := if move.Arm? then true else s.agent.timerArmed && !move.Fire?;
    var marks := if move.Fire? then s.agent.marks + [Fired(s.pool.gen, move.rpm)] else s.agent.marks;
    var s' := s.(agent := Agent(NextPhase(s, move), s.agent.rate, armed, marks));
    match move
    case CloseNext => s'.(closed := CloseOne(s.closed, s.agent.phase.done))
    case Arm => s'.(counter := s.counter.(watcher := StopWatcher(s.counter.watcher)))
    case RestartWatcher => s'.(counter := RestartCounter(s.counter, s.past.counted))
    case BeginResize => s'.(pool := s.pool.(sema := s.pool.sema.(blockAcquire := true)))
    case _ => s'
  }

  function RestartCounter(c: Counter, counted: nat): Counter {
    Counter(c.buffered, StartWatcher(c.watcher), counted, c.buffered, c.sole && AllExited(c.watcher))
  }

  predicate RoutineEnabled(c: Counter, requestsClosed: bool, r: nat, tick: RoutineAct) {
    var w := c.watcher;
    && r < |w.routines|
    && match tick
       case Receive => w.routines[r].Receiving? && c.buffered > 0
       case Store => w.routines[r].Storing? && w.stops != []
       case Exit =>
         && w.routines[r].Receiving?
         && ((requestsClosed && c.buffered == 0)
             || (w.routines[r].stop < |w.stops| && w.stops[w.routines[r].stop]))
  }

  /** One action of a watcher goroutine; it re-reads the stop channel each time round, and its increment of the shared
      counter is a read and a later write. */
  function RoutineStep(c: Counter, requestsClosed: bool, r: nat, tick: RoutineAct): Counter
    requires RoutineEnabled(c, requestsClosed, r, tick)
  {
    var w := c.watcher;
    match tick
    case Receive => c.(buffered := c.buffered - 1, watcher := w.(routines := w.routines[r := Storing(w.count)]))
    case Store => c.(watcher := Watcher(w.routines[r].read + 1, w.stops, w.routines[r := Receiving(|w.stops| - 1)]))
    case Exit => c.(watcher := w.(routines := w.routines[r := Exited]))
  }

  predicate Enabled(s: State, e: Event) {
    match e
    case ContextDone => true
    case CloseJobs => s.closed.results
    case Step(i, act) => i < |s.workers| && ActEnabled(s, s.workers[i], act)
    case Spawn => s.agent.phase.Starting? && s.agent.phase.left > 0
    case FinishResize => s.agent.phase.AwaitingIdle? && CanResize(s.pool.sema)
    case AgentDoes(move) => AgentEnabled(s, move)
    case RoutineDoes(r, tick) => RoutineEnabled(s.counter, s.closed.requests, r, tick)
  }

  function Apply(s: State, e: Event): State
    requires Enabled(s, e)
  {
    match e
    case ContextDone => s.(done := true)
    case CloseJobs => s.(jobsClosed := true)
    case Step(i, act) => StepOf(s, i, act)
    case Spawn =>
      s.(workers := s.workers + [Worker(s.pool.gen, Selecting, false)], pool := s.pool.(wg := s.pool.wg + 1),
         agent := s.agent.(phase := Starting(s.agent.phase.left - 1)))
    case FinishResize =>
      s.(pool := s.pool.(sema := Resized(s.pool.sema, s.agent.phase.newMax), gen := s.pool.gen + 1),
         agent := s.agent.(phase := Starting(s.cfg.workerCount)))
    case AgentDoes(move) => AgentStep(s, move)
    case RoutineDoes(r, tick) => s.(counter := RoutineStep(s.counter, s.closed.requests, r, tick))
  }

  lemma ApplyStep(s: State, i: nat, act: Act)
    ensures Enabled(s, Step(i, act)) <==> i < |s.workers| && ActEnabled(s, s.workers[i], act)
    ensures Enabled(s, Step(i, act)) ==> Apply(s, Step(i, act)) == StepOf(s, i, act)
  {
  }

  function Run(s: State, es: seq<Event>): Option<State>
    decreases |es|
  {
    if es == [] then Some(s)
    else if Enabled(s, es[0]) then Run(Apply(s, es[0]), es[1..])
    else None
  }

  ghost predicate Reachable(cfg: Config, s: State) {
    exists es :: Run(Init(cfg), es) == Some(s)
  }
}
