/** Task lifecycle in backend/cmd/server/main.go as a transition system: the
    handlers and the abandonment sweep, split where another party can come
    between, over the queue, the access tracker and the clock. */
module TaskQueue {
  import opened AccessTracker
  import opened Decimal
  import opened Tasks

  type Id = string
  type Handler = nat

  /** The status KicadGetTaskStatus reports. */
  datatype Status = PENDING | PROGRESS | SUCCESS | FAILURE

  function StatusOf(t: TaskState): Status {
    match t
    case Pending => PENDING
    case Active => PROGRESS
    case Completed => SUCCESS
    case Archived(failed) => if failed then FAILURE else SUCCESS
  }

  /** asynq's queue "kicad" (there is no queue "kicad:archived"), with a history
      of the IDs it gave out and of what became of those it does not hold. */
  datatype Queue = Queue(tasks: map<Id, TaskState>, used: set<Id>, cancelled: set<Id>, evicted: set<Id>)
  {
    function Live(): set<Id> {
      set id | id in tasks && !tasks[id].Finished()
    }

    /** QueueInfo.Pending + QueueInfo.Active. */
    function Size(): nat {
      |Live()|
    }

    /** Inspector.DeleteTask fails on an active and on an unknown task. */
    predicate Deletable(id: Id) {
      id in tasks && !tasks[id].Active?
    }

    function Enqueue(id: Id): Queue {
      Queue(tasks[id := Pending], used + {id}, cancelled, evicted)
    }

    function Move(id: Id, to: TaskState): Queue {
      Queue(tasks[id := to], used, cancelled, evicted)
    }

    function DeleteTask(id: Id): Queue {
      if Deletable(id) then Queue(tasks - {id}, used, cancelled + {id}, evicted) else this
    }

    function Evict(id: Id): Queue {
      Queue(tasks - {id}, used, cancelled, evicted + {id})
    }
  }

  /** The access tracker, and which IDs were accessed since the last snapshot. */
  datatype Tracking = Tracking(lastAccess: map<Id, int>, touched: set<Id>)
  {
    function UpdateAccess(id: Id, now: int): Tracking {
      Tracking(lastAccess[id := now], touched + {id})
    }

    function RemoveTask(id: Id): Tracking {
      Tracking(lastAccess - {id}, touched)
    }
  }

  /** Where checkAbandonedTasks stands; `todo` is the rest of its list. */
  datatype Phase = Idle | Looking(todo: set<Id>) | Cancelling(id: Id, todo: set<Id>) | Untracking(id: Id, todo: set<Id>)
  {
    function Undone(): set<Id> {
      match this
      case Idle => {}
      case Looking(todo) => todo
      case Cancelling(id, todo) => todo + {id}
      case Untracking(id, todo) => todo + {id}
    }
  }

  /** `sawActive`: the IDs this sweep found active. */
  datatype Sweep = Sweep(phase: Phase, snapshot: set<Id>, sawActive: set<Id>)

  /** POST handlers past the size check, and past the enqueue. */
  datatype Posts = Posts(admitted: set<Handler>, toTrack: map<Handler, Id>)

  /** A GET handler past GetTaskInfo: what it will answer, None for 404; `number`
      counts the reads of the task before. */
  datatype Reading = Reading(id: Id, seen: Option<Status>, number: nat)

  /** An answer, and the number of the read it comes from. */
  datatype Given = Given(status: Status, number: nat)

  /** GET handlers past UpdateAccess, and past GetTaskInfo; with the statuses read
      of each task, and the answers given, both in order. */
  datatype Gets = Gets(
    asking: map<Handler, Id>, answering: map<Handler, Reading>,
    readings: map<Id, seq<Status>>, answers: map<Id, seq<Given>>)  // history
  {
    function ReadsOf(id: Id): seq<Status> {
      if id in readings then readings[id] else []
    }

    function AnswersOf(id: Id): seq<Given> {
      if id in answers then answers[id] else []
    }

    function Handlers(): set<Handler> {
      asking.Keys + answering.Keys
    }

    function Ask(h: Handler, id: Id): Gets {
      this.(asking := asking[h := id])
    }

    function Read(h: Handler, q: Queue): Gets
      requires h in asking
    {
      var id := asking[h];
      if id in q.tasks then
        var st := StatusOf(q.tasks[id]);
        Gets(asking - {h}, answering[h := Reading(id, Some(st), |ReadsOf(id)|)],
             readings[id := ReadsOf(id) + [st]], answers)
      else
        Gets(asking - {h}, answering[h := Reading(id, None, 0)], readings, answers)
    }

    function Reply(h: Handler): Gets
      requires h in answering
    {
      var Reading(id, seen, number) := answering[h];
      Gets(asking, answering - {h}, readings,
           if seen.Some? then answers[id := AnswersOf(id) + [Given(seen.value, number)]] else answers)
    }
  }

  /** A DELETE handler that saw the task pending. */
  datatype Deleting = ToDelete(id: Id) | ToUntrack(id: Id)

  /** A log socket; its UpdateAccess was at `openedAt`. */
  datatype Socket = Socket(task: Id, openedAt: int)

  datatype Config = Config(
    maxQueue: nat,      // MAX_QUEUE_SIZE
    handlers: nat,      // POST handlers that can be between size check and enqueue at once
    readers: nat,       // GET handlers that can be at work at once
    timeout: nat,       // of the access tracker
    connectDelay: nat,  // from UpdateAccess to the start of the socket's lifetime
    lifetime: nat)      // wsMaxLifetime, and a write under way when it is over

  datatype System = System(
    now: int,
    queue: Queue,
    tracking: Tracking,
    sweep: Sweep,
    posts: Posts,
    gets: Gets,
    deletes: map<Handler, Deleting>,
    sockets: map<Handler, Socket>)

  datatype PostAction =
    | Check(known: bool)  // known: GetQueueInfo answered
    | Refuse              // the body is no JSON, or the enqueue failed
    | Enqueue(id: Id)
    | Track

  datatype WorkAction = Start | Finish(to: TaskState) | Evict

  datatype GetAction = Access(id: Id) | Read | Reply

  datatype DeleteAction = Inspect(id: Id) | DeleteTask | Untrack

  datatype SweepAction = Begin | Look(id: Id) | CancelPending | Forget | Done

  datatype SocketAction = Open(id: Id) | Close

  datatype Action =
    | Tick(span: nat)
    | Post(h: Handler, post: PostAction)
    | Work(id: Id, work: WorkAction)
    | Get(h: Handler, get: GetAction)
    | Delete(h: Handler, delete: DeleteAction)
    | Sweeping(step: SweepAction)
    | Log(h: Handler, socket: SocketAction)

  /* ------------------------------------------- KicadPostNewTask */

  predicate PostEnabled(cfg: Config, s: System, h: Handler, a: PostAction) {
    match a
    // GetQueueInfo is assumed to fail only for an absent, so empty, queue.
    case Check(known) =>
      h !in s.posts.admitted && |s.posts.admitted| < cfg.handlers && (!known ==> s.queue.Size() == 0)
    case Refuse => h in s.posts.admitted
    case Enqueue(id) => h in s.posts.admitted && h !in s.posts.toTrack && id !in s.queue.used
    case Track => h in s.posts.toTrack
  }

  predicate Overloaded(cfg: Config, s: System, known: bool) {
    var pendingCount := if known then s.queue.Size() else 0;
    pendingCount > cfg.maxQueue
  }

  function PostStep(cfg: Config, s: System, h: Handler, a: PostAction): System
    requires PostEnabled(cfg, s, h, a)
  {
    var Posts(admitted, toTrack) := s.posts;
    match a
    case Check(known) => if Overloaded(cfg, s, known) then s else s.(posts := Posts(admitted + {h}, toTrack))
    case Refuse => s.(posts := Posts(admitted - {h}, toTrack))
    case Enqueue(id) => s.(queue := s.queue.Enqueue(id), posts := Posts(admitted - {h}, toTrack[h := id]))
    case Track =>
      s.(tracking := s.tracking.UpdateAccess(toTrack[h], s.now), posts := Posts(admitted, toTrack - {h}))
  }

  /* --------------------------------- the worker, and asynq's retention */

  predicate WorkEnabled(q: Queue, id: Id, a: WorkAction) {
    match a
    case Start => id in q.tasks && q.tasks[id].Pending?
    case Finish(to) => id in q.tasks && q.tasks[id].Active? && to.Finished()
    case Evict => id in q.tasks && q.tasks[id].Finished()
  }

  function WorkStep(q: Queue, id: Id, a: WorkAction): Queue
    requires WorkEnabled(q, id, a)
  {
    match a
    case Start => q.Move(id, Active)
    case Finish(to) => q.Move(id, to)
    case Evict => q.Evict(id)
  }

  /* ------------------------------------------ KicadGetTaskStatus */

  predicate GetEnabled(cfg: Config, g: Gets, a: GetAction, h: Handler) {
    match a
    case Access(_) => h !in g.Handlers() && |g.Handlers()| < cfg.readers
    case Read => h in g.asking
    case Reply => h in g.answering
  }

  function GetStep(cfg: Config, s: System, h: Handler, a: GetAction): System
    requires GetEnabled(cfg, s.gets, a, h)
  {
    match a
    case Access(id) => s.(tracking := s.tracking.UpdateAccess(id, s.now), gets := s.gets.Ask(h, id))
    case Read => s.(gets := s.gets.Read(h, s.queue))
    case Reply => s.(gets := s.gets.Reply(h))
  }

  /* --------------------------------------------- KicadDeleteTask */

  predicate DeleteEnabled(s: System, h: Handler, a: DeleteAction) {
    match a
    case Inspect(_) => h !in s.deletes
    case DeleteTask => h in s.deletes && s.deletes[h].ToDelete?
    case Untrack => h in s.deletes && s.deletes[h].ToUntrack?
  }

  function DeleteStep(s: System, h: Handler, a: DeleteAction): System
    requires DeleteEnabled(s, h, a)
  {
    match a
    case Inspect(id) =>
      if id in s.queue.tasks && s.queue.tasks[id].Pending? then s.(deletes := s.deletes[h := ToDelete(id)])
      else s  // 404, 409 or 410
    case DeleteTask =>
      var id := s.deletes[h].id;
      s.(queue := s.queue.DeleteTask(id),
         deletes := if s.queue.Deletable(id) then s.deletes[h := ToUntrack(id)] else s.deletes - {h})
    case Untrack => s.(tracking := s.tracking.RemoveTask(s.deletes[h].id), deletes := s.deletes - {h})
  }

  /* ------------------- checkAbandonedTasks and handleAbandonedTask */

  predicate SweepEnabled(s: System, a: SweepAction) {
    match a
    case Begin => s.sweep.phase.Idle?
    case Look(id) => s.sweep.phase.Looking? && id in s.sweep.phase.todo
    case CancelPending => s.sweep.phase.Cancelling?
    case Forget => s.sweep.phase.Untracking?
    case Done => s.sweep.phase == Looking({})
  }

  function LookStep(q: Queue, sw: Sweep, id: Id): Sweep
    requires sw.phase.Looking?
  {
    var rest := sw.phase.todo - {id};
    if id in q.tasks && q.tasks[id].Active? then Sweep(Looking(rest), sw.snapshot, sw.sawActive + {id})
    else if id in q.tasks && q.tasks[id].Pending? then sw.(phase := Cancelling(id, rest))
    else sw.(phase := Untracking(id, rest))
  }

  function SweepStep(cfg: Config, s: System, a: SweepAction): System
    requires SweepEnabled(s, a)
  {
    match a
    case Begin =>
      var ids := Abandoned(s.tracking.lastAccess, cfg.timeout, s.now);
      s.(sweep := Sweep(Looking(ids), ids, {}), tracking := s.tracking.(touched := {}))
    case Look(id) => s.(sweep := LookStep(s.queue, s.sweep, id))
    case CancelPending =>
      var Cancelling(id, todo) := s.sweep.phase;
      s.(queue := s.queue.DeleteTask(id), sweep := s.sweep.(phase := Untracking(id, todo)))
    case Forget =>
      var Untracking(id, todo) := s.sweep.phase;
      s.(tracking := s.tracking.RemoveTask(id), sweep := s.sweep.(phase := Looking(todo)))
    case Done => s.(sweep := s.sweep.(phase := Idle))
  }

  /* ------------------- KicadGetTaskLogs, as far as the tracker goes */

  predicate SocketEnabled(s: System, h: Handler, a: SocketAction) {
    match a
    case Open(_) => h !in s.sockets
    case Close => h in s.sockets
  }

  function SocketStep(s: System, h: Handler, a: SocketAction): System
    requires SocketEnabled(s, h, a)
  {
    match a
    case Open(id) =>
      s.(tracking := s.tracking.UpdateAccess(id, s.now), sockets := s.sockets[h := Socket(id, s.now)])
    case Close => s.(sockets := s.sockets - {h})
  }

  /* -------------------------------------------------------- all steps */

  function Deadline(cfg: Config, k: Socket): int {
    k.openedAt + cfg.connectDelay + cfg.lifetime
  }

  predicate Enabled(cfg: Config, s: System, a: Action) {
    match a
    // The lifetime bound closes sockets in time.
    case Tick(span) => forall h <- s.sockets :: s.now + span <= Deadline(cfg, s.sockets[h])
    case Post(h, post) => PostEnabled(cfg, s, h, post)
    case Work(id, work) => WorkEnabled(s.queue, id, work)
    case Get(h, get) => GetEnabled(cfg, s.gets, get, h)
    case Delete(h, delete) => DeleteEnabled(s, h, delete)
    case Sweeping(step) => SweepEnabled(s, step)
    case Log(h, socket) => SocketEnabled(s, h, socket)
  }

  function Step(cfg: Config, s: System, a: Action): System
    requires Enabled(cfg, s, a)
  {
    match a
    case Tick(span) => s.(now := s.now + span)
    case Post(h, post) => PostStep(cfg, s, h, post)
    case Work(id, work) => s.(queue := WorkStep(s.queue, id, work))
    case Get(h, get) => GetStep(cfg, s, h, get)
    case Delete(h, delete) => DeleteStep(s, h, delete)
    case Sweeping(step) => SweepStep(cfg, s, step)
    case Log(h, socket) => SocketStep(s, h, socket)
  }

  predicate Init(s: System) {
    && s.queue == Queue(map[], {}, {}, {})
    && s.tracking == Tracking(map[], {})
    && s.sweep == Sweep(Idle, {}, {})
    && s.posts == Posts({}, map[])
    && s.gets == Gets(map[], map[], map[], map[])
    && s.deletes == map[] && s.sockets == map[]
  }

  ghost predicate Legal(cfg: Config, s: System, acts: seq<Action>)
    decreases |acts|, 0
  {
    || acts == []
    || (Legal(cfg, s, acts[..|acts| - 1]) && Enabled(cfg, Exec(cfg, s, acts[..|acts| - 1]), acts[|acts| - 1]))
  }

  ghost function Exec(cfg: Config, s: System, acts: seq<Action>): System
    requires Legal(cfg, s, acts)
    decreases |acts|, 1
  {
    if acts == [] then s else Step(cfg, Exec(cfg, s, acts[..|acts| - 1]), acts[|acts| - 1])
  }

  lemma ExecNext(cfg: Config, s: System, acts: seq<Action>, a: Action)
    requires Legal(cfg, s, acts) && Enabled(cfg, Exec(cfg, s, acts), a)
    ensures Legal(cfg, s, acts + [a])
    ensures Exec(cfg, s, acts + [a]) == Step(cfg, Exec(cfg, s, acts), a)
  {
    hide Step, Enabled;
    assert (acts + [a])[..|acts|] == acts;
  }

  /* ------------------------------------- what a step does to the queue */

  datatype QueueEffect = Unchanged | Added(id: Id) | Moved(id: Id, to: TaskState) | Dropped(id: Id, byEviction: bool)

  /** No effect touches an active task but a finish. */
  ghost predicate QueueChanged(q: Queue, r: Queue, e: QueueEffect) {
    match e
    case Unchanged => r == q
    case Added(id) => id !in q.used && r == q.Enqueue(id)
    case Moved(id, to) =>
      && id in q.tasks && r == q.Move(id, to)
      && (if to.Finished() then q.tasks[id].Active? else to.Active? && q.tasks[id].Pending?)
    case Dropped(id, byEviction) =>
      && q.Deletable(id) && r == (if byEviction then q.Evict(id) else q.DeleteTask(id))
  }

  /** What an action can do to the queue. */
  ghost predicate Allows(a: Action, e: QueueEffect) {
    match e
    case Unchanged => !(a.Post? && a.post.Enqueue?) && !(a.Work? && a.work.Start?)
    case Added(id) => a.Post? && a.post == Enqueue(id)
    case Moved(id, to) => a == Work(id, if to.Finished() then Finish(to) else Start)
    case Dropped(id, byEviction) =>
      if byEviction then a == Work(id, Evict) else a.Delete? || (a.Sweeping? && a.step.CancelPending?)
  }

  function EffectOf(s: System, a: Action): QueueEffect {
    match a
    case Post(_, Enqueue(id)) => Added(id)
    case Work(id, Start) => Moved(id, Active)
    case Work(id, Finish(to)) => Moved(id, to)
    case Work(id, Evict) => Dropped(id, true)
    case Delete(h, DeleteTask) =>
      if h in s.deletes && s.queue.Deletable(s.deletes[h].id) then Dropped(s.deletes[h].id, false) else Unchanged
    case Sweeping(CancelPending) =>
      if s.sweep.phase.Cancelling? && s.queue.Deletable(s.sweep.phase.id) then Dropped(s.sweep.phase.id, false)
      else Unchanged
    case _ => Unchanged
  }

  lemma HandlersChangeQueue(cfg: Config, s: System, a: Action)
    requires Enabled(cfg, s, a) && (a.Post? || a.Delete? || a.Get?)
    ensures QueueChanged(s.queue, Step(cfg, s, a).queue, EffectOf(s, a))
  {
    hide Gets.Ask, Gets.Read, Gets.Reply, Overloaded, Tracking.UpdateAccess, Tracking.RemoveTask;
  }

  lemma OthersChangeQueue(cfg: Config, s: System, a: Action)
    requires Enabled(cfg, s, a) && !(a.Post? || a.Delete? || a.Get?)
    ensures QueueChanged(s.queue, Step(cfg, s, a).queue, EffectOf(s, a))
  {
    hide Abandoned, LookStep, PostStep, DeleteStep, GetStep, Tracking.UpdateAccess, Tracking.RemoveTask;
  }

  lemma EffectIsAllowed(cfg: Config, s: System, a: Action)
    requires Enabled(cfg, s, a)
    ensures Allows(a, EffectOf(s, a))
  {
    hide PostEnabled, DeleteEnabled, GetEnabled, SocketEnabled, SweepEnabled;
  }

  lemma StepChangesQueue(cfg: Config, s: System, a: Action)
    requires Enabled(cfg, s, a)
    ensures QueueChanged(s.queue, Step(cfg, s, a).queue, EffectOf(s, a))
    ensures Allows(a, EffectOf(s, a))
  {
    hide Step, Enabled, QueueChanged, EffectOf, Allows;
    EffectIsAllowed(cfg, s, a);
    if a.Post? || a.Delete? || a.Get? {
      HandlersChangeQueue(cfg, s, a);
    } else {
      OthersChangeQueue(cfg, s, a);
    }
  }

  /* ------------------------------------------------------ conservation */

  /** Every ID ever enqueued is queued, cancelled or evicted, and only one of these. */
  ghost predicate Accounted(q: Queue) {
    && q.used == q.tasks.Keys + q.cancelled + q.evicted
    && q.tasks.Keys !! q.cancelled !! q.evicted
  }

  lemma ChangeKeepsAccounted(q: Queue, r: Queue, e: QueueEffect)
    requires Accounted(q) && QueueChanged(q, r, e)
    ensures Accounted(r)
    ensures |r.used| == |q.used| + (if e.Added? then 1 else 0)
  {
    hide Accounted;
    match e
    case Unchanged =>
    case Added(id) => EnqueueKeepsAccounted(q, id);
    case Moved(id, to) => MoveKeepsAccounted(q, id, to);
    case Dropped(id, _) => DropKeepsAccounted(q, r, id);
  }

  lemma EnqueueKeepsAccounted(q: Queue, id: Id)
    requires Accounted(q) && id !in q.used
    ensures Accounted(q.Enqueue(id))
  {
    assert q.Enqueue(id).tasks.Keys == q.tasks.Keys + {id};
  }

  lemma MoveKeepsAccounted(q: Queue, id: Id, to: TaskState)
    requires Accounted(q) && id in q.tasks
    ensures Accounted(q.Move(id, to))
  {
    assert q.Move(id, to).tasks.Keys == q.tasks.Keys;
  }

  lemma DropKeepsAccounted(q: Queue, r: Queue, id: Id)
    requires Accounted(q) && q.Deletable(id) && r in {q.Evict(id), q.DeleteTask(id)}
    ensures Accounted(r) && r.used == q.used
  {
    assert r.tasks.Keys == q.tasks.Keys - {id};
    assert r.cancelled + r.evicted == q.cancelled + q.evicted + {id};
  }

  function Enqueues(acts: seq<Action>): nat {
    if acts == [] then 0
    else Enqueues(acts[..|acts| - 1]) + (if acts[|acts| - 1].Post? && acts[|acts| - 1].post.Enqueue? then 1 else 0)
  }

  function InState(q: Queue, p: TaskState -> bool): set<Id> {
    set id | id in q.tasks && p(q.tasks[id])
  }

  lemma {:induction false} RunAccounts(cfg: Config, s: System, acts: seq<Action>)
    requires Init(s) && Legal(cfg, s, acts)
    ensures Accounted(Exec(cfg, s, acts).queue)
    ensures |Exec(cfg, s, acts).queue.used| == Enqueues(acts)
  {
    hide Step, Enabled, QueueChanged, Accounted;
    if acts == [] {
      InitIsAccounted(s);
    } else {
      var k := |acts| - 1;
      RunAccounts(cfg, s, acts[..k]);
      var t := Exec(cfg, s, acts[..k]);
      StepChangesQueue(cfg, t, acts[k]);
      ChangeKeepsAccounted(t.queue, Exec(cfg, s, acts).queue, EffectOf(t, acts[k]));
    }
  }

  lemma InitIsAccounted(s: System)
    requires Init(s)
    ensures Accounted(s.queue) && s.queue.used == {}
  {
  }

  /** In every run: enqueued = pending + active + completed + archived + cancelled + evicted. */
  lemma Conservation(cfg: Config, s: System, acts: seq<Action>)
    requires Init(s) && Legal(cfg, s, acts)
    ensures var q := Exec(cfg, s, acts).queue;
            Enqueues(acts) == |InState(q, (t: TaskState) => t.Pending?)| + |InState(q, (t: TaskState) => t.Active?)|
                            + |InState(q, (t: TaskState) => t.Completed?)| + |InState(q, (t: TaskState) => t.Archived?)|
                            + |q.cancelled| + |q.evicted|
  {
    hide Step, Enabled, InState;
    RunAccounts(cfg, s, acts);
    var q := Exec(cfg, s, acts).queue;
    StatesPartition(q);
    assert |q.used| == |q.tasks.Keys + q.cancelled| + |q.evicted|;
  }

  lemma StatesPartition(q: Queue)
    ensures |q.tasks.Keys| == |InState(q, (t: TaskState) => t.Pending?)| + |InState(q, (t: TaskState) => t.Active?)|
                            + |InState(q, (t: TaskState) => t.Completed?)| + |InState(q, (t: TaskState) => t.Archived?)|
  {
    var p, a := InState(q, (t: TaskState) => t.Pending?), InState(q, (t: TaskState) => t.Active?);
    var c, f := InState(q, (t: TaskState) => t.Completed?), InState(q, (t: TaskState) => t.Archived?);
    assert q.tasks.Keys == p + a + c + f;
    assert p !! a && (p + a) !! c && (p + a + c) !! f;
    assert |p + a| == |p| + |a| && |p + a + c| == |p + a| + |c|;
  }

  /* ----------------------------------- an active task is never removed */

  /** Whatever DELETE and the sweep do in between, a task that was active stays
      so until the worker finishes it. */
  lemma {:induction false} ActiveUntilFinished(cfg: Config, s: System, acts: seq<Action>, id: Id)
    requires Legal(cfg, s, acts) && id in s.queue.tasks && s.queue.tasks[id].Active? && id in s.queue.used
    requires forall a <- acts :: !(a.Work? && a.id == id && a.work.Finish?)
    ensures var q := Exec(cfg, s, acts).queue; id in q.tasks && q.tasks[id].Active? && id in q.used
  {
    hide Step, Enabled;
    if acts != [] {
      var k := |acts| - 1;
      ActiveUntilFinished(cfg, s, acts[..k], id);
      StepChangesQueue(cfg, Exec(cfg, s, acts[..k]), acts[k]);
      assert acts[k] in acts;
    }
  }

  /** A task seen pending, if it is still there, is pending if and only if the worker
      did not start it meanwhile. */
  lemma {:induction false} PendingUntilStarted(cfg: Config, s: System, acts: seq<Action>, id: Id)
    requires Legal(cfg, s, acts) && id in s.queue.tasks && s.queue.tasks[id].Pending? && id in s.queue.used
    ensures var q := Exec(cfg, s, acts).queue;
            id in q.used && (id in q.tasks ==> (q.tasks[id].Pending? <==> Work(id, Start) !in acts))
  {
    hide Step, Enabled, EffectOf, QueueChanged, Allows;
    if acts != [] {
      var k := |acts| - 1;
      PendingUntilStarted(cfg, s, acts[..k], id);
      var t := Exec(cfg, s, acts[..k]);
      StepChangesQueue(cfg, t, acts[k]);
      EffectOnPending(t.queue, Exec(cfg, s, acts).queue, acts[k], EffectOf(t, acts[k]), id);
      assert Work(id, Start) in acts <==> Work(id, Start) in acts[..k] || acts[k] == Work(id, Start) by {
        assert acts == acts[..k] + [acts[k]];
      }
    }
  }

  lemma EffectOnPending(q: Queue, r: Queue, a: Action, e: QueueEffect, id: Id)
    requires QueueChanged(q, r, e) && Allows(a, e) && id in q.used
    ensures id in r.used
    ensures id in r.tasks ==>
              id in q.tasks && (r.tasks[id].Pending? <==> q.tasks[id].Pending? && a != Work(id, Start))
  {
  }

  /** What DeleteTask does for a DELETE that saw the task pending, after any steps
      of the others: an active task stays; a finished one goes, result and all,
      and the client reads "cancelled" although the build ran. That happens just
      if the worker started the task in between and is through with it. */
  lemma DeleteAfterInspect(cfg: Config, s: System, acts: seq<Action>, h: Handler, id: Id)
    requires Legal(cfg, s, acts) && id in s.queue.tasks && s.queue.tasks[id].Pending? && id in s.queue.used
    requires var t := Exec(cfg, s, acts); h in t.deletes && t.deletes[h] == ToDelete(id)
    ensures var t := Exec(cfg, s, acts);
            var u := DeleteStep(t, h, DeleteTask);
            if id !in t.queue.tasks || t.queue.tasks[id].Active? then
              u.queue == t.queue && h !in u.deletes
            else
              && id !in u.queue.tasks && id in u.queue.cancelled && u.deletes[h] == ToUntrack(id)
              && (t.queue.tasks[id].Finished() <==> Work(id, Start) in acts)
  {
    hide Step, Enabled;
    PendingUntilStarted(cfg, s, acts, id);
  }

  /** Such a run: the task is started and finished between the two calls of a
      DELETE, which then drops the result and answers "cancelled". */
  lemma CancelledAfterCompletion(cfg: Config, s: System, id: Id) returns (acts: seq<Action>, t: System)
    requires Init(s) && cfg.handlers > 0
    ensures Reaches(cfg, s, acts, t)
    ensures t.deletes == map[0 := ToDelete(id)] && id in t.queue.tasks && t.queue.tasks[id].Completed?
    ensures var u := DeleteStep(t, 0, DeleteTask);
            id in u.queue.cancelled && id !in u.queue.tasks && u.deletes[0] == ToUntrack(id)
  {
    acts, t := QueueOne(cfg, s, id);
    hide PostStep, PostEnabled, SweepStep, SweepEnabled, GetStep, GetEnabled, SocketStep, SocketEnabled, Legal, Exec;
    var inspect, finish := Delete(0, Inspect(id)), Work(id, Finish(Completed));
    ReachNext(cfg, s, acts, t, inspect);
    acts, t := acts + [inspect], Step(cfg, t, inspect);
    ReachNext(cfg, s, acts, t, Work(id, Start));
    acts, t := acts + [Work(id, Start)], Step(cfg, t, Work(id, Start));
    ReachNext(cfg, s, acts, t, finish);
    acts, t := acts + [finish], Step(cfg, t, finish);
  }

  /* --------------------------------------------------- admission bound */

  ghost predicate Admission(cfg: Config, s: System) {
    && |s.posts.admitted| <= cfg.handlers
    && s.queue.Size() + |s.posts.admitted| <= cfg.maxQueue + cfg.handlers
  }

  lemma LiveOfMove(q: Queue, id: Id, to: TaskState)
    ensures q.Move(id, to).Live() == if to.Finished() then q.Live() - {id} else q.Live() + {id}
    ensures q.Enqueue(id).Live() == q.Live() + {id}
    ensures q.Evict(id).Live() == q.Live() - {id}
    ensures q.Deletable(id) ==> q.DeleteTask(id).Live() == q.Live() - {id}
    ensures id in q.Live() <==> id in q.tasks && !q.tasks[id].Finished()
  {
  }

  lemma ChangeOfSize(q: Queue, r: Queue, e: QueueEffect)
    requires QueueChanged(q, r, e)
    ensures r.Size() <= q.Size() + (if e.Added? then 1 else 0)
  {
    hide Queue.Live;
    var live := q.Live();
    if !e.Unchanged? {
      LiveOfMove(q, e.id, if e.Moved? then e.to else Pending);
      assert e.Moved? && e.to.Active? ==> live + {e.id} == live;
    }
  }

  lemma PostChangesAdmitted(cfg: Config, s: System, h: Handler, a: PostAction)
    requires PostEnabled(cfg, s, h, a)
    ensures var x, y := s.posts.admitted, PostStep(cfg, s, h, a).posts.admitted;
            match a
            case Track => y == x
            case Check(known) =>
              if Overloaded(cfg, s, known) then y == x
              else s.queue.Size() <= cfg.maxQueue && |x| < cfg.handlers && h !in x && y == x + {h}
            case _ => h in x && y == x - {h}
  {
    hide Queue.Size;
  }

  lemma OthersKeepAdmitted(cfg: Config, s: System, a: Action)
    requires Enabled(cfg, s, a) && !a.Post?
    ensures Step(cfg, s, a).posts == s.posts
  {
    hide Gets.Ask, Gets.Read, Gets.Reply, Abandoned, LookStep, PostStep, PostEnabled,
      Tracking.UpdateAccess, Tracking.RemoveTask;
  }

  lemma StepOfPost(cfg: Config, s: System, h: Handler, a: PostAction)
    requires Enabled(cfg, s, Post(h, a))
    ensures PostEnabled(cfg, s, h, a) && Step(cfg, s, Post(h, a)) == PostStep(cfg, s, h, a)
  {
    hide PostStep, PostEnabled;
  }

  lemma StepKeepsAdmission(cfg: Config, s: System, a: Action)
    requires Admission(cfg, s) && Enabled(cfg, s, a)
    ensures Admission(cfg, Step(cfg, s, a))
  {
    hide Step, Enabled, QueueChanged, PostStep, PostEnabled, Queue.Size;
    StepChangesQueue(cfg, s, a);
    ChangeOfSize(s.queue, Step(cfg, s, a).queue, EffectOf(s, a));
    if a.Post? {
      StepOfPost(cfg, s, a.h, a.post);
      PostChangesAdmitted(cfg, s, a.h, a.post);
      var admitted := s.posts.admitted;
      assert |admitted - {a.h}| == |admitted| - (if a.h in admitted then 1 else 0);
    } else {
      OthersKeepAdmitted(cfg, s, a);
    }
  }

  /* --------------------------------------------------------- reports */

  function Rank(st: Status): nat {
    match st
    case PENDING => 0
    case PROGRESS => 1
    case _ => 2
  }

  /** Not backwards along PENDING, PROGRESS, SUCCESS or FAILURE. */
  predicate NotBefore(a: Status, b: Status) {
    a == b || Rank(a) < Rank(b)
  }

  ghost predicate Forward(rs: seq<Status>) {
    forall i, j :: 0 <= i < j < |rs| ==> NotBefore(rs[i], rs[j])
  }

  /** The reads of a task go forward and none is ahead of the task; what is
      answered is what was read. */
  ghost predicate ReadsForward(q: Queue, g: Gets) {
    && q.tasks.Keys <= q.used && g.readings.Keys <= q.used
    && (forall id <- g.readings :: Forward(g.readings[id]))
    && (forall id <- g.readings :: id in q.tasks ==> forall r <- g.readings[id] :: NotBefore(r, StatusOf(q.tasks[id])))
  }

  ghost predicate AnswersRead(g: Gets) {
    && (forall h <- g.answering :: var r := g.answering[h];
          r.seen.Some? ==> r.number < |g.ReadsOf(r.id)| && g.ReadsOf(r.id)[r.number] == r.seen.value)
    && (forall id <- g.answers :: forall r <- g.answers[id] ::
          r.number < |g.ReadsOf(id)| && g.ReadsOf(id)[r.number] == r.status)
  }

  ghost predicate GetsSound(cfg: Config, s: System) {
    && ReadsForward(s.queue, s.gets)
    && AnswersRead(s.gets)
    && s.gets.asking.Keys !! s.gets.answering.Keys
    && |s.gets.Handlers()| <= cfg.readers
  }

  lemma OthersKeepGets(cfg: Config, s: System, a: Action)
    requires Enabled(cfg, s, a) && !a.Get?
    ensures Step(cfg, s, a).gets == s.gets
  {
    hide Abandoned, LookStep, Overloaded, Queue.DeleteTask, Queue.Deletable,
      Tracking.UpdateAccess, Tracking.RemoveTask, GetStep, GetEnabled;
  }

  lemma StepOfGet(cfg: Config, s: System, h: Handler, a: GetAction)
    requires Enabled(cfg, s, Get(h, a))
    ensures GetEnabled(cfg, s.gets, a, h)
    ensures var t := Step(cfg, s, Get(h, a));
            && t.queue == s.queue
            && t.gets == match a
                         case Access(id) => s.gets.Ask(h, id)
                         case Read => s.gets.Read(h, s.queue)
                         case Reply => s.gets.Reply(h)
  {
    hide Gets.Ask, Gets.Read, Gets.Reply;
  }

  lemma NotBeforeTransitive(a: Status, b: Status, c: Status)
    requires NotBefore(a, b) && NotBefore(b, c)
    ensures NotBefore(a, c)
  {
  }

  lemma MovesForward(from: TaskState, to: TaskState)
    requires if to.Finished() then from.Active? else to.Active? && from.Pending?
    ensures NotBefore(StatusOf(from), StatusOf(to))
  {
  }

  /** Moves go forward, so what was read stays behind the task's status. */
  lemma MoveKeepsForward(q: Queue, r: Queue, g: Gets, e: QueueEffect)
    requires ReadsForward(q, g) && QueueChanged(q, r, e)
    ensures ReadsForward(r, g)
  {
    hide Forward, NotBefore;
    forall id <- g.readings | id in r.tasks
      ensures forall st <- g.readings[id] :: NotBefore(st, StatusOf(r.tasks[id]))
    {
      if e.Moved? && e.id == id {
        forall st <- g.readings[id]
          ensures NotBefore(st, StatusOf(r.tasks[id]))
        {
          MovesForward(q.tasks[id], e.to);
          NotBeforeTransitive(st, StatusOf(q.tasks[id]), StatusOf(e.to));
        }
      }
    }
  }

  lemma ReadKeepsForward(q: Queue, g: Gets, h: Handler)
    requires ReadsForward(q, g) && h in g.asking
    ensures ReadsForward(q, g.Read(h, q))
  {
    hide StatusOf;
    var id := g.asking[h];
    if id in q.tasks {
      var rs := g.ReadsOf(id);
      forall i | 0 <= i < |rs|
        ensures NotBefore(rs[i], StatusOf(q.tasks[id]))
      {
        assert rs[i] in g.readings[id];
      }
    }
  }

  lemma ReadKeepsAnswers(q: Queue, g: Gets, h: Handler)
    requires AnswersRead(g) && h in g.asking
    ensures AnswersRead(g.Read(h, q))
  {
    hide StatusOf;
  }

  lemma ReplyKeepsAnswers(g: Gets, h: Handler)
    requires AnswersRead(g) && h in g.answering
    ensures AnswersRead(g.Reply(h))
  {
  }

  lemma HandlersChange(g: Gets, h: Handler, q: Queue, id: Id)
    requires g.asking.Keys !! g.answering.Keys
    ensures h !in g.Handlers() ==>
              var r := g.Ask(h, id); r.asking.Keys !! r.answering.Keys && r.Handlers() == g.Handlers() + {h}
    ensures h in g.asking ==>
              var r := g.Read(h, q); r.asking.Keys !! r.answering.Keys && r.Handlers() == g.Handlers()
    ensures h in g.answering ==>
              var r := g.Reply(h); r.asking.Keys !! r.answering.Keys && r.Handlers() == g.Handlers() - {h}
  {
    hide StatusOf;
    assert h in g.asking ==> g.Read(h, q).asking.Keys == g.asking.Keys - {h};
    assert h in g.answering ==> g.Reply(h).answering.Keys == g.answering.Keys - {h};
  }

  lemma StepKeepsGets(cfg: Config, s: System, a: Action)
    requires GetsSound(cfg, s) && Enabled(cfg, s, a)
    ensures GetsSound(cfg, Step(cfg, s, a))
  {
    hide Step, Enabled, QueueChanged, ReadsForward, AnswersRead, Gets.Ask, Gets.Read, Gets.Reply, Gets.Handlers;
    if a.Get? {
      StepOfGet(cfg, s, a.h, a.get);
      HandlersChange(s.gets, a.h, s.queue, if a.get.Access? then a.get.id else "");
      match a.get
      case Access(id) => AskKeepsGets(s.queue, s.gets, a.h, id);
      case Read =>
        ReadKeepsForward(s.queue, s.gets, a.h);
        ReadKeepsAnswers(s.queue, s.gets, a.h);
      case Reply =>
        ReplyKeepsReads(s.queue, s.gets, a.h);
        ReplyKeepsAnswers(s.gets, a.h);
    } else {
      StepChangesQueue(cfg, s, a);
      OthersKeepGets(cfg, s, a);
      MoveKeepsForward(s.queue, Step(cfg, s, a).queue, s.gets, EffectOf(s, a));
    }
  }

  lemma AskKeepsGets(q: Queue, g: Gets, h: Handler, id: Id)
    ensures ReadsForward(q, g) ==> ReadsForward(q, g.Ask(h, id))
    ensures AnswersRead(g) ==> AnswersRead(g.Ask(h, id))
  {
  }

  lemma ReplyKeepsReads(q: Queue, g: Gets, h: Handler)
    requires ReadsForward(q, g) && h in g.answering
    ensures ReadsForward(q, g.Reply(h))
  {
  }

  /* -------------------------------------------------- watched sockets */

  ghost predicate SocketsWatched(cfg: Config, s: System) {
    && (forall id <- s.tracking.lastAccess :: s.tracking.lastAccess[id] <= s.now)
    && (forall h <- s.sockets ::
          var k := s.sockets[h];
          && k.openedAt <= s.now <= Deadline(cfg, k)
          && (k.task in s.tracking.lastAccess ==> s.tracking.lastAccess[k.task] >= k.openedAt))
  }

  datatype TrackingEffect = Kept | Touched(id: Id) | Forgotten(id: Id) | Cleared

  ghost predicate TrackingChanged(s: System, t: System, e: TrackingEffect) {
    match e
    case Kept => t.tracking == s.tracking
    case Touched(id) => t.tracking == s.tracking.UpdateAccess(id, s.now)
    case Forgotten(id) => t.tracking == s.tracking.RemoveTask(id)
    case Cleared => t.tracking == s.tracking.(touched := {})
  }

  function TrackingEffectOf(s: System, a: Action): TrackingEffect {
    match a
    case Post(h, Track) => if h in s.posts.toTrack then Touched(s.posts.toTrack[h]) else Kept
    case Get(h, Access(id)) => Touched(id)
    case Delete(h, Untrack) => if h in s.deletes then Forgotten(s.deletes[h].id) else Kept
    case Sweeping(Begin) => Cleared
    case Sweeping(Forget) => if s.sweep.phase.Untracking? then Forgotten(s.sweep.phase.id) else Kept
    case Log(h, Open(id)) => Touched(id)
    case _ => Kept
  }

  lemma StepChangesTracking(cfg: Config, s: System, a: Action)
    requires Enabled(cfg, s, a)
    ensures TrackingChanged(s, Step(cfg, s, a), TrackingEffectOf(s, a))
  {
    hide Gets.Ask, Gets.Read, Gets.Reply, Abandoned, LookStep, Overloaded, Queue.DeleteTask, Queue.Deletable,
      Tracking.UpdateAccess, Tracking.RemoveTask;
  }

  lemma OthersKeepSockets(cfg: Config, s: System, a: Action)
    requires Enabled(cfg, s, a) && !a.Log?
    ensures Step(cfg, s, a).sockets == s.sockets
    ensures Step(cfg, s, a).now == s.now + (if a.Tick? then a.span else 0)
    ensures a.Tick? ==> forall h <- s.sockets :: s.now + a.span <= Deadline(cfg, s.sockets[h])
  {
    hide Gets.Ask, Gets.Read, Gets.Reply, Abandoned, LookStep, Overloaded, Queue.DeleteTask, Queue.Deletable,
      Tracking.UpdateAccess, Tracking.RemoveTask;
  }

  lemma LogChangesSockets(cfg: Config, s: System, a: Action)
    requires Enabled(cfg, s, a) && a.Log?
    ensures Step(cfg, s, a).now == s.now
    ensures Step(cfg, s, a).sockets == match a.socket
                                       case Open(id) => s.sockets[a.h := Socket(id, s.now)]
                                       case Close => s.sockets - {a.h}
  {
  }

  lemma StepKeepsSocketsWatched(cfg: Config, s: System, a: Action)
    requires SocketsWatched(cfg, s) && Enabled(cfg, s, a)
    ensures SocketsWatched(cfg, Step(cfg, s, a))
  {
    hide Step, Enabled;
    StepChangesTracking(cfg, s, a);
    if a.Log? {
      LogChangesSockets(cfg, s, a);
    } else {
      OthersKeepSockets(cfg, s, a);
    }
  }

  /* ------------------------------------------------------- the sweep */

  /** Of the snapshot, what was not accessed since is dealt with: untracked, or
      left alone because it was active, or still on the list. */
  ghost predicate SweepSound(s: System) {
    && (forall id <- s.sweep.snapshot - s.tracking.touched ::
          id in s.tracking.lastAccess ==> id in s.sweep.sawActive || id in s.sweep.phase.Undone())
    && (forall id <- s.sweep.sawActive :: id in s.queue.used && (id in s.queue.tasks ==> !s.queue.tasks[id].Pending?))
    && s.queue.tasks.Keys <= s.queue.used
  }

  lemma OthersKeepSweep(cfg: Config, s: System, a: Action)
    requires Enabled(cfg, s, a) && !a.Sweeping?
    ensures Step(cfg, s, a).sweep == s.sweep
  {
    hide Gets.Ask, Gets.Read, Gets.Reply, Overloaded, Tracking.UpdateAccess, Tracking.RemoveTask;
  }

  lemma ChangeKeepsSawActive(s: System, t: System, e: QueueEffect, f: TrackingEffect)
    requires SweepSound(s) && t.sweep == s.sweep
    requires QueueChanged(s.queue, t.queue, e) && TrackingChanged(s, t, f) && !f.Cleared?
    ensures SweepSound(t)
  {
  }

  lemma SweepStepKeepsSound(cfg: Config, s: System, a: SweepAction)
    requires SweepSound(s) && SweepEnabled(s, a)
    ensures SweepSound(SweepStep(cfg, s, a))
  {
    hide Abandoned;
  }

  lemma StepOfSweep(cfg: Config, s: System, a: SweepAction)
    requires Enabled(cfg, s, Sweeping(a))
    ensures SweepEnabled(s, a) && Step(cfg, s, Sweeping(a)) == SweepStep(cfg, s, a)
  {
    hide SweepStep, SweepEnabled;
  }

  lemma StepKeepsSweepSound(cfg: Config, s: System, a: Action)
    requires SweepSound(s) && Enabled(cfg, s, a)
    ensures SweepSound(Step(cfg, s, a))
  {
    hide Step, Enabled, SweepSound, QueueChanged, TrackingChanged, SweepStep, SweepEnabled;
    if a.Sweeping? {
      StepOfSweep(cfg, s, a.step);
      SweepStepKeepsSound(cfg, s, a.step);
    } else {
      StepChangesQueue(cfg, s, a);
      StepChangesTracking(cfg, s, a);
      OthersKeepSweep(cfg, s, a);
      ChangeKeepsSawActive(s, Step(cfg, s, a), EffectOf(s, a), TrackingEffectOf(s, a));
    }
  }

  /* -------------------------------------------------------- all runs */

  ghost predicate Inv(cfg: Config, s: System) {
    && Accounted(s.queue)
    && Admission(cfg, s)
    && GetsSound(cfg, s)
    && SocketsWatched(cfg, s)
    && SweepSound(s)
  }

  lemma StepKeepsInv(cfg: Config, s: System, a: Action)
    requires Inv(cfg, s) && Enabled(cfg, s, a)
    ensures Inv(cfg, Step(cfg, s, a))
  {
    hide Step, Enabled, Accounted, Admission, GetsSound, SocketsWatched, SweepSound, QueueChanged;
    StepChangesQueue(cfg, s, a);
    ChangeKeepsAccounted(s.queue, Step(cfg, s, a).queue, EffectOf(s, a));
    StepKeepsAdmission(cfg, s, a);
    StepKeepsGets(cfg, s, a);
    StepKeepsSocketsWatched(cfg, s, a);
    StepKeepsSweepSound(cfg, s, a);
  }

  lemma InitHolds(cfg: Config, s: System)
    requires Init(s)
    ensures Inv(cfg, s)
  {
  }

  lemma {:induction false} RunsKeepInv(cfg: Config, s: System, acts: seq<Action>)
    requires Init(s) && Legal(cfg, s, acts)
    ensures Inv(cfg, Exec(cfg, s, acts))
  {
    hide Step, Enabled, Inv;
    if acts == [] {
      InitHolds(cfg, s);
    } else {
      var k := |acts| - 1;
      RunsKeepInv(cfg, s, acts[..k]);
      StepKeepsInv(cfg, Exec(cfg, s, acts[..k]), acts[k]);
    }
  }

  /** Pending and active tasks plus admissions under way never exceed
      MAX_QUEUE_SIZE plus the number of concurrent POST handlers. */
  lemma AdmissionBound(cfg: Config, s: System, acts: seq<Action>)
    requires Init(s) && Legal(cfg, s, acts)
    ensures var t := Exec(cfg, s, acts);
            t.queue.Size() + |t.posts.admitted| <= cfg.maxQueue + cfg.handlers
  {
    hide Step, Enabled;
    RunsKeepInv(cfg, s, acts);
  }

  /* The bound is reached: everybody checks before anybody enqueues. */

  /** `checked` handlers have passed the check, the first `enqueued` of them have
      enqueued; handler and task IDs count up. */
  ghost predicate Rush(s: System, enqueued: nat, checked: nat) {
    && enqueued <= checked
    && s.queue.Size() == enqueued && s.queue.tasks.Keys <= s.queue.used
    && (forall id <- s.queue.used :: |id| < enqueued)
    && (forall h <- s.posts.toTrack :: h < enqueued)
    && (forall h :: h in s.posts.admitted <==> enqueued <= h < checked)
    && |s.posts.admitted| == checked - enqueued
  }

  lemma CheckOne(cfg: Config, s: System, enqueued: nat, checked: nat)
    requires Rush(s, enqueued, checked) && enqueued <= cfg.maxQueue && checked - enqueued < cfg.handlers
    ensures Enabled(cfg, s, Post(checked, Check(true)))
    ensures Rush(Step(cfg, s, Post(checked, Check(true))), enqueued, checked + 1)
  {
    hide Queue.Size;
  }

  lemma EnqueueOne(cfg: Config, s: System, enqueued: nat, checked: nat, id: Id)
    requires Rush(s, enqueued, checked) && enqueued < checked && |id| == enqueued
    ensures Enabled(cfg, s, Post(enqueued, Enqueue(id)))
    ensures Rush(Step(cfg, s, Post(enqueued, Enqueue(id))), enqueued + 1, checked)
  {
    LiveOfMove(s.queue, id, Pending);
    hide Queue.Live;
    assert id !in s.queue.Live();
  }

  /** A run to `checked` admissions with `enqueued` of them enqueued. */
  lemma {:induction false} RushTo(cfg: Config, s: System, enqueued: nat, checked: nat) returns (acts: seq<Action>)
    requires Init(s) && enqueued <= checked <= enqueued + cfg.handlers
    requires checked <= cfg.maxQueue + cfg.handlers && cfg.handlers > 0
    ensures Legal(cfg, s, acts) && Rush(Exec(cfg, s, acts), enqueued, checked)
    decreases enqueued + checked
  {
    hide Step, Enabled, Rush;
    if checked == 0 {
      acts := [];
      InitIsRush(s);
    } else if enqueued <= cfg.maxQueue && enqueued < checked {
      acts := RushTo(cfg, s, enqueued, checked - 1);
      acts := CheckNext(cfg, s, acts, enqueued, checked - 1);
    } else {
      acts := RushTo(cfg, s, enqueued - 1, checked);
      acts := EnqueueNext(cfg, s, acts, enqueued - 1, checked);
    }
  }

  lemma CheckNext(cfg: Config, s: System, acts0: seq<Action>, enqueued: nat, checked: nat) returns (acts: seq<Action>)
    requires Legal(cfg, s, acts0) && Rush(Exec(cfg, s, acts0), enqueued, checked)
    requires enqueued <= cfg.maxQueue && checked - enqueued < cfg.handlers
    ensures Legal(cfg, s, acts) && Rush(Exec(cfg, s, acts), enqueued, checked + 1)
  {
    hide Step, Enabled, Rush;
    CheckOne(cfg, Exec(cfg, s, acts0), enqueued, checked);
    ExecNext(cfg, s, acts0, Post(checked, Check(true)));
    acts := acts0 + [Post(checked, Check(true))];
  }

  lemma EnqueueNext(cfg: Config, s: System, acts0: seq<Action>, enqueued: nat, checked: nat) returns (acts: seq<Action>)
    requires Legal(cfg, s, acts0) && Rush(Exec(cfg, s, acts0), enqueued, checked) && enqueued < checked
    ensures Legal(cfg, s, acts) && Rush(Exec(cfg, s, acts), enqueued + 1, checked)
  {
    hide Step, Enabled, Rush;
    var id := seq(enqueued, _ => '1');
    EnqueueOne(cfg, Exec(cfg, s, acts0), enqueued, checked, id);
    ExecNext(cfg, s, acts0, Post(enqueued, Enqueue(id)));
    acts := acts0 + [Post(enqueued, Enqueue(id))];
  }

  lemma InitIsRush(s: System)
    requires Init(s)
    ensures Rush(s, 0, 0)
  {
  }

  /** With any number of handlers the bound is met by pending tasks alone: one
      client at a time gets MAX_QUEUE_SIZE + 1 tasks in. */
  lemma AdmissionBoundIsMet(cfg: Config, s: System) returns (acts: seq<Action>)
    requires Init(s) && cfg.handlers > 0
    ensures Legal(cfg, s, acts) && Exec(cfg, s, acts).queue.Size() == cfg.maxQueue + cfg.handlers
  {
    acts := RushTo(cfg, s, cfg.maxQueue + cfg.handlers, cfg.maxQueue + cfg.handlers);
  }

  /** Of two answers about a task the later one is behind the earlier one if and only if
      its GetTaskInfo came first and saw another status. In the order of their
      reads the answers never go backwards. */
  lemma AnswersFollowReads(cfg: Config, s: System, acts: seq<Action>, id: Id, i: nat, j: nat)
    requires Init(s) && Legal(cfg, s, acts) && i < j < |Exec(cfg, s, acts).gets.AnswersOf(id)|
    ensures var rs := Exec(cfg, s, acts).gets.AnswersOf(id);
            NotBefore(rs[i].status, rs[j].status) <==> rs[i].number <= rs[j].number || rs[i].status == rs[j].status
  {
    hide Step, Enabled, Inv, GetsSound, Init;
    RunsKeepInv(cfg, s, acts);
    InvHasGets(cfg, Exec(cfg, s, acts));
    AnswersFollow(cfg, Exec(cfg, s, acts), id, i, j);
  }

  lemma AnswersFollow(cfg: Config, s: System, id: Id, i: nat, j: nat)
    requires GetsSound(cfg, s) && i < j < |s.gets.AnswersOf(id)|
    ensures var rs := s.gets.AnswersOf(id);
            NotBefore(rs[i].status, rs[j].status) <==> rs[i].number <= rs[j].number || rs[i].status == rs[j].status
  {
    var rs := s.gets.AnswersOf(id);
    AnswerWasRead(s.gets, id, i);
    AnswerWasRead(s.gets, id, j);
    assert Forward(s.gets.ReadsOf(id));
  }

  lemma AnswerWasRead(g: Gets, id: Id, i: nat)
    requires AnswersRead(g) && i < |g.AnswersOf(id)|
    ensures var r := g.AnswersOf(id)[i]; r.number < |g.ReadsOf(id)| && g.ReadsOf(id)[r.number] == r.status
  {
    assert g.AnswersOf(id)[i] in g.answers[id];
  }

  ghost predicate AnswersForward(g: Gets) {
    forall id <- g.answers :: forall i, j :: 0 <= i < j < |g.answers[id]| ==>
      NotBefore(g.answers[id][i].status, g.answers[id][j].status)
  }

  /** Answers are given in the order of the reads, and what is being answered was
      read after all that was answered. */
  ghost predicate InOrder(g: Gets) {
    && (forall id <- g.answers :: forall i, j :: 0 <= i < j < |g.answers[id]| ==>
          g.answers[id][i].number < g.answers[id][j].number)
    && (forall h <- g.answering :: g.answering[h].seen.Some? ==>
          forall r <- g.AnswersOf(g.answering[h].id) :: r.number < g.answering[h].number)
  }

  lemma NobodyElse(g: Gets, h: Handler)
    requires |g.Handlers()| <= 1 && g.asking.Keys !! g.answering.Keys && h in g.Handlers()
    ensures g.answering.Keys == if h in g.answering then {h} else {}
  {
    forall k <- g.answering
      ensures k == h
    {
      if k != h {
        TwoKeys(g.Handlers(), h, k);
      }
    }
  }

  lemma TwoKeys(keys: set<Handler>, h: Handler, k: Handler)
    requires h in keys && k in keys && h != k
    ensures |keys| >= 2
  {
    assert |keys - {h} - {k}| == |keys| - 2;
  }

  lemma ReadKeepsOrder(q: Queue, g: Gets, h: Handler)
    requires InOrder(g) && AnswersRead(g) && h in g.asking && g.answering.Keys == {}
    ensures InOrder(g.Read(h, q))
  {
    hide StatusOf;
  }

  lemma ReplyKeepsOrder(g: Gets, h: Handler)
    requires InOrder(g) && h in g.answering && g.answering.Keys <= {h}
    ensures InOrder(g.Reply(h))
  {
  }

  lemma StepKeepsOrder(cfg: Config, s: System, a: Action)
    requires cfg.readers <= 1 && GetsSound(cfg, s) && InOrder(s.gets) && Enabled(cfg, s, a)
    ensures InOrder(Step(cfg, s, a).gets)
  {
    hide Step, Enabled, InOrder, ReadsForward, AnswersRead;
    if !a.Get? {
      OthersKeepGets(cfg, s, a);
    } else {
      StepOfGet(cfg, s, a.h, a.get);
      match a.get
      case Access(id) => AskKeepsOrder(s.gets, a.h, id);
      case Read =>
        NobodyElse(s.gets, a.h);
        ReadKeepsOrder(s.queue, s.gets, a.h);
      case Reply =>
        NobodyElse(s.gets, a.h);
        ReplyKeepsOrder(s.gets, a.h);
    }
  }

  lemma AskKeepsOrder(g: Gets, h: Handler, id: Id)
    requires InOrder(g)
    ensures InOrder(g.Ask(h, id))
  {
  }

  lemma {:induction false} LoneReaderKeepsOrder(cfg: Config, s: System, acts: seq<Action>)
    requires Init(s) && Legal(cfg, s, acts) && cfg.readers <= 1
    ensures InOrder(Exec(cfg, s, acts).gets)
  {
    hide Step, Enabled, InOrder, Inv, GetsSound;
    if acts == [] {
      InitIsInOrder(s);
    } else {
      var k := |acts| - 1;
      LoneReaderKeepsOrder(cfg, s, acts[..k]);
      RunsKeepInv(cfg, s, acts[..k]);
      InvHasGets(cfg, Exec(cfg, s, acts[..k]));
      StepKeepsOrder(cfg, Exec(cfg, s, acts[..k]), acts[k]);
    }
  }

  lemma InitIsInOrder(s: System)
    requires Init(s)
    ensures InOrder(s.gets)
  {
  }

  lemma InvHasGets(cfg: Config, s: System)
    requires Inv(cfg, s)
    ensures GetsSound(cfg, s)
  {
  }

  lemma OrderedIsForward(q: Queue, g: Gets)
    requires InOrder(g) && AnswersRead(g) && ReadsForward(q, g)
    ensures AnswersForward(g)
  {
    hide NotBefore;
    forall id <- g.answers, i, j | 0 <= i < j < |g.answers[id]|
      ensures NotBefore(g.answers[id][i].status, g.answers[id][j].status)
    {
      var rs := g.answers[id];
      assert rs[i] in rs && rs[j] in rs;
      assert g.ReadsOf(id) == g.readings[id];
    }
  }

  lemma {:induction false} NothingIsQueued(cfg: Config, s: System, acts: seq<Action>)
    requires Init(s) && Legal(cfg, s, acts) && cfg.handlers == 0
    ensures AnswersForward(Exec(cfg, s, acts).gets)
  {
    hide Step, Enabled, Inv, Init, GetsSound, AnswersForward;
    RunsKeepInv(cfg, s, acts);
    InvHasGets(cfg, Exec(cfg, s, acts));
    NothingIsUsed(cfg, s, acts);
    NoneReadNoneAnswered(cfg, Exec(cfg, s, acts));
  }

  lemma NoneReadNoneAnswered(cfg: Config, s: System)
    requires GetsSound(cfg, s) && s.queue.used == {}
    ensures AnswersForward(s.gets)
  {
    hide NotBefore;
    forall id <- s.gets.answers
      ensures s.gets.answers[id] == []
    {
      if s.gets.AnswersOf(id) != [] {
        AnswerWasRead(s.gets, id, 0);
      }
    }
  }

  lemma {:induction false} NothingIsUsed(cfg: Config, s: System, acts: seq<Action>)
    requires Init(s) && Legal(cfg, s, acts) && cfg.handlers == 0
    ensures Exec(cfg, s, acts).queue.used == {}
  {
    if acts != [] {
      hide Step, Enabled, Inv, Init;
      var k := |acts| - 1;
      NothingIsUsed(cfg, s, acts[..k]);
      var t := Exec(cfg, s, acts[..k]);
      RunsKeepInv(cfg, s, acts[..k]);
      StepChangesQueue(cfg, t, acts[k]);
      NobodyEnqueues(cfg, t, acts[k]);
    }
  }

  lemma NobodyEnqueues(cfg: Config, s: System, a: Action)
    requires Inv(cfg, s) && Enabled(cfg, s, a) && cfg.handlers == 0
    ensures !(a.Post? && a.post.Enqueue?)
  {
  }

  ghost predicate Reaches(cfg: Config, s: System, acts: seq<Action>, t: System) {
    Legal(cfg, s, acts) && Exec(cfg, s, acts) == t
  }

  lemma ReachNext(cfg: Config, s: System, acts: seq<Action>, t: System, a: Action)
    requires Reaches(cfg, s, acts, t) && Enabled(cfg, t, a)
    ensures Reaches(cfg, s, acts + [a], Step(cfg, t, a))
  {
    hide Step, Enabled;
    ExecNext(cfg, s, acts, a);
  }

  lemma ReachStart(cfg: Config, s: System)
    ensures Reaches(cfg, s, [], s)
  {
  }

  /** One task in an otherwise untouched system. */
  ghost predicate OneTask(s: System, t: System, id: Id, state: TaskState) {
    && t.queue == Queue(map[id := state], {id}, {}, {})
    && t.gets == s.gets && t.deletes == s.deletes
  }

  lemma QueueOne(cfg: Config, s: System, id: Id) returns (acts: seq<Action>, t: System)
    requires Init(s) && cfg.handlers > 0
    ensures Reaches(cfg, s, acts, t) && OneTask(s, t, id, Pending)
  {
    hide SweepStep, SweepEnabled, DeleteStep, DeleteEnabled, SocketStep, SocketEnabled, GetStep, GetEnabled,
      Legal, Exec;
    var check, enqueue := Post(0, Check(true)), Post(0, Enqueue(id));
    ReachStart(cfg, s);
    ReachNext(cfg, s, [], s, check);
    t := Step(cfg, s, check);
    ReachNext(cfg, s, [] + [check], t, enqueue);
    acts := [] + [check] + [enqueue];
    t := Step(cfg, t, enqueue);
  }

  lemma GetNext(cfg: Config, s: System, acts0: seq<Action>, t0: System, h: Handler, a: GetAction)
    returns (acts: seq<Action>, t: System)
    requires Reaches(cfg, s, acts0, t0) && GetEnabled(cfg, t0.gets, a, h)
    ensures Reaches(cfg, s, acts, t) && t.queue == t0.queue
    ensures t.gets == match a
                      case Access(id) => t0.gets.Ask(h, id)
                      case Read => t0.gets.Read(h, t0.queue)
                      case Reply => t0.gets.Reply(h)
  {
    hide Reaches, Gets.Ask, Gets.Read, Gets.Reply;
    ReachNext(cfg, s, acts0, t0, Get(h, a));
    acts, t := acts0 + [Get(h, a)], Step(cfg, t0, Get(h, a));
  }

  function PendingRead(id: Id): Gets {
    Gets(map[], map[0 := Reading(id, Some(PENDING), 0)], map[id := [PENDING]], map[])
  }

  lemma FirstRead(id: Id, q: Queue)
    requires id in q.tasks && q.tasks[id].Pending?
    ensures Gets(map[], map[], map[], map[]).Ask(0, id).Read(0, q) == PendingRead(id)
  {
    var g := Gets(map[], map[], map[], map[]).Ask(0, id);
    assert g.asking == map[0 := id] && g.asking - {0} == map[];
    assert g.ReadsOf(id) + [PENDING] == [PENDING];
  }

  /** GET 0 reads, and only then the worker starts the task. */
  lemma ReadThenStart(cfg: Config, s: System, id: Id) returns (acts: seq<Action>, t: System)
    requires Init(s) && cfg.handlers > 0 && cfg.readers > 0
    ensures Reaches(cfg, s, acts, t) && id in t.queue.tasks && t.queue.tasks[id].Active?
    ensures t.gets == PendingRead(id)
  {
    hide Reaches, PendingRead, PostStep, GetStep, SweepStep, DeleteStep, SocketStep, Gets.Ask, Gets.Read, Gets.Reply;
    acts, t := QueueOne(cfg, s, id);
    NobodyAsks(cfg, t.gets, id);
    FirstRead(id, t.queue);
    acts, t := GetNext(cfg, s, acts, t, 0, Access(id));
    acts, t := GetNext(cfg, s, acts, t, 0, Read);
    ReachNext(cfg, s, acts, t, Work(id, Start));
    acts, t := acts + [Work(id, Start)], Step(cfg, t, Work(id, Start));
  }

  lemma NobodyAsks(cfg: Config, g: Gets, id: Id)
    requires g.asking == map[] && g.answering == map[] && cfg.readers > 0
    ensures GetEnabled(cfg, g, Access(id), 0) && GetEnabled(cfg, g.Ask(0, id), Read, 0)
  {
  }

  lemma SecondRead(cfg: Config, id: Id, q: Queue)
    requires id in q.tasks && q.tasks[id].Active? && cfg.readers > 1
    ensures var g := PendingRead(id);
            && GetEnabled(cfg, g, Access(id), 1) && GetEnabled(cfg, g.Ask(1, id), Read, 1)
            && var r := g.Ask(1, id).Read(1, q);
               && GetEnabled(cfg, r, Reply, 1)
               && r.Reply(1).answering == map[0 := Reading(id, Some(PENDING), 0)]
               && r.Reply(1).answers == map[id := [Given(PROGRESS, 1)]]
  {
    var g := PendingRead(id);
    assert g.Handlers() == {0} && g.Ask(1, id).Handlers() == {0, 1};
    var r := g.Ask(1, id).Read(1, q);
    assert r.answering[1] == Reading(id, Some(PROGRESS), 1);
    assert r.AnswersOf(id) + [Given(PROGRESS, 1)] == [Given(PROGRESS, 1)];
  }

  /** A second GET reads and answers while the first one has not answered yet. */
  lemma SecondAnswersFirst(cfg: Config, s: System, acts0: seq<Action>, t0: System, id: Id)
    returns (acts: seq<Action>, t: System)
    requires Reaches(cfg, s, acts0, t0) && cfg.readers > 1 && id in t0.queue.tasks && t0.queue.tasks[id].Active?
    requires t0.gets == PendingRead(id)
    ensures Reaches(cfg, s, acts, t)
    ensures t.gets.answering == map[0 := Reading(id, Some(PENDING), 0)]
    ensures t.gets.answers == map[id := [Given(PROGRESS, 1)]]
  {
    hide *;
    SecondRead(cfg, id, t0.queue);
    acts, t := GetNext(cfg, s, acts0, t0, 1, Access(id));
    acts, t := GetNext(cfg, s, acts, t, 1, Read);
    acts, t := GetNext(cfg, s, acts, t, 1, Reply);
  }

  /** Two GETs overlap: the first one reads PENDING, the second one reads and
      answers PROGRESS, and then the first one answers PENDING. */
  lemma OverlappingGets(cfg: Config, s: System, id: Id) returns (acts: seq<Action>)
    requires Init(s) && cfg.handlers > 0 && cfg.readers > 1
    ensures Legal(cfg, s, acts)
    ensures Exec(cfg, s, acts).gets.AnswersOf(id) == [Given(PROGRESS, 1), Given(PENDING, 0)]
    ensures !AnswersForward(Exec(cfg, s, acts).gets)
  {
    hide Init, Legal, Exec, Step, Enabled, PendingRead;
    var t;
    acts, t := ReadThenStart(cfg, s, id);
    acts, t := SecondAnswersFirst(cfg, s, acts, t, id);
    acts, t := GetNext(cfg, s, acts, t, 0, Reply);
    assert t.gets.answers[id] == [Given(PROGRESS, 1), Given(PENDING, 0)];
    assert !NotBefore(t.gets.answers[id][0].status, t.gets.answers[id][1].status);
  }

  /** In no run clients are told of a task going backwards, if and only if no two GETs can
      be at work at once (or nothing can ever be queued). */
  lemma ReportsNeverGoBack(cfg: Config, s: System)
    requires Init(s)
    ensures (forall acts :: Legal(cfg, s, acts) ==> AnswersForward(Exec(cfg, s, acts).gets))
            <==> cfg.readers <= 1 || cfg.handlers == 0
  {
    hide Step, Enabled, Init, AnswersForward;
    if cfg.readers > 1 && cfg.handlers > 0 {
      var acts := OverlappingGets(cfg, s, "task");
    } else {
      forall acts | Legal(cfg, s, acts)
        ensures AnswersForward(Exec(cfg, s, acts).gets)
      {
        if cfg.readers <= 1 {
          LoneReaderKeepsOrder(cfg, s, acts);
          RunsKeepInv(cfg, s, acts);
          InvHasGets(cfg, Exec(cfg, s, acts));
          OrderedIsForward(Exec(cfg, s, acts).queue, Exec(cfg, s, acts).gets);
        } else {
          NothingIsQueued(cfg, s, acts);
        }
      }
    }
  }

  /** After a sweep, whatever ran in between, every ID of its snapshot that was
      not accessed since is untracked or was found active. */
  lemma SweepDealsWithAll(cfg: Config, s: System, acts: seq<Action>, id: Id)
    requires Init(s) && Legal(cfg, s, acts) && Exec(cfg, s, acts).sweep.phase.Idle?
    requires var t := Exec(cfg, s, acts); id in t.sweep.snapshot && id !in t.tracking.touched
    ensures var t := Exec(cfg, s, acts); id !in t.tracking.lastAccess || id in t.sweep.sawActive
  {
    hide Step, Enabled;
    RunsKeepInv(cfg, s, acts);
  }

  ghost predicate TakesWatched(cfg: Config, s: System, acts: seq<Action>) {
    && Legal(cfg, s, acts + [Sweeping(Begin)])
    && (var t := Exec(cfg, s, acts + [Sweeping(Begin)]);
        exists h <- t.sockets :: t.sockets[h].task in t.sweep.snapshot)
  }

  /** No task with an open log socket is ever in a snapshot, if and only if connect
      delay and lifetime bound together are at most the timeout. */
  lemma WatchedTasksAreSafe(cfg: Config, s: System)
    requires Init(s)
    ensures (forall acts :: !TakesWatched(cfg, s, acts)) <==> cfg.connectDelay + cfg.lifetime <= cfg.timeout
  {
    hide TakesWatched, Init;
    if cfg.connectDelay + cfg.lifetime <= cfg.timeout {
      forall acts
        ensures !TakesWatched(cfg, s, acts)
      {
        WatchedIsSafe(cfg, s, acts);
      }
    } else {
      var acts := OutlivingSocket(cfg, s);
    }
  }

  lemma WatchedIsSafe(cfg: Config, s: System, acts: seq<Action>)
    requires Init(s) && cfg.connectDelay + cfg.lifetime <= cfg.timeout
    ensures !TakesWatched(cfg, s, acts)
  {
    hide Step, Enabled, Init;
    var all := acts + [Sweeping(Begin)];
    if Legal(cfg, s, all) {
      assert all[..|all| - 1] == acts;
      RunsKeepInv(cfg, s, acts);
      SnapshotSparesWatched(cfg, Exec(cfg, s, acts));
    }
  }

  lemma SnapshotSparesWatched(cfg: Config, s: System)
    requires Inv(cfg, s) && Enabled(cfg, s, Sweeping(Begin)) && cfg.connectDelay + cfg.lifetime <= cfg.timeout
    ensures var t := Step(cfg, s, Sweeping(Begin)); forall h <- t.sockets :: t.sockets[h].task !in t.sweep.snapshot
  {
  }

  lemma OutlivingSocket(cfg: Config, s: System) returns (acts: seq<Action>)
    requires Init(s) && cfg.connectDelay + cfg.lifetime > cfg.timeout
    ensures TakesWatched(cfg, s, acts)
  {
    var open, wait := Log(0, Open("task")), Tick(cfg.connectDelay + cfg.lifetime);
    assert Exec(cfg, s, []) == s && [] + [open] == [open];
    ExecNext(cfg, s, [], open);
    ExecNext(cfg, s, [open], wait);
    acts := [open] + [wait];
    ExecNext(cfg, s, acts, Sweeping(Begin));
    var t := Exec(cfg, s, acts + [Sweeping(Begin)]);
    assert 0 in t.sockets && t.sockets[0].task in t.sweep.snapshot;
  }
}
