/** The request handlers and the abandonment sweep in the form
    backend/cmd/server/main.go gives them, proved to take only steps of
    TaskQueue, with any steps of the other parties in between. */
module TaskServer {
  import opened AccessTracker
  import opened Decimal
  import opened TaskQueue
  import opened Tasks

  /** One handler call, or the sweep's goroutine. */
  datatype Party = ThePost(h: Handler) | TheGet(h: Handler) | TheDelete(h: Handler) | TheSweep

  predicate Owns(p: Party, a: Action) {
    match p
    case ThePost(h) => a.Post? && a.h == h
    case TheGet(h) => a.Get? && a.h == h
    case TheDelete(h) => a.Delete? && a.h == h
    case TheSweep => a.Sweeping?
  }

  predicate SameAt<K, V(==)>(m: map<K, V>, n: map<K, V>, k: K) {
    if k in m then k in n && n[k] == m[k] else k !in n
  }

  /** What only the party itself changes. */
  predicate SameOwn(p: Party, s: System, t: System) {
    match p
    case ThePost(h) =>
      (h in t.posts.admitted <==> h in s.posts.admitted) && SameAt(s.posts.toTrack, t.posts.toTrack, h)
    case TheGet(h) => SameAt(s.gets.asking, t.gets.asking, h) && SameAt(s.gets.answering, t.gets.answering, h)
    case TheDelete(h) => SameAt(s.deletes, t.deletes, h)
    case TheSweep => t.sweep == s.sweep
  }

  /** What no step takes back. */
  ghost predicate Grows(s: System, t: System) {
    && s.queue.used <= t.queue.used
    && s.queue.cancelled <= t.queue.cancelled
    && forall id :: s.gets.AnswersOf(id) <= t.gets.AnswersOf(id)
  }

  lemma StepGrows(cfg: Config, s: System, a: Action)
    requires Enabled(cfg, s, a)
    ensures Grows(s, Step(cfg, s, a))
  {
    hide Step, Enabled, StatusOf;
    StepChangesQueue(cfg, s, a);
    if a.Get? {
      StepOfGet(cfg, s, a.h, a.get);
    } else {
      OthersKeepGets(cfg, s, a);
    }
  }

  lemma OthersKeepHandlers(cfg: Config, s: System, a: Action)
    requires Enabled(cfg, s, a)
    ensures !a.Delete? ==> Step(cfg, s, a).deletes == s.deletes
  {
    hide Gets.Ask, Gets.Read, Gets.Reply, Abandoned, LookStep, Overloaded, Queue.DeleteTask, Queue.Deletable,
      Tracking.UpdateAccess, Tracking.RemoveTask;
  }

  lemma OtherPostsKeepOwn(cfg: Config, s: System, h: Handler, a: PostAction, other: Handler)
    requires PostEnabled(cfg, s, h, a) && other != h
    ensures SameOwn(ThePost(other), s, PostStep(cfg, s, h, a))
  {
    hide Overloaded, Tracking.UpdateAccess, Queue.Enqueue;
  }

  lemma OtherHandlersStay(g: Gets, h: Handler, other: Handler, q: Queue, id: Id)
    requires other != h
    ensures SameAt(g.asking, g.Ask(h, id).asking, other) && SameAt(g.answering, g.Ask(h, id).answering, other)
    ensures h in g.asking ==>
              SameAt(g.asking, g.Read(h, q).asking, other) && SameAt(g.answering, g.Read(h, q).answering, other)
    ensures h in g.answering ==>
              SameAt(g.asking, g.Reply(h).asking, other) && SameAt(g.answering, g.Reply(h).answering, other)
  {
    hide StatusOf;
  }

  lemma OtherGetsKeepOwn(cfg: Config, s: System, h: Handler, a: GetAction, other: Handler)
    requires GetEnabled(cfg, s.gets, a, h) && other != h
    ensures SameOwn(TheGet(other), s, GetStep(cfg, s, h, a))
  {
    hide SameAt, Tracking.UpdateAccess, Gets.Ask, Gets.Read, Gets.Reply;
    OtherHandlersStay(s.gets, h, other, s.queue, if a.Access? then a.id else "");
  }

  lemma OtherDeletesKeepOwn(s: System, h: Handler, a: DeleteAction, other: Handler)
    requires DeleteEnabled(s, h, a) && other != h
    ensures SameOwn(TheDelete(other), s, DeleteStep(s, h, a))
  {
    hide Queue.DeleteTask, Tracking.RemoveTask;
  }

  lemma OtherStepsKeepOwn(cfg: Config, s: System, a: Action, p: Party)
    requires Enabled(cfg, s, a) && !Owns(p, a)
    ensures SameOwn(p, s, Step(cfg, s, a))
  {
    hide PostStep, PostEnabled, GetStep, GetEnabled, DeleteStep, DeleteEnabled, SweepStep, SweepEnabled,
      SocketStep, SocketEnabled, WorkStep, WorkEnabled, SameOwn;
    SameOwnIfUntouched(p, s, Step(cfg, s, a));
    match (p, a)
    case (ThePost(h), Post(g, post)) => OtherPostsKeepOwn(cfg, s, g, post, h);
    case (TheGet(h), Get(g, get)) => OtherGetsKeepOwn(cfg, s, g, get, h);
    case (TheDelete(h), Delete(g, delete)) => OtherDeletesKeepOwn(s, g, delete, h);
    case (ThePost(_), _) => OthersKeepAdmitted(cfg, s, a);
    case (TheSweep, _) => OthersKeepSweep(cfg, s, a);
    case (TheGet(_), _) => OthersKeepGets(cfg, s, a);
    case _ => OthersKeepHandlers(cfg, s, a);
  }

  lemma SameOwnIfUntouched(p: Party, s: System, t: System)
    ensures p.ThePost? && t.posts == s.posts ==> SameOwn(p, s, t)
    ensures p.TheGet? && t.gets == s.gets ==> SameOwn(p, s, t)
    ensures p.TheDelete? && t.deletes == s.deletes ==> SameOwn(p, s, t)
    ensures p.TheSweep? && t.sweep == s.sweep ==> SameOwn(p, s, t)
  {
  }

  lemma SameOwnTransitive(p: Party, s: System, t: System, u: System)
    requires SameOwn(p, s, t) && SameOwn(p, t, u)
    ensures SameOwn(p, s, u)
  {
  }

  /* ------------------------------------------------ what happens to a party */

  /** It takes a step, or the others run for one slot of their schedule. */
  datatype Event = Mine(a: Action) | Others(slot: seq<Action>)

  /** The others take the steps of a slot that are theirs and enabled. */
  ghost function RunSlot(cfg: Config, p: Party, s: System, slot: seq<Action>): System {
    if slot == [] then s
    else
      var t, a := RunSlot(cfg, p, s, slot[..|slot| - 1]), slot[|slot| - 1];
      if Enabled(cfg, t, a) && !Owns(p, a) then Step(cfg, t, a) else t
  }

  ghost function RunLog(cfg: Config, p: Party, s: System, log: seq<Event>): System {
    if log == [] then s
    else
      var t, e := RunLog(cfg, p, s, log[..|log| - 1]), log[|log| - 1];
      if e.Others? then RunSlot(cfg, p, t, e.slot)
      else if Enabled(cfg, t, e.a) then Step(cfg, t, e.a) else t
  }

  function SlotsOf(log: seq<Event>): seq<seq<Action>> {
    if log == [] then []
    else SlotsOf(log[..|log| - 1]) + (if log[|log| - 1].Others? then [log[|log| - 1].slot] else [])
  }

  /** Its steps are its own and enabled; between two of them the others get one
      slot, as long as there is one. */
  ghost predicate Can(cfg: Config, p: Party, s: System, plan: seq<seq<Action>>, before: seq<Event>, e: Event) {
    var moved := before != [] && before[|before| - 1].Mine?;
    if e.Mine? then
      && Owns(p, e.a) && Enabled(cfg, RunLog(cfg, p, s, before), e.a)
      && (moved ==> SlotsOf(before) == plan)
    else before == [] || moved
  }

  ghost predicate Happened(cfg: Config, p: Party, s: System, plan: seq<seq<Action>>, log: seq<Event>) {
    || log == []
    || (&& Happened(cfg, p, s, plan, log[..|log| - 1])
        && Can(cfg, p, s, plan, log[..|log| - 1], log[|log| - 1]))
  }

  /** The party's own steps. */
  function Own(log: seq<Event>): seq<Action> {
    if log == [] then []
    else Own(log[..|log| - 1]) + (if log[|log| - 1].Mine? then [log[|log| - 1].a] else [])
  }

  lemma Happens(cfg: Config, p: Party, s: System, plan: seq<seq<Action>>, log: seq<Event>, e: Event)
    requires Happened(cfg, p, s, plan, log) && Can(cfg, p, s, plan, log, e)
    ensures Happened(cfg, p, s, plan, log + [e])
    ensures RunLog(cfg, p, s, log + [e]) == if e.Mine? then Step(cfg, RunLog(cfg, p, s, log), e.a)
                                            else RunSlot(cfg, p, RunLog(cfg, p, s, log), e.slot)
    ensures SlotsOf(log + [e]) == SlotsOf(log) + (if e.Others? then [e.slot] else [])
    ensures Own(log + [e]) == Own(log) + (if e.Mine? then [e.a] else [])
  {
    hide Step, Enabled, RunSlot, Owns;
    assert (log + [e])[..|log|] == log;
  }

  lemma {:induction false} SlotIsReached(cfg: Config, p: Party, s0: System, acts: seq<Action>, s: System,
                                         slot: seq<Action>) returns (more: seq<Action>)
    requires Reaches(cfg, s0, acts, s)
    ensures Reaches(cfg, s0, more, RunSlot(cfg, p, s, slot))
  {
    hide Step, Enabled, Reaches, Owns;
    if slot == [] {
      more := acts;
    } else {
      var k := |slot| - 1;
      more := SlotIsReached(cfg, p, s0, acts, s, slot[..k]);
      var t := RunSlot(cfg, p, s, slot[..k]);
      if Enabled(cfg, t, slot[k]) && !Owns(p, slot[k]) {
        ReachNext(cfg, s0, more, t, slot[k]);
        more := more + [slot[k]];
      }
    }
  }

  /** All that happens is a run of TaskQueue. */
  lemma {:induction false} LogIsReached(cfg: Config, p: Party, s: System, log: seq<Event>) returns (acts: seq<Action>)
    ensures Reaches(cfg, s, acts, RunLog(cfg, p, s, log))
  {
    hide Step, Enabled, RunSlot, Legal, Exec;
    if log == [] {
      acts := [];
      ReachStart(cfg, s);
    } else {
      var k := |log| - 1;
      acts := LogIsReached(cfg, p, s, log[..k]);
      var t := RunLog(cfg, p, s, log[..k]);
      if log[k].Others? {
        acts := SlotIsReached(cfg, p, s, acts, t, log[k].slot);
      } else if Enabled(cfg, t, log[k].a) {
        ReachNext(cfg, s, acts, t, log[k].a);
        acts := acts + [log[k].a];
      }
    }
  }

  /** After the first k events the queue was q. */
  ghost predicate QueueWas(cfg: Config, p: Party, s: System, log: seq<Event>, k: nat, q: Queue) {
    k <= |log| && RunLog(cfg, p, s, log[..k]).queue == q
  }

  lemma QueueStillWas(cfg: Config, p: Party, s: System, before: seq<Event>, log: seq<Event>, k: nat, q: Queue)
    requires QueueWas(cfg, p, s, before, k, q) && before <= log
    ensures QueueWas(cfg, p, s, log, k, q)
  {
    assert before[..k] == log[..k];
  }

  /** The state all handlers share, with the access tracker as an object of its own,
      as one party meets it. `plan` is what the others do, one slot at each point
      where they can come in between; `moved`: the party took a step since the last. */
  class World {
    const cfg: Config
    const init: System
    const party: Party
    const plan: seq<seq<Action>>
    const tracker: TaskAccessTracker
    var s: System
    var schedule: seq<seq<Action>>
    var moved: bool
    ghost var log: seq<Event>

    ghost predicate Valid()
      reads this, tracker
    {
      && Init(init)
      && Happened(cfg, party, init, plan, log)
      && s == RunLog(cfg, party, init, log)
      && SlotsOf(log) + schedule == plan
      && (moved <==> log != [] && log[|log| - 1].Mine?)
      && tracker.lastAccess == s.tracking.lastAccess && tracker.timeout == cfg.timeout
    }

    /** The others have had their slot since the party's last step. */
    predicate Ready()
      reads this
    {
      !moved || schedule == []
    }

    constructor (cfg: Config, init: System, party: Party, plan: seq<seq<Action>>, timeoutMinutes: nat)
      requires Init(init) && cfg.timeout == timeoutMinutes * 60_000_000_000
      ensures Valid() && Ready() && s == init == this.init
      ensures this.cfg == cfg && this.party == party && this.plan == plan
      ensures log == [] && fresh(tracker)
    {
      this.cfg, this.init, this.party, this.plan := cfg, init, party, plan;
      s, schedule, moved, log := init, plan, false, [];
      tracker := new TaskAccessTracker(timeoutMinutes);
    }

    lemma TrackerFollows()
      requires Valid()
      ensures tracker.lastAccess == s.tracking.lastAccess && tracker.timeout == cfg.timeout
    {
    }

    lemma Holds()
      requires Valid()
      ensures Inv(cfg, s)
    {
      hide Step, Enabled, Happened, RunSlot, RunLog;
      var acts := LogIsReached(cfg, party, init, log);
      RunsKeepInv(cfg, init, acts);
    }

    /** Any party's step on the state; the tracker follows. */
    method Apply(a: Action)
      requires Enabled(cfg, s, a) && tracker.lastAccess == s.tracking.lastAccess && tracker.timeout == cfg.timeout
      modifies this`s, tracker
      ensures tracker.lastAccess == s.tracking.lastAccess && tracker.timeout == cfg.timeout
      ensures s == Step(cfg, old(s), a) && Grows(old(s), s)
    {
      hide Step, Enabled, TrackingEffectOf;
      StepGrows(cfg, s, a);
      StepChangesTracking(cfg, s, a);
      match TrackingEffectOf(s, a) {
        case Touched(id) => tracker.UpdateAccess(id, s.now);
        case Forgotten(id) => tracker.RemoveTask(id);
        case _ =>
      }
      s := Step(cfg, s, a);
    }

    /** A step of the party itself. */
    method Do(a: Action)
      requires Valid() && Ready() && Owns(party, a) && Enabled(cfg, s, a)
      modifies this`s, this`moved, this`log, tracker
      ensures Valid() && moved && s == Step(cfg, old(s), a) && Grows(old(s), s)
      ensures old(log) <= log && log == old(log) + [Mine(a)] && Own(log) == Own(old(log)) + [a]
      ensures QueueWas(cfg, party, init, log, |old(log)|, old(s.queue))
    {
      hide Step, Enabled, Init, Owns, Own, Happened, RunLog, SlotsOf, Grows;
      assert schedule == [] ==> SlotsOf(log) == plan;
      Happens(cfg, party, init, plan, log, Mine(a));
      log := log + [Mine(a)];
      Apply(a);
      moved := true;
      assert log[..|old(log)|] == old(log);
    }

    /** The other parties run for one slot of the plan, if one is left. */
    method Yield()
      requires Valid() && (moved || log == [] || schedule == [])
      modifies this, tracker
      ensures Valid() && Ready() && SameOwn(party, old(s), s) && Grows(old(s), s)
      ensures old(log) <= log
      ensures log == old(log) + (if old(schedule) == [] then [] else [Others(old(schedule)[0])])
      ensures Own(log) == Own(old(log))
      ensures schedule == if old(schedule) == [] then [] else old(schedule)[1..]
    {
      hide Step, Enabled, Init, SameOwn, Owns, Own, Happened, RunLog, SlotsOf;
      SelfOwn(party, s);
      if schedule == [] {
        return;
      }
      var slot := schedule[0];
      Happens(cfg, party, init, plan, log, Others(slot));
      ghost var begin := s;
      for i := 0 to |slot|
        invariant tracker.lastAccess == s.tracking.lastAccess && tracker.timeout == cfg.timeout
        invariant SameOwn(party, begin, s) && Grows(begin, s) && s == RunSlot(cfg, party, begin, slot[..i])
        invariant log == old(log) && schedule == old(schedule)
      {
        assert slot[..i + 1][..i] == slot[..i];
        if Enabled(cfg, s, slot[i]) && !Owns(party, slot[i]) {
          OtherStepsKeepOwn(cfg, s, slot[i], party);
          SameOwnTransitive(party, begin, s, Step(cfg, s, slot[i]));
          Apply(slot[i]);
        }
      }
      assert slot[..|slot|] == slot;
      log := log + [Others(slot)];
      schedule := schedule[1..];
      moved := false;
      assert SlotsOf(log) + schedule == plan by {
        assert [slot] + old(schedule)[1..] == old(schedule);
      }
    }

    method DoPost(h: Handler, a: PostAction)
      requires Valid() && Ready() && party == ThePost(h) && PostEnabled(cfg, s, h, a)
      modifies this`s, this`moved, this`log, tracker
      ensures Valid() && moved && s == PostStep(cfg, old(s), h, a) && Grows(old(s), s)
      ensures old(log) <= log && log == old(log) + [Mine(Post(h, a))] && Own(log) == Own(old(log)) + [Post(h, a)]
    {
      hide Valid(), PostStep, PostEnabled, Grows, Own;
      Do(Post(h, a));
    }

    method DoGet(h: Handler, a: GetAction)
      requires Valid() && Ready() && party == TheGet(h) && GetEnabled(cfg, s.gets, a, h)
      modifies this`s, this`moved, this`log, tracker
      ensures Valid() && moved && s == GetStep(cfg, old(s), h, a) && Grows(old(s), s)
      ensures old(log) <= log && log == old(log) + [Mine(Get(h, a))] && Own(log) == Own(old(log)) + [Get(h, a)]
      ensures QueueWas(cfg, party, init, log, |old(log)|, old(s.queue))
    {
      hide Valid(), GetStep, GetEnabled, Grows, Own, QueueWas;
      Do(Get(h, a));
    }

    method DoDelete(h: Handler, a: DeleteAction)
      requires Valid() && Ready() && party == TheDelete(h) && DeleteEnabled(s, h, a)
      modifies this`s, this`moved, this`log, tracker
      ensures Valid() && moved && s == DeleteStep(old(s), h, a) && Grows(old(s), s)
      ensures old(log) <= log && log == old(log) + [Mine(Delete(h, a))] && Own(log) == Own(old(log)) + [Delete(h, a)]
    {
      hide Valid(), DeleteStep, DeleteEnabled, Grows, Own;
      Do(Delete(h, a));
    }

    method DoSweep(a: SweepAction)
      requires Valid() && Ready() && party == TheSweep && SweepEnabled(s, a)
      modifies this`s, this`moved, this`log, tracker
      ensures Valid() && moved && s == SweepStep(cfg, old(s), a) && Grows(old(s), s)
      ensures old(log) <= log && log == old(log) + [Mine(Sweeping(a))] && Own(log) == Own(old(log)) + [Sweeping(a)]
    {
      hide Valid(), SweepStep, SweepEnabled, Grows, Own;
      Do(Sweeping(a));
    }
  }

  lemma SelfOwn(p: Party, s: System)
    ensures SameOwn(p, s, s)
  {
  }

  datatype PostReply = Accepted(id: Id) | BadRequest | EnqueueFailed | ServerOverloaded

  /** KicadPostNewTask. `known`: GetQueueInfo answered; `taskID` is the ID asynq
      makes up, and Enqueue fails without Redis or if the ID is taken. */
  method KicadPostNewTask(w: World, h: Handler, known: bool, validJSON: bool, redisUp: bool, taskID: Id)
      returns (reply: PostReply)
    requires w.Valid() && w.Ready() && w.party == ThePost(h)
    requires PostEnabled(w.cfg, w.s, h, Check(known)) && h !in w.s.posts.toTrack
    modifies w, w.tracker
    ensures w.Valid() && h !in w.s.posts.admitted && h !in w.s.posts.toTrack
    ensures old(w.log) <= w.log
    ensures Own(w.log) == Own(old(w.log)) + [Post(h, Check(known))]
              + (match reply
                 case ServerOverloaded => []
                 case Accepted(id) => [Post(h, Enqueue(id)), Post(h, Track)]
                 case _ => [Post(h, Refuse)])
    ensures reply.ServerOverloaded? <==> known && old(w.s.queue.Size()) > w.cfg.maxQueue
    ensures reply.BadRequest? ==> !validJSON
    ensures reply.EnqueueFailed? ==> validJSON && (!redisUp || taskID in w.s.queue.used)
    ensures reply.Accepted? ==> && validJSON && redisUp
                                && reply.id == taskID && taskID in w.s.queue.used && taskID !in old(w.s.queue.used)
                                && taskID in w.tracker.lastAccess && w.tracker.lastAccess[taskID] == w.s.now
  {
    hide w.Valid(), Own, Owns, RunLog, PostStep, Queue.Live, Queue.Enqueue, Tracking.UpdateAccess;
    PostGoesOn(w.cfg, w.s, h, Check(known));
    w.DoPost(h, Check(known));
    if h !in w.s.posts.admitted {
      return ServerOverloaded;
    }
    w.Yield();
    if !validJSON {
      PostGoesOn(w.cfg, w.s, h, Refuse);
      w.DoPost(h, Refuse);
      return BadRequest;
    }
    if !redisUp || taskID in w.s.queue.used {
      PostGoesOn(w.cfg, w.s, h, Refuse);
      w.DoPost(h, Refuse);
      return EnqueueFailed;
    }
    PostGoesOn(w.cfg, w.s, h, Enqueue(taskID));
    w.DoPost(h, Enqueue(taskID));
    w.Yield();
    PostGoesOn(w.cfg, w.s, h, Track);
    w.DoPost(h, Track);
    w.TrackerFollows();
    return Accepted(taskID);
  }

  /** What a POST step does to its own handler. */
  lemma PostGoesOn(cfg: Config, s: System, h: Handler, a: PostAction)
    requires PostEnabled(cfg, s, h, a)
    ensures var t := PostStep(cfg, s, h, a);
            if a.Check? then
              && (h in t.posts.admitted <==> !Overloaded(cfg, s, a.known))
              && t.posts.toTrack == s.posts.toTrack
            else if a.Refuse? then h !in t.posts.admitted && t.posts.toTrack == s.posts.toTrack && t.queue == s.queue
            else if a.Enqueue? then
              && h !in t.posts.admitted && h in t.posts.toTrack && t.posts.toTrack[h] == a.id
              && a.id in t.queue.used
            else
              && t.posts.admitted == s.posts.admitted && h !in t.posts.toTrack
              && s.posts.toTrack[h] in t.tracking.lastAccess && t.tracking.lastAccess[s.posts.toTrack[h]] == t.now
  {
    hide Overloaded;
  }

  /** What the code answers for a task in this state. */
  predicate Answers(q: Queue, id: Id, reply: Option<Status>) {
    && (reply.None? <==> id !in q.tasks)
    && (id in q.tasks ==>
          && (reply.value == PENDING <==> q.tasks[id].Pending?)
          && (reply.value == PROGRESS <==> q.tasks[id].Active?)
          && (reply.value == SUCCESS <==> q.tasks[id].Completed? || q.tasks[id] == Archived(false))
          && (reply.value == FAILURE <==> q.tasks[id] == Archived(true)))
  }

  /** KicadGetTaskStatus: None is 404. The access is recorded, the task's state is
      read, and some time later answered. The answer is not behind any that was
      given before this call, but for one given meanwhile it can be. */
  method KicadGetTaskStatus(w: World, h: Handler, taskID: Id)
    returns (reply: Option<Status>, ghost k: nat, ghost q: Queue)
    requires w.Valid() && w.Ready() && w.party == TheGet(h) && GetEnabled(w.cfg, w.s.gets, Access(taskID), h)
    modifies w, w.tracker
    ensures w.Valid() && h !in w.s.gets.Handlers()
    ensures old(w.log) <= w.log
    ensures Own(w.log) == Own(old(w.log)) + [Get(h, Access(taskID)), Get(h, Read), Get(h, Reply)]
    ensures |old(w.log)| < k < |w.log| && w.log[k] == Mine(Get(h, Read))
    ensures QueueWas(w.cfg, w.party, w.init, w.log, k, q) && Answers(q, taskID, reply)
    ensures reply.Some? ==>
              var given := w.s.gets.AnswersOf(taskID);
              && given != [] && given[|given| - 1].status == reply.value
              && (forall g <- old(w.s.gets.AnswersOf(taskID)) :: NotBefore(g.status, reply.value))
  {
    hide w.Valid(), Own, Owns, RunLog, QueueWas, Grows, GetStep, Gets.Ask, Gets.Read, Gets.Reply, NotBefore, StatusOf,
      Answers;
    ghost var begin := w.s;
    GetGoesOn(w.cfg, w.s, h, Access(taskID));
    w.DoGet(h, Access(taskID));
    ghost var accessed := w.s;
    w.Yield();
    q, k := w.s.queue, |w.log|;
    NeverBehind(w, taskID);
    EarlierAnswers(begin, accessed, w.s, taskID);
    GetGoesOn(w.cfg, w.s, h, Read);
    reply := if taskID in w.s.queue.tasks then Some(StatusOf(w.s.queue.tasks[taskID])) else None;
    StatusAnswers(q, taskID);
    w.DoGet(h, Read);
    ghost var atRead := w.log;
    w.Yield();
    GetGoesOn(w.cfg, w.s, h, Reply);
    w.DoGet(h, Reply);
    QueueStillWas(w.cfg, w.party, w.init, atRead, w.log, k, q);
  }

  lemma EarlierAnswers(s: System, t: System, u: System, id: Id)
    requires Grows(s, t) && Grows(t, u)
    ensures s.gets.AnswersOf(id) <= u.gets.AnswersOf(id)
  {
  }

  lemma StatusAnswers(q: Queue, id: Id)
    ensures Answers(q, id, if id in q.tasks then Some(StatusOf(q.tasks[id])) else None)
  {
  }

  /** What a GET step does to its own handler. */
  lemma GetGoesOn(cfg: Config, s: System, h: Handler, a: GetAction)
    requires GetEnabled(cfg, s.gets, a, h)
    ensures a.Access? ==>
              var g := GetStep(cfg, s, h, a).gets;
              h in g.asking && g.asking[h] == a.id && h !in g.answering
    ensures a.Read? ==>
              var g, id := GetStep(cfg, s, h, a).gets, s.gets.asking[h];
              && h !in g.asking && h in g.answering && g.answering[h].id == id
              && g.answering[h].seen == if id in s.queue.tasks then Some(StatusOf(s.queue.tasks[id])) else None
    ensures a.Reply? ==>
              var g, r := GetStep(cfg, s, h, a).gets, s.gets.answering[h];
              && g.asking == s.gets.asking && h !in g.answering
              && (r.seen.Some? ==> g.AnswersOf(r.id) == s.gets.AnswersOf(r.id) + [Given(r.seen.value, r.number)])
  {
    hide StatusOf, Tracking.UpdateAccess;
  }

  lemma NeverBehind(w: World, id: Id)
    requires w.Valid()
    ensures id in w.s.queue.tasks ==>
              forall g <- w.s.gets.AnswersOf(id) :: NotBefore(g.status, StatusOf(w.s.queue.tasks[id]))
  {
    hide Step, Enabled, StatusOf, NotBefore, Init;
    w.Holds();
    var gets := w.s.gets;
    if id in w.s.queue.tasks {
      forall g <- gets.AnswersOf(id)
        ensures NotBefore(g.status, StatusOf(w.s.queue.tasks[id]))
      {
        var i :| 0 <= i < |gets.AnswersOf(id)| && gets.AnswersOf(id)[i] == g;
        AnswerWasRead(gets, id, i);
        assert g.status in gets.readings[id];
      }
    }
  }

  datatype DeleteReply = Cancelled | NotFound | Conflict | Gone | Failed

  /** KicadDeleteTask. 200 means the task is out of the queue for good; it was
      pending when the handler looked. */
  method KicadDeleteTask(w: World, h: Handler, taskID: Id) returns (reply: DeleteReply)
    requires w.Valid() && w.Ready() && w.party == TheDelete(h) && h !in w.s.deletes
    modifies w, w.tracker
    ensures w.Valid() && h !in w.s.deletes
    ensures old(w.log) <= w.log
    ensures Own(w.log) == Own(old(w.log)) + [Delete(h, Inspect(taskID))]
              + (match reply
                 case Cancelled => [Delete(h, DeleteTask), Delete(h, Untrack)]
                 case Failed => [Delete(h, DeleteTask)]
                 case _ => [])
    ensures reply.NotFound? <==> taskID !in old(w.s.queue.tasks)
    ensures reply.Conflict? <==> taskID in old(w.s.queue.tasks) && old(w.s.queue.tasks[taskID]).Active?
    ensures reply.Gone? <==> taskID in old(w.s.queue.tasks) && old(w.s.queue.tasks[taskID]).Finished()
    ensures reply.Cancelled? ==> taskID !in w.s.queue.tasks && taskID in w.s.queue.cancelled
    ensures reply.Cancelled? ==> taskID !in w.tracker.lastAccess
    ensures reply.Failed? ==> !w.s.queue.Deletable(taskID)
  {
    hide w.Valid(), Own, QueueWas;
    if taskID !in w.s.queue.tasks {
      w.DoDelete(h, Inspect(taskID));
      return NotFound;
    }
    var state := w.s.queue.tasks[taskID];
    w.DoDelete(h, Inspect(taskID));
    match state
    case Active => return Conflict;
    case Completed => return Gone;
    case Archived(_) => return Gone;
    case Pending =>
      w.Yield();
      w.DoDelete(h, DeleteTask);
      if h !in w.s.deletes {
        return Failed;
      }
      w.Yield();
      w.DoDelete(h, Untrack);
      CancelledIsGone(w, taskID);
      w.TrackerFollows();
      return Cancelled;
  }

  lemma CancelledIsGone(w: World, id: Id)
    requires w.Valid() && id in w.s.queue.cancelled
    ensures id !in w.s.queue.tasks
  {
    hide Step, Enabled, Init;
    w.Holds();
  }

  /** checkAbandonedTasks: its list is exactly the tasks idle for longer than the
      timeout; in the end each of them was accessed since, or is untracked, or
      was found active. */
  method CheckAbandonedTasks(w: World)
    requires w.Valid() && w.Ready() && w.party == TheSweep && w.s.sweep.phase.Idle?
    modifies w, w.tracker
    ensures w.Valid() && w.s.sweep.phase.Idle? && old(w.log) <= w.log
    ensures w.s.sweep.snapshot == old(Abandoned(w.tracker.lastAccess, w.tracker.timeout, w.s.now))
    ensures forall id <- w.s.sweep.snapshot ::
              id in w.s.tracking.touched || id !in w.tracker.lastAccess || id in w.s.sweep.sawActive
  {
    hide w.Valid(), Own, QueueWas;
    var abandonedTaskIDs := w.tracker.GetAbandonedTasks(w.s.now);
    w.TrackerFollows();
    ghost var ids := Abandoned(w.tracker.lastAccess, w.tracker.timeout, w.s.now);
    w.DoSweep(Begin);
    w.Yield();
    assert abandonedTaskIDs[0..] == abandonedTaskIDs;
    if |abandonedTaskIDs| == 0 {
      var trackedCount := w.tracker.GetTrackedCount();
    }
    for i := 0 to |abandonedTaskIDs|
      invariant w.Valid() && w.Ready() && old(w.log) <= w.log
      invariant w.s.sweep.phase == Looking(Elems(abandonedTaskIDs[i..]))
      invariant w.s.sweep.snapshot == ids
    {
      var taskID := abandonedTaskIDs[i];
      Rest(abandonedTaskIDs, i);
      HandleAbandonedTask(w, taskID);
      w.Yield();
    }
    w.DoSweep(Done);
    AllDealtWith(w);
  }

  function Elems(ids: seq<Id>): set<Id> {
    set id | id in ids
  }

  lemma Rest(ids: seq<Id>, i: nat)
    requires i < |ids| && forall j, k :: 0 <= j < k < |ids| ==> ids[j] != ids[k]
    ensures ids[i] in ids[i..]
    ensures Elems(ids[i..]) - {ids[i]} == Elems(ids[i + 1..])
  {
    assert ids[i..] == [ids[i]] + ids[i + 1..];
  }

  lemma AllDealtWith(w: World)
    requires w.Valid() && w.s.sweep.phase.Idle?
    ensures forall id <- w.s.sweep.snapshot ::
              id in w.s.tracking.touched || id !in w.tracker.lastAccess || id in w.s.sweep.sawActive
  {
    hide Step, Enabled, Init;
    w.Holds();
  }

  /** The steps an abandoned task is worth, by the state it is found in. */
  function Handling(q: Queue, id: Id): seq<Action> {
    if id !in q.tasks || q.tasks[id].Finished() then [Sweeping(Look(id)), Sweeping(Forget)]
    else if q.tasks[id].Pending? then [Sweeping(Look(id)), Sweeping(CancelPending), Sweeping(Forget)]
    else [Sweeping(Look(id))]
  }

  /** handleAbandonedTask. */
  method HandleAbandonedTask(w: World, taskID: Id)
    requires w.Valid() && w.Ready() && w.party == TheSweep
    requires w.s.sweep.phase.Looking? && taskID in w.s.sweep.phase.todo
    modifies w, w.tracker
    ensures w.Valid() && w.moved && old(w.log) <= w.log
    ensures w.s.sweep.phase == Looking(old(w.s.sweep.phase.todo) - {taskID})
    ensures w.s.sweep.snapshot == old(w.s.sweep.snapshot)
    ensures !old(taskID in w.s.queue.tasks && w.s.queue.tasks[taskID].Active?) ==> taskID !in w.tracker.lastAccess
    ensures old(taskID in w.s.queue.tasks && w.s.queue.tasks[taskID].Active?) ==>
              && w.s.tracking == old(w.s.tracking) && w.s.queue == old(w.s.queue)
              && w.log == old(w.log) + [Mine(Sweeping(Look(taskID)))]
    ensures Own(w.log) == Own(old(w.log)) + Handling(old(w.s.queue), taskID)
  {
    hide w.Valid(), Own, QueueWas;
    w.DoSweep(Look(taskID));
    if w.s.sweep.phase.Looking? {
      return;  // active: left to finish
    }
    w.Yield();
    if w.s.sweep.phase.Cancelling? {
      w.DoSweep(CancelPending);
      w.Yield();
    }
    w.DoSweep(Forget);
    w.TrackerFollows();
  }
}
