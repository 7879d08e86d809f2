/** The two goroutines of a log socket in the form backend/cmd/server/logs.go
    gives them, proved to take only steps of LogProtocol. What every run of the
    protocol keeps therefore holds of this code, whoever runs in between. */
module LogSocket {
  import opened Decimal
  import opened Frames
  import opened LogProtocol
  import opened Tasks

  datatype XReadResult = Entries(messages: seq<Record>) | Nil | Error

  /** The goroutine that is followed. */
  datatype Role = ThePump | TheWriter

  /** Whose own steps an action is. */
  predicate IsPumpStep(a: ClientAction) {
    a.ReadBatch? || a.ReadNil? || a.ReadError? || a.Ask? || a.Push? || a.NextRead? || a.Quit?
  }

  predicate IsWriterStep(a: ClientAction) {
    a.Write? || a.WriteFails? || a.Close? || a.Stop?
  }

  predicate IsOwn(role: Role, a: ClientAction) {
    if role.ThePump? then IsPumpStep(a) else IsWriterStep(a)
  }

  predicate Owns(role: Role, c: ClientId, a: Action) {
    a.At? && a.client == c && IsOwn(role, a.step)
  }

  /** What only its own goroutine changes of a client. */
  predicate SameOwn(role: Role, c: Client, d: Client) {
    match role
    case ThePump =>
      && d == c.(channel := d.channel, sent := d.sent, lost := d.lost, writer := d.writer, cancelled := d.cancelled,
                 broken := d.broken)
      && |d.channel| <= |c.channel|
    case TheWriter => d.writer == c.writer && d.sent == c.sent && d.lost == c.lost && c.channel <= d.channel
  }

  lemma ForeignClientStepKeepsOwn(s: System, c: Client, a: ClientAction, role: Role)
    requires s.first <= |s.log| && ClientEnabled(s, c, a) && !IsOwn(role, a)
    ensures SameOwn(role, c, ClientStep(s, c, a))
  {
    hide Unread, Batch;
  }

  lemma OtherStepsKeepOwn(s: System, a: Action, role: Role, c: ClientId)
    requires Enabled(s, a) && c in s.clients && !Owns(role, c, a)
    ensures c in Step(s, a).clients
    ensures SameOwn(role, s.clients[c], Step(s, a).clients[c])
  {
    hide ClientStep, ClientEnabled;
    if a.At? && a.client == c {
      ForeignClientStepKeepsOwn(s, s.clients[c], a.step, role);
    }
  }

  /** How a goroutine starts on a new connection. */
  predicate Fresh(role: Role, c: Client) {
    match role
    case ThePump => c.pump.Reading? && c.lastId == 0 && c.handed == 0 && c.read == [] && c.upto == 0
    case TheWriter => c.writer.Writing? && c.sent == [] && c.lost == []
  }

  lemma FreshStays(role: Role, c: Client, d: Client)
    requires Fresh(role, c) && SameOwn(role, c, d)
    ensures Fresh(role, d)
  {
  }

  lemma OnlyConnectConnects(s: System, a: Action, role: Role, c: ClientId)
    requires Enabled(s, a) && c !in s.clients && c in Step(s, a).clients
    ensures a == Connect(c) && Fresh(role, Step(s, a).clients[c])
  {
    hide ClientStep, ClientEnabled;
  }

  lemma SameOwnTransitive(role: Role, c: Client, d: Client, e: Client)
    requires SameOwn(role, c, d) && SameOwn(role, d, e)
    ensures SameOwn(role, c, e)
  {
  }

  lemma OthersStep(s: System, a: Action, role: Role, c: ClientId, begin: System)
    requires Enabled(s, a) && !Owns(role, c, a)
    requires c in begin.clients ==> c in s.clients && SameOwn(role, begin.clients[c], s.clients[c])
    requires c !in begin.clients && c in s.clients ==> Fresh(role, s.clients[c])
    ensures c in begin.clients ==> c in Step(s, a).clients && SameOwn(role, begin.clients[c], Step(s, a).clients[c])
    ensures c !in begin.clients && c in Step(s, a).clients ==> Fresh(role, Step(s, a).clients[c])
  {
    hide Step, Enabled, SameOwn, Fresh, Owns;
    if c in s.clients {
      OtherStepsKeepOwn(s, a, role, c);
      if c in begin.clients {
        SameOwnTransitive(role, begin.clients[c], s.clients[c], Step(s, a).clients[c]);
      } else {
        FreshStays(role, s.clients[c], Step(s, a).clients[c]);
      }
    } else if c in Step(s, a).clients {
      OnlyConnectConnects(s, a, role, c);
    }
  }

  /* ------------------------------------------- what happens to a goroutine */

  /** It takes a step, or the others run for one slot of their schedule. */
  datatype Event = Mine(step: ClientAction) | Others(slot: seq<Action>)

  /** The others take the steps of a slot that are theirs and enabled. */
  ghost function RunSlot(role: Role, c: ClientId, s: System, slot: seq<Action>): System {
    if slot == [] then s
    else
      var t, a := RunSlot(role, c, s, slot[..|slot| - 1]), slot[|slot| - 1];
      if Enabled(t, a) && !Owns(role, c, a) then Step(t, a) else t
  }

  ghost function RunLog(role: Role, c: ClientId, s: System, log: seq<Event>): System {
    if log == [] then s
    else
      var t := RunLog(role, c, s, log[..|log| - 1]);
      var e := log[|log| - 1];
      if e.Others? then RunSlot(role, c, t, e.slot)
      else if Enabled(t, At(c, e.step)) then Step(t, At(c, e.step)) else t
  }

  /** The goroutine has nothing to do before another party does something. */
  predicate Waits(role: Role, s: System, cl: Client)
    requires s.first <= |s.log|
  {
    match role
    case ThePump =>
      (match cl.pump
       case Reading => !cl.cancelled && !s.redisDown && Unread(s, cl.lastId) == []
       case Asking => false
       case Sending(rest) => rest != [] && |cl.channel| == 64 && !cl.cancelled
       case Closed(_) => true)
    case TheWriter => cl.writer.Writing? ==> cl.channel == [] && !cl.pump.Closed? && !cl.cancelled
  }

  ghost predicate Waiting(role: Role, c: ClientId, s: System) {
    c in s.clients ==> s.first <= |s.log| && Waits(role, s, s.clients[c])
  }

  /** Its steps are its own and enabled, and between two of them the others get
      one slot at most, unless it has to wait for them. */
  ghost predicate Happened(role: Role, c: ClientId, s: System, log: seq<Event>) {
    log == [] || (Happened(role, c, s, log[..|log| - 1]) && Can(role, c, s, log[..|log| - 1], log[|log| - 1]))
  }

  ghost predicate Can(role: Role, c: ClientId, s: System, before: seq<Event>, e: Event) {
    if e.Mine? then IsOwn(role, e.step) && Enabled(RunLog(role, c, s, before), At(c, e.step))
    else before != [] && before[|before| - 1].Others? ==> Waiting(role, c, RunLog(role, c, s, before))
  }

  function SlotsOf(log: seq<Event>): seq<seq<Action>> {
    if log == [] then []
    else SlotsOf(log[..|log| - 1]) + (if log[|log| - 1].Others? then [log[|log| - 1].slot] else [])
  }

  lemma Happens(role: Role, c: ClientId, s: System, log: seq<Event>, e: Event)
    requires Happened(role, c, s, log) && Can(role, c, s, log, e)
    ensures Happened(role, c, s, log + [e])
    ensures RunLog(role, c, s, log + [e]) == if e.Mine? then Step(RunLog(role, c, s, log), At(c, e.step))
                                             else RunSlot(role, c, RunLog(role, c, s, log), e.slot)
    ensures SlotsOf(log + [e]) == SlotsOf(log) + (if e.Others? then [e.slot] else [])
  {
    hide Step, Enabled, Waiting, RunSlot;
    assert (log + [e])[..|log|] == log;
  }

  lemma {:induction false} SlotIsReached(role: Role, c: ClientId, s0: System, acts: seq<Action>, s: System,
                                         slot: seq<Action>) returns (more: seq<Action>)
    requires Reaches(s0, acts, s)
    ensures Reaches(s0, more, RunSlot(role, c, s, slot))
  {
    hide Step, Enabled, Reaches, Owns;
    if slot == [] {
      more := acts;
    } else {
      var k := |slot| - 1;
      more := SlotIsReached(role, c, s0, acts, s, slot[..k]);
      var t := RunSlot(role, c, s, slot[..k]);
      if Enabled(t, slot[k]) && !Owns(role, c, slot[k]) {
        ReachNext(s0, more, t, slot[k]);
        more := more + [slot[k]];
      }
    }
  }

  /** All that happens is a run of the protocol. */
  lemma {:induction false} LogIsReached(role: Role, c: ClientId, s: System, log: seq<Event>) returns (acts: seq<Action>)
    ensures Reaches(s, acts, RunLog(role, c, s, log))
  {
    hide Step, Enabled, RunSlot, Legal, Exec;
    if log == [] {
      acts := [];
      ReachStart(s);
    } else {
      var k := |log| - 1;
      acts := LogIsReached(role, c, s, log[..k]);
      var t := RunLog(role, c, s, log[..k]);
      if log[k].Others? {
        acts := SlotIsReached(role, c, s, acts, t, log[k].slot);
      } else if Enabled(t, At(c, log[k].step)) {
        ReachNext(s, acts, t, At(c, log[k].step));
        acts := acts + [At(c, log[k].step)];
      }
    }
  }

  lemma ReachStart(s: System)
    ensures Reaches(s, [], s)
  {
  }

  /** The state a goroutine shares with all others. `plan` is what they do, one slot
      at each point where this goroutine may be overtaken; a finite plan gives a
      finite piece of a run. `moved`: the goroutine took a step since the last slot. */
  class World {
    const init: System
    const role: Role
    const c: ClientId
    const plan: seq<seq<Action>>
    var s: System
    var schedule: seq<seq<Action>>
    var moved: bool
    ghost var log: seq<Event>

    ghost predicate Valid()
      reads this
    {
      && Init(init)
      && Happened(role, c, init, log)
      && s == RunLog(role, c, init, log)
      && SlotsOf(log) + schedule == plan
      && (moved <==> log != [] && log[|log| - 1].Mine?)
    }

    /** The client as it is now. */
    function Cl(): Client
      requires c in s.clients
      reads this
    {
      s.clients[c]
    }

    ghost predicate Connected()
      reads this
    {
      s.first <= |s.log| && c in s.clients
    }

    constructor (init: System, role: Role, c: ClientId, plan: seq<seq<Action>>)
      requires Init(init)
      ensures Valid() && log == [] && this.init == init && this.role == role && this.c == c && this.plan == plan
    {
      this.init, this.role, this.c, this.plan, s, schedule, moved, log := init, role, c, plan, init, plan, false, [];
    }

    lemma Holds()
      requires Valid()
      ensures Inv(s) && s.first <= |s.log| && s == RunLog(role, c, init, log)
    {
      hide Step, Enabled, Happened, RunSlot;
      var acts := LogIsReached(role, c, init, log);
      RunsKeepInv(init, acts);
      assert StreamInv(s);
    }

    /** A step of its own. */
    method Take(step: ClientAction)
      requires Valid() && Connected() && IsOwn(role, step) && ClientEnabled(s, Cl(), step)
      modifies this`s, this`moved, this`log
      ensures Valid() && Connected() && log == old(log) + [Mine(step)] && moved
      ensures Cl() == ClientStep(old(s), old(Cl()), step)
      ensures s == old(s).(clients := s.clients)
    {
      hide Happened, RunLog, RunSlot, SlotsOf, ClientStep, ClientEnabled;
      StepOfClient(s, c, step);
      Happens(role, c, init, log, Mine(step));
      log := log + [Mine(step)];
      s := s.(clients := s.clients[c := ClientStep(s, s.clients[c], step)]);
      moved := true;
    }

    /** The others run for one slot; the client may connect in it. */
    method Yield()
      requires Valid() && schedule != []
      requires moved || Waiting(role, c, s)
      modifies this
      ensures Valid() && !moved
      ensures log == old(log) + [Others(old(schedule)[0])] && schedule == old(schedule)[1..]
      ensures s == RunSlot(role, c, old(s), old(schedule)[0])
      ensures old(Connected()) ==> Connected() && SameOwn(role, old(s.clients[c]), Cl())
      ensures old(c !in s.clients) && c in s.clients ==> Connected() && Fresh(role, Cl())
    {
      hide Step, Enabled, Init, Happened, RunLog, SlotsOf, SameOwn, Fresh, Owns, Waiting;
      Happens(role, c, init, log, Others(schedule[0]));
      var slot := schedule[0];
      ghost var begin := s;
      if c in s.clients {
        SameOwnSelf(role, s.clients[c]);
      }
      for i := 0 to |slot|
        invariant c in begin.clients ==> c in s.clients && SameOwn(role, begin.clients[c], s.clients[c])
        invariant c !in begin.clients && c in s.clients ==> Fresh(role, s.clients[c])
        invariant s == RunSlot(role, c, begin, slot[..i])
        invariant log == old(log) && schedule == old(schedule)
      {
        assert slot[..i + 1][..i] == slot[..i];
        if Enabled(s, slot[i]) && !Owns(role, c, slot[i]) {
          OthersStep(s, slot[i], role, c, begin);
          s := Step(s, slot[i]);
        }
      }
      assert slot[..|slot|] == slot;
      log := log + [Others(slot)];
      schedule := schedule[1..];
      moved := false;
      assert SlotsOf(log) + schedule == plan by {
        assert [slot] + old(schedule)[1..] == old(schedule);
      }
      Holds();
    }

    /** The others may come in after any step. */
    method Pause()
      requires Valid() && Connected()
      modifies this
      ensures Valid() && Connected() && old(log) <= log && (moved ==> schedule == [])
      ensures |schedule| <= |old(schedule)| && (old(moved) && old(schedule) != [] ==> |schedule| < |old(schedule)|)
      ensures |schedule| == |old(schedule)| ==> s == old(s)
      ensures SameOwn(role, old(Cl()), Cl())
    {
      SameOwnSelf(role, Cl());
      hide Valid(), SameOwn, Waits;
      if moved && schedule != [] {
        Yield();
      }
    }
  }

  lemma SameOwnSelf(role: Role, c: Client)
    ensures SameOwn(role, c, c)
  {
  }

  /** Why a pump returns: the step it takes, and the state it takes it in. */
  predicate PumpReason(why: Exit, step: ClientAction, seen: System, cl: Client) {
    match why
    case SawEnd => step.Push?
    case Finished =>
      && step == Ask(true) && !seen.redisDown
      && (seen.task.Some? ==> seen.task.value.Completed? || seen.task.value.Archived?)
    case InspectorDown => step == Ask(false) && seen.redisDown
    case Cancelled => (step.Quit? || step.ReadError?) && cl.cancelled
    case RedisDown => step.ReadError? && seen.redisDown && !cl.cancelled
  }

  lemma PumpCloses(s: System, c: Client, step: ClientAction)
    requires s.first <= |s.log| && ClientEnabled(s, c, step) && !c.pump.Closed? && ClientStep(s, c, step).pump.Closed?
    ensures PumpReason(ClientStep(s, c, step).pump.why, step, s, c)
  {
    hide Unread, Batch, FramesOf;
  }

  /** The pump was closed by its last step, for a reason. */
  ghost predicate ClosedFor(w: World)
    reads w
  {
    && w.Connected() && w.Cl().pump.Closed?
    && w.log != [] && w.log[|w.log| - 1].Mine?
    && var seen := RunLog(w.role, w.c, w.init, w.log[..|w.log| - 1]);
       w.c in seen.clients && PumpReason(w.Cl().pump.why, w.log[|w.log| - 1].step, seen, seen.clients[w.c])
  }

  /** The pump has stopped for a reason, or the plan is over and it waits for the others. */
  ghost predicate Ended(w: World)
    reads w
  {
    ClosedFor(w) || (w.Connected() && w.schedule == [] && !w.Cl().pump.Closed? && Waits(ThePump, w.s, w.Cl()))
  }

  /** A goroutine only adds to what happened; while it uses no slot, nobody else
      appends to the stream. */
  twostate predicate Continues(w: World)
    reads w
  {
    && w.Valid() && w.Connected() && old(w.log) <= w.log
    && |w.schedule| <= |old(w.schedule)|
    && (|w.schedule| == |old(w.schedule)| ==> w.s.log == old(w.s.log))
  }

  /** The last step is this one, taken in the state `seen`. */
  ghost predicate TookAt(w: World, step: ClientAction, seen: System)
    reads w
  {
    w.log != [] && w.log[|w.log| - 1] == Mine(step) && seen == RunLog(w.role, w.c, w.init, w.log[..|w.log| - 1])
  }

  lemma BatchEffect(s: System, c: Client)
    requires StreamInv(s) && ClientInv(s, c) && ClientEnabled(s, c, ReadBatch)
    ensures s.first <= |s.log| && c.handed == |c.read|
    ensures var d, batch := ClientStep(s, c, ReadBatch), Batch(Unread(s, c.lastId));
            && d.pump == Sending(batch) && batch != [] && d.read == c.read + batch && c.upto < d.upto <= |s.log|
            && d.lastId == c.lastId && d.handed == c.handed && OldestPast(s, c.lastId, batch)
  {
    hide Covers, FramesOf, WriterInv, StopInv, BatchInv, Unread, OldestPast;
    ReadsOldest(s, c);
    assert c.read[..c.handed] == c.read;
    ReadBatchReads(s, c);
  }

  lemma NilEffect(s: System, c: Client)
    requires StreamInv(s) && ClientInv(s, c) && ClientEnabled(s, c, ReadNil)
    ensures s.first <= |s.log| && OldestPast(s, c.lastId, [])
    ensures var d := ClientStep(s, c, ReadNil);
            d.pump.Asking? && d.read == c.read && d.lastId == c.lastId && d.handed == c.handed && d.upto == c.upto
  {
    hide Increasing, Covers, FramesOf, WriterInv, StopInv, BatchInv, Unread, OldestPast;
    ReadsOldest(s, c);
  }

  lemma EnabledIf(s: System, c: Client)
    requires s.first <= |s.log| && c.pump.Reading?
    ensures c.cancelled ==> ClientEnabled(s, c, Quit)
    ensures s.redisDown ==> ClientEnabled(s, c, ReadError)
    ensures !s.redisDown && Unread(s, c.lastId) != [] ==> ClientEnabled(s, c, ReadBatch)
    ensures !s.redisDown && Unread(s, c.lastId) == [] ==> ClientEnabled(s, c, ReadNil)
    ensures !s.redisDown && Unread(s, c.lastId) == [] && !c.cancelled ==> Waits(ThePump, s, c)
  {
    hide Unread;
  }

  lemma CloseEffect(s: System, c: Client, a: ClientAction)
    requires s.first <= |s.log| && ClientEnabled(s, c, a) && a in {ReadError, Quit}
    ensures var d := ClientStep(s, c, a);
            d.pump.Closed? && d.read == c.read && d.lastId == c.lastId && d.handed == c.handed && !c.pump.Closed?
  {
  }

  /** A step of the goroutine, in the state it sees now. */
  method Act(w: World, step: ClientAction)
    requires w.Valid() && w.Connected() && IsOwn(w.role, step) && ClientEnabled(w.s, w.Cl(), step)
    modifies w`s, w`moved, w`log
    ensures Continues(w) && w.moved && w.schedule == old(w.schedule) && w.log == old(w.log) + [Mine(step)]
    ensures TookAt(w, step, old(w.s)) && w.Cl() == ClientStep(old(w.s), old(w.Cl()), step)
    ensures w.s == old(w.s).(clients := w.s.clients)
    ensures !old(w.Cl()).pump.Closed? && w.Cl().pump.Closed? ==> ClosedFor(w)
  {
    hide ClientStep, ClientEnabled, RunLog, Happened, SlotsOf, PumpReason;
    if !w.Cl().pump.Closed? && ClientStep(w.s, w.Cl(), step).pump.Closed? {
      PumpCloses(w.s, w.Cl(), step);
    }
    w.Take(step);
    assert w.log[..|w.log| - 1] == old(w.log);
  }

  method ReadEntries(w: World) returns (messages: seq<Record>)
    requires w.Valid() && w.Connected() && w.role.ThePump? && ClientEnabled(w.s, w.Cl(), ReadBatch)
    modifies w`s, w`moved, w`log
    ensures Continues(w) && w.moved && TookAt(w, ReadBatch, old(w.s)) && w.Cl().pump == Sending(messages)
    ensures OldestPast(old(w.s), old(w.Cl().lastId), messages) && messages != []
    ensures w.Cl().read == old(w.Cl().read) + messages && old(w.Cl().upto) < w.Cl().upto <= |w.s.log|
    ensures w.Cl().lastId == old(w.Cl().lastId) && w.Cl().handed == old(w.Cl().handed)
  {
    hide w.Valid(), ClientStep, ClientEnabled, Unread, Batch, OldestPast, TookAt, ClientInv, StreamInv;
    w.Holds();
    BatchEffect(w.s, w.Cl());
    Act(w, ReadBatch);
    messages := w.Cl().pump.rest;
  }

  method ReadNothing(w: World)
    requires w.Valid() && w.Connected() && w.role.ThePump? && ClientEnabled(w.s, w.Cl(), ReadNil)
    modifies w`s, w`moved, w`log
    ensures Continues(w) && w.moved && TookAt(w, ReadNil, old(w.s)) && w.Cl().pump.Asking?
    ensures OldestPast(old(w.s), old(w.Cl().lastId), []) && w.schedule == old(w.schedule)
    ensures w.Cl().read == old(w.Cl().read) && w.Cl().lastId == old(w.Cl().lastId)
    ensures w.Cl().handed == old(w.Cl().handed) && w.Cl().upto == old(w.Cl().upto)
  {
    hide w.Valid(), ClientStep, ClientEnabled, TookAt, OldestPast, ClientInv, StreamInv;
    w.Holds();
    NilEffect(w.s, w.Cl());
    Act(w, ReadNil);
  }

  method CloseWith(w: World, step: ClientAction)
    requires w.Valid() && w.Connected() && w.role.ThePump? && step in {ReadError, Quit}
    requires ClientEnabled(w.s, w.Cl(), step)
    modifies w`s, w`moved, w`log
    ensures Continues(w) && ClosedFor(w)
    ensures w.Cl().read == old(w.Cl().read) && w.Cl().lastId == old(w.Cl().lastId)
    ensures w.Cl().handed == old(w.Cl().handed)
  {
    hide w.Valid(), ClientStep, ClientEnabled, TookAt, PumpReason, RunLog;
    CloseEffect(w.s, w.Cl(), step);
    Act(w, step);
  }

  /** What an XREAD leaves as it was. */
  twostate predicate StillReading(w: World)
    requires old(w.Connected()) && w.Connected()
    reads w
  {
    && w.Cl().pump.Reading? && w.Cl().lastId == old(w.Cl().lastId) && w.Cl().handed == old(w.Cl().handed)
    && w.Cl().read == old(w.Cl().read) && w.Cl().upto == old(w.Cl().upto)
  }

  /** XREAD with COUNT and BLOCK: waits for entries past `lastID`, for the block
      time to run out, or for an error. `None`: the plan is over first. It answers
      from the state `seen`. */
  method XRead(w: World, lastID: nat) returns (r: Option<XReadResult>, ghost seen: System)
    requires w.Valid() && w.Connected() && w.role.ThePump? && w.Cl().pump.Reading? && w.Cl().lastId == lastID
    modifies w
    ensures Continues(w) && seen.first <= |seen.log|
    ensures w.Cl().lastId == lastID && w.Cl().handed == old(w.Cl().handed)
    ensures match r
            case None => w.schedule == [] && Waits(ThePump, w.s, w.Cl()) && StillReading(w)
            case Some(Entries(messages)) =>
              && TookAt(w, ReadBatch, seen) && w.Cl().pump == Sending(messages)
              && OldestPast(seen, lastID, messages) && messages != []
              && w.Cl().read == old(w.Cl().read) + messages && old(w.Cl().upto) < w.Cl().upto <= |w.s.log|
            case Some(Nil) =>
              && TookAt(w, ReadNil, seen) && w.Cl().pump.Asking? && OldestPast(seen, lastID, [])
              && w.Cl().read == old(w.Cl().read) && w.schedule != [] && w.moved
            case Some(Error) => ClosedFor(w) && w.Cl().read == old(w.Cl().read)
  {
    hide w.Valid(), Unread, Batch, OldestPast, ClientEnabled, TookAt, Waits, ClientStep, Inv, Init, RunLog, PumpReason;
    while true
      invariant Continues(w) && StillReading(w)
      decreases |w.schedule|
    {
      w.Pause();
      seen := w.s;
      EnabledIf(w.s, w.Cl());
      var noticed := *;
      if w.Cl().cancelled && (noticed || (!w.s.redisDown && Unread(w.s, lastID) == [])) {
        CloseWith(w, Quit);
        return Some(Error), seen;
      }
      if w.s.redisDown {
        CloseWith(w, ReadError);
        return Some(Error), seen;
      }
      if Unread(w.s, lastID) != [] {
        var messages := ReadEntries(w);
        return Some(Entries(messages)), seen;
      }
      if w.schedule == [] {
        return None, seen;
      }
      if * {
        ReadNothing(w);
        return Some(Nil), seen;
      }
      w.Yield();
    }
  }

  /** What the goroutine does not change while it sends. */
  twostate predicate SameRead(w: World)
    requires old(w.Connected()) && w.Connected()
    reads w
  {
    w.Cl().read == old(w.Cl().read) && w.Cl().upto == old(w.Cl().upto)
  }

  lemma PushEffect(s: System, c: Client)
    requires s.first <= |s.log| && c.pump.Sending? && c.pump.rest != [] && |c.channel| < CHANNEL_SLOTS
    ensures ClientEnabled(s, c, Push)
    ensures var d, next := ClientStep(s, c, Push), c.pump.rest[0];
            && d.lastId == next.id && d.handed == c.handed + 1 && d.read == c.read && d.upto == c.upto
            && d.channel == c.channel + [FrameOf(next.entry)]
            && d.pump == if next.entry.End? then Closed(SawEnd) else Sending(c.pump.rest[1..])
  {
  }

  lemma StuckSends(s: System, c: Client)
    requires s.first <= |s.log| && c.pump.Sending? && c.pump.rest != []
    ensures c.cancelled ==> ClientEnabled(s, c, Quit)
    ensures !c.cancelled && |c.channel| == CHANNEL_SLOTS ==> Waits(ThePump, s, c)
  {
  }

  method SendNext(w: World)
    requires w.Valid() && w.Connected() && w.role.ThePump? && w.Cl().pump.Sending? && w.Cl().pump.rest != []
    requires |w.Cl().channel| < CHANNEL_SLOTS
    modifies w`s, w`moved, w`log
    ensures Continues(w) && w.schedule == old(w.schedule) && SameRead(w) && TookAt(w, Push, old(w.s))
    ensures var next := old(w.Cl().pump).rest[0];
            && w.Cl().lastId == next.id && w.Cl().handed == old(w.Cl().handed) + 1
            && w.Cl().channel == old(w.Cl().channel) + [FrameOf(next.entry)]
            && w.Cl().pump == (if next.entry.End? then Closed(SawEnd) else Sending(old(w.Cl().pump).rest[1..]))
            && (next.entry.End? ==> ClosedFor(w))
  {
    hide w.Valid(), ClientStep, ClientEnabled, TookAt, PumpReason, RunLog;
    PushEffect(w.s, w.Cl());
    Act(w, Push);
  }

  lemma ChannelBound(w: World)
    requires w.Valid() && w.Connected()
    ensures |w.Cl().channel| <= CHANNEL_SLOTS && w.Cl().upto <= |w.s.log|
    ensures IsTranscript(w.Cl()) && IsLog(w.s, w.Cl())
    ensures w.Cl().pump == Closed(SawEnd) ==>
              w.Cl().Produced() != [] && w.Cl().Produced()[|w.Cl().Produced()| - 1].EndFrame?
  {
    hide w.Valid(), StreamInv, ClientInv, IsTranscript, IsLog;
    w.Holds();
    InvParts(w.s, w.Cl());
    TranscriptAt(w.Cl());
    LogAt(w.s, w.Cl());
    SentIsBounded(w.Cl());
  }

  lemma SentIsBounded(c: Client)
    requires PumpInv(c)
    ensures |c.channel| <= CHANNEL_SLOTS
    ensures c.pump == Closed(SawEnd) ==> c.Produced() != [] && c.Produced()[|c.Produced()| - 1].EndFrame?
  {
  }

  /** The select of `out <- frame` and `ctx.Done()`: true if the frame went into
      the channel. Over a full channel it may still be waiting when the plan ends. */
  method Send(w: World, frame: Frame) returns (sent: bool)
    requires w.Valid() && w.Connected() && w.role.ThePump?
    requires w.Cl().pump.Sending? && w.Cl().pump.rest != [] && frame == FrameOf(w.Cl().pump.rest[0].entry)
    modifies w
    ensures Continues(w) && SameRead(w)
    ensures var next := old(w.Cl().pump).rest[0];
            if sent then
              && w.log[|w.log| - 1] == Mine(Push)
              && w.Cl().lastId == next.id && w.Cl().handed == old(w.Cl().handed) + 1
              && w.Cl().channel != [] && w.Cl().channel[|w.Cl().channel| - 1] == frame
              && w.Cl().pump == (if next.entry.End? then Closed(SawEnd) else Sending(old(w.Cl().pump).rest[1..]))
              && (next.entry.End? ==> ClosedFor(w))
            else Ended(w) && w.Cl().handed == old(w.Cl().handed)
  {
    hide w.Valid(), Waits, Init, RunLog, ClientStep, ClientEnabled, IsTranscript, IsLog, PumpReason,
      FrameOf, FramesOf, Unread, Batch;
    while true
      invariant Continues(w) && SameOwn(ThePump, old(w.Cl()), w.Cl())
      decreases |w.schedule|
    {
      w.Pause();
      ChannelBound(w);
      StuckSends(w.s, w.Cl());
      var full := |w.Cl().channel| == CHANNEL_SLOTS;
      var stop := *;
      if w.Cl().cancelled && (full || stop) {
        CloseSending(w);
        return false;
      }
      if !full {
        SendNext(w);
        return true;
      }
      if w.schedule == [] {
        return false;
      }
      w.Yield();
    }
  }

  method CloseSending(w: World)
    requires w.Valid() && w.Connected() && w.role.ThePump? && w.Cl().pump.Sending? && ClientEnabled(w.s, w.Cl(), Quit)
    modifies w`s, w`moved, w`log
    ensures Continues(w) && ClosedFor(w) && SameRead(w) && w.Cl().handed == old(w.Cl().handed)
  {
    hide w.Valid(), ClientEnabled, TookAt, PumpReason, RunLog;
    Act(w, Quit);
  }

  lemma RestIsPublishable(w: World)
    requires w.Valid() && w.Connected() && w.Cl().pump.Sending? && w.Cl().pump.rest != []
    ensures w.Cl().pump.rest[0].entry.Publishable()
  {
    hide w.Valid(), StreamInv, ClientInv;
    w.Holds();
    NextIsPublishable(w.s, w.Cl());
  }

  lemma NextIsPublishable(s: System, c: Client)
    requires StreamInv(s) && ClientInv(s, c) && c.pump.Sending? && c.pump.rest != []
    ensures c.pump.rest[0].entry.Publishable()
  {
    hide FramesOf, WriterInv, StopInv, BatchInv, Increasing;
    assert c.pump.rest[0] == c.read[c.handed];
    assert c.read[c.handed] in s.log;
  }

  /** The loop over the messages of one XREAD. Unless the pump stops or waits in it,
      all of them are handed over, and the next read continues after the last one. */
  method SendBatch(w: World, messages: seq<Record>, fromID: nat) returns (lastID: nat, done: bool)
    requires w.Valid() && w.Connected() && w.role.ThePump? && w.Cl().pump == Sending(messages) && messages != []
    requires w.Cl().lastId == fromID
    modifies w
    ensures Continues(w) && SameRead(w)
    ensures done ==> Ended(w)
    ensures !done ==> && w.Cl().pump.Reading? && w.Cl().handed == old(w.Cl().handed) + |messages|
                      && lastID == w.Cl().lastId == messages[|messages| - 1].id
    ensures w.Cl().handed <= old(w.Cl().handed) + |messages|
  {
    hide w.Valid(), EncodeFrame, Waits, Init, RunLog, ClientStep, ClientEnabled, PumpReason;
    lastID := fromID;
    for i := 0 to |messages|
      invariant Continues(w) && SameRead(w)
      invariant w.Cl().pump == Sending(messages[i..]) && w.Cl().lastId == lastID
      invariant w.Cl().handed == old(w.Cl().handed) + i && (i > 0 ==> lastID == messages[i - 1].id)
    {
      var msg := messages[i];
      lastID := msg.id;
      var (frame, isEnd) := EncodeFrame(Publish(msg.entry));
      RestIsPublishable(w);
      EncodePublished(msg.entry);
      var sent := Send(w, frame);
      if !sent || isEnd {
        return lastID, true;
      }
    }
    GoOnReading(w);
    done := false;
  }

  method GoOnReading(w: World)
    requires w.Valid() && w.Connected() && w.role.ThePump? && w.Cl().pump == Sending([])
    modifies w`s, w`moved, w`log
    ensures Continues(w) && w.Cl().pump.Reading? && SameRead(w) && w.schedule == old(w.schedule)
    ensures w.Cl().lastId == old(w.Cl().lastId) && w.Cl().handed == old(w.Cl().handed)
  {
    hide w.Valid(), TookAt;
    Act(w, NextRead);
  }

  lemma AskEffect(s: System, c: Client)
    requires s.first <= |s.log| && c.pump.Asking?
    ensures ClientEnabled(s, c, Ask(!s.redisDown))
    ensures var d := ClientStep(s, c, Ask(!s.redisDown));
            && d.read == c.read && d.upto == c.upto && d.lastId == c.lastId && d.handed == c.handed
            && if s.redisDown || TaskStreamFinished(s.task) then d.pump.Closed? else d.pump.Reading?
  {
  }

  /** taskStreamFinished, some time after the empty XREAD: true if and only if
      GetTaskInfo fails or finds the task gone or finished in the state `seen`. */
  method TaskFinished(w: World) returns (finished: bool, ghost seen: System)
    requires w.Valid() && w.Connected() && w.role.ThePump? && w.Cl().pump.Asking? && w.moved && w.schedule != []
    modifies w
    ensures Continues(w) && |w.schedule| < |old(w.schedule)| && SameRead(w)
    ensures TookAt(w, Ask(!seen.redisDown), seen)
    ensures finished <==>
            seen.redisDown || seen.task.None? || seen.task.value.Completed? || seen.task.value.Archived?
    ensures w.Cl().lastId == old(w.Cl().lastId) && w.Cl().handed == old(w.Cl().handed)
    ensures if finished then ClosedFor(w) else w.Cl().pump.Reading?
  {
    hide w.Valid(), TookAt, ClientStep, ClientEnabled, Waits, PumpReason, RunLog;
    w.Pause();
    seen := w.s;
    AskEffect(w.s, w.Cl());
    finished := w.s.redisDown || TaskStreamFinished(w.s.task);
    Act(w, Ask(!w.s.redisDown));
  }

  /** One XREAD and what follows it; `done` when the pump returns from there. */
  method ReadOnce(w: World, fromID: nat) returns (lastID: nat, done: bool)
    requires w.Valid() && w.Connected() && w.role.ThePump? && w.Cl().pump.Reading? && w.Cl().lastId == fromID
    modifies w
    ensures Continues(w)
    ensures done ==> Ended(w)
    ensures !done ==> w.Cl().pump.Reading? && w.Cl().lastId == lastID && w.Cl().upto <= |w.s.log|
    ensures !done ==> |w.schedule| < |old(w.schedule)| || w.Cl().upto > old(w.Cl().upto)
  {
    hide w.Valid(), Batch, Unread, Waits, TookAt, TaskStreamFinished, IsTranscript, IsLog, PumpReason, RunLog;
    lastID := fromID;
    var streams, _ := XRead(w, fromID);
    if streams.None? {
      return lastID, true;
    }
    match streams.value
    case Error =>
      done := true;
    case Nil =>
      var finished, _ := TaskFinished(w);
      done := finished;
      ChannelBound(w);
    case Entries(messages) =>
      lastID, done := SendBatch(w, messages, fromID);
      ChannelBound(w);
  }

  /** pumpLogStream: it runs until the pump has stopped for a reason, or until the
      plan of the others is over and there is nothing to do without them. What it handed over
      then are the frames of what it read, and that are the entries of the stream
      up to its last ID but for those dropped first. */
  method PumpLogStream(w: World)
    requires w.Valid() && w.Connected() && w.role.ThePump? && w.Cl().pump.Reading? && w.Cl().lastId == 0
    modifies w
    ensures Continues(w) && Ended(w)
    ensures IsTranscript(w.Cl()) && IsLog(w.s, w.Cl())
    ensures w.Cl().pump == Closed(SawEnd) ==>
              w.Cl().Produced() != [] && w.Cl().Produced()[|w.Cl().Produced()| - 1].EndFrame?
  {
    hide w.Valid(), Waits, IsTranscript, IsLog, PumpReason, RunLog;
    var lastID, done := 0, false;
    ChannelBound(w);
    while !done
      invariant Continues(w)
      invariant done ==> Ended(w)
      invariant !done ==> w.Cl().pump.Reading? && w.Cl().lastId == lastID && w.Cl().upto <= |w.s.log|
      decreases |w.schedule|, if done then 0 else 1 + |w.s.log| - w.Cl().upto
    {
      lastID, done := ReadOnce(w, lastID);
    }
    ChannelBound(w);
  }

  /* --------------------------------------------------------- write loop */

  /** Why the write loop returns. */
  predicate LoopReason(writer: Writer, step: ClientAction, cl: Client) {
    match writer
    case Writing => false
    case Drained => step.Close? && cl.channel == [] && cl.pump.Closed?
    case Broken => (step.Stop? && (cl.cancelled || cl.broken)) || (step.WriteFails? && cl.broken)
  }

  /** The write loop was left by its last step, for a reason. */
  ghost predicate LeftFor(w: World)
    reads w
  {
    && w.Connected() && !w.Cl().writer.Writing? && w.log != [] && w.log[|w.log| - 1].Mine?
    && var seen := RunLog(w.role, w.c, w.init, w.log[..|w.log| - 1]);
       w.c in seen.clients && LoopReason(w.Cl().writer, w.log[|w.log| - 1].step, seen.clients[w.c])
  }

  /** The write loop has returned for a reason, or the plan is over and it waits. */
  ghost predicate LoopEnded(w: World)
    reads w
  {
    LeftFor(w) || (w.Connected() && w.Cl().writer.Writing? && w.schedule == [] && Waits(TheWriter, w.s, w.Cl()))
  }

  lemma WriterEnabled(s: System, c: Client)
    requires s.first <= |s.log| && c.writer.Writing?
    ensures c.cancelled || c.broken ==> ClientEnabled(s, c, Stop)
    ensures c.channel != [] ==> ClientEnabled(s, c, if c.broken then WriteFails else Write)
    ensures c.channel == [] && c.pump.Closed? ==> ClientEnabled(s, c, Close)
    ensures c.channel == [] && !c.pump.Closed? && !c.cancelled ==> Waits(TheWriter, s, c)
  {
  }

  lemma WriterEffect(s: System, c: Client, a: ClientAction)
    requires s.first <= |s.log| && ClientEnabled(s, c, a) && IsWriterStep(a)
    ensures var d := ClientStep(s, c, a);
            && (d.writer.Writing? <==> a.Write?)
            && (a.Write? ==> c.channel != [] && d.sent == c.sent + [c.channel[0]] && d.channel == c.channel[1..])
            && (!a.Write? ==> d.sent == c.sent && LoopReason(d.writer, a, c))
  {
  }

  method WriterAct(w: World, step: ClientAction)
    requires w.Valid() && w.Connected() && w.role.TheWriter? && IsWriterStep(step) && ClientEnabled(w.s, w.Cl(), step)
    modifies w`s, w`moved, w`log
    ensures Continues(w) && w.schedule == old(w.schedule) && (w.Cl().writer.Writing? <==> step.Write?)
    ensures step.Write? ==> && old(w.Cl().channel) != [] && w.Cl().sent == old(w.Cl().sent) + [old(w.Cl().channel)[0]]
                            && w.Cl().channel == old(w.Cl().channel)[1..]
    ensures !step.Write? ==> w.Cl().sent == old(w.Cl().sent) && LeftFor(w)
  {
    hide w.Valid(), ClientStep, ClientEnabled, LoopReason, RunLog;
    WriterEffect(w.s, w.Cl(), step);
    Act(w, step);
  }

  /** One round of the select; on a broken connection the ticker's ping or the write
      fails, and of the cases that are ready any may be taken. False if none is. */
  method SelectOnce(w: World) returns (ready: bool)
    requires w.Valid() && w.Connected() && w.role.TheWriter? && w.Cl().writer.Writing?
    modifies w`s, w`moved, w`log
    ensures Continues(w) && w.schedule == old(w.schedule)
    ensures !ready ==> Waits(TheWriter, w.s, w.Cl()) && w.Cl() == old(w.Cl()) && w.moved == old(w.moved)
    ensures ready && w.Cl().writer.Writing? ==>
              && old(w.Cl().channel) != [] && w.Cl().channel == old(w.Cl().channel)[1..]
              && w.Cl().sent == old(w.Cl().sent) + [old(w.Cl().channel)[0]]
    ensures ready && !w.Cl().writer.Writing? ==> LeftFor(w)
  {
    hide w.Valid(), ClientStep, ClientEnabled, Waits, LoopReason, RunLog;
    WriterEnabled(w.s, w.Cl());
    var tick, ctxFirst := *, *;
    if (w.Cl().broken && tick) || (w.Cl().cancelled && (ctxFirst || (w.Cl().channel == [] && !w.Cl().pump.Closed?))) {
      WriterAct(w, Stop);
      return true;
    }
    if w.Cl().channel != [] {
      WriterAct(w, if w.Cl().broken then WriteFails else Write);
      return true;
    }
    if w.Cl().pump.Closed? {
      WriterAct(w, Close);
      return true;
    }
    return false;
  }

  /** The write loop of KicadGetTaskLogs: it runs until it returns for a reason, or until
      the plan of the others is over and no frame is left. What it wrote is a prefix of
      what the pump produced, all of it if it sent the close message. */
  method WriteLoop(w: World)
    requires w.Valid() && w.Connected() && w.role.TheWriter? && w.Cl().writer.Writing?
    modifies w
    ensures Continues(w) && LoopEnded(w)
    ensures w.Cl().sent <= w.Cl().Produced()
    ensures w.Cl().writer.Drained? ==> w.Cl().pump.Closed? && w.Cl().sent == w.Cl().Produced()
    ensures w.Cl().writer.Writing? ==> w.Cl().sent == w.Cl().Produced()
  {
    hide w.Valid(), Waits, Init, LoopReason, RunLog;
    while true
      invariant Continues(w) && w.Cl().writer.Writing?
      decreases |w.schedule|, |w.Cl().channel|
    {
      w.Pause();
      var ready := SelectOnce(w);
      if !w.Cl().writer.Writing? || (!ready && w.schedule == []) {
        break;
      }
      if !ready {
        w.Yield();
      }
    }
    SentSoFar(w);
  }

  lemma SentSoFar(w: World)
    requires w.Valid() && LoopEnded(w) && w.role.TheWriter?
    ensures w.Cl().sent <= w.Cl().Produced()
    ensures w.Cl().writer.Drained? ==> w.Cl().pump.Closed? && w.Cl().sent == w.Cl().Produced()
    ensures w.Cl().writer.Writing? ==> w.Cl().sent == w.Cl().Produced()
  {
    hide w.Valid(), StreamInv, ReadInv, PumpInv, StopInv, BatchInv, LoopReason, RunLog;
    w.Holds();
  }

  /* ------------------------------------------------- from the connection on */

  lemma ClientStays(s: System, a: Action, c: ClientId)
    requires Enabled(s, a)
    ensures c in s.clients ==> c in Step(s, a).clients
    ensures Step(s, a).first <= |Step(s, a).log|
    ensures a == Connect(c) ==> c in Step(s, a).clients
  {
    hide ClientStep, ClientEnabled;
  }

  lemma {:induction false} ClientsStay(role: Role, c: ClientId, s: System, slot: seq<Action>)
    requires s.first <= |s.log|
    ensures c in s.clients ==> c in RunSlot(role, c, s, slot).clients
    ensures RunSlot(role, c, s, slot).first <= |RunSlot(role, c, s, slot).log|
  {
    hide Step, Enabled, Owns;
    if slot != [] {
      var before, a := slot[..|slot| - 1], slot[|slot| - 1];
      ClientsStay(role, c, s, before);
      var t := RunSlot(role, c, s, before);
      if Enabled(t, a) {
        ClientStays(t, a, c);
      }
    }
  }

  lemma CanConnect(s: System, c: ClientId)
    requires s.first <= |s.log| && c !in s.clients
    ensures Enabled(s, Connect(c))
  {
  }

  /** A slot in which the client connects leaves it connected. */
  lemma {:induction false} SlotConnects(role: Role, c: ClientId, s: System, slot: seq<Action>)
    requires Connect(c) in slot && s.first <= |s.log|
    ensures c in RunSlot(role, c, s, slot).clients
  {
    hide Step, Enabled;
    var before, a := slot[..|slot| - 1], slot[|slot| - 1];
    ClientsStay(role, c, s, before);
    var t := RunSlot(role, c, s, before);
    if a != Connect(c) {
      assert Connect(c) in before;
      SlotConnects(role, c, s, before);
    } else if c !in t.clients {
      CanConnect(t, c);
    }
    if Enabled(t, a) {
      ClientStays(t, a, c);
    }
  }

  /** KicadGetTaskLogs up to the point where its goroutine starts. */
  method Await(w: World) returns (connected: bool)
    requires w.Valid() && w.c !in w.s.clients
    modifies w
    ensures w.Valid() && old(w.log) <= w.log
    ensures connected ==> w.Connected() && Fresh(w.role, w.Cl())
    ensures !connected ==> w.schedule == [] && w.c !in w.s.clients
    ensures (exists slot <- old(w.schedule) :: Connect(w.c) in slot) ==> connected
  {
    hide w.Valid(), Init, RunSlot, Fresh, Waits;
    while w.schedule != []
      invariant w.Valid() && old(w.log) <= w.log && w.c !in w.s.clients
      invariant (exists slot <- old(w.schedule) :: Connect(w.c) in slot) ==>
                  exists slot <- w.schedule :: Connect(w.c) in slot
      decreases |w.schedule|
    {
      w.Holds();
      ghost var s, slot, rest := w.s, w.schedule[0], w.schedule[1..];
      if Connect(w.c) in slot {
        SlotConnects(w.role, w.c, s, slot);
      }
      assert forall x <- w.schedule :: x == slot || x in rest;
      w.Yield();
      if w.c in w.s.clients {
        return true;
      }
    }
    return false;
  }

  /** The pump of a connection, from an untouched system on: whatever the plan of the
      others is, if the client connects in it the pump runs to its end. */
  method RunPump(init: System, c: ClientId, plan: seq<seq<Action>>) returns (w: World)
    requires Init(init)
    ensures w.Valid() && w.init == init && w.role.ThePump? && w.c == c && w.plan == plan
    ensures (exists slot <- plan :: Connect(c) in slot) ==> w.Connected()
    ensures if w.Connected() then Ended(w) && IsTranscript(w.Cl()) && IsLog(w.s, w.Cl()) else w.schedule == []
  {
    hide Waits, IsTranscript, IsLog, PumpReason, RunLog, RunSlot, Happened;
    w := new World(init, ThePump, c, plan);
    Unconnected(w);
    var connected := Await(w);
    if connected {
      PumpLogStream(w);
    }
  }

  /** And its write loop. */
  method RunWriteLoop(init: System, c: ClientId, plan: seq<seq<Action>>) returns (w: World)
    requires Init(init)
    ensures w.Valid() && w.init == init && w.role.TheWriter? && w.c == c && w.plan == plan
    ensures (exists slot <- plan :: Connect(c) in slot) ==> w.Connected()
    ensures if w.Connected() then LoopEnded(w) && w.Cl().sent <= w.Cl().Produced() else w.schedule == []
  {
    hide Waits, LoopReason, RunLog, RunSlot, Happened;
    w := new World(init, TheWriter, c, plan);
    Unconnected(w);
    var connected := Await(w);
    if connected {
      WriteLoop(w);
    }
  }

  lemma Unconnected(w: World)
    requires w.Valid() && w.log == []
    ensures w.c !in w.s.clients && w.schedule == w.plan
  {
  }
}
