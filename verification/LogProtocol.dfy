/** The build-log streaming protocol as a transition system.

    One worker appends to a stream that may lose entries at the front. Any
    number of clients each run a pump (backend/cmd/server/logs.go, pumpLogStream)
    and a write loop (KicadGetTaskLogs), joined by a bounded channel. Every
    atomic step of every party is one action, so a run is any interleaving. */
module LogProtocol {
  import opened Decimal
  import opened Frames
  import opened Tasks

  const MAX_LEN := 2000     // logstream.maxLen
  const READ_COUNT := 500   // wsReadCount
  const CHANNEL_SLOTS := 64

  /** A stream entry under its ID; "0", where pumps start, is 0. */
  datatype Record = Record(id: nat, entry: Entry)

  /** `Ended(stored)`: the deferred PublishEnd was called; stored if its XADD succeeded. */
  datatype Worker = NotStarted | Running | Ended(stored: bool)

  /** Why a pump returned. */
  datatype Exit = SawEnd | Finished | InspectorDown | Cancelled | RedisDown

  /** Where a pump stands. `Asking`: XREAD returned redis.Nil and
      taskStreamFinished is not called yet. */
  datatype Pump = Reading | Asking | Sending(rest: seq<Record>) | Closed(why: Exit)

  /** `Drained`: the close message was sent. */
  datatype Writer = Writing | Drained | Broken

  datatype Client = Client(
    pump: Pump, lastId: nat,
    channel: seq<Frame>,
    writer: Writer, cancelled: bool,
    broken: bool,         // the connection to the peer is, so pings and writes fail
    sent: seq<Frame>,     // text frames written to the socket
    // History, read by no step:
    lost: seq<Frame>,     // the frame a failing write took with it
    read: seq<Record>,    // everything XREAD returned
    upto: nat,            // position in the log just past the last entry read
    missed: set<nat>,     // positions the stream had dropped when a read passed them
    handed: nat,          // how many of `read` went into the channel
    batches: nat,         // XREADs that returned entries
    onClosed: bool,       // connected after the worker ended
    nilAt: nat,           // stream length at the last empty XREAD
    goneAtNil: bool,      // and whether the key had expired before
    askedAt: nat)         // stream length when taskStreamFinished was answered
  {
    /** All frames that ever went into the channel, in order. */
    function Produced(): seq<Frame> {
      sent + lost + channel
    }

    predicate GotEnd() {
      exists f <- sent :: f.EndFrame?
    }
  }

  type ClientId = nat

  datatype System = System(
    log: seq<Record>,     // every entry ever appended
    first: nat,           // the stream still holds log[first..]
    worker: Worker,
    task: Option<TaskState>,  // None: GetTaskInfo does not find it
    expired: bool,        // the key's TTL ran out
    timedOut: bool,       // asynq archived the task before its handler returned
    redisDown: bool,      // the server cannot reach Redis
    clients: map<ClientId, Client>)

  datatype ClientAction =
    | Cancel              // peer gone or lifetime over
    | Break
    | ReadBatch | ReadNil | ReadError
    | Ask(answered: bool) // GetTaskInfo answers, or fails for want of Redis
    | Push | NextRead | Quit
    | Write | WriteFails | Close | Stop

  datatype Action =
    | Start
    | AddLine(id: nat, ts: int, source: string, line: string)
    | AddEnd(id: nat, status: string)
    | LoseEnd             // the XADD of PublishEnd fails
    | Mark(outcome: TaskState)
    | Timeout | Evict | Delete
    | Trim(first: nat) | Expire
    | Outage(down: bool)
    | Connect(client: ClientId)
    | At(client: ClientId, step: ClientAction)

  function LastId(rs: seq<Record>): nat {
    if rs == [] then 0 else rs[|rs| - 1].id
  }

  function FramesOf(rs: seq<Record>): (fs: seq<Frame>)
    ensures |fs| == |rs|
    ensures forall i :: 0 <= i < |rs| ==> fs[i] == FrameOf(rs[i].entry)
  {
    seq(|rs|, i requires 0 <= i < |rs| => FrameOf(rs[i].entry))
  }

  /** XREAD's reply before COUNT: the entries with an ID greater than `id`. */
  function After(rs: seq<Record>, id: nat): (unread: seq<Record>)
    ensures |unread| <= |rs|
  {
    if rs == [] then []
    else if rs[0].id > id then [rs[0]] + After(rs[1..], id)
    else After(rs[1..], id)
  }

  function Unread(s: System, id: nat): seq<Record>
    requires s.first <= |s.log|
  {
    After(s.log[s.first..], id)
  }

  predicate TaskStreamFinished(task: Option<TaskState>) {
    task.None? || task.value.Finished()
  }

  function NewClient(onClosed: bool): Client {
    Client(Reading, 0, [], Writing, false, false, [], [], [], 0, {}, 0, 0, onClosed, 0, false, 0)
  }

  /* ------------------------------------------------------------- steps */

  predicate ClientEnabled(s: System, c: Client, a: ClientAction)
    requires s.first <= |s.log|
  {
    match a
    case Cancel => true
    case Break => true
    case ReadBatch => c.pump.Reading? && !s.redisDown && Unread(s, c.lastId) != []
    case ReadNil => c.pump.Reading? && !s.redisDown && Unread(s, c.lastId) == []
    case ReadError => c.pump.Reading? && (c.cancelled || s.redisDown)
    case Ask(answered) => c.pump.Asking? && answered == !s.redisDown
    case Push => c.pump.Sending? && c.pump.rest != [] && |c.channel| < CHANNEL_SLOTS
    case NextRead => c.pump.Sending? && c.pump.rest == []
    case Quit => c.cancelled && (c.pump.Reading? || (c.pump.Sending? && c.pump.rest != []))
    case Write => c.writer.Writing? && c.channel != [] && !c.broken
    case WriteFails => c.writer.Writing? && c.channel != [] && c.broken
    case Close => c.writer.Writing? && c.channel == [] && c.pump.Closed?
    case Stop => c.writer.Writing? && (c.cancelled || c.broken)  // ctx done, or a ping failed
  }

  /** COUNT caps the entries one XREAD returns. */
  function Batch(unread: seq<Record>): seq<Record> {
    if |unread| <= READ_COUNT then unread else unread[..READ_COUNT]
  }

  function Range(from: nat, to: nat): (r: set<nat>)
    ensures forall i :: i in r <==> from <= i < to
  {
    if to <= from then {} else Range(from, to - 1) + {to - 1}
  }

  function ReadBatchStep(s: System, c: Client): Client
    requires s.first <= |s.log|
  {
    var unread := Unread(s, c.lastId);
    var batch := Batch(unread);
    c.(pump := Sending(batch), read := c.read + batch, missed := c.missed + Range(c.upto, s.first),
       upto := |s.log| - |unread| + |batch|, batches := c.batches + 1)
  }

  function AskStep(s: System, c: Client, answered: bool): Client {
    if !answered then c.(pump := Closed(InspectorDown), askedAt := |s.log|)
    else if TaskStreamFinished(s.task) then c.(pump := Closed(Finished), askedAt := |s.log|)
    else c.(pump := Reading)
  }

  function PushStep(c: Client): Client
    requires c.pump.Sending? && c.pump.rest != []
  {
    var next := c.pump.rest[0];
    c.(lastId := next.id,
       channel := c.channel + [FrameOf(next.entry)],
       handed := c.handed + 1,
       pump := if next.entry.End? then Closed(SawEnd) else Sending(c.pump.rest[1..]))
  }

  function WriteStep(c: Client, fails: bool): Client
    requires c.channel != []
  {
    if fails then c.(lost := [c.channel[0]], channel := c.channel[1..], writer := Broken, cancelled := true)
    else c.(sent := c.sent + [c.channel[0]], channel := c.channel[1..])
  }

  function ClientStep(s: System, c: Client, a: ClientAction): Client
    requires s.first <= |s.log| && ClientEnabled(s, c, a)
  {
    match a
    case Cancel => c.(cancelled := true)
    case Break => c.(broken := true)
    case ReadBatch => ReadBatchStep(s, c)
    case ReadNil => c.(pump := Asking, nilAt := |s.log|, goneAtNil := s.expired)
    case ReadError => c.(pump := Closed(if c.cancelled then Cancelled else RedisDown))
    case Ask(answered) => AskStep(s, c, answered)
    case Push => PushStep(c)
    case NextRead => c.(pump := Reading)
    case Quit => c.(pump := Closed(Cancelled))
    case Write => WriteStep(c, false)
    case WriteFails => WriteStep(c, true)
    case Close => c.(writer := Drained, cancelled := true)
    case Stop => c.(writer := Broken, cancelled := true)
  }

  predicate Enabled(s: System, a: Action) {
    && s.first <= |s.log|
    && match a
       case Start => s.worker.NotStarted? && s.task == Some(Pending)
       case AddLine(id, ts, source, line) =>
         s.worker.Running? && id > LastId(s.log) && Line(ts, source, line).Publishable()
       case AddEnd(id, _) => s.worker.Running? && id > LastId(s.log)
       case LoseEnd => s.worker.Running?
       case Mark(outcome) => s.worker.Ended? && s.task == Some(Active) && outcome.Finished()
       case Timeout => s.task == Some(Active)
       case Evict => s.task.Some? && s.task.value.Finished()
       case Delete => s.task == Some(Pending)
       case Trim(first) => s.first <= first && first + MAX_LEN <= |s.log|
       case Expire => true
       case Outage(_) => true
       case Connect(c) => c !in s.clients
       case At(c, step) => c in s.clients && ClientEnabled(s, s.clients[c], step)
  }

  function Step(s: System, a: Action): System
    requires Enabled(s, a)
  {
    match a
    case Start => s.(worker := Running, task := Some(Active))
    case AddLine(id, ts, source, line) => s.(log := s.log + [Record(id, Line(ts, source, line))])
    case AddEnd(id, status) => s.(log := s.log + [Record(id, End(status))], worker := Ended(true))
    case LoseEnd => s.(worker := Ended(false))
    case Mark(outcome) => s.(task := Some(outcome))
    case Timeout => s.(task := Some(Archived(true)), timedOut := true)
    case Evict => s.(task := None)
    case Delete => s.(task := None)
    case Trim(first) => s.(first := first)
    case Expire => s.(first := |s.log|, expired := true)
    case Outage(down) => s.(redisDown := down)
    case Connect(c) => s.(clients := s.clients[c := NewClient(s.worker.Ended?)])
    case At(c, step) => s.(clients := s.clients[c := ClientStep(s, s.clients[c], step)])
  }

  /** A queued task, or an ID no task has. */
  predicate Init(s: System) {
    && s.log == [] && s.first == 0 && s.worker.NotStarted? && s.task in {Some(Pending), None}
    && !s.expired && !s.timedOut && !s.redisDown && s.clients == map[]
  }

  ghost predicate Legal(s: System, acts: seq<Action>)
    decreases |acts|, 0
  {
    acts == [] || (Legal(s, acts[..|acts| - 1]) && Enabled(Exec(s, acts[..|acts| - 1]), acts[|acts| - 1]))
  }

  ghost function Exec(s: System, acts: seq<Action>): System
    requires Legal(s, acts)
    decreases |acts|, 1
  {
    if acts == [] then s else Step(Exec(s, acts[..|acts| - 1]), acts[|acts| - 1])
  }

  /* --------------------------------------------------------- invariant */

  ghost predicate Increasing(rs: seq<Record>) {
    && (forall i :: 0 <= i < |rs| ==> rs[i].id > 0)
    && (forall i, j :: 0 <= i < j < |rs| ==> rs[i].id < rs[j].id)
  }

  ghost predicate StreamInv(s: System) {
    && Increasing(s.log)
    && (forall r <- s.log :: r.entry.Publishable())
    && s.first <= |s.log|
    && (!s.expired ==> s.first == 0 || s.first + MAX_LEN <= |s.log|)
    && (forall i :: 0 <= i < |s.log| && s.log[i].entry.End? ==> i == |s.log| - 1 && s.worker == Ended(true))
    && (s.worker == Ended(true) ==> s.log != [] && s.log[|s.log| - 1].entry.End?)
    && (s.worker.NotStarted? ==> s.log == [] && s.task in {Some(Pending), None} && !s.timedOut)
    && (s.worker.Running? ==> s.task == Some(Active) || s.timedOut)
  }

  /** `missed` are exactly the positions below `upto` whose entries were not read. */
  ghost predicate Covers(log: seq<Record>, read: seq<Record>, upto: nat, missed: set<nat>)
    requires upto <= |log|
  {
    && (forall r <- read :: r in log)
    && (forall i :: 0 <= i < upto ==> (log[i] in read <==> i !in missed))
    && (forall i <- missed :: i < upto)
  }

  /** What was read is log[..upto], but for the entries that were dropped first. */
  ghost predicate ReadInv(log: seq<Record>, first: nat, read: seq<Record>, upto: nat, missed: set<nat>) {
    && Increasing(read)
    && upto <= |log|
    && (if read == [] then upto == 0 else upto > 0 && read[|read| - 1] == log[upto - 1])
    && Covers(log, read, upto, missed)
    && (forall i <- missed :: i < first)
    && |read| <= upto && (|read| == upto ==> missed == {})
    && (missed == {} ==> read == log[..upto])
  }

  /** The frames handed over are those of the entries read, in order; no entry
      but the last one handed over is an end entry. */
  ghost predicate PumpInv(c: Client) {
    && c.handed <= |c.read|
    && c.Produced() == FramesOf(c.read[..c.handed])
    && |c.channel| <= CHANNEL_SLOTS
    && c.lastId == LastId(c.read[..c.handed])
    && (forall i :: 0 <= i < c.handed && c.read[i].entry.End? ==> i == c.handed - 1 && c.pump == Closed(SawEnd))
    && (match c.pump
        case Sending(rest) => rest == c.read[c.handed..]
        case Closed(SawEnd) => c.handed > 0 && c.handed == |c.read| && c.read[c.handed - 1].entry.End?
        case Closed(Cancelled) => true
        case _ => c.handed == |c.read|)
  }

  ghost predicate WriterInv(c: Client) {
    && (c.lost != [] ==> c.writer.Broken? && |c.lost| == 1)
    && (c.writer.Drained? ==> c.pump.Closed? && c.channel == [])
  }

  /** What an empty XREAD and the question after it saw of the stream. */
  ghost predicate StopInv(s: System, c: Client) {
    && (c.pump in {Asking, Closed(Finished), Closed(InspectorDown)} ==>
          c.upto <= c.nilAt <= |s.log| && (c.upto < c.nilAt ==> c.nilAt <= s.first))
    && (c.pump in {Asking, Closed(Finished), Closed(InspectorDown)} && s.worker == Ended(true) && c.nilAt == |s.log| ==>
          c.goneAtNil)
    && (c.pump == Closed(Finished) ==> c.nilAt <= c.askedAt <= |s.log|)
    && (c.pump == Closed(Finished) && !s.timedOut ==>
          c.askedAt == |s.log| && !s.worker.Running? && TaskStreamFinished(s.task))
  }

  /** Every read but the last takes READ_COUNT entries of a stream that no longer grows. */
  ghost predicate BatchInv(s: System, c: Client) {
    c.onClosed ==>
      && s.worker.Ended?
      && (|| READ_COUNT * c.batches <= c.upto
          || (c.upto == |s.log| && READ_COUNT * (c.batches - 1) < |s.log|))
  }

  ghost predicate ClientInv(s: System, c: Client) {
    ReadInv(s.log, s.first, c.read, c.upto, c.missed) && PumpInv(c) && WriterInv(c) && StopInv(s, c) && BatchInv(s, c)
  }

  ghost predicate Inv(s: System) {
    StreamInv(s) && forall c <- s.clients :: ClientInv(s, s.clients[c])
  }

  /* ------------------------------------------------------------ proofs */

  lemma {:induction false} AfterIsTail(rs: seq<Record>, id: nat, k: nat)
    requires k <= |rs|
    requires forall i :: 0 <= i < k ==> rs[i].id <= id
    requires forall i :: k <= i < |rs| ==> rs[i].id > id
    ensures After(rs, id) == rs[k..]
  {
    if rs != [] {
      AfterIsTail(rs[1..], id, if k == 0 then 0 else k - 1);
    }
  }

  function From(first: nat, upto: nat): nat {
    if upto < first then first else upto
  }

  lemma OlderAndNewer(log: seq<Record>, first: nat, read: seq<Record>, upto: nat)
    requires Increasing(log) && first <= |log| && upto <= |log|
    requires if read == [] then upto == 0 else upto > 0 && read[|read| - 1] == log[upto - 1]
    ensures forall i :: first <= i < From(first, upto) ==> log[i].id <= LastId(read)
    ensures forall i :: From(first, upto) <= i < |log| ==> log[i].id > LastId(read)
  {
  }

  /** XREAD returns the entries past the last one read that were not dropped. */
  lemma UnreadIsTail(s: System, c: Client)
    requires StreamInv(s) && ReadInv(s.log, s.first, c.read, c.upto, c.missed)
    ensures From(s.first, c.upto) <= |s.log|
    ensures Unread(s, LastId(c.read)) == s.log[From(s.first, c.upto)..]
  {
    hide Increasing, Covers, After, LastId;
    OlderAndNewer(s.log, s.first, c.read, c.upto);
    var tail := s.log[s.first..];
    var k := From(s.first, c.upto) - s.first;
    AfterIsTail(tail, LastId(c.read), k);
    assert tail[k..] == s.log[From(s.first, c.upto)..];
  }

  lemma ExtendIncreasing(log: seq<Record>, read: seq<Record>, upto: nat, from: nat, to: nat)
    requires Increasing(log) && Increasing(read) && upto <= from < to <= |log|
    requires if read == [] then upto == 0 else upto > 0 && read[|read| - 1] == log[upto - 1]
    ensures Increasing(read + log[from..to])
  {
    var all := read + log[from..to];
    forall i, j | 0 <= i < j < |all|
      ensures all[i].id < all[j].id
    {
      if i < |read| <= j {
        assert read[i].id <= log[upto - 1].id < log[from + (j - |read|)].id;
      }
    }
  }

  lemma ExtendCovers(log: seq<Record>, first: nat, read: seq<Record>, upto: nat, missed: set<nat>, to: nat)
    requires Increasing(log) && Increasing(read) && From(first, upto) < to <= |log|
    requires if read == [] then upto == 0 else upto > 0 && read[|read| - 1] == log[upto - 1]
    requires Covers(log, read, upto, missed)
    ensures Covers(log, read + log[From(first, upto)..to], to, missed + Range(upto, first))
  {
    var from := From(first, upto);
    var batch := log[from..to];
    forall i | 0 <= i < to
      ensures log[i] in read + batch <==> i !in missed + Range(upto, first)
    {
      BatchHolds(log, from, to, i);
      if upto <= i {
        NotReadYet(log, read, upto, i);
      }
    }
  }

  lemma BatchHolds(log: seq<Record>, from: nat, to: nat, i: nat)
    requires Increasing(log) && from <= to <= |log| && i < |log|
    ensures log[i] in log[from..to] <==> from <= i < to
  {
    if from <= i < to {
      assert log[from..to][i - from] == log[i];
    }
  }

  lemma NotReadYet(log: seq<Record>, read: seq<Record>, upto: nat, i: nat)
    requires Increasing(log) && Increasing(read) && upto <= i < |log|
    requires if read == [] then upto == 0 else upto > 0 && read[|read| - 1] == log[upto - 1]
    ensures log[i] !in read
  {
    forall k | 0 <= k < |read|
      ensures read[k].id < log[i].id
    {
      assert read[k].id <= log[upto - 1].id < log[i].id;
    }
  }

  lemma ExtendPrefix(log: seq<Record>, first: nat, read: seq<Record>, upto: nat, missed: set<nat>, to: nat)
    requires From(first, upto) < to <= |log|
    requires |read| <= upto && (|read| == upto ==> missed == {})
    requires missed == {} ==> read == log[..upto]
    ensures var all, m := read + log[From(first, upto)..to], missed + Range(upto, first);
            && |all| <= to && (|all| == to ==> m == {})
            && (m == {} ==> all == log[..to])
  {
    if upto < first {
      assert upto in Range(upto, first);
    } else {
      assert missed + Range(upto, first) == missed;
    }
  }

  lemma LastOfSlice(log: seq<Record>, read: seq<Record>, from: nat, to: nat)
    requires from < to <= |log|
    ensures var all := read + log[from..to]; all != [] && all[|all| - 1] == log[to - 1]
  {
  }

  lemma ReadInvParts(log: seq<Record>, first: nat, read: seq<Record>, upto: nat, missed: set<nat>)
    ensures ReadInv(log, first, read, upto, missed) <==>
            && Increasing(read)
            && upto <= |log|
            && (if read == [] then upto == 0 else upto > 0 && read[|read| - 1] == log[upto - 1])
            && Covers(log, read, upto, missed)
            && (forall i <- missed :: i < first)
            && |read| <= upto && (|read| == upto ==> missed == {})
            && (missed == {} ==> read == log[..upto])
  {
  }

  /** Appending the next stretch of the stream to what was read. */
  lemma ExtendRead(log: seq<Record>, first: nat, read: seq<Record>, upto: nat, missed: set<nat>, to: nat)
    requires Increasing(log) && ReadInv(log, first, read, upto, missed)
    requires From(first, upto) < to <= |log|
    ensures ReadInv(log, first, read + log[From(first, upto)..to], to, missed + Range(upto, first))
  {
    hide Increasing, Covers, ReadInv;
    ReadInvParts(log, first, read, upto, missed);
    ExtendIncreasing(log, read, upto, From(first, upto), to);
    ExtendCovers(log, first, read, upto, missed, to);
    ExtendPrefix(log, first, read, upto, missed, to);
    LastOfSlice(log, read, From(first, upto), to);
    ReadInvParts(log, first, read + log[From(first, upto)..to], to, missed + Range(upto, first));
  }

  lemma BatchIsSlice(log: seq<Record>, from: nat)
    requires from <= |log|
    ensures var to := if |log| - from <= READ_COUNT then |log| else from + READ_COUNT;
            Batch(log[from..]) == log[from..to]
  {
  }

  lemma ReadBatchReads(s: System, c: Client)
    requires StreamInv(s) && ReadInv(s.log, s.first, c.read, c.upto, c.missed)
    requires c.lastId == LastId(c.read) && Unread(s, c.lastId) != []
    ensures var d := ReadBatchStep(s, c);
            var from := From(s.first, c.upto);
            && from < |s.log|
            && d.upto == (if |s.log| - from <= READ_COUNT then |s.log| else from + READ_COUNT)
            && d == c.(pump := Sending(s.log[from..d.upto]), read := c.read + s.log[from..d.upto],
                       missed := c.missed + Range(c.upto, s.first), upto := d.upto, batches := c.batches + 1)
  {
    hide StreamInv, ReadInv, Unread, Batch, Range;
    UnreadIsTail(s, c);
    BatchIsSlice(s.log, From(s.first, c.upto));
  }

  lemma ReadBatchKeepsOtherInv(s: System, c: Client, d: Client)
    requires ClientInv(s, c) && StreamInv(s) && c.pump.Reading?
    requires d == c.(pump := d.pump, read := d.read, missed := d.missed, upto := d.upto, batches := c.batches + 1)
    requires ReadInv(s.log, s.first, d.read, d.upto, d.missed) && PumpInv(d) && d.pump.Sending?
    requires var from := From(s.first, c.upto);
             from < |s.log| && d.upto == (if |s.log| - from <= READ_COUNT then |s.log| else from + READ_COUNT)
    ensures ClientInv(s, d)
  {
    hide ReadInv, PumpInv, Increasing;
    assert c.upto <= |s.log| by {
      ReadInvBounds(s, c);
    }
  }

  lemma ReadInvBounds(s: System, c: Client)
    requires ReadInv(s.log, s.first, c.read, c.upto, c.missed)
    ensures c.upto <= |s.log|
  {
  }

  lemma ReadBatchKeepsInv(s: System, c: Client)
    requires StreamInv(s) && ClientInv(s, c) && c.pump.Reading? && Unread(s, c.lastId) != []
    ensures ClientInv(s, ReadBatchStep(s, c))
  {
    assert c.read[..c.handed] == c.read;
    var d := ReadBatchStep(s, c);
    hide ReadInv, StreamInv, Increasing, FramesOf, ReadBatchStep, Unread;
    assert Increasing(s.log) by {
      StreamIncreasing(s);
    }
    ReadBatchReads(s, c);
    ExtendRead(s.log, s.first, c.read, c.upto, c.missed, d.upto);
    ReadBatchKeepsPumpInv(c, d, s.log[From(s.first, c.upto)..d.upto]);
    ReadBatchKeepsOtherInv(s, c, d);
  }

  lemma StreamIncreasing(s: System)
    requires StreamInv(s)
    ensures Increasing(s.log)
  {
  }

  lemma ReadBatchKeepsPumpInv(c: Client, d: Client, batch: seq<Record>)
    requires PumpInv(c) && c.pump.Reading?
    requires d == c.(pump := Sending(batch), read := c.read + batch, missed := d.missed, upto := d.upto,
                     batches := c.batches + 1)
    ensures PumpInv(d)
  {
    assert c.read[..c.handed] == c.read;
    assert d.read[..d.handed] == c.read;
    assert d.read[d.handed..] == batch;
  }

  /** An empty XREAD has seen all entries dropped that were not read yet; the end
      entry only goes with the whole key. */
  lemma NilMeansDropped(s: System, c: Client)
    requires StreamInv(s) && ReadInv(s.log, s.first, c.read, c.upto, c.missed) && PumpInv(c)
    requires c.pump.Reading? && Unread(s, c.lastId) == []
    ensures c.upto <= |s.log| && (c.upto < |s.log| ==> |s.log| <= s.first)
    ensures s.worker == Ended(true) ==> s.expired
  {
    hide Unread, Covers, Increasing, FramesOf;
    assert c.read[..c.handed] == c.read;
    UnreadIsTail(s, c);
    assert c.read != [] ==> !c.read[|c.read| - 1].entry.End?;
  }

  lemma ReadNilKeepsPumpInv(c: Client, d: Client)
    requires PumpInv(c) && c.pump.Reading? && d == c.(pump := Asking, nilAt := d.nilAt, goneAtNil := d.goneAtNil)
    ensures PumpInv(d)
  {
    hide FramesOf;
    assert d.Produced() == c.Produced();
  }

  lemma ReadNilKeepsInv(s: System, c: Client)
    requires StreamInv(s) && ClientInv(s, c) && c.pump.Reading? && Unread(s, c.lastId) == []
    ensures ClientInv(s, c.(pump := Asking, nilAt := |s.log|, goneAtNil := s.expired))
  {
    hide StreamInv, ReadInv, PumpInv, Unread;
    NilMeansDropped(s, c);
    ReadNilKeepsPumpInv(c, c.(pump := Asking, nilAt := |s.log|, goneAtNil := s.expired));
  }

  lemma FramesOfSnoc(rs: seq<Record>, k: nat)
    requires k < |rs|
    ensures FramesOf(rs[..k + 1]) == FramesOf(rs[..k]) + [FrameOf(rs[k].entry)]
  {
  }

  /** The end entry is the last one of the stream, so it ends its batch. */
  lemma EndIsLastRead(s: System, read: seq<Record>, k: nat)
    requires StreamInv(s) && Increasing(read) && k < |read|
    requires forall r <- read :: r in s.log
    requires read[k].entry.End?
    ensures k == |read| - 1
  {
    if k < |read| - 1 {
      assert read[k] in s.log && read[k + 1] in s.log;
      var i :| 0 <= i < |s.log| && s.log[i] == read[k];
      var j :| 0 <= j < |s.log| && s.log[j] == read[k + 1];
      assert false;
    }
  }

  lemma PushKeepsPumpInv(c: Client, d: Client, next: Record)
    requires PumpInv(c) && c.pump.Sending? && c.pump.rest != [] && next == c.pump.rest[0]
    requires |c.channel| < CHANNEL_SLOTS
    requires next.entry.End? ==> c.handed == |c.read| - 1
    requires d == c.(lastId := next.id, channel := c.channel + [FrameOf(next.entry)], handed := c.handed + 1,
                     pump := if next.entry.End? then Closed(SawEnd) else Sending(c.pump.rest[1..]))
    ensures PumpInv(d)
  {
    assert next == c.read[c.handed];
    FramesOfSnoc(c.read, c.handed);
    assert d.Produced() == c.Produced() + [FrameOf(next.entry)];
    assert d.read[d.handed..] == c.read[c.handed..][1..];
    assert d.read[..d.handed][c.handed] == next;
  }

  lemma NextToPush(s: System, c: Client)
    requires StreamInv(s) && ReadInv(s.log, s.first, c.read, c.upto, c.missed) && PumpInv(c)
    requires c.pump.Sending? && c.pump.rest != []
    ensures var next := c.pump.rest[0];
            next.entry.End? ==> c.handed == |c.read| - 1
  {
    var next := c.read[c.handed];
    assert next in s.log;
    if next.entry.End? {
      EndIsLastRead(s, c.read, c.handed);
    }
  }

  lemma PushKeepsInv(s: System, c: Client)
    requires StreamInv(s) && ClientInv(s, c) && c.pump.Sending? && c.pump.rest != []
    requires |c.channel| < CHANNEL_SLOTS
    ensures ClientInv(s, PushStep(c))
  {
    NextToPush(s, c);
    PushedPumpInv(c);
    hide ClientInv, StreamInv, PumpInv;
    PushKeepsOtherInv(s, c, PushStep(c));
  }

  lemma PushedPumpInv(c: Client)
    requires PumpInv(c) && c.pump.Sending? && c.pump.rest != [] && |c.channel| < CHANNEL_SLOTS
    requires c.pump.rest[0].entry.End? ==> c.handed == |c.read| - 1
    ensures PumpInv(PushStep(c))
  {
    hide PumpInv;
    PushKeepsPumpInv(c, PushStep(c), c.pump.rest[0]);
  }

  lemma PushKeepsOtherInv(s: System, c: Client, d: Client)
    requires ClientInv(s, c) && c.pump.Sending? && PumpInv(d)
    requires d == c.(lastId := d.lastId, channel := d.channel, handed := d.handed, pump := d.pump)
    requires d.pump.Sending? || d.pump == Closed(SawEnd)
    ensures ClientInv(s, d)
  {
  }

  lemma WriteKeepsPumpInv(c: Client, fails: bool)
    requires PumpInv(c) && WriterInv(c) && c.writer.Writing? && c.channel != []
    ensures PumpInv(WriteStep(c, fails)) && WriterInv(WriteStep(c, fails))
  {
    var d := WriteStep(c, fails);
    assert c.channel == [c.channel[0]] + c.channel[1..];
    assert d.Produced() == c.Produced();
  }

  lemma WriteKeepsInv(s: System, c: Client, fails: bool)
    requires ClientInv(s, c) && c.writer.Writing? && c.channel != []
    ensures ClientInv(s, WriteStep(c, fails))
  {
    hide ReadInv, PumpInv, WriterInv;
    WriteKeepsPumpInv(c, fails);
  }

  lemma AnswerKeepsPumpInv(c: Client, d: Client)
    requires PumpInv(c) && WriterInv(c) && c.pump.Asking? && d == c.(pump := d.pump, askedAt := d.askedAt)
    requires d.pump in {Reading, Closed(Finished), Closed(InspectorDown)}
    ensures PumpInv(d) && WriterInv(d)
  {
    hide FramesOf;
    assert d.Produced() == c.Produced();
  }

  lemma AskChanges(s: System, c: Client, answered: bool)
    ensures var d := AskStep(s, c, answered);
            && d == c.(pump := d.pump, askedAt := d.askedAt)
            && d.pump in {Reading, Closed(Finished), Closed(InspectorDown)}
  {
    hide TaskStreamFinished;
  }

  lemma AskKeepsStopInv(s: System, c: Client, answered: bool)
    requires StreamInv(s) && StopInv(s, c) && BatchInv(s, c) && c.pump.Asking?
    ensures StopInv(s, AskStep(s, c, answered)) && BatchInv(s, AskStep(s, c, answered))
  {
    hide Increasing;
  }

  lemma AskKeepsInv(s: System, c: Client, answered: bool)
    requires StreamInv(s) && ClientInv(s, c) && c.pump.Asking?
    ensures ClientInv(s, AskStep(s, c, answered))
  {
    hide ReadInv, PumpInv, WriterInv, StopInv, BatchInv, StreamInv, AskStep;
    AskChanges(s, c, answered);
    AnswerKeepsPumpInv(c, AskStep(s, c, answered));
    AskKeepsStopInv(s, c, answered);
  }

  lemma StateStepKeepsInv(s: System, c: Client, d: Client)
    requires ClientInv(s, c)
    requires d == c.(pump := d.pump, writer := d.writer, cancelled := d.cancelled, broken := d.broken)
    requires || d.pump == c.pump
             || (c.pump == Sending([]) && d.pump.Reading?)
             || (c.pump.Reading? && d.pump == Closed(RedisDown))
             || ((c.pump.Reading? || c.pump.Sending?) && d.pump == Closed(Cancelled))
    requires d.writer == c.writer || (c.writer.Writing? && d.writer.Broken?)
             || (c.writer.Writing? && d.writer.Drained? && c.pump.Closed? && c.channel == [])
    ensures ClientInv(s, d)
  {
    assert d.Produced() == c.Produced();
  }

  lemma ClientStepKeepsInv(s: System, c: Client, a: ClientAction)
    requires StreamInv(s) && ClientInv(s, c) && ClientEnabled(s, c, a)
    ensures ClientInv(s, ClientStep(s, c, a))
  {
    match a
    case ReadBatch => ReadBatchKeepsInv(s, c);
    case ReadNil => ReadNilKeepsInv(s, c);
    case Push => PushKeepsInv(s, c);
    case Write => WriteKeepsInv(s, c, false);
    case WriteFails => WriteKeepsInv(s, c, true);
    case Ask(answered) => AskKeepsInv(s, c, answered);
    case _ => StateStepKeepsInv(s, c, ClientStep(s, c, a));
  }

  lemma AppendKeepsClientInv(s: System, r: Record, worker: Worker, c: Client)
    requires ClientInv(s, c) && s.worker.Running?
    ensures ClientInv(s.(log := s.log + [r], worker := worker), c)
  {
    assert (s.log + [r])[..c.upto] == s.log[..c.upto];
  }

  lemma IncreasingSnoc(rs: seq<Record>, r: Record)
    requires Increasing(rs) && r.id > LastId(rs)
    ensures Increasing(rs + [r])
  {
  }

  lemma AppendKeepsStreamInv(s: System, a: Action)
    requires StreamInv(s) && Enabled(s, a) && (a.AddLine? || a.AddEnd?)
    ensures StreamInv(Step(s, a))
  {
    hide Increasing;
    var r := if a.AddLine? then Record(a.id, Line(a.ts, a.source, a.line)) else Record(a.id, End(a.status));
    IncreasingSnoc(s.log, r);
    assert Step(s, a).log == s.log + [r];
  }

  /** Steps of the worker, asynq and the stream that append nothing. */
  lemma QuietStepKeepsClientInv(s: System, a: Action, c: Client)
    requires StreamInv(s) && ClientInv(s, c) && Enabled(s, a)
    requires !a.At? && !a.AddLine? && !a.AddEnd? && !a.Connect?
    ensures ClientInv(Step(s, a), c)
  {
    hide PumpInv, WriterInv, Increasing, FramesOf;
  }

  lemma StepKeepsClientInv(s: System, a: Action, c: Client)
    requires StreamInv(s) && ClientInv(s, c) && Enabled(s, a) && !a.At? && !a.Connect?
    ensures ClientInv(Step(s, a), c)
  {
    match a
    case AddLine(id, ts, source, line) =>
      AppendKeepsClientInv(s, Record(id, Line(ts, source, line)), s.worker, c);
    case AddEnd(id, status) =>
      AppendKeepsClientInv(s, Record(id, End(status)), Ended(true), c);
    case _ =>
      hide ClientInv, StreamInv;
      QuietStepKeepsClientInv(s, a, c);
  }

  lemma StepKeepsStreamInv(s: System, a: Action)
    requires StreamInv(s) && Enabled(s, a)
    ensures StreamInv(Step(s, a))
  {
    if a.AddLine? || a.AddEnd? {
      AppendKeepsStreamInv(s, a);
    }
  }

  lemma ConnectMakesInv(s: System)
    requires StreamInv(s)
    ensures ClientInv(s, NewClient(s.worker.Ended?))
  {
  }

  /** The stream's and a client's invariant do not depend on the other clients. */
  lemma InvFrame(s: System, t: System, c: Client)
    requires t == s.(clients := t.clients)
    ensures StreamInv(s) ==> StreamInv(t)
    ensures ClientInv(s, c) ==> ClientInv(t, c)
  {
  }

  lemma SetClientKeepsInv(s: System, e: ClientId, d: Client)
    requires Inv(s) && ClientInv(s, d)
    ensures Inv(s.(clients := s.clients[e := d]))
  {
    hide ClientInv, StreamInv;
    var t := s.(clients := s.clients[e := d]);
    InvFrame(s, t, d);
    forall c <- t.clients
      ensures ClientInv(t, t.clients[c])
    {
      InvFrame(s, t, t.clients[c]);
    }
  }

  lemma StepOfClient(s: System, e: ClientId, step: ClientAction)
    requires Enabled(s, At(e, step))
    ensures e in s.clients && ClientEnabled(s, s.clients[e], step)
    ensures Step(s, At(e, step)) == s.(clients := s.clients[e := ClientStep(s, s.clients[e], step)])
  {
  }

  lemma AtKeepsInv(s: System, e: ClientId, step: ClientAction)
    requires Inv(s) && Enabled(s, At(e, step))
    ensures Inv(Step(s, At(e, step)))
  {
    StepOfClient(s, e, step);
    assert StreamInv(s) && ClientInv(s, s.clients[e]);
    hide *;
    ClientStepKeepsInv(s, s.clients[e], step);
    SetClientKeepsInv(s, e, ClientStep(s, s.clients[e], step));
  }

  lemma StepKeepsInv(s: System, a: Action)
    requires Inv(s) && Enabled(s, a)
    ensures Inv(Step(s, a))
  {
    match a
    case At(e, step) =>
      AtKeepsInv(s, e, step);
    case Connect(c) =>
      hide ClientInv, StreamInv;
      ConnectMakesInv(s);
      SetClientKeepsInv(s, c, NewClient(s.worker.Ended?));
    case _ =>
      hide ClientInv, StreamInv;
      StepKeepsStreamInv(s, a);
      forall c <- s.clients
        ensures ClientInv(Step(s, a), s.clients[c])
      {
        StepKeepsClientInv(s, a, s.clients[c]);
      }
  }

  lemma {:induction false} RunsKeepInv(s: System, acts: seq<Action>)
    requires Init(s) && Legal(s, acts)
    ensures Inv(Exec(s, acts))
  {
    if acts != [] {
      RunsKeepInv(s, acts[..|acts| - 1]);
      StepKeepsInv(Exec(s, acts[..|acts| - 1]), acts[|acts| - 1]);
    }
  }

  /* ---------------------------------------------------------- theorems */

  /** `entries` are the oldest on the stream with IDs greater than `id`, 500 of them or
      all there are. */
  ghost predicate OldestPast(s: System, id: nat, entries: seq<Record>) {
    exists from: nat, to: nat ::
      && s.first <= from <= to <= |s.log| && entries == s.log[from..to]
      && (forall i :: s.first <= i < from ==> s.log[i].id <= id)
      && (forall i :: from <= i < |s.log| ==> s.log[i].id > id)
      && (to == from + 500 || (to == |s.log| && to - from < 500))
  }

  lemma BatchIsOldest(s: System, id: nat, from: nat)
    requires s.first <= from <= |s.log|
    requires forall i :: s.first <= i < from ==> s.log[i].id <= id
    requires forall i :: from <= i < |s.log| ==> s.log[i].id > id
    ensures OldestPast(s, id, Batch(s.log[from..]))
  {
    var to := if |s.log| - from < 500 then |s.log| else from + 500;
    assert Batch(s.log[from..]) == s.log[from..to];
  }

  lemma ReadsOldest(s: System, c: Client)
    requires StreamInv(s) && PumpInv(c) && ReadInv(s.log, s.first, c.read, c.upto, c.missed) && c.pump.Reading?
    ensures OldestPast(s, c.lastId, Batch(Unread(s, c.lastId)))
  {
    hide Increasing, Covers, Unread, Batch, FramesOf, LastId, OldestPast;
    assert c.read[..c.handed] == c.read;
    UnreadIsTail(s, c);
    OlderAndNewer(s.log, s.first, c.read, c.upto);
    BatchIsOldest(s, c.lastId, From(s.first, c.upto));
  }

  /** The frames of a client are those of what its pump read, in order. */
  ghost predicate IsTranscript(cl: Client) {
    && cl.handed <= |cl.read|
    && cl.sent + cl.lost + cl.channel == FramesOf(cl.read[..cl.handed])
    && |cl.lost| <= 1 && |cl.channel| <= 64
    && cl.lastId == LastId(cl.read[..cl.handed])
    && (cl.pump.Sending? ==> cl.pump.rest == cl.read[cl.handed..])
  }

  /** And what it read are the entries up to its last ID, but for `missed`. */
  ghost predicate IsLog(s: System, cl: Client) {
    && Increasing(cl.read)
    && (forall r <- cl.read :: r in s.log)
    && cl.upto <= |s.log|
    && (forall i :: 0 <= i < |s.log| ==> (i < cl.upto <==> s.log[i].id <= LastId(cl.read)))
    && (forall i :: 0 <= i < cl.upto ==> (s.log[i] in cl.read <==> i !in cl.missed))
    && (cl.missed == {} <==> cl.read == s.log[..cl.upto])
    && (|s.log| <= 2000 && !s.expired ==> cl.missed == {})
  }

  /** In every interleaving, a client's transcript is made of published entries
      in ID order, each once, up to the pump's last ID. An entry up to there is
      missing if and only if it is one of `missed`; without these the transcript is a
      prefix of the log. Nothing is missed while at most 2000 entries were
      published and the key has not expired. */
  lemma Transcript(s0: System, acts: seq<Action>, c: ClientId)
    requires Init(s0) && Legal(s0, acts) && c in Exec(s0, acts).clients
    ensures IsTranscript(Exec(s0, acts).clients[c]) && IsLog(Exec(s0, acts), Exec(s0, acts).clients[c])
  {
    hide Step, Enabled, Init, ClientInv, StreamInv, IsTranscript, IsLog;
    RunsKeepInv(s0, acts);
    var s := Exec(s0, acts);
    InvParts(s, s.clients[c]);
    TranscriptAt(s.clients[c]);
    LogAt(s, s.clients[c]);
  }

  lemma InvParts(s: System, c: Client)
    requires StreamInv(s) && ClientInv(s, c)
    ensures Increasing(s.log) && ReadInv(s.log, s.first, c.read, c.upto, c.missed) && PumpInv(c) && WriterInv(c)
    ensures !s.expired ==> s.first == 0 || s.first + MAX_LEN <= |s.log|
  {
  }

  lemma TranscriptAt(cl: Client)
    requires PumpInv(cl) && WriterInv(cl)
    ensures IsTranscript(cl)
  {
    hide FramesOf;
  }

  lemma LogAt(s: System, cl: Client)
    requires Increasing(s.log) && ReadInv(s.log, s.first, cl.read, cl.upto, cl.missed)
    requires !s.expired ==> s.first == 0 || s.first + MAX_LEN <= |s.log|
    ensures IsLog(s, cl)
  {
    forall i | 0 <= i < |s.log|
      ensures i < cl.upto <==> s.log[i].id <= LastId(cl.read)
    {
      if cl.read != [] && i < cl.upto - 1 {
        assert s.log[i].id < s.log[cl.upto - 1].id;
      }
    }
    if cl.missed != {} {
      var i :| i in cl.missed;
      assert s.log[..cl.upto][i] == s.log[i];
    }
  }

  /** The position was passed by a read of the pump that found it dropped. */
  ghost predicate DroppedFirst(s0: System, acts: seq<Action>, c: ClientId, i: nat, k: nat)
    requires Legal(s0, acts)
  {
    && k < |acts| && acts[k] == At(c, ReadBatch) && Legal(s0, acts[..k])
    && var s := Exec(s0, acts[..k]);
       c in s.clients && s.clients[c].upto <= i < s.first
  }

  /** Every missed entry was dropped before a read passed it, the one that went on
      behind it. */
  lemma {:induction false} MissedWasDropped(s0: System, acts: seq<Action>, c: ClientId, i: nat) returns (k: nat)
    requires Legal(s0, acts) && c in Exec(s0, acts).clients && i in Exec(s0, acts).clients[c].missed
    requires Init(s0)
    ensures DroppedFirst(s0, acts, c, i, k)
  {
    hide Step, Enabled;
    if acts == [] {
      assert false;
    } else {
      var n := |acts| - 1;
      var s, a := Exec(s0, acts[..n]), acts[n];
      MissedGrows(s, a, c, i);
      if c in s.clients && i in s.clients[c].missed {
        k := MissedWasDropped(s0, acts[..n], c, i);
        assert acts[..n][..k] == acts[..k];
      } else {
        k := n;
      }
    }
  }

  /** And what was dropped before a read passed it is missed for good. */
  lemma {:induction false} DroppedIsMissed(s0: System, acts: seq<Action>, c: ClientId, i: nat, k: nat)
    requires Legal(s0, acts) && DroppedFirst(s0, acts, c, i, k)
    ensures c in Exec(s0, acts).clients && i in Exec(s0, acts).clients[c].missed
  {
    hide Step, Enabled;
    var n := |acts| - 1;
    var s := Exec(s0, acts[..n]);
    if k < n {
      assert acts[..n][..k] == acts[..k];
      DroppedIsMissed(s0, acts[..n], c, i, k);
      MissedStays(s, acts[n], c, i);
    } else {
      MissedStays(s, acts[n], c, i);
    }
  }

  lemma MissedStays(s: System, a: Action, c: ClientId, i: nat)
    requires Enabled(s, a) && c in s.clients
    requires i in s.clients[c].missed || (a == At(c, ReadBatch) && s.clients[c].upto <= i < s.first)
    ensures c in Step(s, a).clients && i in Step(s, a).clients[c].missed
  {
    hide ClientStep, ClientEnabled;
    if a.At? && a.client == c {
      MissedGrowsAt(s, s.clients[c], a.step);
    }
  }

  lemma MissedGrows(s: System, a: Action, c: ClientId, i: nat)
    requires Enabled(s, a) && c in Step(s, a).clients && i in Step(s, a).clients[c].missed
    ensures c in s.clients
    ensures i in s.clients[c].missed || (a == At(c, ReadBatch) && s.clients[c].upto <= i < s.first)
  {
    hide ClientStep, ClientEnabled;
    if a.At? && a.client == c {
      MissedGrowsAt(s, s.clients[c], a.step);
    }
  }

  lemma MissedGrowsAt(s: System, c: Client, a: ClientAction)
    requires s.first <= |s.log| && ClientEnabled(s, c, a)
    ensures ClientStep(s, c, a).missed == c.missed + (if a.ReadBatch? then Range(c.upto, s.first) else {})
  {
    hide Unread, Batch, Range, FramesOf, FrameOf, TaskStreamFinished;
  }

  lemma EndFramesEnd(s: System, c: Client, i: nat)
    requires PumpInv(c) && i < |c.sent| && c.sent[i].EndFrame?
    ensures i == |c.sent| - 1 && c.pump == Closed(SawEnd)
    ensures c.lost == [] && c.channel == []
  {
    assert c.Produced()[i] == c.sent[i];
    assert FramesOf(c.read[..c.handed])[i] == FrameOf(c.read[i].entry);
    assert |c.Produced()| == c.handed;
  }

  /** The write loop sends a prefix of what the pump produced, in order; leaving
      through the closed channel it has sent all of it. Nothing follows an end
      frame. */
  lemma WriteLoopSendsPrefix(s0: System, acts: seq<Action>, c: ClientId)
    requires Init(s0) && Legal(s0, acts) && c in Exec(s0, acts).clients
    ensures var cl := Exec(s0, acts).clients[c];
            && cl.sent <= cl.Produced()
            && (cl.writer.Drained? ==> cl.pump.Closed? && cl.sent == cl.Produced())
            && (forall i :: 0 <= i < |cl.sent| && cl.sent[i].EndFrame? ==> i == |cl.sent| - 1)
  {
    RunsKeepInv(s0, acts);
    var s := Exec(s0, acts);
    assert StreamInv(s) && ClientInv(s, s.clients[c]);
    hide Legal, Exec, Inv, StreamInv, ReadInv, FramesOf;
    forall i | 0 <= i < |s.clients[c].sent| && s.clients[c].sent[i].EndFrame?
      ensures i == |s.clients[c].sent| - 1
    {
      EndFramesEnd(s, s.clients[c], i);
    }
  }

  lemma GotEndMeansAll(s: System, c: Client)
    requires StreamInv(s) && ClientInv(s, c) && c.GotEnd()
    ensures c.sent == FramesOf(s.log) <==> c.missed == {}
    ensures |c.sent| == |s.log| <==> c.missed == {}
    ensures s.log != [] && s.log[|s.log| - 1].entry.End?
  {
    hide StreamInv, ClientInv, ReadInv, PumpInv, WriterInv, FramesOf;
    InvParts(s, c);
    var i :| 0 <= i < |c.sent| && c.sent[i].EndFrame?;
    EndFramesEnd(s, c, i);
    SentIsRead(c);
    EndIsLastOfLog(s, c);
    NoneMissed(s.log, s.first, c.read, c.upto, c.missed);
  }

  lemma NoneMissed(log: seq<Record>, first: nat, read: seq<Record>, upto: nat, missed: set<nat>)
    requires ReadInv(log, first, read, upto, missed)
    ensures missed == {} && upto == |log| ==> read == log
    ensures |read| == upto ==> missed == {}
  {
    hide Increasing, Covers;
    assert log[..|log|] == log;
  }

  lemma SentIsRead(c: Client)
    requires PumpInv(c) && c.pump == Closed(SawEnd) && c.lost == [] && c.channel == []
    ensures c.sent == FramesOf(c.read) && |c.sent| == |c.read|
  {
    hide FramesOf;
    assert c.read[..c.handed] == c.read;
  }

  lemma EndIsLastOfLog(s: System, c: Client)
    requires StreamInv(s) && ReadInv(s.log, s.first, c.read, c.upto, c.missed) && PumpInv(c) && c.pump == Closed(SawEnd)
    ensures c.upto == |s.log| && s.log != [] && s.log[|s.log| - 1].entry.End?
  {
    hide FramesOf, Increasing, Covers;
    assert c.read[|c.read| - 1] == s.log[c.upto - 1];
  }

  /** Backfill and live tail are confluent: a client that got the end frame holds
      the transcript of the whole stream if and only if it missed nothing; so any two
      that missed nothing hold the same one, whenever they connected, however
      their reads were batched, and whatever became of the stream afterwards. */
  lemma Confluence(s0: System, acts: seq<Action>, c: ClientId, d: ClientId)
    requires Init(s0) && Legal(s0, acts)
    requires c in Exec(s0, acts).clients && d in Exec(s0, acts).clients
    requires Exec(s0, acts).clients[c].GotEnd() && Exec(s0, acts).clients[d].GotEnd()
    ensures var s := Exec(s0, acts);
            && (s.clients[c].sent == FramesOf(s.log) <==> s.clients[c].missed == {})
            && (s.clients[d].sent == FramesOf(s.log) <==> s.clients[d].missed == {})
            && (s.clients[c].missed == s.clients[d].missed == {} ==> s.clients[c].sent == s.clients[d].sent)
  {
    hide Step, Enabled, Init, ClientInv, StreamInv, FramesOf;
    RunsKeepInv(s0, acts);
    var s := Exec(s0, acts);
    GotEndMeansAll(s, s.clients[c]);
    GotEndMeansAll(s, s.clients[d]);
  }

  /** A client of a closed stream of n entries makes at most ceil(n / 500)
      reads that return entries, and until its pump returns each read returns
      some: XREAD never comes back empty from a stream that holds its end entry. */
  lemma ClosedStreamIsDrained(s0: System, acts: seq<Action>, c: ClientId)
    requires Init(s0) && Legal(s0, acts) && c in Exec(s0, acts).clients
    ensures var s := Exec(s0, acts); var cl := s.clients[c];
            && (cl.onClosed ==> cl.batches <= (|s.log| + 499) / 500)
            && (s.worker == Ended(true) && !s.expired && cl.pump.Reading? ==>
                  s.first <= |s.log| && Unread(s, cl.lastId) != [])
  {
    RunsKeepInv(s0, acts);
    var s := Exec(s0, acts);
    assert StreamInv(s) && ClientInv(s, s.clients[c]);
    hide Legal, Exec, Inv;
    if s.worker == Ended(true) && !s.expired && s.clients[c].pump.Reading? {
      EndStillUnread(s, s.clients[c]);
    }
  }

  /** A pump that has not returned has not read the end entry of the stream. */
  lemma EndStillUnread(s: System, c: Client)
    requires StreamInv(s) && ClientInv(s, c) && s.worker == Ended(true) && !s.expired
    requires c.handed == |c.read| && c.pump != Closed(SawEnd)
    ensures c.upto < |s.log| && s.first < |s.log|
    ensures Unread(s, LastId(c.read)) != []
    ensures c.lastId == LastId(c.read)
  {
    hide Unread, Covers, Increasing, FramesOf, WriterInv, StopInv, BatchInv;
    assert c.read[..c.handed] == c.read;
    assert c.read != [] ==> !c.read[|c.read| - 1].entry.End?;
    UnreadIsTail(s, c);
  }

  /** A pump that leaves because taskStreamFinished said so has handed over all it
      read. If it missed nothing that is the stream as its last empty XREAD saw
      it. Unless asynq timed the task out, no more is to come, and the client lacks
      nothing if and only if nothing was missed and nothing appended between that
      XREAD and the inspector's answer. And if the worker's end entry was stored
      (and the key had not expired before the XREAD), something was appended:
      taken as one atomic observation, the two steps never lose anything. */
  lemma EarlyStop(s0: System, acts: seq<Action>, c: ClientId)
    requires Init(s0) && Legal(s0, acts) && c in Exec(s0, acts).clients
    requires Exec(s0, acts).clients[c].pump == Closed(Finished)
    ensures var s := Exec(s0, acts); var cl := s.clients[c];
            && cl.upto <= cl.nilAt <= cl.askedAt <= |s.log|
            && cl.Produced() == FramesOf(cl.read)
            && (cl.Produced() == FramesOf(s.log[..cl.nilAt]) <==> cl.missed == {} && cl.upto == cl.nilAt)
            && (!s.timedOut ==> cl.askedAt == |s.log| && s.worker != Running)
            && (!s.timedOut && s.task.Some? ==> s.task.value.Completed? || s.task.value.Archived?)
            && (!s.timedOut ==>
                  (cl.Produced() == FramesOf(s.log) <==> cl.missed == {} && cl.upto == cl.nilAt == cl.askedAt))
            && (!s.timedOut && s.worker == Ended(true) && !cl.goneAtNil ==> cl.nilAt < cl.askedAt)
  {
    hide Step, Enabled, Init, ClientInv, StreamInv, FramesOf;
    RunsKeepInv(s0, acts);
    var s := Exec(s0, acts);
    StoppedAt(s, s.clients[c]);
    StoppedTranscript(s, s.clients[c]);
  }

  lemma StoppedAt(s: System, c: Client)
    requires ClientInv(s, c) && c.pump == Closed(Finished)
    ensures c.upto <= c.nilAt <= c.askedAt <= |s.log|
    ensures !s.timedOut ==> c.askedAt == |s.log| && s.worker != Running
    ensures !s.timedOut && s.task.Some? ==> s.task.value.Completed? || s.task.value.Archived?
    ensures !s.timedOut && s.worker == Ended(true) && !c.goneAtNil ==> c.nilAt < c.askedAt
  {
    hide ReadInv, PumpInv;
  }

  lemma StoppedTranscript(s: System, c: Client)
    requires ClientInv(s, c) && c.pump == Closed(Finished)
    ensures c.nilAt <= |s.log| && c.Produced() == FramesOf(c.read)
    ensures c.Produced() == FramesOf(s.log[..c.nilAt]) <==> c.missed == {} && c.upto == c.nilAt
    ensures c.askedAt == |s.log| ==>
              (c.Produced() == FramesOf(s.log) <==> c.missed == {} && c.upto == c.nilAt == c.askedAt)
  {
    assert c.read[..c.handed] == c.read;
    assert s.log[..|s.log|] == s.log;
    assert |c.Produced()| == |c.read|;
  }

  ghost predicate Reaches(s0: System, acts: seq<Action>, s: System) {
    Legal(s0, acts) && Exec(s0, acts) == s
  }

  lemma ReachNext(s0: System, acts: seq<Action>, s: System, a: Action)
    requires Reaches(s0, acts, s) && Enabled(s, a)
    ensures Reaches(s0, acts + [a], Step(s, a))
  {
    assert (acts + [a])[..|acts|] == acts;
  }

  /** The build succeeded, its end entry is on the stream, nothing failed, was
      dropped or timed out; and yet the client was sent a clean close without it. */
  ghost predicate CleanCloseWithoutEnd(s: System, c: ClientId) {
    && s.worker == Ended(true) && s.task == Some(Completed) && s.first == 0 && !s.expired && !s.timedOut
    && c in s.clients && s.clients[c].writer.Drained? && !s.clients[c].GotEnd()
  }

  lemma ReachEmptyRead() returns (s0: System, acts: seq<Action>, s: System)
    ensures Init(s0) && Reaches(s0, acts, s)
    ensures s == System([], 0, Running, Some(Active), false, false, false, map[0 := NewClient(false).(pump := Asking)])
  {
    s0 := System([], 0, NotStarted, Some(Pending), false, false, false, map[]);
    ReachNext(s0, [], s0, Start);
    var s1 := Step(s0, Start);
    ReachNext(s0, [Start], s1, Connect(0));
    var s2 := Step(s1, Connect(0));
    assert Unread(s2, 0) == [];
    acts := [Start] + [Connect(0)];
    ReachNext(s0, acts, s2, At(0, ReadNil));
    acts := acts + [At(0, ReadNil)];
    s := Step(s2, At(0, ReadNil));
  }

  lemma AskAfterEnd(s0: System, acts: seq<Action>, s: System)
    requires Reaches(s0, acts, s)
    requires s == System([Record(1, End("success"))], 0, Ended(true), Some(Completed), false, false, false,
                         map[0 := NewClient(false).(pump := Asking)])
    ensures exists more, t :: Reaches(s0, more, t) && CleanCloseWithoutEnd(t, 0)
  {
    var a := At(0, Ask(true));
    ReachNext(s0, acts, s, a);
    var s1 := Step(s, a);
    ReachNext(s0, acts + [a], s1, At(0, Close));
    assert CleanCloseWithoutEnd(Step(s1, At(0, Close)), 0);
  }

  /** The race is real: the comment in pumpLogStream, that a finished task's
      stream has been drained before that branch, fails when the end entry and
      the terminal state both come between the empty XREAD and GetTaskInfo. */
  lemma RaceLosesEnd()
    ensures exists s0, acts, s :: Init(s0) && Reaches(s0, acts, s) && CleanCloseWithoutEnd(s, 0)
  {
    var s0, acts, s := ReachEmptyRead();
    var end := AddEnd(1, "success");
    ReachNext(s0, acts, s, end);
    var s1 := Step(s, end);
    ReachNext(s0, acts + [end], s1, Mark(Completed));
    AskAfterEnd(s0, acts + [end] + [Mark(Completed)], Step(s1, Mark(Completed)));
  }

  /** And a client can get all: a run in which one reads the end entry, is sent it, and
      then the close message. */
  lemma EndIsSent()
    ensures exists s0, acts, s ::
              && Init(s0) && Reaches(s0, acts, s) && s.log != [] && 0 in s.clients
              && s.clients[0].writer.Drained? && s.clients[0].GotEnd() && s.clients[0].missed == {}
  {
    var s0, acts, s := ReachEnd();
    var c := Step(s, At(0, Push)).clients[0];
    ReachNext(s0, acts, s, At(0, Push));
    EndIsWritten(s0, acts + [At(0, Push)], s.(clients := map[0 := c]), c);
  }

  /** A client about to be handed the end entry. */
  lemma ReachEnd() returns (s0: System, acts: seq<Action>, s: System)
    ensures Init(s0) && Reaches(s0, acts, s)
    ensures var end := Record(1, End("success"));
            s == System([end], 0, Ended(true), Some(Active), false, false, false,
                        map[0 := NewClient(true).(pump := Sending([end]), read := [end], upto := 1, batches := 1)])
  {
    s0, acts, s := ReachConnected();
    assert s.log[s.first..] == s.log && After(s.log, 0) == s.log;
    assert Range(0, 0) == {} && [] + s.log == s.log;
    ReachNext(s0, acts, s, At(0, ReadBatch));
    acts := acts + [At(0, ReadBatch)];
    s := Step(s, At(0, ReadBatch));
    assert s.clients[0].missed == {};
  }

  lemma ReachConnected() returns (s0: System, acts: seq<Action>, s: System)
    ensures Init(s0) && Reaches(s0, acts, s)
    ensures s == System([Record(1, End("success"))], 0, Ended(true), Some(Active), false, false, false,
                        map[0 := NewClient(true)])
  {
    s0 := System([], 0, NotStarted, Some(Pending), false, false, false, map[]);
    ReachNext(s0, [], s0, Start);
    s := Step(s0, Start);
    acts := [] + [Start];
    var end := AddEnd(1, "success");
    ReachNext(s0, acts, s, end);
    acts := acts + [end];
    s := Step(s, end);
    ReachNext(s0, acts, s, Connect(0));
    acts := acts + [Connect(0)];
    s := Step(s, Connect(0));
  }

  lemma EndIsWritten(s0: System, acts: seq<Action>, s: System, c: Client)
    requires Init(s0) && Reaches(s0, acts, s) && s.log != [] && s.first <= |s.log| && s.clients == map[0 := c]
    requires c.channel == [EndFrame("success")] && c.writer.Writing? && !c.broken && c.pump.Closed? && c.missed == {}
    ensures exists s0, acts, s ::
              && Init(s0) && Reaches(s0, acts, s) && s.log != [] && 0 in s.clients
              && s.clients[0].writer.Drained? && s.clients[0].GotEnd() && s.clients[0].missed == {}
  {
    hide Reaches, Init;
    ReachNext(s0, acts, s, At(0, Write));
    var t := Step(s, At(0, Write));
    assert EndFrame("success") in t.clients[0].sent;
    ReachNext(s0, acts + [At(0, Write)], t, At(0, Close));
  }

  /** n entries of a running build. */
  function Lines(n: nat): (rs: seq<Record>)
    ensures |rs| == n
  {
    seq(n, i requires 0 <= i < n => Record(i + 1, Line(0, "worker", "")))
  }

  lemma {:induction false} ReachLines(n: nat) returns (s0: System, acts: seq<Action>)
    ensures Init(s0)
    ensures Reaches(s0, acts, System(Lines(n), 0, Running, Some(Active), false, false, false, map[]))
  {
    if n == 0 {
      s0 := System([], 0, NotStarted, Some(Pending), false, false, false, map[]);
      acts := [Start];
      ReachNext(s0, [], s0, Start);
      assert Lines(0) == [];
    } else {
      s0, acts := ReachLines(n - 1);
      var s := System(Lines(n - 1), 0, Running, Some(Active), false, false, false, map[]);
      var a := AddLine(n, 0, "worker", "");
      ReachNext(s0, acts, s, a);
      acts := acts + [a];
      assert Lines(n) == Lines(n - 1) + [Record(n, Line(0, "worker", ""))];
    }
  }

  /** With one entry more than the 2000 of IsLog, one can be missed. */
  lemma OneTooMany()
    ensures exists s0, acts, s ::
              && Init(s0) && Reaches(s0, acts, s) && |s.log| == 2001 && !s.expired
              && 0 in s.clients && s.clients[0].missed != {}
  {
    var s0, acts := ReachLines(2001);
    hide Lines;
    var s := System(Lines(2001), 0, Running, Some(Active), false, false, false, map[]);
    OneDropped(s0, acts, s);
  }

  lemma FirstIsUnread(s: System)
    requires s.first < |s.log| && s.log == Lines(2001)
    ensures Unread(s, 0) != []
  {
    assert s.log[s.first..][0] == s.log[s.first];
  }

  lemma OneDropped(s0: System, acts: seq<Action>, s: System)
    requires Init(s0) && Reaches(s0, acts, s)
    requires s == System(Lines(2001), 0, Running, Some(Active), false, false, false, map[])
    ensures exists s0, acts, s ::
              && Init(s0) && Reaches(s0, acts, s) && |s.log| == 2001 && !s.expired
              && 0 in s.clients && s.clients[0].missed != {}
  {
    hide Reaches, Init, Lines;
    ReachNext(s0, acts, s, Trim(1));
    var more, t := acts + [Trim(1)], Step(s, Trim(1));
    ReachNext(s0, more, t, Connect(0));
    more, t := more + [Connect(0)], Step(t, Connect(0));
    FirstIsUnread(t);
    ReachNext(s0, more, t, At(0, ReadBatch));
    more, t := more + [At(0, ReadBatch)], Step(t, At(0, ReadBatch));
    assert 0 in t.clients[0].missed;
  }
}
