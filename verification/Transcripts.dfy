/** What a client of the log socket holds of one build: the entries the handler of
    backend/internal/worker/task_handler.go leaves on the stream (BuildTask), as
    the pump and write loop of backend/cmd/server/logs.go pass them on (LogProtocol). */
module Transcripts {
  import opened BuildTask
  import opened Frames
  import opened LogProtocol
  import opened LogStream

  /** An entry without the time of its publishing. */
  function MessageOf(e: Entry): Message {
    match e
    case Line(_, source, line) => Text(source, line)
    case End(status) => Finish(status)
  }

  /** What a frame tells its reader. */
  function Told(f: Frame): Message {
    match f
    case LineFrame(_, source, line) => Text(source, line)
    case EndFrame(status) => Finish(status)
  }

  function MessagesOf(rs: seq<Record>): (ms: seq<Message>)
    ensures |ms| == |rs|
  {
    seq(|rs|, i requires 0 <= i < |rs| => MessageOf(rs[i].entry))
  }

  function Received(fs: seq<Frame>): (ms: seq<Message>)
    ensures |ms| == |fs|
  {
    seq(|fs|, i requires 0 <= i < |fs| => Told(fs[i]))
  }

  /** What the worker of a run appended. */
  function Added(acts: seq<Action>): seq<Message> {
    if acts == [] then []
    else
      Added(acts[..|acts| - 1])
      + (match acts[|acts| - 1]
         case AddLine(_, _, source, line) => [Text(source, line)]
         case AddEnd(_, status) => [Finish(status)]
         case _ => [])
  }

  lemma MessagesSnoc(rs: seq<Record>, r: Record)
    ensures MessagesOf(rs + [r]) == MessagesOf(rs) + [MessageOf(r.entry)]
  {
  }

  lemma {:induction false} LogIsAdded(s: System, acts: seq<Action>)
    requires Init(s) && Legal(s, acts)
    ensures MessagesOf(Exec(s, acts).log) == Added(acts)
  {
    hide MessagesOf, ClientStep, ClientEnabled;
    if acts == [] {
      assert MessagesOf([]) == [];
    } else {
      var t, a := Exec(s, acts[..|acts| - 1]), acts[|acts| - 1];
      LogIsAdded(s, acts[..|acts| - 1]);
      match a {
        case AddLine(id, ts, source, line) => MessagesSnoc(t.log, Record(id, Line(ts, source, line)));
        case AddEnd(id, status) => MessagesSnoc(t.log, Record(id, End(status)));
        case _ =>
      }
    }
  }

  /** The frames of entries tell what the entries say. */
  lemma FramesTell(rs: seq<Record>)
    ensures Received(FramesOf(rs)) == MessagesOf(rs)
  {
  }

  /** The transcript of a build whose end entry was stored: of its markers, its
      output lines and its later markers those whose XADD succeeded, then the status. */
  function BuildLog(before: seq<string>, lines: seq<string>, after: seq<string>, status: string, ok: nat -> bool)
    : seq<Message>
  {
    Delivered(Texts(WORKER, before), 0, ok)
    + Delivered(Texts(KBPLACER, lines), |before|, ok)
    + Delivered(Texts(WORKER, after), |before| + |lines|, ok)
    + [Finish(status)]
  }

  /** A client that missed nothing holds a prefix of the log. */
  lemma PrefixReceived(s: System, c: Client)
    requires IsTranscript(c) && IsLog(s, c) && c.missed == {}
    ensures Received(c.sent) <= MessagesOf(s.log)
  {
    hide Increasing, LastId;
    var fs := FramesOf(c.read[..c.handed]);
    forall i | 0 <= i < |c.sent|
      ensures i < |s.log| && Told(c.sent[i]) == MessageOf(s.log[i].entry)
    {
      assert c.sent[i] == (c.sent + c.lost + c.channel)[i] == fs[i];
    }
  }

  lemma AllReceived(s: System, c: Client)
    requires StreamInv(s) && ClientInv(s, c) && c.GotEnd()
    ensures MessagesOf(s.log) != [] && MessagesOf(s.log)[|s.log| - 1].Finish?
    ensures Received(c.sent) == MessagesOf(s.log) <==> c.missed == {}
  {
    hide StreamInv, ClientInv, FramesOf;
    GotEndMeansAll(s, c);
    FramesTell(s.log);
  }

  /** A prefix that holds the end entry is all of the stream. */
  lemma EndMeansWhole(before: seq<string>, lines: seq<string>, after: seq<string>, status: string, ok: nat -> bool,
                      added: seq<Message>)
    requires added <= Delivered(Attempts(before, lines, after, status), 0, ok)
    requires added != [] && added[|added| - 1].Finish?
    ensures added == Delivered(Attempts(before, lines, after, status), 0, ok)
         == BuildLog(before, lines, after, status, ok)
    ensures ok(|before| + |lines| + |after|)
  {
    hide Attempts, Delivered, Texts;
    EndIsLast(before, lines, after, status, ok);
    StreamOfAttempts(before, lines, after, status, ok);
    var stream := Delivered(Attempts(before, lines, after, status), 0, ok);
    assert stream[|added| - 1].Finish?;
    assert stream[|added| - 1] in stream;
  }

  /** `pub` is as BuildTask.Handle leaves it, and the worker of the protocol's run has
      appended the entries that came through, all of them or so far. A client that
      missed nothing holds a prefix of these, in order and unaltered. One that got the
      end frame holds all of them, the markers, the output split into lines, the
      later markers and the status, if and only if it missed nothing; and when every
      XADD succeeds that is everything the handler published. */
  lemma ClientHoldsTheBuild(s0: System, acts: seq<Action>, c: ClientId, pub: Publisher, b: Build, status: string)
    requires Init(s0) && Legal(s0, acts) && c in Exec(s0, acts).clients
    requires pub.Valid() && Added(acts) <= pub.stream
    requires pub.tried == Attempts(MarkersBefore(b), OutputLines(b), MarkersAfter(b, status == "success"), status)
    ensures var cl := Exec(s0, acts).clients[c];
            && (cl.missed == {} ==> Received(cl.sent) <= pub.stream)
            && (cl.GotEnd() ==>
                  && (Received(cl.sent) == pub.stream <==> cl.missed == {})
                  && pub.stream == BuildLog(MarkersBefore(b), OutputLines(b), MarkersAfter(b, status == "success"),
                                            status, pub.xaddOk)
                  && Added(acts) == pub.stream && pub.xaddOk(|pub.tried| - 1))
            && ((forall i :: 0 <= i < |pub.tried| ==> pub.xaddOk(i)) ==> pub.stream == pub.tried)
  {
    hide Step, Enabled, Init, ClientInv, StreamInv, IsTranscript, IsLog, MessagesOf, Received, FramesOf, Attempts,
      BuildLog, Delivered, MarkersBefore, OutputLines, MarkersAfter;
    var s := Exec(s0, acts);
    var before, lines, after := MarkersBefore(b), OutputLines(b), MarkersAfter(b, status == "success");
    AttemptsOf(before, lines, after, status);
    LogIsAdded(s0, acts);
    Transcript(s0, acts, c);
    if s.clients[c].missed == {} {
      PrefixReceived(s, s.clients[c]);
    }
    if s.clients[c].GotEnd() {
      RunsKeepInv(s0, acts);
      AllReceived(s, s.clients[c]);
      EndMeansWhole(before, lines, after, status, pub.xaddOk, Added(acts));
    }
    if forall i :: 0 <= i < |pub.tried| ==> pub.xaddOk(i) {
      AllDelivered(pub.tried, 0, pub.xaddOk);
    }
  }
}
