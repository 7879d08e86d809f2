/** Stream entries (backend/internal/logstream/logstream.go) and the frames that
    backend/cmd/server/logs.go makes of them. */
module Frames {
  import opened Decimal

  /** The fields of one Redis Stream entry. */
  type Fields = map<string, string>

  /** What the publisher means by an entry. */
  datatype Entry =
    | Line(ts: int, source: string, line: string)
    | End(status: string)
  {
    predicate Publishable() {
      Line? ==> MIN_INT64 <= ts <= MAX_INT64
    }
  }

  /** A frame before JSON encoding. */
  datatype Frame =
    | LineFrame(ts: int, source: string, line: string)
    | EndFrame(status: string)

  /** The XADD values of PublishLine and PublishEnd. */
  function Publish(e: Entry): Fields {
    match e
    case Line(ts, source, line) => map["ts" := FormatInt(ts), "source" := source, "line" := line]
    case End(status) => map["event" := "end", "status" := status]
  }

  function Lookup(values: Fields, key: string): string {
    if key in values then values[key] else ""
  }

  /** The frame of an entry, and whether it is the terminal marker. */
  function EncodeFrame(values: Fields): (Frame, bool) {
    if Lookup(values, "event") == "end" then
      (EndFrame(Lookup(values, "status")), true)
    else
      var ts := if "ts" in values then ParseInt64(values["ts"]) else 0;
      (LineFrame(ts, Lookup(values, "source"), Lookup(values, "line")), false)
  }

  /** The frame that stands for an entry. */
  function FrameOf(e: Entry): Frame {
    match e
    case Line(ts, source, line) => LineFrame(ts, source, line)
    case End(status) => EndFrame(status)
  }

  /** Publishing then encoding carries every field through, and only PublishEnd
      makes a terminal frame: no log line can forge one, whatever its text. */
  lemma EncodePublished(e: Entry)
    requires e.Publishable()
    ensures EncodeFrame(Publish(e)) == (FrameOf(e), e.End?)
  {
    if e.Line? {
      ParseFormatInt(e.ts);
    }
  }

  /** Whatever an entry holds, its frame is terminal if and only if "event" is "end";
      absent fields are empty or 0. */
  lemma EncodeAnything(values: Fields)
    ensures var (frame, end) := EncodeFrame(values);
            && (end <==> frame.EndFrame?)
            && (end <==> "event" in values && values["event"] == "end")
            && (end ==> frame.status == if "status" in values then values["status"] else "")
            && (!end ==> && frame.source == (if "source" in values then values["source"] else "")
                         && frame.line == (if "line" in values then values["line"] else "")
                         && frame.ts == (if "ts" in values then ParseInt64(values["ts"]) else 0))
  {
    hide ParseInt64;
  }

  /** Entries with the same fields are the same entry. */
  lemma PublishInjective(d: Entry, e: Entry)
    requires d.Publishable() && e.Publishable()
    requires Publish(d) == Publish(e)
    ensures d == e
  {
    EncodePublished(d);
    EncodePublished(e);
  }
}
