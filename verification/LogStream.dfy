/** The writer side of a task's log stream: backend/internal/logstream/logstream.go. */
module LogStream {
  import opened LineSplit

  datatype Message = Text(source: string, line: string) | Finish(status: string)

  function Texts(source: string, lines: seq<string>): (ms: seq<Message>)
    ensures |ms| == |lines|
  {
    seq(|lines|, i requires 0 <= i < |lines| => Text(source, lines[i]))
  }

  /** The messages whose XADD succeeded; `ok(from + i)` tells of the i-th. */
  function Delivered(tried: seq<Message>, from: nat, ok: nat -> bool): (ms: seq<Message>)
    ensures |ms| <= |tried|
  {
    if tried == [] then []
    else Delivered(tried[..|tried| - 1], from, ok)
         + (if ok(from + |tried| - 1) then [tried[|tried| - 1]] else [])
  }

  /** The positions of the first n attempts that succeeded. */
  ghost function Kept(n: nat, from: nat, ok: nat -> bool): (ks: seq<nat>)
    ensures forall i :: 0 <= i < |ks| ==> ks[i] < n && ok(from + ks[i])
    ensures forall i, j :: 0 <= i < j < |ks| ==> ks[i] < ks[j]
    ensures forall k :: 0 <= k < n && ok(from + k) ==> k in ks
  {
    if n == 0 then [] else Kept(n - 1, from, ok) + (if ok(from + n - 1) then [n - 1] else [])
  }

  /** What is delivered is a subsequence of the attempts: those that succeeded,
      in order. */
  lemma {:induction false} DeliveredIsSubsequence(tried: seq<Message>, from: nat, ok: nat -> bool)
    ensures var ks := Kept(|tried|, from, ok); var ms := Delivered(tried, from, ok);
            |ms| == |ks| && forall i :: 0 <= i < |ms| ==> ms[i] == tried[ks[i]]
  {
    if tried != [] {
      DeliveredIsSubsequence(tried[..|tried| - 1], from, ok);
    }
  }

  lemma {:induction false} AllDelivered(tried: seq<Message>, from: nat, ok: nat -> bool)
    requires forall i :: from <= i < from + |tried| ==> ok(i)
    ensures Delivered(tried, from, ok) == tried
  {
    if tried != [] {
      AllDelivered(tried[..|tried| - 1], from, ok);
      assert tried == tried[..|tried| - 1] + [tried[|tried| - 1]];
    }
  }

  /** Cutting the attempts in two cuts the stream in two. */
  lemma {:induction false} DeliveredAppend(a: seq<Message>, b: seq<Message>, from: nat, ok: nat -> bool)
    ensures Delivered(a + b, from, ok) == Delivered(a, from, ok) + Delivered(b, from + |a|, ok)
  {
    if b == [] {
      assert a + b == a;
    } else {
      var init := b[..|b| - 1];
      DeliveredAppend(a, init, from, ok);
      assert (a + b)[..|a + b| - 1] == a + init;
    }
  }

  lemma TextsSnoc(source: string, lines: seq<string>, line: string)
    ensures Texts(source, TrimAll(lines + [line])) == Texts(source, TrimAll(lines)) + [Text(source, TrimCR(line))]
  {
    hide TrimCR;
    assert TrimAll(lines + [line]) == TrimAll(lines) + [TrimCR(line)];
  }

  /** What was tried after `before` are the texts of the lines of `input`, all but `rest`. */
  ghost predicate LinesTried(before: seq<Message>, tried: seq<Message>, source: string, input: string, rest: string) {
    exists texts ::
      && AreLinesOf(texts, input, rest)
      && |tried| == |before| + |texts| && before <= tried
      && forall i :: 0 <= i < |texts| ==> tried[|before| + i] == Text(source, texts[i])
  }

  lemma TextsAreTried(before: seq<Message>, source: string, input: string)
    ensures LinesTried(before, before + Texts(source, TrimAll(Lines(input))), source, input, Remainder(input))
  {
    hide Lines, Remainder, TrimAll, AreLinesOf;
    LinesAreTexts(input);
  }

  /** `Publisher`, with what Redis makes of its calls: `xaddOk(i)` and
      `expireOk(i)` say whether the i-th XADD and EXPIRE succeed. */
  class Publisher {
    const xaddOk: nat -> bool
    const expireOk: nat -> bool
    var expireSet: bool
    var stream: seq<Message>     // the entries in Redis, oldest first
    var xadds: nat
    var expires: nat
    ghost var tried: seq<Message>

    /** The stream is what came through of the attempts, and the TTL was armed by
        the first EXPIRE that succeeded and by no other; one is sent with each
        successful publish until then. */
    ghost predicate Valid()
      reads this
    {
      && xadds == |tried|
      && stream == Delivered(tried, 0, xaddOk)
      && (forall i :: 0 <= i < expires ==> (expireOk(i) <==> expireSet && i == expires - 1))
      && (if expireSet then 0 < expires <= |stream| else expires == |stream|)
    }

    constructor (xaddOk: nat -> bool, expireOk: nat -> bool)
      ensures Valid() && tried == [] && stream == []
    {
      this.xaddOk, this.expireOk := xaddOk, expireOk;
      expireSet, stream, xadds, expires, tried := false, [], 0, 0, [];
    }

    method XAdd(m: Message) returns (ok: bool)
      modifies this`stream, this`xadds, this`tried
      ensures xadds == old(xadds) + 1 && tried == old(tried) + [m]
      ensures ok == xaddOk(old(xadds))
      ensures stream == (if ok then old(stream) + [m] else old(stream))
    {
      ok := xaddOk(xadds);
      xadds := xadds + 1;
      tried := tried + [m];
      if ok {
        stream := stream + [m];
      }
    }

    method PublishLine(source: string, line: string) returns (ok: bool)
      requires Valid()
      modifies this
      ensures Valid() && tried == old(tried) + [Text(source, line)] && ok == xaddOk(old(xadds))
    {
      ok := XAdd(Text(source, line));
      assert tried[..|tried| - 1] == old(tried);
      if ok {
        EnsureExpire();
      }
    }

    method PublishEnd(status: string) returns (ok: bool)
      requires Valid()
      modifies this
      ensures Valid() && tried == old(tried) + [Finish(status)] && ok == xaddOk(old(xadds))
    {
      ok := XAdd(Finish(status));
      assert tried[..|tried| - 1] == old(tried);
      if ok {
        EnsureExpire();
      }
    }

    method EnsureExpire()
      modifies this`expireSet, this`expires
      ensures expireSet == (old(expireSet) || expireOk(old(expires)))
      ensures expires == (if old(expireSet) then old(expires) else old(expires) + 1)
    {
      if expireSet {
        return;
      }
      if expireOk(expires) {
        expireSet := true;
      }
      expires := expires + 1;
    }
  }

  /** `LineWriter`: a bytes.Buffer (its bytes and a read offset) whose complete
      lines go to the publisher as soon as they are in. */
  class LineWriter {
    const pub: Publisher
    const source: string
    var store: string
    var off: nat

    ghost predicate Valid()
      reads this, pub
    {
      off <= |store| && pub.Valid()
    }

    function Pending(): string
      requires off <= |store|
      reads this
    {
      store[off..]
    }

    constructor (pub: Publisher, source: string)
      requires pub.Valid()
      ensures Valid() && this.pub == pub && this.source == source && Pending() == ""
    {
      this.pub, this.source := pub, source;
      store, off := "", 0;
    }

    /** Emits the lines that are complete with the new bytes, CR-trimmed and in
        order, and keeps the rest; it always claims to have taken everything. */
    method Write(b: string) returns (n: nat)
      requires Valid()
      modifies this, pub
      ensures Valid() && n == |b|
      ensures pub.tried == old(pub.tried) + Texts(source, TrimAll(Lines(old(Pending()) + b)))
      ensures Pending() == Remainder(old(Pending()) + b)
      ensures LinesTried(old(pub.tried), pub.tried, source, old(Pending()) + b, Pending())
    {
      hide Lines, Remainder, IndexByte, TrimCR, TrimAll, Texts, Delivered, LinesTried;
      ghost var input := Pending() + b;
      ghost var emitted: seq<string> := [];
      store := store + b;
      assert Pending() == input;
      while true
        invariant Valid()
        invariant Lines(input) == emitted + Lines(Pending())
        invariant Remainder(input) == Remainder(Pending())
        invariant pub.tried == old(pub.tried) + Texts(source, TrimAll(emitted))
        decreases |Lines(Pending())|
      {
        var data := Pending();
        var i := IndexByte(data, '\n');
        FirstLine(data, i);
        if i < 0 {
          assert Lines(input) == emitted;
          break;
        }
        var _ := pub.PublishLine(source, TrimCR(data[..i]));
        off := off + i + 1;
        assert Pending() == data[i + 1..];
        TextsSnoc(source, emitted, data[..i]);
        emitted := emitted + [data[..i]];
      }
      n := |b|;
      TextsAreTried(old(pub.tried), source, input);
    }

    /** Flushes bytes that no newline ended. */
    method Close()
      requires Valid()
      modifies this, pub
      ensures Valid() && Pending() == ""
      ensures pub.tried == old(pub.tried) + Texts(source, TrimAll(Flushed(old(Pending()))))
      ensures old(Pending()) == "" ==> pub.tried == old(pub.tried)
      ensures old(Pending()) != "" ==>
                exists text :: IsTextOf(text, old(Pending())) && pub.tried == old(pub.tried) + [Text(source, text)]
    {
      hide TrimCR, Delivered, IsTextOf;
      TrimCRIsText(Pending());
      assert Texts(source, TrimAll([])) == [];
      assert Texts(source, TrimAll([Pending()])) == [Text(source, TrimCR(Pending()))];
      if |store| - off > 0 {
        var _ := pub.PublishLine(source, TrimCR(store[off..]));
        store, off := "", 0;
      }
    }
  }
}
