/**
 The framed byte stream between the control socket and its clients (src/ipc_channel.cpp): frames of an
 eight-byte header and a payload, read and written by loops over system calls that may be cut short,
 interrupted or fail.

 The system is a script: each entry says what one call does, and once the script is used up calls do all
 they are asked.  A descriptor's `incoming` bytes are all those that will arrive before the peer closes.
 */
module IpcChannel {
  import opened Basics
  import opened Bytes

  type Errno = e: int | e > 0 witness 1

  const EINTR: Errno := 4
  const ECONNRESET: Errno := 104
  const HEADER_SIZE: nat := 8
  const MAX_PAYLOAD: nat := 0x10_0000

  /** What one system call does: moves at most `most` bytes, or fails. */
  datatype Outcome = Short(most: nat) | Fault(errno: Errno)

  /** Nothing worse than calls that are cut short or interrupted. */
  predicate Benign(script: seq<Outcome>) {
    forall o :: o in script ==> if o.Short? then o.most > 0 else o.errno == EINTR
  }

  datatype ChannelError = Eof | IoError | FrameTooLarge

  datatype Message = Message(kind: Byte, payload: seq<Byte>)

  datatype Received = Got(message: Message) | Failed(error: ChannelError)

  // ---------------------------------------------------------------------------
  // The wire format
  // ---------------------------------------------------------------------------

  /** static_cast<uint32_t>. */
  function Low32(n: nat): (w: Word) { n % 0x1_0000_0000 }

  function Header(kind: Byte, len: Word): (r: seq<Byte>)
    ensures |r| == HEADER_SIZE
  {
    BigEndian(len, 4) + [kind, 0, 0, 0]
  }

  /** What write_message puts on the wire; a payload of 4 GiB or more is cut to its length modulo 2^32. */
  function Frame(m: Message): seq<Byte> {
    Header(m.kind, Low32(|m.payload|)) + m.payload[..Low32(|m.payload|)]
  }

  function Wire(messages: seq<Message>): seq<Byte> {
    if messages == [] then [] else Frame(messages[0]) + Wire(messages[1..])
  }

  /** The next message of a stream and what follows it, or why there is none. */
  datatype Parsed = Next(message: Message, rest: seq<Byte>) | Stop(error: ChannelError)

  function LengthAt(s: seq<Byte>): (len: Word)
    requires |s| >= HEADER_SIZE
  {
    WordOf(s[..4])
  }

  function Parse(s: seq<Byte>): (p: Parsed)
    ensures p.Next? ==> |p.rest| < |s|
  {
    if |s| < HEADER_SIZE then Stop(Eof)
    else
      var len := LengthAt(s);
      if len > MAX_PAYLOAD then Stop(FrameTooLarge)
      else if |s| < HEADER_SIZE + len then Stop(Eof)
      else Next(Message(s[4], s[HEADER_SIZE..HEADER_SIZE + len]), s[HEADER_SIZE + len..])
  }

  /** All messages up to the first error. */
  function ParseAll(s: seq<Byte>): (messages: seq<Message>)
    decreases |s|
  {
    var p := Parse(s);
    if p.Stop? then [] else [p.message] + ParseAll(p.rest)
  }

  /** The error after them. */
  function EndOf(s: seq<Byte>): ChannelError
    decreases |s|
  {
    var p := Parse(s);
    if p.Stop? then p.error else EndOf(p.rest)
  }

  // ---------------------------------------------------------------------------
  // The loops
  // ---------------------------------------------------------------------------

  function Min(a: nat, b: nat): nat { if a < b then a else b }

  class Descriptor {
    var incoming: seq<Byte>
    var outgoing: seq<Byte>
    var script: seq<Outcome>
    var errno: nat

    constructor (bytes: seq<Byte>, outcomes: seq<Outcome>)
      ensures incoming == bytes && script == outcomes && outgoing == [] && errno == 0
    {
      incoming, outgoing, script, errno := bytes, [], outcomes, 0;
    }

    /** read(2): end of file is a count of zero; otherwise at least one byte, or a fault. */
    method Read(n: nat) returns (r: int, data: seq<Byte>)
      requires n > 0
      modifies this
      ensures outgoing == old(outgoing)
      ensures script == if old(script) == [] then [] else old(script)[1..]
      ensures r < 0 ==> old(script) != [] && old(script)[0].Fault? && old(script)[0].errno == errno
      ensures r < 0 ==> incoming == old(incoming) && data == []
      ensures r >= 0 ==> r == |data| <= n && data + incoming == old(incoming) && (r == 0 <==> old(incoming) == [])
    {
      data := [];
      if script != [] && script[0].Fault? {
        errno, script := script[0].errno, script[1..];
        return -1, [];
      }
      var count := Min(n, |incoming|);
      if script != [] {
        count := Min(count, if script[0].most == 0 then 1 else script[0].most);
        script := script[1..];
      }
      r, data, incoming := count, incoming[..count], incoming[count..];
    }

    /** write(2): some initial part of the bytes is sent, possibly none. */
    method Write(bytes: seq<Byte>) returns (w: int)
      modifies this
      ensures incoming == old(incoming)
      ensures script == if old(script) == [] then [] else old(script)[1..]
      ensures w < 0 ==> old(script) != [] && old(script)[0].Fault? && old(script)[0].errno == errno
      ensures w < 0 ==> outgoing == old(outgoing)
      ensures w >= 0 ==> w <= |bytes| && outgoing == old(outgoing) + bytes[..w]
      ensures w == 0 && bytes != [] ==> old(script) != [] && old(script)[0] == Short(0)
    {
      if script != [] && script[0].Fault? {
        errno, script := script[0].errno, script[1..];
        return -1;
      }
      w := |bytes|;
      if script != [] {
        w := Min(w, script[0].most);
        script := script[1..];
      }
      outgoing := outgoing + bytes[..w];
    }

    /** Exactly `n` bytes, or a reason why not: the stream ended first (errno 0), or a call failed. */
    method ReadExact(n: nat) returns (ok: bool, data: seq<Byte>)
      modifies this
      ensures outgoing == old(outgoing)
      ensures forall o :: o in script ==> o in old(script)
      ensures ok ==> |data| == n && data + incoming == old(incoming)
      ensures !ok ==> || (errno == 0 && |old(incoming)| < n)
                      || (errno > 0 && errno != 4 && Fault(errno) in old(script))
    {
      data := [];
      var rem: nat := n;
      while rem > 0
        invariant |data| + rem == n && data + incoming == old(incoming)
        invariant outgoing == old(outgoing)
        invariant forall o :: o in script ==> o in old(script)
        decreases |script| + rem
      {
        var r, bytes := Read(rem);
        if r == 0 {
          errno := 0;
          return false, data;
        }
        if r < 0 {
          if errno == EINTR {
            continue;
          }
          return false, data;
        }
        data := data + bytes;
        rem := rem - r;
      }
      ok := true;
    }

    /** All the bytes in order, or, after a failure, some initial part of them. */
    method WriteExact(bytes: seq<Byte>) returns (ok: bool)
      modifies this
      ensures incoming == old(incoming)
      ensures forall o :: o in script ==> o in old(script)
      ensures old(outgoing) <= outgoing <= old(outgoing) + bytes
      ensures ok ==> outgoing == old(outgoing) + bytes
      ensures !ok ==> !Benign(old(script)) && outgoing != old(outgoing) + bytes
    {
      var off := 0;
      while off < |bytes|
        invariant 0 <= off <= |bytes| && outgoing == old(outgoing) + bytes[..off]
        invariant incoming == old(incoming)
        invariant forall o :: o in script ==> o in old(script)
        decreases |script| + |bytes| - off
      {
        ghost var before := script;
        var w := Write(bytes[off..]);
        assert before != [] ==> before[0] in old(script);
        if w < 0 {
          if errno == EINTR {
            continue;
          }
          return false;
        }
        if w == 0 {
          return false;
        }
        assert bytes[..off + w] == bytes[..off] + bytes[off..][..w];
        off := off + w;
      }
      ok := true;
    }

    /** errno after a failed read, as read_message reports it. */
    function Classify(): (e: ChannelError)
      reads this
    {
      if errno == 0 || errno == ECONNRESET then Eof else IoError
    }

    /**
     One message.  Whatever the calls do, a message that is returned is the next one of the stream and
     exactly its bytes are gone; a failure is the stream's own unless some call failed.
     */
    method ReadMessage() returns (r: Received)
      modifies this
      ensures outgoing == old(outgoing)
      ensures forall o :: o in script ==> o in old(script)
      ensures r.Got? ==> Parse(old(incoming)) == Next(r.message, incoming)
      ensures r.Failed? && Benign(old(script)) ==> Parse(old(incoming)) == Stop(r.error)
      ensures r == Failed(FrameTooLarge) ==> Parse(old(incoming)) == Stop(FrameTooLarge)
      ensures r == Failed(Eof) ==> Parse(old(incoming)) == Stop(Eof) || Fault(104) in old(script)
      ensures r == Failed(IoError) ==> exists e: Errno :: Fault(e) in old(script) && e != 4 && e != 104
    {
      var ok, hdr := ReadExact(HEADER_SIZE);
      if !ok {
        return Failed(Classify());
      }
      assert old(incoming)[..4] == hdr[..4] && old(incoming)[4] == hdr[4];
      var len := LengthAt(hdr);
      if len > MAX_PAYLOAD {
        return Failed(FrameTooLarge);
      }
      ghost var body := incoming;
      var payload := [];
      if len > 0 {
        ok, payload := ReadExact(len);
        if !ok {
          return Failed(Classify());
        }
      }
      assert payload + incoming == body;
      SliceOut(old(incoming), hdr, payload, incoming);
      r := Got(Message(hdr[4], payload));
    }

    /** One frame, or after a failure some proper initial part of it. */
    method WriteMessage(m: Message) returns (ok: bool)
      modifies this
      ensures incoming == old(incoming)
      ensures forall o :: o in script ==> o in old(script)
      ensures old(outgoing) <= outgoing <= old(outgoing) + Frame(m)
      ensures ok ==> outgoing == old(outgoing) + Frame(m)
      ensures !ok ==> !Benign(old(script)) && outgoing != old(outgoing) + Frame(m)
    {
      var len := Low32(|m.payload|);
      var hdr, body := Header(m.kind, len), m.payload[..len];
      Regroup(outgoing, hdr, body);
      ok := WriteExact(hdr);
      if ok && len > 0 {
        ok := WriteExact(body);
      }
    }

    /** Messages in turn, up to the first that cannot be sent; `sent` is the number of bytes that went out. */
    method WriteAll(messages: seq<Message>) returns (ok: bool, ghost sent: nat)
      modifies this
      ensures incoming == old(incoming)
      ensures sent <= |Wire(messages)| && outgoing == old(outgoing) + Wire(messages)[..sent]
      ensures ok <==> sent == |Wire(messages)|
      ensures !ok ==> !Benign(old(script))
    {
      var k := 0;
      ok := true;
      while k < |messages|
        invariant 0 <= k <= |messages| && incoming == old(incoming)
        invariant forall o :: o in script ==> o in old(script)
        invariant outgoing == old(outgoing) + WireTo(messages, k)
      {
        Regroup(old(outgoing), WireTo(messages, k), Frame(messages[k]));
        ok := WriteMessage(messages[k]);
        if !ok {
          sent := CutAt(old(outgoing), messages, k, outgoing);
          return;
        }
        k := k + 1;
      }
      WireToAll(messages);
      sent := |Wire(messages)|;
      assert Wire(messages)[..sent] == Wire(messages);
    }

    /**
     The connection loop: messages until the first error, or until running_ has been found set `turns` times and
     is then found cleared, in which case there is no error.
     */
    method ReadAll(turns: nat) returns (messages: seq<Message>, error: Option<ChannelError>)
      modifies this
      ensures messages <= ParseAll(old(incoming)) && |messages| <= turns
      ensures Benign(old(script)) && |ParseAll(old(incoming))| < turns ==>
                messages == ParseAll(old(incoming)) && error == Some(EndOf(old(incoming)))
      ensures Benign(old(script)) && |ParseAll(old(incoming))| >= turns ==> |messages| == turns && error == None
    {
      messages := [];
      while |messages| < turns
        invariant |messages| <= turns && messages + ParseAll(incoming) == ParseAll(old(incoming))
        invariant EndOf(incoming) == EndOf(old(incoming))
        invariant forall o :: o in script ==> o in old(script)
        decreases |incoming|
      {
        ghost var before := incoming;
        var r := ReadMessage();
        if r.Failed? {
          return messages, Some(r.error);
        }
        assert ParseAll(before) == [r.message] + ParseAll(incoming);
        Regroup(messages, [r.message], ParseAll(incoming));
        messages := messages + [r.message];
      }
      error := None;
    }
  }

  lemma {:induction false} SliceOut<T>(s: seq<T>, a: seq<T>, b: seq<T>, c: seq<T>)
    requires s == a + (b + c)
    ensures s[|a|..|a| + |b|] == b && s[|a| + |b|..] == c
  {
  }

  // ---------------------------------------------------------------------------
  // Round trip
  // ---------------------------------------------------------------------------

  predicate AllSmall(messages: seq<Message>) {
    forall k :: 0 <= k < |messages| ==> |messages[k].payload| <= MAX_PAYLOAD
  }

  lemma {:induction false} HeaderBytes(kind: Byte, len: Word, rest: seq<Byte>)
    ensures var s := Header(kind, len) + rest; LengthAt(s) == len && s[4] == kind && s[HEADER_SIZE..] == rest
  {
    var s := Header(kind, len) + rest;
    assert s[..4] == BigEndian(len, 4);
    WordRoundTrip(len);
  }

  /**
     A frame is read back as the message it was made from, with whatever follows it untouched, if and only
     if the payload is within the limit: a longer one is refused or, past 4 GiB, comes back shorter.
   */
  lemma {:induction false} FrameRoundTrip(m: Message, rest: seq<Byte>)
    ensures Parse(Frame(m) + rest) == Next(m, rest) <==> |m.payload| <= 1048576
    ensures 1048576 < |m.payload| < 4294967296 ==> Parse(Frame(m) + rest) == Stop(FrameTooLarge)
  {
    var len := Low32(|m.payload|);
    var body := m.payload[..len];
    var s := Frame(m) + rest;
    assert s == Header(m.kind, len) + (body + rest);
    HeaderBytes(m.kind, len, body + rest);
    SliceOut(s, Header(m.kind, len), body, rest);
    if |m.payload| <= MAX_PAYLOAD {
      assert body == m.payload;
    }
  }

  /** The bytes of a frame: the length, most significant byte first, the kind, three zeros, and the payload. */
  lemma {:induction false} FrameLayout(m: Message)
    requires |m.payload| < 4294967296
    ensures var n := |m.payload|;
            Frame(m) == [n / 16777216, n / 65536 % 256, n / 256 % 256, n % 256, m.kind, 0, 0, 0] + m.payload
  {
    var n := |m.payload|;
    assert Low32(n) == n && m.payload[..n] == m.payload;
    WordBytes(n);
    assert Header(m.kind, n) == [n / 16777216, n / 65536 % 256, n / 256 % 256, n % 256, m.kind, 0, 0, 0];
  }

  /** A frame cut anywhere inside reads as the end of the stream. */
  lemma {:induction false} CutFrame(m: Message, n: nat)
    requires |m.payload| <= MAX_PAYLOAD && n < |Frame(m)|
    ensures Parse(Frame(m)[..n]) == Stop(Eof)
  {
    if n >= HEADER_SIZE {
      var hdr := Header(m.kind, |m.payload|);
      var rest := m.payload[..n - HEADER_SIZE];
      assert m.payload[..|m.payload|] == m.payload && Frame(m) == hdr + m.payload;
      TakeConcat(hdr, m.payload, n);
      HeaderBytes(m.kind, |m.payload|, rest);
    }
  }

  /** How many of the frames lie wholly within the first `n` bytes. */
  function Whole(messages: seq<Message>, n: nat): (k: nat)
    ensures k <= |messages|
  {
    if messages == [] || n < |Frame(messages[0])| then 0
    else 1 + Whole(messages[1..], n - |Frame(messages[0])|)
  }

  lemma {:induction false} WholeCounts(messages: seq<Message>, n: nat)
    ensures var k := Whole(messages, n);
            |Wire(messages[..k])| <= n && (k < |messages| ==> n < |Wire(messages[..k + 1])|)
  {
    if messages != [] {
      var m, rest := messages[0], messages[1..];
      var k := Whole(messages, n);
      if n < |Frame(m)| {
        assert messages[..1] == [m] && [m][1..] == [];
        assert Wire([m]) == Frame(m) + [];
      } else {
        WholeCounts(rest, n - |Frame(m)|);
        WireTake(messages, k);
        if k < |messages| {
          WireTake(messages, k + 1);
        }
      }
    }
  }

  lemma {:induction false} WireTake(messages: seq<Message>, k: nat)
    requires 0 < k <= |messages|
    ensures Wire(messages[..k]) == Frame(messages[0]) + Wire(messages[1..][..k - 1])
  {
    assert messages[..k][0] == messages[0] && messages[..k][1..] == messages[1..][..k - 1];
  }

  /**
     A stream cut after any number of bytes yields exactly the messages whose frames were sent in full and
     then the end of the stream, never a wrong message.
   */
  lemma {:induction false} CutStream(messages: seq<Message>, n: nat)
    requires AllSmall(messages) && n <= |Wire(messages)|
    ensures ParseAll(Wire(messages)[..n]) == messages[..Whole(messages, n)]
    ensures EndOf(Wire(messages)[..n]) == Eof
    decreases |messages|
  {
    if messages != [] {
      var m, rest := messages[0], messages[1..];
      WireTakes(messages, n);
      WholeStep(messages, n);
      if n < |Frame(m)| {
        ParseCut(m, n);
      } else {
        ParseFrame(m, Wire(rest)[..n - |Frame(m)|]);
        CutStream(rest, n - |Frame(m)|);
      }
    }
  }

  lemma {:induction false} WireTakes(messages: seq<Message>, n: nat)
    requires messages != [] && n <= |Wire(messages)|
    ensures var frame, tail := Frame(messages[0]), Wire(messages[1..]);
            && |Wire(messages)| == |frame| + |tail|
            && Wire(messages)[..n] == if n < |frame| then frame[..n] else frame + tail[..n - |frame|]
  {
    assert Wire(messages) == Frame(messages[0]) + Wire(messages[1..]);
    TakeConcat(Frame(messages[0]), Wire(messages[1..]), n);
  }

  lemma {:induction false} WholeStep(messages: seq<Message>, n: nat)
    requires messages != []
    ensures messages[..Whole(messages, n)] ==
            if n < |Frame(messages[0])| then []
            else [messages[0]] + messages[1..][..Whole(messages[1..], n - |Frame(messages[0])|)]
  {
  }

  lemma {:induction false} ParseFrame(m: Message, rest: seq<Byte>)
    requires |m.payload| <= MAX_PAYLOAD
    ensures ParseAll(Frame(m) + rest) == [m] + ParseAll(rest) && EndOf(Frame(m) + rest) == EndOf(rest)
  {
    FrameRoundTrip(m, rest);
  }

  lemma {:induction false} ParseCut(m: Message, n: nat)
    requires |m.payload| <= MAX_PAYLOAD && n < |Frame(m)|
    ensures ParseAll(Frame(m)[..n]) == [] && EndOf(Frame(m)[..n]) == Eof
  {
    CutFrame(m, n);
  }

  lemma {:induction false} TakeConcat<T>(a: seq<T>, b: seq<T>, n: nat)
    requires n <= |a + b|
    ensures (a + b)[..n] == if n < |a| then a[..n] else a + b[..n - |a|]
  {
  }

  /** Everything that was sent is received, in order. */
  lemma {:induction false} StreamRoundTrip(messages: seq<Message>)
    requires AllSmall(messages)
    ensures ParseAll(Wire(messages)) == messages && EndOf(Wire(messages)) == Eof
  {
    var n := |Wire(messages)|;
    assert Wire(messages)[..n] == Wire(messages);
    CutStream(messages, n);
    WholeAll(messages);
    assert messages[..|messages|] == messages;
  }

  lemma {:induction false} WholeAll(messages: seq<Message>)
    ensures Whole(messages, |Wire(messages)|) == |messages|
  {
    if messages != [] {
      WholeAll(messages[1..]);
    }
  }

  /** Each further frame extends the stream at its end. */
  lemma {:induction false} WireAppend(messages: seq<Message>, m: Message)
    ensures Wire(messages + [m]) == Wire(messages) + Frame(m)
  {
    if messages == [] {
      assert messages + [m] == [m] && [m][1..] == [];
      assert Wire([m]) == Frame(m) + [];
    } else {
      assert (messages + [m])[0] == messages[0] && (messages + [m])[1..] == messages[1..] + [m];
      WireAppend(messages[1..], m);
      Regroup(Frame(messages[0]), Wire(messages[1..]), Frame(m));
    }
  }

  lemma {:induction false} CutNext(s: seq<Byte>, n: nat) returns (end: nat)
    requires n <= |s| && Parse(s[..n]).Next?
    ensures 0 < end <= n && Parse(s) == Next(Parse(s[..n]).message, s[end..])
    ensures Parse(s[..n]).rest == s[end..][..n - end]
  {
    var c := s[..n];
    assert c[..4] == s[..4];
    end := HEADER_SIZE + LengthAt(s);
    assert c[HEADER_SIZE..end] == s[HEADER_SIZE..end];
    assert c[end..] == s[end..][..n - end];
  }

  lemma {:induction false} WireConcat(a: seq<Message>, b: seq<Message>)
    ensures Wire(a + b) == Wire(a) + Wire(b)
  {
    if a == [] {
      assert a + b == b && [] + Wire(b) == Wire(b);
    } else {
      assert (a + b)[0] == a[0] && (a + b)[1..] == a[1..] + b;
      WireConcat(a[1..], b);
      Regroup(Frame(a[0]), Wire(a[1..]), Wire(b));
    }
  }

  /** The frames of the first `k` messages. */
  function WireTo(messages: seq<Message>, k: nat): seq<Byte>
    requires k <= |messages|
  {
    if k == 0 then [] else WireTo(messages, k - 1) + Frame(messages[k - 1])
  }

  lemma {:induction false} WireToIs(messages: seq<Message>, k: nat)
    requires k <= |messages|
    ensures WireTo(messages, k) == Wire(messages[..k])
  {
    if k > 0 {
      WireToIs(messages, k - 1);
      assert messages[..k] == messages[..k - 1] + [messages[k - 1]];
      WireAppend(messages[..k - 1], messages[k - 1]);
    }
  }

  lemma {:induction false} WireToAll(messages: seq<Message>)
    ensures WireTo(messages, |messages|) == Wire(messages)
  {
    WireToIs(messages, |messages|);
    assert messages[..|messages|] == messages;
  }

  /** Bytes that end inside the frame of message `k` are an initial part of the stream. */
  lemma {:induction false} CutAt(start: seq<Byte>, messages: seq<Message>, k: nat, s: seq<Byte>) returns (n: nat)
    requires k < |messages|
    requires var sofar := start + WireTo(messages, k);
             sofar <= s <= sofar + Frame(messages[k]) && s != sofar + Frame(messages[k])
    ensures n < |Wire(messages)| && s == start + Wire(messages)[..n]
  {
    n := |s| - |start|;
    WireToIs(messages, k + 1);
    assert messages == messages[..k + 1] + messages[k + 1..];
    WireConcat(messages[..k + 1], messages[k + 1..]);
    CutInside(start, WireTo(messages, k), Frame(messages[k]), Wire(messages[k + 1..]), s);
  }

  lemma {:induction false} CutInside<T>(start: seq<T>, a: seq<T>, b: seq<T>, c: seq<T>, s: seq<T>)
    requires start + a <= s <= start + a + b && s != start + a + b
    ensures |start| <= |s| && |s| - |start| < |a + b + c| && s == start + (a + b + c)[..|s| - |start|]
  {
    var n := |s| - |start|;
    assert s == (start + a + b)[..|s|];
    assert (start + a + b)[..|s|] == start + (a + b + c)[..n];
  }

  /**
   A connection end to end, with a reader that goes on for `turns` messages.  Whatever cuts short, interrupts or
   fails the calls of either side, the reader gets a prefix of the messages.  If its own calls are at most cut short
   or interrupted and it goes on for long enough, it gets exactly those whose frames were sent in full, then the end
   of the stream: all of them if the writer's calls were no worse.
   */
  method Transfer(messages: seq<Message>, writing: seq<Outcome>, reading: seq<Outcome>, turns: nat)
    returns (received: seq<Message>, error: Option<ChannelError>, ok: bool, ghost sent: nat)
    requires AllSmall(messages)
    ensures received <= messages && sent <= |Wire(messages)|
    ensures Benign(reading) && turns > |messages| ==>
              received == messages[..Whole(messages, sent)] && error == Some(Eof)
    ensures ok <==> sent == |Wire(messages)|
    ensures Benign(writing) ==> ok
    ensures ok && Benign(reading) && turns > |messages| ==> received == messages
  {
    var writer := new Descriptor([], writing);
    ok, sent := writer.WriteAll(messages);
    assert [] + Wire(messages)[..sent] == Wire(messages)[..sent];
    CutStream(messages, sent);
    var reader := new Descriptor(writer.outgoing, reading);
    received, error := reader.ReadAll(turns);
    if ok {
      WholeAll(messages);
      assert messages[..|messages|] == messages;
    }
  }

  /** Of any bytes at all, a shorter stream never yields anything that the longer one would not. */
  lemma {:induction false} CutAnything(s: seq<Byte>, n: nat)
    requires n <= |s|
    ensures ParseAll(s[..n]) <= ParseAll(s)
    decreases |s|
  {
    if Parse(s[..n]).Next? {
      var end := CutNext(s, n);
      CutAnything(s[end..], n - end);
    }
  }

  // ---------------------------------------------------------------------------
  // Frames that arrive whole
  // ---------------------------------------------------------------------------

  /**
   dispatch_ctrl_frame: the message it goes on to dispatch, if any.  The caller passes the buffer's length as a
   32-bit number.
   */
  function DispatchFrame(buf: seq<Byte>, totalLen: Word): Option<Message>
    requires totalLen <= |buf|
  {
    if totalLen < HEADER_SIZE then None
    else if LengthAt(buf) > totalLen - HEADER_SIZE then None
    else Some(Message(buf[4], buf[HEADER_SIZE..HEADER_SIZE + LengthAt(buf)]))
  }

  /**
   Both ways of receiving agree on a buffer if its length fits 32 bits, except that only the socket enforces the
   payload limit; if it does not, they agree exactly when what is left of the length covers the frame.
   */
  lemma {:induction false} DispatchAgrees(buf: seq<Byte>, m: Message)
    ensures DispatchFrame(buf, Low32(|buf|)) == Some(m) && |m.payload| <= MAX_PAYLOAD
       <==> Parse(buf).Next? && Parse(buf).message == m && HEADER_SIZE + |m.payload| <= Low32(|buf|)
  {
  }

  /**
   A frame followed by anything is dispatched as the message it was made from if and only if the header and the
   payload fit into what is left of the buffer's length in 32 bits.
   */
  lemma {:induction false} DispatchRoundTrip(m: Message, rest: seq<Byte>)
    ensures var buf := Frame(m) + rest;
            DispatchFrame(buf, Low32(|buf|)) == Some(m) <==> HEADER_SIZE + |m.payload| <= Low32(|buf|)
  {
    var len := Low32(|m.payload|);
    var body := m.payload[..len];
    var buf := Frame(m) + rest;
    assert buf == Header(m.kind, len) + (body + rest);
    HeaderBytes(m.kind, len, body + rest);
    SliceOut(buf, Header(m.kind, len), body, rest);
    if HEADER_SIZE + |m.payload| <= Low32(|buf|) {
      assert body == m.payload;
    }
  }

  /** A frame on its own is dispatched as its message exactly when header and payload together fit 32 bits. */
  lemma {:induction false} DispatchWholeFrame(m: Message)
    ensures DispatchFrame(Frame(m), Low32(|Frame(m)|)) == Some(m) <==> HEADER_SIZE + |m.payload| < 0x1_0000_0000
  {
    assert Frame(m) + [] == Frame(m);
    DispatchRoundTrip(m, []);
    assert |Frame(m)| == HEADER_SIZE + Low32(|m.payload|);
  }
}
