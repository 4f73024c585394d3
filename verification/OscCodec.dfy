/**
 OSC messages on the wire: the encoder (include/nomos/rt/osc_encode.hpp over
 include/nomos/rt/small_vector.hpp), the splitting of a received packet (src/osc_server.cpp) and the
 decoding of its arguments (src/luajit_participant.cpp).  The format is that of the OpenSound Control
 1.0 Specification: strings are NUL-terminated and padded to four bytes, numbers are 32-bit big-endian.

 A float travels as its 32-bit pattern, so a float argument is that pattern.
 */
module OscCodec {
  import opened Basics
  import opened Bytes

  type Int32 = i: int | -0x8000_0000 <= i < 0x8000_0000

  const NUL: Byte := 0
  const COMMA: Byte := 44
  const TAG_I: Byte := 105
  const TAG_F: Byte := 102
  const TAG_S: Byte := 115

  /** osc::arg; only the field selected by `tag` is meaningful. */
  datatype Arg = Arg(tag: Byte, i: Int32, f: Word, s: seq<Byte>)

  predicate Known(a: Arg) { a.tag == TAG_I || a.tag == TAG_F || a.tag == TAG_S }

  predicate NulFree(s: seq<Byte>) { forall k :: 0 <= k < |s| ==> s[k] != NUL }

  // ---------------------------------------------------------------------------
  // The wire format
  // ---------------------------------------------------------------------------

  function Zeros(n: nat): (r: seq<Byte>)
    ensures |r| == n
  {
    seq(n, i => NUL)
  }

  /** The padded length of a string of `n` bytes: more than n, and a multiple of four. */
  function Padded(n: nat): nat { (n / 4 + 1) * 4 }

  /** (n + 3) & ~3, as both decoders compute it. */
  function Pad4(n: nat): nat { (n + 3) / 4 * 4 }

  lemma {:induction false} PadsAgree(n: nat)
    ensures Pad4(n + 1) == Padded(n) && n < Padded(n) <= n + 4 && Padded(n) % 4 == 0
  {
  }

  function OscString(s: seq<Byte>): (r: seq<Byte>)
    ensures |r| == Padded(|s|)
  {
    s + Zeros(Padded(|s|) - |s|)
  }

  function ToWord(i: Int32): Word { if i < 0 then i + 0x1_0000_0000 else i }

  function ToInt32(w: Word): Int32 { if w >= 0x8000_0000 then w - 0x1_0000_0000 else w }

  function ArgBytes(a: Arg): seq<Byte> {
    if a.tag == TAG_I then BigEndian(ToWord(a.i), 4)
    else if a.tag == TAG_F then BigEndian(a.f, 4)
    else if a.tag == TAG_S then OscString(a.s)
    else []
  }

  function Tags(args: seq<Arg>): (r: seq<Byte>)
    ensures |r| == |args|
  {
    seq(|args|, k requires 0 <= k < |args| => args[k].tag)
  }

  /** The arguments from number `k` on, one after the other. */
  function Body(args: seq<Arg>, k: nat): seq<Byte>
    requires k <= |args|
    decreases |args| - k
  {
    if k == |args| then [] else ArgBytes(args[k]) + Body(args, k + 1)
  }

  function Header(address: seq<Byte>, args: seq<Arg>): seq<Byte> {
    OscString(address) + OscString([COMMA] + Tags(args))
  }

  /** The whole message. */
  function Packet(address: seq<Byte>, args: seq<Arg>): seq<Byte> { Header(address, args) + Body(args, 0) }

  lemma {:induction false} ArgAligned(a: Arg)
    ensures |ArgBytes(a)| % 4 == 0
  {
    PadsAgree(|a.s|);
  }

  lemma {:induction false} BodyAligned(args: seq<Arg>, k: nat)
    requires k <= |args|
    ensures |Body(args, k)| % 4 == 0
    decreases |args| - k
  {
    if k < |args| {
      var arg, rest := ArgBytes(args[k]), Body(args, k + 1);
      assert |Body(args, k)| == |arg| + |rest|;
      ArgAligned(args[k]);
      BodyAligned(args, k + 1);
      AlignedSum(|arg|, |rest|);
    }
  }

  lemma {:induction false} AlignedSum(a: nat, b: nat)
    requires a % 4 == 0 && b % 4 == 0
    ensures (a + b) % 4 == 0
  {
  }

  /** A message is a multiple of four bytes and never shorter than the eight the receiver insists on. */
  lemma {:induction false} PacketAligned(address: seq<Byte>, args: seq<Arg>)
    ensures |Packet(address, args)| % 4 == 0 && |Packet(address, args)| >= 8
  {
    var a, t, b := OscString(address), OscString([COMMA] + Tags(args)), Body(args, 0);
    assert |Packet(address, args)| == |a| + |t| + |b|;
    BodyAligned(args, 0);
    PadsAgree(|address|);
    PadsAgree(|args| + 1);
  }

  // ---------------------------------------------------------------------------
  // Encoding into a bounded buffer
  // ---------------------------------------------------------------------------

  /** small_vector<uint8_t, N>: a fixed array and the number of bytes in use. */
  class SmallVector {
    const data: array<Byte>
    var size: nat

    ghost predicate Valid()
      reads this
    {
      size <= data.Length
    }

    function Contents(): seq<Byte>
      requires Valid()
      reads this, data
    {
      data[..size]
    }

    constructor (capacity: nat)
      requires capacity >= 1
      ensures Valid() && fresh(data) && data.Length == capacity && Contents() == []
    {
      data := new Byte[capacity](_ => 0);
      size := 0;
    }

    method Clear()
      requires Valid()
      modifies this
      ensures Valid() && Contents() == []
    {
      size := 0;
    }

    method PushBack(v: Byte) returns (ok: bool)
      requires Valid()
      modifies this, data
      ensures Valid() && ok == (|old(Contents())| < data.Length)
      ensures Contents() == if ok then old(Contents()) + [v] else old(Contents())
    {
      if size == data.Length {
        return false;
      }
      data[size] := v;
      size := size + 1;
      ok := true;
    }

    /** All or nothing. */
    method Append(src: seq<Byte>) returns (ok: bool)
      requires Valid()
      modifies this, data
      ensures Valid() && ok == (|old(Contents())| + |src| <= data.Length)
      ensures Contents() == if ok then old(Contents()) + src else old(Contents())
    {
      if |src| > data.Length - size {
        return false;
      }
      var i := 0;
      while i < |src|
        invariant 0 <= i <= |src| && size == old(size)
        invariant data[..size + i] == old(data[..size]) + src[..i]
      {
        data[size + i] := src[i];
        i := i + 1;
      }
      size := size + |src|;
      ok := true;
    }

    /** append_osc_string: no effect unless the padded string fits. */
    method AppendOscString(s: seq<Byte>) returns (ok: bool)
      requires Valid()
      modifies this, data
      ensures Valid() && ok == (|old(Contents())| + Padded(|s|) <= data.Length)
      ensures Contents() == if ok then old(Contents()) + OscString(s) else old(Contents())
    {
      PadsAgree(|s|);
      if Padded(|s|) > data.Length - size {
        return false;
      }
      ok := Append(s);
      ghost var base := old(Contents()) + s;
      var k := |s|;
      while k < Padded(|s|)
        invariant |s| <= k <= Padded(|s|) && Valid()
        invariant Contents() == base + Zeros(k - |s|)
      {
        var _ := PushBack(0);
        assert Zeros(k - |s|) + [NUL] == Zeros(k + 1 - |s|);
        k := k + 1;
      }
      assert base + Zeros(Padded(|s|) - |s|) == old(Contents()) + OscString(s);
      ok := true;
    }

    method AppendU32Be(w: Word) returns (ok: bool)
      requires Valid()
      modifies this, data
      ensures Valid() && ok == (|old(Contents())| + 4 <= data.Length)
      ensures Contents() == if ok then old(Contents()) + BigEndian(w, 4) else old(Contents())
    {
      ok := Append(BigEndian(w, 4));
    }

    /** The tag run: a comma, one tag per argument, and padding. */
    method AppendTags(args: seq<Arg>) returns (ok: bool)
      requires Valid()
      modifies this, data
      ensures Valid() && ok == (|old(Contents())| + Padded(|args| + 1) <= data.Length)
      ensures ok ==> Contents() == old(Contents()) + OscString([COMMA] + Tags(args))
      ensures Contents() <= old(Contents()) + OscString([COMMA] + Tags(args))
    {
      ghost var start := Contents();
      ghost var run := OscString([COMMA] + Tags(args));
      PadsAgree(|args| + 1);
      var k := 0;
      ok := true;
      while ok && k < Padded(|args| + 1)
        invariant 0 <= k <= |run| && Valid()
        invariant Contents() == start + run[..k]
        invariant !ok ==> |start| + |run| > data.Length
        decreases ok, |run| - k
      {
        ok := PushBack(if k == 0 then COMMA else if k <= |args| then args[k - 1].tag else 0);
        if ok {
          assert start + run[..k] + [run[k]] == start + run[..k + 1];
          k := k + 1;
        }
      }
      assert ok ==> run[..k] == run;
    }

    /** One argument; a tag that is not known appends nothing and fails. */
    method AppendArg(a: Arg) returns (ok: bool)
      requires Valid()
      modifies this, data
      ensures Valid() && ok == (Known(a) && |old(Contents())| + |ArgBytes(a)| <= data.Length)
      ensures Contents() == if ok then old(Contents()) + ArgBytes(a) else old(Contents())
    {
      if a.tag == TAG_I {
        ok := AppendU32Be(ToWord(a.i));
      } else if a.tag == TAG_F {
        ok := AppendU32Be(a.f);
      } else if a.tag == TAG_S {
        ok := AppendOscString(a.s);
      } else {
        ok := false;
      }
    }

    /** Argument `k`, whose bytes are `pieces[k]`. */
    method AppendNth(args: seq<Arg>, k: nat, ghost pieces: seq<seq<Byte>>) returns (ok: bool)
      requires Valid() && k < |args| && Spell(args, pieces)
      modifies this, data
      ensures Valid() && ok == (Known(args[k]) && |old(Contents())| + |pieces[k]| <= data.Length)
      ensures Contents() == if ok then old(Contents()) + pieces[k] else old(Contents())
    {
      assert ArgBytes(args[k]) == pieces[k];
      ok := AppendArg(args[k]);
    }

    /** The loop over the arguments, `pieces` being the bytes of each. */
    method AppendPieces(args: seq<Arg>, ghost pieces: seq<seq<Byte>>) returns (ok: bool)
      requires Valid() && Spell(args, pieces)
      modifies this, data
      ensures Valid()
      ensures ok <==> AllKnown(args) && |old(Contents())| + |Joined(pieces, 0)| <= data.Length
      ensures ok ==> Contents() == old(Contents()) + Joined(pieces, 0)
      ensures Contents() <= old(Contents()) + Joined(pieces, 0)
    {
      ghost var full := Contents() + Joined(pieces, 0);
      var k := 0;
      while k < |args|
        invariant 0 <= k <= |args| && Valid()
        invariant Contents() + Joined(pieces, k) == full
        invariant forall j :: 0 <= j < k ==> Known(args[j])
      {
        Regroup(Contents(), pieces[k], Joined(pieces, k + 1));
        ok := AppendNth(args, k, pieces);
        if !ok {
          return;
        }
        k := k + 1;
      }
      ok := true;
    }

    /** All arguments in turn, up to the first that is not known or does not fit. */
    method AppendBody(args: seq<Arg>) returns (ok: bool)
      requires Valid()
      modifies this, data
      ensures Valid()
      ensures ok <==> AllKnown(args) && |old(Contents())| + |Body(args, 0)| <= data.Length
      ensures ok ==> Contents() == old(Contents()) + Body(args, 0)
      ensures Contents() <= old(Contents()) + Body(args, 0)
    {
      ghost var pieces := seq(|args|, k requires 0 <= k < |args| => ArgBytes(args[k]));
      BodyIsJoined(args, pieces, 0);
      ok := AppendPieces(args, pieces);
    }

    /**
     Encode succeeds exactly when every tag is known and the whole message fits; then the buffer holds the
     message.  Otherwise it holds some initial part of it.
     */
    method Encode(address: seq<Byte>, args: seq<Arg>) returns (ok: bool)
      requires Valid()
      modifies this, data
      ensures Valid()
      ensures ok <==> AllKnown(args) && |Packet(address, args)| <= data.Length
      ensures ok ==> Contents() == Packet(address, args)
      ensures Contents() <= Packet(address, args)
    {
      ghost var a, t, b := OscString(address), OscString([COMMA] + Tags(args)), Body(args, 0);
      assert Packet(address, args) == a + t + b;
      Clear();
      ok := AppendOscString(address);
      if !ok {
        return;
      }
      assert Contents() == a;
      ok := AppendTags(args);
      if !ok {
        return;
      }
      assert Contents() == a + t;
      ok := AppendBody(args);
    }
  }

  /** The pieces from number `k` on, one after the other. */
  function Joined(pieces: seq<seq<Byte>>, k: nat): seq<Byte>
    requires k <= |pieces|
    decreases |pieces| - k
  {
    if k == |pieces| then [] else pieces[k] + Joined(pieces, k + 1)
  }

  ghost predicate Spell(args: seq<Arg>, pieces: seq<seq<Byte>>) {
    |pieces| == |args| && forall k {:trigger ArgBytes(args[k])} :: 0 <= k < |args| ==> pieces[k] == ArgBytes(args[k])
  }

  lemma {:induction false} BodyIsJoined(args: seq<Arg>, pieces: seq<seq<Byte>>, k: nat)
    requires Spell(args, pieces) && k <= |args|
    ensures Joined(pieces, k) == Body(args, k)
    decreases |args| - k
  {
    if k < |args| {
      var piece := ArgBytes(args[k]);
      assert Body(args, k) == piece + Body(args, k + 1);
      assert Joined(pieces, k) == piece + Joined(pieces, k + 1);
      BodyIsJoined(args, pieces, k + 1);
    }
  }

  predicate AllKnown(args: seq<Arg>) { forall k :: 0 <= k < |args| ==> Known(args[k]) }

  // ---------------------------------------------------------------------------
  // Decoding
  // ---------------------------------------------------------------------------

  /** strnlen: the bytes before the first NUL, or all of them. */
  function StrLen(s: seq<Byte>): (n: nat)
    ensures n <= |s|
  {
    if s == [] || s[0] == NUL then 0 else 1 + StrLen(s[1..])
  }

  lemma {:induction false} StrLenNulFree(s: seq<Byte>)
    ensures NulFree(s[..StrLen(s)])
  {
    if s != [] && s[0] != NUL {
      StrLenNulFree(s[1..]);
      assert s[..StrLen(s)] == [s[0]] + s[1..][..StrLen(s[1..])];
    }
  }

  lemma {:induction false} StrLenStops(s: seq<Byte>, t: seq<Byte>)
    requires NulFree(s) && t != [] && t[0] == NUL
    ensures StrLen(s + t) == |s|
  {
    if s == [] {
      assert s + t == t;
    } else {
      assert (s + t)[0] == s[0] && (s + t)[1..] == s[1..] + t;
      StrLenStops(s[1..], t);
    }
  }

  /** What handle_packet hands on: the address, the type tags without the comma, and the argument bytes. */
  datatype Message = Message(address: seq<Byte>, types: seq<Byte>, args: seq<Byte>)

  /** The fields of a packet whose address has `n` bytes and whose tag run starts at `off`. */
  function Fields(buf: seq<Byte>, n: nat, off: nat): Message
    requires n <= |buf| && off < |buf| && buf[off] == COMMA
  {
    var len := StrLen(buf[off..]);
    var args := off + Pad4(len + 1);
    assert len >= 1;
    Message(buf[..n], buf[off..][1..len], if args < |buf| then buf[args..] else [])
  }

  /** The splitting at the start of handle_packet. */
  function Split(buf: seq<Byte>): Option<Message> {
    if |buf| < 8 then None else
    var n := StrLen(buf);
    if n >= |buf| then None else
    var off := Pad4(n + 1);
    if off >= |buf| || buf[off] != COMMA then None else Some(Fields(buf, n, off))
  }

  /** A decoded argument, as it is pushed for the handler. */
  datatype Value = IntValue(i: Int32) | FloatValue(bits: Word) | StringValue(s: seq<Byte>)

  function Drop(s: seq<Byte>, n: nat): seq<Byte> { if n <= |s| then s[n..] else [] }

  /** At most one decoded argument, and the bytes after it. */
  datatype Decoded = Decoded(values: seq<Value>, rest: seq<Byte>)

  /** One turn of the argument loop; a tag that is not known, or has no bytes left, is skipped. */
  function DecodeOne(tag: Byte, rest: seq<Byte>): Decoded {
    if tag == TAG_I && 4 <= |rest| then Decoded([IntValue(ToInt32(WordOf(rest[..4])))], rest[4..])
    else if tag == TAG_F && 4 <= |rest| then Decoded([FloatValue(WordOf(rest[..4]))], rest[4..])
    else if tag == TAG_S && 0 < |rest| then
      Decoded([StringValue(rest[..StrLen(rest)])], Drop(rest, Pad4(StrLen(rest) + 1)))
    else Decoded([], rest)
  }

  /** What dispatch_osc decodes. */
  function Decode(types: seq<Byte>, rest: seq<Byte>): seq<Value>
    decreases |types|
  {
    if types == [] then []
    else
      var d := DecodeOne(types[0], rest);
      d.values + Decode(types[1..], d.rest)
  }

  /** The argument loop of dispatch_osc. */
  method DecodeArgs(types: seq<Byte>, args: seq<Byte>) returns (values: seq<Value>)
    ensures values == Decode(types, args)
  {
    values := [];
    var off: nat := 0;
    var k := 0;
    while k < |types|
      invariant 0 <= k <= |types|
      invariant values + Decode(types[k..], Drop(args, off)) == Decode(types, args)
    {
      DecodeFrom(types, k, Drop(args, off));
      var one;
      one, off := TakeArg(types[k], args, off);
      Regroup(values, one, Decode(types[k + 1..], Drop(args, off)));
      values := values + one;
      k := k + 1;
    }
  }

  lemma {:induction false} DecodeFrom(types: seq<Byte>, k: nat, rest: seq<Byte>)
    requires k < |types|
    ensures var d := DecodeOne(types[k], rest);
            Decode(types[k..], rest) == d.values + Decode(types[k + 1..], d.rest)
  {
    assert types[k..][0] == types[k] && types[k..][1..] == types[k + 1..];
  }

  /** One turn of the loop: what is pushed, and the next offset. */
  method TakeArg(tag: Byte, args: seq<Byte>, off: nat) returns (one: seq<Value>, next: nat)
    ensures Decoded(one, Drop(args, next)) == DecodeOne(tag, Drop(args, off))
  {
    if tag == TAG_I && off + 4 <= |args| {
      one, next := [IntValue(ToInt32(WordOf(args[off..off + 4])))], off + 4;
      assert Drop(args, off)[..4] == args[off..off + 4];
    } else if tag == TAG_F && off + 4 <= |args| {
      one, next := [FloatValue(WordOf(args[off..off + 4]))], off + 4;
      assert Drop(args, off)[..4] == args[off..off + 4];
    } else if tag == TAG_S && off < |args| {
      var n := StrLen(args[off..]);
      one, next := [StringValue(args[off..][..n])], off + Pad4(n + 1);
    } else {
      one, next := [], off;
    }
  }

  // ---------------------------------------------------------------------------
  // Round trip
  // ---------------------------------------------------------------------------

  function ValueOf(a: Arg): Value
    requires Known(a)
  {
    if a.tag == TAG_I then IntValue(a.i) else if a.tag == TAG_F then FloatValue(a.f) else StringValue(a.s)
  }

  function ValuesOf(args: seq<Arg>, k: nat): seq<Value>
    requires AllKnown(args) && k <= |args|
    decreases |args| - k
  {
    if k == |args| then [] else [ValueOf(args[k])] + ValuesOf(args, k + 1)
  }

  /** Decoding an encoded argument gives it back and leaves exactly what follows it. */
  lemma {:induction false} DecodeArg(a: Arg, types: seq<Byte>, rest: seq<Byte>)
    requires Known(a) && types != [] && types[0] == a.tag && (a.tag == TAG_S ==> NulFree(a.s))
    ensures Decode(types, ArgBytes(a) + rest) == [ValueOf(a)] + Decode(types[1..], rest)
  {
    var bytes := ArgBytes(a);
    var all := bytes + rest;
    if a.tag == TAG_S {
      PadsAgree(|a.s|);
      var tail := Zeros(Padded(|a.s|) - |a.s|) + rest;
      assert all == a.s + tail && tail[0] == NUL;
      StrLenStops(a.s, tail);
      assert all[..|a.s|] == a.s && Drop(all, |bytes|) == rest;
    } else {
      assert all[..4] == bytes && all[4..] == rest;
      WordRoundTrip(if a.tag == TAG_I then ToWord(a.i) else a.f);
    }
  }

  predicate StringsNulFree(args: seq<Arg>) {
    forall k :: 0 <= k < |args| && args[k].tag == TAG_S ==> NulFree(args[k].s)
  }

  lemma {:induction false} DecodeBody(args: seq<Arg>, k: nat)
    requires AllKnown(args) && StringsNulFree(args) && k <= |args|
    ensures Decode(Tags(args)[k..], Body(args, k)) == ValuesOf(args, k)
    decreases |args| - k
  {
    if k < |args| {
      DecodeBody(args, k + 1);
      DecodeArg(args[k], Tags(args)[k..], Body(args, k + 1));
      assert Tags(args)[k..][1..] == Tags(args)[k + 1..];
    }
  }

  lemma {:induction false} SplitString(s: seq<Byte>, rest: seq<Byte>)
    requires NulFree(s)
    ensures StrLen(OscString(s) + rest) == |s| && Pad4(|s| + 1) == |OscString(s)|
  {
    PadsAgree(|s|);
    var tail := Zeros(Padded(|s|) - |s|) + rest;
    assert OscString(s) + rest == s + tail && tail[0] == NUL;
    StrLenStops(s, tail);
  }

  /** Splitting an encoded message at a NUL-free address gives back the address, the tags and the argument bytes. */
  lemma {:induction false} SplitPacket(address: seq<Byte>, args: seq<Arg>)
    requires AllKnown(args) && NulFree(address)
    ensures Split(Packet(address, args)) == Some(Message(address, Tags(args), Body(args, 0)))
  {
    var p := Packet(address, args);
    var run := [COMMA] + Tags(args);
    var a, t, b := OscString(address), OscString(run), Body(args, 0);
    PacketAligned(address, args);
    assert p == a + (t + b);
    SplitString(address, t + b);
    assert p[..|address|] == address;
    assert p[|a|..] == t + b && (t + b)[0] == COMMA;
    assert NulFree(run);
    SplitString(run, b);
    assert (t + b)[1..|run|] == Tags(args);
    assert p[|a| + |t|..] == b;
  }

  /** Every address and string the receiver extracts is NUL-free. */
  lemma {:induction false} SplitNulFree(buf: seq<Byte>)
    ensures Split(buf).Some? ==> NulFree(Split(buf).value.address)
  {
    StrLenNulFree(buf);
  }

  lemma {:induction false} DecodeNulFree(types: seq<Byte>, rest: seq<Byte>)
    ensures ValuesNulFree(Decode(types, rest))
    decreases |types|
  {
    if types != [] {
      StrLenNulFree(rest);
      DecodeNulFree(types[1..], DecodeOne(types[0], rest).rest);
    }
  }

  predicate ValuesNulFree(values: seq<Value>) {
    forall k :: 0 <= k < |values| && values[k].StringValue? ==> NulFree(values[k].s)
  }

  /** The receiver's view of a message. */
  ghost predicate Recovers(address: seq<Byte>, args: seq<Arg>)
    requires AllKnown(args)
  {
    var m := Split(Packet(address, args));
    && m.Some? && m.value.address == address && m.value.types == Tags(args)
    && Decode(m.value.types, m.value.args) == ValuesOf(args, 0)
  }

  /** A message survives encoding, splitting and decoding if and only if its address and its strings are NUL-free. */
  lemma {:induction false} RoundTrip(address: seq<Byte>, args: seq<Arg>)
    requires AllKnown(args)
    ensures Recovers(address, args) <==> NulFree(address) && StringsNulFree(args)
  {
    if NulFree(address) && StringsNulFree(args) {
      SplitPacket(address, args);
      DecodeBody(args, 0);
      assert Tags(args)[0..] == Tags(args);
    }
    if Recovers(address, args) {
      var m := Split(Packet(address, args)).value;
      SplitNulFree(Packet(address, args));
      DecodedNulFree(m.types, m.args, args);
    }
  }

  lemma {:induction false} DecodedNulFree(types: seq<Byte>, rest: seq<Byte>, args: seq<Arg>)
    requires AllKnown(args) && Decode(types, rest) == ValuesOf(args, 0)
    ensures StringsNulFree(args)
  {
    var values := ValuesOf(args, 0);
    DecodeNulFree(types, rest);
    forall k | 0 <= k < |args| && args[k].tag == TAG_S ensures NulFree(args[k].s) {
      ValueAt(args, 0, k);
      assert values[k].s == args[k].s;
    }
  }

  lemma {:induction false} ValueAt(args: seq<Arg>, i: nat, k: nat)
    requires AllKnown(args) && i <= k < |args|
    ensures |ValuesOf(args, i)| == |args| - i && ValuesOf(args, i)[k - i] == ValueOf(args[k])
    decreases |args| - i
  {
    if i < k {
      ValueAt(args, i + 1, k);
    } else if i + 1 < |args| {
      ValueAt(args, i + 1, i + 1);
    }
  }

  // ---------------------------------------------------------------------------
  // The bytes themselves
  // ---------------------------------------------------------------------------

  /** An 'i' is its 32-bit two's complement, an 'f' its pattern, both most significant byte first; an 's' is padded. */
  lemma {:induction false} ArgLayout(a: Arg)
    ensures Known(a) <==> a.tag == 'i' as int || a.tag == 'f' as int || a.tag == 's' as int
    ensures a.tag == 'i' as int ==>
              var w := if a.i >= 0 then a.i else a.i + 4294967296;
              ArgBytes(a) == [w / 16777216, w / 65536 % 256, w / 256 % 256, w % 256]
    ensures a.tag == 'f' as int ==>
              ArgBytes(a) == [a.f / 16777216, a.f / 65536 % 256, a.f / 256 % 256, a.f % 256]
    ensures a.tag == 's' as int ==> PaddedWith(ArgBytes(a), a.s)
    ensures !Known(a) ==> ArgBytes(a) == []
  {
    WordBytes(ToWord(a.i));
    WordBytes(a.f);
    if a.tag == TAG_S {
      StringLayout(a.s);
    }
  }

  /** The string, then one to four zeros up to a multiple of four. */
  predicate PaddedWith(r: seq<Byte>, s: seq<Byte>) {
    && s <= r && |s| < |r| <= |s| + 4 && |r| % 4 == 0
    && forall i :: |s| <= i < |r| ==> r[i] == 0
  }

  lemma {:induction false} StringLayout(s: seq<Byte>)
    ensures PaddedWith(OscString(s), s)
  {
    PadsAgree(|s|);
  }

  /**
   A message on the wire: the address, padded, then a comma and the tags, padded, then the bytes of the arguments one
   after the other.
   */
  lemma {:induction false} PacketLayout(address: seq<Byte>, args: seq<Arg>) returns (a: seq<Byte>, t: seq<Byte>)
    ensures PaddedWith(a, address) && |t| >= |args| + 1 && t[0] == ',' as int
    ensures (forall k :: 0 <= k < |args| ==> t[k + 1] == args[k].tag) && PaddedWith(t, t[..|args| + 1])
    ensures Packet(address, args) == a + t + Body(args, 0)
  {
    var run := [COMMA] + Tags(args);
    a, t := OscString(address), OscString(run);
    StringLayout(address);
    StringLayout(run);
    assert t[..|args| + 1] == run;
    forall k | 0 <= k < |args| ensures t[k + 1] == args[k].tag {
      assert t[k + 1] == run[k + 1];
    }
  }

  /** The first NUL of `s` is at `n`, or there is none and `n` is its length. */
  ghost predicate EndsAt(s: seq<Byte>, n: nat) { n <= |s| && NulFree(s[..n]) && (n < |s| ==> s[n] == 0) }

  lemma {:induction false} StrLenEnds(s: seq<Byte>)
    ensures EndsAt(s, StrLen(s))
  {
    StrLenNulFree(s);
    if s != [] && s[0] != NUL {
      StrLenEnds(s[1..]);
    }
  }

  /** The next multiple of four after the terminator at `n`. */
  ghost predicate NextField(n: nat, off: nat) { n < off <= n + 4 && off % 4 == 0 }

  /** A packet is taken apart exactly if it has eight bytes, its address ends, and the next field is a comma. */
  lemma {:induction false} SplitExactly(buf: seq<Byte>) returns (n: nat, off: nat)
    ensures EndsAt(buf, n) && NextField(n, off) && n == StrLen(buf) && off == Pad4(n + 1)
    ensures Split(buf).Some? <==> |buf| >= 8 && n < |buf| && off < |buf| && buf[off] == ',' as int
  {
    n := StrLen(buf);
    StrLenEnds(buf);
    PadsAgree(n);
    off := Pad4(n + 1);
  }

  lemma {:induction false} SplitIs(buf: seq<Byte>, n: nat, off: nat)
    requires Split(buf).Some? && n == StrLen(buf) && off == Pad4(n + 1)
    ensures off < |buf| && buf[off] == COMMA && Split(buf).value == Fields(buf, n, off)
  {
  }

  /**
   Then the address is what comes before the first NUL, the tags what comes between the comma and the next one, and the
   arguments start at the field after that, if there is one.
   */
  lemma {:induction false} SplitFields(buf: seq<Byte>) returns (n: nat, off: nat, end: nat, args: nat)
    requires Split(buf).Some?
    ensures EndsAt(buf, n) && NextField(n, off) && off < end <= |buf|
    ensures EndsAt(buf[off..], end - off) && end < args && NextField(end - off, args - off)
    ensures Split(buf).value == Message(buf[..n], buf[off + 1..end], if args < |buf| then buf[args..] else [])
  {
    n, off := SplitExactly(buf);
    SplitIs(buf, n, off);
    end, args := TagsEnd(buf, off);
  }

  lemma {:induction false} TagsEnd(buf: seq<Byte>, off: nat) returns (end: nat, args: nat)
    requires off < |buf| && buf[off] == COMMA
    ensures off < end <= |buf| && EndsAt(buf[off..], end - off) && end < args && NextField(end - off, args - off)
    ensures end == off + StrLen(buf[off..]) && args == off + Pad4(StrLen(buf[off..]) + 1)
    ensures buf[off..][1..StrLen(buf[off..])] == buf[off + 1..end]
  {
    var len := StrLen(buf[off..]);
    StrLenEnds(buf[off..]);
    PadsAgree(len);
    end, args := off + len, off + Pad4(len + 1);
  }

  /** A tag that is not known, or whose bytes are not all there, yields nothing and uses up nothing. */
  lemma {:induction false} SkipsUnknown(tag: Byte, types: seq<Byte>, rest: seq<Byte>)
    requires rest == [] || (tag != 's' as int && (|rest| < 4 || (tag != 'i' as int && tag != 'f' as int)))
    ensures Decode([tag] + types, rest) == Decode(types, rest)
  {
    assert ([tag] + types)[0] == tag && ([tag] + types)[1..] == types;
    assert DecodeOne(tag, rest) == Decoded([], rest);
  }

  /** A string is read up to its first NUL, or to the end of the bytes if it has none. */
  lemma {:induction false} ReadsString(types: seq<Byte>, rest: seq<Byte>) returns (n: nat, next: nat)
    requires rest != []
    ensures EndsAt(rest, n) && NextField(n, next)
    ensures Decode(['s' as int] + types, rest)
         == [StringValue(rest[..n])] + Decode(types, if next <= |rest| then rest[next..] else [])
  {
    n := StrLen(rest);
    StrLenEnds(rest);
    PadsAgree(n);
    next := Pad4(n + 1);
    assert (['s' as int] + types)[0] == TAG_S && (['s' as int] + types)[1..] == types;
  }

  // ---------------------------------------------------------------------------
  // The single-string message builder
  // ---------------------------------------------------------------------------

  function StringArg(s: seq<Byte>): Arg { Arg(TAG_S, 0, 0, s) }

  /** build_osc_string_msg: fills a zeroed vector, and produces the same bytes as the encoder would. */
  method BuildStringMessage(address: seq<Byte>, payload: seq<Byte>) returns (packet: seq<Byte>)
    requires NulFree(address)
    ensures packet == Packet(address, [StringArg(payload)])
  {
    PadsAgree(|address|);
    PadsAgree(|payload|);
    var addrPadded, strPadded := Pad4(|address| + 1), Pad4(|payload| + 1);
    var pkt := new Byte[addrPadded + 4 + strPadded](_ => 0);
    forall i | 0 <= i < |address| {
      pkt[i] := address[i];
    }
    pkt[addrPadded], pkt[addrPadded + 1] := COMMA, TAG_S;
    forall i | 0 <= i < |payload| {
      pkt[addrPadded + 4 + i] := payload[i];
    }
    packet := pkt[..];
    StringPacketAt(address, payload, packet);
  }

  lemma {:induction false} StringPacketAt(address: seq<Byte>, payload: seq<Byte>, packet: seq<Byte>)
    requires |packet| == Padded(|address|) + 4 + Padded(|payload|)
    requires forall i :: 0 <= i < Padded(|address|) ==> packet[i] == if i < |address| then address[i] else NUL
    requires packet[Padded(|address|)] == COMMA && packet[Padded(|address|) + 1] == TAG_S
    requires packet[Padded(|address|) + 2] == NUL && packet[Padded(|address|) + 3] == NUL
    requires forall j :: Padded(|address|) + 4 <= j < |packet| ==>
                 var i := j - Padded(|address|) - 4;
                 packet[j] == if i < |payload| then payload[i] else NUL
    ensures packet == Packet(address, [StringArg(payload)])
  {
    var n := Padded(|address|);
    assert packet[..n] == OscString(address);
    assert packet[n + 4..] == OscString(payload);
    assert packet[n..n + 4] == [COMMA, TAG_S, NUL, NUL];
    assert packet == packet[..n] + packet[n..n + 4] + packet[n + 4..];
    StringPacket(address, payload);
  }

  lemma {:induction false} StringPacket(address: seq<Byte>, payload: seq<Byte>)
    ensures Packet(address, [StringArg(payload)]) == OscString(address) + [COMMA, TAG_S, 0, 0] + OscString(payload)
  {
    var args := [StringArg(payload)];
    assert Body(args, 1) == [];
    assert Body(args, 0) == OscString(payload) + [];
    assert OscString([COMMA] + Tags(args)) == [COMMA, TAG_S, 0, 0];
  }
}
