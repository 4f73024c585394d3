/**
 MIDI Tuning Standard bulk dumps (src/rt_control_thread.cpp): the encoding of one key's pitch, and the
 assembly of the 408-byte message.  Pitches are reals in semitones.  The conversion 12 log2(hz / 440) + 69
 and the equal-tempered frequency of a key are arbitrary functions; where it matters that the one undoes the other,
 a lemma says so.
 */
module Mts {
  import opened Numbers

  datatype Triple = Triple(xx: nat, yy: nat, zz: nat)

  /** One key's entry: a semitone and a fraction of it in 14 bits, seven bits each. */
  type Entry = e: Triple | e.xx < 128 && e.yy < 128 && e.zz < 128 witness Triple(0, 0, 0)

  /** The frequency given for a key, or zero. */
  function HzOf(tuning: map<int, real>, key: int): real { if key in tuning then tuning[key] else 0.0 }

  /** `pitch` is 12 log2(hz / 440) + 69 and `tempered` is 440 * 2^((key - 69) / 12). */
  datatype Scale = Scale(pitch: real -> real, tempered: int -> real)

  /** The pitch of a key; without a positive frequency it is that of the equal-tempered one. */
  function PitchOf(scale: Scale, key: int, hz: real): real {
    (scale.pitch)(if hz > 0.0 then hz else (scale.tempered)(key))
  }

  /** mts_encode_note. */
  method EncodeNote(scale: Scale, key: int, hz: real) returns (e: Entry)
    ensures e == EntryOf(PitchOf(scale, key, hz))
    ensures var meant := (scale.pitch)(if hz > 0.0 then hz else (scale.tempered)(key));
            Near(Decode(e), meant) <==> 0.0 <= meant < 128.0
  {
    var semitones := PitchOf(scale, key, hz);
    var xx := Round(semitones);
    var bend := (semitones - xx as real) * 100.0;
    RoundNearest(semitones);
    if bend < 0.0 {
      xx := if xx - 1 < 0 then 0 else xx - 1;
      bend := bend + 100.0;
    }
    xx := ClampInt(xx, 0, 127);
    assert bend / 100.0 == Fraction(semitones);
    var fine := ClampInt(Round(bend / 100.0 * 16384.0), 0, 16383);
    e := Triple(xx, fine / 128 % 128, fine % 128);
    AccurateInRange(semitones);
  }

  lemma {:induction false} RoundNearest(s: real)
    ensures Round(s) == s.Floor || (Round(s) == s.Floor + 1 && s < Round(s) as real)
  {
  }

  // ---------------------------------------------------------------------------
  // What an entry stands for
  // ---------------------------------------------------------------------------

  function Fraction(s: real): (f: real)
    ensures 0.0 <= f < 1.0
  {
    s - s.Floor as real
  }

  /** The fraction in units of 1/16384, to the nearest but never a whole semitone. */
  function Fine(s: real): (n: nat)
    ensures n < 16384
  {
    var n := (Fraction(s) * 16384.0 + 0.5).Floor;
    if n > 16383 then 16383 else n
  }

  /** The entry of a pitch: its semitone, held within the 128 keys, and its fraction. */
  function EntryOf(s: real): Entry {
    Triple(ClampInt(s.Floor, 0, 127), Fine(s) / 128, Fine(s) % 128)
  }

  /** The pitch that a receiver reads from an entry. */
  function Decode(e: Entry): real { e.xx as real + (e.yy * 128 + e.zz) as real / 16384.0 }

  lemma {:induction false} DecodeIs(s: real)
    ensures Decode(EntryOf(s)) == ClampInt(s.Floor, 0, 127) as real + Fine(s) as real / 16384.0
  {
    assert Fine(s) / 128 * 128 + Fine(s) % 128 == Fine(s);
  }

  lemma {:induction false} FineNear(s: real)
    ensures -1.0 < Fine(s) as real - Fraction(s) * 16384.0 <= 0.5
  {
  }

  predicate Near(a: real, b: real) { -1.0 / 16384.0 < a - b < 1.0 / 16384.0 }

  /** The receiver's pitch is within 1/16384 semitone of the one meant if and only if that lies in [0, 128). */
  lemma {:induction false} AccurateInRange(s: real)
    ensures Near(Decode(EntryOf(s)), s) <==> 0.0 <= s < 128.0
  {
    DecodeIs(s);
    FineNear(s);
  }

  /**
   In that range it is the nearest pitch that an entry can stand for, unless that is the next semitone: then it is one
   unit short.
   */
  lemma {:induction false} NearestInRange(s: real)
    requires 0.0 <= s < 128.0
    ensures var error := Decode(EntryOf(s)) - s;
            && (-0.5 <= error * 16384.0 <= 0.5 <==> (s.Floor + 1) as real - s >= 0.5 / 16384.0)
            && ((s.Floor + 1) as real - s < 0.5 / 16384.0 ==>
                  Decode(EntryOf(s)) == (s.Floor + 1) as real - 1.0 / 16384.0)
  {
    DecodeIs(s);
    FineNear(s);
  }

  /** Outside that range the entry keeps the fraction but has the lowest or the highest semitone. */
  lemma {:induction false} OutsideRange(s: real)
    requires s < 0.0 || s >= 128.0
    ensures EntryOf(s).xx == (if s < 0.0 then 0 else 127)
    ensures Near(Decode(EntryOf(s)) - EntryOf(s).xx as real, s - s.Floor as real)
  {
    DecodeIs(s);
    FineNear(s);
  }

  /** A key with a positive frequency is tuned to it. */
  lemma {:induction false} TunedKey(tuning: map<int, real>, scale: Scale, key: int)
    requires key in tuning && tuning[key] > 0.0
    ensures var meant := (scale.pitch)(tuning[key]);
            Near(Decode(EntryOf(PitchOf(scale, key, HzOf(tuning, key)))), meant) <==> 0.0 <= meant < 128.0
  {
    AccurateInRange((scale.pitch)(tuning[key]));
  }

  /** In that range a higher pitch never reads lower. */
  lemma {:induction false} MonotoneInRange(s: real, t: real)
    requires 0.0 <= s <= t < 128.0
    ensures Decode(EntryOf(s)) <= Decode(EntryOf(t))
  {
    DecodeIs(s);
    DecodeIs(t);
  }

  /** A key without a positive frequency keeps its own pitch exactly. */
  lemma {:induction false} IdentityKey(tuning: map<int, real>, scale: Scale, key: int)
    requires 0 <= key < 128 && (key !in tuning || tuning[key] <= 0.0)
    requires (scale.pitch)((scale.tempered)(key)) == key as real
    ensures EntryOf(PitchOf(scale, key, HzOf(tuning, key))) == Triple(key, 0, 0)
  {
    assert Fraction(key as real) == 0.0;
  }

  /** The entry 7F 7F 7F, which the standard reserves for "no change", is produced exactly for these pitches. */
  lemma {:induction false} ReservedEntry(s: real)
    ensures EntryOf(s) == Triple(127, 127, 127) <==> s >= 127.0 && Fraction(s) * 16384.0 >= 16382.5
  {
    assert Fine(s) / 128 * 128 + Fine(s) % 128 == Fine(s);
  }

  // ---------------------------------------------------------------------------
  // The message
  // ---------------------------------------------------------------------------

  const KEYS: nat := 128

  type Octet = bv8

  lemma {:induction false} NextByte(b: Octet)
    requires b as int < 127
    ensures (b + 1) as int == b as int + 1
  {
  }

  /** The byte of a number: counting up from zero, which does not wrap below 128. */
  function ToByte(n: nat): (b: Octet)
    requires n < 128
    ensures b as int == n
  {
    if n == 0 then 0 else
    var b := ToByte(n - 1);
    NextByte(b);
    b + 1
  }

  function EntryBytes(e: Entry): (r: seq<Octet>)
    ensures |r| == 3
  {
    [ToByte(e.xx), ToByte(e.yy), ToByte(e.zz)]
  }

  /** The entries of all keys. */
  function Entries(tuning: map<int, real>, scale: Scale): (r: seq<Entry>)
    ensures |r| == KEYS
  {
    seq(KEYS, k requires 0 <= k < KEYS => EntryOf(PitchOf(scale, k, HzOf(tuning, k))))
  }

  /** The bytes of the first `n` entries. */
  function Notes(entries: seq<Entry>, n: nat): (r: seq<Octet>)
    requires n <= |entries|
    ensures |r| == 3 * n
    decreases entries, n
  {
    if n == 0 then [] else Notes(entries, n - 1) + EntryBytes(entries[n - 1])
  }

  function Preamble(prog: Octet, device: Octet): (r: seq<Octet>)
    ensures |r| == 5
  {
    [0x7E, device, 0x08, 0x01, prog]
  }

  function NameField(n: nat): (r: seq<Octet>)
    ensures |r| == n
  {
    seq(n, i => 0)
  }

  function XorAll(s: seq<Octet>): Octet { if s == [] then 0 else XorAll(s[..|s| - 1]) ^ s[|s| - 1] }

  /** What the checksum covers: everything after the F0. */
  function Covered(entries: seq<Entry>, prog: Octet, device: Octet): (r: seq<Octet>)
    requires |entries| == KEYS
    ensures |r| == 405
  {
    Preamble(prog, device) + NameField(16) + Notes(entries, KEYS)
  }

  function Dump(entries: seq<Entry>, prog: Octet, device: Octet): (r: seq<Octet>)
    requires |entries| == KEYS
    ensures |r| == 408
  {
    var body := Covered(entries, prog, device);
    [0xF0] + body + [XorAll(body) & 0x7F, 0xF7]
  }

  /** mts_bulk_dump. */
  method BulkDump(tuning: map<int, real>, scale: Scale, prog: Octet, device: Octet) returns (out: seq<Octet>)
    ensures out == Dump(Entries(tuning, scale), prog, device)
  {
    out := [0xF0] + Preamble(prog, device);
    var i := 0;
    while i < 16
      invariant 0 <= i <= 16 && out == [0xF0] + Preamble(prog, device) + NameField(i)
    {
      out := out + [0x00];
      i := i + 1;
    }
    var notes := AllNotes(tuning, scale);
    out := out + notes;
    ghost var body := Covered(Entries(tuning, scale), prog, device);
    assert out == [0xF0] + body;
    var csum := Checksum(out);
    assert out[1..] == body;
    out := out + [csum & 0x7F, 0xF7];
  }

  /** The loop over the 128 keys. */
  method AllNotes(tuning: map<int, real>, scale: Scale) returns (notes: seq<Octet>)
    ensures notes == Notes(Entries(tuning, scale), KEYS)
  {
    ghost var entries := Entries(tuning, scale);
    notes := [];
    var k := 0;
    while k < KEYS
      invariant 0 <= k <= KEYS && notes == Notes(entries, k)
    {
      var e := EncodeNote(scale, k, HzOf(tuning, k));
      assert e == entries[k];
      notes := notes + EntryBytes(e);
      k := k + 1;
    }
  }

  /** The exclusive or of all bytes after the first. */
  method Checksum(out: seq<Octet>) returns (csum: Octet)
    requires out != []
    ensures csum == XorAll(out[1..])
  {
    csum := 0;
    var i := 1;
    while i < |out|
      invariant 1 <= i <= |out| && csum == XorAll(out[1..i])
    {
      assert out[1..i + 1][..i - 1] == out[1..i] && out[1..i + 1][i - 1] == out[i];
      csum := csum ^ out[i];
      i := i + 1;
    }
    assert out[1..i] == out[1..];
  }

  // ---------------------------------------------------------------------------
  // The message is well formed
  // ---------------------------------------------------------------------------

  predicate SevenBit(s: seq<Octet>) { forall i :: 0 <= i < |s| ==> s[i] & 0x80 == 0 }

  lemma {:induction false} ToByteSevenBit(n: nat)
    requires n < 128
    ensures ToByte(n) & 0x80 == 0
  {
  }

  lemma {:induction false} EntrySevenBit(e: Entry)
    ensures SevenBit(EntryBytes(e))
  {
    ToByteSevenBit(e.xx);
    ToByteSevenBit(e.yy);
    ToByteSevenBit(e.zz);
  }

  lemma {:induction false} NotesSevenBit(entries: seq<Entry>, n: nat)
    requires n <= |entries|
    ensures SevenBit(Notes(entries, n))
    decreases n
  {
    if n > 0 {
      NotesSevenBit(entries, n - 1);
      EntrySevenBit(entries[n - 1]);
    }
  }

  /** Between F0 and F7 every byte has seven bits if and only if the program and the device id do. */
  lemma {:induction false} DumpSevenBit(entries: seq<Entry>, prog: Octet, device: Octet)
    requires |entries| == KEYS
    ensures var d := Dump(entries, prog, device);
            && d[0] == 0xF0 && d[407] == 0xF7
            && (SevenBit(d[1..407]) <==> prog & 0x80 == 0 && device & 0x80 == 0)
  {
    var body := Covered(entries, prog, device);
    var d := Dump(entries, prog, device);
    Middle(0xF0, body, XorAll(body) & 0x7F, 0xF7);
    CoveredSevenBit(entries, prog, device);
    AppendSevenBit(body, XorAll(body) & 0x7F);
  }

  lemma {:induction false} Middle(first: Octet, body: seq<Octet>, csum: Octet, last: Octet)
    ensures ([first] + body + [csum, last])[1..|body| + 2] == body + [csum]
  {
  }

  lemma {:induction false} CoveredSevenBit(entries: seq<Entry>, prog: Octet, device: Octet)
    requires |entries| == KEYS
    ensures SevenBit(Covered(entries, prog, device)) <==> prog & 0x80 == 0 && device & 0x80 == 0
  {
    NotesSevenBit(entries, KEYS);
    var body := Covered(entries, prog, device);
    assert body[1] == device && body[4] == prog && body[0] == 0x7E && body[2] == 0x08 && body[3] == 0x01;
    assert forall i :: 5 <= i < 21 ==> body[i] == 0;
    assert forall i :: 21 <= i < 405 ==> body[i] == Notes(entries, KEYS)[i - 21];
  }

  lemma {:induction false} AppendSevenBit(s: seq<Octet>, c: Octet)
    requires c & 0x80 == 0
    ensures SevenBit(s + [c]) <==> SevenBit(s)
  {
    assert SevenBit(s + [c]) ==> forall i :: 0 <= i < |s| ==> (s + [c])[i] == s[i] && s[i] & 0x80 == 0;
  }

  lemma {:induction false} TopBitXor(a: Octet, b: Octet)
    ensures (a ^ b) & 0x80 == (a & 0x80) ^ (b & 0x80)
  {
  }

  lemma {:induction false} XorTopBit(s: seq<Octet>)
    requires SevenBit(s)
    ensures XorAll(s) & 0x80 == 0
  {
    if s != [] {
      XorTopBit(s[..|s| - 1]);
      TopBitXor(XorAll(s[..|s| - 1]), s[|s| - 1]);
    }
  }

  lemma {:induction false} XorConcat(a: seq<Octet>, b: seq<Octet>)
    ensures XorAll(a + b) == XorAll(a) ^ XorAll(b)
  {
    if b == [] {
      assert a + b == a;
    } else {
      assert (a + b)[..|a + b| - 1] == a + b[..|b| - 1];
      XorConcat(a, b[..|b| - 1]);
    }
  }

  lemma {:induction false} Residue(c: Octet)
    ensures c ^ (c & 0x7F) == c & 0x80
  {
  }

  lemma {:induction false} CoveredTopBit(entries: seq<Entry>, prog: Octet, device: Octet)
    requires |entries| == KEYS
    ensures XorAll(Covered(entries, prog, device)) & 0x80 == 0 <==> prog & 0x80 == device & 0x80
  {
    var p, n, k := Preamble(prog, device), NameField(16), Notes(entries, KEYS);
    NotesSevenBit(entries, KEYS);
    XorTopBit(n + k);
    XorConcat(p, n + k);
    assert p + n + k == p + (n + k);
    PreambleTopBit(prog, device);
    TopBitXor(XorAll(p), XorAll(n + k));
  }

  lemma {:induction false} XorPush(s: seq<Octet>, b: Octet)
    ensures XorAll(s + [b]) == XorAll(s) ^ b
  {
    assert (s + [b])[..|s|] == s;
  }

  lemma {:induction false} PreambleTopBit(prog: Octet, device: Octet)
    ensures XorAll(Preamble(prog, device)) & 0x80 == 0 <==> prog & 0x80 == device & 0x80
  {
    var a: seq<Octet> := [0x7E];
    var b := a + [device];
    var c := b + [0x08];
    var d := c + [0x01];
    assert Preamble(prog, device) == d + [prog];
    assert [] + [0x7E] == a;
    XorPush([], 0x7E);
    XorPush(a, device);
    XorPush(b, 0x08);
    XorPush(c, 0x01);
    XorPush(d, prog);
    MixedTopBit(device, prog);
  }

  lemma {:induction false} MixedTopBit(device: Octet, prog: Octet)
    ensures (0 ^ 0x7E ^ device ^ 0x08 ^ 0x01 ^ prog) & 0x80 == 0 <==> prog & 0x80 == device & 0x80
  {
  }

  /**
   The bytes from the second through the checksum cancel out if and only if program and device id agree in their
   top bit.
   */
  lemma {:induction false} ChecksumCancels(entries: seq<Entry>, prog: Octet, device: Octet)
    requires |entries| == KEYS
    ensures XorAll(Dump(entries, prog, device)[1..407]) == 0 <==> prog & 0x80 == device & 0x80
  {
    var body := Covered(entries, prog, device);
    var csum := XorAll(body) & 0x7F;
    Middle(0xF0, body, csum, 0xF7);
    assert (body + [csum])[..405] == body;
    Residue(XorAll(body));
    CoveredTopBit(entries, prog, device);
  }

  /** The receiver finds each key's entry in its place. */
  lemma {:induction false} KeyInPlace(entries: seq<Entry>, prog: Octet, device: Octet, key: nat)
    requires |entries| == KEYS && key < KEYS
    ensures Dump(entries, prog, device)[22 + 3 * key..25 + 3 * key] == EntryBytes(entries[key])
  {
    var notes := Notes(entries, KEYS);
    NotesAt(entries, KEYS, key);
    var body := Covered(entries, prog, device);
    assert body[21 + 3 * key..24 + 3 * key] == notes[3 * key..3 * key + 3];
    Inside(0xF0, body, [XorAll(body) & 0x7F, 0xF7], 21 + 3 * key);
  }

  /** The pitch that a receiver reads from the three bytes at `i`. */
  function PitchAt(d: seq<Octet>, i: nat): real
    requires i + 3 <= |d|
  {
    (d[i] as int) as real + ((d[i + 1] as int) * 128 + (d[i + 2] as int)) as real / 16384.0
  }

  lemma {:induction false} EntryAt(d: seq<Octet>, i: nat, e: Entry)
    requires i + 3 <= |d| && d[i..i + 3] == EntryBytes(e)
    ensures PitchAt(d, i) == Decode(e)
  {
    assert d[i] == d[i..i + 3][0] && d[i + 1] == d[i..i + 3][1] && d[i + 2] == d[i..i + 3][2];
  }

  /**
   From the dump a receiver reads, for every key with a positive frequency, a pitch within 1/16384 semitone of that
   frequency's if and only if it lies in [0, 128).
   */
  lemma {:induction false} TunedInDump(tuning: map<int, real>, scale: Scale, prog: Octet, device: Octet, key: nat)
    requires key < KEYS && key in tuning && tuning[key] > 0.0
    ensures var d, meant := Dump(Entries(tuning, scale), prog, device), (scale.pitch)(tuning[key]);
            Near(PitchAt(d, 22 + 3 * key), meant) <==> 0.0 <= meant < 128.0
  {
    var entries := Entries(tuning, scale);
    KeyInPlace(entries, prog, device, key);
    EntryAt(Dump(entries, prog, device), 22 + 3 * key, entries[key]);
    TunedKey(tuning, scale, key);
  }

  /** And for every other key its own pitch, given that the pitch of its equal-tempered frequency is its number. */
  lemma {:induction false} UntunedInDump(tuning: map<int, real>, scale: Scale, prog: Octet, device: Octet, key: nat)
    requires key < KEYS && (key !in tuning || tuning[key] <= 0.0)
    requires (scale.pitch)((scale.tempered)(key)) == key as real
    ensures PitchAt(Dump(Entries(tuning, scale), prog, device), 22 + 3 * key) == key as real
  {
    var entries := Entries(tuning, scale);
    KeyInPlace(entries, prog, device, key);
    EntryAt(Dump(entries, prog, device), 22 + 3 * key, entries[key]);
    IdentityKey(tuning, scale, key);
  }

  /** The bytes around the entries: F0 7E device 08 01 program, a blank name, and a checksum and F7 at the end. */
  lemma {:induction false} DumpFrame(entries: seq<Entry>, prog: Octet, device: Octet)
    requires |entries| == KEYS
    ensures var d := Dump(entries, prog, device);
            && d[..6] == [0xF0, 0x7E, device, 0x08, 0x01, prog]
            && (forall i :: 6 <= i < 22 ==> d[i] == 0)
            && d[406] == XorAll(d[1..406]) & 0x7F && d[407] == 0xF7
  {
    var body, d := Covered(entries, prog, device), Dump(entries, prog, device);
    assert d[1..406] == body;
    assert forall i :: 1 <= i < 406 ==> d[i] == body[i - 1];
  }

  lemma {:induction false} Inside(first: Octet, body: seq<Octet>, rest: seq<Octet>, i: nat)
    requires i + 3 <= |body|
    ensures ([first] + body + rest)[i + 1..i + 4] == body[i..i + 3]
  {
  }

  lemma {:induction false} NotesAt(entries: seq<Entry>, n: nat, key: nat)
    requires key < n <= |entries|
    ensures Notes(entries, n)[3 * key..3 * key + 3] == EntryBytes(entries[key])
    decreases n
  {
    var front, last := Notes(entries, n - 1), EntryBytes(entries[n - 1]);
    if key < n - 1 {
      NotesAt(entries, n - 1, key);
      SliceOfFront(front, last, 3 * key);
    } else {
      SliceOfBack(front, last);
    }
  }

  lemma {:induction false} SliceOfFront(a: seq<Octet>, b: seq<Octet>, i: nat)
    requires i + 3 <= |a|
    ensures (a + b)[i..i + 3] == a[i..i + 3]
  {
  }

  lemma {:induction false} SliceOfBack(a: seq<Octet>, b: seq<Octet>)
    ensures (a + b)[|a|..|a| + |b|] == b
  {
  }
}
