/** Strings passed to WebAssembly: UTF-16 code units in, a block of UTF-8 bytes (section 3 of RFC 3629) out. */
module Utf8Strings {

  import opened Wrappers

  type Unit = n: nat | n < 0x1_0000
  type Byte = n: nat | n < 0x100
  type Scalar = n: nat | n < 0x11_0000 && !(0xD800 <= n < 0xE000)

  const REPLACEMENT: Scalar := 0xFFFD

  // The encoding of a string

  predicate High(u: Unit) { 0xD800 <= u < 0xDC00 }

  predicate Low(u: Unit) { 0xDC00 <= u < 0xE000 }

  predicate StartsWithPair(s: seq<Unit>) {
    |s| >= 2 && High(s[0]) && Low(s[1])
  }

  /** The first scalar value of a string; a surrogate without its partner counts as U+FFFD. */
  function FirstScalar(s: seq<Unit>): Scalar
    requires s != []
  {
    if StartsWithPair(s) then 0x1_0000 + (s[0] - 0xD800) * 0x400 + (s[1] - 0xDC00)
    else if High(s[0]) || Low(s[0]) then REPLACEMENT
    else s[0]
  }

  function FirstLength(s: seq<Unit>): nat {
    if StartsWithPair(s) then 2 else 1
  }

  function Scalars(s: seq<Unit>): seq<Scalar> {
    if s == [] then [] else [FirstScalar(s)] + Scalars(s[FirstLength(s)..])
  }

  function EncodeScalar(c: Scalar): seq<Byte> {
    if c < 0x80 then [c]
    else if c < 0x800 then [0xC0 + c / 64, 0x80 + c % 64]
    else if c < 0x1_0000 then [0xE0 + c / 4096, 0x80 + c / 64 % 64, 0x80 + c % 64]
    else [0xF0 + c / 262144, 0x80 + c / 4096 % 64, 0x80 + c / 64 % 64, 0x80 + c % 64]
  }

  function EncodeScalars(cs: seq<Scalar>): seq<Byte> {
    if cs == [] then [] else EncodeScalar(cs[0]) + EncodeScalars(cs[1..])
  }

  function Encode(s: seq<Unit>): seq<Byte> {
    EncodeScalars(Scalars(s))
  }

  lemma {:induction false} EncodeStep(s: seq<Unit>)
    requires s != []
    ensures Encode(s) == EncodeScalar(FirstScalar(s)) + Encode(s[FirstLength(s)..])
  {
    var rest := Scalars(s[FirstLength(s)..]);
    assert Scalars(s)[0] == FirstScalar(s) && Scalars(s)[1..] == rest;
  }

  lemma {:induction false} EncodeNone(s: seq<Unit>)
    requires s == []
    ensures Encode(s) == []
  {
  }

  /** A surrogate without its partner takes the three bytes of U+FFFD, wherever it stands. */
  lemma {:induction false} LoneSurrogate(s: seq<Unit>)
    requires s != [] && 0xD800 <= s[0] < 0xE000
    requires !(s[0] < 0xDC00 && |s| > 1 && 0xDC00 <= s[1] < 0xE000)
    ensures Encode(s) == [0xEF, 0xBF, 0xBD] + Encode(s[1..])
  {
    EncodeStep(s);
    hide Encode;
    assert FirstLength(s) == 1 && EncodeScalar(FirstScalar(s)) == [0xEF, 0xBF, 0xBD];
  }

  lemma {:induction false} EncodeUnit(s: seq<Unit>, tail: seq<Byte>)
    requires s != [] && !(0xD800 <= s[0] < 0xE000) && Encode(s[1..]) == tail
    ensures Encode(s) == EncodeScalar(s[0]) + tail
  {
    EncodeStep(s);
  }

  lemma {:induction false} EncodePair(high: Unit, low: Unit)
    requires 0xD800 <= high < 0xDC00 && 0xDC00 <= low < 0xE000
    ensures Encode([high, low]) == EncodeScalar(0x1_0000 + (high - 0xD800) * 0x400 + (low - 0xDC00))
  {
    EncodeStep([high, low]);
    EncodeNone([high, low][2..]);
  }

  /** The first example in section 7 of RFC 3629: one, two and three bytes. */
  lemma {:induction false} KnownEncoding()
    ensures Encode([0x41, 0x2262, 0x391, 0x2E]) == [0x41, 0xE2, 0x89, 0xA2, 0xCE, 0x91, 0x2E]
  {
    var s: seq<Unit> := [0x41, 0x2262, 0x391, 0x2E];
    EncodeNone(s[4..]);
    OneTwoThree();
    hide Encode, EncodeScalar;
    EncodeUnit(s[3..], []);
    EncodeUnit(s[2..], [0x2E]);
    EncodeUnit(s[1..], [0xCE, 0x91, 0x2E]);
    EncodeUnit(s, [0xE2, 0x89, 0xA2, 0xCE, 0x91, 0x2E]);
  }

  lemma {:induction false} OneTwoThree()
    ensures EncodeScalar(0x41) == [0x41] && EncodeScalar(0x2E) == [0x2E]
    ensures EncodeScalar(0x391) == [0xCE, 0x91] && EncodeScalar(0x2262) == [0xE2, 0x89, 0xA2]
  {
  }

  /** The last example of the same section: the byte order mark, and four bytes for a pair of surrogates. */
  lemma {:induction false} KnownPair()
    ensures Encode([0xFEFF, 0xD84C, 0xDFB4]) == [0xEF, 0xBB, 0xBF, 0xF0, 0xA3, 0x8E, 0xB4]
  {
    var s: seq<Unit> := [0xFEFF, 0xD84C, 0xDFB4];
    hide Encode;
    EncodePair(0xD84C, 0xDFB4);
    assert s[1..] == [0xD84C, 0xDFB4];
    EncodeUnit(s, [0xF0, 0xA3, 0x8E, 0xB4]);
  }

  /** Three bytes for each code unit are always enough: a pair of units takes four. */
  lemma {:induction false} EncodeFits(s: seq<Unit>)
    ensures |Encode(s)| <= 3 * |s|
  {
    if s != [] {
      EncodeStep(s);
      EncodeFits(s[FirstLength(s)..]);
    }
  }

  function Repeat(u: Unit, n: nat): (s: seq<Unit>)
    ensures |s| == n
  {
    if n == 0 then [] else [u] + Repeat(u, n - 1)
  }

  /** No smaller room would do: for every length some string fills it. */
  lemma {:induction false} RoomIsTight(n: nat)
    ensures |Encode(Repeat(0x20AC, n))| == 3 * n
  {
    if n > 0 {
      EncodeStep(Repeat(0x20AC, n));
      assert Repeat(0x20AC, n)[1..] == Repeat(0x20AC, n - 1);
      RoomIsTight(n - 1);
    }
  }

  lemma {:induction false} AsciiFirst(s: seq<Unit>)
    requires s != [] && s[0] < 0x80
    ensures Encode(s) == [s[0]] + Encode(s[1..])
  {
    EncodeStep(s);
    hide Encode;
    assert FirstScalar(s) == s[0] && FirstLength(s) == 1;
  }

  /** Code units up to 0x7F are their own encoding, whatever follows them. */
  lemma {:induction false} AsciiPrefix(s: seq<Unit>, k: nat)
    requires k <= |s| && forall i :: 0 <= i < k ==> s[i] < 0x80
    ensures Encode(s) == s[..k] + Encode(s[k..])
  {
    hide Encode;
    if k == 0 {
      assert s[0..] == s;
    } else {
      AsciiFirst(s);
      AsciiPrefix(s[1..], k - 1);
      assert s[1..][..k - 1] == s[1..k] && s[1..][k - 1..] == s[k..];
      assert s[..k] == [s[0]] + s[1..k];
    }
  }

  // Reading the bytes back

  predicate Tails(b: seq<Byte>, n: nat) {
    n < |b| && forall i :: 1 <= i <= n ==> 0x80 <= b[i] < 0xC0
  }

  /** The scalar value at the front and how many bytes it takes; section 4 of RFC 3629 says which bytes are allowed. */
  function DecodeFirst(b: seq<Byte>): Option<(Scalar, nat)>
    requires b != []
  {
    if b[0] < 0x80 then Some((b[0], 1))
    else if 0xC2 <= b[0] < 0xE0 && Tails(b, 1) then
      Some(((b[0] as nat - 0xC0) * 64 + (b[1] as nat - 0x80), 2))
    else if 0xE0 <= b[0] < 0xF0 && Tails(b, 2) && (b[0] == 0xE0 ==> b[1] >= 0xA0) && (b[0] == 0xED ==> b[1] < 0xA0) then
      Some(((b[0] as nat - 0xE0) * 4096 + (b[1] as nat - 0x80) * 64 + (b[2] as nat - 0x80), 3))
    else if 0xF0 <= b[0] < 0xF5 && Tails(b, 3) && (b[0] == 0xF0 ==> b[1] >= 0x90) && (b[0] == 0xF4 ==> b[1] < 0x90) then
      var high := (b[0] as nat - 0xF0) * 262144 + (b[1] as nat - 0x80) * 4096;
      Some((high + (b[2] as nat - 0x80) * 64 + (b[3] as nat - 0x80), 4))
    else None
  }

  function Decode(b: seq<Byte>): Option<seq<Scalar>> {
    if b == [] then Some([])
    else
      var first := DecodeFirst(b);
      if first.None? || first.value.1 > |b| || first.value.1 == 0 then None
      else
        var rest := Decode(b[first.value.1..]);
        if rest.None? then None else Some([first.value.0] + rest.value)
  }

  lemma {:induction false} DecodeFirstOfEncoded(c: Scalar, rest: seq<Byte>)
    ensures DecodeFirst(EncodeScalar(c) + rest) == Some((c, |EncodeScalar(c)|))
  {
    var b := EncodeScalar(c) + rest;
    Digits(c);
    if 0x80 <= c < 0x800 {
      assert Tails(b, 1);
    } else if 0x800 <= c < 0x1_0000 {
      assert Tails(b, 2);
    } else if 0x1_0000 <= c {
      assert Tails(b, 3);
    }
  }

  lemma {:induction false} Div4096(c: nat)
    ensures c / 64 / 64 == c / 4096
  {
  }

  lemma {:induction false} Div262144(c: nat)
    ensures c / 4096 / 64 == c / 262144
  {
  }

  lemma {:induction false} LastDigit(c: nat)
    ensures c == c / 64 * 64 + c % 64
  {
  }

  lemma {:induction false} Digits(c: nat)
    ensures c == c / 64 * 64 + c % 64
    ensures c == c / 4096 * 4096 + c / 64 % 64 * 64 + c % 64
    ensures c == c / 262144 * 262144 + c / 4096 % 64 * 4096 + c / 64 % 64 * 64 + c % 64
  {
    Div4096(c);
    Div262144(c);
    LastDigit(c);
    LastDigit(c / 64);
    LastDigit(c / 4096);
  }

  lemma {:induction false} EncodeOfDecodedFirst(b: seq<Byte>)
    requires b != [] && DecodeFirst(b).Some?
    ensures var (c, n) := DecodeFirst(b).value; 0 < n <= |b| && EncodeScalar(c) == b[..n]
  {
    if b[0] < 0x80 {
    } else if b[0] < 0xE0 {
      TwoDigits(b[0] - 0xC0, b[1] - 0x80);
    } else if b[0] < 0xF0 {
      ThreeDigits(b[0] - 0xE0, b[1] - 0x80, b[2] - 0x80);
    } else {
      FourDigits(b[0] - 0xF0, b[1] - 0x80, b[2] - 0x80, b[3] - 0x80);
    }
  }

  lemma {:induction false} TwoDigits(x: nat, y: nat)
    requires y < 64
    ensures (x * 64 + y) / 64 == x && (x * 64 + y) % 64 == y
  {
  }

  lemma {:induction false} ThreeDigits(x: nat, y: nat, z: nat)
    requires y < 64 && z < 64
    ensures var c := x * 4096 + y * 64 + z; c / 4096 == x && c / 64 % 64 == y && c % 64 == z
  {
    TwoDigits(x * 64 + y, z);
    TwoDigits(x, y);
  }

  lemma {:induction false} FourDigits(w: nat, x: nat, y: nat, z: nat)
    requires x < 64 && y < 64 && z < 64
    ensures var c := w * 262144 + x * 4096 + y * 64 + z;
            c / 262144 == w && c / 4096 % 64 == x && c / 64 % 64 == y && c % 64 == z
  {
    ThreeDigits(w * 64 + x, y, z);
    TwoDigits(w, x);
  }

  /** What was encoded is what is read back. */
  lemma {:induction false} DecodeOfEncoded(cs: seq<Scalar>)
    ensures Decode(EncodeScalars(cs)) == Some(cs)
  {
    if cs != [] {
      var rest := EncodeScalars(cs[1..]);
      var b := EncodeScalar(cs[0]) + rest;
      DecodeFirstOfEncoded(cs[0], rest);
      assert b[|EncodeScalar(cs[0])|..] == rest;
      DecodeOfEncoded(cs[1..]);
      assert [cs[0]] + cs[1..] == cs;
    }
  }

  /** Bytes that can be read are the one encoding of what is read: no overlong form, no surrogate is accepted. */
  lemma {:induction false} EncodeOfDecoded(b: seq<Byte>)
    requires Decode(b).Some?
    ensures EncodeScalars(Decode(b).value) == b
  {
    hide DecodeFirst, EncodeScalar;
    if b != [] {
      var n := DecodeFirst(b).value.1;
      EncodeOfDecodedFirst(b);
      EncodeOfDecoded(b[n..]);
      assert Decode(b).value[1..] == Decode(b[n..]).value;
      assert b[..n] + b[n..] == b;
    }
  }

  // Back to code units

  function UnitsOf(c: Scalar): seq<Unit> {
    if c < 0x1_0000 then [c]
    else [0xD800 + (c - 0x1_0000) / 0x400, 0xDC00 + (c - 0x1_0000) % 0x400]
  }

  function Units(cs: seq<Scalar>): seq<Unit> {
    if cs == [] then [] else UnitsOf(cs[0]) + Units(cs[1..])
  }

  /** Every surrogate stands in a pair. */
  predicate WellPaired(s: seq<Unit>) {
    && (forall i :: 0 <= i < |s| && High(s[i]) ==> i + 1 < |s| && Low(s[i + 1]))
    && (forall i :: 0 <= i < |s| && Low(s[i]) ==> 0 < i && High(s[i - 1]))
  }

  lemma {:induction false} UnitsWellPaired(cs: seq<Scalar>)
    ensures WellPaired(Units(cs))
  {
    if cs != [] {
      UnitsWellPaired(cs[1..]);
      PrependWellPaired(UnitsOf(cs[0]), Units(cs[1..]));
    }
  }

  lemma {:induction false} PrependWellPaired(front: seq<Unit>, rest: seq<Unit>)
    requires WellPaired(front) && WellPaired(rest)
    ensures WellPaired(front + rest)
  {
    var s := front + rest;
    forall i | 0 <= i < |s| && High(s[i]) ensures i + 1 < |s| && Low(s[i + 1]) {
      if i >= |front| {
        assert s[i] == rest[i - |front|];
      }
    }
    forall i | 0 <= i < |s| && Low(s[i]) ensures 0 < i && High(s[i - 1]) {
      if i >= |front| {
        assert s[i] == rest[i - |front|];
      }
    }
  }

  lemma {:induction false} UnitsOfFirst(s: seq<Unit>)
    requires s != [] && WellPaired(s)
    ensures UnitsOf(FirstScalar(s)) == s[..FirstLength(s)]
    ensures WellPaired(s[FirstLength(s)..])
  {
    var rest := s[FirstLength(s)..];
    assert forall i :: 0 <= i < |rest| ==> rest[i] == s[i + FirstLength(s)];
    assert !Low(s[0]);
  }

  lemma {:induction false} UnitsOfScalars(s: seq<Unit>)
    requires WellPaired(s)
    ensures Units(Scalars(s)) == s
  {
    if s != [] {
      var rest := s[FirstLength(s)..];
      UnitsOfFirst(s);
      UnitsOfScalars(rest);
      assert Scalars(s)[1..] == Scalars(rest);
      assert s[..FirstLength(s)] + rest == s;
    }
  }

  /** The other side reads the string's scalar values: the string itself exactly when no surrogate is alone. */
  lemma {:induction false} ReadBackIff(s: seq<Unit>)
    ensures Decode(Encode(s)) == Some(Scalars(s))
    ensures Units(Scalars(s)) == s <==> WellPaired(s)
  {
    DecodeOfEncoded(Scalars(s));
    UnitsWellPaired(Scalars(s));
    if WellPaired(s) {
      UnitsOfScalars(s);
    }
  }

  // The marshalling code. A block of memory is an array: writing outside one is an error.

  lemma {:induction false} Regroup(a: seq<Byte>, b: seq<Byte>, c: seq<Byte>)
    ensures a + (b + c) == (a + b) + c
  {
  }

  /** Writes whole scalar values while they fit between `start` and `end`, as `TextEncoder.encodeInto` does. */
  method EncodeInto(s: seq<Unit>, view: array<Byte>, start: nat, end: nat) returns (read: nat, written: nat)
    requires start <= end <= view.Length
    modifies view
    ensures read <= |s| && start + written <= end
    ensures Encode(s) == view[start..start + written] + Encode(s[read..])
    ensures read < |s| ==> start + written + |EncodeScalar(FirstScalar(s[read..]))| > end
    ensures forall i :: 0 <= i < view.Length && !(start <= i < start + written) ==> view[i] == old(view[i])
  {
    hide EncodeScalar, FirstScalar, Encode;
    read, written := 0, 0;
    assert s[0..] == s && view[start..start] == [];
    while read < |s|
      invariant read <= |s| && start + written <= end
      invariant Encode(s) == view[start..start + written] + Encode(s[read..])
      invariant forall i :: 0 <= i < view.Length && !(start <= i < start + written) ==> view[i] == old(view[i])
    {
      var rest := s[read..];
      var bytes := EncodeScalar(FirstScalar(rest));
      if start + written + |bytes| > end {
        return;
      }
      EncodeStep(rest);
      ghost var before := view[start..start + written];
      Write(view, start + written, bytes);
      assert view[start..start + written + |bytes|] == before + bytes;
      assert s[read + FirstLength(rest)..] == rest[FirstLength(rest)..];
      Regroup(before, bytes, Encode(s[read + FirstLength(rest)..]));
      read, written := read + FirstLength(rest), written + |bytes|;
    }
  }

  /** `view.subarray(at).set(bytes)`, or a byte-wise store. */
  method Write(view: array<Byte>, at: nat, bytes: seq<Byte>)
    requires at + |bytes| <= view.Length
    modifies view
    ensures view[at..at + |bytes|] == bytes
    ensures forall i :: 0 <= i < view.Length && !(at <= i < at + |bytes|) ==> view[i] == old(view[i])
  {
    for i := 0 to |bytes|
      invariant view[at..at + i] == bytes[..i]
      invariant forall k :: 0 <= k < view.Length && !(at <= k < at + i) ==> view[k] == old(view[k])
    {
      view[at + i] := bytes[i];
    }
  }

  class StringPasser {
    var wasmVectorLen: nat

    constructor () {
      wasmVectorLen := 0;
    }

    method Malloc(len: nat) returns (block: array<Byte>)
      ensures fresh(block) && block.Length == len
    {
      block := new Byte[len];
    }

    /** The caller must give the block's own length; what fits of its contents moves along. */
    method Realloc(block: array<Byte>, oldLen: nat, newLen: nat) returns (moved: array<Byte>)
      requires block.Length == oldLen
      ensures fresh(moved) && moved.Length == newLen
      ensures var kept := if oldLen < newLen then oldLen else newLen; moved[..kept] == block[..kept]
    {
      moved := new Byte[newLen];
      var kept := if oldLen < newLen then oldLen else newLen;
      Write(moved, 0, block[..kept]);
      assert moved[0..kept] == moved[..kept];
    }

    /** Without `encodeInto` the whole encoding is copied in, which throws when it does not fit. */
    method EncodeString(
      arg: seq<Unit>, view: array<Byte>, start: nat, hasEncodeInto: bool)
      returns (written: Option<nat>)
      requires start <= view.Length
      modifies view
      ensures |Encode(arg)| <= view.Length - start ==>
                && written == Some(|Encode(arg)|)
                && view[..start] == old(view[..start])
                && view[start..start + |Encode(arg)|] == Encode(arg)
      ensures !hasEncodeInto && |Encode(arg)| > view.Length - start ==> written.None? && view[..] == old(view[..])
    {
      hide Encode, EncodeScalar;
      if hasEncodeInto {
        var read, n := EncodeInto(arg, view, start, view.Length);
        written := Some(n);
        AllRead(arg, read, view[start..start + n], view.Length - start);
      } else {
        var buf := Encode(arg);
        if |buf| > view.Length - start {
          return None;
        }
        Write(view, start, buf);
        written := Some(|buf|);
      }
    }

    /**
      `hasRealloc` says whether the caller gave a `realloc`, `hasEncodeInto` whether the platform has `encodeInto`.
      The block that is handed over is exactly the encoding of the whole string, by either path.
     */
    method PassStringToWasm0(arg: seq<Unit>, hasRealloc: bool, hasEncodeInto: bool) returns (block: array<Byte>)
      modifies this`wasmVectorLen
      ensures fresh(block) && wasmVectorLen == block.Length
      ensures block[..] == Encode(arg)
    {
      hide Encode;
      if !hasRealloc {
        var buf := Encode(arg);
        block := Malloc(|buf|);
        Write(block, 0, buf);
        wasmVectorLen := |buf|;
        assert block[..] == block[0..0 + |buf|];
        return;
      }
      var len := |arg|;
      block := Malloc(len);
      var offset := 0;
      while offset < len
        invariant offset <= len && fresh(block) && block.Length == len
        invariant forall i :: 0 <= i < offset ==> arg[i] < 0x80
        invariant block[..offset] == arg[..offset]
      {
        var code := arg[offset];
        if code > 0x7F {
          break;
        }
        block[offset] := code;
        offset := offset + 1;
      }
      AsciiPrefix(arg, offset);
      if offset != len {
        var rest := if offset != 0 then arg[offset..] else arg;
        EncodeFits(rest);
        var room := offset + |rest| * 3;
        block := Realloc(block, len, room);
        len := room;
        var ret := EncodeString(rest, block, offset, hasEncodeInto);
        assert Encode(arg) == block[..offset] + block[offset..offset + ret.value];
        offset := offset + ret.value;
        assert Encode(arg) == block[..offset];
        block := Realloc(block, len, offset);
        assert block[..] == block[..offset];
      } else {
        EncodeNone(arg[offset..]);
      }
      wasmVectorLen := offset;
    }
  }

  /** With room for the whole encoding nothing is left unread. */
  lemma {:induction false} AllRead(s: seq<Unit>, read: nat, written: seq<Byte>, room: nat)
    requires read <= |s| && |written| <= room && Encode(s) == written + Encode(s[read..])
    requires read < |s| ==> |written| + |EncodeScalar(FirstScalar(s[read..]))| > room
    ensures |Encode(s)| <= room ==> written == Encode(s)
  {
    if read < |s| {
      EncodeStep(s[read..]);
    }
  }
}
