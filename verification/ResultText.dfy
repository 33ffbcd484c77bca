/** What storing an upstream response as JSON text can cost: the capped read loop, lossy UTF-8
    decoding and JSON string escaping. */
module ResultText {
  import opened Outcome
  import opened Compaction

  const MAX_RESULT: nat := 4 * 1024 * 1024

  type byte = x: int | 0 <= x < 256

  // ---------------------------------------------------------------- reading the response

  datatype Chunk = Data(bytes: seq<byte>) | Failure

  /** The chunks received, if none failed. */
  ghost function Joined(chunks: seq<Chunk>): Option<seq<byte>> {
    if chunks == [] then Some([])
    else
      var last, before := chunks[|chunks| - 1], Joined(chunks[..|chunks| - 1]);
      if last.Failure? || before.None? then None else Some(before.value + last.bytes)
  }

  lemma {:induction false} JoinedPrefix(chunks: seq<Chunk>, n: nat)
    requires n <= |chunks| && Joined(chunks).Some?
    ensures Joined(chunks[..n]).Some? && |Joined(chunks[..n]).value| <= |Joined(chunks).value|
    decreases |chunks|
  {
    if n < |chunks| {
      JoinedPrefix(chunks[..|chunks| - 1], n);
      assert chunks[..|chunks| - 1][..n] == chunks[..n];
    } else {
      assert chunks[..n] == chunks;
    }
  }

  /** The body is complete exactly when no chunk failed and all of it fits; otherwise it is discarded. */
  method ReadResponse(chunks: seq<Chunk>) returns (r: Option<seq<byte>>)
    ensures r.Some? <==> Joined(chunks).Some? && |Joined(chunks).value| <= MAX_RESULT
    ensures r.Some? ==> r == Joined(chunks)
  {
    var bytes: seq<byte> := [];
    var i := 0;
    while i < |chunks|
      invariant 0 <= i <= |chunks| && |bytes| <= MAX_RESULT
      invariant Joined(chunks[..i]) == Some(bytes)
    {
      assert chunks[..i + 1][..i] == chunks[..i];
      if chunks[i].Failure? || |bytes| + |chunks[i].bytes| > MAX_RESULT {
        assert Joined(chunks).Some? ==> |Joined(chunks[..i + 1]).value| <= |Joined(chunks).value| by {
          if Joined(chunks).Some? { JoinedPrefix(chunks, i + 1); }
        }
        return None;
      }
      bytes := bytes + chunks[i].bytes;
      i := i + 1;
    }
    assert chunks[..i] == chunks;
    return Some(bytes);
  }

  // ---------------------------------------------------------------- lossy decoding

  predicate Continues(b: seq<byte>, i: nat) { i < |b| && 0x80 <= b[i] <= 0xBF }

  /** What the first bytes of an input decode to; None stands for a malformed sequence. */
  datatype Head = Head(width: nat, code: Option<char>)

  function Tail(b: byte): int { b % 64 }

  predicate SecondOfThree(first: byte, second: byte) {
    (if first == 0xE0 then 0xA0 else 0x80) <= second <= (if first == 0xED then 0x9F else 0xBF)
  }

  predicate SecondOfFour(first: byte, second: byte) {
    (if first == 0xF0 then 0x90 else 0x80) <= second <= (if first == 0xF4 then 0x8F else 0xBF)
  }

  /** One character, or the longest malformed prefix that stands for one replacement character. */
  function DecodeOne(b: seq<byte>): (r: Head)
    requires b != []
    ensures 1 <= r.width <= |b|
    ensures r.code.Some? ==> CharBytes(r.code.value) == r.width
  {
    var w := b[0];
    if w < 0x80 then Head(1, Some(w as char))
    else if 0xC2 <= w <= 0xDF then
      if Continues(b, 1) then Head(2, Some(((w % 32) * 64 + Tail(b[1])) as char)) else Head(1, None)
    else if 0xE0 <= w <= 0xEF then
      if !(|b| > 1 && SecondOfThree(w, b[1])) then Head(1, None)
      else if !Continues(b, 2) then Head(2, None)
      else Head(3, Some(((w % 16) * 4096 + Tail(b[1]) * 64 + Tail(b[2])) as char))
    else if 0xF0 <= w <= 0xF4 then
      if !(|b| > 1 && SecondOfFour(w, b[1])) then Head(1, None)
      else if !Continues(b, 2) then Head(2, None)
      else if !Continues(b, 3) then Head(3, None)
      else Head(4, Some(((w % 8) * 262144 + Tail(b[1]) * 4096 + Tail(b[2]) * 64 + Tail(b[3])) as char))
    else Head(1, None)
  }

  /** `String::from_utf8_lossy`. */
  function Lossy(b: seq<byte>): string
    decreases |b|
  {
    if b == [] then []
    else
      var h := DecodeOne(b);
      [if h.code.Some? then h.code.value else '\U{FFFD}'] + Lossy(b[h.width..])
  }

  // ---------------------------------------------------------------- JSON text

  predicate ShortEscape(c: char) {
    c == '"' || c == '\\' || c == '\n' || c == '\r' || c == '\t' || c as int == 8 || c as int == 12
  }

  /** The bytes of one character inside a JSON string. */
  function EscapedChar(c: char): nat {
    if ShortEscape(c) then 2 else if c as int < 0x20 then 6 else CharBytes(c)
  }

  function Escaped(s: string): nat {
    if s == [] then 0 else EscapedChar(s[0]) + Escaped(s[1..])
  }

  /** The bytes of an optional string in JSON: `null`, or the quoted text. */
  function ResultSize(result: Option<string>): nat {
    if result.None? then 4 else 2 + Escaped(result.value)
  }

  /** At most six bytes of JSON per byte received. */
  lemma {:induction false} LossyCost(b: seq<byte>)
    ensures Escaped(Lossy(b)) <= 6 * |b|
    decreases |b|
  {
    if b != [] {
      var h := DecodeOne(b);
      LossyCost(b[h.width..]);
      var c := if h.code.Some? then h.code.value else '\U{FFFD}';
      assert EscapedChar(c) <= 6 * h.width;
      assert Lossy(b)[1..] == Lossy(b[h.width..]);
    }
  }

  function Encoded(c: char): (r: seq<byte>)
    ensures |r| == CharBytes(c)
  {
    var n := c as int;
    if n < 0x80 then [n]
    else if n < 0x800 then [0xC0 + n / 64, 0x80 + n % 64]
    else if n < 0x1_0000 then [0xE0 + n / 4096, 0x80 + n / 64 % 64, 0x80 + n % 64]
    else [0xF0 + n / 262144, 0x80 + n / 4096 % 64, 0x80 + n / 64 % 64, 0x80 + n % 64]
  }

  function Utf8(s: string): seq<byte> {
    if s == [] then [] else Encoded(s[0]) + Utf8(s[1..])
  }

  lemma {:induction false} DecodeThree(x: nat, y: nat, z: nat, rest: seq<byte>)
    requires x < 16 && y < 64 && z < 64 && 0x800 <= x * 4096 + y * 64 + z
    requires var n := x * 4096 + y * 64 + z; n < 0xD800 || 0xDFFF < n
    ensures DecodeOne([0xE0 + x, 0x80 + y, 0x80 + z] + rest) == Head(3, Some((x * 4096 + y * 64 + z) as char))
  {
  }

  lemma {:induction false} DecodeFour(w: nat, x: nat, y: nat, z: nat, rest: seq<byte>)
    requires w < 8 && x < 64 && y < 64 && z < 64 && 0x1_0000 <= w * 262144 + x * 4096 + y * 64 + z < 0x11_0000
    ensures DecodeOne([0xF0 + w, 0x80 + x, 0x80 + y, 0x80 + z] + rest)
         == Head(4, Some((w * 262144 + x * 4096 + y * 64 + z) as char))
  {
  }

  lemma {:induction false} SixBitDigits(n: nat)
    ensures n == n / 4096 * 4096 + n / 64 % 64 * 64 + n % 64
    ensures n / 4096 == n / 262144 * 64 + n / 4096 % 64
  {
  }

  lemma {:induction false} DecodeTwo(c: char, rest: seq<byte>)
    requires 0x80 <= c as int < 0x800
    ensures DecodeOne(Encoded(c) + rest) == Head(2, Some(c))
  {
    var n := c as int;
    assert (Encoded(c) + rest)[..2] == [0xC0 + n / 64, 0x80 + n % 64];
  }

  lemma {:induction false} DecodeEncoded(c: char, rest: seq<byte>)
    ensures DecodeOne(Encoded(c) + rest) == Head(CharBytes(c), Some(c))
  {
    var n := c as int;
    if 0x80 <= n < 0x800 {
      DecodeTwo(c, rest);
    } else if 0x800 <= n < 0x1_0000 {
      SixBitDigits(n);
      DecodeThree(n / 4096, n / 64 % 64, n % 64, rest);
    } else if n >= 0x1_0000 {
      SixBitDigits(n);
      DecodeFour(n / 262144, n / 4096 % 64, n / 64 % 64, n % 64, rest);
    }
  }

  /** Text that is valid UTF-8 comes back unchanged. */
  lemma {:induction false} LossyKeepsText(s: string)
    ensures Lossy(Utf8(s)) == s
  {
    if s != [] {
      var rest := Utf8(s[1..]);
      DecodeEncoded(s[0], rest);
      assert (Encoded(s[0]) + rest)[CharBytes(s[0])..] == rest;
      LossyKeepsText(s[1..]);
    }
  }
}
