/** The streaming relay of the capture proxy: each upstream chunk is framed with the chunked transfer
    coding of section 7.1 of RFC 9112, and a decoder of that coding (without chunk extensions and
    trailers, which the relay never sends) reads it back. */
module Relay {
  newtype byte = x: int | 0 <= x < 256

  type Bytes = seq<byte>

  const CR: byte := 13
  const LF: byte := 10
  const CRLF: Bytes := [CR, LF]
  const FINISH: Bytes := [48, CR, LF, CR, LF]

  // ---- the relay ------------------------------------------------------------------------------------

  function Digit(d: nat): byte
    requires d < 16
  {
    if d < 10 then (48 + d) as byte else (55 + d) as byte
  }

  /** The upper-case hexadecimal numeral of n. */
  function Hex(n: nat): Bytes {
    if n < 16 then [Digit(n)] else Hex(n / 16) + [Digit(n % 16)]
  }

  function Frame(chunk: Bytes): Bytes {
    Hex(|chunk|) + CRLF + chunk + CRLF
  }

  /** An empty chunk is not written: its frame would end the stream. */
  function Written(chunk: Bytes): Bytes {
    if chunk == [] then [] else Frame(chunk)
  }

  /** What is written for the chunks, before the end of the stream. */
  function Frames(chunks: seq<Bytes>): Bytes {
    if chunks == [] then [] else Written(chunks[0]) + Frames(chunks[1..])
  }

  function Flatten(chunks: seq<Bytes>): Bytes {
    if chunks == [] then [] else chunks[0] + Flatten(chunks[1..])
  }

  /** A chunk of five bytes ("hello"), the size line of one of 4,010, and the end, spelled out. */
  lemma FramesSpelled()
    ensures Frame([104, 101, 108, 108, 111]) == [53, 13, 10, 104, 101, 108, 108, 111, 13, 10]
    ensures Hex(4010) == [70, 65, 65] && FINISH == [48, 13, 10, 13, 10]
  {
    assert Hex(5) == [53] && Hex(15) == [70] && Hex(250) == [70, 65];
  }

  lemma Regroup(a: Bytes, b: Bytes, c: Bytes)
    ensures a + b + c == a + (b + c) && [] + c == c && c + [] == c
  {
  }

  lemma {:induction false} FramesSnoc(chunks: seq<Bytes>, c: Bytes)
    ensures Frames(chunks + [c]) == Frames(chunks) + Written(c)
  {
    Regroup([], [], Written(c));
    if chunks == [] {
      assert ([] + [c])[1..] == [];
    } else {
      FramesSnoc(chunks[1..], c);
      assert (chunks + [c])[1..] == chunks[1..] + [c];
      Regroup(Written(chunks[0]), Frames(chunks[1..]), Written(c));
    }
  }

  lemma {:induction false} FlattenSnoc(chunks: seq<Bytes>, c: Bytes)
    ensures Flatten(chunks + [c]) == Flatten(chunks) + c
  {
    Regroup([], [], c);
    if chunks == [] {
      assert ([] + [c])[1..] == [];
    } else {
      FlattenSnoc(chunks[1..], c);
      assert (chunks + [c])[1..] == chunks[1..] + [c];
      Regroup(chunks[0], Flatten(chunks[1..]), c);
    }
  }

  lemma OneMore(chunks: seq<Bytes>, i: nat)
    requires i < |chunks|
    ensures var c := chunks[i];
      && Frames(chunks[..i + 1]) == (if c == [] then Frames(chunks[..i]) else Frames(chunks[..i]) + Frame(c))
      && Flatten(chunks[..i + 1]) == (if c == [] then Flatten(chunks[..i]) else Flatten(chunks[..i]) + c)
  {
    assert chunks[..i + 1] == chunks[..i] + [chunks[i]];
    FramesSnoc(chunks[..i], chunks[i]);
    FlattenSnoc(chunks[..i], chunks[i]);
    Regroup([], [], Frames(chunks[..i]));
    Regroup([], [], Flatten(chunks[..i]));
  }

  /** The relay loop. When the upstream breaks off, `complete` is false and the end is not written. */
  method RelayStream(chunks: seq<Bytes>, complete: bool) returns (wire: Bytes, buf: Bytes)
    ensures wire == if complete then Frames(chunks) + FINISH else Frames(chunks)
    ensures buf == Flatten(chunks)
  {
    wire, buf := [], [];
    var i := 0;
    while i < |chunks|
      invariant i <= |chunks| && wire == Frames(chunks[..i]) && buf == Flatten(chunks[..i])
    {
      var chunk := chunks[i];
      OneMore(chunks, i);
      i := i + 1;
      if chunk == [] {
        continue;
      }
      wire := wire + Frame(chunk);
      buf := buf + chunk;
    }
    assert chunks[..i] == chunks;
    if complete {
      wire := wire + FINISH;
    }
  }

  // ---- a decoder --------------------------------------------------------------------------------------

  datatype Size = Size(n: nat, rest: Bytes) | More | Bad

  /** Done: the body, and what follows the final terminator. */
  datatype Decoded = Done(body: Bytes, rest: Bytes) | Incomplete | Malformed

  function HexValue(b: byte): int {
    if 48 <= b <= 57 then b as int - 48
    else if 65 <= b <= 70 then b as int - 55
    else if 97 <= b <= 102 then b as int - 87
    else -1
  }

  /** Reads a chunk size and its line end. */
  function ReadSize(s: Bytes, acc: nat, seen: bool): (r: Size)
    ensures r.Size? ==> |r.rest| < |s|
  {
    if s == [] then More
    else if HexValue(s[0]) >= 0 then ReadSize(s[1..], acc * 16 + HexValue(s[0]), true)
    else if s[0] == CR && seen then
      if |s| == 1 then More else if s[1] == LF then Size(acc, s[2..]) else Bad
    else Bad
  }

  /** The data of a chunk, or the end of the stream, must be followed by a line end. */
  function ReadEnd(s: Bytes): Size {
    if s == [] || s == [CR] then More
    else if |s| >= 2 && s[..2] == CRLF then Size(0, s[2..])
    else Bad
  }

  function Prepend(data: Bytes, d: Decoded): Decoded {
    match d
    case Done(body, rest) => Done(data + body, rest)
    case other => other
  }

  function Decode(s: Bytes): Decoded
    decreases |s|
  {
    match ReadSize(s, 0, false)
    case More => Incomplete
    case Bad => Malformed
    case Size(n, rest) =>
      if |rest| < n then Incomplete
      else
        match ReadEnd(rest[n..])
        case More => Incomplete
        case Bad => Malformed
        case Size(_, tail) => if n == 0 then Done([], tail) else Prepend(rest[..n], Decode(tail))
  }

  // ---- sizes --------------------------------------------------------------------------------------------

  function Value(digits: Bytes, acc: nat): nat
    requires forall d :: d in digits ==> HexValue(d) >= 0
  {
    if digits == [] then acc
    else
      var n := |digits| - 1;
      assert forall d :: d in digits[..n] ==> d in digits;
      Value(digits[..n], acc) * 16 + HexValue(digits[n])
  }

  lemma DigitValue(d: nat)
    requires d < 16
    ensures HexValue(Digit(d)) == d
  {
  }

  lemma {:induction false} HexIsNumeral(n: nat)
    ensures Hex(n) != [] && (forall d :: d in Hex(n) ==> HexValue(d) >= 0) && Value(Hex(n), 0) == n
  {
    DigitValue(n % 16);
    if n < 16 {
      assert [Digit(n)][..0] == [];
    } else {
      HexIsNumeral(n / 16);
      assert (Hex(n / 16) + [Digit(n % 16)])[..|Hex(n / 16)|] == Hex(n / 16);
    }
  }

  /** Digits are read one by one, first to last. */
  lemma {:induction false} ReadDigits(digits: Bytes, t: Bytes, acc: nat, seen: bool)
    requires forall d :: d in digits ==> HexValue(d) >= 0
    ensures ReadSize(digits + t, acc, seen) == ReadSize(t, Value(digits, acc), seen || digits != [])
  {
    if digits == [] {
      assert digits + t == t;
    } else {
      var n := |digits| - 1;
      ReadDigits(digits[..n], [digits[n]] + t, acc, seen);
      assert digits + t == digits[..n] + ([digits[n]] + t);
      assert ([digits[n]] + t)[1..] == t;
    }
  }

  lemma ReadNumeral(n: nat, t: Bytes)
    ensures ReadSize(Hex(n) + CRLF + t, 0, false) == Size(n, t)
  {
    HexIsNumeral(n);
    assert Hex(n) + CRLF + t == Hex(n) + (CRLF + t);
    ReadDigits(Hex(n), CRLF + t, 0, false);
    assert (CRLF + t)[2..] == t;
  }

  // ---- round trip ---------------------------------------------------------------------------------------

  lemma DecodeFrame(chunk: Bytes, t: Bytes)
    requires chunk != []
    ensures Decode(Frame(chunk) + t) == Prepend(chunk, Decode(t))
  {
    var rest := chunk + CRLF + t;
    assert Frame(chunk) + t == Hex(|chunk|) + CRLF + rest;
    ReadNumeral(|chunk|, rest);
    assert rest[|chunk|..] == CRLF + t && (CRLF + t)[..2] == CRLF && (CRLF + t)[2..] == t;
    assert rest[..|chunk|] == chunk;
  }

  lemma DecodeFinish(t: Bytes)
    ensures Decode(FINISH + t) == Done([], t)
  {
    assert FINISH + t == [48] + (CRLF + (CRLF + t));
    assert ([48] + (CRLF + (CRLF + t)))[1..] == CRLF + (CRLF + t);
    assert (CRLF + (CRLF + t))[2..] == CRLF + t && (CRLF + t)[2..] == t && (CRLF + t)[..2] == CRLF;
    var v: nat := 0;
    assert ReadSize(FINISH + t, 0, false) == ReadSize(CRLF + (CRLF + t), 0, true) == Size(0, CRLF + t);
  }

  lemma PrependTwice(a: Bytes, b: Bytes, d: Decoded)
    ensures Prepend(a, Prepend(b, d)) == Prepend(a + b, d) && Prepend([], d) == d
  {
    if d.Done? {
      assert a + (b + d.body) == a + b + d.body && [] + d.body == d.body;
    }
  }

  /** Decoding what was framed for the chunks goes on with what follows them. */
  lemma {:induction false} DecodeFrames(chunks: seq<Bytes>, t: Bytes)
    ensures Decode(Frames(chunks) + t) == Prepend(Flatten(chunks), Decode(t))
  {
    if chunks == [] {
      assert Frames(chunks) + t == t;
      PrependTwice([], [], Decode(t));
    } else {
      var tail := Frames(chunks[1..]) + t;
      DecodeFrames(chunks[1..], t);
      Regroup(Written(chunks[0]), Frames(chunks[1..]), t);
      Regroup([], [], tail);
      PrependTwice(chunks[0], Flatten(chunks[1..]), Decode(t));
      if chunks[0] != [] {
        DecodeFrame(chunks[0], tail);
      }
    }
  }

  /** Any list of upstream chunks comes out as exactly the captured bytes, and the body ends exactly at
      the relay's terminator, whatever is sent after it. */
  lemma RoundTrip(chunks: seq<Bytes>, after: Bytes)
    ensures Decode(Frames(chunks) + FINISH + after) == Done(Flatten(chunks), after)
  {
    assert Frames(chunks) + FINISH + after == Frames(chunks) + (FINISH + after);
    DecodeFrames(chunks, FINISH + after);
    DecodeFinish(after);
    assert Flatten(chunks) + [] == Flatten(chunks);
  }

  // ---- streams that break off -----------------------------------------------------------------------------

  /** A response that is written into the stream after a failure ("HTTP/...") is not taken for its end. */
  lemma ErrorIsNotAnEnd(chunks: seq<Bytes>, error: Bytes)
    requires error != [] && error[0] == 72
    ensures Decode(Frames(chunks) + error) == Malformed
  {
    DecodeFrames(chunks, error);
  }

  lemma CutFinish(k: nat)
    requires k < |FINISH|
    ensures Decode(FINISH[..k]) == Incomplete
  {
    if k > 0 {
      assert FINISH[..k] == [48] + FINISH[1..k] && FINISH[..k][1..] == FINISH[1..k];
      assert ReadSize(FINISH[..k], 0, false) == ReadSize(FINISH[1..k], 0, true);
      if k >= 3 {
        assert FINISH[1..k][2..] == FINISH[3..k];
        assert k == 4 ==> FINISH[3..k] == [CR];
      }
    }
  }

  lemma CutSize(n: nat, k: nat)
    requires k < |Hex(n)| + 2
    ensures Decode((Hex(n) + CRLF)[..k]) == Incomplete
  {
    var h := Hex(n);
    HexIsNumeral(n);
    if k <= |h| {
      assert (h + CRLF)[..k] == h[..k] + [];
      assert forall d :: d in h[..k] ==> d in h;
      ReadDigits(h[..k], [], 0, false);
    } else {
      assert (h + CRLF)[..k] == h + [CR];
      ReadDigits(h, [CR], 0, false);
    }
  }

  lemma CutData(chunk: Bytes, m: nat)
    requires m < |chunk| + 2
    ensures Decode(Hex(|chunk|) + CRLF + (chunk + CRLF)[..m]) == Incomplete
  {
    var rest := (chunk + CRLF)[..m];
    ReadNumeral(|chunk|, rest);
    if m >= |chunk| {
      assert rest[|chunk|..] == if m == |chunk| then [] else [CR];
    }
  }

  lemma CutFrame(chunk: Bytes, k: nat)
    requires chunk != [] && k < |Frame(chunk)|
    ensures Decode(Frame(chunk)[..k]) == Incomplete
  {
    var h := Hex(|chunk|) + CRLF;
    assert Frame(chunk) == h + (chunk + CRLF);
    if k < |h| {
      assert Frame(chunk)[..k] == h[..k];
      CutSize(|chunk|, k);
    } else {
      assert Frame(chunk)[..k] == h + (chunk + CRLF)[..k - |h|];
      CutData(chunk, k - |h|);
    }
  }

  /** A stream that is cut short anywhere is never taken for a complete one. */
  lemma {:induction false} CutIsIncomplete(chunks: seq<Bytes>, k: nat)
    requires k < |Frames(chunks) + FINISH|
    ensures Decode((Frames(chunks) + FINISH)[..k]) == Incomplete
  {
    var wire := Frames(chunks) + FINISH;
    if chunks == [] {
      assert wire == FINISH;
      CutFinish(k);
    } else {
      var tail := Frames(chunks[1..]) + FINISH;
      if chunks[0] == [] {
        assert wire == tail;
        CutIsIncomplete(chunks[1..], k);
      } else {
        var f := Frame(chunks[0]);
        assert wire == f + tail;
        if k < |f| {
          assert wire[..k] == f[..k];
          CutFrame(chunks[0], k);
        } else {
          assert wire[..k] == f + tail[..k - |f|];
          CutIsIncomplete(chunks[1..], k - |f|);
          DecodeFrame(chunks[0], tail[..k - |f|]);
        }
      }
    }
  }
}
