/** The stress client's wire format: a 4-byte header (size, then packet id, both 16-bit
    little-endian) and an 8-byte tick. */
module Framing {
  import opened Bytes

  const HEADER_SIZE: nat := 4
  const PING_SIZE: nat := 12
  const PING_HEADER: seq<Byte> := [12, 0, 0, 0]

  type Tick = t: seq<Byte> | |t| == 8 witness [0, 0, 0, 0, 0, 0, 0, 0]

  function LittleEndian(low: int, high: int): int {
    low + 256 * high
  }

  /** The header of a ping. */
  predicate GoodHeader(s: seq<Byte>)
    requires HEADER_SIZE <= |s|
  {
    s[0] == 12 && s[1] == 0 && s[2] == 0 && s[3] == 0
  }

  /** It is what the two asserts on a header check. */
  lemma GoodHeaderIff(s: seq<Byte>)
    requires HEADER_SIZE <= |s|
    ensures GoodHeader(s) <==> LittleEndian(s[0], s[1]) == PING_SIZE && LittleEndian(s[2], s[3]) == 0
  {
    SmallNumber(s[0], s[1], 12);
    SmallNumber(s[2], s[3], 0);
  }

  lemma GoodHeaderBytes(s: seq<Byte>)
    requires HEADER_SIZE <= |s|
    ensures GoodHeader(s) <==> s[..HEADER_SIZE] == PING_HEADER
  {
    var h := s[..HEADER_SIZE];
    assert h[0] == s[0] && h[1] == s[1] && h[2] == s[2] && h[3] == s[3];
  }

  lemma SmallNumber(low: Byte, high: Byte, n: Byte)
    ensures LittleEndian(low, high) == n <==> low == n && high == 0
  {
  }

  predicate IsFrame(f: seq<Byte>) {
    |f| == PING_SIZE && GoodHeader(f)
  }

  /** What can be left over: a proper beginning of a frame. */
  predicate IsRemnant(s: seq<Byte>) {
    |s| < PING_SIZE && (HEADER_SIZE <= |s| ==> GoodHeader(s))
  }

  datatype Parse = Parsed(frames: seq<seq<Byte>>, rest: seq<Byte>) | Malformed {
    function After(earlier: seq<seq<Byte>>): Parse {
      if Malformed? then Malformed else Parsed(earlier + frames, rest)
    }
  }

  /** The whole stream at once. */
  function ParseStream(s: seq<Byte>): Parse {
    if |s| < HEADER_SIZE then Parsed([], s)
    else if !GoodHeader(s) then Malformed
    else if |s| < PING_SIZE then Parsed([], s)
    else ParseStream(s[PING_SIZE..]).After([s[..PING_SIZE]])
  }

  /** The parser answers frames and a remnant exactly when the stream is made of them. */
  lemma {:induction false} ParsedIff(s: seq<Byte>, frames: seq<seq<Byte>>, rest: seq<Byte>)
    ensures ParseStream(s) == Parsed(frames, rest)
            <==> s == Concat(frames) + rest && IsRemnant(rest)
                 && forall k :: 0 <= k < |frames| ==> IsFrame(frames[k])
    decreases |s| + |frames|
  {
    if frames == [] {
      assert Concat(frames) + rest == rest;
      if |s| >= PING_SIZE && GoodHeader(s) {
        assert ParseStream(s).Malformed? || |ParseStream(s).frames| > 0;
      }
    } else {
      var f, fs := frames[0], frames[1..];
      assert frames == [f] + fs;
      assert Concat(frames) + rest == f + (Concat(fs) + rest);
      if |s| >= PING_SIZE && GoodHeader(s) {
        ParsedIff(s[PING_SIZE..], fs, rest);
        FirstFrame(s, f, fs, rest);
      } else {
        FrameInFront(f, Concat(fs) + rest);
      }
    }
  }

  lemma FrameInFront(f: seq<Byte>, tail: seq<Byte>)
    ensures IsFrame(f) ==> |f + tail| >= PING_SIZE && GoodHeader(f + tail)
  {
    if IsFrame(f) {
      var s := f + tail;
      assert s[0] == f[0] && s[1] == f[1] && s[2] == f[2] && s[3] == f[3];
    }
  }

  lemma FirstFrame(s: seq<Byte>, f: seq<Byte>, fs: seq<seq<Byte>>, rest: seq<Byte>)
    requires |s| >= PING_SIZE && GoodHeader(s)
    ensures ParseStream(s) == Parsed([f] + fs, rest)
            <==> s[..PING_SIZE] == f && ParseStream(s[PING_SIZE..]) == Parsed(fs, rest)
    ensures |f| == PING_SIZE ==>
              (s == f + (Concat(fs) + rest)
               <==> s[..PING_SIZE] == f && s[PING_SIZE..] == Concat(fs) + rest)
    ensures s[..PING_SIZE] == f ==> IsFrame(f)
  {
    var p := ParseStream(s[PING_SIZE..]);
    if p.Parsed? {
      var all := [s[..PING_SIZE]] + p.frames;
      assert all[0] == s[..PING_SIZE] && all[1..] == p.frames;
      assert ([f] + fs)[0] == f && ([f] + fs)[1..] == fs;
    }
    if |f| == PING_SIZE {
      var t := f + (Concat(fs) + rest);
      assert t[..PING_SIZE] == f && t[PING_SIZE..] == Concat(fs) + rest;
      assert s == s[..PING_SIZE] + s[PING_SIZE..];
    }
  }

  lemma AfterNothing(p: Parse)
    ensures p.After([]) == p
  {
    assert p.Parsed? ==> [] + p.frames == p.frames;
  }

  lemma AfterTwice(p: Parse, later: seq<seq<Byte>>, earlier: seq<seq<Byte>>)
    ensures p.After(later).After(earlier) == p.After(earlier + later)
  {
    assert p.Parsed? ==> earlier + (later + p.frames) == (earlier + later) + p.frames;
  }

  lemma TakenFromSum(a: seq<Byte>, b: seq<Byte>)
    requires PING_SIZE <= |a|
    ensures (a + b)[PING_SIZE..] == a[PING_SIZE..] + b && (a + b)[..PING_SIZE] == a[..PING_SIZE]
  {
  }

  /** Parsing what was left over together with what comes next is parsing all of it. */
  lemma {:induction false} ParseContinues(a: seq<Byte>, b: seq<Byte>)
    ensures ParseStream(a + b)
            == match ParseStream(a)
               case Malformed => Malformed
               case Parsed(frames, rest) => ParseStream(rest + b).After(frames)
    decreases |a|
  {
    if |a| < HEADER_SIZE || (GoodHeader(a) && |a| < PING_SIZE) {
      AfterNothing(ParseStream(a + b));
    } else if !GoodHeader(a) {
      assert !GoodHeader(a + b);
    } else {
      var tail := a[PING_SIZE..];
      TakenFromSum(a, b);
      assert GoodHeader(a + b);
      ParseContinues(tail, b);
      match ParseStream(tail)
      case Malformed =>
      case Parsed(fs, rest) => AfterTwice(ParseStream(rest + b), fs, [a[..PING_SIZE]]);
    }
  }

  /** The receiver's way: after every chunk, parse what is pending. */
  function ParseChunks(pending: seq<Byte>, chunks: seq<seq<Byte>>): Parse
    decreases |chunks|
  {
    if chunks == [] then ParseStream(pending)
    else match ParseStream(pending)
         case Malformed => Malformed
         case Parsed(frames, rest) => ParseChunks(rest + chunks[0], chunks[1..]).After(frames)
  }

  /** However the stream is cut into chunks, the frames and the remnant are the same. */
  lemma {:induction false} ChunksDoNotMatter(pending: seq<Byte>, chunks: seq<seq<Byte>>)
    ensures ParseChunks(pending, chunks) == ParseStream(pending + Concat(chunks))
    decreases |chunks|
  {
    if chunks == [] {
      assert pending + [] == pending;
    } else {
      ParseContinues(pending, Concat(chunks));
      match ParseStream(pending)
      case Malformed =>
      case Parsed(frames, rest) =>
        ChunksDoNotMatter(rest + chunks[0], chunks[1..]);
        assert rest + Concat(chunks) == rest + chunks[0] + Concat(chunks[1..]);
    }
  }
}
