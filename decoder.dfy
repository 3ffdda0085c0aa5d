/**
  The in-memory "file" that the WavPack library reads through callbacks while
  decoding (`WavpackReaderContext` and its `raw_*` functions), and the frame
  loop of `WavpackDecodeFile`.

  Pointers are offsets from `sptr`: the buffer is `source`, `eptr` is
  `|source|` and `dptr` is the offset of the next unread byte.
 */
module Decoder {
  import opened Wrappers

  /** The mutable part of a reader context. */
  datatype ReaderState = ReaderState(dptr: nat, ungetcFlag: bool, ungetcChar: bv8, totalBytesRead: int)

  /**
    One `raw_read_bytes(bcount)` on `src` in state `s`: the bytes handed back
    and the state left behind. A pending pushed-back byte comes first; then
    as many buffered bytes as are left and still wanted.
   */
  function ReadBytes(src: seq<bv8>, s: ReaderState, bcount: nat): (r: (seq<bv8>, ReaderState))
    requires s.dptr <= |src|
    ensures s.dptr <= r.1.dptr <= |src|
  {
    var pushed := if s.ungetcFlag && bcount > 0 then [s.ungetcChar] else [];
    var n := Min(bcount - |pushed|, |src| - s.dptr);
    (pushed + src[s.dptr..s.dptr + n],
     ReaderState(s.dptr + n, s.ungetcFlag && bcount == 0, s.ungetcChar, s.totalBytesRead + n))
  }

  /**
    What `raw_read_bytes` promises its caller: no more than `bcount` bytes,
    and fewer only when the buffer is exhausted; the pushed-back byte first,
    then the next unread bytes of the buffer in order, with
    `total_bytes_read` advanced by as many buffered bytes as were taken.
   */
  lemma ReadBytesFacts(src: seq<bv8>, s: ReaderState, bcount: nat)
    requires s.dptr <= |src|
    ensures var r := ReadBytes(src, s, bcount);
      && |r.0| <= bcount
      && |r.0| == Min(bcount, (if s.ungetcFlag then 1 else 0) + |src| - s.dptr)
      && (s.ungetcFlag && bcount > 0 ==> r.0[0] == s.ungetcChar && !r.1.ungetcFlag)
      && (bcount == 0 ==> r == ([], s))
      && r.1.totalBytesRead == s.totalBytesRead + (r.1.dptr - s.dptr)
      && r.1.ungetcChar == s.ungetcChar
      && var pushed := if s.ungetcFlag && bcount > 0 then 1 else 0;
         r.0[pushed..] == src[s.dptr..r.1.dptr]
  {
    var r := ReadBytes(src, s, bcount);
    var pushed := if s.ungetcFlag && bcount > 0 then 1 else 0;
    assert r.0[pushed..] == src[s.dptr..r.1.dptr];
  }

  /** `raw_push_back_byte(c)`: the byte `(unsigned char) c` waits in the one-byte slot. */
  function PushBack(s: ReaderState, c: int): ReaderState
  {
    s.(ungetcChar := (c % 256) as bv8, ungetcFlag := true)
  }

  /**
    Reading in two pieces hands back the same bytes and leaves the same
    state as reading everything at once.
   */
  lemma ReadSplit(src: seq<bv8>, s: ReaderState, a: nat, b: nat)
    requires s.dptr <= |src|
    ensures var first := ReadBytes(src, s, a);
      var second := ReadBytes(src, first.1, b);
      ReadBytes(src, s, a + b) == (first.0 + second.0, second.1)
  {
    if a == 0 {
      ReadNothing(src, s);
      assert [] + ReadBytes(src, s, b).0 == ReadBytes(src, s, b).0;
    } else if b == 0 {
      var r := ReadBytes(src, s, a);
      ReadNothing(src, r.1);
      assert r.0 + [] == r.0;
    } else if s.ungetcFlag {
      ReadSplitPushed(src, s, a, b);
    } else {
      ReadSplitPlain(src, s, a, b);
    }
  }

  lemma ReadNothing(src: seq<bv8>, s: ReaderState)
    requires s.dptr <= |src|
    ensures ReadBytes(src, s, 0) == ([], s)
  {
    assert [] + src[s.dptr..s.dptr + 0] == [];
  }

  /** `ReadSplit` with a pushed-back byte: it leads both the first piece and the whole. */
  lemma ReadSplitPushed(src: seq<bv8>, s: ReaderState, a: nat, b: nat)
    requires s.dptr <= |src| && s.ungetcFlag && 0 < a && 0 < b
    ensures var first := ReadBytes(src, s, a);
      var second := ReadBytes(src, first.1, b);
      ReadBytes(src, s, a + b) == (first.0 + second.0, second.1)
  {
    var c := s.ungetcChar;
    var s' := s.(ungetcFlag := false);
    var r1 := ReadBytes(src, s', a - 1);
    var r2 := ReadBytes(src, r1.1, b);
    var r := ReadBytes(src, s', a - 1 + b);
    assert ReadBytes(src, s, a) == ([c] + r1.0, r1.1) by {
      ReadPushedStep(src, s, a);
    }
    assert ReadBytes(src, s, a + b) == ([c] + r.0, r.1) by {
      ReadPushedStep(src, s, a + b);
      assert a + b - 1 == a - 1 + b;
    }
    assert r == (r1.0 + r2.0, r2.1) by {
      ReadSplitPlain(src, s', a - 1, b);
    }
    assert ([c] + r1.0) + r2.0 == [c] + (r1.0 + r2.0);
  }

  /** `ReadSplit` with no pushed-back byte: two slices of the buffer that meet. */
  lemma ReadSplitPlain(src: seq<bv8>, s: ReaderState, a: nat, b: nat)
    requires s.dptr <= |src| && !s.ungetcFlag
    ensures var first := ReadBytes(src, s, a);
      var second := ReadBytes(src, first.1, b);
      ReadBytes(src, s, a + b) == (first.0 + second.0, second.1)
  {
    var d := s.dptr;
    var n1 := Min(a, |src| - d);
    var n2 := Min(b, |src| - (d + n1));
    assert n1 + n2 == Min(a + b, |src| - d);
    var s1 := s.(dptr := d + n1, totalBytesRead := s.totalBytesRead + n1);
    var s2 := s1.(dptr := d + n1 + n2, totalBytesRead := s1.totalBytesRead + n2);
    var x, y, z := src[d..d + n1], src[d + n1..d + n1 + n2], src[d..d + n1 + n2];
    ReadPlain(src, s, a, n1);
    assert ReadBytes(src, s, a) == (x, s1);
    ReadPlain(src, s1, b, n2);
    assert ReadBytes(src, s1, b) == (y, s2);
    ReadPlain(src, s, a + b, n1 + n2);
    assert ReadBytes(src, s, a + b) == (z, s2);
    SliceSplit(src, d, d + n1, d + n1 + n2);
  }

  /** A read with nothing pushed back takes the next bytes of the buffer. */
  lemma ReadPlain(src: seq<bv8>, s: ReaderState, k: nat, n: nat)
    requires s.dptr <= |src| && !s.ungetcFlag && n == Min(k, |src| - s.dptr)
    ensures ReadBytes(src, s, k) == (src[s.dptr..s.dptr + n], s.(dptr := s.dptr + n, totalBytesRead := s.totalBytesRead + n))
  {
    assert [] + src[s.dptr..s.dptr + n] == src[s.dptr..s.dptr + n];
  }

  /** A read with a pending pushed-back byte: that byte, then a read of one byte fewer. */
  lemma ReadPushedStep(src: seq<bv8>, s: ReaderState, bcount: nat)
    requires s.dptr <= |src| && s.ungetcFlag && 0 < bcount
    ensures var next := ReadBytes(src, s.(ungetcFlag := false), bcount - 1);
      ReadBytes(src, s, bcount) == ([s.ungetcChar] + next.0, next.1)
  {
    var n := Min(bcount - 1, |src| - s.dptr);
    var s' := ReaderState(s.dptr + n, false, s.ungetcChar, s.totalBytesRead + n);
    assert ReadBytes(src, s, bcount) == ([s.ungetcChar] + src[s.dptr..s.dptr + n], s');
    assert ReadBytes(src, s.(ungetcFlag := false), bcount - 1) == ([] + src[s.dptr..s.dptr + n], s');
    assert [] + src[s.dptr..s.dptr + n] == src[s.dptr..s.dptr + n];
  }

  /** A read with nothing pushed back: `k` buffered bytes, then a read of `k` bytes fewer. */
  lemma ReadCopyStep(src: seq<bv8>, s: ReaderState, bcount: nat, k: nat)
    requires s.dptr <= |src| && !s.ungetcFlag
    requires k == Min(bcount, |src| - s.dptr)
    ensures var s' := s.(dptr := s.dptr + k, totalBytesRead := s.totalBytesRead + k);
      var next := ReadBytes(src, s', bcount - k);
      ReadBytes(src, s, bcount) == (src[s.dptr..s.dptr + k] + next.0, next.1)
  {
    var s' := s.(dptr := s.dptr + k, totalBytesRead := s.totalBytesRead + k);
    var next := ReadBytes(src, s', bcount - k);
    assert [] + src[s.dptr..s.dptr + k] == src[s.dptr..s.dptr + k];
    assert ReadBytes(src, s, bcount) == (src[s.dptr..s.dptr + k], s');
    assert [] + src[s'.dptr..s'.dptr + 0] == [];
    assert next == ([], s');
    assert src[s.dptr..s.dptr + k] + next.0 == src[s.dptr..s.dptr + k];
  }

  /** A pushed-back byte is the first byte of the next read, and it does not move `dptr`. */
  lemma PushBackThenRead(src: seq<bv8>, s: ReaderState, c: int, bcount: nat)
    requires s.dptr <= |src| && 0 < bcount
    ensures var (out, s1) := ReadBytes(src, PushBack(s, c), bcount);
      var (rest, s2) := ReadBytes(src, s.(ungetcFlag := false), bcount - 1);
      && out == [(c % 256) as bv8] + rest
      && s1 == s2.(ungetcChar := (c % 256) as bv8)
  {
  }

  /** The slot holds one byte: a second push-back before a read replaces the first. */
  lemma PushBackOverwrites(s: ReaderState, c: int, d: int)
    ensures PushBack(PushBack(s, c), d) == PushBack(s, d)
  {
  }

  /** The callbacks the library may call that do nothing here. */
  function RawWriteBytes(data: seq<bv8>, bcount: int): int { 0 }
  function RawSetPosAbs(pos: int): int { 1 }
  function RawSetPosRel(delta: int, mode: int): int { 1 }
  function RawGetLength(): int { 0 }
  function RawCanSeek(): int { 0 }
  function RawCloseStream(): int { 0 }

  /** Writing, length, seek capability and close report 0; both seeks report 1 (failure). */
  lemma StubCallbacks(data: seq<bv8>, bcount: int, pos: int, delta: int, mode: int)
    ensures RawWriteBytes(data, bcount) == 0
    ensures RawSetPosAbs(pos) == 1 && RawSetPosRel(delta, mode) == 1
    ensures RawGetLength() == 0 && RawCanSeek() == 0 && RawCloseStream() == 0
  {
  }

  /** Storing `c` just after a written prefix extends that prefix by `c`. */
  lemma StoreAfterPrefix(buf: seq<bv8>, out: seq<bv8>, orig: seq<bv8>, c: bv8)
    requires |out| < |orig| && buf == out + orig[|out|..]
    ensures buf[|out| := c] == (out + [c]) + orig[|out| + 1..]
  {
    var i := |out|;
    var lhs := buf[i := c];
    var rhs := (out + [c]) + orig[i + 1..];
    assert |lhs| == |rhs|;
    forall k | 0 <= k < |lhs|
      ensures lhs[k] == rhs[k]
    {
      if k < i {
        assert lhs[k] == buf[k] == out[k];
      } else if k > i {
        assert lhs[k] == buf[k] == orig[k];
      }
    }
  }

  /** Copying `chunk` just after a written prefix extends that prefix by `chunk`. */
  lemma CopyAfterPrefix(buf: seq<bv8>, out: seq<bv8>, orig: seq<bv8>, chunk: seq<bv8>)
    requires |out| + |chunk| <= |orig| && buf == out + orig[|out|..]
    ensures buf[..|out|] + chunk + buf[|out| + |chunk|..] == (out + chunk) + orig[|out| + |chunk|..]
  {
    assert buf[..|out|] == out;
    assert buf[|out| + |chunk|..] == orig[|out| + |chunk|..];
  }

  /** The two halves of a buffer whose prefix `out` has been written. */
  lemma PrefixAndRest(buf: seq<bv8>, out: seq<bv8>, orig: seq<bv8>)
    requires |out| <= |orig| && buf == out + orig[|out|..]
    ensures buf[..|out|] == out && buf[|out|..] == orig[|out|..]
  {
  }

  lemma AppendThenRest(out: seq<bv8>, piece: seq<bv8>, rest: seq<bv8>)
    ensures (out + piece) + rest == out + (piece + rest)
  {
  }

  class ReaderContext {
    /** The bytes between `sptr` and `eptr`. */
    const source: seq<bv8>
    var dptr: nat
    var ungetcFlag: bool
    var ungetcChar: bv8
    var totalBytesRead: int

    ghost predicate Valid()
      reads this
    {
      dptr <= |source| && totalBytesRead == dptr
    }

    function State(): ReaderState
      reads this
    {
      ReaderState(dptr, ungetcFlag, ungetcChar, totalBytesRead)
    }

    /** `memset` to zero, then `dptr = sptr = source` and `eptr = source + source_bytes`. */
    constructor (source: seq<bv8>)
      ensures Valid() && this.source == source
      ensures State() == ReaderState(0, false, 0, 0)
    {
      this.source := source;
      dptr := 0;
      ungetcFlag := false;
      ungetcChar := 0;
      totalBytesRead := 0;
    }

    /**
      The loop state of `raw_read_bytes`: `data` holds the bytes handed out
      so far (`out`) followed by its original contents, and reading the
      `remaining` bytes from here completes the whole read `want`.
     */
    ghost predicate Progress(data: array<bv8>, orig: seq<bv8>, out: seq<bv8>, remaining: nat,
                             want: (seq<bv8>, ReaderState))
      reads this, data
    {
      && Valid()
      && |out| + remaining <= |orig| == data.Length
      && data[..] == out + orig[|out|..]
      && var rest := ReadBytes(source, State(), remaining);
         out + rest.0 == want.0 && rest.1 == want.1
    }

    /** The first branch of the `raw_read_bytes` loop: hand out the pushed-back byte. */
    method StorePushed(data: array<bv8>, at: nat, remaining: nat, ghost orig: seq<bv8>, ghost out: seq<bv8>,
                       ghost want: (seq<bv8>, ReaderState)) returns (at': nat, remaining': nat, ghost out': seq<bv8>)
      requires ungetcFlag && 0 < remaining && at == |out|
      requires Progress(data, orig, out, remaining, want)
      modifies this, data
      ensures out' == out + [old(ungetcChar)] && !ungetcFlag
      ensures at' == at + 1 == |out'| && remaining' == remaining - 1
      ensures Progress(data, orig, out', remaining', want)
    {
      ghost var st := State();
      ghost var before := data[..];
      ghost var next := ReadBytes(source, st.(ungetcFlag := false), remaining - 1);
      ReadPushedStep(source, st, remaining);
      StoreAfterPrefix(before, out, orig, ungetcChar);
      AppendThenRest(out, [ungetcChar], next.0);
      data[at] := ungetcChar;
      ungetcFlag := false;
      out' := out + [ungetcChar];
      at', remaining' := at + 1, remaining - 1;
      assert data[..] == before[at := ungetcChar];
      assert State() == st.(ungetcFlag := false);
    }

    /** The second branch of the `raw_read_bytes` loop: copy `k` buffered bytes out. */
    method CopyBuffered(data: array<bv8>, at: nat, k: nat, remaining: nat, ghost orig: seq<bv8>,
                        ghost out: seq<bv8>, ghost want: (seq<bv8>, ReaderState))
        returns (at': nat, remaining': nat, ghost out': seq<bv8>)
      requires !ungetcFlag && at == |out| && k == Min(remaining, |source| - dptr)
      requires Progress(data, orig, out, remaining, want)
      modifies this, data
      ensures out' == out + source[old(dptr)..old(dptr) + k] && !ungetcFlag
      ensures at' == at + k == |out'| && remaining' == remaining - k
      ensures Progress(data, orig, out', remaining', want)
    {
      ghost var st := State();
      ghost var before := data[..];
      ghost var chunk := source[dptr..dptr + k];
      ghost var s' := st.(dptr := dptr + k, totalBytesRead := totalBytesRead + k);
      ghost var next := ReadBytes(source, s', remaining - k);
      ReadCopyStep(source, st, remaining, k);
      CopyAfterPrefix(before, out, orig, chunk);
      AppendThenRest(out, chunk, next.0);
      MemCopy(data, at, source[dptr..dptr + k]);
      totalBytesRead := totalBytesRead + k;
      dptr := dptr + k;
      out' := out + chunk;
      at', remaining' := at + k, remaining - k;
      assert data[..] == before[..at] + chunk + before[at + k..];
      assert State() == s';
    }

    /**
      `raw_read_bytes`: fill `data[..n]` with the next `n <= bcount` bytes
      of the stream (the pushed-back byte first) and return `n`.
     */
    method RawReadBytes(data: array<bv8>, bcount: int) returns (n: int)
      requires Valid() && 0 <= bcount <= data.Length
      modifies this, data
      ensures Valid()
      ensures n == |ReadBytes(source, old(State()), bcount).0|
      ensures data[..n] == ReadBytes(source, old(State()), bcount).0
      ensures data[n..] == old(data[n..])
      ensures State() == ReadBytes(source, old(State()), bcount).1
    {
      ghost var want := ReadBytes(source, State(), bcount);
      ghost var orig := data[..];
      ghost var out: seq<bv8> := [];
      var remaining: nat := bcount;
      var outptr: nat := 0;
      while remaining != 0
        invariant outptr == |out|
        invariant Progress(data, orig, out, remaining, want)
        decreases remaining
      {
        if ungetcFlag {
          outptr, remaining, out := StorePushed(data, outptr, remaining, orig, out, want);
        } else {
          var bytesToCopy := |source| - dptr;
          if bytesToCopy == 0 {
            break;
          }
          if bytesToCopy > remaining {
            bytesToCopy := remaining;
          }
          outptr, remaining, out := CopyBuffered(data, outptr, bytesToCopy, remaining, orig, out, want);
        }
      }
      Finished(data, orig, out, remaining, want);
      assert old(data[outptr..]) == orig[outptr..];
      n := outptr;
    }

    /** Once nothing more is wanted, or the buffer is drained with no pushed-back byte, the read is complete. */
    lemma Finished(data: array<bv8>, orig: seq<bv8>, out: seq<bv8>, remaining: nat, want: (seq<bv8>, ReaderState))
      requires Progress(data, orig, out, remaining, want)
      requires remaining == 0 || (!ungetcFlag && dptr == |source|)
      ensures want == (out, State())
      ensures data[..|out|] == out && data[|out|..] == orig[|out|..]
    {
      assert ReadBytes(source, State(), remaining) == ([] + source[dptr..dptr], State());
      assert want.0 == out + [] == out;
      PrefixAndRest(data[..], out, orig);
      assert data[..|out|] == data[..][..|out|] && data[|out|..] == data[..][|out|..];
    }

    /** `raw_get_pos`: bytes consumed from the buffer; a pending pushed-back byte is not subtracted. */
    function RawGetPos(): (pos: int)
      reads this
      requires Valid()
      ensures pos == totalBytesRead && 0 <= pos <= |source|
    {
      dptr
    }

    /** `raw_push_back_byte`. */
    method RawPushBackByte(c: int) returns (r: int)
      requires Valid()
      modifies this
      ensures Valid()
      ensures State() == PushBack(old(State()), c)
      ensures r == c
    {
      ungetcChar := (c % 256) as bv8;
      ungetcFlag := true;
      r := c;
    }
  }

  /** Frames asked of the library per call (`BUFFER_SAMPLES`). */
  const BufferSamples: nat := 256

  /** What one `WavpackUnpackSamples` call hands back: a frame count and the interleaved samples. */
  datatype Chunk = Chunk(frames: nat, values: seq<int>)

  /**
    What the WavPack library makes of the bytes it reads through the
    callbacks above: whether `WavpackOpenFileInputEx64` succeeds, the
    channel count and bytes per sample it reports, and what
    `WavpackUnpackSamples` returns when asked for `req` frames after
    `done` frames have already been unpacked.
   */
  datatype Unpacker = Unpacker(opens: bool, numChannels: int, bytesPerSample: int,
                               unpack: (nat, nat) -> Chunk)

  /**
    What the decoder relies on from the library: an opened file has at
    least one channel, and an unpack call returns at most the frames asked
    for, each with one sample per channel.
   */
  ghost predicate LibraryContract(lib: Unpacker)
  {
    && (lib.opens ==> lib.numChannels >= 1)
    && forall done: nat, req: nat ::
         lib.unpack(done, req).frames <= req
         && |lib.unpack(done, req).values| == lib.unpack(done, req).frames * lib.numChannels
  }

  /** `samples_to_decode`: a full buffer, or what is left of `max_samples` when that is less. */
  function Request(total: nat, max: nat): (req: nat)
    requires total <= max
    ensures req <= BufferSamples && total + req <= max
    ensures req == BufferSamples || total + req == max
  {
    if total + BufferSamples > max then max - total else BufferSamples
  }

  /**
    The decode loop from `total` frames on: the frame count it ends with
    and the samples it copies out, in order. It stops when a call unpacks
    nothing or when `max` frames have been decoded.
   */
  function DecodeLoop(lib: Unpacker, max: nat, total: nat): (r: (nat, seq<int>))
    requires LibraryContract(lib) && lib.opens && total <= max
    ensures total <= r.0 <= max
    ensures |r.1| == (r.0 - total) * lib.numChannels
    decreases max - total
  {
    var c := lib.unpack(total, Request(total, max));
    if c.frames == 0 then (total, [])
    else if total + c.frames == max then (max, c.values)
    else
      var rest := DecodeLoop(lib, max, total + c.frames);
      FramesAdd(c.frames, rest.0 - (total + c.frames), lib.numChannels);
      (rest.0, c.values + rest.1)
  }

  /** Samples of two runs of frames add up like the frames do. */
  lemma FramesAdd(a: nat, b: nat, nch: nat)
    ensures a * nch + b * nch == (a + b) * nch
  {
  }

  /** A library over a stream of `frames` frames: each call returns as many as asked for, while they last. */
  ghost predicate StreamOf(lib: Unpacker, frames: nat)
  {
    forall done: nat, req: nat :: done <= frames ==> lib.unpack(done, req).frames == Min(req, frames - done)
  }

  /**
    Over a stream of `frames` frames the loop decodes all of them, or as
    many as fit in `max`, whichever is less.
   */
  lemma {:induction false} DecodesAvailable(lib: Unpacker, max: nat, total: nat, frames: nat)
    requires LibraryContract(lib) && lib.opens && StreamOf(lib, frames)
    requires total <= max && total <= frames
    ensures DecodeLoop(lib, max, total).0 == Min(max, frames)
    decreases max - total
  {
    var req := Request(total, max);
    var c := lib.unpack(total, req);
    assert c.frames == Min(req, frames - total);
    if c.frames == 0 {
    } else if total + c.frames == max {
    } else {
      DecodesAvailable(lib, max, total + c.frames, frames);
    }
  }

  /** The conversion of a 32-bit sample to `int16_t` on assignment: the low 16 bits, two's complement. */
  function Narrow16(x: int): (y: int)
    ensures -32768 <= y < 32768
    ensures -32768 <= x < 32768 ==> y == x
  {
    (x + 32768) % 65536 - 32768
  }

  /** Every sample of a sequence narrowed to 16 bits. */
  function NarrowAll(xs: seq<int>): (ys: seq<int>)
    ensures |ys| == |xs|
    ensures forall i :: 0 <= i < |xs| ==> ys[i] == Narrow16(xs[i])
  {
    if xs == [] then [] else [Narrow16(xs[0])] + NarrowAll(xs[1..])
  }

  /** A chunk that keeps the frame count within `max` fits in a buffer of `max * nch` samples. */
  lemma ChunkFits(total: nat, frames: nat, max: nat, nch: nat, out: nat, len: nat, cap: nat)
    requires total + frames <= max && max * nch <= cap
    requires out == total * nch && len == frames * nch
    ensures out + len <= cap && out + len == (total + frames) * nch
  {
    assert out + len == (total + frames) * nch;
    assert (total + frames) * nch <= max * nch;
  }

  /**
    `WavpackDecodeFile`: open `source` through the reader callbacks, refuse
    anything but 2 bytes per sample, then decode frames into `destin`
    (a buffer of `destinBytes` bytes of `int16_t`) until the library runs
    dry or the buffer is full. Returns the frames decoded and, on success,
    the channel count written through `num_chans`; -1 stands for the
    `(size_t) -1` of the error paths.
   */
  method DecodeFile(source: seq<bv8>, lib: Unpacker, destin: array<int>, destinBytes: nat)
    returns (r: int, numChans: Option<int>)
    requires LibraryContract(lib) && destinBytes / 2 <= destin.Length
    modifies destin
    ensures !lib.opens || lib.bytesPerSample != 2 ==>
      r == -1 && numChans == None && destin[..] == old(destin[..])
    ensures lib.opens && lib.bytesPerSample == 2 ==>
      var max := destinBytes / 2 / lib.numChannels;
      var (frames, values) := DecodeLoop(lib, max, 0);
      && numChans == Some(lib.numChannels)
      && r == frames <= max
      && |values| <= destin.Length
      && destin[..|values|] == NarrowAll(values)
      && destin[|values|..] == old(destin[|values|..])
  {
    var raw := new ReaderContext(source);
    if !lib.opens {
      return -1, None;
    }
    var nch := lib.numChannels;
    var bps := lib.bytesPerSample;
    if bps != 2 {
      return -1, None;
    }
    numChans := Some(nch);
    var maxSamples := destinBytes / 2 / nch;
    assert maxSamples * nch <= destin.Length;
    r := DecodeFrames(lib, maxSamples, destin);
  }

  /**
    The state of the frame loop after `total` frames: `copied` holds the
    samples copied out so far, `destin` starts with them narrowed to 16
    bits and keeps its original contents `orig` after them, and decoding
    on from `total` completes the whole loop.
   */
  ghost predicate Decoded(lib: Unpacker, max: nat, destin: array<int>, orig: seq<int>, total: nat, copied: seq<int>)
    reads destin
  {
    && LibraryContract(lib) && lib.opens && total <= max
    && |copied| == total * lib.numChannels && |copied| <= destin.Length == |orig|
    && (var rest := DecodeLoop(lib, max, total);
        DecodeLoop(lib, max, 0) == (rest.0, copied + rest.1))
    && Filled(destin, orig, copied)
  }

  /** `destin` starts with `copied` narrowed to 16 bits and keeps `orig` after it. */
  ghost predicate Filled(destin: array<int>, orig: seq<int>, copied: seq<int>)
    reads destin
  {
    && |copied| <= destin.Length == |orig|
    && (forall k :: 0 <= k < |copied| ==> destin[k] == Narrow16(copied[k]))
    && (forall k :: |copied| <= k < destin.Length ==> destin[k] == orig[k])
  }

  /**
    One pass of the frame loop that decoded `chunk.frames > 0` frames:
    copy them out at `out`.
   */
  method CopyBatch(lib: Unpacker, max: nat, destin: array<int>, total: nat, out: nat, chunk: Chunk,
                   ghost orig: seq<int>, ghost copied: seq<int>) returns (total': nat, out': nat, ghost copied': seq<int>)
    requires Decoded(lib, max, destin, orig, total, copied) && out == |copied|
    requires max * lib.numChannels <= destin.Length
    requires chunk == lib.unpack(total, Request(total, max)) && chunk.frames > 0
    modifies destin
    ensures copied' == copied + chunk.values
    ensures total' == total + chunk.frames && out' == out + chunk.frames * lib.numChannels == |copied'|
    ensures total' <= max && Filled(destin, orig, copied')
    ensures total' == max ==> DecodeLoop(lib, max, 0) == (max, copied')
    ensures total' < max ==> Decoded(lib, max, destin, orig, total', copied')
  {
    var nch := lib.numChannels;
    ghost var rest := DecodeLoop(lib, max, total);
    ChunkFits(total, chunk.frames, max, nch, out, |chunk.values|, destin.Length);
    CopyNarrowed(destin, out, chunk.values);
    copied' := copied + chunk.values;
    total', out' := total + chunk.frames, out + chunk.frames * nch;
    if total + chunk.frames < max {
      ghost var next := DecodeLoop(lib, max, total + chunk.frames);
      assert rest == (next.0, chunk.values + next.1);
      assert copied' + next.1 == copied + rest.1;
    }
  }

  /**
    The frame loop of `WavpackDecodeFile`: ask for up to 256 frames at a
    time, copy each batch into `destin` narrowed to 16 bits, and stop on an
    empty batch or once `max` frames have been decoded.
   */
  method DecodeFrames(lib: Unpacker, max: nat, destin: array<int>) returns (total: nat)
    requires LibraryContract(lib) && lib.opens && max * lib.numChannels <= destin.Length
    modifies destin
    ensures var (frames, values) := DecodeLoop(lib, max, 0);
      && total == frames <= max
      && |values| <= destin.Length
      && destin[..|values|] == NarrowAll(values)
      && destin[|values|..] == old(destin[|values|..])
  {
    ghost var orig := destin[..];
    ghost var copied: seq<int> := [];
    total := 0;
    var out: nat := 0;
    assert copied + DecodeLoop(lib, max, 0).1 == DecodeLoop(lib, max, 0).1;
    while true
      invariant out == |copied| && Decoded(lib, max, destin, orig, total, copied)
      decreases max - total
    {
      var samplesToDecode := Request(total, max);
      var chunk := lib.unpack(total, samplesToDecode);
      var samplesDecoded := chunk.frames;
      if samplesDecoded == 0 {
        assert DecodeLoop(lib, max, total) == (total, []);
        assert copied + [] == copied;
        break;
      }
      total, out, copied := CopyBatch(lib, max, destin, total, out, chunk, orig, copied);
      if total == max {
        break;
      }
    }
    assert Filled(destin, orig, copied) && DecodeLoop(lib, max, 0) == (total, copied);
    FilledSlices(destin, orig, copied);
  }

  /** `Filled` said with slices. */
  lemma FilledSlices(destin: array<int>, orig: seq<int>, copied: seq<int>)
    requires Filled(destin, orig, copied)
    ensures destin[..|copied|] == NarrowAll(copied)
    ensures destin[|copied|..] == orig[|copied|..]
  {
  }

  /** The inner `while (samples_to_copy--) *destin++ = *sptr++;` loop. */
  method CopyNarrowed(destin: array<int>, at: nat, values: seq<int>)
    requires at + |values| <= destin.Length
    modifies destin
    ensures forall k :: 0 <= k < |values| ==> destin[at + k] == Narrow16(values[k])
    ensures forall k :: 0 <= k < destin.Length && !(at <= k < at + |values|) ==> destin[k] == old(destin[k])
  {
    var i := 0;
    while i < |values|
      invariant 0 <= i <= |values|
      invariant forall k :: 0 <= k < i ==> destin[at + k] == Narrow16(values[k])
      invariant forall k :: 0 <= k < destin.Length && !(at <= k < at + i) ==> destin[k] == old(destin[k])
    {
      destin[at + i] := Narrow16(values[i]);
      i := i + 1;
    }
  }
}
