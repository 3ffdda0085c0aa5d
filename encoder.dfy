/**
  In-memory WavPack encoding (`WavpackEncodeFile`): the bounded output
  buffer the library writes blocks into (`WavpackWriterContext` and
  `write_block`), the configuration the driver hands the library, the
  staging of 256-frame batches and the result rule.

  The library itself (`WavpackOpenFileOutput`, `WavpackSetConfiguration`,
  `WavpackPackInit`, `WavpackPackSamples`, `WavpackFlushSamples`) is the
  `Packer` oracle: what each call reports and which blocks it hands to
  `write_block` while it runs.
 */
module Encoder {
  import opened Wrappers

  /** Frames staged per `WavpackPackSamples` call (`BUFFER_SAMPLES`). */
  const BufferSamples: nat := 256

  /** The largest block size the driver configures. */
  const MaxBlockSamples: nat := 120000

  /*
   * The output buffer as values
   */

  /**
    The observable state of a writer context: the capacity, whether a
    buffer was given at all, the sticky overflow flag and the bytes
    written so far (`bytes_used` is their count).
   */
  datatype Sink = Sink(available: nat, hasData: bool, overflow: bool, written: seq<bv8>)

  /** The context `WavpackEncodeFile` starts from: zeroed, then capacity and buffer set. */
  function FreshSink(destinBytes: nat, hasData: bool): Sink
  {
    Sink(destinBytes, hasData, false, [])
  }

  ghost predicate Bounded(s: Sink)
  {
    |s.written| <= s.available && (!s.hasData ==> s.written == [])
  }

  /**
    `write_block`: refuse everything without a buffer or after an
    overflow; flag an overflow on a block that does not fit; otherwise
    append it. The second component is the return value.
   */
  function Write(s: Sink, block: seq<bv8>): (r: (Sink, int))
    ensures r.1 == 1 <==> s.hasData && !s.overflow && |s.written| + |block| <= s.available
    ensures r.1 == 1 ==> r.0 == s.(written := s.written + block)
    ensures r.1 != 1 ==> r.1 == 0 && r.0.written == s.written && r.0.available == s.available
    ensures r.0.hasData == s.hasData && (s.overflow ==> r.0 == s)
    ensures r.0.overflow <==> s.overflow || (s.hasData && |s.written| + |block| > s.available)
    ensures Bounded(s) ==> Bounded(r.0)
  {
    if !s.hasData || s.overflow then (s, 0)
    else if |s.written| + |block| > s.available then (s.(overflow := true), 0)
    else (s.(written := s.written + block), 1)
  }

  /** The blocks of several `write_block` calls, in order. */
  function WriteAll(s: Sink, blocks: seq<seq<bv8>>): Sink
  {
    if blocks == [] then s
    else Write(WriteAll(s, blocks[..|blocks| - 1]), blocks[|blocks| - 1]).0
  }

  function Concat(blocks: seq<seq<bv8>>): seq<bv8>
  {
    if blocks == [] then [] else Concat(blocks[..|blocks| - 1]) + blocks[|blocks| - 1]
  }

  lemma {:induction false} ConcatAppend(a: seq<seq<bv8>>, b: seq<seq<bv8>>)
    ensures Concat(a + b) == Concat(a) + Concat(b)
    decreases |b|
  {
    if b == [] {
      assert a + b == a;
    } else {
      var init, last := b[..|b| - 1], b[|b| - 1];
      ConcatAppend(a, init);
      assert (a + b)[..|a + b| - 1] == a + init && (a + b)[|a + b| - 1] == last;
      assert Concat(a + b) == Concat(a + init) + last;
      assert Concat(b) == Concat(init) + last;
      assert (Concat(a) + Concat(init)) + last == Concat(a) + (Concat(init) + last);
    }
  }

  /** Writing two lists of blocks one after the other is writing their concatenation. */
  lemma {:induction false} WriteAllAppend(s: Sink, a: seq<seq<bv8>>, b: seq<seq<bv8>>)
    ensures WriteAll(s, a + b) == WriteAll(WriteAll(s, a), b)
    decreases |b|
  {
    if b == [] {
      assert a + b == a;
    } else {
      WriteAllAppend(s, a, b[..|b| - 1]);
      assert (a + b)[..|a + b| - 1] == a + b[..|b| - 1];
    }
  }

  /** Overflow is sticky: once set, no later block changes anything. */
  lemma {:induction false} OverflowSticky(s: Sink, blocks: seq<seq<bv8>>)
    requires s.overflow
    ensures WriteAll(s, blocks) == s
  {
    if blocks != [] {
      OverflowSticky(s, blocks[..|blocks| - 1]);
    }
  }

  /** Without a buffer every block is refused, and no overflow is ever flagged. */
  lemma {:induction false} NoBufferWritesNothing(s: Sink, blocks: seq<seq<bv8>>)
    requires !s.hasData
    ensures WriteAll(s, blocks) == s
  {
    if blocks != [] {
      NoBufferWritesNothing(s, blocks[..|blocks| - 1]);
    }
  }

  /**
    From a buffer that has not overflowed, a list of blocks overflows it
    exactly when their bytes do not fit; when they do, the buffer holds
    all of them, in order, and `bytes_used` never exceeds the capacity.
   */
  lemma {:induction false} WriteAllOutcome(s: Sink, blocks: seq<seq<bv8>>)
    requires s.hasData && !s.overflow && Bounded(s)
    ensures var t := WriteAll(s, blocks);
      && Bounded(t) && t.hasData && t.available == s.available
      && (t.overflow <==> |s.written| + |Concat(blocks)| > s.available)
      && (!t.overflow ==> t.written == s.written + Concat(blocks))
    decreases |blocks|
  {
    if blocks != [] {
      var init := blocks[..|blocks| - 1];
      WriteAllOutcome(s, init);
      var m := WriteAll(s, init);
      var last := blocks[|blocks| - 1];
      assert WriteAll(s, blocks) == Write(m, last).0;
      assert Concat(blocks) == Concat(init) + last;
      assert |Concat(blocks)| == |Concat(init)| + |last|;
      if m.overflow {
        assert Write(m, last).0 == m;
      } else {
        assert m.written == s.written + Concat(init);
        assert m.written + last == s.written + Concat(blocks);
      }
    }
  }

  /** `raw_wv.overflow ? -1 : raw_wv.bytes_used`. */
  function Outcome(s: Sink): (r: int)
    ensures r == -1 || r == |s.written|
    ensures r == -1 <==> s.overflow
  {
    if s.overflow then -1 else |s.written|
  }

  /*
   * The output buffer as an object
   */

  class WriterContext {
    var bytesAvailable: nat
    var bytesUsed: nat
    var data: array?<bv8>
    var overflow: bool

    ghost predicate Valid()
      reads this
    {
      && bytesUsed <= bytesAvailable
      && (data != null ==> bytesAvailable <= data.Length)
      && (data == null ==> bytesUsed == 0)
    }

    function State(): Sink
      reads this, data
      requires Valid()
    {
      Sink(bytesAvailable, data != null, overflow, if data == null then [] else data[..bytesUsed])
    }

    /** `memset` to zero, then `bytes_available = destin_bytes` and `data = destin`. */
    constructor (destin: array?<bv8>, destinBytes: nat)
      requires destin != null ==> destinBytes <= destin.Length
      ensures Valid() && data == destin
      ensures State() == FreshSink(destinBytes, destin != null)
    {
      bytesAvailable := destinBytes;
      bytesUsed := 0;
      data := destin;
      overflow := false;
    }

    /** `write_block`: append `block` at `bytes_used` when it fits. */
    method WriteBlock(block: seq<bv8>) returns (r: int)
      requires Valid()
      modifies this, data
      ensures Valid() && data == old(data) && bytesAvailable == old(bytesAvailable)
      ensures (State(), r) == Write(old(State()), block) && old(bytesUsed) <= bytesUsed
      ensures data != null ==> forall k :: bytesUsed <= k < data.Length ==> data[k] == old(data[k])
    {
      if data == null || overflow {
        return 0;
      }
      if bytesUsed + |block| > bytesAvailable {
        overflow := true;
        return 0;
      }
      MemCopy(data, bytesUsed, block);
      assert data[..bytesUsed + |block|] == old(data[..bytesUsed]) + block;
      bytesUsed := bytesUsed + |block|;
      r := 1;
    }

    /** The library handing the blocks of one call to `write_block`, one after another. */
    method Deliver(blocks: seq<seq<bv8>>)
      requires Valid()
      modifies this, data
      ensures Valid() && data == old(data) && bytesAvailable == old(bytesAvailable)
      ensures State() == WriteAll(old(State()), blocks) && old(bytesUsed) <= bytesUsed
      ensures data != null ==> forall k :: bytesUsed <= k < data.Length ==> data[k] == old(data[k])
    {
      for i := 0 to |blocks|
        invariant Valid() && data == old(data) && bytesAvailable == old(bytesAvailable)
        invariant State() == WriteAll(old(State()), blocks[..i]) && old(bytesUsed) <= bytesUsed
        invariant data != null ==> forall k :: bytesUsed <= k < data.Length ==> data[k] == old(data[k])
      {
        assert blocks[..i + 1][..i] == blocks[..i];
        var _ := WriteBlock(blocks[i]);
      }
      assert blocks[..|blocks|] == blocks;
    }
  }

  /*
   * Configuration
   */

  /** `config.block_samples`: halve, rounding up, while above 120000. */
  function HalveToLimit(n: nat): (b: nat)
    ensures b <= MaxBlockSamples
    ensures n <= MaxBlockSamples ==> b == n
    ensures n > MaxBlockSamples ==> MaxBlockSamples / 2 < b && b < n
    decreases n
  {
    if n <= MaxBlockSamples then n else HalveToLimit((n + 1) / 2)
  }

  /** The halving `while` loop on `config.block_samples`. */
  method ClampBlockSamples(numSamples: nat) returns (blockSamples: nat)
    ensures blockSamples == HalveToLimit(numSamples)
  {
    blockSamples := numSamples;
    while blockSamples > MaxBlockSamples
      invariant HalveToLimit(blockSamples) == HalveToLimit(numSamples)
    {
      blockSamples := (blockSamples + 1) / 2;
    }
  }

  /** The `CONFIG_*` flags the driver sets (distinct bits of `config.flags`). */
  datatype Flag = PairUndefChans | Fast | High | VeryHigh | Hybrid

  /**
    `config.flags`: `CONFIG_PAIR_UNDEF_CHANS` plus the level's speed
    flags; a level outside 1-4 is refused. A positive `bps` then replaces
    every flag with `CONFIG_HYBRID_FLAG` alone.
   */
  function ConfigFlags(level: int, bps: real): (r: Option<set<Flag>>)
  {
    var speed :=
      if level == 1 then Some({Fast})
      else if level == 2 then Some({})
      else if level == 3 then Some({High})
      else if level == 4 then Some({High, VeryHigh})
      else None;
    if speed.None? then None
    else if bps > 0.0 then Some({Hybrid})
    else Some({PairUndefChans} + speed.value)
  }

  /**
    The level table: levels 1-4 are accepted and no other; lossless
    encoding keeps `PAIR_UNDEF_CHANS`, never sets `HYBRID`, and the four
    levels give four different flag sets; hybrid encoding drops every
    other flag, so the level no longer shows.
   */
  lemma LevelTable(level: int, other: int, bps: real)
    ensures ConfigFlags(level, bps).Some? <==> 1 <= level <= 4
    ensures bps > 0.0 && 1 <= level <= 4 ==> ConfigFlags(level, bps) == Some({Hybrid})
    ensures bps <= 0.0 && 1 <= level <= 4 ==>
      var f := ConfigFlags(level, bps).value;
      && PairUndefChans in f && Hybrid !in f
      && (Fast in f <==> level == 1) && (High in f <==> level >= 3) && (VeryHigh in f <==> level == 4)
    ensures bps <= 0.0 && 1 <= level <= 4 && 1 <= other <= 4 && level != other ==>
      ConfigFlags(level, bps) != ConfigFlags(other, bps)
  {
    if bps <= 0.0 && 1 <= level <= 4 && 1 <= other <= 4 && level != other {
      var f := ConfigFlags(level, bps).value;
      var g := ConfigFlags(other, bps).value;
      assert Fast in f <==> level == 1;
      assert Fast in g <==> other == 1;
      assert High in f <==> level >= 3;
      assert High in g <==> other >= 3;
      assert VeryHigh in f <==> level == 4;
      assert VeryHigh in g <==> other == 4;
    }
  }

  /** The fields of `WavpackConfig` the driver sets; the rest stay zero. */
  datatype EncoderConfig = EncoderConfig(numChannels: nat, bytesPerSample: nat, bitsPerSample: nat,
                                         sampleRate: nat, blockSamples: nat, flags: set<Flag>, bitrate: real)

  /** The configuration for `numSamples` frames of `numChans` channels, once the level is accepted. */
  function Configure(numSamples: nat, numChans: nat, flags: set<Flag>, bps: real): (c: EncoderConfig)
    ensures c.bytesPerSample == 2 && c.bitsPerSample == 16 && c.numChannels == numChans
    ensures c.blockSamples <= MaxBlockSamples
    ensures c.bitrate == (if bps > 0.0 then bps else 0.0)
  {
    EncoderConfig(numChans, 2, 16, 32000, HalveToLimit(numSamples), flags, if bps > 0.0 then bps else 0.0)
  }

  /*
   * Staging and the library
   */

  /** One `WavpackPackSamples` call: the first frame, the frame count and the interleaved samples. */
  datatype Batch = Batch(start: nat, frames: nat, samples: seq<int>)

  /**
    The batches the staging loop hands the library for frames
    `done .. done + remaining` of `source` (`nch` samples a frame).
   */
  function Batches(source: seq<int>, nch: nat, done: nat, remaining: nat): (bs: seq<Batch>)
    requires (done + remaining) * nch <= |source|
    decreases remaining
  {
    if remaining == 0 then []
    else
      var k := Min(remaining, BufferSamples);
      FrameBounds(done, k, remaining, nch);
      [Batch(done, k, source[done * nch..(done + k) * nch])] + Batches(source, nch, done + k, remaining - k)
  }

  lemma FrameBounds(done: nat, k: nat, remaining: nat, nch: nat)
    requires k <= remaining
    ensures done * nch <= (done + k) * nch <= (done + remaining) * nch
  {
    assert (done + k) * nch == done * nch + k * nch;
    assert (done + remaining) * nch == (done + k) * nch + (remaining - k) * nch;
  }

  /** The first batch, then the batches of the frames after it. */
  lemma BatchesStep(source: seq<int>, nch: nat, done: nat, remaining: nat)
    requires (done + remaining) * nch <= |source| && 0 < remaining
    ensures var k := Min(remaining, BufferSamples);
      var bs := Batches(source, nch, done, remaining);
      && bs != [] && bs[0].start == done && bs[0].frames == k
      && (done + k) * nch <= |source|
      && bs[0].samples == source[done * nch..(done + k) * nch]
      && bs[1..] == Batches(source, nch, done + k, remaining - k)
  {
    var k := Min(remaining, BufferSamples);
    FrameBounds(done, k, remaining, nch);
  }

  /**
    `samples_to_encode` and `samples_to_copy` for the frames left from frame
    `done`, and where the copied samples start: the window of `source` that
    the next batch carries, one `num_chans`-sample frame at a time.
   */
  method StagingWindow(source: seq<int>, done: nat, remaining: nat, nch: nat) returns (k: nat, from: nat, count: nat)
    requires (done + remaining) * nch <= |source| && 0 < remaining
    ensures var b := Batches(source, nch, done, remaining)[0];
      && k == b.frames && count == k * nch
      && from + count <= |source| && source[from..from + count] == b.samples
  {
    k := if remaining < BufferSamples then remaining else BufferSamples;
    from := done * nch;
    count := k * nch;
    assert from + count == (done + k) * nch;
    BatchesStep(source, nch, done, remaining);
  }

  function TotalFrames(bs: seq<Batch>): nat
  {
    if bs == [] then 0 else bs[0].frames + TotalFrames(bs[1..])
  }

  function AllSamples(bs: seq<Batch>): seq<int>
  {
    if bs == [] then [] else bs[0].samples + AllSamples(bs[1..])
  }

  /**
    The staging loop hands over every frame once and in order: batch
    sizes add up to the frame count, each is 256 except a shorter last
    one, and each batch starts where the previous one ended.
   */
  lemma {:induction false} BatchesCover(source: seq<int>, nch: nat, done: nat, remaining: nat)
    requires (done + remaining) * nch <= |source|
    ensures var bs := Batches(source, nch, done, remaining);
      && TotalFrames(bs) == remaining
      && (forall i :: 0 <= i < |bs| ==> 0 < bs[i].frames <= BufferSamples)
      && (forall i :: 0 <= i < |bs| - 1 ==> bs[i].frames == BufferSamples)
      && (bs != [] ==> bs[0].start == done)
      && (forall i :: 0 <= i < |bs| - 1 ==> bs[i + 1].start == bs[i].start + bs[i].frames)
    decreases remaining
  {
    if remaining > 0 {
      var k := Min(remaining, BufferSamples);
      FrameBounds(done, k, remaining, nch);
      BatchesCover(source, nch, done + k, remaining - k);
      var bs := Batches(source, nch, done, remaining);
      var rest := Batches(source, nch, done + k, remaining - k);
      assert bs[0].frames == k && bs[1..] == rest;
      if rest != [] {
        assert k == BufferSamples;
      }
    }
  }

  /** Together the batches carry exactly the samples of their frames, in order. */
  lemma {:induction false} BatchesCarrySamples(source: seq<int>, nch: nat, done: nat, remaining: nat)
    requires (done + remaining) * nch <= |source|
    ensures AllSamples(Batches(source, nch, done, remaining)) == source[done * nch..(done + remaining) * nch]
    decreases remaining
  {
    if remaining > 0 {
      var k := Min(remaining, BufferSamples);
      BatchesStep(source, nch, done, remaining);
      FrameBounds(done, k, remaining, nch);
      BatchesCarrySamples(source, nch, done + k, remaining - k);
      var bs := Batches(source, nch, done, remaining);
      SliceSplit(source, done * nch, (done + k) * nch, (done + remaining) * nch);
      assert AllSamples(bs) == bs[0].samples + AllSamples(bs[1..]);
    }
  }

  /** What one library call reports and the blocks it hands to `write_block` while it runs. */
  datatype Packed = Packed(ok: bool, blocks: seq<seq<bv8>>)

  /**
    The WavPack library as the driver sees it: whether the output context
    opens, whether a configuration is accepted for a frame count, whether
    packing initialises, what packing a batch does, and what the flush does.
   */
  datatype Packer = Packer(opens: bool, configures: (EncoderConfig, nat) -> bool, inits: bool,
                           pack: Batch -> Packed, flush: Packed)

  /**
    The packing of a list of batches: whether every call succeeded, and
    the blocks written up to and including the first failing call.
   */
  function PackAll(lib: Packer, bs: seq<Batch>): (r: (bool, seq<seq<bv8>>))
  {
    if bs == [] then (true, [])
    else
      var p := lib.pack(bs[0]);
      if !p.ok then (false, p.blocks)
      else
        var rest := PackAll(lib, bs[1..]);
        (rest.0, p.blocks + rest.1)
  }

  /**
    The whole of `WavpackEncodeFile`: its return value (-1 standing for
    `(size_t) -1`) and the bytes left at the start of `destin`.
   */
  function EncodeRun(lib: Packer, source: seq<int>, numSamples: nat, numChans: nat, level: int, bps: real,
                     destinBytes: nat, hasDest: bool): (r: (int, seq<bv8>))
    requires numSamples * numChans <= |source|
  {
    var flags := ConfigFlags(level, bps);
    if !lib.opens || flags.None? then (-1, [])
    else if !lib.configures(Configure(numSamples, numChans, flags.value, bps), numSamples) then (-1, [])
    else if !lib.inits then (-1, [])
    else
      var packed := PackAll(lib, Batches(source, numChans, 0, numSamples));
      var s := WriteAll(FreshSink(destinBytes, hasDest), packed.1);
      if !packed.0 then (-1, s.written)
      else
        var t := WriteAll(s, lib.flush.blocks);
        if !lib.flush.ok then (-1, t.written) else (Outcome(t), t.written)
  }

  /**
    The result rule: when every library call succeeds and a buffer is
    given, the result is the byte count of all blocks when they fit in
    `destin_bytes` and -1 when they do not; the buffer then starts with
    those blocks in order. Without a buffer the result is 0.
   */
  lemma EncodeResult(lib: Packer, source: seq<int>, numSamples: nat, numChans: nat, level: int, bps: real,
                     destinBytes: nat, hasDest: bool)
    requires numSamples * numChans <= |source|
    requires lib.opens && 1 <= level <= 4 && lib.inits
    requires lib.configures(Configure(numSamples, numChans, ConfigFlags(level, bps).value, bps), numSamples)
    requires PackAll(lib, Batches(source, numChans, 0, numSamples)).0 && lib.flush.ok
    ensures var blocks := PackAll(lib, Batches(source, numChans, 0, numSamples)).1 + lib.flush.blocks;
      var r := EncodeRun(lib, source, numSamples, numChans, level, bps, destinBytes, hasDest);
      && (!hasDest ==> r == (0, []))
      && (hasDest && |Concat(blocks)| <= destinBytes ==> r == (|Concat(blocks)|, Concat(blocks)))
      && (hasDest && |Concat(blocks)| > destinBytes ==> r.0 == -1)
  {
    LevelTable(level, level, bps);
    var packed := PackAll(lib, Batches(source, numChans, 0, numSamples)).1;
    var s0 := FreshSink(destinBytes, hasDest);
    WriteAllAppend(s0, packed, lib.flush.blocks);
    var blocks := packed + lib.flush.blocks;
    if hasDest {
      WriteAllOutcome(s0, blocks);
      assert [] + Concat(blocks) == Concat(blocks);
    } else {
      NoBufferWritesNothing(s0, blocks);
    }
  }

  /**
    `WavpackEncodeFile`: encode `numSamples` frames of `numChans` 16-bit
    channels from `source` into `destin` (`destinBytes` bytes, or no buffer
    at all). Returns the byte count or -1, as `EncodeRun` describes, and
    leaves the bytes `EncodeRun` describes at the start of `destin`.
   */
  method EncodeFile(source: seq<int>, numSamples: nat, numChans: nat, level: int, bps: real, lib: Packer,
                    destin: array?<bv8>, destinBytes: nat) returns (r: int)
    requires numSamples * numChans <= |source|
    requires destin != null ==> destinBytes <= destin.Length
    modifies destin
    ensures var run := EncodeRun(lib, source, numSamples, numChans, level, bps, destinBytes, destin != null);
      && r == run.0
      && |run.1| <= destinBytes
      && (destin != null ==> destin[..|run.1|] == run.1 && destin[|run.1|..] == old(destin[|run.1|..]))
  {
    var raw := new WriterContext(destin, destinBytes);
    if !lib.opens {
      return -1;
    }
    var blockSamples := ClampBlockSamples(numSamples);
    var flags := ConfigFlags(level, bps);
    if flags.None? {
      return -1;
    }
    var config := EncoderConfig(numChans, 2, 16, 32000, blockSamples, flags.value, if bps > 0.0 then bps else 0.0);
    assert config == Configure(numSamples, numChans, flags.value, bps);
    if !lib.configures(config, numSamples) {
      return -1;
    }
    if !lib.inits {
      return -1;
    }
    assert raw.State() == FreshSink(destinBytes, destin != null);
    ghost var run := EncodeRun(lib, source, numSamples, numChans, level, bps, destinBytes, destin != null);
    r := PackAndFlush(source, numSamples, numChans, lib, raw);
    assert r == run.0 && run.1 == raw.State().written;
    assert |run.1| == raw.bytesUsed <= destinBytes;
    assert destin != null ==> destin[..|run.1|] == run.1;
  }

  /**
    The part of `WavpackEncodeFile` after `WavpackPackInit`: the staging
    loop, the flush and the result rule, on a fresh writer context.
   */
  method PackAndFlush(source: seq<int>, numSamples: nat, numChans: nat, lib: Packer, raw: WriterContext)
    returns (r: int)
    requires numSamples * numChans <= |source| && raw.Valid() && raw.bytesUsed == 0 && !raw.overflow
    modifies raw, raw.data
    ensures raw.Valid() && raw.data == old(raw.data) && raw.bytesAvailable == old(raw.bytesAvailable)
    ensures var packed := PackAll(lib, Batches(source, numChans, 0, numSamples));
      var s1 := WriteAll(old(raw.State()), packed.1);
      var s2 := WriteAll(s1, lib.flush.blocks);
      (r, raw.State()) == if !packed.0 then (-1, s1) else if !lib.flush.ok then (-1, s2) else (Outcome(s2), s2)
    ensures raw.data != null ==> forall k :: raw.bytesUsed <= k < raw.data.Length ==> raw.data[k] == old(raw.data[k])
  {
    var ok := StageAndPack(source, numSamples, numChans, lib, raw);
    if !ok {
      return -1;
    }
    raw.Deliver(lib.flush.blocks);
    if !lib.flush.ok {
      return -1;
    }
    r := if raw.overflow then -1 else raw.bytesUsed;
  }

  /**
    The staging loop: copy up to 256 frames at a time into the 32-bit
    staging buffer and pack them, stopping at the first failing call.
   */
  method StageAndPack(source: seq<int>, numSamples: nat, numChans: nat, lib: Packer, raw: WriterContext)
    returns (ok: bool)
    requires numSamples * numChans <= |source| && raw.Valid()
    modifies raw, raw.data
    ensures raw.Valid() && raw.data == old(raw.data) && raw.bytesAvailable == old(raw.bytesAvailable)
    ensures var packed := PackAll(lib, Batches(source, numChans, 0, numSamples));
      ok == packed.0 && raw.State() == WriteAll(old(raw.State()), packed.1)
    ensures raw.data != null ==> forall k :: raw.bytesUsed <= k < raw.data.Length ==> raw.data[k] == old(raw.data[k])
  {
    ghost var s0 := raw.State();
    ghost var all := PackAll(lib, Batches(source, numChans, 0, numSamples));
    ghost var sent: seq<seq<bv8>> := [];
    var remaining: nat := numSamples;
    var done: nat := 0;
    assert sent + all.1 == all.1;
    while remaining != 0
      invariant done + remaining == numSamples
      invariant raw.Valid() && raw.data == old(raw.data) && raw.bytesAvailable == old(raw.bytesAvailable)
      invariant Packing(lib, source, numChans, done, remaining, all, sent)
      invariant raw.State() == WriteAll(s0, sent)
      invariant raw.data != null ==> forall k :: raw.bytesUsed <= k < raw.data.Length ==> raw.data[k] == old(raw.data[k])
    {
      var batchOk;
      batchOk, done, remaining, sent := PackBatch(source, numChans, lib, raw, done, remaining, s0, all, sent);
      if !batchOk {
        return false;
      }
    }
    PackingDone(lib, source, numChans, done, all, sent);
    ok := true;
  }

  /**
    The state of the staging loop with `remaining` frames left from frame
    `done`: the blocks `sent` so far, followed by what packing the rest
    writes, make up the whole run `all`.
   */
  ghost predicate Packing(lib: Packer, source: seq<int>, nch: nat, done: nat, remaining: nat,
                          all: (bool, seq<seq<bv8>>), sent: seq<seq<bv8>>)
  {
    && (done + remaining) * nch <= |source|
    && var rest := PackAll(lib, Batches(source, nch, done, remaining));
       all == (rest.0, sent + rest.1)
  }

  /** One pass of the staging loop: stage and pack the next batch, then deliver its blocks. */
  method PackBatch(source: seq<int>, numChans: nat, lib: Packer, raw: WriterContext, done: nat, remaining: nat,
                   ghost s0: Sink, ghost all: (bool, seq<seq<bv8>>), ghost sent: seq<seq<bv8>>)
    returns (ok: bool, done': nat, remaining': nat, ghost sent': seq<seq<bv8>>)
    requires 0 < remaining && Packing(lib, source, numChans, done, remaining, all, sent)
    requires raw.Valid() && raw.State() == WriteAll(s0, sent)
    modifies raw, raw.data
    ensures raw.Valid() && raw.data == old(raw.data) && raw.bytesAvailable == old(raw.bytesAvailable)
    ensures var k := Min(remaining, BufferSamples); done' == done + k && remaining' == remaining - k
    ensures raw.State() == WriteAll(s0, sent') && old(raw.bytesUsed) <= raw.bytesUsed
    ensures !ok ==> all == (false, sent')
    ensures ok ==> Packing(lib, source, numChans, done', remaining', all, sent')
    ensures raw.data != null ==> forall k :: raw.bytesUsed <= k < raw.data.Length ==> raw.data[k] == old(raw.data[k])
  {
    var samplesToEncode, from, count := StagingWindow(source, done, remaining, numChans);
    var staged := Stage(source, from, count);
    var batch := Batch(done, samplesToEncode, staged);
    BatchesStep(source, numChans, done, remaining);
    assert Batches(source, numChans, done, remaining)[0] == batch;
    PackingAdvances(lib, source, numChans, done, remaining, all, sent);
    var p := lib.pack(batch);
    raw.Deliver(p.blocks);
    WriteAllAppend(s0, sent, p.blocks);
    sent' := sent + p.blocks;
    ok, done', remaining' := p.ok, done + samplesToEncode, remaining - samplesToEncode;
  }

  /** With no frames left the loop state is the whole, successful run. */
  lemma PackingDone(lib: Packer, source: seq<int>, nch: nat, done: nat, all: (bool, seq<seq<bv8>>), sent: seq<seq<bv8>>)
    requires Packing(lib, source, nch, done, 0, all, sent)
    ensures all == (true, sent)
  {
    assert Batches(source, nch, done, 0) == [];
    assert sent + [] == sent;
  }

  /** Packing the next batch either fails, ending the run, or leaves the loop state one batch further on. */
  lemma PackingAdvances(lib: Packer, source: seq<int>, nch: nat, done: nat, remaining: nat,
                        all: (bool, seq<seq<bv8>>), sent: seq<seq<bv8>>)
    requires 0 < remaining && Packing(lib, source, nch, done, remaining, all, sent)
    ensures var k := Min(remaining, BufferSamples);
      var p := lib.pack(Batches(source, nch, done, remaining)[0]);
      && (p.ok ==> Packing(lib, source, nch, done + k, remaining - k, all, sent + p.blocks))
      && (!p.ok ==> all == (false, sent + p.blocks))
  {
    var k := Min(remaining, BufferSamples);
    var bs := Batches(source, nch, done, remaining);
    BatchesStep(source, nch, done, remaining);
    var p := lib.pack(bs[0]);
    if p.ok {
      var next := PackAll(lib, bs[1..]);
      assert PackAll(lib, bs) == (next.0, p.blocks + next.1);
      assert (sent + p.blocks) + next.1 == sent + (p.blocks + next.1);
    }
  }

  /** `while (samples_to_copy--) *dptr++ = *source++;`: widen `count` samples into the staging buffer. */
  method Stage(source: seq<int>, from: nat, count: nat) returns (staged: seq<int>)
    requires from + count <= |source|
    ensures staged == source[from..from + count]
  {
    var temp := new int[count];
    var i := 0;
    while i < count
      invariant 0 <= i <= count
      invariant temp[..i] == source[from..from + i]
    {
      temp[i] := source[from + i];
      i := i + 1;
    }
    staged := temp[..];
  }
}
