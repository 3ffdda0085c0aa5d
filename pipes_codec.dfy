/**
  `WavPackPipesCodec`: the codec object. `encode` and `decode` append to the
  command lists stored on the object (`cmd = self.base_enc_cmd` is an alias,
  and `cmd += ...` extends the list in place), so the stored lists grow on
  every call; the class keeps that behaviour and its invariant says exactly
  what the stored lists hold after any history of calls.
 */
module PipesCodec {
  import opened Wrappers
  import opened Layout
  import opened Commands

  /** `subprocess.run(cmd, input=stdin, capture_output=True).stdout`. */
  type Pipe = (seq<string>, seq<bv8>) -> seq<bv8>

  datatype CodecError =
    | InitFailed(init: InitError)
    | BadInput(layout: LayoutError)
    | BufferSize(length: nat, itemsize: nat)

  /** Everything `encode` appends after the base, for a history of prepared shapes. */
  function EncodeSuffixes(o: Options, calls: seq<(nat, nat)>): seq<string>
  {
    if calls == [] then []
    else
      var last := calls[|calls| - 1];
      EncodeSuffixes(o, calls[..|calls| - 1]) + EncodeSuffix(o, last.0, last.1, o.dtype.itemsize)
  }

  lemma SuffixesSnoc(o: Options, calls: seq<(nat, nat)>, call: (nat, nat))
    ensures EncodeSuffixes(o, calls + [call]) == EncodeSuffixes(o, calls) + EncodeSuffix(o, call.0, call.1, o.dtype.itemsize)
  {
    assert (calls + [call])[..|calls|] == calls;
  }

  lemma AppendAssoc(a: seq<string>, b: seq<string>, c: seq<string>)
    ensures a + (b + c) == (a + b) + c
  {
  }

  function Repeat(s: seq<string>, n: nat): seq<string>
  {
    if n == 0 then [] else Repeat(s, n - 1) + s
  }

  class WavPackPipesCodec {
    const options: Options
    const tools: Toolchain
    /** `base_enc_cmd` as `__init__` left it. */
    ghost const encBase: seq<string>
    /** `self.base_enc_cmd` */
    var baseEncCmd: seq<string>
    /** `self.base_dec_cmd` */
    var baseDecCmd: seq<string>
    /** (rows, columns) of the prepared data of every encode call that reached the command. */
    ghost var encodeCalls: seq<(nat, nat)>
    /** Number of decode calls so far. */
    ghost var decodeCalls: nat

    ghost predicate Valid()
      reads this
    {
      && EncodeBase(options, tools) == Success(encBase)
      && baseEncCmd == encBase + EncodeSuffixes(options, encodeCalls)
      && baseDecCmd == DecodeBase(tools) + Repeat(DecodeSuffix, decodeCalls)
    }

    /** The part of `__init__` that runs once the base command exists. */
    constructor (options: Options, tools: Toolchain, encBase: seq<string>)
      requires EncodeBase(options, tools) == Success(encBase)
      ensures Valid()
      ensures this.options == options && this.tools == tools
      ensures baseEncCmd == encBase && baseDecCmd == [tools.wvunpack, "-y", "-q"]
      ensures encodeCalls == [] && decodeCalls == 0
    {
      this.options := options;
      this.tools := tools;
      this.encBase := encBase;
      baseEncCmd := encBase;
      baseDecCmd := [tools.wvunpack, "-y", "-q"];
      encodeCalls := [];
      decodeCalls := 0;
    }

    /**
      `encode`: prepare the data (its assertions fail before anything is
      appended), append the block size, the raw-PCM descriptor and the pipe
      markers to the STORED command, and run that command on the data's bytes.
     */
    method Encode(buf: NdArray, run: Pipe) returns (r: Result<seq<bv8>, CodecError>)
      requires Valid() && WellFormed(buf)
      modifies this
      ensures Valid()
      ensures baseDecCmd == old(baseDecCmd) && decodeCalls == old(decodeCalls)
      ensures PrepareData(buf, options.dtype).Failure? ==>
        && r == Failure(BadInput(PrepareData(buf, options.dtype).error))
        && baseEncCmd == old(baseEncCmd) && encodeCalls == old(encodeCalls)
      ensures PrepareData(buf, options.dtype).Success? ==>
        var data := PrepareData(buf, options.dtype).value;
        && encodeCalls == old(encodeCalls) + [(data.shape[0], data.shape[1])]
        && baseEncCmd == old(baseEncCmd) + EncodeSuffix(options, data.shape[0], data.shape[1], options.dtype.itemsize)
        && r == Success(run(baseEncCmd, ToBytes(buf.elems)))
    {
      var prepared := PrepareData(buf, options.dtype);
      if prepared.Failure? {
        return Failure(BadInput(prepared.error));
      }
      var data := prepared.value;
      assert data.dtype == options.dtype && data.elems == buf.elems;
      var nsamples, nchans := data.shape[0], data.shape[1];
      ghost var calls := encodeCalls + [(nsamples, nchans)];
      ghost var suffix := EncodeSuffix(options, nsamples, nchans, options.dtype.itemsize);
      SuffixesSnoc(options, encodeCalls, (nsamples, nchans));
      AppendAssoc(encBase, EncodeSuffixes(options, encodeCalls), suffix);
      ExtendEncodeCommand(nsamples, nchans);
      encodeCalls := calls;
      r := Success(run(baseEncCmd, ToBytes(data.elems)));
    }

    /** The `cmd += [...]` statements of `encode`, all applied to the stored list. */
    method ExtendEncodeCommand(nsamples: nat, nchans: nat)
      modifies this
      ensures baseEncCmd == old(baseEncCmd) + EncodeSuffix(options, nsamples, nchans, options.dtype.itemsize)
      ensures encodeCalls == old(encodeCalls) && baseDecCmd == old(baseDecCmd) && decodeCalls == old(decodeCalls)
    {
      var nbits := options.dtype.itemsize * 8;
      if options.setBlockSize {
        var blocksize := Min(nsamples, MaxBlockSize);
        baseEncCmd := baseEncCmd + ["--blocksize=" + Text.NatToText(blocksize)];
      }
      baseEncCmd := baseEncCmd + [RawPcmArg(options.sampleRate, nbits, nchans)];
      baseEncCmd := baseEncCmd + ["-q", "-", "-o", "-"];
    }

    /**
      `decode`: append `--raw - -o -` to the STORED decode command, run it on
      the payload and read its output as elements of the configured dtype.
     */
    method Decode(buf: seq<bv8>, run: Pipe) returns (r: Result<NdArray, CodecError>)
      requires Valid()
      modifies this
      ensures Valid()
      ensures baseEncCmd == old(baseEncCmd) && encodeCalls == old(encodeCalls)
      ensures decodeCalls == old(decodeCalls) + 1
      ensures baseDecCmd == old(baseDecCmd) + ["--raw", "-", "-o", "-"]
      ensures r == DecodeOutput(options.dtype, run(baseDecCmd, buf))
    {
      baseDecCmd := baseDecCmd + ["--raw", "-", "-o", "-"];
      decodeCalls := decodeCalls + 1;
      r := DecodeOutput(options.dtype, run(baseDecCmd, buf));
    }
  }

  /** `__init__`: fails on the hybrid path, otherwise a codec with the base commands. */
  method Create(options: Options, tools: Toolchain) returns (r: Result<WavPackPipesCodec, CodecError>)
    ensures r.Failure? <==> options.hybridFactor.Some?
    ensures r.Failure? ==> r.error == InitFailed(MissingAttribute("_cc"))
    ensures r.Success? ==>
      && fresh(r.value) && r.value.Valid()
      && r.value.options == options && r.value.tools == tools
      && r.value.baseEncCmd == EncodeBaseFixed(options, tools)
      && r.value.baseDecCmd == [tools.wvunpack, "-y", "-q"]
  {
    var base := EncodeBase(options, tools);
    if base.Failure? {
      return Failure(InitFailed(base.error));
    }
    var codec := new WavPackPipesCodec(options, tools, base.value);
    r := Success(codec);
  }

  /** `np.frombuffer(stdout, dtype)` as a one-dimensional array. */
  function DecodeOutput(dtype: DType, stdout: seq<bv8>): (r: Result<NdArray, CodecError>)
    ensures r.Failure? <==> FromBuffer(stdout, dtype.itemsize).None?
    ensures r.Success? ==>
      && WellFormed(r.value) && r.value.dtype == dtype && |r.value.shape| == 1
      && ToBytes(r.value.elems) == stdout
  {
    match FromBuffer(stdout, dtype.itemsize)
    case None => Failure(BufferSize(|stdout|, dtype.itemsize))
    case Some(elems) =>
      assert Product([|elems|]) == |elems| * Product([]);
      Success(NdArray(dtype, [|elems|], elems))
  }

  // ---------------------------------------------------------------------------
  // The stored commands after a history of calls

  /** The number of raw-PCM descriptors in an argument list. */
  function Descriptors(args: seq<string>): nat
  {
    if args == [] then 0
    else Descriptors(args[..|args| - 1]) + (if "--raw-pcm=" <= args[|args| - 1] then 1 else 0)
  }

  lemma {:induction false} DescriptorsAppend(a: seq<string>, b: seq<string>)
    ensures Descriptors(a + b) == Descriptors(a) + Descriptors(b)
    decreases |b|
  {
    if b == [] {
      assert a + b == a;
    } else {
      DescriptorsAppend(a, b[..|b| - 1]);
      assert (a + b)[..|a + b| - 1] == a + b[..|b| - 1];
    }
  }

  lemma OneDescriptorPerSuffix(o: Options, nsamples: nat, nchans: nat, itemsize: nat)
    ensures Descriptors(EncodeSuffix(o, nsamples, nchans, itemsize)) == 1
  {
    var blocks := if o.setBlockSize then [BlockSizeArg(nsamples)] else [];
    var raw := RawPcmArg(o.sampleRate, itemsize * 8, nchans);
    DescriptorsAppend(blocks + [raw], PipeMarkers);
    DescriptorsAppend(blocks, [raw]);
    assert Descriptors([raw]) == 1 by {
      assert [raw][..0] == [];
    }
    if o.setBlockSize {
      assert BlockSizeArg(nsamples)[2] == 'b';
    }
    NoDescriptors(blocks);
    NoDescriptors(PipeMarkers);
  }

  lemma {:induction false} NoDescriptors(args: seq<string>)
    requires forall i :: 0 <= i < |args| ==> !("--raw-pcm=" <= args[i])
    ensures Descriptors(args) == 0
    decreases |args|
  {
    if args != [] {
      NoDescriptors(args[..|args| - 1]);
    }
  }

  /**
    As written, the stored encode command carries one raw-PCM descriptor per
    earlier encode call: after k calls the external tool is handed k of them.
   */
  lemma {:induction false} StoredEncodeCommandAccumulates(o: Options, calls: seq<(nat, nat)>)
    ensures Descriptors(EncodeSuffixes(o, calls)) == |calls|
    decreases |calls|
  {
    if calls != [] {
      var last := calls[|calls| - 1];
      StoredEncodeCommandAccumulates(o, calls[..|calls| - 1]);
      DescriptorsAppend(EncodeSuffixes(o, calls[..|calls| - 1]), EncodeSuffix(o, last.0, last.1, o.dtype.itemsize));
      OneDescriptorPerSuffix(o, last.0, last.1, o.dtype.itemsize);
    }
  }

  /** The command one encode call should run carries exactly one descriptor after its base. */
  lemma EncodeCommandHasOneDescriptor(o: Options, t: Toolchain, nsamples: nat, nchans: nat, itemsize: nat)
    ensures EncodeCommand(o, t, nsamples, nchans, itemsize)
      == EncodeBaseFixed(o, t) + EncodeSuffix(o, nsamples, nchans, itemsize)
    ensures Descriptors(EncodeSuffix(o, nsamples, nchans, itemsize)) == 1
  {
    OneDescriptorPerSuffix(o, nsamples, nchans, itemsize);
  }

  /** As written, the second decode call runs `wvunpack -y -q --raw - -o - --raw - -o -`. */
  lemma StoredDecodeCommandAccumulates(t: Toolchain, n: nat)
    ensures |DecodeBase(t) + Repeat(DecodeSuffix, n)| == 3 + 4 * n
    ensures n >= 2 ==> DecodeBase(t) + Repeat(DecodeSuffix, n) != DecodeCommand(t)
  {
    RepeatLength(DecodeSuffix, n);
  }

  lemma {:induction false} RepeatLength(s: seq<string>, n: nat)
    ensures |Repeat(s, n)| == |s| * n
  {
    if n > 0 {
      RepeatLength(s, n - 1);
    }
  }

  // ---------------------------------------------------------------------------
  // Round trip through a lossless external codec

  /** One encode as intended: a fresh command per call, the prepared data's bytes on stdin. */
  function EncodeOnce(o: Options, t: Toolchain, buf: NdArray, run: Pipe): Result<seq<bv8>, CodecError>
    requires WellFormed(buf)
  {
    match PrepareData(buf, o.dtype)
    case Failure(e) => Failure(BadInput(e))
    case Success(data) =>
      Success(run(EncodeCommand(o, t, data.shape[0], data.shape[1], o.dtype.itemsize), ToBytes(data.elems)))
  }

  /** One decode as intended. */
  function DecodeOnce(o: Options, t: Toolchain, payload: seq<bv8>, run: Pipe): Result<NdArray, CodecError>
  {
    DecodeOutput(o.dtype, run(DecodeCommand(t), payload))
  }

  /** The external tools give back on decode exactly the raw bytes they were given on encode. */
  ghost predicate LosslessFor(o: Options, t: Toolchain, buf: NdArray, run: Pipe)
    requires WellFormed(buf)
  {
    PrepareData(buf, o.dtype).Success? ==>
      var data := PrepareData(buf, o.dtype).value;
      var raw := ToBytes(data.elems);
      run(DecodeCommand(t), run(EncodeCommand(o, t, data.shape[0], data.shape[1], o.dtype.itemsize), raw)) == raw
  }

  /**
    With a lossless external codec, decoding what encode produced gives the
    input's elements in the same order, and reshaping them to the input's
    shape gives the input back.
   */
  lemma LosslessRoundTrip(o: Options, t: Toolchain, buf: NdArray, run: Pipe)
    requires WellFormed(buf) && 0 < buf.dtype.itemsize
    requires PrepareData(buf, o.dtype).Success?
    requires LosslessFor(o, t, buf, run)
    ensures EncodeOnce(o, t, buf, run).Success?
    ensures DecodeOnce(o, t, EncodeOnce(o, t, buf, run).value, run)
      == Success(NdArray(buf.dtype, [|buf.elems|], buf.elems))
    ensures Reshape(DecodeOnce(o, t, EncodeOnce(o, t, buf, run).value, run).value, buf.shape) == Some(buf)
  {
    FromBufferToBytes(buf.elems, buf.dtype.itemsize);
  }

  /**
    The as-written class on its first use: a fresh codec, one `encode`, one
    `decode`. Before the stored commands have grown, the commands it runs
    are the intended ones, so with lossless external tools the decoded flat
    array holds the input's elements and reshapes back to the input.
   */
  method FreshCodecRoundTrip(o: Options, t: Toolchain, buf: NdArray, run: Pipe)
    returns (enc: Result<seq<bv8>, CodecError>, dec: Result<NdArray, CodecError>)
    requires o.hybridFactor.None? && WellFormed(buf) && 0 < buf.dtype.itemsize
    requires PrepareData(buf, o.dtype).Success?
    requires LosslessFor(o, t, buf, run)
    ensures enc == EncodeOnce(o, t, buf, run)
    ensures dec == Success(NdArray(buf.dtype, [|buf.elems|], buf.elems))
    ensures Reshape(dec.value, buf.shape) == Some(buf)
  {
    var c := Create(o, t);
    var codec := c.value;
    enc := codec.Encode(buf, run);
    dec := codec.Decode(enc.value, run);
    LosslessRoundTrip(o, t, buf, run);
  }
}
