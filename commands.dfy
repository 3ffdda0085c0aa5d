/**
  The argument lists of the external `wavpack` / `wvunpack` invocations and the
  persisted configuration of `WavPackPipesCodec`.

  `EncodeBase` and the suffix functions model `__init__` and `encode` as
  written; `EncodeBaseFixed`, `EncodeCommand` and `DecodeCommand` are the
  per-call commands the code evidently intends. `ParseEncodeCommand` reads a
  command line back into the request it conveys; it is the partner that shows
  the assembled command says exactly what the configuration asks for.
 */
module Commands {
  import opened Wrappers
  import opened Text
  import opened Layout

  const CodecId: string := "wavpackpipe"

  /** Upper bound of the `--blocksize=` argument. */
  const MaxBlockSize: nat := 131072

  /** The resolved paths of the bundled encoder and decoder executables. */
  datatype Toolchain = Toolchain(wavpack: string, wvunpack: string)

  /**
    The constructor arguments of `WavPackPipesCodec`. `hybridFactor` holds the
    text `str()` gives the number, which is all the command uses of it.
   */
  datatype Options = Options(
    compressionMode: string,
    hybridFactor: Option<string>,
    cc: bool,
    pairUnassigned: bool,
    setBlockSize: bool,
    sampleRate: int,
    dtype: DType)

  const DefaultOptions: Options := Options("default", None, false, false, false, 48000, DType('i', 2))

  /** Construction fails with an AttributeError on the never-assigned `self._cc`. */
  datatype InitError = MissingAttribute(name: string)

  predicate HasModeFlag(mode: string) { mode == "f" || mode == "h" || mode == "hh" }

  function ModeFlags(o: Options): seq<string>
  {
    if HasModeFlag(o.compressionMode) then ["-" + o.compressionMode] else []
  }

  function PairFlags(o: Options): seq<string>
  {
    if o.pairUnassigned then ["--pair-unassigned-chans"] else []
  }

  /**
    `base_enc_cmd` as `__init__` builds it. With a hybrid factor the code goes
    on to read `self._cc`, which nothing assigns, so construction fails.
   */
  function EncodeBase(o: Options, t: Toolchain): (r: Result<seq<string>, InitError>)
    ensures r.Failure? <==> o.hybridFactor.Some?
    ensures r.Failure? ==> r.error == MissingAttribute("_cc")
    ensures r.Success? ==> r.value == EncodeBaseFixed(o, t)
  {
    if o.hybridFactor.Some? then Failure(MissingAttribute("_cc"))
    else Success([t.wavpack, "-y"] + ModeFlags(o) + PairFlags(o))
  }

  /** `base_enc_cmd` with `self.cc` read where `self._cc` is written. */
  function EncodeBaseFixed(o: Options, t: Toolchain): seq<string>
  {
    [t.wavpack, "-y"] + ModeFlags(o)
    + HybridFlags(o) + CcFlags(o) + PairFlags(o)
  }

  function BlockSizeArg(nsamples: nat): string
  {
    "--blocksize=" + NatToText(Min(nsamples, MaxBlockSize))
  }

  function RawPcmArg(rate: int, bits: nat, chans: nat): string
  {
    "--raw-pcm=" + Join([IntToText(rate), NatToText(bits), NatToText(chans)], ',')
  }

  const PipeMarkers: seq<string> := ["-q", "-", "-o", "-"]

  /**
    What one `encode` call appends to the command for prepared data of
    `nsamples` rows, `nchans` columns and `itemsize`-byte elements.
   */
  function EncodeSuffix(o: Options, nsamples: nat, nchans: nat, itemsize: nat): seq<string>
  {
    (if o.setBlockSize then [BlockSizeArg(nsamples)] else [])
    + [RawPcmArg(o.sampleRate, itemsize * 8, nchans)]
    + PipeMarkers
  }

  /** The command one encode call should run: the base and one suffix. */
  function EncodeCommand(o: Options, t: Toolchain, nsamples: nat, nchans: nat, itemsize: nat): seq<string>
  {
    EncodeBaseFixed(o, t) + EncodeSuffix(o, nsamples, nchans, itemsize)
  }

  function DecodeBase(t: Toolchain): seq<string> { [t.wvunpack, "-y", "-q"] }

  const DecodeSuffix: seq<string> := ["--raw", "-", "-o", "-"]

  /** The command one decode call should run. */
  function DecodeCommand(t: Toolchain): (cmd: seq<string>)
    ensures cmd == [t.wvunpack, "-y", "-q", "--raw", "-", "-o", "-"]
  {
    DecodeBase(t) + DecodeSuffix
  }

  // ---------------------------------------------------------------------------
  // Reading a command line back

  /** What an encoder command line asks of the `wavpack` tool. */
  datatype EncodeRequest = EncodeRequest(
    program: string,
    mode: Option<string>,
    bitrate: Option<string>,
    cc: bool,
    pair: bool,
    blockSize: Option<nat>,
    rate: int,
    bits: nat,
    chans: nat)

  /** `--raw-pcm=` descriptor fields: rate, bits, channels. */
  function ParseRawPcm(arg: string): Option<(int, nat, nat)>
  {
    if !("--raw-pcm=" <= arg) then None
    else
      var fields := Split(arg[10..], ',');
      if |fields| != 3 then None
      else
        match (ParseInt(fields[0]), ParseNat(fields[1]), ParseNat(fields[2]))
        case (Some(rate), Some(bits), Some(chans)) => Some((rate, bits, chans))
        case _ => None
  }

  /** An optional mode flag `-f`, `-h` or `-hh`. */
  function ParseMode(f: seq<string>): (Option<string>, seq<string>)
  {
    if |f| > 0 && (f[0] == "-f" || f[0] == "-h" || f[0] == "-hh") then (Some(f[0][1..]), f[1..])
    else (None, f)
  }

  /** An optional `-b<factor>`. */
  function ParseBitrate(f: seq<string>): (Option<string>, seq<string>)
  {
    if |f| > 0 && "-b" <= f[0] then (Some(f[0][2..]), f[1..]) else (None, f)
  }

  /** An optional `-cc`, read only after a `-b<factor>`. */
  function ParseCc(afterBitrate: bool, f: seq<string>): (bool, seq<string>)
  {
    if afterBitrate && |f| > 0 && f[0] == "-cc" then (true, f[1..]) else (false, f)
  }

  /** An optional `--pair-unassigned-chans`. */
  function ParsePair(f: seq<string>): (bool, seq<string>)
  {
    if |f| > 0 && f[0] == "--pair-unassigned-chans" then (true, f[1..]) else (false, f)
  }

  /** An optional `--blocksize=<n>` and then exactly one raw-PCM descriptor. */
  function ParseTail(f: seq<string>): Option<(Option<nat>, (int, nat, nat))>
  {
    if |f| == 2 && "--blocksize=" <= f[0] then
      match (ParseNat(f[0][12..]), ParseRawPcm(f[1]))
      case (Some(n), Some(d)) => Some((Some(n), d))
      case _ => None
    else if |f| == 1 then
      match ParseRawPcm(f[0])
      case Some(d) => Some((None, d))
      case None => None
    else None
  }

  /**
    Reads, in this order: program, `-y`, an optional mode flag, an optional
    `-b<factor>` followed by an optional `-cc`, an optional pairing flag, an
    optional block size, one raw-PCM descriptor and the pipe markers.
   */
  function ParseEncodeCommand(args: seq<string>): Option<EncodeRequest>
  {
    if |args| < 7 || args[1] != "-y" || args[|args| - 4..] != PipeMarkers then None
    else ParseFlags(args[0], args[2..|args| - 4])
  }

  function ParseFlags(program: string, f0: seq<string>): Option<EncodeRequest>
  {
      var (mode, f1) := ParseMode(f0);
      var (bitrate, f2) := ParseBitrate(f1);
      var (cc, f3) := ParseCc(bitrate.Some?, f2);
      var (pair, f4) := ParsePair(f3);
      match ParseTail(f4)
      case None => None
      case Some((block, (rate, bits, chans))) =>
        Some(EncodeRequest(program, mode, bitrate, cc, pair, block, rate, bits, chans))
  }

  lemma ParseRawPcmArg(rate: int, bits: nat, chans: nat)
    ensures ParseRawPcm(RawPcmArg(rate, bits, chans)) == Some((rate, bits, chans))
  {
    var parts := [IntToText(rate), NatToText(bits), NatToText(chans)];
    NoCommaInNumber(rate);
    NoCommaInNumber(bits);
    NoCommaInNumber(chans);
    SplitJoin(parts, ',');
    var arg := RawPcmArg(rate, bits, chans);
    assert arg[10..] == Join(parts, ',');
    ParseIntToText(rate);
    ParseNatToText(bits);
    ParseNatToText(chans);
  }

  /** Every argument after the pairing position is a long option (`--...`). */
  predicate IsLongOption(arg: string) { |arg| >= 3 && arg[0] == '-' && arg[1] == '-' }

  function TailArgs(o: Options, nsamples: nat, nchans: nat, itemsize: nat): seq<string>
  {
    (if o.setBlockSize then [BlockSizeArg(nsamples)] else []) + [RawPcmArg(o.sampleRate, itemsize * 8, nchans)]
  }

  lemma ParseTailArgs(o: Options, nsamples: nat, nchans: nat, itemsize: nat)
    ensures ParseTail(TailArgs(o, nsamples, nchans, itemsize)) == Some((
      if o.setBlockSize then Some(Min(nsamples, MaxBlockSize)) else None,
      (o.sampleRate, itemsize * 8, nchans)))
  {
    var raw := RawPcmArg(o.sampleRate, itemsize * 8, nchans);
    if o.setBlockSize {
      ParseBlockAndRaw(nsamples, raw, (o.sampleRate, itemsize * 8, nchans));
      assert TailArgs(o, nsamples, nchans, itemsize) == [BlockSizeArg(nsamples), raw];
    } else {
      ParseRawOnly(raw, (o.sampleRate, itemsize * 8, nchans));
      assert TailArgs(o, nsamples, nchans, itemsize) == [raw];
    }
  }

  lemma TailArgsAreLongOptions(o: Options, nsamples: nat, nchans: nat, itemsize: nat)
    ensures IsLongOption(TailArgs(o, nsamples, nchans, itemsize)[0])
    ensures TailArgs(o, nsamples, nchans, itemsize)[0] != "--pair-unassigned-chans"
  {
    var raw := RawPcmArg(o.sampleRate, itemsize * 8, nchans);
    assert raw[2] == 'r';
    if o.setBlockSize {
      assert BlockSizeArg(nsamples)[2] == 'b';
    }
  }

  lemma ParseRawOnly(raw: string, d: (int, nat, nat))
    requires raw == RawPcmArg(d.0, d.1, d.2)
    ensures ParseTail([raw]) == Some((None, d))
  {
    ParseRawPcmArg(d.0, d.1, d.2);
    assert raw[2] == 'r';
    assert !("--blocksize=" <= raw);
  }

  lemma ParseBlockAndRaw(nsamples: nat, raw: string, d: (int, nat, nat))
    requires raw == RawPcmArg(d.0, d.1, d.2)
    ensures ParseTail([BlockSizeArg(nsamples), raw]) == Some((Some(Min(nsamples, MaxBlockSize)), d))
  {
    ParseRawPcmArg(d.0, d.1, d.2);
    var arg := BlockSizeArg(nsamples);
    assert "--blocksize=" <= arg;
    assert arg[12..] == NatToText(Min(nsamples, MaxBlockSize));
    ParseNatToText(Min(nsamples, MaxBlockSize));
  }

  lemma ParsePairArgs(o: Options, tail: seq<string>)
    requires |tail| > 0 && IsLongOption(tail[0]) && tail[0] != "--pair-unassigned-chans"
    ensures ParsePair(PairFlags(o) + tail) == (o.pairUnassigned, tail)
    ensures IsLongOption((PairFlags(o) + tail)[0])
  {
    if o.pairUnassigned {
      assert (PairFlags(o) + tail)[1..] == tail;
    } else {
      assert PairFlags(o) + tail == tail;
    }
  }

  function HybridFlags(o: Options): seq<string>
  {
    if o.hybridFactor.Some? then ["-b" + o.hybridFactor.value] else []
  }

  function CcFlags(o: Options): seq<string>
  {
    if o.hybridFactor.Some? && o.cc then ["-cc"] else []
  }

  lemma ParseCcArgs(o: Options, tail: seq<string>)
    requires |tail| > 0 && IsLongOption(tail[0])
    ensures ParseCc(o.hybridFactor.Some?, CcFlags(o) + tail) == (o.hybridFactor.Some? && o.cc, tail)
  {
    if o.hybridFactor.Some? && o.cc {
      assert (["-cc"] + tail)[1..] == tail;
    } else {
      assert CcFlags(o) + tail == tail;
      assert "-cc"[1] == 'c';
      assert tail[0] != "-cc";
    }
  }

  lemma ParseBitrateArgs(o: Options, tail: seq<string>)
    requires |tail| > 0
    requires o.hybridFactor.None? ==> IsLongOption(tail[0])
    ensures ParseBitrate(HybridFlags(o) + tail) == (o.hybridFactor, tail)
  {
    if o.hybridFactor.Some? {
      var arg := "-b" + o.hybridFactor.value;
      assert arg[2..] == o.hybridFactor.value;
      assert ([arg] + tail)[1..] == tail;
    } else {
      assert HybridFlags(o) + tail == tail;
      assert tail[0][1] == '-';
      assert !("-b" <= tail[0]);
    }
  }

  lemma ParseModeArgs(o: Options, tail: seq<string>)
    requires |tail| > 0 && |tail[0]| >= 2 && (tail[0][1] == 'b' || tail[0][1] == '-')
    ensures ParseMode(ModeFlags(o) + tail)
      == (if HasModeFlag(o.compressionMode) then Some(o.compressionMode) else None, tail)
  {
    if HasModeFlag(o.compressionMode) {
      var arg := "-" + o.compressionMode;
      assert arg[1..] == o.compressionMode;
      assert (ModeFlags(o) + tail)[1..] == tail;
    } else {
      assert ModeFlags(o) + tail == tail;
      assert tail[0] != "-f" && tail[0] != "-h" && tail[0] != "-hh";
    }
  }

  /** The flags an encode command carries between `-y` and the pipe markers. */
  function FlagArgs(o: Options, nsamples: nat, nchans: nat, itemsize: nat): seq<string>
  {
    ModeFlags(o) + HybridFlags(o) + CcFlags(o) + PairFlags(o) + TailArgs(o, nsamples, nchans, itemsize)
  }

  lemma EncodeCommandShape(o: Options, t: Toolchain, nsamples: nat, nchans: nat, itemsize: nat)
    ensures EncodeCommand(o, t, nsamples, nchans, itemsize)
      == [t.wavpack, "-y"] + FlagArgs(o, nsamples, nchans, itemsize) + PipeMarkers
  {
    var head := [t.wavpack, "-y"];
    var flags := ModeFlags(o) + HybridFlags(o) + CcFlags(o) + PairFlags(o);
    var tail := TailArgs(o, nsamples, nchans, itemsize);
    assert EncodeBaseFixed(o, t) == head + flags;
    assert EncodeSuffix(o, nsamples, nchans, itemsize) == tail + PipeMarkers;
    assert (head + flags) + (tail + PipeMarkers) == (head + (flags + tail)) + PipeMarkers;
  }

  /** The flags between `-y` and the pipe markers say exactly what the options and data say. */
  lemma ParseFlagsInverts(o: Options, program: string, nsamples: nat, nchans: nat, itemsize: nat)
    ensures ParseFlags(program, FlagArgs(o, nsamples, nchans, itemsize))
      == Some(Requested(o, program, nsamples, nchans, itemsize))
  {
    var f4 := TailArgs(o, nsamples, nchans, itemsize);
    var f3 := PairFlags(o) + f4;
    var f2 := CcFlags(o) + f3;
    var f1 := HybridFlags(o) + f2;
    FlagArgsNested(o, nsamples, nchans, itemsize);
    ParseTailArgs(o, nsamples, nchans, itemsize);
    TailArgsAreLongOptions(o, nsamples, nchans, itemsize);
    ParsePairArgs(o, f4);
    ParseCcArgs(o, f3);
    if o.hybridFactor.Some? {
      assert f1[0] == "-b" + o.hybridFactor.value;
    } else {
      assert f1 == f2 == f3;
    }
    ParseBitrateArgs(o, f2);
    ParseModeArgs(o, f1);
  }

  /** The flag groups of an encode command, each in front of the rest. */
  lemma FlagArgsNested(o: Options, nsamples: nat, nchans: nat, itemsize: nat)
    ensures FlagArgs(o, nsamples, nchans, itemsize)
      == ModeFlags(o) + (HybridFlags(o) + (CcFlags(o) + (PairFlags(o) + TailArgs(o, nsamples, nchans, itemsize))))
  {
    var m, h, c, p := ModeFlags(o), HybridFlags(o), CcFlags(o), PairFlags(o);
    var t := TailArgs(o, nsamples, nchans, itemsize);
    calc {
      (((m + h) + c) + p) + t;
      ((m + h) + c) + (p + t);
      (m + h) + (c + (p + t));
      m + (h + (c + (p + t)));
    }
  }

  /** The request an encode command for these options and this data conveys. */
  function Requested(o: Options, program: string, nsamples: nat, nchans: nat, itemsize: nat): EncodeRequest
  {
    EncodeRequest(
      program,
      if HasModeFlag(o.compressionMode) then Some(o.compressionMode) else None,
      o.hybridFactor,
      o.hybridFactor.Some? && o.cc,
      o.pairUnassigned,
      if o.setBlockSize then Some(Min(nsamples, MaxBlockSize)) else None,
      o.sampleRate,
      itemsize * 8,
      nchans)
  }

  /**
    The argument list built for a call asks the tool for exactly what the
    options and the data say: the mode flag only for f/h/hh, the bit rate and
    `-cc` only in hybrid mode, the block size min(nsamples, 131072) only when
    asked, and the sample rate, 8 * itemsize bits and the channel count.
   */
  lemma ParseEncodeCommandInverts(o: Options, t: Toolchain, nsamples: nat, nchans: nat, itemsize: nat)
    ensures ParseEncodeCommand(EncodeCommand(o, t, nsamples, nchans, itemsize))
      == Some(Requested(o, t.wavpack, nsamples, nchans, itemsize))
  {
    var args := EncodeCommand(o, t, nsamples, nchans, itemsize);
    var flags := FlagArgs(o, nsamples, nchans, itemsize);
    EncodeCommandShape(o, t, nsamples, nchans, itemsize);
    assert args[1] == "-y";
    assert args[2..|args| - 4] == flags;
    assert args[|args| - 4..] == PipeMarkers;
    ParseFlagsInverts(o, t.wavpack, nsamples, nchans, itemsize);
  }

  // ---------------------------------------------------------------------------
  // Persisted configuration

  /** A value of the `get_config` dictionary. */
  datatype ConfigValue =
    | Text(text: string)
    | Flag(flag: bool)
    | Integer(number: int)
    | Number(repr: string)
    | NoneValue
    | DTypeValue(dtype: DType)

  const ConfigKeys: set<string> := {"id", "compression_mode", "cc", "hybrid_factor",
    "pair_unassigned", "set_block_size", "sample_rate", "dtype"}

  /** `get_config`: the codec id and every constructor argument under its own name. */
  function GetConfig(o: Options): (m: map<string, ConfigValue>)
    ensures m.Keys == ConfigKeys
    ensures m["id"] == Text(CodecId)
  {
    map[
      "id" := Text(CodecId),
      "compression_mode" := Text(o.compressionMode),
      "cc" := Flag(o.cc),
      "hybrid_factor" := if o.hybridFactor.Some? then Number(o.hybridFactor.value) else NoneValue,
      "pair_unassigned" := Flag(o.pairUnassigned),
      "set_block_size" := Flag(o.setBlockSize),
      "sample_rate" := Integer(o.sampleRate),
      "dtype" := DTypeValue(o.dtype)]
  }

  /**
    `cls(**config)` without the `id` key: each key given sets the constructor
    argument of that name, a missing key keeps its default, an unknown key or
    a value of another shape is refused.
   */
  function FromConfig(m: map<string, ConfigValue>): Option<Options>
  {
    if !(m.Keys <= ConfigKeys) then None
    else
      var mode := if "compression_mode" in m then m["compression_mode"] else Text(DefaultOptions.compressionMode);
      var cc := if "cc" in m then m["cc"] else Flag(DefaultOptions.cc);
      var hybrid := if "hybrid_factor" in m then m["hybrid_factor"] else NoneValue;
      var pair := if "pair_unassigned" in m then m["pair_unassigned"] else Flag(DefaultOptions.pairUnassigned);
      var block := if "set_block_size" in m then m["set_block_size"] else Flag(DefaultOptions.setBlockSize);
      var rate := if "sample_rate" in m then m["sample_rate"] else Integer(DefaultOptions.sampleRate);
      var dtype := if "dtype" in m then m["dtype"] else DTypeValue(DefaultOptions.dtype);
      if mode.Text? && cc.Flag? && (hybrid.Number? || hybrid.NoneValue?) && pair.Flag?
        && block.Flag? && rate.Integer? && dtype.DTypeValue?
      then
        Some(Options(mode.text, if hybrid.Number? then Some(hybrid.repr) else None, cc.flag,
          pair.flag, block.flag, rate.number, dtype.dtype))
      else None
  }

  /** A codec rebuilt from its persisted configuration has the same options. */
  lemma ConfigRoundTrip(o: Options)
    ensures FromConfig(GetConfig(o)) == Some(o)
  {
    var m := GetConfig(o);
    assert m["compression_mode"] == Text(o.compressionMode);
    assert m["cc"] == Flag(o.cc);
    assert m["pair_unassigned"] == Flag(o.pairUnassigned);
    assert m["set_block_size"] == Flag(o.setBlockSize);
    assert m["sample_rate"] == Integer(o.sampleRate);
    assert m["dtype"] == DTypeValue(o.dtype);
  }

  /** Two codecs with equal persisted configurations build identical commands. */
  lemma SameConfigSameCommands(o1: Options, o2: Options, t: Toolchain, nsamples: nat, nchans: nat, itemsize: nat)
    requires GetConfig(o1) == GetConfig(o2)
    ensures EncodeBase(o1, t) == EncodeBase(o2, t)
    ensures EncodeCommand(o1, t, nsamples, nchans, itemsize) == EncodeCommand(o2, t, nsamples, nchans, itemsize)
  {
    ConfigRoundTrip(o1);
    ConfigRoundTrip(o2);
  }

  /** The two ways of building the base agree whenever construction succeeds. */
  lemma HybridFactorBreaksConstruction(o: Options, t: Toolchain)
    requires o.hybridFactor.Some?
    ensures EncodeBase(o, t).Failure?
    ensures "-b" + o.hybridFactor.value in EncodeBaseFixed(o, t)
  {
    var modes := ModeFlags(o);
    assert EncodeBaseFixed(o, t)[2 + |modes|] == "-b" + o.hybridFactor.value;
  }
}
