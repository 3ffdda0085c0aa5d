# WavPack codec adapter — a Dafny model

This project models the core of `wavpack_numcodecs`, a numcodecs codec that compresses numeric arrays with WavPack, together with the C drivers it ships for in-memory WavPack coding. Three parts are covered:

- **`WavPackPipesCodec`** (`wavpack_numcodecs/wavpack.py`). This is the codec object. It builds the command lines of the bundled `wavpack` / `wvunpack` executables from its options, and lays an array out as samples × channels with at most 1024 channels. It pipes the raw bytes through the encoder, and reads the decoder's output back as a flat array of the configured dtype. It can also save and restore its configuration.
- **In-memory decoding** (`wavpack_cython/wavpack_cython/decoder.c`). This covers the reader context and the `raw_*` callbacks that the WavPack library reads its input through, including the one-byte push-back. It also covers the frame loop of `WavpackDecodeFile`, which copies 256-frame batches into a 16-bit output buffer.
- **In-memory encoding** (`wavpack_cython/wavpack_cython/encoder.c`). This covers the bounded writer context that `write_block` fills, with its sticky overflow flag. It also covers the configuration `WavpackEncodeFile` hands the library, the staging of 256-frame batches and the rule that decides the return value.

Modules:

- `Wrappers`: `Option`, `Result`, `Min`, slicing and `memcpy`.
- `Text`: decimal rendering as f-strings do it, with its parser, and comma join/split.
- `Layout`: `_prepare_data`, `tobytes`, `frombuffer` and `reshape`.
- `Commands`: the argument lists, a parser that reads an encoder command line back, and `get_config` / `from_config`.
- `PipesCodec`: the codec class.
- `Decoder`: the `decoder.c` reader and decode loop.
- `Encoder`: the `encoder.c` writer and encode loop.

The external executables are a parameter `run(cmd, stdin) -> stdout`. The WavPack library is an oracle value: `Unpacker` for decoding, `Packer` for encoding. The oracle reports what each library call returns and, for encoding, which blocks it hands to `write_block`.

## Model

| member | source | states |
|---|---|---|
| Layout.PrepareData | wavpack_numcodecs/wavpack.py:93-108 | The dtype kind must be i/u/f and the dtype must equal the configured one. Each is its own failure, and success happens exactly when both hold. The result is always 2-D with at most 1024 columns, has the same elements in the same order and the same element count. The input comes back unchanged exactly when it is 2-D with at most 1024 columns; otherwise the result is one column holding every element. |
| Layout.PrepareVector | wavpack_numcodecs/wavpack.py:97-98 | A rank-1 array of length N becomes an N × 1 array with the same elements. |
| Layout.ChannelCeilingBoundary | wavpack_numcodecs/wavpack.py:102-105 | 1024 columns pass through unchanged; 1025 columns are flattened into one column. |
| Layout.PrepareThenReshape | wavpack_numcodecs/wavpack.py:97-107 | Reshaping the prepared data to the input's shape gives the input back: nothing is lost or reordered. |
| Layout.ToBytesLength | wavpack_numcodecs/wavpack.py:123 | `tobytes()` of n elements of itemsize bytes is n · itemsize bytes long. |
| Layout.FromBuffer | wavpack_numcodecs/wavpack.py:135 | `frombuffer` succeeds exactly when the item size is positive and divides the length. It then yields items of that size whose bytes, concatenated, are the buffer. |
| Layout.FromBufferToBytes | wavpack_numcodecs/wavpack.py:123-135 | `frombuffer` is the inverse of `tobytes` for items of one size. |
| Layout.Reshape | tests/test_wavpackcodec.py:24 | numpy's `reshape` as the caller applies it to the decoded flat array: it succeeds exactly when the shape's product is the element count, and it keeps the elements and the dtype. |
| Text.NatToText | wavpack_numcodecs/wavpack.py:118-120 | The f-string rendering of a natural number is a nonempty digit string with no leading zero except for 0 itself. |
| Text.ParseNatToText | wavpack_numcodecs/wavpack.py:118-120 | Parsing the rendering of n gives back n. |
| Text.ParseIntToText | wavpack_numcodecs/wavpack.py:120 | Parsing the rendering of a (possibly negative) sample rate gives it back. |
| Text.SplitJoin | wavpack_numcodecs/wavpack.py:120 | Splitting at commas undoes joining with commas, when no field contains a comma. |
| Text.NoCommaInNumber | wavpack_numcodecs/wavpack.py:120 | A rendered integer contains no comma, so the fields of `--raw-pcm=` can be told apart. |
| Commands.EncodeBase | wavpack_numcodecs/wavpack.py:66-75 | `base_enc_cmd` as written: it fails with a missing `_cc` attribute exactly when a hybrid factor is given. Otherwise it equals the intended base. |
| Commands.HybridFactorBreaksConstruction | wavpack_numcodecs/wavpack.py:69-72 | Every hybrid configuration fails to construct as written, although the intended base would carry `-b<factor>`. |
| Commands.DecodeCommand | wavpack_numcodecs/wavpack.py:129-132 | One decode call runs `wvunpack -y -q --raw - -o -`. |
| Commands.ParseEncodeCommandInverts | wavpack_numcodecs/wavpack.py:66-121 | Reading back the intended encode command yields exactly the configured request. The mode flag appears only for f/h/hh. `-b` and `-cc` appear only in hybrid mode, and `-cc` only with `cc`. The block size min(rows, 131072) appears only when `set_block_size` is on. The descriptor holds the sample rate, 8 · itemsize bits and the column count. |
| Commands.ParseFlagsInverts | wavpack_numcodecs/wavpack.py:66-121 | The flags between `-y` and the pipe markers parse back into the configured request. |
| Commands.EncodeCommandShape | wavpack_numcodecs/wavpack.py:66-121 | The encode command is the program, `-y`, the option flags, then `-q - -o -`. |
| Commands.ParseRawPcmArg | wavpack_numcodecs/wavpack.py:120 | The `--raw-pcm=rate,bits,chans` descriptor parses back into its three numbers. |
| Commands.ParseTailArgs | wavpack_numcodecs/wavpack.py:116-120 | The optional `--blocksize=` and the descriptor parse back into min(rows, 131072) and the descriptor's numbers. |
| Commands.TailArgsAreLongOptions | wavpack_numcodecs/wavpack.py:116-120 | The arguments appended per call are `--` long options, so they cannot be mistaken for the short flags of the base. |
| Commands.GetConfig | wavpack_numcodecs/wavpack.py:80-91 | The configuration holds exactly the codec id and the seven constructor arguments, with id "wavpackpipe". |
| Commands.ConfigRoundTrip | wavpack_numcodecs/wavpack.py:80-91 | Rebuilding a codec from its configuration gives the same options. |
| Commands.SameConfigSameCommands | wavpack_numcodecs/wavpack.py:34-91 | Equal configurations build identical encode commands and the same construction outcome. |
| PipesCodec.Create | wavpack_numcodecs/wavpack.py:34-78 | Construction fails exactly on the hybrid path, with the missing `_cc` attribute. Otherwise it yields a fresh codec with the given options, the intended encode base and `wvunpack -y -q`. |
| PipesCodec.WavPackPipesCodec.constructor | wavpack_numcodecs/wavpack.py:57-78 | The codec starts with the options, the base commands and no call history. |
| PipesCodec.WavPackPipesCodec.Encode | wavpack_numcodecs/wavpack.py:110-126 | A rejected input fails before the stored command changes. Otherwise the stored encode command grows by this call's suffix, and the encoder is run with the grown stored command on the array's bytes. The decode side is untouched, and the invariant describing the stored commands after any history is kept. |
| PipesCodec.WavPackPipesCodec.ExtendEncodeCommand | wavpack_numcodecs/wavpack.py:116-121 | The `cmd +=` statements append block size, descriptor and pipe markers to the stored list, and nothing else changes. |
| PipesCodec.WavPackPipesCodec.Decode | wavpack_numcodecs/wavpack.py:128-140 | The stored decode command grows by `--raw - -o -`, the decoder runs with it, and its output is read as a flat array of the configured dtype. |
| PipesCodec.DecodeOutput | wavpack_numcodecs/wavpack.py:135 | It fails exactly when the output length is not a whole number of items. Otherwise it is a well-formed 1-D array of the configured dtype whose bytes are the output. |
| PipesCodec.StoredEncodeCommandAccumulates | wavpack_numcodecs/wavpack.py:111-121 | The arguments appended to the stored base after k encode calls carry exactly k raw-PCM descriptors. |
| PipesCodec.EncodeCommandHasOneDescriptor | wavpack_numcodecs/wavpack.py:116-121 | The intended per-call command is the base plus one suffix carrying exactly one descriptor. |
| PipesCodec.StoredDecodeCommandAccumulates | wavpack_numcodecs/wavpack.py:129-132 | After n decode calls the stored command has 3 + 4n arguments, and from the second call on it is not the intended decode command. |
| PipesCodec.LosslessRoundTrip | wavpack_numcodecs/wavpack.py:110-140 | If the tools are lossless on the raw bytes, decoding what encode produced gives the input's elements as a flat array of its dtype, and reshaping to the input's shape gives the input back. |
| PipesCodec.FreshCodecRoundTrip | wavpack_numcodecs/wavpack.py:34-140 | On a fresh codec without a hybrid factor, one `encode` runs the intended encode command and one `decode` the intended decode command. With lossless external tools, the decoded flat array holds the input's elements in its dtype and reshapes back to the input. |
| Decoder.ReadBytesFacts | wavpack_cython/wavpack_cython/decoder.c:19-48 | A read returns at most `bcount` bytes, and fewer only when the buffer runs out. A pending pushed-back byte comes first and is consumed; the next unread buffer bytes follow in order. `total_bytes_read` advances by the buffer bytes taken, and a zero-byte read changes nothing. |
| Decoder.ReadSplit | wavpack_cython/wavpack_cython/decoder.c:19-48 | Reading a then b bytes hands back the same bytes and leaves the same state as reading a + b at once. |
| Decoder.ReaderContext.RawReadBytes | wavpack_cython/wavpack_cython/decoder.c:19-48 | The loop fills `data[..n]` with exactly the bytes the read specification gives, returns their count, leaves the rest of `data` alone and moves the context to the specified state. |
| Decoder.ReaderContext.RawGetPos | wavpack_cython/wavpack_cython/decoder.c:55-59 | The position is the count of buffer bytes consumed, which equals `total_bytes_read` and lies within the buffer. |
| Decoder.ReaderContext.RawPushBackByte | wavpack_cython/wavpack_cython/decoder.c:71-77 | The low byte of c waits in the slot, the flag is set and c is returned. |
| Decoder.PushBackThenRead | wavpack_cython/wavpack_cython/decoder.c:19-77 | After a push-back the next read starts with that byte and then reads on from the unchanged position. |
| Decoder.PushBackOverwrites | wavpack_cython/wavpack_cython/decoder.c:71-77 | The slot holds one byte: a second push-back replaces the first. |
| Decoder.StubCallbacks | wavpack_cython/wavpack_cython/decoder.c:50-92 | Writing, length, seek capability and closing report 0; both seeks report 1. |
| Decoder.ReaderContext.constructor | wavpack_cython/wavpack_cython/decoder.c:116-118 | The context starts at offset 0 with no pushed-back byte and nothing read. |
| Decoder.Request | wavpack_cython/wavpack_cython/decoder.c:141-143 | Each request is 256 frames, or exactly what is left of `max_samples` when that is less. It never passes `max_samples`. |
| Decoder.DecodeLoop | wavpack_cython/wavpack_cython/decoder.c:140-156 | The loop ends with a frame count between where it started and `max_samples`, and one sample per channel for every frame decoded. |
| Decoder.DecodesAvailable | wavpack_cython/wavpack_cython/decoder.c:140-156 | When the library delivers a stream of F frames, the loop decodes min(max_samples, F) frames. |
| Decoder.Narrow16 | wavpack_cython/wavpack_cython/decoder.c:152 | A 32-bit sample stored into `int16_t` lands in the 16-bit range and is unchanged when it already fits. |
| Decoder.CopyNarrowed | wavpack_cython/wavpack_cython/decoder.c:151-152 | The copy writes each sample narrowed at its place and leaves every other element of `destin` alone. |
| Decoder.DecodeFrames | wavpack_cython/wavpack_cython/decoder.c:140-156 | It returns the loop's frame count, at most `max_samples`. `destin` starts with all decoded samples narrowed to 16 bits, in order, and is unchanged after them. |
| Decoder.DecodeFile | wavpack_cython/wavpack_cython/decoder.c:106-161 | If the file does not open, or has a sample size other than 2 bytes, the result is -1 and `destin` is untouched. Otherwise the channel count is reported, `max_samples` is destin_bytes / 2 / channels, and the frame count and buffer are as the frame loop specifies. |
| Encoder.Write | wavpack_cython/wavpack_cython/encoder.c:18-34 | A block is accepted (1) exactly when there is a buffer, no earlier overflow and room for it, and it is then appended. Otherwise 0 is returned and nothing is written. An overflow is flagged exactly when a block does not fit. The written bytes never exceed the capacity. |
| Encoder.WriterContext.WriteBlock | wavpack_cython/wavpack_cython/encoder.c:18-34 | The object's state and return value are those of `Write`. Bytes past `bytes_used` are untouched. |
| Encoder.WriterContext.Deliver | wavpack_cython/wavpack_cython/encoder.c:18-34 | A sequence of `write_block` calls leaves the state of writing all its blocks in order. |
| Encoder.WriterContext.constructor | wavpack_cython/wavpack_cython/encoder.c:54-56 | The context starts empty with the given capacity and buffer. |
| Encoder.WriteAllOutcome | wavpack_cython/wavpack_cython/encoder.c:18-34 | Starting without overflow, a list of blocks overflows the buffer exactly when their total size does not fit. If it fits, the buffer holds them all in order. |
| Encoder.OverflowSticky | wavpack_cython/wavpack_cython/encoder.c:22-23 | Once overflowed, no later block changes anything. |
| Encoder.NoBufferWritesNothing | wavpack_cython/wavpack_cython/encoder.c:22-23 | Without a buffer nothing is written and no overflow is flagged. |
| Encoder.WriteAllAppend | wavpack_cython/wavpack_cython/encoder.c:18-34 | Writing two lists one after the other equals writing their concatenation. |
| Encoder.ConcatAppend | wavpack_cython/wavpack_cython/encoder.c:31-32 | The bytes of two lists of blocks are the bytes of each, in order. |
| Encoder.Outcome | wavpack_cython/wavpack_cython/encoder.c:139 | The result is -1 exactly on overflow, and otherwise `bytes_used`. |
| Encoder.HalveToLimit | wavpack_cython/wavpack_cython/encoder.c:71-74 | The block size never exceeds 120000. It is unchanged when already within the limit, and otherwise ends above 60000 and below the frame count. |
| Encoder.ClampBlockSamples | wavpack_cython/wavpack_cython/encoder.c:71-74 | The halving loop computes `HalveToLimit`. |
| Encoder.LevelTable | wavpack_cython/wavpack_cython/encoder.c:76-93 | Levels 1-4 are accepted and no other. Lossless mode keeps PAIR_UNDEF_CHANS, never sets HYBRID, sets FAST only for 1, HIGH for 3-4 and VERY_HIGH for 4, and gives distinct flags per level. A positive bps replaces every flag with HYBRID alone. |
| Encoder.Configure | wavpack_cython/wavpack_cython/encoder.c:65-93 | The configuration has 2 bytes and 16 bits per sample, the given channel count, a block size within 120000 and a bitrate only for positive bps. |
| Encoder.BatchesCover | wavpack_cython/wavpack_cython/encoder.c:109-127 | The batches add up to the frame count. Each has 1-256 frames and all but the last have 256. They are contiguous from the first frame. |
| Encoder.BatchesCarrySamples | wavpack_cython/wavpack_cython/encoder.c:109-127 | Together the batches carry exactly the source samples of those frames, in order. |
| Encoder.Stage | wavpack_cython/wavpack_cython/encoder.c:116-117 | The staging buffer receives exactly the next `samples_to_copy` source samples. |
| Encoder.StagingWindow | wavpack_cython/wavpack_cython/encoder.c:110-117 | `samples_to_encode` is the frame count of the next batch the staging loop hands over, `samples_to_copy` is that many frames of samples, and the window of `source` being copied holds exactly that batch's samples. |
| Encoder.StageAndPack | wavpack_cython/wavpack_cython/encoder.c:109-127 | The loop packs the batches in order and stops at the first failing call. It reports whether all succeeded, and the buffer holds the result of writing every block handed over up to then. |
| Encoder.PackAndFlush | wavpack_cython/wavpack_cython/encoder.c:109-139 | A pack failure or flush failure gives -1. Otherwise the result is the outcome rule applied after the flush's blocks. |
| Encoder.EncodeResult | wavpack_cython/wavpack_cython/encoder.c:109-139 | When every library call succeeds: without a buffer the result is 0. With a buffer, it is the total size of all blocks when they fit, and the buffer then starts with those blocks in order; otherwise it is -1. |
| Encoder.EncodeFile | wavpack_cython/wavpack_cython/encoder.c:45-140 | The return value and the bytes at the start of `destin` are those of the whole-run specification. At most `destin_bytes` are written and the rest of `destin` is untouched. |

## Left out

- Running the external executables (`subprocess.run`) is left out. The model takes a parameter `run(cmd, stdin) -> stdout`; the exit status and standard error are not modelled because the code ignores them.
- Choosing the executable paths by platform (`wavpack.py:17-27`) is left out. A `Toolchain` value holds the two paths. The `"macOS"` branch can never be taken, because `platform.system()` reports `"Darwin"`, so macOS runs the Windows paths.
- `ndarray_copy(dec, out)` (`wavpack.py:138`) is not part of this model: decode always returns the fresh flat array, which is the behaviour with `out=None`.
- Python `assert` statements are modelled as a `Failure` result. The model does not capture that `python -O` removes them.
- The WavPack library (`WavpackOpenFileInputEx64`, `WavpackUnpackSamples`, `WavpackOpenFileOutput`, `WavpackSetConfiguration`, `WavpackPackInit`, `WavpackPackSamples`, `WavpackFlushSamples`, `WavpackGetNumChannels`, `WavpackGetBytesPerSample`) is not part of this model. It is the `Unpacker` / `Packer` oracle. The decoder's reader callbacks are modelled but not tied to what the library reads through them.
- `malloc`, `free`, `fprintf`, `WavpackCloseFile` and the `error` text are left out. An allocation failure is not modelled.
- `size_t` results are plain integers, with `(size_t) -1` shown as -1. The `int` casts of frame counts in both loops and the `int32_t` `block_samples` are unbounded, so counts beyond 2^31 are not modelled.
- `bps` is a real number, with no `float` rounding. The sample rate is an integer, as `int(self.sample_rate)` makes it.
- The hybrid factor is modelled as the text `str()` renders for it, which is all the command uses.
- `Decoder.DecodeFile`: the number of channels goes back as a result instead of through the `num_chans` pointer, so the `num_chans == NULL` case is not distinguished. A null `destin` is not modelled; `destin` is an array.
- `Decoder.DecodeFile`: a library that reports 0 channels is excluded, since `destin_bytes / 2 / nch` would divide by zero in the source.
- The assignment at `encoder.c:26` has no effect, so it is not modelled.
- The reader's end pointer is an offset into a sequence, so pointer arithmetic and aliasing between `source` and `destin` are not modelled.
- The commented-out demo `main` of `decoder.c` (from line 163), `setup.py`, the tests and the Cython bindings are not part of this model.
- `wavpack_numcodecs/__init__.py` imports `WavPackCodec`, which `wavpack.py` does not define. Importing the package therefore fails as written; the class itself is modelled.
- Facts about the code that the model keeps as they are:
  - the code has no toolchain version probe and no 256-channel tier, so the ceiling is always 1024;
  - the descriptor flag is always `--raw-pcm=`, with no `-ex` variant and no `f` suffix for float data;
  - the exit status of the external tools is never checked;
  - decode returns a flat array and does not reshape it;
  - the configuration has a `cc` key and no `use_system_wavpack` or `debug` key;
  - the dtype is not validated at construction.
- `Layout.PrepareData`: a dtype is its kind letter and item size only; byte order is not modelled. An array in non-native byte order (such as `'>i2'` against `dtype="int16"` on a little-endian host) fails the check at `wavpack.py:96` in the source, but the model accepts it.
- `Decoder.Narrow16`: storing an `int32_t` that does not fit into `int16_t` (`decoder.c:152`) is implementation-defined in C. The model takes the two's-complement wrap that common compilers use.
- `Decoder.ReaderContext.RawReadBytes`: requires `0 <= bcount`. A negative `int32_t` count would be converted to `size_t` in the comparison at `decoder.c:36` and read the whole rest of the buffer; the library never passes a negative count, so that case is not modelled.

## Findings

| source | as written | input that shows it | evidently intended | confidence | as-written member | corrected member |
|---|---|---|---|---|---|---|
| wavpack_numcodecs/wavpack.py:111-121 | `cmd = self.base_enc_cmd` aliases the stored list, and `cmd += [...]` extends it in place, so every encode call appends to the stored base | any two `encode` calls on one codec: the second command carries two `--raw-pcm=` descriptors and two sets of pipe markers | a fresh command per call: the base plus one suffix | high (not executed) | PipesCodec.StoredEncodeCommandAccumulates | PipesCodec.EncodeCommandHasOneDescriptor |
| wavpack_numcodecs/wavpack.py:129-132 | `cmd = self.base_dec_cmd` aliases the stored list, so every decode call appends `--raw - -o -` to it | the second `decode` call runs `wvunpack -y -q --raw - -o - --raw - -o -` | `wvunpack -y -q --raw - -o -` on every call | high (not executed) | PipesCodec.StoredDecodeCommandAccumulates | Commands.DecodeCommand |
| wavpack_numcodecs/wavpack.py:71 | reads `self._cc`, which nothing assigns (`__init__` sets `self.cc`) | `WavPackPipesCodec(hybrid_factor=3)` raises AttributeError | read `self.cc` and append `-cc` in hybrid mode when requested | high (not executed) | Commands.HybridFactorBreaksConstruction | Commands.ParseEncodeCommandInverts |
