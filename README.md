# FIR filter over 16-bit WAV audio — a Dafny model

This project models the core of a small C program that reads a 16-bit PCM
WAV file, designs a windowed-sinc FIR filter (lowpass or highpass, with a
rectangular, Hamming, Hanning or Blackman window), convolves the samples
with it and writes the result back as a WAV file.

It has three modules:

- `FixedWidth` (`fixed_width.dfy`) holds the C integer semantics the program
  relies on:
  - the narrowing store into an `int16_t`, as two's-complement wrap-around;
  - truncating integer division;
  - the float-to-int cast;
  - the little-endian byte layout of `int16_t` and `int32_t`.
- `WavFile` (`wav_file.dfy`) covers `src/wav.h`:
  - the packed 36-byte `Header`, the 8-byte `Chunk` header and the `WAV`
    record;
  - `read_wav_file`, which reads the header, scans the chunk headers for
    "data" and reads the samples;
  - `save_wav_file`, which writes everything and then seeks back to patch
    the two length fields.

  A file is a sequence of bytes, and the `FILE*` cursor is a position in
  it.
- `Fir` (`fir.dfy`) covers `src/FIR.c`:
  - `convolve`, with int16 accumulation of per-tap truncated terms;
  - `lowpass_filter` and `highpass_filter`;
  - `compute_filter`;
  - `FIR_Filter`, which forces an odd filter size, designs the filter at the
    record's sample rate and convolves.

The step-by-step code of the source is written as methods with loops:

- `Convolve` (`convolve`), `ComputeFilter` (`compute_filter`) and
  `ReadSamples` (the sample loop of `read_wav_file`) fill a fresh array
  with loops and return its contents.
- `ScanChunks`, the chunk loop of `read_wav_file`, advances a cursor
  through the file. At each step it reads a chunk header and either stops
  at "data" or skips the chunk's payload. It returns the cursor position,
  or an error.
- `SaveWav` appends to a byte sequence and then overwrites its two length
  fields.

Each method is proved equal to a specification function:
`Convolution`, `FilterWeights`, `SamplesFrom`, `FindDataChunk` and `Saved`,
respectively. The properties are lemmas about those functions.

The model abstracts floating point:

- Filter weights are reals.
- `PI` is the source's literal `3.14159265358979`.
- `sin` and `cos` are parameters (`Fir.Trig`).
- The float product `data[i-j] * filter[j]` with its cast to `int16_t` is a
  parameter too (`Fir.Term`). Everything the convolution does with it is
  modelled exactly: one truncated term per tap, added into an `int16_t`
  that wraps.

## Model

| member | source | states |
|---|---|---|
| FixedWidth.Wrap16 | src/FIR.c:27 | storing an int into an int16_t yields the int16 congruent to it modulo 2^16, and the int itself when it is in range |
| FixedWidth.WrapAbsorbs | src/FIR.c:27 | adding into an already wrapped int16 accumulator wraps like adding to the exact total |
| FixedWidth.CDiv | src/wav.h:53 | C's `/` truncates toward zero: the magnitude is the floor of the magnitudes' quotient, and the sign is the dividend's |
| FixedWidth.Trunc | src/FIR.c:44 | the `(int)` cast truncates toward zero: floor bounds for a non-negative value, ceiling bounds for a negative one |
| FixedWidth.I16At | src/wav.h:61 | the int16_t value an fread stores from two bytes: low byte first, two's complement (its inverses are I16AtEncoded and EncodeI16At) |
| FixedWidth.I32At | src/wav.h:42-47 | the int32_t value an fread stores from four bytes: low byte first, two's complement (its inverses are I32AtEncoded and EncodeI32At) |
| FixedWidth.EncodeI16 | src/wav.h:14 | an int16_t occupies two little-endian bytes that decode back to it |
| FixedWidth.EncodeI32 | src/wav.h:10 | an int32_t occupies four little-endian bytes that decode back to it |
| FixedWidth.I32AtEncoded | src/wav.h:24 | the four bytes of an int32 decode back to it at any offset of a larger buffer |
| FixedWidth.I16AtEncoded | src/wav.h:31 | the two bytes of an int16 decode back to it at any offset |
| FixedWidth.EncodeI16At | src/wav.h:31 | any two bytes decode to an int16 that encodes back to those bytes: the little-endian decoding is a bijection |
| FixedWidth.EncodeI32At | src/wav.h:24 | any four bytes decode to an int32 that encodes back to those bytes |
| WavFile.EncodeHeader | src/wav.h:8-20 | the packed header occupies exactly 36 bytes |
| WavFile.EncodeChunk | src/wav.h:22-25 | the chunk header occupies exactly 8 bytes |
| WavFile.EncodeSamples | src/wav.h:80 | the sample array is written as two bytes per sample |
| WavFile.DecodeHeader | src/wav.h:42 | the fread of the header: each of the 11 fields taken, little-endian, from its fixed offset in bytes 0..35 |
| WavFile.DecodeHeaderInverse | src/wav.h:42 | every one of the 36 header bytes lands in a field: encoding the decoded header gives the bytes back |
| WavFile.DecodeChunk | src/wav.h:47 | the fread of a chunk header at the cursor: the id from bytes pos..pos+3, the int32 length from pos+4..pos+7 |
| WavFile.DecodeChunkInverse | src/wav.h:47 | encoding the decoded chunk header gives its eight bytes back |
| WavFile.HeaderRoundTrip | src/wav.h:8-20 | the 11 header fields are read back from the 36 bytes they occupy, whatever follows them |
| WavFile.HeaderOffsets | src/wav.h:8-20 | the RIFF length sits at bytes 4..7, sample_rate at 24..27 and bits_per_sample at 34..35 |
| WavFile.DataIdIsDataTag | src/wav.h:48 | the 32-bit test against 0x61746164 holds exactly when the four id bytes are "data" |
| WavFile.FindDataChunk | src/wav.h:46-50 | the scan returns a position at or after its start, where a whole chunk header fits and the id is "data"; otherwise it fails as no data chunk or a negative chunk length |
| WavFile.SamplesFrom | src/wav.h:56-62 | the sample buffer holds exactly no_samples values |
| WavFile.SampleAt | src/wav.h:57-61 | the sample at an offset: the int16 stored there when the file holds two bytes there, else the zero memset wrote |
| WavFile.SampleAtInverse | src/wav.h:57-61 | a sample the file holds re-encodes to its two bytes; one it does not hold is 0 |
| WavFile.ParseWav | src/wav.h:36-67 | a successful read has a sample count equal to the buffer length, the header decoded from bytes 0..35, 16-bit depth and a "data" chunk id |
| WavFile.ScanChunks | src/wav.h:46-50 | the cursor loop that skips chunks by their declared length returns what FindDataChunk specifies |
| WavFile.ReadSamples | src/wav.h:56-62 | the zeroed buffer filled sample by sample holds each sample the file contains, and 0 beyond the end of the file |
| WavFile.ReadWav | src/wav.h:36-67 | read_wav_file returns exactly ParseWav of the file's bytes, including every error case |
| WavFile.Overwrite | src/wav.h:84-89 | fseek followed by fwrite keeps the file length, puts the new bytes at the offset and leaves every other byte unchanged |
| WavFile.Unpatched | src/wav.h:77-80 | the bytes of the three fwrites: the in-memory header, chunk header and samples, before any length is patched (PatchedIsSaved relates it to Saved) |
| WavFile.Saved | src/wav.h:77-89 | the saved file is 44 + 2 * no_samples bytes: the header with the RIFF length patched, the chunk header with the data length patched, then the samples |
| WavFile.PatchDataLength | src/wav.h:83-85 | overwriting bytes 40..43 replaces the chunk's data length and nothing else |
| WavFile.PatchRiffLength | src/wav.h:87-89 | overwriting bytes 4..7 replaces the header's RIFF length and nothing else |
| WavFile.PatchedIsSaved | src/wav.h:77-89 | the unpatched file with bytes 40..43 and then 4..7 patched with length-44 and length-8 is the saved layout |
| WavFile.SaveWav | src/wav.h:69-94 | save_wav_file writes exactly Saved: the header with the true RIFF length, the chunk header with the true data length, then the samples |
| WavFile.SavedHeaderLayout | src/wav.h:82-89 | a saved file is 44 + 2n bytes long; bytes 4..7 hold length-8 and bytes 40..43 hold length-44; every other header byte is the record's, and bytes 36..39 are the chunk id |
| WavFile.SavedSampleBytes | src/wav.h:80 | sample i of a saved file sits at bytes 44+2i..45+2i |
| WavFile.SavedLayout | src/wav.h:80 | after the 44 header bytes, a saved file holds every sample in its own two bytes, in order |
| WavFile.SavedChunk | src/wav.h:83-85 | the chunk header read back at offset 36 is the record's, with the true data length |
| WavFile.DecodeEncodedSamples | src/wav.h:60-62 | samples written after any prefix are read back unchanged from the end of the prefix |
| WavFile.EncodeDecodedSamples | src/wav.h:59-62 | samples read from bytes the file holds encode back to exactly those bytes |
| WavFile.SavedSamples | src/wav.h:80 | the samples read back from offset 44 of a saved file are the record's |
| WavFile.RoundTrip | src/wav.h:36-94 | saving a valid 16-bit record with a "data" chunk and reading it back gives the same samples and count, the header with the patched RIFF length, and the chunk header with the true data length |
| WavFile.CanonicalFileParses | src/wav.h:36-67 | a file laid out as save_wav_file writes it (16-bit, RIFF length = length - 8, "data" chunk at 36 whose length is the rest of the file) is read with the data chunk at 36 and every remaining byte pair as a sample |
| WavFile.SavedWhenLengthsTrue | src/wav.h:77-89 | a record whose two length fields already hold the true lengths is saved exactly as the three fwrites left it: the patches change nothing |
| WavFile.CanonicalFileRoundTrip | src/wav.h:36-89 | the other round trip: such a file, read and then saved, is reproduced byte for byte |
| WavFile.SavedForeignChunkUnreadable | src/wav.h:46-50 | a record saved with a chunk id other than "data" cannot be read back: the scan skips its only chunk and finds no data chunk |
| WavFile.ListChunkSkipped | src/wav.h:46-50 | a 10-byte non-data chunk ahead of the data chunk is skipped by its declared length, and the data chunk is found at byte 54 |
| Fir.AccumulatedIsWrappedSum | src/FIR.c:22-28 | accumulating tap by tap into an int16_t equals one wrap of the exact sum of the truncated in-bounds terms |
| Fir.Accumulated | src/FIR.c:22-28 | result[i] after the taps j < k, adding only in-bounds taps (the corrected guard 0 <= i-j < data_size), each truncated term wrapped into the int16_t; an output whose taps all miss the data stays at its initial 0 |
| Fir.Convolution | src/FIR.c:17-18 | the output has data_size + filter_size - 1 samples |
| Fir.ConvolutionIsWrappedSum | src/FIR.c:20-29 | each output is the int16 wrap of the sum, over the taps whose sample lies in the data, of the truncated term |
| Fir.Convolve | src/FIR.c:15-31 | the nested loops over a fresh buffer compute exactly Convolution, using the corrected tap guard |
| Fir.ImpulseTermSum | src/FIR.c:24-28 | for a single sample, the sum at output i is that sample's term with weight i, or 0 past the filter |
| Fir.ImpulseResponse | src/FIR.c:15-31 | convolving a single sample returns the filter scaled by it, one truncated term per weight; an empty filter gives an empty output |
| Fir.SingleTap | src/FIR.c:15-31 | a one-tap filter keeps the length and scales each sample by the weight; empty data gives an empty output |
| Fir.GuardAsWrittenAdmits | src/FIR.c:25 | the guard as written admits exactly the in-bounds taps plus those with i - j == data_size |
| Fir.AsWrittenReadsPastEnd | src/FIR.c:25 | with two or more taps, some output and tap within the loop bounds pass the guard as written and read data[data_size] |
| Fir.AccumulatedAsWritten | src/FIR.c:22-28 | the same loop with the guard as written, reading the value past the end when i - j == data_size; an output whose taps are all rejected by that guard stays at 0 |
| Fir.AdmittedAsWritten | src/FIR.c:25 | the tap guard as written: a tap is taken unless i-j < 0 or i-j > data_size (GuardAsWrittenAdmits characterises it) |
| Fir.AccumulatedAsWrittenIsWrappedSum | src/FIR.c:24-28 | the as-written accumulator is the wrap of the in-bounds sum plus the one past-the-end term |
| Fir.AsWrittenPollutesTail | src/FIR.c:24-28 | the as-written accumulator is the corrected one plus the past-the-end term, wrapped |
| Fir.AsWrittenOutput | src/FIR.c:20-29 | the first data_size outputs of the code as written agree with Convolution; each later output carries one extra term from the value past the end |
| Fir.TruncHalf | src/FIR.c:44 | `(int)(m/2)` of a natural m is m / 2 |
| Fir.LowpassWeight | src/FIR.c:43-46 | lowpass_filter: 2*ft at the tap n == (int)(m/2), otherwise sin(2*PI*ft*d) / (PI*d) at distance d = n - m/2 (CenterTapWeights and SpectralInversion state its properties) |
| Fir.Sinc | src/FIR.c:45-50 | the off-centre expression sin(2*PI*ft*d) / (PI*d) shared by both weight functions, for d = n - m/2 |
| Fir.HighpassWeight | src/FIR.c:48-51 | highpass_filter: 1 - 2*ft at the tap n == m/2 (a real comparison), otherwise minus the lowpass sinc value |
| Fir.CenterTapUnique | src/FIR.c:43-51 | for an odd filter size, the lowpass test `n == (int)(m/2)` and the highpass test `n == m/2` both hold for exactly n = (size-1)/2 |
| Fir.EvenSizeCenterMismatch | src/FIR.c:43-51 | for an even size the lowpass test still picks the tap (size-2)/2, while the highpass test holds for no tap |
| Fir.CenterTapWeights | src/FIR.c:43-51 | the centre tap is 2*ft for lowpass and 1 - 2*ft for highpass |
| Fir.SpectralInversion | src/FIR.c:43-51 | for an odd size, every highpass weight is a unit impulse at the centre minus the lowpass weight |
| Fir.SincEven | src/FIR.c:45 | for an odd sin, the off-centre weight is the same at distances d and -d |
| Fir.KernelSymmetric | src/FIR.c:43-51 | for an odd size and an odd sin, the unwindowed weight of tap n equals that of tap m - n, for both filter types |
| Fir.WindowSymmetric | src/FIR.c:76-84 | for an idealised cos with cos(x) == cos(2*PI - x) and cos(x) == cos(4*PI - x), the Hamming, Hanning and Blackman coefficients of taps n and m - n agree |
| Fir.CutOffRatio | src/FIR.c:67 | ft is the quotient of the cut-off by the sampling frequency: ft * F_sampling == F_cut_off |
| Fir.FilterWeights | src/FIR.c:65 | the filter has filter_size weights |
| Fir.ComputeFilter | src/FIR.c:63-91 | the loop, which writes each weight and then multiplies it in place by the window, yields exactly FilterWeights |
| Fir.UnknownTypeIsLowpass | src/FIR.c:71-73 | any filter type other than "-highpass" designs the same filter as "-lowpass" |
| Fir.UnknownWindowIsRectangular | src/FIR.c:85-87 | any window other than the three tapering ones leaves every weight at its unwindowed value |
| Fir.Tapered | src/FIR.c:76-87 | the window strings that multiply the weights: exactly "-hamming", "-hanning" and "-blackman"; every other string falls to the rectangular branch |
| Fir.WindowCoefficient | src/FIR.c:76-84 | the factor of the Hamming, Hanning or Blackman window at tap n of a filter of order m |
| Fir.WindowCoefficientBounds | src/FIR.c:76-84 | for a cos within [-1, 1], the Hamming and Hanning factors lie in [0, 1] and the Blackman factor in [-0.16, 1] |
| Fir.Windowed | src/FIR.c:75-87 | the window pass on one weight: multiplied by the coefficient for a tapering window, left unchanged otherwise |
| Fir.WindowNeverAmplifies | src/FIR.c:75-87 | for a cos within [-1, 1], the window pass never increases a weight's magnitude |
| Fir.Kernel | src/FIR.c:71-73 | the unwindowed weight: highpass_filter on an exact "-highpass", lowpass_filter for every other string |
| Fir.Tap | src/FIR.c:69-87 | filter[n] after both statements of the loop body: the kernel weight passed through the window |
| Fir.FilterSymmetric | src/FIR.c:63-91 | for an odd sin, every odd-size filter compute_filter designs with the rectangular window is symmetric: weight n equals weight size-1-n; with a tapering window this needs the cos assumption of WindowSymmetric as well |
| Fir.MirroredTaps | src/FIR.c:69-87 | weights n and size-1-n agree when their kernel values and, for a tapering window, their window coefficients do |
| Fir.FilterSize | src/FIR.c:107-108 | the filter size is odd, and it is the requested length or one more |
| Fir.FirFilter | src/FIR.c:103-117 | FIR_Filter keeps the header and the chunk header, extends the sample count by filter_size - 1, and produces the convolution of the samples with the filter designed at the record's sample rate |
| Fir.QuarterRatio | src/FIR.c:67 | a cut-off at a quarter of the sampling frequency gives ft = 0.25 |
| Fir.FiveTapScenario | src/FIR.c:103-117 | 100 samples through a 5-tap lowpass rectangular filter at ft = 0.25 give 104 samples, and the centre weight is 0.5 |

## Left out

- Floating point is not modelled:
  - weights and ft are exact reals;
  - `sin` and `cos` are parameters;
  - the float product of a sample and a weight with its cast to `int16_t` is a parameter;
  - float rounding, the float/double mix of `lowpass_filter` and `highpass_filter`, and NaN and infinity are out of the model.
- Fir.HighpassWeight: `-1 * sin(x) / y` is written as `-1.0 * Sinc(...)`, which is the same value over the reals.
- Fir.KernelSymmetric: proved for any odd `sin`, which the real sine is.
- Fir.WindowSymmetric: symmetry is proved only for an idealised cos with `cos(x) == cos(2*PI - x)` and `cos(x) == cos(4*PI - x)`, where PI is the literal 3.14159265358979. The real cos is not such a function: the literal is not exactly π, so cos does not reflect about 2*PI. Even in exact arithmetic, the program's Hamming, Hanning and Blackman windows are symmetric only up to the error of the literal.
- Fir.FilterSymmetric: for the rectangular window (and any unrecognised window string), it needs only an odd `sin` and so holds for the real sine. For a tapering window it also takes the idealised-cos assumption of WindowSymmetric, which the real cos does not meet.
- Fir.ComputeFilter: requires `F_sampling != 0`, because the source divides by it.
- Fir.ComputeFilter: also excludes a tapering window at filter size 1. There m is 0 and `2*PI*n/m` is 0/0.
- Fir.FirFilter: requires `filter_length >= 0`, so that the buffer sizes are natural numbers.
- Fir.FirFilter: requires a non-zero sample rate and no tapering window at size 1, for the reasons given for ComputeFilter.
- Fir.Convolve, Fir.Convolution and Fir.Accumulated: use the corrected tap guard `0 <= i-j < data_size`. The guard as written is modelled by `Fir.AccumulatedAsWritten`. The value it reads past the end of the data is a parameter (`beyond`); see Findings.
- The int arithmetic of `len`, of the loop indices and of `no_samples += filter_size - 1` is unbounded: 32-bit overflow of those ints is not modelled.
- Buffer ownership is not modelled: the malloc'd buffers, the aliasing of `result.samples` with `audio.samples`, and memory leaks.
- WavFile.ReadWav: where the source misbehaves, the model returns an error instead:
  - a file shorter than 36 bytes: TruncatedHeader;
  - a scan that reaches the end of the file without a "data" chunk (an endless loop in the source): NoDataChunk;
  - a skipped chunk with a negative length (a seek backwards in the source): NegativeChunkSize;
  - a depth other than 16 bits (reads into a 16-bit slot, or a division by zero): UnsupportedDepth;
  - an overflow of `data_size * 8`: SampleCountOverflow;
  - a negative sample count: NegativeSampleCount.
- WavFile.ReadSamples: a sample that the file holds only partly stays 0, like the ones past the end. In the source fread may store the one byte the file holds, beside the zero memset wrote; the model does not split the bytes.
- WavFile.SaveWav: requires that the length of the saved file fits an int (`SaveFits`), as `ftell`'s result is stored in one.
- WavFile.SaveWav: the three fwrite calls are modelled as appends to an empty file, and the seek-and-write as `Overwrite`.
- I/O is left out:
  - a failure of `fopen` in either direction;
  - short reads and short writes;
  - `fclose`;
  - the `printf` reports.
- `main` is left out: argument parsing, the defaults, `atoi` and the fixed output path.
- The standard library is left out: `strcmp` on C strings is string equality on `seq<char>`.

## Findings

| source | as written | input that shows it | evidently intended | confidence | as-written member | corrected member |
|---|---|---|---|---|---|---|
| src/FIR.c:25 | the tap guard `(i-j < 0) \|\| (i-j > data_size)` lets `i-j == data_size` through, so `data[data_size]`, one past the end of the samples, is read and added into outputs data_size .. data_size+filter_size-2 | any data_size D with filter_size 2, at i = D, j = 0: `data[D]` is read (Fir.AsWrittenOutput gives the polluted outputs) | skip the tap when `i-j >= data_size`, so only samples inside the data contribute | not executed | Fir.AsWrittenReadsPastEnd | Fir.Convolve |
