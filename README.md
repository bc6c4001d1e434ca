# Signal visualizer: file-playback cursor and spectrum bookkeeping

A desktop tool shows an audio signal as a waveform, a single-sided spectrum and a
spectrogram. A 100 ms timer pulls each frame's chunk from one of two places: the live
microphone stream, or a WAV file that the user loaded into memory. This project models
the `SignalVisualizer` signal source as a Dafny class. The class has the flag `useFile`,
the optional buffer `fileData` of int16 samples, the optional `fileRate`, the cursor
`fileIndex` and the fixed `chunk` of 1024. Its methods stand for `load_file`,
`get_audio_chunk` and the rate selection and frequency-axis bookkeeping of `update_plot`.
Pure functions in `Playback` give the cursor rule. `Spectrum` gives the kept FFT bins and
their labels as exact rationals. The lemmas prove what repeated reads do.

Modules:
- `Samples`: the `Int16` sample type, `Option`, `Result`, and Python-style clamped slicing.
- `Playback`: one file read (`FileRead`), the cursor after k reads (`CursorAfter`), what k reads play (`Played`), and the lemmas about them.
- `Spectrum`: numpy's `fftfreq` at a rate (`FftFreq`), the kept labels (`FrequencyLabels`), the kept bins (`HalfSpectrum`), one frame's analysis with its error cases (`Analyse`).
- `Visualizer`: the classes `AudioStream` and `SignalVisualizer`.

The model follows the code as written, including three behaviours a reader might not expect:
- The end of a read's slice is computed before the cursor is reset (main.py:85-88). So a read that wraps returns the WHOLE buffer, not one chunk. It is not true that a file read always returns `chunk` samples when the buffer holds at least `chunk` of them (`Playback.WrapReadIsNotOneChunk`).
- The wrap test is `>=`, so with a buffer of exactly m chunks the last chunk is never served on its own. Instead the m-th read returns everything (`Playback.WrapAtExactMultiple`). After a load the cursor never goes back to 0; from the first read on it repeats with period m - 1 reads, not m (`Playback.CursorPeriod`).
- `file_rate` is assigned before the frames are decoded (main.py:77-79). So a file whose frame bytes do not decode as int16 raises with the new rate already stored, while the old buffer and mode are kept. A failed load might be expected to leave the previous source untouched. That holds for the buffer and the mode but not for the rate (`SignalVisualizer.LoadFile`).

Foreign parts that are parameters:
- What the microphone delivers on a read is the `incoming` argument of `AudioStream.Read`, and so of `GetAudioChunk` and `UpdatePlot`.
- What the WAV reader makes of the chosen path is the `wav` argument of `LoadFile`: unreadable, a rate followed by undecodable frame bytes, or a rate and the decoded samples.
- The path the file dialog returns is the `path` argument of `LoadFile`.

## Model

| member | source | states |
|---|---|---|
| Samples.Slice | main.py:88 | Python's `s[lo:hi]` for non-negative bounds: the elements at positions lo up to min(hi, len), and empty when lo is not below that |
| Playback.NextCursor | main.py:85-89 | a read either advances the cursor by one chunk or restarts it one chunk into the buffer, and for a buffer longer than a chunk the new cursor is inside the buffer whatever the old one was |
| Playback.FileRead | main.py:85-89 | a read that stays inside the buffer returns exactly `data[index..index+chunk]` and moves the cursor by chunk; a read that reaches or passes the end returns the whole buffer and leaves the cursor at chunk |
| Playback.ReadLength | main.py:85-88 | a non-wrapping read returns chunk samples, a wrapping read returns as many samples as the buffer holds |
| Playback.CursorBounded | main.py:80-89 | after a load of a buffer longer than a chunk, the cursor stays below the buffer length on every read, and is at least one chunk once a read has happened |
| Playback.CursorBeforeWrap | main.py:80-89 | until the first wrap, the cursor after k reads is k * chunk |
| Playback.PlaysInOrder | main.py:80-90 | until the first wrap, the first k reads after a load together return exactly the first k * chunk samples of the buffer, in order |
| Playback.WrapAtExactMultiple | main.py:80-89 | for a buffer of exactly m chunks, the m-th read after a load finds the cursor on the last chunk, returns the whole buffer and sets the cursor to chunk |
| Playback.CursorPeriod | main.py:80-89 | for a buffer of exactly m chunks, the cursor after k + (m - 1) reads equals the cursor after k reads, for every k >= 1 |
| Playback.WrapReadIsNotOneChunk | main.py:85-88 | in a two-chunk buffer, the read at the second chunk returns 2 * chunk samples, not chunk |
| Spectrum.FftFreq | main.py:105 | `fftfreq(n, 1/rate)` has one frequency per FFT bin: i * rate/n for the bins i <= (n-1)/2, and (i - n) * rate/n for the negative bins after them |
| Spectrum.Resolution | main.py:105 | the bin spacing rate/n is positive and n bins of it span exactly the sample rate |
| Spectrum.FrequencyLabels | main.py:105 | the kept axis has n/2 labels and label k is k times the resolution |
| Spectrum.LabelIsRatio | main.py:105 | label k equals k * rate / n exactly |
| Spectrum.LabelSpacing | main.py:105 | consecutive labels differ by exactly rate/n |
| Spectrum.LabelsBelowNyquist | main.py:105 | every kept label is at least 0 and below rate/2 |
| Spectrum.BinCovers | main.py:105 | every frequency below the end of the kept axis lies in bin floor(f / resolution), between that bin's label and the next |
| Spectrum.ToneAt1000Hz | main.py:105 | at 44100 Hz with 1024-sample chunks there are 512 labels, a 1000 Hz tone lies between labels 23 and 24, and both labels lie within 950-1050 Hz |
| Spectrum.HalfSpectrum | main.py:104 | the kept spectrum is the first len/2 FFT bins, unchanged and in order |
| Spectrum.HalfSpectrumPairsWithLabels | main.py:104-106 | for an FFT with one bin per sample of a non-empty chunk at a non-zero rate, the analysis succeeds and the kept bins and its frequency axis have the same length, so they are plotted bin by bin |
| Spectrum.Analyse | main.py:101-109 | a frame fails exactly when the chunk is empty (the FFT raises first) or the rate is 0 (the reciprocal raises); otherwise the waveform is the chunk, the axis has len/2 labels at k * rate/len, and the spectrogram gets the same rate |
| Visualizer.AudioStream.constructor | main.py:12-20 | the stream keeps the requested rate and chunk and has delivered nothing yet |
| Visualizer.AudioStream.Read | main.py:22-24 | a read returns exactly chunk samples, the ones the device delivers, and adds them to what the device has delivered |
| Visualizer.SignalVisualizer.constructor | main.py:37-42 | a new visualizer captures live at 44100 Hz in 1024-sample chunks, with no file buffer, no file rate, cursor 0 and chunk 1024 |
| Visualizer.SignalVisualizer.LoadFile | main.py:73-81 | an empty path or an unreadable file changes nothing; a file with undecodable frames changes only the rate; a successful load stores the samples and rate, resets the cursor to 0 and switches to file mode |
| Visualizer.SignalVisualizer.GetAudioChunk | main.py:83-92 | in file mode (flag set and buffer present) the result and new cursor are those of `FileRead` and the device is not touched; otherwise the result is the live read and the cursor is unchanged; a cursor inside a buffer longer than a chunk stays inside it |
| Visualizer.SignalVisualizer.UpdatePlot | main.py:94-109 | a tick takes the chunk, moves the cursor and touches the device exactly as `GetAudioChunk` does, then analyses that chunk at the file's rate if file mode was on and at the live stream's rate otherwise; the spectrogram gets the same rate and the axis has label k at k * rate/len; the cursor has moved even when the analysis raises |

## Left out

- Opening and closing the PyAudio stream (main.py:15-20, 26-29) is foreign I/O. So are the `closeEvent` teardown, device-open failures, and read failures: `stream.read` raises on device errors other than an overflow (main.py:23), but `AudioStream.Read` always succeeds. The model's stream only keeps its rate and chunk size and records what it delivered.
- Decoding a WAV file (`wave.open`, `readframes`, `np.frombuffer`, main.py:76-79) is foreign. Its outcome is a parameter. The wave reader is never closed in the source, and that is not modelled.
- FFT magnitudes (`np.abs(np.fft.fft(...))`) and the spectrogram (`specgram` with NFFT 256 and overlap 128) are floating-point numerics inside numpy and matplotlib. The model keeps the bin count, the frequency labels and the rate handed to the spectrogram.
- Spectrum.FrequencyLabels: labels are exact rationals. The source computes them in floating point, so its labels can differ from the exact value by rounding.
- The Qt window, buttons, file dialog, plotting calls and the 100 ms timer (main.py:32-35, 46-71, 97-112, 118-122) are GUI plumbing.
