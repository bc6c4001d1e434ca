/** The visualizer's signal source: a live capture stream and a loaded file
    buffer read through a cursor, and the per-tick glue that feeds a chunk and
    its sample rate to the analysis. */
module Visualizer {
  import opened Samples
  import opened Playback
  import opened Spectrum

  /** The live capture stream: mono 16-bit input at a fixed rate, read a chunk at a time.
      The device itself is foreign; what it delivers on a read is a parameter of Read,
      and `consumed` records every sample it has delivered so far. */
  class AudioStream {
    const rate: nat
    const chunk: nat
    var consumed: seq<Int16>

    constructor (rate: nat, chunk: nat)
      ensures this.rate == rate && this.chunk == chunk && consumed == []
    {
      this.rate := rate;
      this.chunk := chunk;
      consumed := [];
    }

    /** A blocking, overrun-tolerant read: the next `chunk` samples the device delivers. */
    method Read(incoming: seq<Int16>) returns (data: seq<Int16>)
      requires |incoming| == chunk
      modifies this
      ensures data == incoming && |data| == chunk
      ensures consumed == old(consumed) + incoming
    {
      data := incoming;
      consumed := consumed + incoming;
    }
  }

  /** What the foreign WAV reader makes of a path the user picked. */
  datatype WavRead =
    | Unreadable                          // opening the container raised; nothing was read
    | OddFrameBytes(rate: nat)            // the header gave a rate, then the frame bytes
                                          // did not split into whole int16 samples
    | Decoded(rate: nat, samples: seq<Int16>)

  /** The exceptions a load lets escape. */
  datatype LoadError = OpenFailed | DecodeFailed

  class SignalVisualizer {
    const audio: AudioStream
    const chunk: nat
    var useFile: bool
    var fileData: Option<seq<Int16>>
    var fileRate: Option<nat>
    var fileIndex: nat

    /** File mode is only ever switched on together with a buffer and its rate. */
    ghost predicate Valid()
      reads this
    {
      useFile ==> fileData.Some? && fileRate.Some?
    }

    /** Whether a read is served from the file buffer. */
    predicate FileMode()
      reads this
    {
      useFile && fileData.Some?
    }

    constructor ()
      ensures Valid() && fresh(audio)
      ensures audio.rate == 44100 && audio.chunk == 1024 && audio.consumed == []
      ensures chunk == 1024
      ensures !useFile && fileData == None && fileRate == None && fileIndex == 0
    {
      audio := new AudioStream(44100, 1024);
      useFile := false;
      fileData := None;
      fileRate := None;
      fileIndex := 0;
      chunk := 1024;
    }

    /** Load a WAV file chosen by the user. An empty path (the dialog was
        cancelled) changes nothing. The rate is stored before the frames are
        decoded, so a decode failure leaves the new rate behind. */
    method LoadFile(path: string, wav: WavRead) returns (raised: Option<LoadError>)
      requires Valid()
      modifies this
      ensures Valid()
      ensures path == [] ==> raised == None && unchanged(this)
      ensures path != [] && wav.Unreadable? ==> raised == Some(OpenFailed) && unchanged(this)
      ensures path != [] && wav.OddFrameBytes? ==>
                raised == Some(DecodeFailed) && fileRate == Some(wav.rate) &&
                fileData == old(fileData) && fileIndex == old(fileIndex) && useFile == old(useFile)
      ensures path != [] && wav.Decoded? ==>
                raised == None && useFile && fileIndex == 0 &&
                fileData == Some(wav.samples) && fileRate == Some(wav.rate)
    {
      raised := None;
      if path != [] {
        match wav
        case Unreadable =>
          raised := Some(OpenFailed);
        case OddFrameBytes(rate) =>
          fileRate := Some(rate);
          raised := Some(DecodeFailed);
        case Decoded(rate, samples) =>
          fileRate := Some(rate);
          fileData := Some(samples);
          fileIndex := 0;
          useFile := true;
      }
    }

    /** The chunk for this tick: from the file buffer at the cursor when a file
        is loaded and selected, from the live stream otherwise. */
    method GetAudioChunk(incoming: seq<Int16>) returns (data: seq<Int16>)
      requires Valid() && |incoming| == audio.chunk
      modifies this, audio
      ensures Valid()
      ensures useFile == old(useFile) && fileData == old(fileData) && fileRate == old(fileRate)
      ensures old(FileMode()) ==>
                data == FileRead(fileData.value, old(fileIndex), chunk).samples &&
                fileIndex == FileRead(fileData.value, old(fileIndex), chunk).next &&
                audio.consumed == old(audio.consumed)
      ensures !old(FileMode()) ==>
                data == incoming && fileIndex == old(fileIndex) &&
                audio.consumed == old(audio.consumed) + incoming
      ensures old(FileMode()) && chunk < |fileData.value| && old(fileIndex) < |fileData.value| ==>
                fileIndex < |fileData.value|
    {
      if useFile && fileData.Some? {
        var endIndex := fileIndex + chunk;
        if endIndex >= |fileData.value| {
          fileIndex := 0;
        }
        data := Slice(fileData.value, fileIndex, endIndex);
        fileIndex := fileIndex + chunk;
      } else {
        data := audio.Read(incoming);
      }
    }

    /** One timer tick: take a chunk, then analyse it at the selected rate.
        The cursor has already moved when the analysis raises. */
    method UpdatePlot(incoming: seq<Int16>) returns (data: seq<Int16>, views: Result<Views, AnalysisError>)
      requires Valid() && |incoming| == audio.chunk
      modifies this, audio
      ensures Valid()
      ensures useFile == old(useFile) && fileData == old(fileData) && fileRate == old(fileRate)
      ensures old(FileMode()) ==>
                data == FileRead(fileData.value, old(fileIndex), chunk).samples &&
                fileIndex == FileRead(fileData.value, old(fileIndex), chunk).next &&
                audio.consumed == old(audio.consumed)
      ensures !old(FileMode()) ==>
                data == incoming && fileIndex == old(fileIndex) &&
                audio.consumed == old(audio.consumed) + incoming
      ensures var rate := if old(useFile) then old(fileRate).value else audio.rate;
              views == Analyse(data, rate) &&
              (views.Ok? ==> views.value.specgramRate == rate &&
                             forall k :: 0 <= k < |views.value.freqs| ==>
                               views.value.freqs[k] == (k as real) * Resolution(|data|, rate))
    {
      data := GetAudioChunk(incoming);
      var rate := if useFile then fileRate.value else audio.rate;
      views := Analyse(data, rate);
    }
  }
}
