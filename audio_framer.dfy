/** The AudioWorklet processor of public/audio-processor.js: it copies the
    samples of its first input channel into a fixed 4096-slot buffer and posts
    a copy of the buffer to the main thread each time the buffer fills. */
module AudioFramer {
  import opened Wrappers

  /** `this.bufferSize` of the processor. */
  const FrameSize: nat := 4096

  /** The message posted on the worklet port for one full buffer. Sample
      values are opaque; `data` is a value, so later writes into the live
      buffer cannot reach a frame already posted. */
  datatype FrameMessage<T> = FrameMessage(kind: string, data: seq<T>, sampleRate: real, timestamp: real)

  /** The frames a stream of samples is cut into: consecutive, full, in order. */
  function Frames<T>(s: seq<T>): seq<seq<T>>
    decreases |s|
  {
    if |s| < FrameSize then [] else [s[..FrameSize]] + Frames(s[FrameSize..])
  }

  /** The samples after the last full frame: what sits in the buffer. */
  function Leftover<T>(s: seq<T>): seq<T>
    decreases |s|
  {
    if |s| < FrameSize then s else Leftover(s[FrameSize..])
  }

  function Flatten<T>(fs: seq<seq<T>>): seq<T> {
    if fs == [] then [] else fs[0] + Flatten(fs[1..])
  }

  function DataOf<T>(ms: seq<FrameMessage<T>>): (r: seq<seq<T>>)
    ensures |r| == |ms|
    ensures forall k :: 0 <= k < |ms| ==> r[k] == ms[k].data
  {
    if ms == [] then [] else [ms[0].data] + DataOf(ms[1..])
  }

  lemma {:induction false} DataOfAppend<T>(a: seq<FrameMessage<T>>, m: FrameMessage<T>)
    ensures DataOf(a + [m]) == DataOf(a) + [m.data]
    decreases |a|
  {
    if a != [] {
      assert (a + [m])[1..] == a[1..] + [m];
      DataOfAppend(a[1..], m);
    }
  }

  /** Framing is lossless and in order: the frames, concatenated, followed by
      the leftover, give back the whole stream. */
  lemma {:induction false} FramesLossless<T>(s: seq<T>)
    ensures Flatten(Frames(s)) + Leftover(s) == s
    decreases |s|
  {
    if |s| >= FrameSize {
      FramesLossless(s[FrameSize..]);
      assert s == s[..FrameSize] + s[FrameSize..];
    }
  }

  /** Every frame is full, there are |s| div 4096 of them, and the leftover
      holds |s| mod 4096 samples. */
  lemma {:induction false} FramesShape<T>(s: seq<T>)
    ensures |Frames(s)| == |s| / FrameSize
    ensures |Leftover(s)| == |s| % FrameSize
    ensures forall k :: 0 <= k < |Frames(s)| ==> |Frames(s)[k]| == FrameSize
    decreases |s|
  {
    if |s| >= FrameSize {
      FramesShape(s[FrameSize..]);
      assert |s[FrameSize..]| == |s| - FrameSize;
      assert (|s| - FrameSize) / FrameSize == |s| / FrameSize - 1;
      assert (|s| - FrameSize) % FrameSize == |s| % FrameSize;
    }
  }

  /** Feeding one more sample either completes the leftover into a new frame
      or extends the leftover. */
  lemma {:induction false} FramesSnoc<T>(s: seq<T>, x: T)
    ensures |Leftover(s)| < FrameSize
    ensures |Leftover(s)| + 1 == FrameSize ==>
              Frames(s + [x]) == Frames(s) + [Leftover(s) + [x]] && Leftover(s + [x]) == []
    ensures |Leftover(s)| + 1 < FrameSize ==>
              Frames(s + [x]) == Frames(s) && Leftover(s + [x]) == Leftover(s) + [x]
    decreases |s|
  {
    if |s| >= FrameSize {
      var t := s[FrameSize..];
      assert (s + [x])[..FrameSize] == s[..FrameSize];
      assert (s + [x])[FrameSize..] == t + [x];
      FramesSnoc(t, x);
    } else if |s| + 1 == FrameSize {
      assert (s + [x])[FrameSize..] == [];
      assert (s + [x])[..FrameSize] == s + [x];
    }
  }

  /** The first channel of the first input, when the processor has one
      (`inputs[0]`, non-empty, whose `[0]` is present). */
  function FirstChannel<T>(inputs: seq<seq<Option<seq<T>>>>): Option<seq<T>> {
    if |inputs| == 0 || |inputs[0]| == 0 then None else inputs[0][0]
  }

  /** The samples one `process` call consumes. */
  function InputSamples<T>(inputs: seq<seq<Option<seq<T>>>>): seq<T> {
    FirstChannel(inputs).GetOr([])
  }

  /** Every message is a full audio frame stamped with the given rate and time. */
  predicate WellFormed<T>(ms: seq<FrameMessage<T>>, sampleRate: real, currentTime: real)
  {
    forall k :: 0 <= k < |ms| ==>
      ms[k].kind == "audio_data" && |ms[k].data| == FrameSize &&
      ms[k].sampleRate == sampleRate && ms[k].timestamp == currentTime
  }

  /** Posting one more well-formed message keeps the posted list well
      formed and adds its data at the end. */
  lemma PostStep<T>(e: seq<seq<T>>, ms: seq<FrameMessage<T>>, m: FrameMessage<T>, sampleRate: real, currentTime: real)
    requires WellFormed(ms, sampleRate, currentTime) && WellFormed([m], sampleRate, currentTime)
    ensures WellFormed(ms + [m], sampleRate, currentTime)
    ensures DataOf(ms + [m]) == DataOf(ms) + [m.data]
    ensures e + DataOf(ms + [m]) == (e + DataOf(ms)) + [m.data]
  {
    DataOfAppend(ms, m);
    assert forall k :: 0 <= k < |ms| ==> (ms + [m])[k] == ms[k];
  }

  /** Extending a prefix of `s` by its next element. */
  lemma PrefixSnoc<T>(a: seq<T>, s: seq<T>, i: nat)
    requires i < |s|
    ensures a + s[..i + 1] == (a + s[..i]) + [s[i]]
  {
    assert s[..i + 1] == s[..i] + [s[i]];
  }

  /** The frame data a message-or-nothing contributes. */
  function Posted<T>(full: Option<FrameMessage<T>>): (r: seq<seq<T>>)
    ensures |r| <= 1
  {
    if full.Some? then [full.value.data] else []
  }

  class Processor<T(0)> {
    const bufferSize: nat
    const buffer: array<T>
    var bufferIndex: nat
    /** Every sample consumed since construction. */
    ghost var fed: seq<T>
    /** The data of every frame posted since construction. */
    ghost var emitted: seq<seq<T>>

    ghost predicate Valid()
      reads this, buffer
    {
      && bufferSize == FrameSize
      && buffer.Length == bufferSize
      && bufferIndex < bufferSize
      && emitted == Frames(fed)
      && buffer[..bufferIndex] == Leftover(fed)
    }

    constructor ()
      ensures Valid() && fresh(buffer)
      ensures bufferSize == 4096 && bufferIndex == 0
      ensures fed == [] && emitted == []
    {
      bufferSize := FrameSize;
      buffer := new T[FrameSize];
      bufferIndex := 0;
      fed := [];
      emitted := [];
    }

    /** Between calls the samples seen so far are exactly the posted frames
        followed by the buffer prefix. */
    lemma Lossless()
      requires Valid()
      ensures Flatten(emitted) + buffer[..bufferIndex] == fed
    {
      FramesLossless(fed);
    }

    /** One turn of the copy loop: store `x` at `bufferIndex` and, when
        that fills the buffer, post a copy of it and reset the index.
        `local` is any stream whose leftover is the current buffer prefix. */
    method Store(x: T, sampleRate: real, currentTime: real, ghost local: seq<T>)
      returns (full: Option<FrameMessage<T>>)
      requires Valid() && buffer[..bufferIndex] == Leftover(local)
      modifies this, buffer
      ensures Valid()
      ensures fed == old(fed) + [x]
      ensures emitted == old(emitted) + Posted(full)
      ensures Frames(local + [x]) == Frames(local) + Posted(full)
      ensures buffer[..bufferIndex] == Leftover(local + [x])
      ensures full.Some? ==> WellFormed([full.value], sampleRate, currentTime)
    {
      FramesSnoc(fed, x);
      FramesSnoc(local, x);
      ghost var prev := buffer[..bufferIndex];
      buffer[bufferIndex] := x;
      bufferIndex := bufferIndex + 1;
      fed := fed + [x];
      assert buffer[..bufferIndex] == prev + [x];
      full := None;
      if bufferIndex >= bufferSize {
        // a copy of the buffer, not the live array
        var audioData := buffer[..];
        assert audioData == buffer[..bufferIndex];
        full := Some(FrameMessage("audio_data", audioData, sampleRate, currentTime));
        emitted := emitted + [audioData];
        bufferIndex := 0;
      }
    }

    method Process(inputs: seq<seq<Option<seq<T>>>>, sampleRate: real, currentTime: real)
      returns (keepAlive: bool, posted: seq<FrameMessage<T>>)
      requires Valid()
      modifies this, buffer
      ensures Valid()
      ensures keepAlive
      ensures fed == old(fed) + InputSamples(inputs)
      ensures emitted == old(emitted) + DataOf(posted)
      ensures DataOf(posted) == Frames(old(buffer[..bufferIndex]) + InputSamples(inputs))
      ensures buffer[..bufferIndex] == Leftover(old(buffer[..bufferIndex]) + InputSamples(inputs))
      ensures |posted| == (old(bufferIndex) + |InputSamples(inputs)|) / FrameSize
      ensures bufferIndex == (old(bufferIndex) + |InputSamples(inputs)|) % FrameSize
      ensures WellFormed(posted, sampleRate, currentTime)
      ensures InputSamples(inputs) == [] ==>
                posted == [] && bufferIndex == old(bufferIndex) && buffer[..bufferIndex] == old(buffer[..bufferIndex])
    {
      posted := [];
      keepAlive := true;
      var channel := FirstChannel(inputs);
      if channel.None? {
        return;
      }
      var samples := channel.value;
      ghost var start := buffer[..bufferIndex];
      assert |start| < FrameSize && Frames(start) == [] && Leftover(start) == start;
      var i := 0;
      while i < |samples|
        invariant 0 <= i <= |samples|
        invariant Valid()
        invariant fed == old(fed) + samples[..i]
        invariant DataOf(posted) == Frames(start + samples[..i])
        invariant buffer[..bufferIndex] == Leftover(start + samples[..i])
        invariant emitted == old(emitted) + DataOf(posted)
        invariant WellFormed(posted, sampleRate, currentTime)
      {
        PrefixSnoc(start, samples, i);
        PrefixSnoc(old(fed), samples, i);
        var full := Store(samples[i], sampleRate, currentTime, start + samples[..i]);
        if full.Some? {
          PostStep(old(emitted), posted, full.value, sampleRate, currentTime);
          posted := posted + [full.value];
        }
        i := i + 1;
      }
      assert samples[..i] == samples;
      FramesShape(start + samples);
    }
  }
}
