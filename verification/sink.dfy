/** The recorder's shared writer slot: an optional WAV writer that the stream
    callback appends to and the control path takes once to finalize.

    The lock around the slot and the real-time thread are not modelled; the
    slot is a value and each callback invocation or finalize is one step. The
    WAV library's on-disk encoding is not modelled either: a writer is its
    header together with the sequence of sample values written so far. */
module Sink {
  import opened Wrappers
  import opened Audiort

  type u8 = x: int | 0 <= x < 0x100
  type i8 = x: int | -0x80 <= x < 0x80

  // ---------------------------------------------------------------------------
  // One byte as one sample
  // ---------------------------------------------------------------------------

  /** `d as i8`: the byte's bit pattern read as a two's-complement 8-bit
      integer. */
  function ByteAsI8(b: u8): (s: i8)
    ensures s % 0x100 == b
    ensures 0 <= s <==> b < 0x80
  {
    if b < 0x80 then b else b - 0x100
  }

  /** `s as u8`: the bit pattern of an 8-bit signed integer. */
  function I8AsByte(s: i8): (b: u8)
    ensures b % 0x100 == s % 0x100
  {
    s % 0x100
  }

  /** The reinterpretation loses nothing: it is a bijection between bytes and
      8-bit signed values. */
  lemma ByteReinterpretRoundTrip(b: u8, s: i8)
    ensures I8AsByte(ByteAsI8(b)) == b
    ensures ByteAsI8(I8AsByte(s)) == s
  {
  }

  /** The samples one buffer of raw bytes contributes: one per byte, in order,
      whatever the header's sample width. */
  function DecodeBytes(data: seq<u8>): (s: seq<int>)
    ensures |s| == |data|
    ensures forall i :: 0 <= i < |data| ==> s[i] == ByteAsI8(data[i])
  {
    if data == [] then [] else [ByteAsI8(data[0])] + DecodeBytes(data[1..])
  }

  /** The samples a sequence of callback buffers contributes, in arrival order. */
  function DecodeAll(buffers: seq<seq<u8>>): seq<int>
  {
    if buffers == [] then [] else DecodeBytes(buffers[0]) + DecodeAll(buffers[1..])
  }

  /** A sixteen-bit buffer is not decoded as sixteen-bit samples: the two
      little-endian bytes of 1 and of -1 become four 8-bit samples. */
  lemma SixteenBitBufferSplitsIntoBytes()
    ensures DecodeBytes([0x01, 0x00, 0xFF, 0xFF]) == [1, 0, -1, -1]
  {
  }

  // ---------------------------------------------------------------------------
  // The writer and its slot
  // ---------------------------------------------------------------------------

  /** An open WAV writer: its header and the samples written so far. */
  datatype WavWriter = WavWriter(spec: WavSpec, samples: seq<int>)

  /** A finalized file: header and every sample, in write order. */
  datatype WavFile = WavFile(spec: WavSpec, samples: seq<int>)

  /** The shared slot: `Some` until the control path takes the writer. */
  datatype WriterSlot = WriterSlot(writer: Option<WavWriter>)

  /** The callback registered by the Record command: with a writer in the
      slot it writes each byte of the buffer as one `i8` sample; with an
      empty slot it does nothing. */
  function RecordCallback(slot: WriterSlot, data: seq<u8>): (r: WriterSlot)
    ensures slot.writer.None? ==> r == slot
    ensures slot.writer.Some? ==>
              && r.writer.Some?
              && r.writer.value.spec == slot.writer.value.spec
              && |r.writer.value.samples| == |slot.writer.value.samples| + |data|
              && r.writer.value.samples[..|slot.writer.value.samples|] == slot.writer.value.samples
              && forall i :: 0 <= i < |data| ==>
                   r.writer.value.samples[|slot.writer.value.samples| + i] == ByteAsI8(data[i])
  {
    match slot.writer
    case None => slot
    case Some(w) => WriterSlot(Some(w.(samples := w.samples + DecodeBytes(data))))
  }

  /** `write_wav_data`: the standalone form of the same callback, one sample
      written per loop iteration. It agrees with `RecordCallback`. */
  method WriteWavData(data: seq<u8>, slot: WriterSlot) returns (r: WriterSlot)
    ensures slot.writer.None? ==> r == slot
    ensures slot.writer.Some? ==>
              && r.writer.Some?
              && r.writer.value.spec == slot.writer.value.spec
              && r.writer.value.samples == slot.writer.value.samples + DecodeBytes(data)
    ensures r == RecordCallback(slot, data)
  {
    match slot.writer
    case None =>
      r := slot;
    case Some(w) =>
      var samples := w.samples;
      var i := 0;
      while i < |data|
        invariant 0 <= i <= |data|
        invariant |samples| == |w.samples| + i
        invariant samples[..|w.samples|] == w.samples
        invariant forall k :: 0 <= k < i ==> samples[|w.samples| + k] == ByteAsI8(data[k])
      {
        samples := samples + [ByteAsI8(data[i])];
        i := i + 1;
      }
      assert samples == w.samples + DecodeBytes(data);
      r := WriterSlot(Some(w.(samples := samples)));
  }

  /** `Option::take` on the slot: the writer, if any, and an empty slot. */
  function Take(slot: WriterSlot): (r: (WriterSlot, Option<WavWriter>))
    ensures r.0.writer.None?
    ensures r.1 == slot.writer
  {
    (WriterSlot(None), slot.writer)
  }

  /** What the finalize branch achieved. */
  datatype FinalizeOutcome = Written(file: WavFile) | NothingTaken | FinalizeFailed

  /** The finalize branch: take the writer out of the slot and, if there was
      one, finalize it (`finalizeOk` is the WAV library's answer). The slot
      is empty afterwards whatever happened. */
  function FinalizeBranch(slot: WriterSlot, finalizeOk: bool): (r: (WriterSlot, FinalizeOutcome))
    ensures r.0.writer.None?
    ensures r.1 == NothingTaken <==> slot.writer.None?
    ensures r.1.Written? <==> slot.writer.Some? && finalizeOk
    ensures r.1.Written? ==> r.1.file == WavFile(slot.writer.value.spec, slot.writer.value.samples)
  {
    var (empty, taken) := Take(slot);
    match taken
    case None => (empty, NothingTaken)
    case Some(w) => (empty, if finalizeOk then Written(WavFile(w.spec, w.samples)) else FinalizeFailed)
  }

  /** After a finalize, a second finalize finds nothing and any later buffer
      is dropped. */
  lemma FinalizeIsTakeOnce(slot: WriterSlot, ok1: bool, ok2: bool, data: seq<u8>)
    ensures FinalizeBranch(FinalizeBranch(slot, ok1).0, ok2).1 == NothingTaken
    ensures RecordCallback(FinalizeBranch(slot, ok1).0, data) == FinalizeBranch(slot, ok1).0
  {
  }

  // ---------------------------------------------------------------------------
  // A recording as a sequence of steps
  // ---------------------------------------------------------------------------

  /** One step on the slot: a callback buffer, or a finalize request with the
      WAV library's answer. */
  datatype Step = Buffer(data: seq<u8>) | Finalize(ok: bool)

  /** The steps as a sequence of buffers. */
  function Buffers(buffers: seq<seq<u8>>): (steps: seq<Step>)
    ensures |steps| == |buffers|
    ensures forall i :: 0 <= i < |buffers| ==> steps[i] == Buffer(buffers[i])
  {
    seq(|buffers|, i requires 0 <= i < |buffers| => Buffer(buffers[i]))
  }

  /** Runs the steps in order; the result is the final slot and the outcome
      of each finalize request, in order. */
  function Run(slot: WriterSlot, steps: seq<Step>): (WriterSlot, seq<FinalizeOutcome>)
    decreases |steps|
  {
    if steps == [] then (slot, [])
    else
      match steps[0]
      case Buffer(data) => Run(RecordCallback(slot, data), steps[1..])
      case Finalize(ok) =>
        var f := FinalizeBranch(slot, ok);
        var rest := Run(f.0, steps[1..]);
        (rest.0, [f.1] + rest.1)
  }

  /** The number of finalize requests among the steps. */
  function Finalizes(steps: seq<Step>): nat
  {
    if steps == [] then 0 else (if steps[0].Finalize? then 1 else 0) + Finalizes(steps[1..])
  }

  /** With the slot empty, every step is a no-op: buffers write nothing and
      every finalize finds nothing. */
  lemma {:induction false} RunOnEmptySlot(steps: seq<Step>)
    ensures Run(WriterSlot(None), steps).0 == WriterSlot(None)
    ensures |Run(WriterSlot(None), steps).1| == Finalizes(steps)
    ensures forall i :: 0 <= i < |Run(WriterSlot(None), steps).1| ==> Run(WriterSlot(None), steps).1[i] == NothingTaken
    decreases |steps|
  {
    if steps != [] {
      RunOnEmptySlot(steps[1..]);
    }
  }

  /** Sample concatenation regroups freely; stated on its own so the
      induction below needs only this instance. */
  lemma ConcatAssociates(a: seq<int>, b: seq<int>, c: seq<int>)
    ensures a + b + c == a + (b + c)
  {
  }

  /** A buffer step runs the callback and continues with the rest. */
  lemma RunBufferStep(slot: WriterSlot, steps: seq<Step>)
    requires steps != [] && steps[0].Buffer?
    ensures Run(slot, steps) == Run(RecordCallback(slot, steps[0].data), steps[1..])
  {
  }

  /** A buffer delivered to a filled slot appends its decoded bytes. */
  lemma CallbackOnWriter(w: WavWriter, data: seq<u8>)
    ensures RecordCallback(WriterSlot(Some(w)), data) == WriterSlot(Some(w.(samples := w.samples + DecodeBytes(data))))
  {
  }

  /** Buffers delivered to a filled slot append their decoded bytes, in
      order, and request no finalize. */
  lemma {:induction false} RunBuffersAppends(w: WavWriter, buffers: seq<seq<u8>>)
    ensures Run(WriterSlot(Some(w)), Buffers(buffers)) ==
              (WriterSlot(Some(w.(samples := w.samples + DecodeAll(buffers)))), [])
    decreases |buffers|
  {
    var steps := Buffers(buffers);
    if buffers == [] {
      assert steps == [];
      assert w.samples + DecodeAll(buffers) == w.samples;
      assert w.(samples := w.samples + DecodeAll(buffers)) == w;
    } else {
      var w' := w.(samples := w.samples + DecodeBytes(buffers[0]));
      assert steps[0] == Buffer(buffers[0]);
      assert steps[1..] == Buffers(buffers[1..]);
      RunBufferStep(WriterSlot(Some(w)), steps);
      CallbackOnWriter(w, buffers[0]);
      RunBuffersAppends(w', buffers[1..]);
      ConcatAssociates(w.samples, DecodeBytes(buffers[0]), DecodeAll(buffers[1..]));
    }
  }

  /** Running two step sequences one after the other is running their
      concatenation. */
  lemma RunConcat(slot: WriterSlot, a: seq<Step>, b: seq<Step>)
    ensures Run(slot, a + b) == (Run(Run(slot, a).0, b).0, Run(slot, a).1 + Run(Run(slot, a).0, b).1)
    decreases |a|
  {
    if a != [] {
      assert (a + b)[0] == a[0];
      assert (a + b)[1..] == a[1..] + b;
      match a[0]
      case Buffer(data) =>
        RunConcat(RecordCallback(slot, data), a[1..], b);
      case Finalize(ok) =>
        var next := FinalizeBranch(slot, ok).0;
        RunConcat(next, a[1..], b);
        assert [FinalizeBranch(slot, ok).1] + Run(next, a[1..]).1 + Run(Run(next, a[1..]).0, b).1
            == [FinalizeBranch(slot, ok).1] + (Run(next, a[1..]).1 + Run(Run(next, a[1..]).0, b).1);
    } else {
      assert a + b == b;
      assert Run(slot, a) == (slot, []);
      assert [] + Run(slot, b).1 == Run(slot, b).1;
    }
  }

  /** The take-once discipline end to end: buffers, then a successful
      finalize, then anything. The first finalize writes the header and every
      sample of every earlier buffer in order; every later finalize finds
      nothing; the slot ends empty. */
  lemma {:induction false} RecordingFinalizedOnce(w: WavWriter, buffers: seq<seq<u8>>, rest: seq<Step>)
    ensures Run(WriterSlot(Some(w)), Buffers(buffers) + [Finalize(true)] + rest).0 == WriterSlot(None)
    ensures Run(WriterSlot(Some(w)), Buffers(buffers) + [Finalize(true)] + rest).1 ==
              [Written(WavFile(w.spec, w.samples + DecodeAll(buffers)))] + Run(WriterSlot(None), rest).1
    ensures forall i :: 1 <= i < |Run(WriterSlot(Some(w)), Buffers(buffers) + [Finalize(true)] + rest).1| ==>
              Run(WriterSlot(Some(w)), Buffers(buffers) + [Finalize(true)] + rest).1[i] == NothingTaken
  {
    var start := WriterSlot(Some(w));
    var filled := WriterSlot(Some(w.(samples := w.samples + DecodeAll(buffers))));
    RunBuffersAppends(w, buffers);
    RunConcat(start, Buffers(buffers), [Finalize(true)] + rest);
    assert Buffers(buffers) + [Finalize(true)] + rest == Buffers(buffers) + ([Finalize(true)] + rest);
    assert ([Finalize(true)] + rest)[1..] == rest;
    RunOnEmptySlot(rest);
  }
}
