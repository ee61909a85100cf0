/**
 * The streaming speech-recognition buffer (`ASRProcessor` in server/app/asr.py).
 *
 * Audio arrives as byte chunks.  Each non-empty chunk is counted and decoded; decoded
 * samples are appended to a buffer, and once the buffer holds at least five seconds of
 * 16 kHz audio the whole buffer is transcribed.  Every non-empty chunk reports exactly one
 * event; an empty chunk reports none.
 *
 * The decoder (ffmpeg, WAV parsing, resampling) and the transcriber (Whisper) are oracles
 * passed in as functions: `decode` maps a chunk to its samples or to None on any decode
 * failure, `transcribe` maps a sample window to the text it returns or to the message of
 * the exception it raises.  Samples are the signed 16-bit values before the division by
 * 32768.
 */
module Asr {
  import opened Wrappers
  import opened PyStr

  type Byte = b: int | 0 <= b < 256

  /** `self.sample_rate`. */
  const SampleRate: nat := 16000

  /** `self.sample_rate * 5`: the buffer length at which a transcription is attempted. */
  const FlushThreshold: nat := SampleRate * 5

  datatype EventType = Interim | Final

  /** One `{"type": ..., "text": ...}` record sent back to the client. */
  datatype Event = Event(kind: EventType, text: string)

  /** What the transcriber does with a window: returns text (`result.get("text", "")`)
      or raises an exception whose `str` is `error`. */
  datatype Transcript = Transcribed(text: string) | Raised(error: string)

  /** The two fields `push_audio_chunk_and_get_events` updates. */
  datatype AsrState = AsrState(buffer: seq<int>, chunkCount: nat)

  const ProcessingText := "Processing audio..."
  const NoSpeechText := "No speech detected"

  function ListeningText(count: nat): string {
    "Listening... (" + NatToString(count) + " chunks)"
  }

  function TranscriptionErrorText(error: string): string {
    "Transcription error: " + Prefix(error, 50)
  }

  // ---------------------------------------------------------------- specification

  /** What `_transcribe_buffer` does to the buffer and which events it returns. */
  function Flush(buffer: seq<int>, transcribe: seq<int> -> Transcript): (r: (seq<int>, seq<Event>))
    ensures |r.1| == if buffer == [] then 0 else 1
    ensures r.0 == [] || r.0 == buffer
    ensures r.0 == buffer <==> buffer == [] || transcribe(buffer).Raised?
  {
    if buffer == [] then (buffer, [])
    else
      match transcribe(buffer)
      case Raised(e) => (buffer, [Event(Interim, TranscriptionErrorText(e))])
      case Transcribed(t) =>
        var text := StripSpace(t);
        if text != [] then ([], [Event(Final, text)]) else ([], [Event(Interim, NoSpeechText)])
  }

  /** What `push_audio_chunk_and_get_events` does with one chunk. */
  function Step(s: AsrState, chunk: seq<Byte>, decode: seq<Byte> -> Option<seq<int>>,
                transcribe: seq<int> -> Transcript): (r: (AsrState, seq<Event>))
    ensures |r.1| == if chunk == [] then 0 else 1
    ensures r.0.chunkCount == s.chunkCount + if chunk == [] then 0 else 1
  {
    if chunk == [] then (s, [])
    else
      var count := s.chunkCount + 1;
      match decode(chunk)
      case None => (AsrState(s.buffer, count), [Event(Interim, ProcessingText)])
      case Some(samples) =>
        var buffer := s.buffer + samples;
        if |buffer| >= FlushThreshold then
          var flushed := Flush(buffer, transcribe);
          (AsrState(flushed.0, count), flushed.1)
        else
          (AsrState(buffer, count), [Event(Interim, ListeningText(count))])
  }

  /** A stream of chunks handled one after the other; the events in the order sent. */
  function Run(s: AsrState, chunks: seq<seq<Byte>>, decode: seq<Byte> -> Option<seq<int>>,
               transcribe: seq<int> -> Transcript): (AsrState, seq<Event>)
    decreases |chunks|
  {
    if chunks == [] then (s, [])
    else
      var first := Step(s, chunks[0], decode, transcribe);
      var rest := Run(first.0, chunks[1..], decode, transcribe);
      (rest.0, first.1 + rest.1)
  }

  function NonEmptyCount(chunks: seq<seq<Byte>>): nat {
    if chunks == [] then 0 else (if chunks[0] == [] then 0 else 1) + NonEmptyCount(chunks[1..])
  }

  // ---------------------------------------------------------------- the processor

  class AsrProcessor {
    var buffer: seq<int>
    var chunkCount: nat

    constructor ()
      ensures buffer == [] && chunkCount == 0
    {
      buffer := [];
      chunkCount := 0;
    }

    function State(): AsrState
      reads this
    {
      AsrState(buffer, chunkCount)
    }

    /** `_transcribe_buffer`: hand the whole buffer to the transcriber; clear it when
        the transcriber returns, keep it when the transcriber raises. */
    method TranscribeBuffer(transcribe: seq<int> -> Transcript) returns (events: seq<Event>)
      modifies this
      ensures (buffer, events) == Flush(old(buffer), transcribe)
      ensures chunkCount == old(chunkCount)
    {
      if |buffer| == 0 {
        return [];
      }
      var outcome := transcribe(buffer);
      match outcome {
        case Raised(e) =>
          events := [Event(Interim, TranscriptionErrorText(e))];
        case Transcribed(t) =>
          var text := StripSpace(t);
          if text != [] {
            buffer := [];
            events := [Event(Final, text)];
          } else {
            buffer := [];
            events := [Event(Interim, NoSpeechText)];
          }
      }
    }

    /** `push_audio_chunk_and_get_events`. */
    method PushAudioChunk(chunk: seq<Byte>, decode: seq<Byte> -> Option<seq<int>>,
                          transcribe: seq<int> -> Transcript) returns (events: seq<Event>)
      modifies this
      ensures (State(), events) == Step(old(State()), chunk, decode, transcribe)
      ensures |events| == if chunk == [] then 0 else 1
    {
      if |chunk| == 0 {
        return [];
      }
      chunkCount := chunkCount + 1;
      var decoded := decode(chunk);
      if decoded.Some? {
        buffer := buffer + decoded.value;
        if |buffer| >= FlushThreshold {
          events := TranscribeBuffer(transcribe);
        } else {
          events := [Event(Interim, ListeningText(chunkCount))];
        }
      } else {
        events := [Event(Interim, ProcessingText)];
      }
    }
  }

  // ---------------------------------------------------------------- one step

  /** An empty chunk changes nothing and produces no event. */
  lemma EmptyChunkIsIgnored(s: AsrState, decode: seq<Byte> -> Option<seq<int>>,
                            transcribe: seq<int> -> Transcript)
    ensures Step(s, [], decode, transcribe) == (s, [])
  {
  }

  /** A non-empty chunk is counted once, whatever its decoding gives, and produces
      exactly one event. */
  lemma NonEmptyChunkCountedOnce(s: AsrState, chunk: seq<Byte>, decode: seq<Byte> -> Option<seq<int>>,
                                 transcribe: seq<int> -> Transcript)
    requires chunk != []
    ensures Step(s, chunk, decode, transcribe).0.chunkCount == s.chunkCount + 1
    ensures |Step(s, chunk, decode, transcribe).1| == 1
  {
  }

  /** A chunk that does not decode leaves the buffer alone and reports "Processing audio...". */
  lemma DecodeFailureKeepsBuffer(s: AsrState, chunk: seq<Byte>, decode: seq<Byte> -> Option<seq<int>>,
                                 transcribe: seq<int> -> Transcript)
    requires chunk != [] && decode(chunk).None?
    ensures Step(s, chunk, decode, transcribe) ==
            (AsrState(s.buffer, s.chunkCount + 1), [Event(Interim, ProcessingText)])
  {
  }

  /** Below the threshold the decoded samples are appended in order, nothing is
      transcribed, and the event reports the running chunk count. */
  lemma BelowThresholdAppends(s: AsrState, chunk: seq<Byte>, decode: seq<Byte> -> Option<seq<int>>,
                              transcribe: seq<int> -> Transcript)
    requires chunk != [] && decode(chunk).Some?
    requires |s.buffer + decode(chunk).value| < FlushThreshold
    ensures var r := Step(s, chunk, decode, transcribe);
      && r.0.buffer == s.buffer + decode(chunk).value
      && r.1 == [Event(Interim, ListeningText(s.chunkCount + 1))]
  {
  }

  /** At or above the threshold the transcriber gets the entire buffer, untrimmed.  When it
      returns, the buffer is emptied and the event is final exactly when the stripped text is
      non-empty; when it raises, the buffer is kept and the message is cut to 50 characters. */
  lemma ThresholdTranscribesWholeBuffer(s: AsrState, chunk: seq<Byte>, decode: seq<Byte> -> Option<seq<int>>,
                                        transcribe: seq<int> -> Transcript)
    requires chunk != [] && decode(chunk).Some?
    requires |s.buffer + decode(chunk).value| >= FlushThreshold
    ensures var window := s.buffer + decode(chunk).value;
      var r := Step(s, chunk, decode, transcribe);
      match transcribe(window)
      case Transcribed(t) =>
        && r.0.buffer == []
        && (r.1[0].kind == Final <==> StripSpace(t) != [])
        && r.1 == [if StripSpace(t) != [] then Event(Final, StripSpace(t)) else Event(Interim, NoSpeechText)]
      case Raised(e) =>
        && r.0.buffer == window
        && r.1 == [Event(Interim, "Transcription error: " + Prefix(e, 50))]
        && |r.1[0].text| <= |"Transcription error: "| + 50
  {
  }

  // ---------------------------------------------------------------- whole streams

  /** Each non-empty chunk of a stream yields exactly one event and empty ones yield none. */
  lemma {:induction false} OneEventPerNonEmptyChunk(s: AsrState, chunks: seq<seq<Byte>>,
                                                    decode: seq<Byte> -> Option<seq<int>>,
                                                    transcribe: seq<int> -> Transcript)
    ensures |Run(s, chunks, decode, transcribe).1| == NonEmptyCount(chunks)
    ensures Run(s, chunks, decode, transcribe).0.chunkCount == s.chunkCount + NonEmptyCount(chunks)
    decreases |chunks|
  {
    if chunks != [] {
      OneEventPerNonEmptyChunk(Step(s, chunks[0], decode, transcribe).0, chunks[1..], decode, transcribe);
    }
  }

  /** The transcriber never returns non-blank text. */
  ghost predicate NeverHearsSpeech(transcribe: seq<int> -> Transcript) {
    forall w :: transcribe(w).Raised? || StripSpace(transcribe(w).text) == []
  }

  predicate AllInterim(events: seq<Event>) {
    forall k | 0 <= k < |events| :: events[k].kind == Interim
  }

  lemma StepWithoutSpeechIsInterim(s: AsrState, chunk: seq<Byte>, decode: seq<Byte> -> Option<seq<int>>,
                                   transcribe: seq<int> -> Transcript)
    requires NeverHearsSpeech(transcribe)
    ensures AllInterim(Step(s, chunk, decode, transcribe).1)
  {
  }

  /** A transcriber that never returns non-blank text means no final event, however many
      chunks arrive. */
  lemma {:induction false} NoFinalWithoutSpeech(s: AsrState, chunks: seq<seq<Byte>>,
                                                decode: seq<Byte> -> Option<seq<int>>,
                                                transcribe: seq<int> -> Transcript)
    requires NeverHearsSpeech(transcribe)
    ensures AllInterim(Run(s, chunks, decode, transcribe).1)
    decreases |chunks|
  {
    if chunks != [] {
      var first := Step(s, chunks[0], decode, transcribe);
      StepWithoutSpeechIsInterim(s, chunks[0], decode, transcribe);
      NoFinalWithoutSpeech(first.0, chunks[1..], decode, transcribe);
      var rest := Run(first.0, chunks[1..], decode, transcribe);
      assert Run(s, chunks, decode, transcribe).1 == first.1 + rest.1;
      assert forall k | |first.1| <= k < |first.1 + rest.1| :: (first.1 + rest.1)[k] == rest.1[k - |first.1|];
    }
  }

  /** While the transcriber never raises, every flush empties the buffer, so the buffer
      stays below the threshold between chunks. */
  lemma {:induction false} BufferStaysBelowThreshold(s: AsrState, chunks: seq<seq<Byte>>,
                                                     decode: seq<Byte> -> Option<seq<int>>,
                                                     transcribe: seq<int> -> Transcript)
    requires forall w :: transcribe(w).Transcribed?
    requires |s.buffer| < FlushThreshold
    ensures |Run(s, chunks, decode, transcribe).0.buffer| < FlushThreshold
    decreases |chunks|
  {
    if chunks != [] {
      BufferStaysBelowThreshold(Step(s, chunks[0], decode, transcribe).0, chunks[1..], decode, transcribe);
    }
  }

  // ---------------------------------------------------------------- 16-bit PCM

  /** The signed 16-bit little-endian value stored in two bytes. */
  function Int16Le(lo: Byte, hi: Byte): (v: int)
    ensures -32768 <= v < 32768
  {
    var u := lo + 256 * hi;
    if u >= 32768 then u - 65536 else u
  }

  function PcmSamples(data: seq<Byte>): (r: seq<int>)
    requires |data| % 2 == 0
    ensures |r| == |data| / 2
    ensures forall k | 0 <= k < |r| :: -32768 <= r[k] < 32768
    decreases |data|
  {
    if data == [] then [] else [Int16Le(data[0], data[1])] + PcmSamples(data[2..])
  }

  /** `np.frombuffer(audio_data, dtype=np.int16)` as used in `_parse_wav`: a byte string
      of odd length raises, which `_parse_wav` turns into None. */
  function DecodeInt16(data: seq<Byte>): (r: Option<seq<int>>)
    ensures r.Some? <==> |data| % 2 == 0
    ensures r.Some? ==> |r.value| == |data| / 2
  {
    if |data| % 2 != 0 then None else Some(PcmSamples(data))
  }

  predicate IsInt16(v: int) {
    -32768 <= v < 32768
  }

  /** Writing samples as 16-bit little-endian byte pairs. */
  function EncodeInt16(samples: seq<int>): (data: seq<Byte>)
    requires forall k | 0 <= k < |samples| :: IsInt16(samples[k])
    ensures |data| == 2 * |samples|
  {
    if samples == [] then []
    else
      assert IsInt16(samples[0]);
      var u := if samples[0] < 0 then samples[0] + 65536 else samples[0];
      var lo: Byte, hi: Byte := u % 256, u / 256;
      [lo, hi] + EncodeInt16(samples[1..])
  }

  /** Round trip: decoding encoded samples gives them back. */
  lemma {:induction false} DecodeEncodeInt16(samples: seq<int>)
    requires forall k | 0 <= k < |samples| :: IsInt16(samples[k])
    ensures DecodeInt16(EncodeInt16(samples)) == Some(samples)
    decreases |samples|
  {
    if samples != [] {
      var data := EncodeInt16(samples);
      DecodeEncodeInt16(samples[1..]);
      assert data[2..] == EncodeInt16(samples[1..]);
      assert Int16Le(data[0], data[1]) == samples[0];
      assert PcmSamples(data) == [samples[0]] + samples[1..];
      assert samples == [samples[0]] + samples[1..];
    }
  }

  /** Round trip the other way: every even-length byte string is the encoding of its samples. */
  lemma {:induction false} EncodeDecodeInt16(data: seq<Byte>)
    requires |data| % 2 == 0
    ensures EncodeInt16(PcmSamples(data)) == data
    decreases |data|
  {
    if data != [] {
      EncodeDecodeInt16(data[2..]);
      assert data == [data[0], data[1]] + data[2..];
    }
  }
}
