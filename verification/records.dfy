/**
 The records that flow between pipeline stages. A transcript segment is a
 Python dict that later stages fill in place; each key a stage adds is an
 `Option` here, `None` until that stage has run.
 */
module Records {
  import opened Basics
  import EmotionAnalyzer

  datatype Segment = Segment(
    start: real,
    end: real,
    text: string,
    speaker: Option<string>,
    audioPath: Option<string>,
    duration: Option<real>,
    stats: Option<EmotionAnalyzer.SegmentStats>,
    translated: Option<string>)

  /** One diarization turn: an interval attributed to a speaker. */
  datatype Turn = Turn(start: real, end: real, speaker: string)

  /** A generated clip handed to the timeline: `{file, start, end}`. */
  datatype Clip = Clip(file: string, start: real, end: real)

  /** The placeholder label the transcriber gives every segment. */
  const TranscriberSpeaker := "Speaker 0"

  /** A segment as the transcriber produces it. */
  function Transcribed(start: real, end: real, text: string): Segment {
    Segment(start, end, text, Some(TranscriberSpeaker), None, None, None, None)
  }

  /** `seg.get('speaker', 'UNKNOWN')`. */
  function SpeakerKey(seg: Segment): string {
    seg.speaker.GetOr("UNKNOWN")
  }

  function ClipStart(c: Clip): real { c.start }
}
