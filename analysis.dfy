/**
  The structured record the language model returns for a transcript (transcriber.py,
  `analyze_and_format`), its fallback when the model call fails, and how `main` reads the
  record's keys with their defaults.
*/
module Analysis {
  import opened Wrappers
  import opened Text

  /** The two note types the analyser is asked to choose between. */
  const JournalType := "Дневник"
  const NoteType := "Заметка"

  /**
    The JSON object the analyser returns, one entry per key it is asked for; `None` is a key the
    object lacks.
  */
  datatype Reply = Reply(
    noteType: Option<string>,
    logicalDate: Option<string>,
    sleep: Option<string>,
    health: Option<string>,
    successes: Option<string>,
    score: Option<string>,
    formattedTranscript: Option<string>)

  /** The record `analyze_and_format` returns when the model call raises. */
  function FallbackReply(text: string, dateDashed: string): Reply
  {
    Reply(Some(JournalType), Some(RemoveDashes(dateDashed)), Some(""), Some(""), Some(""), Some(""), Some(text))
  }

  /**
    `analyze_and_format(text, dt)`: the model's parsed reply, or the fallback when the call (or
    the parsing of its answer) raised, which `reply == None` stands for. `dateDashed` is the
    recording's date as `YYYY-MM-DD`.
  */
  function AnalyzeAndFormat(reply: Option<Reply>, text: string, dateDashed: string): (r: Reply)
    ensures reply.Some? ==> r == reply.value
    ensures reply.None? ==>
      r.noteType == Some(JournalType) && r.logicalDate == Some(RemoveDashes(dateDashed)) &&
      r.formattedTranscript == Some(text)
  {
    match reply
    case Some(a) => a
    case None => FallbackReply(text, dateDashed)
  }

  /** `d.get(key, default)`. */
  function Get(value: Option<string>, default: string): string
  {
    match value
    case Some(v) => v
    case None => default
  }

  /** What `main` takes from the record: one string per key, with its default applied. */
  datatype Fields = Fields(
    noteType: string,
    logicalDate: string,
    sleep: string,
    health: string,
    successes: string,
    score: string,
    content: string)

  /**
    The keys read with `analysis.get(...)`: a missing type means a journal entry, a missing date
    the recording's dashed date, a missing transcript the raw text, a missing field "".
  */
  function ResolveFields(a: Reply, rawText: string, dateDashed: string): (r: Fields)
    ensures a.noteType.Some? && a.logicalDate.Some? && a.sleep.Some? && a.health.Some? &&
            a.successes.Some? && a.score.Some? && a.formattedTranscript.Some? ==>
      r == Fields(a.noteType.value, a.logicalDate.value, a.sleep.value, a.health.value,
                  a.successes.value, a.score.value, a.formattedTranscript.value)
    ensures a == Reply(None, None, None, None, None, None, None) ==>
      r == Fields(JournalType, dateDashed, "", "", "", "", rawText)
  {
    Fields(
      Get(a.noteType, JournalType),
      Get(a.logicalDate, dateDashed),
      Get(a.sleep, ""),
      Get(a.health, ""),
      Get(a.successes, ""),
      Get(a.score, ""),
      Get(a.formattedTranscript, rawText))
  }

  /**
    When the model fails, the item still goes ahead as a journal entry dated by the recording's
    own `YYYYMMDD` date, with empty journal fields and the raw transcript as its content.
  */
  lemma FallbackFields(rawText: string, dateDashed: string)
    requires IsDashedDate(dateDashed)
    ensures var f := ResolveFields(AnalyzeAndFormat(None, rawText, dateDashed), rawText, dateDashed);
      f == Fields(JournalType, RemoveDashes(dateDashed), "", "", "", "", rawText) &&
      f.logicalDate == dateDashed[..4] + dateDashed[5..7] + dateDashed[8..] &&
      |f.logicalDate| == 8 && AllDigits(f.logicalDate)
  {
    DashedDateUndashed(dateDashed);
  }

  /**
    A reply without a `logical_date` key leaves the date in the dashed `YYYY-MM-DD` form, unlike
    the fallback's `YYYYMMDD`.
  */
  lemma MissingDateKeepsDashes(a: Reply, rawText: string, dateDashed: string)
    requires a.logicalDate.None? && IsDashedDate(dateDashed)
    ensures ResolveFields(a, rawText, dateDashed).logicalDate != RemoveDashes(dateDashed)
  {
    DashedDateUndashed(dateDashed);
  }
}
