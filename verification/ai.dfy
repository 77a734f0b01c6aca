/** The summariser around the opaque text generator: prompt construction,
    word counts, the compression ratio, and the wrapping of every failure in
    one message prefix. */
module Ai {
  import opened Wrappers
  import opened Text
  import opened Models

  /** The text generator: given a prompt, its reply text or the message of
      the exception it raised. */
  type Generator = string -> Result<string, string>

  const Opening := "Please summarize the following text:\n\n"

  function BasePrompt(text: string): string {
    Opening + text + "\n\n"
  }

  /** The one sentence appended for each mode. The sentences are written as
      short pieces so that single characters of them can be reasoned about. */
  function Instruction(t: SummaryType): string {
    match t
    case Brief =>
      "Provide a " + "brief, concise " + "summary that " + "captures the " + "main points."
    case Detailed =>
      "Provide a " + "detailed " + "summary that " + "covers all " + "important " + "aspects and " + "key details."
    case BulletPoints =>
      "Provide a " + "summary in " + "bullet points " + "format, " + "highlighting " + "key points " + "clearly."
  }

  /** The instructions are told apart by their eleventh character, and none
      of them ends the way the word-limit clause does. */
  lemma InstructionShape(t: SummaryType)
    ensures |Instruction(t)| > 10
    ensures Instruction(t)[10] == (match t case Brief => 'b' case Detailed => 'd' case BulletPoints => 's')
    ensures Instruction(t)[|Instruction(t)| - 6] != ClauseEnd[1]
  {
  }

  /** Python truthiness of an optional int: `None` and `0` are false. */
  predicate Truthy(maxWords: Option<int>) {
    maxWords.Some? && maxWords.value != 0
  }

  const ClauseEnd := " words."

  function WordLimitClause(n: int): string {
    " Keep the " + "summary under " + IntToString(n) + ClauseEnd
  }

  /** The parts of `a + b + c` can be read back by position. */
  lemma ConcatParts(a: string, b: string, c: string)
    ensures StartsWith(a + b + c, a)
    ensures StartsWith((a + b + c)[|a|..], b)
    ensures EndsWith(a + b + c, c)
    ensures c == [] ==> a + b + c == a + b
  {
    assert (a + b + c)[|a|..] == b + c;
  }

  /** The optional tail of the prompt. */
  function LimitTail(maxWords: Option<int>): (tail: string)
    ensures Truthy(maxWords) ==> EndsWith(tail, ClauseEnd)
    ensures !Truthy(maxWords) ==> tail == []
  {
    if Truthy(maxWords) then
      var c := WordLimitClause(maxWords.value);
      assert c[|c| - |ClauseEnd|..] == ClauseEnd;
      c
    else []
  }

  /** `_build_prompt`. */
  function BuildPrompt(text: string, t: SummaryType, maxWords: Option<int>): (p: string)
    ensures StartsWith(p, BasePrompt(text))
    ensures StartsWith(p[|BasePrompt(text)|..], Instruction(t))
    ensures EndsWith(p, ClauseEnd) <==> Truthy(maxWords)
    ensures Truthy(maxWords) ==> EndsWith(p, WordLimitClause(maxWords.value))
    ensures !Truthy(maxWords) ==> p == BasePrompt(text) + Instruction(t)
    ensures Truthy(maxWords) ==> |p| == |BasePrompt(text)| + |Instruction(t)| + |WordLimitClause(maxWords.value)|
  {
    var base := BasePrompt(text);
    var instr := Instruction(t);
    var tail := LimitTail(maxWords);
    var p := base + instr + tail;
    ConcatParts(base, instr, tail);
    InstructionShape(t);
    assert !Truthy(maxWords) ==> p[|p| - 6] == instr[|instr| - 6];
    p
  }

  /** The prompt determines the mode: prompts built for different modes
      differ, whatever the text and limits. */
  lemma BuildPromptDeterminesMode(text: string, t1: SummaryType, m1: Option<int>, t2: SummaryType, m2: Option<int>)
    requires t1 != t2
    ensures BuildPrompt(text, t1, m1) != BuildPrompt(text, t2, m2)
  {
    var n := |BasePrompt(text)|;
    var p1 := BuildPrompt(text, t1, m1);
    var p2 := BuildPrompt(text, t2, m2);
    assert p1[n..][..|Instruction(t1)|] == Instruction(t1);
    assert p2[n..][..|Instruction(t2)|] == Instruction(t2);
    InstructionShape(t1);
    InstructionShape(t2);
    assert p1[n + 10] == Instruction(t1)[10] != Instruction(t2)[10] == p2[n + 10];
  }

  lemma SuffixMiddle(p: string, x: string, d: string, e: string)
    requires EndsWith(p, x + d + e)
    ensures |d| + |e| <= |p| && p[|p| - |e| - |d|..|p| - |e|] == d
  {
    var c := x + d + e;
    assert p[|p| - |c|..] == c;
    assert c[|x|..|x| + |d|] == d;
  }

  /** The digits just before the final " words." of a string ending in a
      word-limit clause read back as the limit. */
  lemma ClauseLimitReadsBack(p: string, n: int)
    requires EndsWith(p, WordLimitClause(n))
    ensures
      var start := |p| - |ClauseEnd| - |IntToString(n)|;
      0 <= start && ParseInt(p[start..|p| - |ClauseEnd|]) == Some(n)
  {
    SuffixMiddle(p, " Keep the " + "summary under ", IntToString(n), ClauseEnd);
    IntToStringRoundTrip(n);
  }

  /** The limit written into the prompt reads back as the caller's limit. */
  lemma PromptLimitReadsBack(text: string, t: SummaryType, n: int)
    requires n != 0
    ensures
      var p := BuildPrompt(text, t, Some(n));
      var start := |p| - |ClauseEnd| - |IntToString(n)|;
      0 <= start && ParseInt(p[start..|p| - |ClauseEnd|]) == Some(n)
  {
    ClauseLimitReadsBack(BuildPrompt(text, t, Some(n)), n);
  }

  /** `(original - summary) / original * 100`, unrounded. */
  function CompressionRatio(original: nat, summary: nat): (ratio: real)
    requires original > 0
    ensures ratio * (original as real) == ((original - summary) as real) * 100.0
    ensures ratio <= 100.0
    ensures ratio == 100.0 <==> summary == 0
    ensures ratio < 0.0 <==> summary > original
    ensures ratio == 0.0 <==> summary == original
  {
    ((original - summary) as real) / (original as real) * 100.0
  }

  const ErrorPrefix := "Failed to generate summary: "
  const DivisionByZero := "division by zero"

  /** What `AIService.summarize_text` makes of the generator's answer: strip
      the reply, count words, and wrap any failure, including the division
      by a zero word count, in one message with a fixed prefix. */
  function Answer(text: string, reply: Result<string, string>): (r: Result<SummarizeResponse, string>)
    ensures r.Failure? <==> reply.Failure? || AllSpace(text)
    ensures r.Failure? ==> StartsWith(r.error, ErrorPrefix)
    ensures reply.Failure? ==> r == Failure(ErrorPrefix + reply.error)
    ensures reply.Success? && AllSpace(text) ==> r == Failure(ErrorPrefix + DivisionByZero)
    ensures r.Success? ==>
      && r.value.summary == Strip(reply.value)
      && r.value.originalLength == WordCount(text) > 0
      && r.value.summaryLength == WordCount(reply.value)
      && r.value.compressionRatio == CompressionRatio(r.value.originalLength, r.value.summaryLength)
  {
    match reply
    case Failure(e) => Failure(ErrorPrefix + e)
    case Success(reply) =>
      var summary := Strip(reply);
      var original := WordCount(text);
      var length := WordCount(summary);
      WordCountZeroIffBlank(text);
      WordCountIgnoresStrip(reply);
      if original == 0 then Failure(ErrorPrefix + DivisionByZero)
      else Success(SummarizeResponse(summary, original, length, CompressionRatio(original, length)))
  }

  /** `AIService.summarize_text`: the generator is asked exactly once, with
      the prompt built for the text, mode and limit. */
  function Summarize(text: string, t: SummaryType, maxWords: Option<int>, generate: Generator)
    : (r: Result<SummarizeResponse, string>)
  {
    Answer(text, generate(BuildPrompt(text, t, maxWords)))
  }

  /** An empty reply is not an error: it gives an empty summary of no words
      and a ratio of 100. */
  lemma EmptyReplyIsFullCompression(text: string, reply: string)
    requires !AllSpace(text) && AllSpace(reply)
    ensures
      var r := Answer(text, Success(reply));
      r.Success? && r.value.summary == [] && r.value.summaryLength == 0 && r.value.compressionRatio == 100.0
  {
    WordCountZeroIffBlank(reply);
  }
}
