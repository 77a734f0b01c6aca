/** Request and response shapes of the HTTP layer, and the checks the
    request schemas apply before a handler runs. */
module Models {
  import opened Wrappers
  import opened Text

  /** The three summary modes; `Value` is the string each one carries. */
  datatype SummaryType = Brief | Detailed | BulletPoints {
    function Value(): string {
      match this
      case Brief => "brief"
      case Detailed => "detailed"
      case BulletPoints => "bullet_points"
    }
  }

  /** `SummaryType(s)`: the member whose value is `s`, if there is one. */
  function ParseSummaryType(s: string): (r: Option<SummaryType>)
    ensures r.Some? <==> s in {"brief", "detailed", "bullet_points"}
    ensures r.Some? ==> r.value.Value() == s
    ensures r.None? ==> forall t: SummaryType :: t.Value() != s
  {
    if s == "brief" then Some(Brief)
    else if s == "detailed" then Some(Detailed)
    else if s == "bullet_points" then Some(BulletPoints)
    else None
  }

  /** Every member is recovered from its own value, so values are distinct. */
  lemma ParseSummaryTypeRoundTrip(t: SummaryType)
    ensures ParseSummaryType(t.Value()) == Some(t)
  {
  }

  const MinTextLength := 50
  const MaxTextLength := 10000
  const MinMaxWords := 10
  const MaxMaxWords := 500

  /** A summary as returned to callers and stored in the cache. The ratio is
      kept exact; the service rounds it to two decimals. */
  datatype SummarizeResponse = SummarizeResponse(
    summary: string,
    originalLength: nat,
    summaryLength: nat,
    compressionRatio: real)

  /** A request body as received, before the schema runs. An omitted field is
      `None`; for `max_words` an explicit null is the same as omitting it. */
  datatype RawRequest = RawRequest(text: string, summaryType: Option<string>, maxWords: Option<int>)

  /** The synchronous request after validation. */
  datatype SummarizeRequest = SummarizeRequest(text: string, summaryType: SummaryType, maxWords: Option<int>)

  /** The asynchronous request after validation. */
  datatype TaskSubmitRequest = TaskSubmitRequest(text: string, summaryType: SummaryType, maxWords: Option<int>)

  /** The schema rejections, one per violated constraint. */
  datatype FieldError =
    | TextTooShort
    | TextTooLong
    | TextEmpty
    | InvalidSummaryType
    | MaxWordsTooSmall
    | MaxWordsTooLarge

  /** The `validate_text` validator: blank text is rejected, anything else is
      replaced by its stripped form. */
  function ValidateText(v: string): (r: Result<string, FieldError>)
    ensures r.Failure? <==> AllSpace(v)
    ensures r.Failure? ==> r.error == TextEmpty
    ensures r.Success? ==> r.value == Strip(v)
    ensures r.Success? ==> |r.value| <= |v| && r.value != []
    ensures r.Success? ==> !IsSpace(r.value[0]) && !IsSpace(r.value[|r.value| - 1])
  {
    var s := Strip(v);
    if s == [] then Failure(TextEmpty) else Success(s)
  }

  /** Validating already-validated text changes nothing. */
  lemma ValidateTextIdempotent(v: string)
    requires ValidateText(v).Success?
    ensures ValidateText(ValidateText(v).value) == ValidateText(v)
  {
    StripIdempotent(v);
  }

  /** The `text` field of the synchronous schema: the length bounds are
      checked on the text as received, and only then does the validator run. */
  function CheckText(v: string): (r: Result<string, FieldError>)
    ensures r.Success? ==> r.value == Strip(v)
  {
    if |v| < MinTextLength then Failure(TextTooShort)
    else if |v| > MaxTextLength then Failure(TextTooLong)
    else ValidateText(v)
  }

  function CheckSummaryType(s: Option<string>): Result<SummaryType, FieldError> {
    match s
    case None => Success(Brief)
    case Some(v) =>
      match ParseSummaryType(v)
      case Some(t) => Success(t)
      case None => Failure(InvalidSummaryType)
  }

  function CheckMaxWords(m: Option<int>): Option<FieldError> {
    match m
    case None => None
    case Some(n) =>
      if n < MinMaxWords then Some(MaxWordsTooSmall)
      else if n > MaxMaxWords then Some(MaxWordsTooLarge)
      else None
  }

  function ErrorOf<T>(r: Result<T, FieldError>): set<FieldError> {
    if r.Failure? then {r.error} else {}
  }

  predicate MaxWordsInRange(m: Option<int>) {
    m.None? || MinMaxWords <= m.value <= MaxMaxWords
  }

  function TextErrors(v: string): (errs: set<FieldError>)
    ensures errs <= {TextTooShort, TextTooLong, TextEmpty}
    ensures TextTooShort in errs <==> |v| < MinTextLength
    ensures TextTooLong in errs <==> |v| > MaxTextLength
    ensures TextEmpty in errs <==> MinTextLength <= |v| <= MaxTextLength && AllSpace(v)
  {
    ErrorOf(CheckText(v))
  }

  function SummaryTypeErrors(s: Option<string>): (errs: set<FieldError>)
    ensures errs <= {InvalidSummaryType}
    ensures InvalidSummaryType in errs <==> s.Some? && s.value !in {"brief", "detailed", "bullet_points"}
  {
    ErrorOf(CheckSummaryType(s))
  }

  function MaxWordsErrors(m: Option<int>): (errs: set<FieldError>)
    ensures errs <= {MaxWordsTooSmall, MaxWordsTooLarge}
    ensures MaxWordsTooSmall in errs <==> m.Some? && m.value < MinMaxWords
    ensures MaxWordsTooLarge in errs <==> m.Some? && m.value > MaxMaxWords
  {
    var e := CheckMaxWords(m);
    if e.Some? then {e.value} else {}
  }

  /** Everything the synchronous schema reports about a request body; the
      schema library checks every field and reports all violations together. */
  function RequestErrors(raw: RawRequest): (errs: set<FieldError>)
    ensures TextTooShort in errs <==> |raw.text| < MinTextLength
    ensures TextTooLong in errs <==> |raw.text| > MaxTextLength
    ensures TextEmpty in errs <==> MinTextLength <= |raw.text| <= MaxTextLength && AllSpace(raw.text)
    ensures InvalidSummaryType in errs <==>
      raw.summaryType.Some? && raw.summaryType.value !in {"brief", "detailed", "bullet_points"}
    ensures MaxWordsTooSmall in errs <==> raw.maxWords.Some? && raw.maxWords.value < MinMaxWords
    ensures MaxWordsTooLarge in errs <==> raw.maxWords.Some? && raw.maxWords.value > MaxMaxWords
  {
    TextErrors(raw.text) + SummaryTypeErrors(raw.summaryType) + MaxWordsErrors(raw.maxWords)
  }

  lemma NoErrorsIffChecksPass(raw: RawRequest)
    ensures RequestErrors(raw) == {} <==>
      CheckText(raw.text).Success? && CheckSummaryType(raw.summaryType).Success? && CheckMaxWords(raw.maxWords).None?
  {
    var t := CheckText(raw.text);
    var st := CheckSummaryType(raw.summaryType);
    var m := CheckMaxWords(raw.maxWords);
    if t.Failure? {
      assert t.error in RequestErrors(raw);
    } else if st.Failure? {
      assert st.error in RequestErrors(raw);
    } else if m.Some? {
      assert m.value in RequestErrors(raw);
    }
  }

  /** The synchronous request schema. */
  function ParseSummarizeRequest(raw: RawRequest): (r: Result<SummarizeRequest, set<FieldError>>)
    ensures r.Success? <==> RequestErrors(raw) == {}
    ensures r.Success? ==> r.value.text == Strip(raw.text)
    ensures r.Success? && raw.summaryType.None? ==> r.value.summaryType == Brief
    ensures r.Success? && raw.summaryType.Some? ==> r.value.summaryType.Value() == raw.summaryType.value
    ensures r.Success? ==> r.value.maxWords == raw.maxWords
    ensures r.Failure? ==> r.error == RequestErrors(raw)
  {
    NoErrorsIffChecksPass(raw);
    match (CheckText(raw.text), CheckSummaryType(raw.summaryType), CheckMaxWords(raw.maxWords))
    case (Success(text), Success(t), None) => Success(SummarizeRequest(text, t, raw.maxWords))
    case _ => Failure(RequestErrors(raw))
  }

  /** What a handler may rely on for an accepted synchronous request. */
  predicate ValidSummarizeRequest(req: SummarizeRequest) {
    && 1 <= |req.text| <= MaxTextLength
    && Strip(req.text) == req.text
    && MaxWordsInRange(req.maxWords)
  }

  lemma ParsedRequestIsValid(raw: RawRequest)
    requires ParseSummarizeRequest(raw).Success?
    ensures ValidSummarizeRequest(ParseSummarizeRequest(raw).value)
    ensures !AllSpace(ParseSummarizeRequest(raw).value.text)
  {
    NoErrorsIffChecksPass(raw);
    var text := CheckText(raw.text);
    assert text.Success? && CheckMaxWords(raw.maxWords).None?;
    assert ParseSummarizeRequest(raw).value.text == Strip(raw.text);
    StripIdempotent(raw.text);
  }

  /** A request body passes the synchronous schema exactly when its text is
      50 to 10000 characters long and not blank, its mode is one of the three,
      and its word limit is absent or between 10 and 500. */
  lemma SummarizeRequestAccepted(raw: RawRequest)
    ensures ParseSummarizeRequest(raw).Success? <==>
      && MinTextLength <= |raw.text| <= MaxTextLength
      && !AllSpace(raw.text)
      && (raw.summaryType.None? || raw.summaryType.value in {"brief", "detailed", "bullet_points"})
      && MaxWordsInRange(raw.maxWords)
  {
    var errs := RequestErrors(raw);
    if errs != {} {
      var e :| e in errs;
    }
  }

  /** The length bounds hold of the text as received, not of the stripped text
      the handler sees: one visible character padded with 49 blanks passes. */
  lemma LengthBoundPrecedesStrip(c: char, pad: string)
    requires !IsSpace(c) && |pad| == MinTextLength - 1 && AllSpace(pad)
    ensures ParseSummarizeRequest(RawRequest([c] + pad, None, None)) == Success(SummarizeRequest([c], Brief, None))
  {
    TrimRightAppendSpaces([c], pad);
    assert TrimLeft([c] + pad) == [c] + pad;
  }

  /** The asynchronous request schema: only the mode is checked. */
  function ParseTaskSubmitRequest(raw: RawRequest): (r: Result<TaskSubmitRequest, set<FieldError>>)
    ensures r.Success? <==> raw.summaryType.None? || raw.summaryType.value in {"brief", "detailed", "bullet_points"}
    ensures r.Success? ==> r.value.text == raw.text && r.value.maxWords == raw.maxWords
    ensures r.Success? && raw.summaryType.None? ==> r.value.summaryType == Brief
    ensures r.Success? && raw.summaryType.Some? ==> r.value.summaryType.Value() == raw.summaryType.value
    ensures r.Failure? ==> r.error == {InvalidSummaryType}
  {
    match CheckSummaryType(raw.summaryType)
    case Success(t) => Success(TaskSubmitRequest(raw.text, t, raw.maxWords))
    case Failure(e) => Failure({e})
  }

  /** Whatever the synchronous schema accepts, the asynchronous one accepts,
      and the two differ exactly in the stripping of the text. */
  lemma SyncAcceptedIsAsyncAccepted(raw: RawRequest)
    requires ParseSummarizeRequest(raw).Success?
    ensures ParseTaskSubmitRequest(raw).Success?
    ensures ParseSummarizeRequest(raw).value.text == Strip(ParseTaskSubmitRequest(raw).value.text)
  {
  }

  /** The four statuses a task report may carry. */
  datatype TaskStatus = Pending | Processing | Completed | Failed {
    function Literal(): (s: string)
      ensures s in {"pending", "processing", "completed", "failed"}
    {
      match this
      case Pending => "pending"
      case Processing => "processing"
      case Completed => "completed"
      case Failed => "failed"
    }
  }

  /** The literal names the status: distinct statuses are reported as
      distinct strings. */
  lemma LiteralDetermines(a: TaskStatus, b: TaskStatus)
    requires a.Literal() == b.Literal()
    ensures a == b
  {
  }
}
