/**
 The scanner view's state machine (components/PlantAnalyzer.tsx:10-44,80):
 choosing a file, cutting the base64 payload out of its data URL, running
 the identification and reporting the record, and the clear button. The
 file reader, the request and the clock are inputs.
 */
module PlantAnalyzer {
  import opened Types
  import opened Json
  import opened GeminiService

  /** The view's four pieces of state. `result` is the record the identification
      returned, which the source types as `PlantInfo`. */
  datatype AnalyzerState = AnalyzerState(
    image: Option<string>,
    loading: bool,
    result: Option<Fields>,
    error: Option<string>)

  /** The view as mounted: no preview, not loading, no result, no error. */
  const Initial: AnalyzerState := AnalyzerState(None, false, None, None)

  const FailureMessage: string := "Failed to analyze image. Please try again with a clearer photo."

  /** The argument `processImage` hands to `analyzePlantImage`; `None` is `undefined`. */
  datatype Request = NoRequest | Requested(base64: Option<string>)

  /** One handled event: the state afterwards, the identification it started,
      and the records passed to `onResult`, in call order. */
  datatype Step = Step(state: AnalyzerState, request: Request, reported: seq<Fields>)

  /** `s.split(',')`: the pieces between commas, in order. */
  function SplitOnComma(s: string): (parts: seq<string>)
    ensures |parts| >= 1
    ensures forall i :: 0 <= i < |parts| ==> ',' !in parts[i]
    decreases |s|
  {
    if |s| == 0 then [""]
    else
      var rest := SplitOnComma(s[1..]);
      if s[0] == ',' then [""] + rest
      else [[s[0]] + rest[0]] + rest[1..]
  }

  /** `parts.join(',')`. */
  function JoinWithComma(parts: seq<string>): string
    requires |parts| >= 1
    decreases |parts|
  {
    if |parts| == 1 then parts[0] else parts[0] + "," + JoinWithComma(parts[1..])
  }

  /** Joining the pieces of a split gives back the string. */
  lemma {:induction false} JoinSplit(s: string)
    ensures JoinWithComma(SplitOnComma(s)) == s
    decreases |s|
  {
    if |s| > 0 {
      var rest := SplitOnComma(s[1..]);
      JoinSplit(s[1..]);
      if s[0] == ',' {
        assert s == [s[0]] + s[1..];
      } else {
        var parts := SplitOnComma(s);
        assert parts == [[s[0]] + rest[0]] + rest[1..];
        if |rest| == 1 {
          assert s == [s[0]] + rest[0];
        } else {
          assert parts[1..] == rest[1..];
          assert JoinWithComma(rest) == rest[0] + "," + JoinWithComma(rest[1..]);
          assert s == [s[0]] + s[1..];
        }
      }
    }
  }

  /** A leading character other than a comma extends the first piece. */
  lemma SplitAfterCharacter(c: char, t: string)
    requires c != ','
    ensures SplitOnComma([c] + t) == [[c] + SplitOnComma(t)[0]] + SplitOnComma(t)[1..]
  {
    assert ([c] + t)[1..] == t;
  }

  /** A leading comma starts with an empty piece. */
  lemma SplitAfterComma(t: string)
    ensures SplitOnComma([','] + t) == [""] + SplitOnComma(t)
  {
    assert ([','] + t)[1..] == t;
  }

  /** Joining pieces whose first piece is non-empty starts with that piece's first character. */
  lemma JoinAfterCharacter(parts: seq<string>)
    requires |parts| >= 1 && |parts[0]| > 0
    ensures JoinWithComma(parts) == [parts[0][0]] + JoinWithComma([parts[0][1..]] + parts[1..])
  {
    var shorter := [parts[0][1..]] + parts[1..];
    assert parts[0] == [parts[0][0]] + parts[0][1..];
    if |parts| > 1 {
      assert shorter[1..] == parts[1..];
    }
  }

  /** Splitting a join of comma-free pieces gives back the pieces. */
  lemma {:induction false} SplitJoin(parts: seq<string>)
    requires |parts| >= 1
    requires forall i :: 0 <= i < |parts| ==> ',' !in parts[i]
    ensures SplitOnComma(JoinWithComma(parts)) == parts
    decreases |parts|, |parts[0]|
  {
    var head := parts[0];
    if |head| > 0 {
      var shorter := [head[1..]] + parts[1..];
      assert forall i :: 0 <= i < |shorter| ==> ',' !in shorter[i] by {
        assert forall c :: c in head[1..] ==> c in head;
      }
      SplitJoin(shorter);
      JoinAfterCharacter(parts);
      assert head[0] != ',' by { assert head[0] in head; }
      SplitAfterCharacter(head[0], JoinWithComma(shorter));
      assert head == [head[0]] + head[1..];
      assert parts == [head] + parts[1..];
    } else if |parts| > 1 {
      SplitJoin(parts[1..]);
      assert JoinWithComma(parts) == [','] + JoinWithComma(parts[1..]);
      SplitAfterComma(JoinWithComma(parts[1..]));
      assert parts == [""] + parts[1..];
    }
  }

  /** `dataUrl.split(',')[1]`: the text between the first and the second comma,
      or `undefined` when there is no comma. */
  function SplitPayload(dataUrl: string): (payload: Option<string>)
    ensures payload.None? <==> ',' !in dataUrl
    ensures payload.Some? ==> ',' !in payload.value
  {
    var parts := SplitOnComma(dataUrl);
    if ',' !in dataUrl then
      assert SplitOnComma(dataUrl) == [dataUrl] by { SplitJoin([dataUrl]); }
      None
    else
      JoinSplit(dataUrl);
      assert |parts| > 1;
      Some(parts[1])
  }

  /** How a template literal writes the payload: `undefined` is spelled out. */
  function TemplateText(payload: Option<string>): (text: string)
    ensures payload.Some? ==> text == payload.value
    ensures payload.None? ==> text == "undefined"
  {
    match payload
    case Some(p) => p
    case None => "undefined"
  }

  /** The reader finished: the preview is set to the data URL, and `processImage`
      clears the error and the result and raises the loading flag. */
  function Begin(s: AnalyzerState, dataUrl: string): (r: AnalyzerState)
    ensures r.image == Some(dataUrl)
    ensures r.loading && r.error.None? && r.result.None?
  {
    AnalyzerState(Some(dataUrl), true, None, None)
  }

  /** The identification settled: success stores the record and reports it once;
      failure sets the retry message. Either way the loading flag drops. */
  function Complete(s: AnalyzerState, outcome: Result<Fields, IdentifyError>): (r: (AnalyzerState, seq<Fields>))
    ensures !r.0.loading
    ensures r.0.image == s.image
    ensures outcome.Success? ==> r.0.result == Some(outcome.value) && r.1 == [outcome.value] && r.0.error == s.error
    ensures outcome.Failure? ==> r.0.result == s.result && r.1 == [] && r.0.error == Some(FailureMessage)
  {
    match outcome
    case Success(record) => (s.(result := Some(record), loading := false), [record])
    case Failure(_) => (s.(error := Some(FailureMessage), loading := false), [])
  }

  /** `handleFileChange` for the chosen file's data URL, run to completion with the
      request's outcome, the parser and the clock. `None` stands for no file chosen,
      and also for a failed read: the reader then delivers `null`, `split` throws
      before anything is set, and nothing changes. */
  function HandleFileChange(s: AnalyzerState, file: Option<string>, response: Response,
                            parse: string -> Option<Json>, now: nat): (r: Step)
    ensures file.None? ==> r == Step(s, NoRequest, [])
    ensures file.Some? ==> r.request == Requested(SplitPayload(file.value))
    ensures file.Some? ==> r.state.image == Some(file.value) && !r.state.loading
    ensures file.Some? ==> |r.reported| <= 1
    ensures file.Some? ==> (|r.reported| == 1 <==> r.state.error.None?)
    ensures file.Some? && |r.reported| == 1 ==> r.state.result == Some(r.reported[0])
    ensures file.Some? && |r.reported| == 0 ==> r.state.result.None? && r.state.error == Some(FailureMessage)
  {
    match file
    case None => Step(s, NoRequest, [])
    case Some(dataUrl) =>
      var payload := SplitPayload(dataUrl);
      var started := Begin(s, dataUrl);
      var outcome := AnalyzePlantImage(response, parse, now, TemplateText(payload));
      var (settled, reported) := Complete(started, outcome);
      Step(settled, Requested(payload), reported)
  }

  /** The clear button: drops the preview and the result, keeps the error and the loading flag. */
  function Clear(s: AnalyzerState): (r: AnalyzerState)
    ensures r.image.None? && r.result.None?
    ensures r.error == s.error && r.loading == s.loading
  {
    s.(image := None, result := None)
  }

  /** For a data URL with a comma-free header and a comma-free body, the payload is the body. */
  lemma PayloadIsTheBody(header: string, body: string)
    requires ',' !in header && ',' !in body
    ensures SplitPayload(header + "," + body) == Some(body)
  {
    SplitJoin([header, body]);
    assert JoinWithComma([header, body]) == header + "," + body;
    assert ',' in header + "," + body by { assert (header + "," + body)[|header|] == ','; }
  }

  /** A successful scan reports exactly the record it stores, and that record's `id`
      and `image` come from the clock and the payload. */
  lemma SuccessReportsStoredRecord(s: AnalyzerState, dataUrl: string, response: Response,
                                   parse: string -> Option<Json>, now: nat)
    requires response.Responded? && Decode(response.text, parse).Some?
    ensures var r := HandleFileChange(s, Some(dataUrl), response, parse, now);
      && r.reported == [r.state.result.value]
      && r.state.error.None?
      && r.state.result.value["id"] == JStr(NatToString(now))
      && r.state.result.value["image"] == JStr(JpegDataUri(TemplateText(SplitPayload(dataUrl))))
      && r.state.result == Some(Assemble(Decode(response.text, parse).value, now, TemplateText(SplitPayload(dataUrl))))
  {
  }

  /** A failed scan reports nothing and shows the retry message. */
  lemma FailureReportsNothing(s: AnalyzerState, dataUrl: string, response: Response,
                              parse: string -> Option<Json>, now: nat)
    requires response.RequestFailed? || Decode(response.text, parse).None?
    ensures var r := HandleFileChange(s, Some(dataUrl), response, parse, now);
      && r.reported == []
      && r.state == AnalyzerState(Some(dataUrl), false, None, Some(FailureMessage))
  {
  }

  /** A JPEG upload round-trips: the stored record's `image` is the very data URL the file was read as. */
  lemma JpegUploadRoundTrips(s: AnalyzerState, body: string, response: Response,
                             parse: string -> Option<Json>, now: nat)
    requires ',' !in body
    requires response.Responded? && Decode(response.text, parse).Some?
    ensures var dataUrl := JpegDataUri(body);
      var r := HandleFileChange(s, Some(dataUrl), response, parse, now);
      && r.state.image == Some(dataUrl)
      && r.state.result.value["image"] == JStr(dataUrl)
  {
    assert JpegDataUri(body) == "data:image/jpeg;base64" + "," + body;
    PayloadIsTheBody("data:image/jpeg;base64", body);
  }

  /** Any other mime type does not round-trip: a PNG upload is stored under a JPEG data URI. */
  lemma PngUploadIsRelabelledJpeg(s: AnalyzerState, body: string, response: Response,
                                  parse: string -> Option<Json>, now: nat)
    requires ',' !in body
    requires response.Responded? && Decode(response.text, parse).Some?
    ensures var dataUrl := "data:image/png;base64," + body;
      var r := HandleFileChange(s, Some(dataUrl), response, parse, now);
      && r.state.result.value["image"] == JStr(JpegDataUri(body))
      && r.state.result.value["image"] != JStr(dataUrl)
  {
    var dataUrl := "data:image/png;base64," + body;
    assert dataUrl == "data:image/png;base64" + "," + body;
    PayloadIsTheBody("data:image/png;base64", body);
    assert JpegDataUri(body)[11] != dataUrl[11];
  }

  /** A data URL without a comma has no payload, and the stored `image` spells
      `undefined` after the JPEG header. */
  lemma CommaFreeUploadStoresUndefined(s: AnalyzerState, dataUrl: string, response: Response,
                                      parse: string -> Option<Json>, now: nat)
    requires ',' !in dataUrl
    requires response.Responded? && Decode(response.text, parse).Some?
    ensures var r := HandleFileChange(s, Some(dataUrl), response, parse, now);
      && r.request == Requested(None)
      && r.state.result.value["image"] == JStr("data:image/jpeg;base64,undefined")
  {
  }
}
