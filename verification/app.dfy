/**
 The application shell's state (App.tsx:10-16): the session history, which
 starts empty and receives every record the scanner reports through
 `onResult`. View switching is presentation and is not modelled.
 */
module App {
  import opened Types
  import opened Json
  import History
  import PlantAnalyzer
  import GeminiService

  /** The shell's state: identified plants, newest first. */
  datatype AppState = AppState(history: seq<Fields>)

  const Initial: AppState := AppState(History.Empty())

  /** Passes each record the scanner reported to `addToHistory`, in order. */
  function Deliver(app: AppState, reported: seq<Fields>): (r: AppState)
    ensures reported == [] ==> r == app
    ensures |reported| > 0 ==> 0 < |r.history| <= History.Capacity && r.history[0] == reported[|reported| - 1]
  {
    AppState(History.AddAll(app.history, reported))
  }

  /** One scan as the shell sees it: the scanner handles the file, and whatever it
      reports lands in the history. */
  function Scan(app: AppState, analyzer: PlantAnalyzer.AnalyzerState, file: Option<string>,
                response: GeminiService.Response, parse: string -> Option<Json>, now: nat)
    : (r: (AppState, PlantAnalyzer.Step))
    ensures r.1 == PlantAnalyzer.HandleFileChange(analyzer, file, response, parse, now)
    ensures r.1.reported == [] ==> r.0 == app
    ensures r.1.reported != [] ==> r.0.history == History.Add(app.history, r.1.reported[0])
  {
    var step := PlantAnalyzer.HandleFileChange(analyzer, file, response, parse, now);
    assert step.reported != [] ==>
      History.AddAll(app.history, step.reported) == History.Add(History.AddAll(app.history, []), step.reported[0]);
    (Deliver(app, step.reported), step)
  }

  /** A successful scan puts its record at the head of the history, and nothing else
      changes except that the oldest entry goes once ten are held. */
  lemma SuccessfulScanHeadsHistory(app: AppState, analyzer: PlantAnalyzer.AnalyzerState, dataUrl: string,
                                   response: GeminiService.Response, parse: string -> Option<Json>, now: nat)
    requires response.Responded? && GeminiService.Decode(response.text, parse).Some?
    ensures var (next, step) := Scan(app, analyzer, Some(dataUrl), response, parse, now);
      && step.state.result.Some?
      && next.history == History.Add(app.history, step.state.result.value)
      && next.history[0] == step.state.result.value
      && next.history[1..] == app.history[..History.Min(|app.history|, History.Capacity - 1)]
  {
    PlantAnalyzer.SuccessReportsStoredRecord(analyzer, dataUrl, response, parse, now);
    var step := PlantAnalyzer.HandleFileChange(analyzer, Some(dataUrl), response, parse, now);
    assert step.reported[..0] == [];
    assert History.AddAll(app.history, step.reported)
        == History.Add(History.AddAll(app.history, []), step.reported[0]);
    History.AddShiftsPrefix(app.history, step.state.result.value);
  }

  /** A failed scan, or no file at all, leaves the history untouched. */
  lemma UnsuccessfulScanKeepsHistory(app: AppState, analyzer: PlantAnalyzer.AnalyzerState, file: Option<string>,
                                     response: GeminiService.Response, parse: string -> Option<Json>, now: nat)
    requires file.None? || response.RequestFailed? || GeminiService.Decode(response.text, parse).None?
    ensures Scan(app, analyzer, file, response, parse, now).0 == app
  {
    if file.Some? {
      PlantAnalyzer.FailureReportsNothing(analyzer, file.value, response, parse, now);
    }
  }

  /** From the empty history, the history never holds more than ten records. */
  lemma {:induction false} HistoryStaysBounded(batches: seq<seq<Fields>>)
    ensures |DeliverAll(Initial, batches).history| <= History.Capacity
    decreases |batches|
  {
    if |batches| > 0 {
      HistoryStaysBounded(batches[..|batches| - 1]);
    }
  }

  /** The history after the reports of several scans, in order. */
  function DeliverAll(app: AppState, batches: seq<seq<Fields>>): AppState
    decreases |batches|
  {
    if |batches| == 0 then app
    else Deliver(DeliverAll(app, batches[..|batches| - 1]), batches[|batches| - 1])
  }

  /** The first successful scan after start-up leaves a history of exactly that
      record, and the scanner showing it with no error. */
  lemma FirstScanFromStartUp(dataUrl: string, response: GeminiService.Response,
                             parse: string -> Option<Json>, now: nat)
    requires response.Responded? && GeminiService.Decode(response.text, parse).Some?
    ensures var (next, step) := Scan(Initial, PlantAnalyzer.Initial, Some(dataUrl), response, parse, now);
      && next.history == [step.state.result.value]
      && step.state.image == Some(dataUrl) && step.state.error.None? && !step.state.loading
  {
    SuccessfulScanHeadsHistory(Initial, PlantAnalyzer.Initial, dataUrl, response, parse, now);
  }
}
