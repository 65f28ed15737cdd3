/** The reports page: five report cards, each fetching one report from the
    backend, and a download of the last report received. The report's
    content is whatever JSON the backend sends; the page is generic in it. */
module Reports {
  import opened Outcomes
  import Api

  /** A card of the grid. */
  datatype ReportCard = ReportCard(id: string, name: string)

  const Cards := [
    ReportCard("daily", "Daily Inventory Report"),
    ReportCard("weekly-fraud", "Weekly Fraud Summary"),
    ReportCard("monthly", "Monthly Analytics"),
    ReportCard("waste", "Waste Analysis"),
    ReportCard("low-stock", "Low Stock Alert")
  ]

  /** The ids of a list of cards, in order. */
  function CardIds(cards: seq<ReportCard>): (ids: seq<string>)
    ensures |ids| == |cards|
    ensures forall k :: 0 <= k < |cards| ==> ids[k] == cards[k].id
  {
    if cards == [] then [] else [cards[0].id] + CardIds(cards[1..])
  }

  /** The ids the cards offer, in grid order. */
  function ReportIds(): (ids: seq<string>)
    ensures ids == ["daily", "weekly-fraud", "monthly", "waste", "low-stock"]
  {
    CardIds(Cards)
  }

  /** The five cards carry five different ids, so every card's request is
      told apart by its id. */
  lemma ReportIdsDistinct()
    ensures |ReportIds()| == 5
    ensures forall i, j :: 0 <= i < j < |ReportIds()| ==> ReportIds()[i] != ReportIds()[j]
  {
    var ids := ReportIds();
    assert ids[0][0] == 'd' && ids[1][0] == 'w' && ids[2][0] == 'm' && ids[3][0] == 'w' && ids[4][0] == 'l';
    assert ids[1][1] == 'e' && ids[3][1] == 'a';
  }

  /** The `switch` of `generateReport`: each offered id fetches its own
      report, and any other id matches no case and fetches nothing. */
  function ReportEndpoint(id: string): (e: Option<Api.Endpoint>)
    ensures id == "daily" ==> e == Some(Api.GetDailyInventory)
    ensures id == "weekly-fraud" ==> e == Some(Api.GetWeeklyFraud)
    ensures id == "monthly" ==> e == Some(Api.GetMonthlyAnalytics)
    ensures id == "waste" ==> e == Some(Api.GetWasteAnalysis)
    ensures id == "low-stock" ==> e == Some(Api.GetLowStockAlert)
    ensures id != "daily" && id != "weekly-fraud" && id != "monthly" && id != "waste" && id != "low-stock" ==>
      e == None
    ensures e.Some? ==> Api.RouteOf(e.value).verb == Api.Get && Api.RouteOf(e.value).body == None
    ensures e.Some? ==> Api.ReportsPrefix <= Api.RouteOf(e.value).path
  {
    if id == "daily" then Some(Api.GetDailyInventory)
    else if id == "weekly-fraud" then Some(Api.GetWeeklyFraud)
    else if id == "monthly" then Some(Api.GetMonthlyAnalytics)
    else if id == "waste" then Some(Api.GetWasteAnalysis)
    else if id == "low-stock" then Some(Api.GetLowStockAlert)
    else None
  }

  /** An id fetches a report exactly when one of the cards offers it. */
  lemma OfferedIdsFetch(id: string)
    ensures ReportEndpoint(id).Some? <==> id in ReportIds()
  {
    var ids := ReportIds();
  }

  /** Different ids never fetch the same report. */
  lemma ReportEndpointInjective(a: string, b: string)
    requires ReportEndpoint(a).Some? && ReportEndpoint(a) == ReportEndpoint(b)
    ensures a == b
  {
  }

  const DownloadSuffix := "-report.json"

  /** The text a template literal gives an optional id: the id itself, or
      "null" when none was selected. */
  function SelectedText(selected: Option<string>): string
  {
    match selected
    case Some(id) => id
    case None => "null"
  }

  /** The download's file name: the selected id and a fixed suffix, with no
      date or other component. */
  function DownloadName(selected: Option<string>): (name: string)
    ensures |name| == |SelectedText(selected)| + |DownloadSuffix|
    ensures name[..|SelectedText(selected)|] == SelectedText(selected)
    ensures name[|SelectedText(selected)|..] == DownloadSuffix
  {
    SelectedText(selected) + DownloadSuffix
  }

  /** Different selected ids download under different names. */
  lemma DownloadNamesDistinct(a: string, b: string)
    requires a != b
    ensures DownloadName(Some(a)) != DownloadName(Some(b))
  {
  }

  const GenerateFailed := "Failed to generate report"

  class ReportsPage<D> {
    var selectedReport: Option<string>
    var reportData: Option<D>
    var loading: bool

    /** Data is only ever held together with the id of a request. */
    ghost predicate Valid()
      reads this
    {
      reportData.Some? ==> selectedReport.Some?
    }

    constructor ()
      ensures Valid()
      ensures selectedReport == None && reportData == None && !loading
    {
      selectedReport := None;
      reportData := None;
      loading := false;
    }

    /** The part of `generateReport` before the await: loading is switched
        on and the id is recorded as selected, whatever happens next; the
        previous data stays. */
    method BeginGenerate(id: string) returns (sent: Option<Api.Endpoint>)
      requires Valid()
      modifies this
      ensures Valid()
      ensures loading && selectedReport == Some(id) && reportData == old(reportData)
      ensures sent == ReportEndpoint(id)
      ensures !ResultShown()
    {
      loading := true;
      selectedReport := Some(id);
      sent := ReportEndpoint(id);
    }

    /** The part after the await. The data is replaced only when a request
        was sent and succeeded; an unknown id (no request) and a failed
        request both take the failure path and keep the previous data.
        Loading ends either way; the selection is not touched. */
    method CompleteGenerate(sent: Option<Api.Endpoint>, response: Outcome<D>) returns (notice: Option<string>)
      requires Valid() && selectedReport.Some?
      modifies this
      ensures Valid()
      ensures !loading && selectedReport == old(selectedReport)
      ensures sent.Some? && response.Ok? ==> reportData == Some(response.payload) && notice == None
      ensures !(sent.Some? && response.Ok?) ==> reportData == old(reportData) && notice == Some(GenerateFailed)
    {
      if sent.Some? && response.Ok? {
        reportData := Some(response.payload);
        notice := None;
      } else {
        notice := Some(GenerateFailed);
      }
      loading := false;
    }

    /** `generateReport` as a whole, with the server's answer as a
        parameter that is consulted only when a request was sent. */
    method GenerateReport(id: string, response: Outcome<D>)
      returns (sent: Option<Api.Endpoint>, notice: Option<string>)
      requires Valid()
      modifies this
      ensures Valid()
      ensures sent == ReportEndpoint(id) && (sent.Some? <==> id in ReportIds())
      ensures !loading && selectedReport == Some(id)
      ensures ResultShown() <==> reportData.Some?
      ensures sent.Some? && response.Ok? ==> reportData == Some(response.payload) && notice == None
      ensures !(sent.Some? && response.Ok?) ==> reportData == old(reportData) && notice == Some(GenerateFailed)
    {
      sent := BeginGenerate(id);
      notice := CompleteGenerate(sent, response);
    }

    /** The result panel is rendered when there is data and no request is
        in flight. */
    predicate ResultShown()
      reads this
    {
      reportData.Some? && !loading
    }

    /** `downloadReport`: the file is named after the current selection and
        holds the current data; nothing on the page changes. */
    method DownloadReport() returns (name: string, content: Option<D>)
      ensures name == DownloadName(selectedReport) && content == reportData
    {
      name := DownloadName(selectedReport);
      content := reportData;
    }
  }

  /** A failed request after a successful one: the selection moves to the
      failed id while the data stays that of the earlier report, so the
      download carries the earlier report's content under the failed
      report's name. */
  method MislabelledDownload<D>(data: D, failure: Option<string>) returns (name: string, content: Option<D>)
    ensures name == "monthly" + DownloadSuffix
    ensures content == Some(data)
  {
    var page := new ReportsPage<D>();
    var _, _ := page.GenerateReport("daily", Ok(data));
    var _, _ := page.GenerateReport("monthly", Err(failure));
    name, content := page.DownloadReport();
  }
}
