/** The fraud alerts page: a joint load of the alert list and the alert
    statistics, and a review action on pending alerts that asks for notes,
    sends the review and reloads. */
module FraudAlerts {
  import opened Outcomes
  import Api
  import JsString

  /** An alert as the list shows it; `notes` is absent until a review. */
  datatype Alert = Alert(
    id: string, alertType: string, severity: string, status: string, notes: Option<string>)

  /** The four counters of the summary boxes. */
  datatype Statistics = Statistics(totalAlerts: int, pending: int, highSeverity: int, resolved: int)

  const PendingStatus := "pending"

  /** The two review buttons. */
  datatype ReviewStatus = Resolved | Dismissed

  function StatusValue(s: ReviewStatus): string
  {
    match s
    case Resolved => "resolved"
    case Dismissed => "dismissed"
  }

  /** The two review outcomes are told apart on the wire, and neither is
      the pending status the buttons are offered for. */
  lemma StatusValuesDistinct(a: ReviewStatus, b: ReviewStatus)
    ensures StatusValue(a) == StatusValue(b) ==> a == b
    ensures StatusValue(a) != PendingStatus
  {
  }

  /** The buttons shown on an alert's card: both review actions for a
      pending alert, none for any other status. */
  function ReviewActions(alert: Alert): (actions: seq<ReviewStatus>)
    ensures alert.status == PendingStatus ==> Resolved in actions && Dismissed in actions
    ensures alert.status != PendingStatus ==> actions == []
    ensures |actions| <= 2
  {
    if alert.status == PendingStatus then [Resolved, Dismissed] else []
  }

  /** The body of the review request. */
  function ReviewBody(status: ReviewStatus, notes: string): (b: Api.Body)
    ensures b.Keys == {"status", "notes"}
    ensures b["status"] == StatusValue(status) && b["notes"] == notes
  {
    map["status" := StatusValue(status), "notes" := notes]
  }

  /** The card's title: `replace(/_/g, ' ')` turns every underscore into a
      space and keeps every other character. */
  function AlertTypeLabel(alertType: string): (shown: string)
    ensures |shown| == |alertType|
    ensures '_' !in shown
    ensures forall k :: 0 <= k < |alertType| && alertType[k] == '_' ==> shown[k] == ' '
    ensures forall k :: 0 <= k < |alertType| && alertType[k] != '_' ==> shown[k] == alertType[k]
  {
    JsString.ReplaceAllRemovesAll(alertType, '_', ' ');
    JsString.ReplaceAll(alertType, '_', ' ')
  }

  /** A title is left alone by a second pass. */
  lemma AlertTypeLabelIdempotent(alertType: string)
    ensures AlertTypeLabel(AlertTypeLabel(alertType)) == AlertTypeLabel(alertType)
  {
  }

  /** The severity badge: `toUpperCase`, so each character is upper-cased
      in place and no lower-case ASCII letter is left. */
  function SeverityBadge(severity: string): (shown: string)
    ensures |shown| == |severity|
    ensures forall k :: 0 <= k < |severity| ==> shown[k] == JsString.UpperChar(severity[k])
    ensures forall k :: 0 <= k < |shown| ==> !('a' <= shown[k] <= 'z')
    ensures forall k :: 0 <= k < |severity| && !('a' <= severity[k] <= 'z') ==> shown[k] == severity[k]
  {
    JsString.ToUpperAscii(severity)
  }

  const ReviewFailed := "Failed to review alert"

  /** The notice after a successful review names the chosen status. */
  function ReviewedNotice(status: ReviewStatus): string
  {
    "Alert marked as " + StatusValue(status) + "!"
  }

  /** Success and failure notices are never confused, and the two success
      notices differ. */
  lemma NoticesDistinct(a: ReviewStatus, b: ReviewStatus)
    ensures ReviewedNotice(a) != ReviewFailed
    ensures ReviewedNotice(a) == ReviewedNotice(b) ==> a == b
  {
    assert ReviewedNotice(a)[0] == 'A' != ReviewFailed[0];
    if a != b {
      assert ReviewedNotice(a)[16] != ReviewedNotice(b)[16];
    }
  }

  class FraudAlertsPage {
    var alerts: seq<Alert>
    var statistics: Option<Statistics>
    var loading: bool

    constructor ()
      ensures alerts == [] && statistics == None && loading
    {
      alerts := [];
      statistics := None;
      loading := true;
    }

    /** `loadData`: the alerts and the statistics are replaced together
        when both loads succeed and are kept together otherwise
        (`Promise.all` rejects as a whole); loading ends either way. */
    method LoadData(alertsResult: Outcome<seq<Alert>>, statsResult: Outcome<Statistics>)
      modifies this
      ensures alertsResult.Ok? && statsResult.Ok? ==>
        alerts == alertsResult.payload && statistics == Some(statsResult.payload)
      ensures !(alertsResult.Ok? && statsResult.Ok?) ==>
        alerts == old(alerts) && statistics == old(statistics)
      ensures !loading
    {
      if alertsResult.Ok? && statsResult.Ok? {
        alerts := alertsResult.payload;
        statistics := Some(statsResult.payload);
      }
      loading := false;
    }

    /** `handleReview`. `notes` is the prompt's answer, `None` when it was
        cancelled: then nothing is sent and nothing changes. Any other
        answer, the empty one included, sends the review. On success the
        page reloads (the reload's answers are parameters) and names the
        status; every failure shows the same message and changes nothing. */
    method HandleReview(alertId: string, status: ReviewStatus, notes: Option<string>,
                        response: Outcome<()>,
                        reloadAlerts: Outcome<seq<Alert>>, reloadStats: Outcome<Statistics>)
      returns (sent: Option<Api.Endpoint>, notice: Option<string>)
      modifies this
      ensures notes.None? ==>
        && sent == None && notice == None
        && alerts == old(alerts) && statistics == old(statistics) && loading == old(loading)
      ensures notes.Some? ==> sent == Some(Api.ReviewAlert(alertId, ReviewBody(status, notes.value)))
      ensures notes.Some? && response.Ok? ==>
        && notice == Some(ReviewedNotice(status))
        && (reloadAlerts.Ok? && reloadStats.Ok? ==>
              alerts == reloadAlerts.payload && statistics == Some(reloadStats.payload))
        && (!(reloadAlerts.Ok? && reloadStats.Ok?) ==>
              alerts == old(alerts) && statistics == old(statistics))
        && !loading
      ensures notes.Some? && response.Err? ==>
        && notice == Some(ReviewFailed)
        && alerts == old(alerts) && statistics == old(statistics) && loading == old(loading)
    {
      if notes.None? {
        return None, None;
      }
      sent := Some(Api.ReviewAlert(alertId, ReviewBody(status, notes.value)));
      if response.Ok? {
        LoadData(reloadAlerts, reloadStats);
        notice := Some(ReviewedNotice(status));
      } else {
        notice := Some(ReviewFailed);
      }
    }
  }
}
