/** Building the per-channel error record and classifying a dispatch by how many
    of its channels succeeded. */
module ResponseUtils {
  import opened Js
  import opened Http

  /** `{error, response}`; `response` is present only when the error carried one. */
  datatype ErrorRecord = ErrorRecord(error: string, response: Option<HttpResponse>)

  /** `createErrorResponse(channel, err)`. */
  function CreateErrorResponse(channel: string, err: HttpError): (r: ErrorRecord)
    ensures |r.error| == |channel| + |" error: "| + |err.message|
    ensures r.error[..|channel|] == channel
    ensures r.error[|channel|..|channel| + 8] == " error: "
    ensures r.error[|channel| + 8..] == err.message
    ensures r.response == err.response
  {
    ErrorRecord(channel + " error: " + err.message,
                match err.response
                case Some(resp) => Some(HttpResponse(resp.status, resp.data))
                case None => None)
  }

  /** On one channel, the error text determines the error message: two errors
      with different messages never yield the same error text. */
  lemma ErrorRecordDeterminesCause(channel: string, err1: HttpError, err2: HttpError)
    requires CreateErrorResponse(channel, err1).error == CreateErrorResponse(channel, err2).error
    ensures err1.message == err2.message
  {
    var e1 := CreateErrorResponse(channel, err1).error;
    assert e1[|channel| + 8..] == err1.message;
  }

  /** The overall HTTP status and summary message of a dispatch. */
  datatype StatusReply = StatusReply(status: int, message: string)

  /** `determineResponseStatus(successfulChannels, totalChannels)`. */
  function DetermineResponseStatus(successful: int, total: int): (r: StatusReply)
    ensures r.status in {200, 207, 500}
    ensures r.status == 200 <==> total == 0 || successful == total
    ensures r.status == 207 <==> total != 0 && successful != total && successful > 0
    ensures r.message == match r.status
                         case 200 => if total == 0 then "No notifications to send" else "Notifications sent"
                         case 207 => "Notifications sent partially"
                         case _ => "Failed to send notifications"
  {
    if total == 0 then StatusReply(200, "No notifications to send")
    else if successful == total then StatusReply(200, "Notifications sent")
    else if successful > 0 then StatusReply(207, "Notifications sent partially")
    else StatusReply(500, "Failed to send notifications")
  }

  /** For counts a dispatch can produce (0 <= successful <= total), the status is
      200 exactly when nothing failed, 207 exactly when some but not all channels
      succeeded, and 500 exactly when channels were attempted and none succeeded. */
  lemma ClassifiesDispatchCounts(successful: nat, total: nat)
    requires successful <= total
    ensures var r := DetermineResponseStatus(successful, total);
            && (r.status == 200 <==> successful == total)
            && (r.status == 207 <==> 0 < successful < total)
            && (r.status == 500 <==> successful == 0 < total)
            && (total == 0 ==> r.message == "No notifications to send")
            && (0 < successful == total ==> r.message == "Notifications sent")
  {
  }
}
