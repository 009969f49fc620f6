/** The ticket check at the door: the result built from the verification
    call and what part of a ticket it shows (src/pages/VerifyTicket.jsx). */
module Verification {
  import opened Base

  /** The fields of the success response the page reads; each may be absent. */
  datatype VerifyResponse = VerifyResponse(
    success: Option<bool>,
    error: Option<string>,
    booking: Option<Booking>,
    details: Option<TicketSummary>)

  /** The `result` state once a check has finished. */
  datatype VerifyResult = VerifyResult(
    success: bool,
    error: Option<string>,
    booking: Option<Booking>,
    details: Option<TicketSummary>)

  const VerificationFailed := "Verification Failed"

  /** `{ success: true, ...data }` on success (a `success` key in the data
      overrides the default); on failure `success` is false, the message is
      the server's error or "Verification Failed", `details` is the server's
      and there is no booking. */
  function ShapeResult(res: Http<VerifyResponse>): (r: VerifyResult)
    ensures res.Ok? ==> r.booking == res.data.booking && r.details == res.data.details && r.error == res.data.error
    ensures res.Ok? ==> (r.success <==> res.data.success != Some(false))
    ensures res.Failed? ==> !r.success && r.booking.None? && r.error == Some(ServerMessage(res, VerificationFailed))
    ensures res.Failed? ==> r.details == (if res.body.Some? then res.body.value.details else None)
  {
    match res
    case Ok(data) =>
      VerifyResult(if data.success.Some? then data.success.value else true, data.error, data.booking, data.details)
    case Failed(body) =>
      VerifyResult(false, Some(ServerMessage(res, VerificationFailed)),
                   None, if body.Some? then body.value.details else None)
  }

  /** The attendee, event and email block: shown iff a booking came back. */
  predicate ShowsFullDetails(r: VerifyResult)
  {
    r.booking.Some?
  }

  /** The booking id and status block: shown only for details without a booking. */
  predicate ShowsLimitedDetails(r: VerifyResult)
  {
    r.details.Some? && r.booking.None?
  }

  /** The two blocks never show together; a refused ticket never shows the
      attendee's details, and shows the limited block exactly when the server
      disclosed its id and status. */
  lemma DetailBlocks(res: Http<VerifyResponse>)
    ensures !(ShowsFullDetails(ShapeResult(res)) && ShowsLimitedDetails(ShapeResult(res)))
    ensures res.Failed? ==> !ShowsFullDetails(ShapeResult(res))
    ensures res.Failed? ==>
              (ShowsLimitedDetails(ShapeResult(res)) <==> res.body.Some? && res.body.value.details.Some?)
    ensures res.Ok? ==> (ShowsFullDetails(ShapeResult(res)) <==> res.data.booking.Some?)
  {
  }

  /** The headline: "Valid Ticket", or the error text. */
  datatype Headline = ValidTicket | Invalid(message: Option<string>)

  function HeadlineOf(r: VerifyResult): (h: Headline)
    ensures h == ValidTicket <==> r.success
    ensures h.Invalid? ==> h.message == r.error
  {
    if r.success then ValidTicket else Invalid(r.error)
  }

  /** A failed call always has a non-empty message to show. */
  lemma FailureHasMessage(res: Http<VerifyResponse>)
    requires res.Failed?
    ensures HeadlineOf(ShapeResult(res)).Invalid?
    ensures HeadlineOf(ShapeResult(res)).message.Some? && HeadlineOf(ShapeResult(res)).message.value != ""
  {
  }

  /** The page's state: the typed ticket id and the last result. */
  class VerifyTicketPage {
    var ticketId: string
    var result: Option<VerifyResult>

    constructor ()
      ensures ticketId == "" && result.None?
    {
      ticketId, result := "", None;
    }

    method EditTicketId(text: string)
      modifies this`ticketId
      ensures ticketId == text
    {
      ticketId := text;
    }

    /** `handleVerify`, first step: the previous result is cleared. */
    method BeginVerify() returns (request: string)
      modifies this`result
      ensures result.None? && request == ticketId
    {
      result := None;
      request := ticketId;
    }

    /** `handleVerify`, second step: the call's outcome becomes the result. */
    method FinishVerify(res: Http<VerifyResponse>)
      modifies this`result
      ensures result == Some(ShapeResult(res))
    {
      result := Some(ShapeResult(res));
    }

    /** One whole check: whatever was shown before, the result afterwards
        depends on this call alone. */
    method Verify(res: Http<VerifyResponse>) returns (request: string)
      modifies this`result
      ensures request == ticketId && result == Some(ShapeResult(res))
    {
      request := BeginVerify();
      FinishVerify(res);
    }
  }
}
