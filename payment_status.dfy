/** The landing page after checkout (src/components/Payment/PaymentStatus.tsx):
    the initial status, the one-shot verification effect, and the only
    write of the `cv_paid` storage entry. The page's URL, `localStorage` and
    the fetch reply enter as parameters and fields. */
module PaymentStatus {
  import opened Wrappers
  import opened Strings
  import opened Http

  datatype Status = Loading | Success | Error | Canceled

  /** `canceled ? 'canceled' : 'loading'`, where `canceled` tests the
      pathname for "cancel". */
  function InitialStatus(pathname: string): (r: Status)
    ensures r == Canceled <==> Contains(pathname, "cancel")
    ensures r == Loading <==> !Contains(pathname, "cancel")
  {
    if Contains(pathname, "cancel") then Canceled else Loading
  }

  /** `!sessionId` fails for a missing parameter and for an empty one. */
  predicate HasSessionId(sessionId: Option<string>)
  {
    sessionId.Some? && sessionId.value != ""
  }

  /** The branch `verifyPayment` takes on the reply to verify-session. */
  predicate ReportsPaid(reply: FetchResult)
  {
    reply.FetchReturned? && FieldIs(reply.data, "status", "paid")
  }

  predicate ReportsOpen(reply: FetchResult)
  {
    reply.FetchReturned? && FieldIs(reply.data, "status", "open")
  }

  /** The status once the effect has run, starting from `current`. */
  function StatusAfterEffect(canceled: bool, sessionId: Option<string>, reply: FetchResult, current: Status): (r: Status)
    ensures canceled ==> r == current
    ensures !canceled && !HasSessionId(sessionId) ==> r == Error
    ensures !canceled && HasSessionId(sessionId) ==>
              && (ReportsPaid(reply) ==> r == Success)
              && (r == Success ==> ReportsPaid(reply) || current == Success)
              && (ReportsOpen(reply) ==> r == current)
              && (!ReportsPaid(reply) && !ReportsOpen(reply) ==> r == Error)
  {
    if canceled then current
    else if !HasSessionId(sessionId) then Error
    else if ReportsPaid(reply) then Success
    else if ReportsOpen(reply) then current
    else Error
  }

  /** Whether the effect stores `cv_paid = 'true'`. */
  predicate MarksPaid(canceled: bool, sessionId: Option<string>, reply: FetchResult)
  {
    !canceled && HasSessionId(sessionId) && ReportsPaid(reply)
  }

  /** The key the CV builder reads to unlock downloads. */
  const PaidKey := "cv_paid"

  class PaymentStatusPage {
    const canceled: bool
    const sessionId: Option<string>
    var status: Status
    /** `localStorage`. */
    var storage: map<string, string>

    /** Mounting the page at `pathname` with the given query string. */
    constructor (pathname: string, query: seq<(string, string)>, storage0: map<string, string>)
      ensures canceled == Contains(pathname, "cancel")
      ensures sessionId == QueryGet(query, "session_id")
      ensures status == InitialStatus(pathname)
      ensures storage == storage0
    {
      canceled := Contains(pathname, "cancel");
      sessionId := QueryGet(query, "session_id");
      status := InitialStatus(pathname);
      storage := storage0;
    }

    /** The effect: returns at once when canceled, fails without a session
        id, and otherwise fetches verify-session for that id (returned as
        `requested`) and maps the reply. */
    method RunEffect(reply: FetchResult) returns (requested: Option<string>)
      modifies this
      ensures requested.Some? <==> !canceled && HasSessionId(sessionId)
      ensures requested.Some? ==> requested == sessionId
      ensures status == StatusAfterEffect(canceled, sessionId, reply, old(status))
      ensures storage == if MarksPaid(canceled, sessionId, reply) then old(storage)[PaidKey := "true"] else old(storage)
    {
      requested := None;
      if canceled {
        return;
      }
      if !HasSessionId(sessionId) {
        status := Error;
        return;
      }
      requested := sessionId;
      match reply {
        case FetchThrew =>
          status := Error;
        case FetchReturned(data) =>
          if FieldIs(data, "status", "paid") {
            status := Success;
            storage := storage[PaidKey := "true"];
          } else if FieldIs(data, "status", "open") {
          } else {
            status := Error;
          }
      }
    }
  }

  /** A canceled landing never leaves `canceled` and never writes
      `cv_paid`. */
  lemma CanceledStays(pathname: string, sessionId: Option<string>, reply: FetchResult)
    requires Contains(pathname, "cancel")
    ensures StatusAfterEffect(true, sessionId, reply, InitialStatus(pathname)) == Canceled
    ensures !MarksPaid(true, sessionId, reply)
  {
  }
}
