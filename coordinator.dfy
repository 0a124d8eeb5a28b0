/**
 What the softener's update coordinator makes of one fetch: the snapshot when
 the client returns one, an `UpdateFailed` carrying the client's error text
 when the client raises its own exception, and any other exception passed
 through uncaught.
 */
module Coordinator {
  import opened Wrappers
  import opened Sensors

  /** An exception raised by the device client, with its `str()` text. */
  datatype Error =
    | IquaSoftenerException(text: string)
    | OtherException(kind: string, text: string)

  /** What one call of the device client produced. */
  datatype FetchOutcome = Fetched(data: Snapshot) | Raised(error: Error)

  /** What one update of the coordinator produces. */
  datatype UpdateOutcome =
    | Updated(data: Snapshot)
    | UpdateFailed(message: string)
    | Uncaught(error: Error)

  const FailurePrefix := "Failed to fetch IQua softener data: "

  /** The client's error text inside an `UpdateFailed` message, if the message has the coordinator's form. */
  function FailureCause(message: string): (cause: Option<string>)
    ensures cause.Some? ==> message == FailurePrefix + cause.value
    ensures cause.None? ==> !(|FailurePrefix| <= |message| && message[..|FailurePrefix|] == FailurePrefix)
  {
    if |FailurePrefix| <= |message| && message[..|FailurePrefix|] == FailurePrefix
    then Some(message[|FailurePrefix|..])
    else None
  }

  /** One coordinator update, given what the device client did. */
  function UpdateData(fetch: FetchOutcome): (r: UpdateOutcome)
    ensures fetch.Fetched? ==> r == Updated(fetch.data)
    ensures r.UpdateFailed? <==> fetch.Raised? && fetch.error.IquaSoftenerException?
    ensures r.UpdateFailed? ==> FailureCause(r.message) == Some(fetch.error.text)
    ensures r.Uncaught? <==> fetch.Raised? && fetch.error.OtherException?
    ensures r.Uncaught? ==> r.error == fetch.error
  {
    match fetch
    case Fetched(data) => Updated(data)
    case Raised(IquaSoftenerException(text)) =>
      assert (FailurePrefix + text)[..|FailurePrefix|] == FailurePrefix;
      UpdateFailed(FailurePrefix + text)
    case Raised(e) => Uncaught(e)
  }

  /** Different client errors give different failure messages. */
  lemma FailureMessagesDistinct(a: string, b: string)
    requires a != b
    ensures UpdateData(Raised(IquaSoftenerException(a))) != UpdateData(Raised(IquaSoftenerException(b)))
  {
    var ra, rb := UpdateData(Raised(IquaSoftenerException(a))), UpdateData(Raised(IquaSoftenerException(b)));
    assert FailureCause(ra.message) == Some(a);
    assert FailureCause(rb.message) == Some(b);
  }
}
