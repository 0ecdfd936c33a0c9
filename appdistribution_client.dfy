/** The request guards and error mapping of the App Distribution client
    (src/appdistribution/client.ts). Each operation returns the request it would send (if
    any) and how it completes; the server's reply to that request is an input. */
module AppDistributionClient {
  import opened Wrappers
  import opened Errors

  /** A failed request as the REST client reports it: `err.message`, the server's
      `err.context.body.error.status` when the body has one, and `${err}`, the error's
      string form. */
  datatype RequestError = RequestError(message: string, status: Option<string>, text: string)

  /** The JSON bodies the client sends. */
  datatype Body =
    | DistributeBody(testerEmails: seq<string>, groupAliases: seq<string>)
    | ReleaseNotesBody(name: string, text: string)
    | EmailsBody(emails: seq<string>)

  /** A request to the App Distribution API; `updateMask` is the one query parameter used. */
  datatype Request =
    | Post(path: string, body: Body)
    | Patch(path: string, body: Body, updateMask: string)

  /** What a call does: the request it sends, if any, and its result or the error it throws. */
  datatype Call<T> = Call(sent: Option<Request>, result: Result<T, FirebaseError>)

  /** `BatchRemoveTestersResponse`. */
  datatype RemovedTesters = RemovedTesters(emails: seq<string>)

  const DistributeErrorPrefix: string := "failed to distribute to testers/groups: "
  const ReleaseNotesErrorPrefix: string := "failed to update release notes with "
  const AddTestersErrorPrefix: string := "Failed to add testers "
  const RemoveTestersErrorPrefix: string := "Failed to remove testers "
  const ReleaseNotesUpdateMask: string := "release_notes.text"

  /** The reason `distribute` reports: the server status picks a fixed reason, otherwise the
      error's own message is kept. */
  function DistributeErrorReason(err: RequestError): (reason: string)
    ensures err.status == Some("FAILED_PRECONDITION") ==> reason == "invalid testers"
    ensures err.status == Some("INVALID_ARGUMENT") ==> reason == "invalid groups"
    ensures err.status != Some("FAILED_PRECONDITION") && err.status != Some("INVALID_ARGUMENT") ==>
              reason == err.message
  {
    if err.status == Some("FAILED_PRECONDITION") then "invalid testers"
    else if err.status == Some("INVALID_ARGUMENT") then "invalid groups"
    else err.message
  }

  /** `distribute(releaseName, testerEmails, groupAliases)`; pass [] for an omitted list. */
  function Distribute(releaseName: string, testerEmails: seq<string>, groupAliases: seq<string>,
                      reply: Result<(), RequestError>): (c: Call<()>)
    ensures c.sent.None? <==> |testerEmails| == 0 && |groupAliases| == 0
    ensures c.sent.None? ==> c.result.Success?
    ensures c.sent.Some? ==> c.sent.value == Post("/" + releaseName + ":distribute", DistributeBody(testerEmails, groupAliases))
    ensures c.sent.Some? ==> (c.result.Success? <==> reply.Success?)
    ensures c.sent.Some? && reply.Failure? ==>
              c.result.error == FirebaseError(DistributeErrorPrefix + DistributeErrorReason(reply.error), Some(1))
  {
    if |testerEmails| == 0 && |groupAliases| == 0 then Call(None, Success(()))
    else
      var request := Post("/" + releaseName + ":distribute", DistributeBody(testerEmails, groupAliases));
      match reply
      case Success(_) => Call(Some(request), Success(()))
      case Failure(err) =>
        Call(Some(request), Failure(FirebaseError(DistributeErrorPrefix + DistributeErrorReason(err), Some(1))))
  }

  /** The error message of a failed distribution names the reason after the fixed prefix, and
      the reason can be read back from the message. */
  lemma DistributeErrorNamesReason(releaseName: string, testerEmails: seq<string>, groupAliases: seq<string>,
                                   err: RequestError)
    requires |testerEmails| > 0 || |groupAliases| > 0
    ensures var c := Distribute(releaseName, testerEmails, groupAliases, Failure(err));
      && c.result.Failure?
      && c.result.error.exit == Some(1)
      && |c.result.error.message| >= |DistributeErrorPrefix|
      && c.result.error.message[..|DistributeErrorPrefix|] == DistributeErrorPrefix
      && c.result.error.message[|DistributeErrorPrefix|..] == DistributeErrorReason(err)
  {
    var m := DistributeErrorPrefix + DistributeErrorReason(err);
    assert m[..|DistributeErrorPrefix|] == DistributeErrorPrefix;
    assert m[|DistributeErrorPrefix|..] == DistributeErrorReason(err);
  }

  /** `updateReleaseNotes(releaseName, releaseNotes)`. */
  function UpdateReleaseNotes(releaseName: string, releaseNotes: string, reply: Result<(), RequestError>): (c: Call<()>)
    ensures c.sent.None? <==> releaseNotes == ""
    ensures c.sent.None? ==> c.result.Success?
    ensures c.sent.Some? ==>
              c.sent.value == Patch("/" + releaseName, ReleaseNotesBody(releaseName, releaseNotes), ReleaseNotesUpdateMask)
    ensures c.sent.Some? ==> (c.result.Success? <==> reply.Success?)
    ensures c.sent.Some? && reply.Failure? ==>
              c.result.error == FirebaseError(ReleaseNotesErrorPrefix + reply.error.message, None)
  {
    if releaseNotes == "" then Call(None, Success(()))
    else
      var request := Patch("/" + releaseName, ReleaseNotesBody(releaseName, releaseNotes), ReleaseNotesUpdateMask);
      match reply
      case Success(_) => Call(Some(request), Success(()))
      case Failure(err) => Call(Some(request), Failure(FirebaseError(ReleaseNotesErrorPrefix + err.message, None)))
  }

  /** `addTesters(projectName, emails)`: always sends the batch request. */
  function AddTesters(projectName: string, emails: seq<string>, reply: Result<(), RequestError>): (c: Call<()>)
    ensures c.sent == Some(Post(projectName + "/testers:batchAdd", EmailsBody(emails)))
    ensures c.result.Success? <==> reply.Success?
    ensures reply.Failure? ==> c.result.error == FirebaseError(AddTestersErrorPrefix + reply.error.text, None)
  {
    var request := Post(projectName + "/testers:batchAdd", EmailsBody(emails));
    match reply
    case Success(_) => Call(Some(request), Success(()))
    case Failure(err) => Call(Some(request), Failure(FirebaseError(AddTestersErrorPrefix + err.text, None)))
  }

  /** `removeTesters(projectName, emails)`: always sends the batch request and returns the
      response body unchanged. */
  function RemoveTesters(projectName: string, emails: seq<string>, reply: Result<RemovedTesters, RequestError>)
    : (c: Call<RemovedTesters>)
    ensures c.sent == Some(Post(projectName + "/testers:batchRemove", EmailsBody(emails)))
    ensures reply.Success? ==> c.result == Success(reply.value)
    ensures reply.Failure? ==> c.result == Failure(FirebaseError(RemoveTestersErrorPrefix + reply.error.text, None))
  {
    var request := Post(projectName + "/testers:batchRemove", EmailsBody(emails));
    match reply
    case Success(body) => Call(Some(request), Success(body))
    case Failure(err) => Call(Some(request), Failure(FirebaseError(RemoveTestersErrorPrefix + err.text, None)))
  }

  /** Every failed call reports its operation in the first words of the message. */
  lemma FailuresNameTheOperation(name: string, emails: seq<string>, notes: string, err: RequestError)
    ensures var m := AddTesters(name, emails, Failure(err)).result.error.message;
      |m| >= |AddTestersErrorPrefix| && m[..|AddTestersErrorPrefix|] == AddTestersErrorPrefix
    ensures var m := RemoveTesters(name, emails, Failure(err)).result.error.message;
      |m| >= |RemoveTestersErrorPrefix| && m[..|RemoveTestersErrorPrefix|] == RemoveTestersErrorPrefix
    ensures notes != "" ==>
      var m := UpdateReleaseNotes(name, notes, Failure(err)).result.error.message;
      |m| >= |ReleaseNotesErrorPrefix| && m[..|ReleaseNotesErrorPrefix|] == ReleaseNotesErrorPrefix
  {
    var a := AddTestersErrorPrefix + err.text;
    assert a[..|AddTestersErrorPrefix|] == AddTestersErrorPrefix;
    var r := RemoveTestersErrorPrefix + err.text;
    assert r[..|RemoveTestersErrorPrefix|] == RemoveTestersErrorPrefix;
    var u := ReleaseNotesErrorPrefix + err.message;
    assert u[..|ReleaseNotesErrorPrefix|] == ReleaseNotesErrorPrefix;
  }
}
