/** The one-shot test hook of the Electron client: a loading flag, the last
    error message and the last result around one `/run-test` request. The
    request is awaited between `Begin` and `Settle`; a render in between sees
    the state `Begin` leaves. */
module ComplianceHook {
  import opened Wrappers
  import Api
  import BaseService

  type Response = BaseService.TestExecutionResponse

  class ComplianceTest {
    var isLoading: bool
    var error: Option<string>
    var result: Option<Response>
    /** Requests posted to the server, oldest first. */
    var sent: seq<Api.Post>

    constructor()
      ensures !isLoading && error.None? && result.None? && sent == []
    {
      isLoading := false;
      error := None;
      result := None;
      sent := [];
    }

    /** The synchronous part of `runTest`: loading, no error, no result, and
        the request posted. Selected sub-tests, when given, are passed to a
        function that ignores them, so the request is the same either way. */
    method Begin(gameUrl: string, testType: string, selectedSubTests: seq<string>) returns (post: Api.Post)
      modifies this
      ensures post == Api.SubmitComplianceTest(gameUrl, testType)
      ensures isLoading && error.None? && result.None?
      ensures sent == old(sent) + [post]
    {
      isLoading := true;
      error := None;
      result := None;
      post := Api.SubmitComplianceTest(gameUrl, testType);
      sent := sent + [post];
    }

    /** The rest of `runTest` once the reply is in: the result is stored and
        returned, or the error's message is stored and the error rethrown;
        loading ends either way. */
    method Settle(reply: Result<Response, Api.HttpFailure>) returns (r: Result<Response, string>)
      modifies this
      ensures r == Api.Call(reply)
      ensures !isLoading
      ensures reply.Success? ==> result == Some(reply.value) && error == old(error)
      ensures reply.Failure? ==> error == Some(Api.HandleApiError(reply.error)) && result == old(result)
      ensures sent == old(sent)
    {
      match reply {
        case Success(response) =>
          result := Some(response);
          r := Success(response);
        case Failure(e) =>
          error := Some(Api.HandleApiError(e));
          r := Failure(Api.HandleApiError(e));
      }
      isLoading := false;
    }

    /** `runTest` without a render between request and reply: afterwards
        exactly one of `result` and `error` is set. */
    method RunTest(gameUrl: string, testType: string, selectedSubTests: seq<string>,
                   reply: Result<Response, Api.HttpFailure>) returns (r: Result<Response, string>)
      modifies this
      ensures r == Api.Call(reply)
      ensures !isLoading
      ensures result.Some? <==> r.Success?
      ensures error.Some? <==> r.Failure?
      ensures r.Success? ==> result == Some(r.value)
      ensures r.Failure? ==> error == Some(r.error)
      ensures sent == old(sent) + [Api.SubmitComplianceTest(gameUrl, testType)]
    {
      var _ := Begin(gameUrl, testType, selectedSubTests);
      r := Settle(reply);
    }

    /** `clearError`: only the error goes. */
    method ClearError()
      modifies this
      ensures error.None?
      ensures isLoading == old(isLoading) && result == old(result) && sent == old(sent)
    {
      error := None;
    }

    /** `clearResult`: only the result goes. */
    method ClearResult()
      modifies this
      ensures result.None?
      ensures isLoading == old(isLoading) && error == old(error) && sent == old(sent)
    {
      result := None;
    }
  }
}
