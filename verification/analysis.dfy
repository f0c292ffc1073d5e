/** The `analyze` endpoint: check the upload, take the provider's reply, turn
    it into labels, match them against the sample catalog and choose the
    response. The provider call itself is not modelled: its reply (an analysis,
    a request failure, or any other failure) is an input. */
module Analysis {
  import opened Optional
  import opened Recipes
  import opened Vision
  import opened Matching

  /** The form file: absent (null), or present with its length in bytes. */
  datatype Upload = NoFile | File(length: nat)

  /** What the provider call produced: an analysis, a request failure carrying
      the provider's status, message and error code (the code may be null), or
      any other failure carrying its message. */
  datatype ProviderReply =
    | Analyzed(result: AnalysisResult)
    | RequestFailed(status: int, message: string, code: Option<string>)
    | Faulted(details: string)

  /** The responses the endpoint can give. */
  datatype Outcome =
    | BadRequest(message: string)
    | NotFound(message: string)
    | Ok(detected: seq<string>, matches: seq<Recipe>, message: string)
    | ProviderFailure(status: int, error: string, code: Option<string>)
    | Internal(error: string, details: string)
  {
    /** The HTTP status code the response is sent with. */
    function Status(): int {
      match this
      case BadRequest(_) => 400
      case NotFound(_) => 404
      case Ok(_, _, _) => 200
      case ProviderFailure(status, _, _) => status
      case Internal(_, _) => 500
    }
  }

  const NoFileMessage := "No image file uploaded."
  const NoMatchMessage := "No matching recipes found for the detected ingredients."
  const SuccessMessage := "Image analysis completed successfully."
  const UnexpectedMessage := "An unexpected error occurred during image analysis."

  /** A file was uploaded and it is not empty. */
  predicate HasImage(upload: Upload) {
    upload.File? && upload.length != 0
  }

  /** Some sample recipe matches `labels`. */
  predicate AnyMatch(labels: seq<string>) {
    exists r :: r in SampleRecipes() && Matches(r, labels)
  }

  /** The response of the endpoint to `upload`, given what the provider call
      produces. A missing or empty upload is refused before the reply is looked
      at; a request failure passes the provider's status, message and code
      through; any other failure is a 500 with the fixed generic text; an
      analysis gives 200 with the labels and the matching recipes when some
      recipe matches and 404 otherwise. Only the 200 response carries matches. */
  function AnalyzeImage(upload: Upload, reply: ProviderReply): (o: Outcome)
    ensures !HasImage(upload) ==> o == BadRequest(NoFileMessage)
    ensures o.BadRequest? <==> !HasImage(upload)
    ensures HasImage(upload) && reply.RequestFailed? ==>
      o == ProviderFailure(reply.status, reply.message, reply.code) && o.Status() == reply.status
    ensures HasImage(upload) && reply.Faulted? ==>
      o == Internal(UnexpectedMessage, reply.details) && o.Status() == 500
    ensures o.Ok? <==> HasImage(upload) && reply.Analyzed? && AnyMatch(ExtractLabels(reply.result))
    ensures o.NotFound? <==> HasImage(upload) && reply.Analyzed? && !AnyMatch(ExtractLabels(reply.result))
    ensures o.NotFound? ==> o.message == NoMatchMessage && o.Status() == 404
    ensures o.Ok? ==>
      && o.detected == ExtractLabels(reply.result)
      && |o.matches| > 0
      && IsSubsequence(o.matches, SampleRecipes())
      && (forall r :: r in o.matches <==> r in SampleRecipes() && Matches(r, o.detected))
      && o.message == SuccessMessage
      && o.Status() == 200
  {
    if !HasImage(upload) then BadRequest(NoFileMessage)
    else
      match reply
      case RequestFailed(status, message, code) => ProviderFailure(status, message, code)
      case Faulted(details) => Internal(UnexpectedMessage, details)
      case Analyzed(result) =>
        var labels := ExtractLabels(result);
        var matches := MatchRecipes(SampleRecipes(), labels);
        if |matches| == 0 then NotFound(NoMatchMessage)
        else
          assert matches[0] in matches;
          MatchesAreSubsequence(SampleRecipes(), labels);
          Ok(labels, matches, SuccessMessage)
  }

  /** An analysis that yields no label ends in 404 with the not-found message. */
  lemma NoLabelsGiveNotFound(upload: Upload, reply: ProviderReply)
    requires HasImage(upload) && reply.Analyzed?
    requires ExtractLabels(reply.result) == []
    ensures AnalyzeImage(upload, reply) == NotFound(NoMatchMessage)
  {
    NoLabelsNoMatches(SampleRecipes());
  }

  /** The response does not depend on the case of the tags the provider
      reports: re-casing the first tag of any object changes nothing. */
  lemma TagCaseDoesNotChangeResponse(upload: Upload, objs: seq<DetectedObject>, objs': seq<DetectedObject>)
    requires |objs| == |objs'|
    requires forall i :: 0 <= i < |objs| ==> Tagged(objs[i]) == Tagged(objs'[i])
    requires forall i :: 0 <= i < |objs| && Tagged(objs[i]) && Tagged(objs'[i]) ==>
      Text.SameModuloCase(objs[i].tags[0], objs'[i].tags[0])
    ensures AnalyzeImage(upload, Analyzed(AnalysisResult(Some(objs))))
      == AnalyzeImage(upload, Analyzed(AnalysisResult(Some(objs'))))
  {
    TagCaseIsIrrelevant(objs, objs');
  }
}
