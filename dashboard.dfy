/**
 * The dashboard page (frontend/src/pages/Dashboard.js): the state it keeps
 * between an upload and a classification, and how it finds the predictions
 * in the classifier's reply, whose shape varies.
 */
module Dashboard {
  import opened Wrappers
  import CsvUpload

  /** A parsed JSON value. */
  datatype Json =
    | JNull
    | JBool(b: bool)
    | JNumber(n: real)
    | JString(s: string)
    | JArray(items: seq<Json>)
    | JObject(fields: map<string, Json>)

  /** The keys tried, in this order, when the reply is an object. */
  const PredictionKeys: seq<string> := ["predictions", "results", "data", "output"]

  /** The key holds an array. */
  predicate ArrayAt(fields: map<string, Json>, key: string) {
    key in fields && fields[key].JArray?
  }

  /** The array under the first of `keys` that holds one. */
  function FirstArray(fields: map<string, Json>, keys: seq<string>): (r: Option<seq<Json>>)
    ensures r.None? <==> forall k :: 0 <= k < |keys| ==> !ArrayAt(fields, keys[k])
    decreases |keys|
  {
    if keys == [] then None
    else if ArrayAt(fields, keys[0]) then Some(fields[keys[0]].items)
    else
      var r := FirstArray(fields, keys[1..]);
      assert forall k :: 1 <= k < |keys| ==> keys[k] == keys[1..][k - 1];
      r
  }

  /** The array found is the one under the earliest key holding an array. */
  lemma {:induction false} FirstArrayIsFirst(fields: map<string, Json>, keys: seq<string>, k: nat)
    requires k < |keys| && ArrayAt(fields, keys[k])
    requires forall j :: 0 <= j < k ==> !ArrayAt(fields, keys[j])
    ensures FirstArray(fields, keys) == Some(fields[keys[k]].items)
    decreases k
  {
    if k > 0 {
      FirstArrayIsFirst(fields, keys[1..], k - 1);
    }
  }

  /**
   * The prediction list in a reply: the reply itself when it is an array,
   * else the array under `predictions`, `results`, `data` or `output`,
   * whichever comes first; anything else is an error.
   */
  function ExtractPredictions(data: Json): (r: Result<seq<Json>>)
    ensures data.JArray? ==> r == Ok(data.items)
    ensures !data.JArray? && !data.JObject? ==> r.Err?
    ensures data.JObject? ==> (r.Ok? <==> exists k :: 0 <= k < |PredictionKeys| && ArrayAt(data.fields, PredictionKeys[k]))
  {
    match data
    case JArray(items) => Ok(items)
    case JObject(fields) =>
      var found := FirstArray(fields, PredictionKeys);
      if found.Some? then Ok(found.value) else Err("Invalid response format from backend")
    case _ => Err("Invalid response format from backend")
  }

  /** `predictions` wins over every other key when it holds an array. */
  lemma PredictionsKeyFirst(fields: map<string, Json>)
    requires ArrayAt(fields, "predictions")
    ensures ExtractPredictions(JObject(fields)) == Ok(fields["predictions"].items)
  {
  }

  /** A later key is used only when every earlier key lacks an array. */
  lemma LaterKeyUsed(fields: map<string, Json>, k: nat)
    requires k < |PredictionKeys| && ArrayAt(fields, PredictionKeys[k])
    requires forall j :: 0 <= j < k ==> !ArrayAt(fields, PredictionKeys[j])
    ensures ExtractPredictions(JObject(fields)) == Ok(fields[PredictionKeys[k]].items)
  {
    FirstArrayIsFirst(fields, PredictionKeys, k);
  }

  /** The uploaded file kept for the classification request. */
  datatype File = File(name: string, size: nat)

  /**
   * What the classification request ends with: the fetch fails, or the
   * reply has a status and a body that parses (`Some`) or does not (`None`).
   */
  datatype Reply = Unreachable | Reply(ok: bool, body: Option<Json>)

  /** Why a classification failed. */
  datatype Failure = NoFile | NotOk | FetchFailed | Unparsable | BadShape

  datatype ClassifyOutcome = NoReviews | Failed(why: Failure) | Classified(count: nat)

  /** The page's state cells. */
  class Page {
    var uploadedReviews: seq<CsvUpload.Review>
    var uploadedFile: Option<File>
    var classifiedResults: seq<Json>
    var isClassifying: bool

    constructor()
      ensures uploadedReviews == [] && uploadedFile == None && classifiedResults == [] && !isClassifying
    {
      uploadedReviews := [];
      uploadedFile := None;
      classifiedResults := [];
      isClassifying := false;
    }

    /** `handleUploadComplete`: the new reviews and file replace the old, and old results are cleared. */
    method HandleUploadComplete(reviews: seq<CsvUpload.Review>, file: Option<File>)
      modifies this
      ensures uploadedReviews == reviews && uploadedFile == file && classifiedResults == []
      ensures isClassifying == old(isClassifying)
    {
      uploadedReviews := reviews;
      uploadedFile := file;
      classifiedResults := [];
    }

    /**
     * `handleClassify`, with the classifier's reply as a parameter. Nothing
     * happens without reviews. Otherwise the results are replaced only when a
     * prediction list is found, and `isClassifying` is false at the end either
     * way.
     */
    method HandleClassify(reply: Reply) returns (outcome: ClassifyOutcome)
      modifies this`classifiedResults, this`isClassifying
      ensures old(uploadedReviews) == [] ==>
        outcome == NoReviews && classifiedResults == old(classifiedResults) && isClassifying == old(isClassifying)
      ensures old(uploadedReviews) != [] ==> !isClassifying
      ensures outcome.Classified? <==>
        old(uploadedReviews) != [] && old(uploadedFile).Some? && reply.Reply? && reply.ok && reply.body.Some? &&
        ExtractPredictions(reply.body.value).Ok?
      ensures outcome.Classified? ==>
        classifiedResults == ExtractPredictions(reply.body.value).value && outcome.count == |classifiedResults|
      ensures !outcome.Classified? ==> classifiedResults == old(classifiedResults)
      ensures outcome == Failed(NoFile) <==> old(uploadedReviews) != [] && old(uploadedFile).None?
    {
      if |uploadedReviews| == 0 {
        return NoReviews;
      }
      isClassifying := true;
      if uploadedFile.None? {
        isClassifying := false;
        return Failed(NoFile);
      }
      if reply.Unreachable? {
        isClassifying := false;
        return Failed(FetchFailed);
      }
      if !reply.ok {
        isClassifying := false;
        return Failed(NotOk);
      }
      if reply.body.None? {
        isClassifying := false;
        return Failed(Unparsable);
      }
      var predictions := ExtractPredictions(reply.body.value);
      if predictions.Err? {
        isClassifying := false;
        return Failed(BadShape);
      }
      classifiedResults := predictions.value;
      isClassifying := false;
      outcome := Classified(|predictions.value|);
    }
  }
}
