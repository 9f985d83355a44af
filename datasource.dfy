/**
 * The datasource instance: the survey id captured from the instance settings,
 * the in-place stamping of every query target with it, and `query`, which
 * sends the stamped targets to the backend and shapes its answer.
 */
module DataSources {
  import opened Wrappers
  import opened JsValues
  import opened Frames
  import opened Shaper

  /** A query target object, which `query` updates in place. */
  class Target {
    var refId: string
    var surveyId: Option<string>
    var questionId: Option<string>
    var queryText: Option<string>

    constructor (refId: string, surveyId: Option<string>, questionId: Option<string>, queryText: Option<string>)
      ensures this.refId == refId && this.surveyId == surveyId
      ensures this.questionId == questionId && this.queryText == queryText
    {
      this.refId := refId;
      this.surveyId := surveyId;
      this.questionId := questionId;
      this.queryText := queryText;
    }

    /** The target as a value, as it is serialised into the request body. */
    function View(): SurveyQuery
      reads this
    {
      SurveyQuery(Some(refId), surveyId, questionId, queryText)
    }
  }

  /** The current values of a list of targets, in list order. */
  function Views(targets: seq<Target>): (r: seq<SurveyQuery>)
    reads targets
    ensures |r| == |targets|
    ensures forall i | 0 <= i < |targets| :: r[i] == targets[i].View()
  {
    if targets == [] then [] else [targets[0].View()] + Views(targets[1..])
  }

  class DataSource {
    /** `instanceSettings.jsonData.surveyId`, fixed at construction. */
    const surveyId: Option<string>

    constructor (surveyId: Option<string>)
      ensures this.surveyId == surveyId
    {
      this.surveyId := surveyId;
    }

    /**
     * `options.targets.forEach(target => target.surveyId = ...)`: every target
     * gets the configured survey id; no other property and no position changes.
     */
    method StampSurveyId(targets: array<Target>)
      modifies targets[..]
      ensures targets[..] == old(targets[..])
      ensures forall i | 0 <= i < targets.Length :: targets[i].surveyId == surveyId
      ensures forall i | 0 <= i < targets.Length ::
        targets[i].View() == old(targets[i].View()).(surveyId := surveyId)
    {
      for i := 0 to targets.Length
        invariant forall j | 0 <= j < i :: targets[j].surveyId == surveyId
        invariant forall j | 0 <= j < targets.Length ::
          && targets[j].refId == old(targets[j].refId)
          && targets[j].questionId == old(targets[j].questionId)
          && targets[j].queryText == old(targets[j].queryText)
      {
        targets[i].surveyId := surveyId;
      }
    }

    /**
     * `query`: stamp the targets, send them (`sent`) to the backend, and shape
     * the summaries it returns. `backend` stands for the transport round trip
     * and `parse` for `Date.parse`.
     */
    method Query(targets: array<Target>, backend: seq<SurveyQuery> -> seq<Summary>, parse: Value -> Value)
      returns (sent: seq<SurveyQuery>, r: Result<seq<Frame>, ShapeError>)
      modifies targets[..]
      ensures targets[..] == old(targets[..])
      ensures |sent| == targets.Length
      ensures forall i | 0 <= i < |sent| :: sent[i] == old(targets[i].View()).(surveyId := surveyId)
      ensures sent == Views(targets[..])
      ensures r == ShapeAll(sent, backend(sent), parse)
    {
      StampSurveyId(targets);
      sent := Views(targets[..]);
      r := ShapeAll(sent, backend(sent), parse);
    }
  }
}
