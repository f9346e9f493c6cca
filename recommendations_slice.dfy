/** The coaching-recommendations state: the last answer, its fetch status and its time stamp. */
module RecommendationsSlice {
  import opened Wrappers

  datatype QuickAction = QuickAction(actionType: string, priority: string, title: string, description: string, action: string)

  datatype Insights = Insights(
    overallAssessment: string, keyRecommendations: string, trainingFocus: string,
    nutritionRecovery: string, progressTargets: string, importantReminders: string)

  /** The answer of the recommendations request; the context summary is not modelled. */
  datatype Recommendations = Recommendations(
    success: bool, userId: string, aiSuccess: bool, insights: Insights, rawResponse: Option<string>,
    quickActions: seq<QuickAction>, generatedAt: string)

  class RecommendationsStore {
    var recommendations: Option<Recommendations>
    var loading: bool
    var error: Option<string>
    var lastFetched: Option<string>

    constructor ()
      ensures recommendations == None && !loading && error == None && lastFetched == None
    {
      recommendations := None;
      loading := false;
      error := None;
      lastFetched := None;
    }

    method SetLoading(v: bool)
      modifies this`loading
      ensures loading == v
    {
      loading := v;
    }

    /** setRecommendations; `now` is the ISO time stamp. */
    method SetRecommendations(r: Recommendations, now: string)
      modifies this`recommendations, this`loading, this`error, this`lastFetched
      ensures recommendations == Some(r) && !loading && error == None && lastFetched == Some(now)
    {
      recommendations := Some(r);
      loading := false;
      error := None;
      lastFetched := Some(now);
    }

    /** setError: the recommendations already held are kept. */
    method SetError(e: Option<string>)
      modifies this`error, this`loading
      ensures error == e && !loading
    {
      error := e;
      loading := false;
    }

    /** clearRecommendations: the loading flag is kept. */
    method ClearRecommendations()
      modifies this`recommendations, this`error, this`lastFetched
      ensures recommendations == None && error == None && lastFetched == None
    {
      recommendations := None;
      error := None;
      lastFetched := None;
    }
  }
}
