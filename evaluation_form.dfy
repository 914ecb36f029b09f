/**
 * The evaluation session held by `CandidateEvaluationForm`
 * (app/components/CandidateEvaluationForm.tsx:20-158): the React state
 * variables become the fields of `EvaluationSession`, and each handler a
 * method that updates them.
 *
 * The CV encoding (`FileReader.readAsDataURL`) and the network dispatch
 * (`fetch`) are inputs of `HandleSubmit`: the encoded text, and whether the
 * call returned without throwing.
 */
module EvaluationForm {
  import opened Wrappers
  import opened Scoring
  import opened Payload
  import opened Invite
  import RatingInput

  /** A copy of every session field, for comparing whole states. */
  datatype SessionState = SessionState(
    scores: map<string, int>, file: Option<CvFile>, loading: bool, comments: string,
    customNoticePeriod: string, submitted: bool, candidateInfo: CandidateInfo)

  /** The state right after the form is mounted (lines 21-39). */
  const MountState := SessionState(map[], None, false, "", "", false, InitialCandidateInfo)

  /** `handleReset` (lines 118-136): everything back to its default except `loading`. */
  function ResetOf(st: SessionState): (r: SessionState)
    ensures !st.loading ==> r == MountState
  {
    MountState.(loading := st.loading)
  }

  /** Resetting twice is resetting once. */
  lemma ResetIdempotent(st: SessionState)
    ensures ResetOf(ResetOf(st)) == ResetOf(st)
  {
  }

  /** What happens to a submit attempt. */
  datatype SubmitOutcome =
    | IncompleteAssessment      // alert at line 63, nothing sent
    | Saved(record: Record)     // fetch returned: the success screen is shown
    | TransportFailure(record: Record)  // fetch threw: alert at line 112

  class EvaluationSession {
    var scores: map<string, int>
    var file: Option<CvFile>
    var loading: bool
    var comments: string
    var customNoticePeriod: string
    var submitted: bool
    var candidateInfo: CandidateInfo

    /** Ratings exist only for the six criteria and come from a star click, 1..5. */
    ghost predicate Valid()
      reads this
    {
      && scores.Keys <= MetricIds()
      && forall id :: id in scores ==> 1 <= scores[id] <= RatingInput.DefaultMax
    }

    function State(): SessionState
      reads this
    {
      SessionState(scores, file, loading, comments, customNoticePeriod, submitted, candidateInfo)
    }

    /** `weightedScorePercentage` (line 41) of the current ratings. */
    function WeightedScorePercentage(): (p: int)
      reads this
      requires Valid()
      ensures 0 <= p <= 100
    {
      assert RatingsWithin(scores, Metrics, 0, RatingScale);
      PercentageRange(scores);
      Percentage(scores)
    }

    /** `currentImpression` (line 51). */
    function CurrentImpression(): (i: Impression)
      reads this
      requires Valid()
      ensures i == PendingAllScores <==> scores.Keys != MetricIds()
    {
      ScoredCountBounded(scores);
      ImpressionOf(scores)
    }

    constructor ()
      ensures Valid() && State() == MountState
    {
      scores := map[];
      file := None;
      loading := false;
      comments := "";
      customNoticePeriod := "";
      submitted := false;
      candidateInfo := InitialCandidateInfo;
    }

    /**
     * The `onChange` of the k-th criterion's stars (line 355): record `value`
     * for that criterion only.
     */
    method SetRating(k: nat, value: int)
      requires Valid() && k < |Metrics|
      requires 1 <= value <= RatingInput.DefaultMax
      modifies this`scores
      ensures Valid()
      ensures scores == old(scores)[Metrics[k].id := value]
      ensures forall id :: id != Metrics[k].id ==> RatingOf(scores, id) == RatingOf(old(scores), id)
      ensures |old(scores)| <= |scores| <= |old(scores)| + 1 && |scores| <= RequiredScores
    {
      MetricIdIn(k);
      RatingUpdate(scores, Metrics[k].id, value);
      scores := scores[Metrics[k].id := value];
    }

    /** The `onChange` of a candidate field (lines 255-301). */
    method SetCandidateInfo(info: CandidateInfo)
      modifies this`candidateInfo
      ensures candidateInfo == info
    {
      candidateInfo := info;
    }

    /** The `onChange` of the custom notice period (line 317). */
    method SetCustomNoticePeriod(text: string)
      modifies this`customNoticePeriod
      ensures customNoticePeriod == text
    {
      customNoticePeriod := text;
    }

    /** The `onChange` of the CV input (line 327): the first chosen file, or none. */
    method SetFile(chosen: Option<CvFile>)
      modifies this`file
      ensures file == chosen
    {
      file := chosen;
    }

    /** The `onChange` of the comments box (line 373). */
    method SetComments(text: string)
      modifies this`comments
      ensures comments == text
    {
      comments := text;
    }

    /**
     * `handleSubmit` (lines 53-116). With fewer than six criteria scored
     * nothing is sent; otherwise the record is built from the current state
     * and `submitted` becomes true exactly when the dispatch returns.
     * `loading` is false again on every exit.
     */
    method HandleSubmit(cvBase64: string, dispatchSucceeds: bool) returns (outcome: SubmitOutcome)
      requires Valid() && !loading && !submitted
      modifies this`loading, this`submitted
      ensures Valid() && !loading
      ensures |scores| < |Metrics| ==> outcome == IncompleteAssessment && !submitted
      ensures |scores| >= |Metrics| ==>
        var record := BuildRecord(candidateInfo, customNoticePeriod, file, cvBase64, scores, comments);
        && outcome == (if dispatchSucceeds then Saved(record) else TransportFailure(record))
        && submitted == dispatchSucceeds
      ensures !outcome.IncompleteAssessment? ==> |scores| >= RequiredScores
    {
      MetricCount();
      loading := true;
      if |scores| < |Metrics| {
        loading := false;
        return IncompleteAssessment;
      }
      var record := BuildRecord(candidateInfo, customNoticePeriod, file, cvBase64, scores, comments);
      // the dispatch: `fetch` returned, or threw
      if dispatchSucceeds {
        submitted := true;
        outcome := Saved(record);
      } else {
        outcome := TransportFailure(record);
      }
      loading := false;
    }

    /** `handleReset` (lines 118-136). */
    method HandleReset()
      requires Valid()
      modifies this`scores, this`file, this`comments, this`customNoticePeriod, this`candidateInfo, this`submitted
      ensures Valid()
      ensures State() == ResetOf(old(State()))
    {
      scores := map[];
      file := None;
      comments := "";
      customNoticePeriod := "";
      candidateInfo := InitialCandidateInfo;
      submitted := false;
    }

    /**
     * `handleWhatsAppInvite` (lines 138-157): refused without a name or a
     * mobile number, else opens the link for the normalised number.
     */
    method HandleWhatsAppInvite() returns (outcome: InviteOutcome)
      ensures outcome == Refused <==> candidateInfo.name == "" || candidateInfo.mobile == ""
      ensures outcome.Opened? ==> outcome.phone == PhoneSegment(candidateInfo.mobile)
      ensures outcome.Opened? ==> NoWhitespace(outcome.phone)
      ensures outcome.Opened? && (candidateInfo.mobile == [] || !IsWhitespace(candidateInfo.mobile[0])) ==>
        outcome.phone == PhoneSegmentAsWritten(candidateInfo.mobile)
    {
      if candidateInfo.mobile == "" || candidateInfo.name == "" {
        return Refused;
      }
      if !IsWhitespace(candidateInfo.mobile[0]) {
        SegmentsAgreeWithoutLeadingWhitespace(candidateInfo.mobile);
      }
      outcome := Opened(PhoneSegment(candidateInfo.mobile));
    }
  }

  /** Five of six criteria scored: the submit is refused and nothing is sent. */
  method FiveOfSixIsRejected() returns (outcome: SubmitOutcome)
    ensures outcome == IncompleteAssessment
  {
    var session := new EvaluationSession();
    MetricCount();
    for k := 0 to RequiredScores - 1
      invariant session.Valid() && !session.loading && !session.submitted
      invariant |session.scores| <= k
      modifies session
    {
      session.SetRating(k, 5);
    }
    outcome := session.HandleSubmit("", true);
  }

  /**
   * Rating every criterion and submitting with a dispatch that returns saves
   * the record; a reset afterwards gives back the state of a fresh mount.
   */
  method SubmitThenReset(cvBase64: string) returns (outcome: SubmitOutcome, after: SessionState)
    ensures outcome.Saved?
    ensures after == MountState
  {
    var session := new EvaluationSession();
    var k := 0;
    while k < |Metrics|
      invariant 0 <= k <= |Metrics|
      invariant session.Valid() && !session.loading && !session.submitted
      invariant forall i :: 0 <= i < k ==> Metrics[i].id in session.scores
      modifies session
    {
      session.SetRating(k, 4);
      k := k + 1;
    }
    EveryRowScored(session.scores);
    outcome := session.HandleSubmit(cvBase64, true);
    session.HandleReset();
    after := session.State();
  }
}
