/**
 * The record `handleSubmit` sends (app/components/CandidateEvaluationForm.tsx:79-95):
 * the candidate fields, the encoded CV, the ratings, the weighted score as a
 * two-decimal percentage text and the fit label.
 */
module Payload {
  import opened Wrappers
  import opened Scoring

  /** The candidate fields of the form, all plain text. */
  datatype CandidateInfo = CandidateInfo(
    name: string, mobile: string, position: string, interviewer: string,
    date: string, time: string, currentSalary: string, expectedSalary: string,
    noticePeriod: string)

  /** The candidate fields when the form is mounted (lines 29-39) or reset (lines 123-133). */
  const InitialCandidateInfo := CandidateInfo("", "", "Business Consultant", "Vipin Kumar", "", "", "", "", "30 days")

  /** The selected CV file; only its name matters to the record. */
  datatype CvFile = CvFile(name: string)

  /** The JSON object posted to the sheet endpoint; `scores` is the spread `...scores`. */
  datatype Record = Record(
    candidateName: string, candidateMobile: string, position: string, interviewer: string,
    interviewDate: string, interviewTime: string, currentSalary: string, expectedSalary: string,
    noticePeriod: string, cvFile: string, cvFileName: string, scores: map<string, int>,
    weightedScore: string, performanceImpression: string, comments: string)

  function DigitChar(d: nat): char
    requires d < 10
  {
    ('0' as int + d) as char
  }

  predicate IsDigit(c: char) {
    '0' <= c <= '9'
  }

  /** Decimal notation of a natural number, without leading zeros. */
  function Decimal(n: nat): (s: string)
    ensures |s| >= 1 && forall i :: 0 <= i < |s| ==> IsDigit(s[i])
  {
    if n < 10 then [DigitChar(n)] else Decimal(n / 10) + [DigitChar(n % 10)]
  }

  /** The number a string of decimal digits denotes. */
  function ParseDecimal(s: string): int {
    if s == [] then 0 else 10 * ParseDecimal(s[..|s| - 1]) + (s[|s| - 1] as int - '0' as int)
  }

  lemma {:induction false} DecimalRoundTrip(n: nat)
    ensures ParseDecimal(Decimal(n)) == n
  {
    var s := Decimal(n);
    if n < 10 {
      assert s[..0] == [];
    } else {
      DecimalRoundTrip(n / 10);
      assert s[..|s| - 1] == Decimal(n / 10);
    }
  }

  /** `p.toFixed(2) + "%"` for an integer percentage. */
  function WeightedScoreText(p: int): (t: string)
    ensures |t| >= 5 && t[|t| - 4..] == ".00%"
    ensures t[0] == '-' <==> p < 0
  {
    (if p < 0 then "-" + Decimal(-p) else Decimal(p)) + ".00%"
  }

  /** Reads back the number in a weighted score text. */
  function ParseWeightedScoreText(t: string): int {
    var digits := if |t| >= 4 then t[..|t| - 4] else "";
    if |digits| > 0 && digits[0] == '-' then -ParseDecimal(digits[1..]) else ParseDecimal(digits)
  }

  /** The score text denotes exactly the percentage it was made from. */
  lemma WeightedScoreTextRoundTrip(p: int)
    ensures ParseWeightedScoreText(WeightedScoreText(p)) == p
    ensures WeightedScoreText(p)[|WeightedScoreText(p)| - 4..] == ".00%"
  {
    var body := if p < 0 then "-" + Decimal(-p) else Decimal(p);
    assert WeightedScoreText(p)[..|WeightedScoreText(p)| - 4] == body;
    if p < 0 {
      DecimalRoundTrip(-p);
      assert body[1..] == Decimal(-p);
    } else {
      DecimalRoundTrip(p);
      assert IsDigit(body[0]);
    }
  }

  /** The record assembled at lines 79-95 from the form state and the encoded CV. */
  function BuildRecord(info: CandidateInfo, customNoticePeriod: string, file: Option<CvFile>,
                       cvBase64: string, scores: map<string, int>, comments: string): (r: Record)
    ensures r.candidateName == info.name && r.candidateMobile == info.mobile && r.position == info.position
    ensures r.interviewer == info.interviewer && r.interviewDate == info.date && r.interviewTime == info.time
    ensures r.currentSalary == info.currentSalary && r.expectedSalary == info.expectedSalary
    ensures r.comments == comments && r.scores == scores
    ensures r.cvFileName != ""
    ensures r.cvFile != "" ==> file.Some?
    ensures r.performanceImpression == "Pending All Scores" <==> |scores| < RequiredScores
  {
    Record(
      info.name, info.mobile, info.position, info.interviewer,
      info.date, info.time, info.currentSalary, info.expectedSalary,
      if info.noticePeriod == "Other" then customNoticePeriod else info.noticePeriod,
      if file.Some? then cvBase64 else "",
      if file.Some? && file.value.name != "" then file.value.name else "No CV",
      scores,
      WeightedScoreText(Percentage(scores)),
      ImpressionOf(scores).Label(),
      comments)
  }

  /**
   * The notice period sent is the custom text when "Other" is selected and
   * the selection otherwise; so "Other" itself is sent only when typed.
   */
  lemma RecordNoticePeriod(info: CandidateInfo, customNoticePeriod: string, file: Option<CvFile>,
                           cvBase64: string, scores: map<string, int>, comments: string)
    ensures var r := BuildRecord(info, customNoticePeriod, file, cvBase64, scores, comments);
      && (info.noticePeriod == "Other" ==> r.noticePeriod == customNoticePeriod)
      && (info.noticePeriod != "Other" ==> r.noticePeriod == info.noticePeriod)
      && (r.noticePeriod == "Other" ==> customNoticePeriod == "Other")
  {
  }

  /** Without a file the record carries no CV text and the name "No CV". */
  lemma RecordCv(info: CandidateInfo, customNoticePeriod: string, file: Option<CvFile>,
                 cvBase64: string, scores: map<string, int>, comments: string)
    ensures var r := BuildRecord(info, customNoticePeriod, file, cvBase64, scores, comments);
      && (file == None ==> r.cvFile == "" && r.cvFileName == "No CV")
      && (file.Some? ==> r.cvFile == cvBase64)
      && (file.Some? && file.value.name != "" ==> r.cvFileName == file.value.name)
  {
  }

  /**
   * The weighted score text reads back as the current percentage, and the
   * label text is that of the current impression and of no other.
   */
  lemma RecordScore(info: CandidateInfo, customNoticePeriod: string, file: Option<CvFile>,
                    cvBase64: string, scores: map<string, int>, comments: string)
    ensures var r := BuildRecord(info, customNoticePeriod, file, cvBase64, scores, comments);
      && ParseWeightedScoreText(r.weightedScore) == Percentage(scores)
      && r.scores == scores
      && forall i: Impression :: r.performanceImpression == i.Label() <==> i == ImpressionOf(scores)
  {
    WeightedScoreTextRoundTrip(Percentage(scores));
    forall i: Impression ensures i.Label() == ImpressionOf(scores).Label() ==> i == ImpressionOf(scores) {
      LabelInjective(i, ImpressionOf(scores));
    }
  }

  /** "Other" with "45 days" typed sends "45 days", never "Other". */
  lemma NoticePeriodExample(info: CandidateInfo, file: Option<CvFile>, cvBase64: string,
                            scores: map<string, int>, comments: string)
    requires info.noticePeriod == "Other"
    ensures BuildRecord(info, "45 days", file, cvBase64, scores, comments).noticePeriod == "45 days"
  {
  }

  lemma Sixty()
    ensures WeightedScoreText(60) == "60.00%"
  {
  }

  lemma ThreesPercentage(scores: map<string, int>)
    requires scores.Keys == MetricIds() && forall id :: id in scores ==> scores[id] == 3
    ensures Percentage(scores) == 60 && |scores| == RequiredScores
  {
    MetricIdsDistinct();
    forall i | 0 <= i < |Metrics| ensures 3 <= RatingOf(scores, Metrics[i].id) <= 3 {
      MetricIdIn(i);
    }
    PercentageExamples(scores);
  }

  /** All six criteria rated 3 send "60.00%" and "Average Fit". */
  lemma AllThreesExample(info: CandidateInfo, customNoticePeriod: string, file: Option<CvFile>,
                         cvBase64: string, scores: map<string, int>, comments: string)
    requires scores.Keys == MetricIds() && forall id :: id in scores ==> scores[id] == 3
    ensures BuildRecord(info, customNoticePeriod, file, cvBase64, scores, comments).weightedScore == "60.00%"
    ensures BuildRecord(info, customNoticePeriod, file, cvBase64, scores, comments).performanceImpression == "Average Fit"
  {
    ThreesPercentage(scores);
    Sixty();
  }
}
