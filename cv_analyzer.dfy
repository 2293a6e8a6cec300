/** The CV analyzer (src/utils/cvAnalyzer.ts): the heuristic scorer, the
    clean-up of the language model's reply, and the rule that any failure
    of the model path falls back to the heuristic. The model call and
    `JSON.parse` enter as oracles. */
module CvAnalyzer {
  import opened Wrappers
  import opened Strings

  datatype SuggestionType = Critical | Warning | SuccessType | Info
  datatype Priority = High | Medium | Good

  datatype Suggestion = Suggestion(kind: SuggestionType, title: string, description: string, priority: Priority)
  datatype SkillLevel = SkillLevel(skill: string, level: int, color: string)
  datatype Metrics = Metrics(atsCompatibility: int, impactScore: int, readability: int, professionalRating: int)

  datatype AnalysisResult = AnalysisResult(
    score: int,
    metrics: Metrics,
    suggestions: seq<Suggestion>,
    skills: seq<SkillLevel>,
    missingKeywords: seq<string>,
    summary: string)

  /** The four heuristic checks, in the order the scorer runs them. */
  datatype Check = EmailCheck | PhoneCheck | LinkedInCheck | LengthCheck

  function Rank(c: Check): nat
  {
    match c
    case EmailCheck => 0
    case PhoneCheck => 1
    case LinkedInCheck => 2
    case LengthCheck => 3
  }

  /** `text.split(/\s+/).length`: one more than the number of maximal
      whitespace runs. */
  function WordCount(text: string): (r: nat)
    ensures r == 1 + SpaceRuns(text)
  {
    SplitOnSpaceLength(text);
    |SplitOnSpace(text)|
  }

  /** What the scorer detects in the text: `/@/`, `/\d{3,}/`,
      `/linkedin\.com/` and the word count. */
  datatype Findings = Findings(hasEmail: bool, hasPhone: bool, hasLinkedIn: bool, wordCount: nat)

  function Observe(text: string): Findings
  {
    Findings(Contains(text, "@"), HasDigitRun(text), Contains(text, "linkedin.com"), WordCount(text))
  }

  /** Whether a check passes; the length check wants at least 200 words. */
  predicate Passes(f: Findings, c: Check)
  {
    match c
    case EmailCheck => f.hasEmail
    case PhoneCheck => f.hasPhone
    case LinkedInCheck => f.hasLinkedIn
    case LengthCheck => f.wordCount >= 200
  }

  /** The points a failed check takes off the starting score of 60. */
  function Penalty(c: Check): nat
  {
    match c
    case EmailCheck => 10
    case PhoneCheck => 5
    case LinkedInCheck => 0
    case LengthCheck => 10
  }

  const EmailTitle := "Missing Contact Info"
  const EmailText := "Add your email address."
  const PhoneTitle := "Missing Phone Number"
  const PhoneText := "It is good practice to include a phone number."
  const LinkedInTitle := "Add LinkedIn"
  const LinkedInText := "Consider adding a link to your LinkedIn profile."
  const ShortTitle := "Too Short"
  const ShortText := "Your CV seems very short. Add more details about your experience."

  /** The suggestion pushed when a check fails. */
  function SuggestionFor(c: Check): Suggestion
  {
    match c
    case EmailCheck => Suggestion(Critical, EmailTitle, EmailText, High)
    case PhoneCheck => Suggestion(Warning, PhoneTitle, PhoneText, Medium)
    case LinkedInCheck => Suggestion(Info, LinkedInTitle, LinkedInText, Good)
    case LengthCheck => Suggestion(Warning, ShortTitle, ShortText, Medium)
  }

  /** Each suggestion's type goes with its priority. */
  predicate Paired(s: Suggestion)
  {
    match s.kind
    case Critical => s.priority == High
    case Warning => s.priority == Medium
    case Info => s.priority == Good
    case SuccessType => false
  }

  predicate StrictlyRanked(cs: seq<Check>)
  {
    forall i, j :: 0 <= i < j < |cs| ==> Rank(cs[i]) < Rank(cs[j])
  }

  /** The entry a single check contributes to the failed list. */
  function FailedEntry(f: Findings, c: Check): seq<Check>
  {
    if Passes(f, c) then [] else [c]
  }

  /** The checks that fail, in the order the scorer runs them. */
  function FailedChecks(f: Findings): seq<Check>
  {
    FailedEntry(f, EmailCheck) + FailedEntry(f, PhoneCheck) + FailedEntry(f, LinkedInCheck) + FailedEntry(f, LengthCheck)
  }

  /** The suggestion of each check of `cs`, in order; every one pairs its
      type with its priority. */
  function SuggestionsFor(cs: seq<Check>): (r: seq<Suggestion>)
    ensures |r| == |cs|
    ensures forall i :: 0 <= i < |r| ==> Paired(r[i])
  {
    if |cs| == 0 then [] else [SuggestionFor(cs[0])] + SuggestionsFor(cs[1..])
  }

  lemma {:induction false} SuggestionsForAt(cs: seq<Check>, i: nat)
    requires i < |cs|
    ensures SuggestionsFor(cs)[i] == SuggestionFor(cs[i])
  {
    if i > 0 {
      SuggestionsForAt(cs[1..], i - 1);
    }
  }

  lemma {:induction false} SuggestionsForSnoc(cs: seq<Check>, c: Check)
    ensures SuggestionsFor(cs + [c]) == SuggestionsFor(cs) + [SuggestionFor(c)]
  {
    if |cs| == 0 {
      assert cs + [c] == [c] && [c][1..] == [];
    } else {
      assert (cs + [c])[1..] == cs[1..] + [c];
      SuggestionsForSnoc(cs[1..], c);
    }
  }

  /** The scorer's running state: `score` and `suggestions`. */
  datatype Tally = Tally(score: int, suggestions: seq<Suggestion>)

  /** One `if (!check) { score -= penalty; suggestions.push(...) }`. */
  function Step(t: Tally, f: Findings, c: Check): Tally
  {
    if Passes(f, c) then t else Tally(t.score - Penalty(c), t.suggestions + [SuggestionFor(c)])
  }

  /** The state after the four checks, starting from score 60 and no
      suggestions. */
  function Tallied(f: Findings): Tally
  {
    Step(Step(Step(Step(Tally(60, []), f, EmailCheck), f, PhoneCheck), f, LinkedInCheck), f, LengthCheck)
  }

  const FallbackSkills: seq<SkillLevel> := [SkillLevel("Detected via Fallback", 50, "blue")]
  const FallbackKeywords: seq<string> := ["Leadership", "Project Management"]
  const FallbackSummary := "Basic heuristic analysis performed (AI unavailable)."

  /** The report for the given findings: the tallied score and
      suggestions, the metrics derived from the score, and fixed skills,
      keywords and summary. */
  function Report(f: Findings): (r: AnalysisResult)
    ensures r.metrics == Metrics(r.score, r.score - 5, 85, r.score)
    ensures r.skills == FallbackSkills && r.missingKeywords == FallbackKeywords && r.summary == FallbackSummary
  {
    var t := Tallied(f);
    AnalysisResult(t.score, Metrics(t.score, t.score - 5, 85, t.score), t.suggestions, FallbackSkills, FallbackKeywords, FallbackSummary)
  }

  /** The result of `heuristicAnalysis(text)`. */
  function Heuristic(text: string): AnalysisResult
  {
    Report(Observe(text))
  }

  function Indicator(b: bool): nat
  {
    if b then 1 else 0
  }

  /** score = 60 - 10·[no '@'] - 5·[no run of three digits]
      - 10·[fewer than 200 words]. */
  lemma ReportScore(f: Findings)
    ensures Report(f).score ==
              60 - 10 * Indicator(!f.hasEmail) - 5 * Indicator(!f.hasPhone) - 10 * Indicator(f.wordCount < 200)
  {
  }

  /** The same formula in terms of the text itself. */
  lemma ScoreFormula(text: string)
    ensures Heuristic(text).score ==
              60 - 10 * Indicator(!Contains(text, "@")) - 5 * Indicator(!HasDigitRun(text))
                 - 10 * Indicator(WordCount(text) < 200)
  {
    ReportScore(Observe(text));
  }

  lemma ScoreBounds(text: string)
    ensures 35 <= Heuristic(text).score <= 60
  {
    ReportScore(Observe(text));
  }

  /** Whether "linkedin.com" occurs never changes the score. */
  lemma LinkedInNeutral(f: Findings, hasLinkedIn: bool)
    ensures Report(f.(hasLinkedIn := hasLinkedIn)).score == Report(f).score
  {
    ReportScore(f);
    ReportScore(f.(hasLinkedIn := hasLinkedIn));
  }

  lemma InEntry(f: Findings, c: Check, d: Check)
    ensures c in FailedEntry(f, d) <==> c == d && !Passes(f, d)
  {
  }

  /** A check is in the failed list exactly when it fails. */
  lemma FailedIffNotPassed(f: Findings, c: Check)
    ensures c in FailedChecks(f) <==> !Passes(f, c)
  {
    InEntry(f, c, EmailCheck);
    InEntry(f, c, PhoneCheck);
    InEntry(f, c, LinkedInCheck);
    InEntry(f, c, LengthCheck);
  }

  lemma RankedAppend(a: seq<Check>, b: seq<Check>)
    requires StrictlyRanked(a) && StrictlyRanked(b)
    requires forall i, j :: 0 <= i < |a| && 0 <= j < |b| ==> Rank(a[i]) < Rank(b[j])
    ensures StrictlyRanked(a + b)
  {
  }

  /** The failed checks come in the order email, phone, LinkedIn, length. */
  lemma FailedInOrder(f: Findings)
    ensures StrictlyRanked(FailedChecks(f))
  {
    var e, p, l, w := FailedEntry(f, EmailCheck), FailedEntry(f, PhoneCheck), FailedEntry(f, LinkedInCheck), FailedEntry(f, LengthCheck);
    RankedAppend(e, p);
    assert forall i :: 0 <= i < |e + p| ==> Rank((e + p)[i]) <= 1;
    RankedAppend(e + p, l);
    assert forall i :: 0 <= i < |e + p + l| ==> Rank((e + p + l)[i]) <= 2;
    RankedAppend(e + p + l, w);
  }

  /** A step pushes the suggestion of the check exactly when the check
      joins the failed list. */
  lemma StepSuggestions(t: Tally, failed: seq<Check>, f: Findings, c: Check)
    requires t.suggestions == SuggestionsFor(failed)
    ensures Step(t, f, c).suggestions == SuggestionsFor(failed + FailedEntry(f, c))
  {
    if Passes(f, c) {
      assert failed + [] == failed;
    } else {
      SuggestionsForSnoc(failed, c);
    }
  }

  /** The tallied suggestions are those of the failed checks. */
  lemma TalliedSuggestions(f: Findings)
    ensures Tallied(f).suggestions == SuggestionsFor(FailedChecks(f))
  {
    var t0 := Tally(60, []);
    var t1 := Step(t0, f, EmailCheck);
    var t2 := Step(t1, f, PhoneCheck);
    var t3 := Step(t2, f, LinkedInCheck);
    var e, p, l, w := FailedEntry(f, EmailCheck), FailedEntry(f, PhoneCheck), FailedEntry(f, LinkedInCheck), FailedEntry(f, LengthCheck);
    StepSuggestions(t0, [], f, EmailCheck);
    assert [] + e == e;
    StepSuggestions(t1, e, f, PhoneCheck);
    StepSuggestions(t2, e + p, f, LinkedInCheck);
    StepSuggestions(t3, e + p + l, f, LengthCheck);
  }

  /** Exactly the failed checks produce suggestions, each its own, in the
      order email, phone, LinkedIn, length, and each pairs its type with
      its priority. */
  lemma SuggestionsMatchFailures(f: Findings)
    ensures var failed := FailedChecks(f);
            && Report(f).suggestions == SuggestionsFor(failed)
            && (forall c :: c in failed <==> !Passes(f, c))
            && StrictlyRanked(failed)
            && (forall i :: 0 <= i < |Report(f).suggestions| ==> Paired(Report(f).suggestions[i]))
  {
    TalliedSuggestions(f);
    forall c: Check
      ensures c in FailedChecks(f) <==> !Passes(f, c)
    {
      FailedIffNotPassed(f, c);
    }
    FailedInOrder(f);
  }

  /** A missing LinkedIn link is reported as the info suggestion and takes
      nothing off the score. */
  lemma LinkedInSuggestion(f: Findings)
    requires !f.hasLinkedIn
    ensures SuggestionFor(LinkedInCheck) in Report(f).suggestions
    ensures Penalty(LinkedInCheck) == 0
  {
    TalliedSuggestions(f);
    FailedIffNotPassed(f, LinkedInCheck);
    var failed := FailedChecks(f);
    var i :| 0 <= i < |failed| && failed[i] == LinkedInCheck;
    SuggestionsForAt(failed, i);
  }

  /** `heuristicAnalysis` as the source writes it: a mutable score
      decremented and a suggestion list pushed to, check by check. */
  method HeuristicAnalysis(text: string) returns (r: AnalysisResult)
    ensures r == Heuristic(text)
  {
    var hasEmail := Contains(text, "@");
    var hasPhone := HasDigitRun(text);
    var hasLinkedIn := Contains(text, "linkedin.com");
    var wordCount := |SplitOnSpace(text)|;

    var score := 60;
    var suggestions: seq<Suggestion> := [];

    if !hasEmail {
      score := score - 10;
      suggestions := suggestions + [SuggestionFor(EmailCheck)];
    }
    if !hasPhone {
      score := score - 5;
      suggestions := suggestions + [SuggestionFor(PhoneCheck)];
    }
    if !hasLinkedIn {
      suggestions := suggestions + [SuggestionFor(LinkedInCheck)];
    }
    if wordCount < 200 {
      score := score - 10;
      suggestions := suggestions + [SuggestionFor(LengthCheck)];
    }
    r := AnalysisResult(score, Metrics(score, score - 5, 85, score), suggestions, FallbackSkills, FallbackKeywords, FallbackSummary);
  }

  /** `.replace(/```json/g, '').replace(/```/g, '').trim()`. */
  function CleanResponse(reply: string): string
  {
    Trim(RemoveAll(RemoveAll(reply, "```json"), Fence))
  }

  /** The cleaned reply holds no "```" and has no whitespace at either
      end. */
  lemma CleanedReplyHasNoFence(reply: string)
    ensures !Contains(CleanResponse(reply), Fence)
    ensures var c := CleanResponse(reply); c == [] || (!IsSpace(c[0]) && !IsSpace(c[|c| - 1]))
  {
    var s := RemoveAll(RemoveAll(reply, "```json"), Fence);
    RemoveFenceLeavesNone(RemoveAll(reply, "```json"));
    var a: nat, b: nat :| a <= b <= |s| && Trim(s) == s[a..b];
    if Contains(s[a..b], Fence) {
      ContainsInSlice(s, a, b, Fence);
    }
  }

  /** `text.substring(0, 10000)`: the part of the CV placed in the prompt. */
  function PromptText(text: string): (r: string)
    ensures |r| <= 10000 && StartsWith(text, r)
    ensures |text| <= 10000 ==> r == text
  {
    if |text| <= 10000 then text else text[..10000]
  }

  /** `analyzeWithGemini`: the model's reply to the prompt built from the
      first 10000 characters (`generate`, which may throw), cleaned and
      parsed (`parse`, which may throw); any throw yields the heuristic
      result. */
  function AnalyzeWithModel(text: string, generate: string -> Attempt<string>, parse: string -> Attempt<AnalysisResult>): (r: AnalysisResult)
    ensures generate(PromptText(text)).Threw? ==> r == Heuristic(text)
    ensures generate(PromptText(text)).Returned? ==>
              var parsed := parse(CleanResponse(generate(PromptText(text)).value));
              r == if parsed.Returned? then parsed.value else Heuristic(text)
  {
    match generate(PromptText(text))
    case Threw(_) => Heuristic(text)
    case Returned(reply) =>
      match parse(CleanResponse(reply))
      case Threw(_) => Heuristic(text)
      case Returned(result) => result
  }

  /** When the model path fails at either step, the result is the one the
      heuristic gives, with its 35..60 score. */
  lemma FallbackIsHeuristic(text: string, generate: string -> Attempt<string>, parse: string -> Attempt<AnalysisResult>)
    requires generate(PromptText(text)).Threw?
             || parse(CleanResponse(generate(PromptText(text)).value)).Threw?
    ensures AnalyzeWithModel(text, generate, parse) == Heuristic(text)
    ensures 35 <= AnalyzeWithModel(text, generate, parse).score <= 60
  {
    ScoreBounds(text);
  }
}
