/** The `/analyze` endpoint of the Llama backend (`main.py`) and the rules it
    shares word for word with `main_llama.py`: the reject rule, the
    executable-language list, the confidence score, the filter on the
    model's issues and the known-pattern warnings.

    The handler drives the sandbox and the pattern learner. What the Llama
    analyzer returned (`analysis`), what `suggest_fix` returned
    (`fixSuggestion`) and the model's answer to `generate_fixed_code`
    (`fixReply`) are inputs; confidence and probabilities are hundredths. */
module MainApp {
  import opened Types
  import opened Text
  import opened Sandbox
  import opened PatternStore
  import opened LlamaAnalyzer

  // ---------- language gates ----------

  /** `NON_EXECUTABLE_LANGUAGES`. */
  const NonExecutableLanguages: seq<string> :=
    ["html", "css", "xml", "json", "yaml", "yml", "markdown", "md", "sql", "plaintext", "text"]

  predicate IsExecutable(language: string) {
    language !in NonExecutableLanguages
  }

  /** Languages that mean the analysis failed outright. */
  predicate IsRejected(language: string) {
    language in ["error", "failed", "none"]
  }

  const RejectStatus: nat := 400
  const RejectDetail: string := "Unable to analyze code. The code may be corrupted or incomplete."

  /** A rejected language is never run: the gates do not overlap. */
  lemma RejectedIsExecutable(language: string)
    requires IsRejected(language)
    ensures IsExecutable(language)
  {
  }

  // ---------- confidence ----------

  /** `severity_weights.get(severity, 0.1)`, in hundredths. */
  function SeverityWeight(severity: string): (w: nat)
    ensures 5 <= w <= 30
  {
    if severity == "error" then 30
    else if severity == "warning" then 15
    else if severity == "info" then 5
    else 10
  }

  /** The summed penalty of `issues`, in hundredths. */
  function Penalty(issues: seq<Issue>): nat {
    if issues == [] then 0 else Penalty(issues[..|issues| - 1]) + SeverityWeight(issues[|issues| - 1].severity)
  }

  /** `calculate_confidence`, in hundredths. */
  function Confidence(issues: seq<Issue>): (c: nat)
    ensures c <= 100
    ensures issues == [] <==> c == 100
  {
    if issues == [] then 100
    else
      assert Penalty(issues) >= 5;
      if Penalty(issues) >= 100 then 0 else 100 - Penalty(issues)
  }

  lemma {:induction false} PenaltyAppend(issues: seq<Issue>, more: seq<Issue>)
    ensures Penalty(issues + more) >= Penalty(issues)
    decreases |more|
  {
    if more == [] {
      assert issues + more == issues;
    } else {
      var init := more[..|more| - 1];
      var all := issues + more;
      assert all[..|all| - 1] == issues + init;
      assert Penalty(all) == Penalty(issues + init) + SeverityWeight(all[|all| - 1].severity);
      PenaltyAppend(issues, init);
    }
  }

  /** Adding issues never raises the confidence. */
  lemma ConfidenceNeverRises(issues: seq<Issue>, more: seq<Issue>)
    ensures Confidence(issues + more) <= Confidence(issues)
  {
    if issues != [] {
      PenaltyAppend(issues, more);
    }
  }

  /** A single error issue costs 30 hundredths. */
  lemma OneErrorConfidence(issue: Issue)
    requires issue.severity == "error"
    ensures Confidence([issue]) == 70
  {
    assert [issue][..0] == [];
    assert Penalty([issue]) == Penalty([]) + 30;
  }

  // ---------- issue sources ----------

  /** The phrases that mark a model issue as misleading for markup. */
  const MisleadingPhrases: seq<string> := ["not a programming language", "cannot be compiled", "cannot be executed"]

  predicate IsMisleading(message: string) {
    exists k :: 0 <= k < |MisleadingPhrases| && Contains(Lower(message), MisleadingPhrases[k])
  }

  /** The model's issues that reach the report, in order: all of them for an
      executable language, the non-misleading ones otherwise. */
  function KeptLlmIssues(issues: seq<Issue>, executable: bool): (kept: seq<Issue>)
    ensures executable ==> kept == issues
    ensures |kept| <= |issues|
    ensures forall k :: 0 <= k < |kept| ==> kept[k] in issues
    ensures !executable ==> forall k :: 0 <= k < |kept| ==> !IsMisleading(kept[k].message)
    ensures !executable ==> forall k :: 0 <= k < |issues| && !IsMisleading(issues[k].message) ==> issues[k] in kept
  {
    if issues == [] then []
    else
      var init := KeptLlmIssues(issues[..|issues| - 1], executable);
      var last := issues[|issues| - 1];
      assert forall x :: x in issues[..|issues| - 1] ==> x in issues;
      if executable || !IsMisleading(last.message) then init + [last] else init
  }

  /** The filter works issue by issue: it distributes over concatenation. */
  lemma {:induction false} KeptLlmIssuesAppend(a: seq<Issue>, b: seq<Issue>, executable: bool)
    ensures KeptLlmIssues(a + b, executable) == KeptLlmIssues(a, executable) + KeptLlmIssues(b, executable)
    decreases |b|
  {
    if b == [] {
      assert a + b == a;
    } else {
      var front := b[..|b| - 1];
      assert (a + b)[..|a + b| - 1] == a + front;
      assert (a + b)[|a + b| - 1] == b[|b| - 1];
      KeptLlmIssuesAppend(a, front, executable);
    }
  }

  /** One issue is kept exactly when the language is executable or its
      message has none of the misleading phrases. */
  lemma KeptLlmIssuesOne(issue: Issue, executable: bool)
    ensures KeptLlmIssues([issue], executable) == if executable || !IsMisleading(issue.message) then [issue] else []
  {
    assert [issue][..0] == [];
  }

  /** The "Known Pattern" warnings, one per learned pattern whose confidence
      exceeds 0.7. */
  function PatternWarnings(learned: seq<SimilarIssue>): (warnings: seq<Issue>)
    ensures |warnings| <= |learned|
    ensures forall k :: 0 <= k < |warnings| ==>
              warnings[k].kind == "Known Pattern" && warnings[k].severity == "warning" && warnings[k].line.None?
    ensures (forall k :: 0 <= k < |learned| ==> learned[k].confidence <= SimilarityThreshold) ==> warnings == []
  {
    if learned == [] then []
    else
      var init := PatternWarnings(learned[..|learned| - 1]);
      var p := learned[|learned| - 1];
      if p.confidence > SimilarityThreshold then init + [Issue("Known Pattern", p.description, None, p.fix, "warning")]
      else init
  }

  /** The warnings are made pattern by pattern: they distribute over
      concatenation. */
  lemma {:induction false} PatternWarningsAppend(a: seq<SimilarIssue>, b: seq<SimilarIssue>)
    ensures PatternWarnings(a + b) == PatternWarnings(a) + PatternWarnings(b)
    decreases |b|
  {
    if b == [] {
      assert a + b == a;
    } else {
      var front := b[..|b| - 1];
      assert (a + b)[..|a + b| - 1] == a + front;
      assert (a + b)[|a + b| - 1] == b[|b| - 1];
      PatternWarningsAppend(a, front);
    }
  }

  /** One learned pattern gives its warning, carrying its description and
      fix, exactly when its confidence exceeds 0.7. */
  lemma PatternWarningsOne(p: SimilarIssue)
    ensures PatternWarnings([p]) == if p.confidence > SimilarityThreshold
                                    then [Issue("Known Pattern", p.description, None, p.fix, "warning")] else []
  {
    assert [p][..0] == [];
  }

  /** `[p["name"] for p in learned_patterns]`. */
  function PatternNames(learned: seq<SimilarIssue>): (names: seq<string>)
    ensures |names| == |learned|
    ensures forall k :: 0 <= k < |names| ==> names[k] == learned[k].name
  {
    seq(|learned|, k requires 0 <= k < |learned| => learned[k].name)
  }

  /** The "Runtime Error" issue built from a sandbox error. */
  function RuntimeIssue(error: string, line: Option<nat>, fix: Option<string>): Issue {
    Issue("Runtime Error", error, if line.Some? then Some(line.value as int) else None, fix, "error")
  }

  /** The sandbox part of the issue list in `main.py`: one "Runtime Error"
      for a truthy error that does not mention "unsupported". */
  function SandboxIssues(exec: ExecResult, fixSuggestion: Option<string>): (issues: seq<Issue>)
    ensures |issues| <= 1
    ensures issues != [] <==> Truthy(exec.Error()) && !Contains(Lower(exec.Error().value), "unsupported")
    ensures issues != [] ==> issues[0].kind == "Runtime Error" && issues[0].severity == "error"
                             && issues[0].message == exec.Error().value
  {
    if Truthy(exec.Error()) && !Contains(Lower(exec.Error().value), "unsupported") then
      [RuntimeIssue(exec.Error().value, exec.Line(), fixSuggestion)]
    else []
  }

  /** `Lower(UnsupportedMessage)` starts with "unsupported". */
  lemma UnsupportedMentioned()
    ensures Contains(Lower(UnsupportedMessage), "unsupported")
  {
    var l := Lower(UnsupportedMessage);
    assert l[0] == LowerChar('U') == 'u';
    assert l[..11] == "unsupported";
    assert MatchAt(l, "unsupported", 0);
  }

  /** A language the sandbox refuses never turns into an issue. */
  lemma RefusedNeverReported(fixSuggestion: Option<string>)
    ensures SandboxIssues(Refused(UnsupportedMessage), fixSuggestion) == []
  {
    UnsupportedMentioned();
  }

  /** The issue list in report order: sandbox issues, then the model's kept
      issues, then the known-pattern warnings. */
  method CollectIssues(sandboxIssues: seq<Issue>, llmIssues: seq<Issue>, executable: bool, learned: seq<SimilarIssue>)
    returns (issues: seq<Issue>)
    ensures issues == sandboxIssues + KeptLlmIssues(llmIssues, executable) + PatternWarnings(learned)
  {
    issues := sandboxIssues;
    var i := 0;
    while i < |llmIssues|
      invariant 0 <= i <= |llmIssues|
      invariant issues == sandboxIssues + KeptLlmIssues(llmIssues[..i], executable)
    {
      var issue := llmIssues[i];
      assert llmIssues[..i + 1][..i] == llmIssues[..i];
      assert KeptLlmIssues(llmIssues[..i + 1], executable)
             == KeptLlmIssues(llmIssues[..i], executable)
                + (if executable || !IsMisleading(issue.message) then [issue] else []);
      if !executable && IsMisleading(issue.message) {
        i := i + 1;
        continue;
      }
      issues := issues + [issue];
      i := i + 1;
    }
    assert llmIssues[..i] == llmIssues;
    var withLlm := issues;
    var j := 0;
    while j < |learned|
      invariant 0 <= j <= |learned|
      invariant issues == withLlm + PatternWarnings(learned[..j])
    {
      var pattern := learned[j];
      assert learned[..j + 1][..j] == learned[..j];
      if pattern.confidence > SimilarityThreshold {
        issues := issues + [Issue("Known Pattern", pattern.description, None, pattern.fix, "warning")];
      }
      j := j + 1;
    }
    assert learned[..j] == learned;
  }

  // ---------- the endpoint ----------

  /** The response: an HTTP error, or the `AnalysisResult`. */
  datatype Response =
    | Rejected(status: nat, detail: string)
    | Report(
        issues: seq<Issue>,
        suggestions: seq<string>,
        fixedCode: string,
        confidence: nat,
        executionResult: Option<ExecResult>,
        patterns: seq<string>,
        aiProbability: int,
        detectedLanguage: string)

  /** The issue list `main.py` reports. */
  function ReportedIssues(exec: ExecResult, executable: bool, fixSuggestion: Option<string>,
                          analysis: Analysis, learned: seq<SimilarIssue>): seq<Issue>
  {
    (if executable then SandboxIssues(exec, fixSuggestion) else [])
    + KeptLlmIssues(analysis.issues, executable) + PatternWarnings(learned)
  }

  /** The learner never reports anything, so the report holds the sandbox
      issue and the model's kept issues only. */
  lemma ReportedIssuesWithoutPatterns(exec: ExecResult, executable: bool, fixSuggestion: Option<string>,
                                      analysis: Analysis, code: string, records: seq<PatternRecord>)
    ensures ReportedIssues(exec, executable, fixSuggestion, analysis, Matches(code, Window(records)))
         == (if executable then SandboxIssues(exec, fixSuggestion) else []) + KeptLlmIssues(analysis.issues, executable)
  {
    MatchesAlwaysEmpty(code, Window(records));
  }

  /** `analyze_code` (the `/analyze` route). */
  method AnalyzeRequest(sandbox: CodeSandbox, learner: PatternLearner, code: string, analysis: Analysis,
                        host: HostRun, fixSuggestion: Option<string>, fixReply: Completion,
                        codeHash: string, timestamp: string)
    returns (response: Response)
    requires sandbox.Valid() && learner.Valid()
    modifies sandbox`temps, sandbox`nextTemp, sandbox`stopCalls, learner
    ensures sandbox.Valid() && learner.Valid()
    ensures IsRejected(Lower(analysis.detectedLanguage)) ==>
              && response == Rejected(RejectStatus, RejectDetail)
              && unchanged(sandbox) && unchanged(learner)
    ensures !IsRejected(Lower(analysis.detectedLanguage)) ==>
              var language := Lower(analysis.detectedLanguage);
              var executable := IsExecutable(language);
              var exec := ExecuteOutcome(sandbox.dockerAvailable, language, host);
              var learned := Matches(code, Window(old(learner.patterns)));
              var issues := ReportedIssues(exec, executable, fixSuggestion, analysis, learned);
              && response == Report(issues, analysis.suggestions,
                                    if issues == [] then code else FixedCode(code, fixReply),
                                    Confidence(issues), if executable then Some(exec) else None,
                                    PatternNames(learned), analysis.aiProbability, language)
              && (!executable ==> unchanged(sandbox))
              && (executable ==>
                    && sandbox.temps == TempsAfter(old(sandbox.temps), old(sandbox.nextTemp), sandbox.dockerAvailable,
                                                   language, host, code)
                    && sandbox.stopCalls == StopsAfter(old(sandbox.stopCalls), sandbox.dockerAvailable, language, host)
                    && sandbox.nextTemp >= old(sandbox.nextTemp))
              && learner.patterns == old(learner.patterns)
                   + (if issues == [] then [] else [MakeRecord(codeHash, issues, timestamp)])
  {
    var language := Lower(analysis.detectedLanguage);
    if IsRejected(language) {
      return Rejected(RejectStatus, RejectDetail);
    }
    var executable := IsExecutable(language);
    var exec: ExecResult := Refused(UnsupportedMessage);
    if executable {
      exec := sandbox.ExecuteCode(code, language, host);
    }
    var learned := learner.GetSimilarIssues(code);
    var sandboxIssues: seq<Issue> := [];
    if executable {
      sandboxIssues := SandboxIssues(exec, fixSuggestion);
    }
    var issues := CollectIssues(sandboxIssues, analysis.issues, executable, learned);
    var fixedCode := code;
    if issues != [] {
      fixedCode := FixedCode(code, fixReply);
    }
    learner.LearnPattern(code, issues, fixedCode, codeHash, timestamp);
    response := Report(issues, analysis.suggestions, fixedCode, Confidence(issues),
                       if executable then Some(exec) else None, PatternNames(learned),
                       analysis.aiProbability, language);
  }
}
