/** The `/analyze` endpoint of `main_llama.py`. It differs from `main.py` in
    two places: a sandbox error is classified by an if/elif keyword chain
    before it may become an issue, and the AI probability is raised to 0.90
    when the analysis lists AI patterns. Everything else is `MainApp`'s. */
module MainLlamaApp {
  import opened Types
  import opened Text
  import opened Sandbox
  import opened PatternStore
  import opened LlamaAnalyzer
  import opened MainApp

  // ---------- the sandbox-error classifier ----------

  /** The branch of the keyword chain an error message takes. Every branch
      but `KeepError` drops the error. */
  datatype Branch =
    | SkipTimeout | SkipInteractive | SkipUnsupported | SkipMemory | SkipHalted
    | SkipInfiniteLoop | SkipSegfault | SkipStackOverflow | SkipOutOfMemory
    | SkipRecursionLimit | SkipTimeoutAgain | SkipImport | KeepError

  /** The if/elif chain on the lower-cased error. `("import" or "module")`
      evaluates to "import", so that branch tests "import" alone. */
  function Classify(e: string): Branch {
    if Contains(e, "timeout") then SkipTimeout
    else if Contains(e, "interactive") || Contains(e, "input") then SkipInteractive
    else if Contains(e, "unsupported") then SkipUnsupported
    else if Contains(e, "memory") then SkipMemory
    else if Contains(e, "execution halted") then SkipHalted
    else if Contains(e, "infinite loop") then SkipInfiniteLoop
    else if Contains(e, "segmentation fault") then SkipSegfault
    else if Contains(e, "stack overflow") then SkipStackOverflow
    else if Contains(e, "out of memory") then SkipOutOfMemory
    else if Contains(e, "recursion limit") then SkipRecursionLimit
    else if Contains(e, "timeout") then SkipTimeoutAgain
    else if Contains(e, "import") then SkipImport
    else KeepError
  }

  /** The keywords that keep an error out of the report. */
  const Blockers: seq<string> := [
    "timeout", "interactive", "input", "unsupported", "memory", "execution halted",
    "infinite loop", "segmentation fault", "stack overflow", "recursion limit", "import"]

  /** An error is reported exactly when it contains none of the keywords. */
  lemma ClassifyReportsIff(e: string)
    ensures Classify(e) == KeepError <==> forall k :: 0 <= k < |Blockers| ==> !Contains(e, Blockers[k])
  {
    if forall k :: 0 <= k < |Blockers| ==> !Contains(e, Blockers[k]) {
      assert !Contains(e, Blockers[0]) && !Contains(e, Blockers[1]) && !Contains(e, Blockers[2]);
      assert !Contains(e, Blockers[3]) && !Contains(e, Blockers[4]) && !Contains(e, Blockers[5]);
      assert !Contains(e, Blockers[6]) && !Contains(e, Blockers[7]) && !Contains(e, Blockers[8]);
      assert !Contains(e, Blockers[9]) && !Contains(e, Blockers[10]);
      if Contains(e, "out of memory") {
        MemoryInOutOfMemory(e);
      }
    } else {
      var k :| 0 <= k < |Blockers| && Contains(e, Blockers[k]);
      assert Blockers[k] in Blockers;
    }
  }

  lemma MemoryInOutOfMemory(e: string)
    requires Contains(e, "out of memory")
    ensures Contains(e, "memory")
  {
    assert MatchAt("out of memory", "memory", 7);
    ContainsTransitive(e, "out of memory", "memory");
  }

  /** The "out of memory" branch is dead: "memory" is tested first. */
  lemma OutOfMemoryBranchUnreachable(e: string)
    ensures Classify(e) != SkipOutOfMemory
  {
    if Contains(e, "out of memory") {
      MemoryInOutOfMemory(e);
    }
  }

  /** The second "timeout" branch is dead: the first one takes those errors. */
  lemma SecondTimeoutBranchUnreachable(e: string)
    ensures Classify(e) != SkipTimeoutAgain
  {
  }

  /** An error that says "module" but not "import" is still reported,
      although the chain was meant to skip missing-module errors. */
  lemma ModuleErrorReported()
    ensures Classify("module") == KeepError
  {
    var e := "module";
    assert e[0] == 'm' && e[1] == 'o';
    MismatchAt(e, "input", 0, 0);
    MismatchAt(e, "input", 1, 0);
    MismatchAt(e, "memory", 0, 1);
    MismatchAt(e, "import", 0, 0);
  }

  /** One differing character rules out an occurrence. */
  lemma MismatchAt(s: string, p: string, i: nat, j: nat)
    requires j < |p| && i + j < |s| && s[i + j] != p[j]
    ensures !MatchAt(s, p, i)
  {
    if i + |p| <= |s| {
      assert s[i..i + |p|][j] == s[i + j];
    }
  }

  /** The sandbox part of the issue list in `main_llama.py`. */
  function LlamaSandboxIssues(exec: ExecResult, fixSuggestion: Option<string>): (issues: seq<Issue>)
    ensures |issues| <= 1
    ensures issues != [] <==> Truthy(exec.Error()) && Classify(Lower(exec.Error().value)) == KeepError
    ensures issues != [] ==> issues[0].kind == "Runtime Error" && issues[0].severity == "error"
                             && issues[0].message == exec.Error().value
  {
    if Truthy(exec.Error()) && Classify(Lower(exec.Error().value)) == KeepError then
      [RuntimeIssue(exec.Error().value, exec.Line(), fixSuggestion)]
    else []
  }

  /** `main_llama.py` reports a sandbox error only when `main.py` would too:
      "unsupported" is one of its keywords. */
  lemma LlamaSandboxIssuesStricter(exec: ExecResult, fixSuggestion: Option<string>)
    ensures LlamaSandboxIssues(exec, fixSuggestion) != [] ==>
              LlamaSandboxIssues(exec, fixSuggestion) == SandboxIssues(exec, fixSuggestion)
  {
  }

  /** The sandbox's own timeout messages never reach the report. */
  lemma TimeoutsNeverReported(exec: ExecResult, fixSuggestion: Option<string>)
    requires exec.Error() == Some(PythonTimeoutMessage) || exec.Error() == Some(JavascriptTimeoutMessage)
    ensures LlamaSandboxIssues(exec, fixSuggestion) == []
  {
    var l := Lower(exec.Error().value);
    assert l[10..17] == "timeout";
    assert MatchAt(l, "timeout", 10);
  }

  // ---------- the probability boost ----------

  /** `max(p, 0.90)` when the analysis listed patterns; hundredths. */
  function Boost(p: int, patterns: seq<string>): (r: int)
    ensures patterns == [] ==> r == p
    ensures patterns != [] ==> r >= 90 && r >= p && (r == p || r == 90)
  {
    if patterns != [] then (if p >= 90 then p else 90) else p
  }

  /** Boosting twice is boosting once. */
  lemma BoostIdempotent(p: int, patterns: seq<string>)
    ensures Boost(Boost(p, patterns), patterns) == Boost(p, patterns)
  {
  }

  // ---------- the endpoint ----------

  /** The issue list `main_llama.py` reports. */
  function LlamaReportedIssues(exec: ExecResult, executable: bool, fixSuggestion: Option<string>,
                               analysis: Analysis, learned: seq<SimilarIssue>): seq<Issue>
  {
    (if executable then LlamaSandboxIssues(exec, fixSuggestion) else [])
    + KeptLlmIssues(analysis.issues, executable) + PatternWarnings(learned)
  }

  /** `analyze_code` (the `/analyze` route of `main_llama.py`). */
  method AnalyzeRequest(sandbox: CodeSandbox, learner: PatternLearner, code: string, analysis: Analysis,
                        host: HostRun, fixSuggestion: Option<string>, fixReply: Completion,
                        codeHash: string, timestamp: string)
    returns (response: Response)
    requires sandbox.Valid() && learner.Valid()
    modifies sandbox`temps, sandbox`nextTemp, sandbox`stopCalls, learner
    ensures sandbox.Valid() && learner.Valid()
    ensures IsRejected(Lower(analysis.detectedLanguage)) ==>
              && response == Rejected(RejectStatus, RejectDetail)
              && unchanged(sandbox) && unchanged(learner)
    ensures !IsRejected(Lower(analysis.detectedLanguage)) ==>
              var language := Lower(analysis.detectedLanguage);
              var executable := IsExecutable(language);
              var exec := ExecuteOutcome(sandbox.dockerAvailable, language, host);
              var learned := Matches(code, Window(old(learner.patterns)));
              var issues := LlamaReportedIssues(exec, executable, fixSuggestion, analysis, learned);
              && response == Report(issues, analysis.suggestions,
                                    if issues == [] then code else FixedCode(code, fixReply),
                                    Confidence(issues), if executable then Some(exec) else None,
                                    PatternNames(learned), Boost(analysis.aiProbability, analysis.patterns),
                                    language)
              && (!executable ==> unchanged(sandbox))
              && (executable ==>
                    && sandbox.temps == TempsAfter(old(sandbox.temps), old(sandbox.nextTemp), sandbox.dockerAvailable,
                                                   language, host, code)
                    && sandbox.stopCalls == StopsAfter(old(sandbox.stopCalls), sandbox.dockerAvailable, language, host)
                    && sandbox.nextTemp >= old(sandbox.nextTemp))
              && learner.patterns == old(learner.patterns)
                   + (if issues == [] then [] else [MakeRecord(codeHash, issues, timestamp)])
  {
    var language := Lower(analysis.detectedLanguage);
    if IsRejected(language) {
      return Rejected(RejectStatus, RejectDetail);
    }
    var aiProbability := analysis.aiProbability;
    if analysis.patterns != [] {
      aiProbability := if aiProbability >= 90 then aiProbability else 90;
    }
    var executable := IsExecutable(language);
    var exec: ExecResult := Refused(UnsupportedMessage);
    if executable {
      exec := sandbox.ExecuteCode(code, language, host);
    }
    var learned := learner.GetSimilarIssues(code);
    var sandboxIssues: seq<Issue> := [];
    if executable {
      sandboxIssues := LlamaSandboxIssues(exec, fixSuggestion);
    }
    var issues := CollectIssues(sandboxIssues, analysis.issues, executable, learned);
    assert issues == LlamaReportedIssues(exec, executable, fixSuggestion, analysis, learned);
    var fixedCode := code;
    if issues != [] {
      fixedCode := FixedCode(code, fixReply);
    }
    learner.LearnPattern(code, issues, fixedCode, codeHash, timestamp);
    response := Report(issues, analysis.suggestions, fixedCode, Confidence(issues),
                       if executable then Some(exec) else None, PatternNames(learned),
                       aiProbability, language);
  }
}
