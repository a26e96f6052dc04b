# AI Code Debugger backend — a Dafny model

This project models the backend of the AI Code Debugger: a FastAPI service
that takes a code snippet and does six things:

- asks Llama (through Groq) to detect its language, list issues and
  estimate how likely it is to be AI-generated;
- runs the snippet in a sandbox (Docker, or a plain subprocess);
- turns sandbox errors and model findings into one issue list;
- asks the model for a fixed version;
- records the session in an in-memory pattern learner;
- scores the result.

The model is split into one module per source file, plus two support modules:

- `Types` (types.dfy): `Option` and the `Issue` record.
- `Text` (text.dfy): the Python string operations the backend uses:
  - `lower`, `strip`, `in`, `startswith`;
  - `count` and `replace`, both non-overlapping and left to right;
  - `split('\n')[-1]`;
  - the regular expression `` ```[\w]* ``;
  - `int` and `str` on decimal numbers.
- `Sandbox` (sandbox.py): the class `CodeSandbox`.
  - Its constructor picks Docker or subprocess mode once.
  - The two traceback parsers, including the regular expression `line (\d+)`.
  - `ExecuteCode` dispatches on the language.
  - The four drivers map what the host reports into the result dict. The host's report is an input: a process exit, a timeout, a missing binary, or a container outcome.
  - The drivers create and unlink temporary files step by step. A ghost map of live temporary files records which paths leave one behind.
- `PatternStore` (pattern_learner.py): the class `PatternLearner`, with its records, its counters and the look-back search.
- `LlamaAnalyzer` (llama_analyzer.py):
  - language normalisation, the keyword fallback and the language named in free text;
  - the weighted AI-phrase score, kept in half-points;
  - fence stripping;
  - the three result paths of `analyze_code`;
  - the `generate_fixed_code` fallback.
- `GeminiAnalyzer` (gemini_analyzer.py): an alternative analyzer that neither handler calls. It takes the language as an argument and detects none. Modelled: the greedy JSON span, the default results, fence cleanup and the five-issue prompt.
- `MainApp` (main.py): the `/analyze` handler and the rules it shares with main_llama.py. These are the reject rule, the executable-language list, the confidence score, the filter on model issues and the known-pattern warnings.
- `MainLlamaApp` (main_llama.py): the keyword chain that decides whether a sandbox error is reported, the probability boost, and its own `/analyze` handler.

Probabilities and confidence are integer hundredths (0.85 is 85). The
phrase score is in half-points, so a weight of 1.5 is 3. Replies of the
language models and the result of `json.loads` are inputs to the
functions that use them.

Notes on the sandbox's behaviour:

- A Python subprocess that exits non-zero reports its whole stderr, not the last non-empty line. The last line is used only in Docker mode. An empty stderr gives "Unknown error".
- The temporary file is not removed on every path. `Sandbox.LeavesTempFile` names the paths that keep it. One of them is a `write` that raises after `NamedTemporaryFile` created the file, e.g. for code the file's encoding cannot represent.
- A missing Python interpreter is reported as "Execution error: …", like any other exception. Only a missing Node.js gets its own message.
- An unsupported language yields `{"error": "Unsupported language", "output": ""}`. That dict has no `executed_successfully` key.
- In Docker mode, any exception from `wait` or `logs` is reported as a timeout, unless the `stop()` that follows also raises. Then the driver's outer handler reports "Docker error: …".

## Model

| member | source | states |
|---|---|---|
| Text.Strip | ai-code-debugger/backend/sandbox.py:259 | `str.strip()` returns a slice of its input with no whitespace (Python's `isspace` set) at either end, and everything it drops before and after that slice is whitespace |
| Text.LowerStrip | ai-code-debugger/backend/llama_analyzer.py:68 | lower-casing and stripping commute, the step behind the idempotence of language normalisation |
| Text.CountPositive | ai-code-debugger/backend/llama_analyzer.py:221-223 | the non-overlapping count of a pattern is positive exactly when the pattern occurs |
| Text.RemoveFencesLeavesNone | ai-code-debugger/backend/llama_analyzer.py:304 | after `replace("```", "")` no "```" is left, whatever the input (the leading run of k backticks shrinks to k mod 3, the step of the induction) |
| Sandbox.CodeSandbox.constructor | ai-code-debugger/backend/sandbox.py:17-33 | timeout is 5 and Docker mode is on exactly when the import succeeded and `ping` did not raise; no temporary file and no stop yet |
| Sandbox.Dispatch | ai-code-debugger/backend/sandbox.py:38-49 | a driver exists exactly for "python" and "javascript"; it is a Docker driver exactly when Docker is available and a Python driver exactly for "python" |
| Sandbox.ExecuteOutcome | ai-code-debugger/backend/sandbox.py:35-49 | every language other than "python" and "javascript" gets exactly `Refused("Unsupported language")` |
| Sandbox.CodeSandbox.ExecuteCode | ai-code-debugger/backend/sandbox.py:35-51 | an unsupported language returns the refusal and changes no temporary file and no container; otherwise the dispatched driver's result, files and stops (`TempsAfter`, `StopsAfter`) |
| Sandbox.DriverResult | ai-code-debugger/backend/sandbox.py:53-253 | every driver result is a run in the driver's mode whose `error` is None exactly when `executed_successfully` holds; only a failed run of a Python driver sets `line` |
| Sandbox.CodeSandbox.CreateTemp | ai-code-debugger/backend/sandbox.py:56 | a fresh, empty temporary file is added; no other file changes |
| Sandbox.CodeSandbox.WriteTemp | ai-code-debugger/backend/sandbox.py:57 | the file just created now holds the code; no other file changes |
| Sandbox.CodeSandbox.Unlink | ai-code-debugger/backend/sandbox.py:69 | exactly that file is removed |
| Sandbox.CodeSandbox.StopContainer | ai-code-debugger/backend/sandbox.py:191 | one more `container.stop()` call |
| Sandbox.CodeSandbox.ExecuteSubprocess | ai-code-debugger/backend/sandbox.py:53-148 | the result is the driver's outcome mapping; the temporary file remains exactly on the paths `LeavesTempFile` names (a raising `write` among them, leaving the empty file) |
| Sandbox.CodeSandbox.ExecuteDocker | ai-code-debugger/backend/sandbox.py:150-253 | as above for Docker, and the container is stopped exactly when `wait` or `logs` raised |
| Sandbox.PythonSubprocessFailure | ai-code-debugger/backend/sandbox.py:78-85 | a non-zero Python exit reports the whole stderr, or "Unknown error" when it is empty, so the error is never empty; `line` comes from stderr |
| Sandbox.SubprocessCleanup | ai-code-debugger/backend/sandbox.py:56-93 | in subprocess mode a normal exit and a timeout both unlink the file, so one stays only when the `write` raised; a timeout gives the fixed message and empty output |
| Sandbox.WriteFailureLeavesFile | ai-code-debugger/backend/sandbox.py:56-58 | a `write` that raises after the file was created is reported as "Execution error: …" or "Docker error: …" with empty output, and the empty file stays (also sandbox.py:95-101, 153-155, 199-205) |
| Sandbox.DockerWaitFailure | ai-code-debugger/backend/sandbox.py:169-197 | an exception from `wait` or `logs`, followed by a `stop()` that does not raise, stops the container and reports a timeout with empty output in mode "docker" |
| Sandbox.ParsePythonError | ai-code-debugger/backend/sandbox.py:255-262 | empty logs give "Unknown error"; otherwise the result is the part of the stripped logs after their last newline, and it holds no newline |
| Sandbox.ParsePythonErrorBlank | ai-code-debugger/backend/sandbox.py:257-261 | logs made only of whitespace give the empty string |
| Sandbox.ExtractErrorLine | ai-code-debugger/backend/sandbox.py:264-272 | None exactly for empty logs or when no "line " is followed by a digit; otherwise the value of the full digit run after the first such marker |
| Sandbox.ExtractErrorLineReadsNumber | ai-code-debugger/backend/sandbox.py:269-271 | logs that start with "line N" followed by a non-digit read back N |
| Sandbox.CodeSandbox.IsHealthy | ai-code-debugger/backend/sandbox.py:274-276 | always healthy |
| PatternStore.PatternLearner.constructor | ai-code-debugger/backend/pattern_learner.py:10-16 | no records and all three counters 0, so the learner invariant holds |
| PatternStore.TruthyFixes | ai-code-debugger/backend/pattern_learner.py:29 | the kept fixes are non-empty and at most one per issue; none when no issue has a truthy fix |
| PatternStore.TruthyFixesAppend | ai-code-debugger/backend/pattern_learner.py:29 | the fixes of two issue lists put together are the fixes of the first followed by those of the second |
| PatternStore.TruthyFixesOne | ai-code-debugger/backend/pattern_learner.py:29 | a single issue contributes its fix exactly when the fix is truthy |
| PatternStore.MakeRecord | ai-code-debugger/backend/pattern_learner.py:24-30 | `issue_count` is the number of issues, `issue_types` their types in order, `fixes_applied` the issues' truthy fixes in order, and hash and timestamp are the caller's |
| PatternStore.SumIssueCountsAppend | ai-code-debugger/backend/pattern_learner.py:35 | appending a record adds its issue count to the total |
| PatternStore.PatternLearner.LearnPattern | ai-code-debugger/backend/pattern_learner.py:18-35 | no issues: nothing changes; otherwise exactly one record is appended, `patterns_learned` and `total_analyzed` rise by 1 and `total_issues_found` by the number of issues, and the invariant is kept |
| PatternStore.Window | ai-code-debugger/backend/pattern_learner.py:46 | the examined records are the last at most 100 records |
| PatternStore.Entry | ai-code-debugger/backend/pattern_learner.py:50-55 | an entry's fix is the first applied fix, or None when there is none; its confidence is the similarity |
| PatternStore.PatternLearner.GetSimilarIssues | ai-code-debugger/backend/pattern_learner.py:40-57 | the entries for the examined records whose similarity exceeds 0.7, in record order; at most 100; the learner is not changed |
| PatternStore.MatchesBounded | ai-code-debugger/backend/pattern_learner.py:43-57 | at most one entry per examined record |
| PatternStore.MatchesAlwaysEmpty | ai-code-debugger/backend/pattern_learner.py:46-62 | the similarity is the constant 0.5, so the search never returns anything |
| PatternStore.PatternLearner.GetStats | ai-code-debugger/backend/pattern_learner.py:64-66 | `patterns_learned` and `total_analyzed` equal the record count and `total_issues_found` the sum of the records' issue counts |
| PatternStore.IssuesAtLeastRecords | ai-code-debugger/backend/pattern_learner.py:32-35 | the issue total is never below the record count |
| LlamaAnalyzer.NormalizeLanguage | ai-code-debugger/backend/llama_analyzer.py:68-80 | the result is a canonical name: lower case, stripped, and not itself an alias |
| LlamaAnalyzer.NormalizeCanonical | ai-code-debugger/backend/llama_analyzer.py:68-80 | a canonical name passes through unchanged |
| LlamaAnalyzer.NormalizeAlias | ai-code-debugger/backend/llama_analyzer.py:68-80 | an alias in any case and with surrounding whitespace becomes its target |
| LlamaAnalyzer.NormalizePassThrough | ai-code-debugger/backend/llama_analyzer.py:68-80 | a name that is no alias once lower-cased and stripped is returned lower-cased and stripped |
| LlamaAnalyzer.AliasTargetsAreFinal | ai-code-debugger/backend/llama_analyzer.py:69-79 | no alias target is itself an alias, and every target is lower case and stripped |
| LlamaAnalyzer.NormalizeIdempotent | ai-code-debugger/backend/llama_analyzer.py:68-80 | normalising twice equals normalising once |
| LlamaAnalyzer.FallbackDetect | ai-code-debugger/backend/llama_analyzer.py:124-140 | the answer is one of html, python, javascript, cpp, java, sql, bash, plaintext |
| LlamaAnalyzer.FallbackDetectIsFirstRule | ai-code-debugger/backend/llama_analyzer.py:124-140 | the answer is the label of the first rule in the fixed rule table that holds for the lower-cased code, else plaintext |
| LlamaAnalyzer.FirstListed | ai-code-debugger/backend/llama_analyzer.py:119-121 | the index found is the first list entry contained in the text; None only when no entry is |
| LlamaAnalyzer.ExtractLanguageFromText | ai-code-debugger/backend/llama_analyzer.py:117-122 | the loop returns the first listed language in the lower-cased text, else the keyword fallback on the code |
| LlamaAnalyzer.JavascriptBeatsJava | ai-code-debugger/backend/llama_analyzer.py:119-121 | text that mentions "javascript" never yields "java" |
| LlamaAnalyzer.PatternPointsByPresence | ai-code-debugger/backend/llama_analyzer.py:204-207 | the phrase score depends only on which phrases occur, not how often, and never exceeds the sum of the weights |
| LlamaAnalyzer.PatternPointsAtLeastTwo | ai-code-debugger/backend/llama_analyzer.py:204-207 | two distinct listed phrases that both occur add both weights |
| LlamaAnalyzer.ExampleUsageCountsTwice | ai-code-debugger/backend/llama_analyzer.py:181-182 | "example usage:" also triggers "example usage", so such a snippet scores at least 5 points |
| LlamaAnalyzer.DocstringBonusIffTwo | ai-code-debugger/backend/llama_analyzer.py:221-225 | the docstring point is given exactly when `"""` occurs at least twice without overlap in the original-case code |
| LlamaAnalyzer.Probability | ai-code-debugger/backend/llama_analyzer.py:228-239 | the probability is one of 0.10, 0.25, 0.40, 0.60, 0.75, 0.85; 0.10 exactly below 1 point and 0.85 exactly from 10 points |
| LlamaAnalyzer.ProbabilityMonotone | ai-code-debugger/backend/llama_analyzer.py:228-239 | a higher score never gives a lower probability |
| LlamaAnalyzer.DetectAiPatterns | ai-code-debugger/backend/llama_analyzer.py:168-248 | the loop's total is the phrase score plus the generic-name bonus (2 points above 5 uses, 1 above 3) plus the docstring bonus, mapped by the step function |
| LlamaAnalyzer.StripReplyFencesRemovesAll | ai-code-debugger/backend/llama_analyzer.py:61-63 | a reply that starts with a fence holds no "```" after the cleanup |
| LlamaAnalyzer.AnalyzeCode | ai-code-debugger/backend/llama_analyzer.py:46-113 | a parsed reply: normalised language, the reply's lists, and a missing or zero probability replaced by the phrase score; a decode error: fallback language, no issues, suggestion "Unable to parse model response", phrase score; any other failure: fallback language, empty lists, probability 0 |
| LlamaAnalyzer.CleanFix | ai-code-debugger/backend/llama_analyzer.py:302-303 | the cleaned reply holds no "```" and is stripped; a reply without "```" is only stripped |
| LlamaAnalyzer.FencedFixUnwrapped | ai-code-debugger/backend/llama_analyzer.py:302-303 | a reply "```" body "```" yields the stripped body, for a body with no backtick |
| LlamaAnalyzer.FixedCode | ai-code-debugger/backend/llama_analyzer.py:295-308 | the original code on an exception or an empty cleaned reply; otherwise the cleaned reply |
| GeminiAnalyzer.JsonSpan | ai-code-debugger/backend/gemini_analyzer.py:44 | a span exists exactly when some '{' precedes some '}'; it runs from the first '{' to the last '}' |
| GeminiAnalyzer.JsonSpanIsWidest | ai-code-debugger/backend/gemini_analyzer.py:44 | every '{'…'}' substring lies inside the span (the match is greedy) |
| GeminiAnalyzer.AnalyzeReply | ai-code-debugger/backend/gemini_analyzer.py:39-60 | the default result without "error" exactly when the stripped reply has no span; otherwise the span is decoded, giving its value or, when decoding raises, the default with the message; an exception from the model gives the default with its message |
| GeminiAnalyzer.CleanReply | ai-code-debugger/backend/gemini_analyzer.py:81-83 | the cleaned text holds no "```" and has no whitespace at either end; a reply without "```" is only stripped |
| GeminiAnalyzer.TaggedFenceUnwrapped | ai-code-debugger/backend/gemini_analyzer.py:81-83 | a reply "```tag" body "```" yields the stripped body, the language tag dropped, for a body with no backtick that does not start with a word character (otherwise `\w*` takes the body's first word into the tag) |
| GeminiAnalyzer.SuggestFix | ai-code-debugger/backend/gemini_analyzer.py:77-88 | None exactly on an exception; otherwise the cleaned reply, even when it is empty |
| GeminiAnalyzer.GenerateFixedCode | ai-code-debugger/backend/gemini_analyzer.py:109-120 | the original code on an exception or an empty cleaned reply; otherwise the cleaned reply |
| GeminiAnalyzer.PromptIssueLines | ai-code-debugger/backend/gemini_analyzer.py:93-95 | the prompt lists the first min(5, n) issues, in order |
| GeminiAnalyzer.PromptIgnoresLaterIssues | ai-code-debugger/backend/gemini_analyzer.py:94 | issues after the fifth never change the prompt |
| MainApp.RejectedIsExecutable | ai-code-debugger/backend/main.py:123-135 | "error", "failed" and "none" are not in the non-executable list, so only the reject rule stops them |
| MainApp.SeverityWeight | ai-code-debugger/backend/main.py:63-64 | every severity costs between 0.05 and 0.30 |
| MainApp.Confidence | ai-code-debugger/backend/main.py:58-67 | the confidence lies in [0, 1] and is 1 exactly when there are no issues (also main_llama.py:59-68) |
| MainApp.ConfidenceNeverRises | ai-code-debugger/backend/main.py:58-67 | adding issues never raises the confidence |
| MainApp.OneErrorConfidence | ai-code-debugger/backend/main.py:63-66 | a single error gives 0.70 |
| MainApp.KeptLlmIssues | ai-code-debugger/backend/main.py:176-188 | for an executable language all model issues are kept; otherwise exactly those whose lower-cased message has none of the three misleading phrases (also main_llama.py:223-235) |
| MainApp.KeptLlmIssuesAppend | ai-code-debugger/backend/main.py:176-188 | the filter works issue by issue: on two lists put together it gives the kept issues of the first followed by those of the second, so order and repeats are kept |
| MainApp.KeptLlmIssuesOne | ai-code-debugger/backend/main.py:176-188 | a single issue is kept exactly when the language is executable or its message has none of the misleading phrases |
| MainApp.PatternWarnings | ai-code-debugger/backend/main.py:191-198 | only learned patterns above 0.7 give warnings, each a "Known Pattern" of severity "warning" without a line |
| MainApp.PatternWarningsAppend | ai-code-debugger/backend/main.py:191-198 | the warnings of two pattern lists put together are those of the first followed by those of the second |
| MainApp.PatternWarningsOne | ai-code-debugger/backend/main.py:191-198 | a single pattern gives one "Known Pattern" warning carrying its description and fix exactly when its confidence exceeds 0.7 |
| MainApp.PatternNames | ai-code-debugger/backend/main.py:241 | the report lists every learned pattern's name, in order |
| MainApp.SandboxIssues | ai-code-debugger/backend/main.py:153-170 | exactly one "Runtime Error" of severity "error" carrying the error, when the error is truthy and does not mention "unsupported"; none otherwise |
| MainApp.RefusedNeverReported | ai-code-debugger/backend/main.py:157-158 | the sandbox's "Unsupported language" refusal never becomes an issue |
| MainApp.CollectIssues | ai-code-debugger/backend/main.py:150-198 | the loops build: sandbox issue, then the kept model issues in order, then the known-pattern warnings |
| MainApp.ReportedIssuesWithoutPatterns | ai-code-debugger/backend/main.py:191-198 | with the learner as written no known-pattern warning is ever added |
| MainApp.AnalyzeRequest | ai-code-debugger/backend/main.py:104-255 | a rejected language gives 400 and touches neither sandbox nor learner; otherwise the issues are assembled in order, the sandbox is used only for executable languages, leaving the temporary files and stop count `TempsAfter` and `StopsAfter` give, and `executionResult` is None otherwise, the fixed code is the input when there are no issues, and the learner records the session |
| MainLlamaApp.ClassifyReportsIff | ai-code-debugger/backend/main_llama.py:163-217 | an error is reported exactly when its lower-cased text contains none of timeout, interactive, input, unsupported, memory, execution halted, infinite loop, segmentation fault, stack overflow, recursion limit, import |
| MainLlamaApp.OutOfMemoryBranchUnreachable | ai-code-debugger/backend/main_llama.py:175-192 | the "out of memory" branch is never taken |
| MainLlamaApp.SecondTimeoutBranchUnreachable | ai-code-debugger/backend/main_llama.py:166-198 | the second "timeout" branch is never taken |
| MainLlamaApp.ModuleErrorReported | ai-code-debugger/backend/main_llama.py:199-201 | `("import" or "module")` tests "import" alone: an error saying "module" is reported |
| MainLlamaApp.LlamaSandboxIssues | ai-code-debugger/backend/main_llama.py:163-217 | one "Runtime Error" of severity "error" exactly when the error is truthy and the chain reaches its last branch |
| MainLlamaApp.LlamaSandboxIssuesStricter | ai-code-debugger/backend/main_llama.py:172-174 | whenever main_llama.py reports a sandbox error, main.py reports the same issue |
| MainLlamaApp.TimeoutsNeverReported | ai-code-debugger/backend/main_llama.py:166-168 | the sandbox's own timeout messages are never reported |
| MainLlamaApp.Boost | ai-code-debugger/backend/main_llama.py:133-139 | unchanged without patterns; with patterns the probability becomes max(p, 0.90) |
| MainLlamaApp.BoostIdempotent | ai-code-debugger/backend/main_llama.py:137-138 | boosting twice equals boosting once |
| MainLlamaApp.AnalyzeRequest | ai-code-debugger/backend/main_llama.py:105-302 | as in main.py, including the sandbox's new files and stop count, with the keyword chain deciding the sandbox issue and the boosted probability in the report |

## Left out

- Executing code: `subprocess.run`, the Docker client calls, the wall-clock timeout and the container's memory, CPU and network limits. Their outcome is the `HostRun` input.
- Sandbox.CodeSandbox.Unlink: assumes `os.unlink` succeeds. It removes the file the same driver has just created.
- Sandbox.CodeSandbox.ExecuteCode: the outer `except Exception` of `execute_code` is not modelled. Every driver catches its own exceptions, so nothing reaches it.
- Temporary files are not removed on every path. Neither the code nor the model promises universal cleanup. `Sandbox.LeavesTempFile` lists the paths that leave the file.
- Text.Lower: lower-cases ASCII letters only. Python's `str.lower` also maps other letters.
- Text.IsWordChar, Text.DigitRun: `\w` and `\d` are taken in their ASCII sense. Python's also match other Unicode letters and digits.
- The calls to Groq and Gemini, the prompt wording (except Gemini's issue lines) and `json.loads`. Replies and parsed values are inputs (`Completion`, `Generation`, `decode`).
- LlamaAnalyzer.AnalyzeCode: takes the model's probability already in hundredths, so `ai_prob == 0.0` is tested on hundredths. It folds valid JSON that the code cannot read into one outcome. That covers JSON that is not an object, a language that is not a string, and a probability that is not a number (which raises at the format on llama_analyzer.py:91).
- GeminiAnalyzer.AnalyzeReply: the parsed value is an abstract type `J`. The function returns it unchanged, as the source does, and does not check its shape.
- The Llama `suggest_fix` (llama_analyzer.py:250-276): it reads `choices.message`, so what it returns depends on the client library's types. The handlers take its result as the input `fixSuggestion`.
- `_get_ai_reasoning` and the `found_patterns` list only feed log lines. All `print` output is left out too.
- The Gemini `__init__` only configures the client and builds the model object. The Gemini `is_healthy` and the `/health` routes call a language model and report whether it answered. The `/stats` route returns hard-coded numbers. The root route, CORS, pydantic validation and uvicorn are web plumbing.
- MainApp.AnalyzeRequest, MainLlamaApp.AnalyzeRequest: the Llama analysis each one awaits is an input (`LlamaAnalyzer.AnalyzeCode` computes it). Issues are already typed, so a pydantic validation failure and the resulting HTTP 500 are not modelled.
- MainApp.AnalyzeRequest, MainLlamaApp.AnalyzeRequest: `asyncio.gather` is modelled as the sandbox run followed by the pattern lookup. The two share no state.
- MainApp.Confidence: computed in exact hundredths. The source uses floating point and then `round(..., 2)`.
- PatternStore.MakeRecord: `md5(code)[:8]` and `datetime.now().isoformat()` are opaque strings supplied by the caller.
- `PatternLearner.is_healthy` always answers True, and icons.py only draws images. Neither has logic to verify.
