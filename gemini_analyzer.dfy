/** The Gemini analyzer (`GeminiAnalyzer`): string handling around the model's
    replies. The reply is an input (`Generation`); `json.loads` is the
    `decode` parameter, whose value type `J` stays abstract because the
    analyzer hands whatever it parsed back unchanged. */
module GeminiAnalyzer {
  import opened Types
  import opened Text

  /** What `generate_content(...).text` gave: the text, or an exception with
      its message. */
  datatype Generation = GenerateRaised(message: string) | Generated(text: string)

  /** `json.loads` on a span: the parsed value, or an exception message. */
  datatype Decoding<J> = DecodeRaised(message: string) | Decoded(value: J)

  /** What `analyze_code` returns: the parsed JSON, or the default dict
      `{"issues": [], "suggestions": [], "ai_generated_probability": 0.0}`,
      with an "error" key when an exception was caught. */
  datatype GeminiAnalysis<J> = Parsed(value: J) | Default(error: Option<string>)

  /** Index of the first occurrence of `c` in `s`. */
  function FirstIndex(s: string, c: char): (r: Option<nat>)
    ensures r.Some? ==> r.value < |s| && s[r.value] == c && forall k :: 0 <= k < r.value ==> s[k] != c
    ensures r.None? ==> forall k :: 0 <= k < |s| ==> s[k] != c
  {
    if s == [] then None
    else if s[0] == c then Some(0)
    else match FirstIndex(s[1..], c)
      case None => None
      case Some(k) => Some(k + 1)
  }

  /** Index of the last occurrence of `c` in `s`. */
  function LastIndex(s: string, c: char): (r: Option<nat>)
    ensures r.Some? ==> r.value < |s| && s[r.value] == c && forall k :: r.value < k < |s| ==> s[k] != c
    ensures r.None? ==> forall k :: 0 <= k < |s| ==> s[k] != c
  {
    if s == [] then None
    else if s[|s| - 1] == c then Some(|s| - 1)
    else LastIndex(s[..|s| - 1], c)
  }

  /** Some '{' comes before some '}'. */
  predicate HasBracePair(t: string) {
    exists i, j :: 0 <= i < j < |t| && t[i] == '{' && t[j] == '}'
  }

  /** `re.search(r"\{[\s\S]*\}", t)`: the leftmost match starts at the first
      '{' and, being greedy, ends at the last '}' after it. The result is the
      pair (start, end) of the span `t[start..end + 1]`. */
  function JsonSpan(t: string): (r: Option<(nat, nat)>)
    ensures r.None? <==> !HasBracePair(t)
    ensures r.Some? ==>
              && r.value.0 < r.value.1 < |t|
              && t[r.value.0] == '{' && t[r.value.1] == '}'
              && (forall k :: 0 <= k < r.value.0 ==> t[k] != '{')
              && (forall k :: r.value.1 < k < |t| ==> t[k] != '}')
  {
    var first := FirstIndex(t, '{');
    var last := LastIndex(t, '}');
    if first.Some? && last.Some? && first.value < last.value then
      Some((first.value, last.value))
    else
      forall i, j | 0 <= i < j < |t| && t[i] == '{'
        ensures t[j] != '}'
      {
      }
      None
  }

  /** No match of the pattern is longer: any '{' ... '}' substring of `t`
      lies inside the greedy span. */
  lemma JsonSpanIsWidest(t: string, i: nat, j: nat)
    requires i < j < |t| && t[i] == '{' && t[j] == '}'
    ensures JsonSpan(t).Some?
    ensures JsonSpan(t).value.0 <= i && j <= JsonSpan(t).value.1
  {
    assert HasBracePair(t);
  }

  /** `analyze_code` once the model was called. */
  function AnalyzeReply<J>(generation: Generation, decode: string -> Decoding<J>): (r: GeminiAnalysis<J>)
    ensures r == Default(None) <==> generation.Generated? && !HasBracePair(Strip(generation.text))
    ensures generation.GenerateRaised? ==> r == Default(Some(generation.message))
    ensures r.Parsed? ==> generation.Generated? && HasBracePair(Strip(generation.text))
    ensures generation.Generated? && JsonSpan(Strip(generation.text)).Some? ==>
              var t := Strip(generation.text);
              var span := JsonSpan(t).value;
              var decoded := decode(t[span.0..span.1 + 1]);
              && (decoded.DecodeRaised? ==> r == Default(Some(decoded.message)))
              && (decoded.Decoded? ==> r == Parsed(decoded.value))
  {
    match generation
    case GenerateRaised(message) => Default(Some(message))
    case Generated(text) =>
      var t := Strip(text);
      match JsonSpan(t)
      case None => Default(None)
      case Some((start, end)) =>
        match decode(t[start..end + 1])
        case DecodeRaised(message) => Default(Some(message))
        case Decoded(value) => Parsed(value)
  }

  /** The cleanup of `suggest_fix` and `generate_fixed_code`: strip, drop
      every fence with the word after it, drop stray fences, strip. The
      result holds no fence and is stripped, and a reply without a fence is
      only stripped. */
  function CleanReply(text: string): (r: string)
    ensures !Contains(r, Fence)
    ensures r == [] || (!IsSpace(r[0]) && !IsSpace(r[|r| - 1]))
    ensures Strip(r) == r
    ensures !Contains(Strip(text), Fence) ==> r == Strip(text)
  {
    var untagged := RemoveFenceTags(Strip(text));
    RemoveFencesLeavesNone(untagged);
    StripAvoids(Replace(untagged, Fence, ""), Fence);
    StripIdempotent(Replace(untagged, Fence, ""));
    FenceFreeUntouched(Strip(text));
    StripIdempotent(text);
    Strip(Replace(untagged, Fence, ""))
  }

  /** A reply fenced as "```tag" ... "```" yields the stripped code between
      the fences, without the language tag. */
  lemma TaggedFenceUnwrapped(tag: string, body: string)
    requires forall k :: 0 <= k < |tag| ==> IsWordChar(tag[k])
    requires NoTicks(body) && (body == [] || !IsWordChar(body[0]))
    ensures CleanReply(Fence + tag + body + Fence) == Strip(body)
  {
    var rest := body + Fence;
    var s := Fence + (tag + rest);
    assert Fence + tag + body + Fence == s;
    assert s[0] == '`' && s[|s| - 1] == '`';
    StripUnchanged(s);
    assert RemoveFenceTags(s) == body by {
      assert StartsWith(s, Fence) && s[3..] == tag + rest;
      assert rest[0] == if body == [] then '`' else body[0];
      WordRunOfWord(tag, rest);
      assert s[3 + |tag|..] == rest;
      RemoveClosingFenceTag(body);
    }
    NoTicksNoFence(body);
    ReplaceAbsent(body, Fence, "");
    assert CleanReply(s) == Strip(Replace(RemoveFenceTags(Strip(s)), Fence, ""));
  }

  /** `suggest_fix`: the cleaned reply, or `None` on an exception. */
  function SuggestFix(generation: Generation): (r: Option<string>)
    ensures r.None? <==> generation.GenerateRaised?
    ensures r.Some? ==> r.value == CleanReply(generation.text)
    ensures r.Some? ==> !Contains(r.value, Fence) && r.value == Strip(r.value)
  {
    match generation
    case GenerateRaised(_) => None
    case Generated(text) =>
      Some(CleanReply(text))
  }

  /** `generate_fixed_code`: the cleaned reply when it is non-empty, the
      original code otherwise or on an exception. */
  function GenerateFixedCode(code: string, generation: Generation): (r: string)
    ensures generation.GenerateRaised? ==> r == code
    ensures generation.Generated? ==>
              r == if CleanReply(generation.text) != [] then CleanReply(generation.text) else code
    ensures r != code ==> r != [] && !Contains(r, Fence) && r == Strip(r)
  {
    match generation
    case GenerateRaised(_) => code
    case Generated(text) =>
      var fixed := CleanReply(text);
      if fixed != [] then fixed else code
  }

  /** Line `- type: message` of the prompt. */
  function IssueLine(issue: Issue): string {
    "- " + issue.kind + ": " + issue.message
  }

  /** The issue lines of the `generate_fixed_code` prompt: the first five
      issues, in order. */
  function PromptIssueLines(issues: seq<Issue>): (lines: seq<string>)
    ensures |lines| == if |issues| <= 5 then |issues| else 5
    ensures forall k :: 0 <= k < |lines| ==> lines[k] == IssueLine(issues[k])
  {
    var shown := if |issues| <= 5 then issues else issues[..5];
    seq(|shown|, k requires 0 <= k < |shown| => IssueLine(shown[k]))
  }

  /** Issues past the fifth never reach the prompt. */
  lemma PromptIgnoresLaterIssues(issues: seq<Issue>, more: seq<Issue>)
    requires |issues| >= 5
    ensures PromptIssueLines(issues + more) == PromptIssueLines(issues)
  {
    var a := PromptIssueLines(issues + more);
    var b := PromptIssueLines(issues);
    assert |a| == 5 == |b|;
    forall k | 0 <= k < 5
      ensures a[k] == b[k]
    {
      assert (issues + more)[k] == issues[k];
    }
  }
}
