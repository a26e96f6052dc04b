/** The Llama analyzer (`LlamaAnalyzer`): everything it does with text once the
    model has answered. Language names are normalised through an alias map,
    languages are guessed from keywords when the model fails, an
    "AI-generated" probability is scored from weighted phrases, and code
    fences are stripped from replies.

    The model's reply is an input (`Completion`), and `json.loads` on the
    cleaned reply is the `decode` parameter. Scores are in half-points so the
    1.5-point weights stay integers; probabilities are in hundredths. */
module LlamaAnalyzer {
  import opened Types
  import opened Text

  // ---------- language names ----------

  /** `lang_map`. */
  const LangMap: map<string, string> := map[
    "htm" := "html", "js" := "javascript", "ts" := "typescript", "py" := "python",
    "c++" := "cpp", "c#" := "csharp", "golang" := "go", "shell" := "bash", "sh" := "bash"]

  /** `lang_map.get(name.lower().strip(), name.lower().strip())`: the name is
      lower-cased and stripped, an alias is replaced by its target, any other
      name passes through. The result is a canonical name: lower case,
      stripped and no alias. */
  function NormalizeLanguage(name: string): (r: string)
    ensures NoUpper(r) && Strip(r) == r && r !in LangMap
  {
    var key := Strip(Lower(name));
    StripKeepsNoUpper(Lower(name));
    StripIdempotent(Lower(name));
    if key in LangMap then
      AliasTargetsAreFinal(key);
      LangMap[key]
    else key
  }

  /** A name of lower-case letters is already lower case and stripped. */
  lemma LetterNameIsFinal(t: string)
    requires t != [] && forall k :: 0 <= k < |t| ==> 'a' <= t[k] <= 'z'
    ensures NoUpper(t) && Strip(t) == t
  {
    StripLeftIdempotent(t);
    StripRightIdempotent(t);
  }

  /** No alias target is itself an alias, and every target is already lower
      case and stripped. */
  lemma AliasTargetsAreFinal(key: string)
    requires key in LangMap
    ensures LangMap[key] !in LangMap && NoUpper(LangMap[key]) && Strip(LangMap[key]) == LangMap[key]
  {
    if key == "htm" {
      assert LangMap[key] == "html" && "html" !in LangMap;
      LetterNameIsFinal("html");
    } else if key == "js" {
      assert LangMap[key] == "javascript" && "javascript" !in LangMap;
      LetterNameIsFinal("javascript");
    } else if key == "ts" {
      assert LangMap[key] == "typescript" && "typescript" !in LangMap;
      LetterNameIsFinal("typescript");
    } else if key == "py" {
      assert LangMap[key] == "python" && "python" !in LangMap;
      LetterNameIsFinal("python");
    } else if key == "c++" {
      assert LangMap[key] == "cpp" && "cpp" !in LangMap;
      LetterNameIsFinal("cpp");
    } else if key == "c#" {
      assert LangMap[key] == "csharp" && "csharp" !in LangMap;
      LetterNameIsFinal("csharp");
    } else if key == "golang" {
      assert LangMap[key] == "go" && "go" !in LangMap;
      LetterNameIsFinal("go");
    } else if key == "shell" {
      assert LangMap[key] == "bash" && "bash" !in LangMap;
      LetterNameIsFinal("bash");
    } else {
      assert key == "sh";
      assert LangMap[key] == "bash" && "bash" !in LangMap;
      LetterNameIsFinal("bash");
    }
  }

  /** A canonical name normalises to itself. */
  lemma NormalizeCanonical(name: string)
    requires NoUpper(name) && Strip(name) == name && name !in LangMap
    ensures NormalizeLanguage(name) == name
  {
    LowerOfNoUpper(name);
  }

  /** An alias, in any case and with any surrounding whitespace, normalises
      to its target. */
  lemma NormalizeAlias(name: string)
    requires Strip(Lower(name)) in LangMap
    ensures NormalizeLanguage(name) == LangMap[Strip(Lower(name))]
  {
  }

  /** A name that is no alias once lower-cased and stripped comes back
      lower-cased and stripped: "Python" gives "python". */
  lemma NormalizePassThrough(name: string)
    requires Strip(Lower(name)) !in LangMap
    ensures NormalizeLanguage(name) == Strip(Lower(name))
  {
  }

  /** Normalising twice is normalising once. */
  lemma NormalizeIdempotent(name: string)
    ensures NormalizeLanguage(NormalizeLanguage(name)) == NormalizeLanguage(name)
  {
    NormalizeCanonical(NormalizeLanguage(name));
  }

  // ---------- keyword fallback ----------

  /** `_fallback_detect`, on the lower-cased snippet. */
  function FallbackDetect(code: string): (r: string)
    ensures r in {"html", "python", "javascript", "cpp", "java", "sql", "bash", "plaintext"}
  {
    var c := Lower(code);
    if Contains(c, "<html") || Contains(c, "<div") then "html"
    else if Contains(c, "def ") || Contains(c, "import ") then "python"
    else if Contains(c, "function") || Contains(c, "=>") || Contains(c, "const ") then "javascript"
    else if Contains(c, "#include") then "cpp"
    else if Contains(c, "public class") then "java"
    else if Contains(c, "select ") && Contains(c, " from ") then "sql"
    else if StartsWith(c, "#!/bin/bash") then "bash"
    else "plaintext"
  }

  /** A detection rule, as a table entry. */
  datatype Rule =
    | AnyOf(needles: seq<string>, lang: string)
    | AllOf(needles: seq<string>, lang: string)
    | Prefix(prefix: string, lang: string)

  /** Some needle occurs in `c`. */
  predicate AnyContained(needles: seq<string>, c: string) {
    needles != [] && (Contains(c, needles[0]) || AnyContained(needles[1..], c))
  }

  /** Every needle occurs in `c`. */
  predicate AllContained(needles: seq<string>, c: string) {
    needles == [] || (Contains(c, needles[0]) && AllContained(needles[1..], c))
  }

  predicate RuleHolds(rule: Rule, c: string) {
    match rule
    case AnyOf(needles, _) => AnyContained(needles, c)
    case AllOf(needles, _) => AllContained(needles, c)
    case Prefix(prefix, _) => StartsWith(c, prefix)
  }

  const FallbackRules: seq<Rule> := [
    AnyOf(["<html", "<div"], "html"),
    AnyOf(["def ", "import "], "python"),
    AnyOf(["function", "=>", "const "], "javascript"),
    AnyOf(["#include"], "cpp"),
    AnyOf(["public class"], "java"),
    AllOf(["select ", " from "], "sql"),
    Prefix("#!/bin/bash", "bash")]

  /** The label of the first rule that holds, or "plaintext". */
  function FirstRuleLabel(rules: seq<Rule>, c: string): string {
    if rules == [] then "plaintext"
    else if RuleHolds(rules[0], c) then rules[0].lang
    else FirstRuleLabel(rules[1..], c)
  }

  lemma AnyContainedOne(a: string, c: string)
    ensures AnyContained([a], c) == Contains(c, a)
  {
    assert [a][1..] == [];
  }

  lemma AnyContainedTwo(a: string, b: string, c: string)
    ensures AnyContained([a, b], c) == (Contains(c, a) || Contains(c, b))
  {
    assert [a, b][1..] == [b];
    AnyContainedOne(b, c);
  }

  /** The keyword fallback is "first rule that holds, in the fixed order". */
  lemma FallbackDetectIsFirstRule(code: string)
    ensures FallbackDetect(code) == FirstRuleLabel(FallbackRules, Lower(code))
  {
    var c := Lower(code);
    var rs := FallbackRules;
    AnyContainedOne("#include", c);
    AnyContainedOne("public class", c);
    AnyContainedTwo("<html", "<div", c);
    AnyContainedTwo("def ", "import ", c);
    AnyContainedOne("const ", c);
    AnyContainedTwo("=>", "const ", c);
    assert ["function", "=>", "const "][1..] == ["=>", "const "];
    assert AllContained([" from "], c) == Contains(c, " from ") by {
      assert [" from "][1..] == [];
    }
    assert AllContained(["select ", " from "], c) == (Contains(c, "select ") && Contains(c, " from ")) by {
      assert ["select ", " from "][1..] == [" from "];
    }
    assert FirstRuleLabel(rs[6..], c) == if StartsWith(c, "#!/bin/bash") then "bash" else "plaintext" by {
      assert rs[6..][1..] == [];
    }
    assert FirstRuleLabel(rs[5..], c) == if AllContained(["select ", " from "], c) then "sql" else FirstRuleLabel(rs[6..], c) by {
      assert rs[5..][1..] == rs[6..];
    }
    assert FirstRuleLabel(rs[4..], c) == if Contains(c, "public class") then "java" else FirstRuleLabel(rs[5..], c) by {
      assert rs[4..][1..] == rs[5..];
    }
    assert FirstRuleLabel(rs[3..], c) == if Contains(c, "#include") then "cpp" else FirstRuleLabel(rs[4..], c) by {
      assert rs[3..][1..] == rs[4..];
    }
    assert FirstRuleLabel(rs[2..], c) == if AnyContained(["function", "=>", "const "], c) then "javascript" else FirstRuleLabel(rs[3..], c) by {
      assert rs[2..][1..] == rs[3..];
    }
    assert FirstRuleLabel(rs[1..], c) == if AnyContained(["def ", "import "], c) then "python" else FirstRuleLabel(rs[2..], c) by {
      assert rs[1..][1..] == rs[2..];
    }
  }

  // ---------- language named in free text ----------

  /** The order `_extract_language_from_text` tries. */
  const ListedLanguages: seq<string> :=
    ["html", "css", "javascript", "python", "java", "cpp", "typescript", "php", "ruby", "go", "rust"]

  /** The first entry of `langs` contained in `t`. */
  function FirstListed(langs: seq<string>, t: string): (r: Option<nat>)
    ensures r.Some? ==> r.value < |langs| && Contains(t, langs[r.value])
                        && forall j :: 0 <= j < r.value ==> !Contains(t, langs[j])
    ensures r.None? ==> forall j :: 0 <= j < |langs| ==> !Contains(t, langs[j])
  {
    if langs == [] then None
    else if Contains(t, langs[0]) then Some(0)
    else match FirstListed(langs[1..], t)
      case None => None
      case Some(k) => Some(k + 1)
  }

  /** What `_extract_language_from_text` returns. */
  function ExtractedLanguage(text: string, code: string): string {
    match FirstListed(ListedLanguages, Lower(text))
    case Some(k) => ListedLanguages[k]
    case None => FallbackDetect(code)
  }

  /** `_extract_language_from_text`: the first listed language named in the
      lower-cased text, else the keyword fallback on the code. */
  method ExtractLanguageFromText(text: string, code: string) returns (lang: string)
    ensures lang == ExtractedLanguage(text, code)
  {
    var t := Lower(text);
    var i := 0;
    while i < |ListedLanguages|
      invariant 0 <= i <= |ListedLanguages|
      invariant forall j :: 0 <= j < i ==> !Contains(t, ListedLanguages[j])
    {
      if Contains(t, ListedLanguages[i]) {
        FirstListedUnique(ListedLanguages, t, i);
        return ListedLanguages[i];
      }
      i := i + 1;
    }
    return FallbackDetect(code);
  }

  lemma FirstListedUnique(langs: seq<string>, t: string, i: nat)
    requires i < |langs| && Contains(t, langs[i])
    requires forall j :: 0 <= j < i ==> !Contains(t, langs[j])
    ensures FirstListed(langs, t) == Some(i)
  {
    var r := FirstListed(langs, t);
    assert r.Some?;
    if r.value < i {
    } else if r.value > i {
    }
  }

  /** "javascript" is tried before "java", so text naming JavaScript is never
      read as Java. */
  lemma JavascriptBeatsJava(text: string, code: string)
    requires Contains(Lower(text), "javascript")
    ensures ExtractedLanguage(text, code) != "java"
  {
    var r := FirstListed(ListedLanguages, Lower(text));
    assert ListedLanguages[2] == "javascript" && ListedLanguages[4] == "java";
    assert r.Some? && r.value <= 2;
    assert forall k :: 0 <= k <= 2 ==> ListedLanguages[k] != "java";
  }

  // ---------- heuristic AI-pattern score ----------

  /** The weighted phrases, weights in half-points (a weight of 3 is 6). */
  const WeightedPatterns: seq<(string, nat)> := [
    ("here's a", 6), ("here's how", 6), ("here is a", 6), ("this function does", 6),
    ("example usage:", 6), ("example usage", 4), ("def factorial", 6), ("def fibonacci", 6),
    ("your_api_key", 6), ("api_key_here", 6),
    ("this function", 4), ("# example:", 4), ("// example:", 4), ("example.com", 4),
    ("placeholder", 4), ("note:", 3), ("important:", 3),
    ("# todo:", 2), ("// todo:", 2), ("fixme:", 2)]

  /** Sum of the weights of the phrases that occur in `c`; each phrase counts
      once, however often it occurs. */
  function PatternPoints(c: string, ps: seq<(string, nat)>): nat {
    if ps == [] then 0
    else PatternPoints(c, ps[..|ps| - 1]) + (if Contains(c, ps[|ps| - 1].0) then ps[|ps| - 1].1 else 0)
  }

  function TotalWeight(ps: seq<(string, nat)>): nat {
    if ps == [] then 0 else TotalWeight(ps[..|ps| - 1]) + ps[|ps| - 1].1
  }

  /** The phrase score depends only on which phrases occur, never on how
      often: two texts with the same phrases score the same, and no text
      scores above the sum of all weights. */
  lemma {:induction false} PatternPointsByPresence(c1: string, c2: string, ps: seq<(string, nat)>)
    requires forall k :: 0 <= k < |ps| ==> (Contains(c1, ps[k].0) <==> Contains(c2, ps[k].0))
    ensures PatternPoints(c1, ps) == PatternPoints(c2, ps)
    ensures PatternPoints(c1, ps) <= TotalWeight(ps)
  {
    if ps != [] {
      PatternPointsByPresence(c1, c2, ps[..|ps| - 1]);
    }
  }

  /** Two distinct listed phrases that both occur contribute both weights. */
  lemma {:induction false} PatternPointsAtLeastTwo(c: string, ps: seq<(string, nat)>, i: nat, j: nat)
    requires i < j < |ps|
    requires Contains(c, ps[i].0) && Contains(c, ps[j].0)
    ensures PatternPoints(c, ps) >= ps[i].1 + ps[j].1
  {
    var init := ps[..|ps| - 1];
    if j < |ps| - 1 {
      PatternPointsAtLeastTwo(c, init, i, j);
    } else {
      PatternPointsAtLeastOne(c, init, i);
    }
  }

  lemma {:induction false} PatternPointsAtLeastOne(c: string, ps: seq<(string, nat)>, i: nat)
    requires i < |ps| && Contains(c, ps[i].0)
    ensures PatternPoints(c, ps) >= ps[i].1
  {
    if i < |ps| - 1 {
      PatternPointsAtLeastOne(c, ps[..|ps| - 1], i);
    }
  }

  /** Overlapping phrases both count: "example usage:" also triggers
      "example usage", so such a snippet scores at least 5 points. */
  lemma ExampleUsageCountsTwice(c: string)
    requires Contains(c, "example usage:")
    ensures PatternPoints(c, WeightedPatterns) >= 10
  {
    assert MatchAt("example usage:", "example usage", 0);
    ContainsTransitive(c, "example usage:", "example usage");
    assert WeightedPatterns[4].0 == "example usage:" && WeightedPatterns[5].0 == "example usage";
    PatternPointsAtLeastTwo(c, WeightedPatterns, 4, 5);
  }

  /** `sum(c.count(var) for var in generic_vars)`. */
  function GenericCount(c: string): nat {
    Count(c, "result") + Count(c, "data") + Count(c, "temp")
    + Count(c, "value") + Count(c, "item") + Count(c, "obj")
  }

  /** Half-points for generic variable names: 2 points above 5, 1 above 3. */
  function GenericBonus(count: nat): nat {
    if count > 5 then 4 else if count > 3 then 2 else 0
  }

  const TripleQuote: string := "\"\"\""

  /** Half-points for docstrings, on the original-case code. */
  function DocstringBonus(code: string): nat {
    if Contains(code, TripleQuote) && Count(code, TripleQuote) >= 2 then 2 else 0
  }

  /** The docstring point is given exactly when `"""` occurs twice without
      overlapping. */
  lemma DocstringBonusIffTwo(code: string)
    ensures DocstringBonus(code) == 2 <==> Count(code, TripleQuote) >= 2
  {
    CountPositive(code, TripleQuote);
  }

  /** The total score of `_detect_ai_patterns`, in half-points. */
  function AiScore(code: string): nat {
    var c := Lower(code);
    PatternPoints(c, WeightedPatterns) + GenericBonus(GenericCount(c)) + DocstringBonus(code)
  }

  /** The step function from score (half-points) to probability (hundredths):
      thresholds at 1, 3, 5, 7 and 10 points. */
  function Probability(score: nat): (p: nat)
    ensures p in {10, 25, 40, 60, 75, 85}
    ensures score < 2 <==> p == 10
    ensures score >= 20 <==> p == 85
  {
    if score >= 20 then 85
    else if score >= 14 then 75
    else if score >= 10 then 60
    else if score >= 6 then 40
    else if score >= 2 then 25
    else 10
  }

  /** A higher score never lowers the probability. */
  lemma ProbabilityMonotone(a: nat, b: nat)
    requires a <= b
    ensures Probability(a) <= Probability(b)
  {
  }

  function AiPatternProbability(code: string): (p: nat)
    ensures p in {10, 25, 40, 60, 75, 85}
  {
    Probability(AiScore(code))
  }

  /** `_detect_ai_patterns`: add the weight of every phrase that occurs, the
      generic-name bonus and the docstring bonus, then map the score. */
  method DetectAiPatterns(code: string) returns (probability: nat)
    ensures probability == AiPatternProbability(code)
  {
    var c := Lower(code);
    var total: nat := 0;
    var i := 0;
    while i < |WeightedPatterns|
      invariant 0 <= i <= |WeightedPatterns|
      invariant total == PatternPoints(c, WeightedPatterns[..i])
    {
      var (pattern, weight) := WeightedPatterns[i];
      assert WeightedPatterns[..i + 1][..i] == WeightedPatterns[..i];
      if Contains(c, pattern) {
        total := total + weight;
      }
      i := i + 1;
    }
    assert WeightedPatterns[..i] == WeightedPatterns;
    var genericCount := GenericCount(c);
    if genericCount > 5 {
      total := total + 4;
    } else if genericCount > 3 {
      total := total + 2;
    }
    if Contains(code, TripleQuote) {
      var docstringCount := Count(code, TripleQuote);
      if docstringCount >= 2 {
        total := total + 2;
      }
    }
    probability := Probability(total);
  }

  // ---------- replies ----------

  /** What the chat-completion call gave back: the message content, or an
      exception (network, authentication, a malformed response object). */
  datatype Completion = CallFailed | Replied(content: string)

  /** The fields of the reply object the backend reads; absent keys are
      `None` or empty. Probabilities are in hundredths. */
  datatype ParsedReply = ParsedReply(
    detectedLanguage: Option<string>,
    issues: seq<Issue>,
    suggestions: seq<string>,
    aiProbability: Option<int>,
    patterns: seq<string>)

  /** `json.loads` on the cleaned reply: a decode error, valid JSON the code
      cannot read (not an object, a language that is not a string, or a
      probability that is not a number, which the log line's format rejects),
      or the object. */
  datatype Decoded = Malformed | Unusable | Parsed(reply: ParsedReply)

  /** The dict `analyze_code` returns. */
  datatype Analysis = Analysis(
    detectedLanguage: string,
    issues: seq<Issue>,
    suggestions: seq<string>,
    aiProbability: int,
    patterns: seq<string>)

  /** The fence removal of `analyze_code`: only a reply that starts with a
      fence is rewritten. */
  function StripReplyFences(t: string): string {
    if StartsWith(t, Fence) then Strip(Replace(Replace(t, "```json", ""), Fence, "")) else t
  }

  /** A rewritten reply holds no fence. */
  lemma StripReplyFencesRemovesAll(t: string)
    requires StartsWith(t, Fence)
    ensures !Contains(StripReplyFences(t), Fence)
  {
    var u := Replace(t, "```json", "");
    RemoveFencesLeavesNone(u);
    StripAvoids(Replace(u, Fence, ""), Fence);
  }

  /** The text handed to `json.loads`. */
  function CleanReply(content: string): string {
    StripReplyFences(Strip(content))
  }

  /** `analyze_code`: parse the reply, normalise the language, and fall back
      to the keyword detector and the phrase score when the model did not
      deliver. */
  method AnalyzeCode(code: string, completion: Completion, decode: string -> Decoded) returns (result: Analysis)
    ensures completion.CallFailed? ==> result == Analysis(FallbackDetect(code), [], [], 0, [])
    ensures completion.Replied? && decode(CleanReply(completion.content)).Unusable? ==>
              result == Analysis(FallbackDetect(code), [], [], 0, [])
    ensures completion.Replied? && decode(CleanReply(completion.content)).Malformed? ==>
              result == Analysis(FallbackDetect(code), [], ["Unable to parse model response"],
                                 AiPatternProbability(code), [])
    ensures completion.Replied? && decode(CleanReply(completion.content)).Parsed? ==>
              var reply := decode(CleanReply(completion.content)).reply;
              && result.detectedLanguage == NormalizeLanguage(if reply.detectedLanguage.Some? then reply.detectedLanguage.value else "unknown")
              && result.issues == reply.issues
              && result.suggestions == reply.suggestions
              && result.patterns == reply.patterns
              && result.aiProbability == (if reply.aiProbability.None? || reply.aiProbability == Some(0)
                                          then AiPatternProbability(code) else reply.aiProbability.value)
  {
    if completion.CallFailed? {
      return Analysis(FallbackDetect(code), [], [], 0, []);
    }
    var responseText := Strip(completion.content);
    responseText := StripReplyFences(responseText);
    var decoded := decode(responseText);
    match decoded {
      case Malformed =>
        var aiProb := DetectAiPatterns(code);
        return Analysis(FallbackDetect(code), [], ["Unable to parse model response"], aiProb, []);
      case Unusable =>
        return Analysis(FallbackDetect(code), [], [], 0, []);
      case Parsed(reply) =>
        var detected := if reply.detectedLanguage.Some? then reply.detectedLanguage.value else "unknown";
        result := Analysis(NormalizeLanguage(detected), reply.issues, reply.suggestions, 0, reply.patterns);
        if reply.aiProbability.None? || reply.aiProbability == Some(0) {
          var aiProb := DetectAiPatterns(code);
          result := result.(aiProbability := aiProb);
        } else {
          result := result.(aiProbability := reply.aiProbability.value);
        }
    }
  }

  /** The cleanup of `generate_fixed_code`: strip, drop every fence, strip
      again. The result holds no fence and is stripped, and a reply without a
      fence is only stripped. */
  function CleanFix(content: string): (r: string)
    ensures !Contains(r, Fence)
    ensures Strip(r) == r
    ensures !Contains(Strip(content), Fence) ==> r == Strip(content)
  {
    var removed := Replace(Strip(content), Fence, "");
    RemoveFencesLeavesNone(Strip(content));
    StripAvoids(removed, Fence);
    StripIdempotent(removed);
    FenceFreeUntouched(Strip(content));
    StripIdempotent(content);
    Strip(removed)
  }

  /** A reply wrapped in a pair of fences yields the stripped text between
      them. */
  lemma FencedFixUnwrapped(body: string)
    requires NoTicks(body)
    ensures CleanFix(Fence + body + Fence) == Strip(body)
  {
    var s := Fence + (body + Fence);
    assert Fence + body + Fence == s;
    assert s[0] == '`' && s[|s| - 1] == '`';
    StripUnchanged(s);
    assert Replace(s, Fence, "") == body by {
      assert StartsWith(s, Fence) && s[3..] == body + Fence;
      assert Replace(s, Fence, "") == "" + Replace(body + Fence, Fence, "");
      ReplaceClosingFence(body);
    }
    assert CleanFix(s) == Strip(Replace(Strip(s), Fence, ""));
  }

  /** `generate_fixed_code` once the model answered: the cleaned reply, or the
      original code when the call raised or nothing is left. */
  function FixedCode(code: string, completion: Completion): (r: string)
    ensures completion.CallFailed? ==> r == code
    ensures completion.Replied? ==>
              r == if CleanFix(completion.content) != [] then CleanFix(completion.content) else code
    ensures r == code || (r != [] && !Contains(r, Fence) && Strip(r) == r)
  {
    if completion.CallFailed? then code
    else
      var fixed := CleanFix(completion.content);
      assert !Contains(fixed, Fence) && Strip(fixed) == fixed;
      if fixed != [] then fixed else code
  }
}
