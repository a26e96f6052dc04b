/** The in-memory pattern learner (`PatternLearner`): a list of records of past
    analyses and three counters, a look-back search over the last 100
    records, and the statistics. The MD5 prefix of the snippet and the
    timestamp are opaque values supplied by the caller. */
module PatternStore {
  import opened Types
  import opened Text

  /** One learned record. `codeHash` stands for `md5(code).hexdigest()[:8]`
      and `timestamp` for `datetime.now().isoformat()`. */
  datatype PatternRecord = PatternRecord(
    codeHash: string,
    issueTypes: seq<string>,
    timestamp: string,
    issueCount: nat,
    fixesApplied: seq<string>)

  /** The `stats` dict. */
  datatype Stats = Stats(totalAnalyzed: nat, totalIssuesFound: nat, patternsLearned: nat)

  /** One entry returned by `get_similar_issues`; `confidence` in hundredths. */
  datatype SimilarIssue = SimilarIssue(name: string, description: string, confidence: nat, fix: Option<string>)

  /** How many of the latest records `get_similar_issues` examines. */
  const LookBack: nat := 100
  /** A record is similar when its similarity exceeds 0.7. */
  const SimilarityThreshold: nat := 70

  /** `[issue.fix for issue in issues if issue.fix]`. */
  function TruthyFixes(issues: seq<Issue>): (fixes: seq<string>)
    ensures |fixes| <= |issues|
    ensures forall k :: 0 <= k < |fixes| ==> fixes[k] != []
    ensures (forall j :: 0 <= j < |issues| ==> !Truthy(issues[j].fix)) ==> fixes == []
  {
    if issues == [] then []
    else if Truthy(issues[0].fix) then [issues[0].fix.value] + TruthyFixes(issues[1..])
    else TruthyFixes(issues[1..])
  }

  /** The fixes of a concatenation are the fixes of each part, in order. */
  lemma {:induction false} TruthyFixesAppend(a: seq<Issue>, b: seq<Issue>)
    ensures TruthyFixes(a + b) == TruthyFixes(a) + TruthyFixes(b)
    decreases |a|
  {
    if a == [] {
      assert a + b == b;
    } else {
      assert (a + b)[0] == a[0] && (a + b)[1..] == a[1..] + b;
      TruthyFixesAppend(a[1..], b);
    }
  }

  /** One issue contributes its fix exactly when the fix is truthy. */
  lemma TruthyFixesOne(issue: Issue)
    ensures TruthyFixes([issue]) == if Truthy(issue.fix) then [issue.fix.value] else []
  {
    assert [issue][1..] == [];
  }

  /** A record as `learn_pattern` builds it. */
  predicate WellFormed(p: PatternRecord) {
    p.issueCount == |p.issueTypes| && p.issueCount > 0 && |p.fixesApplied| <= p.issueCount
  }

  /** The record `learn_pattern` appends for a non-empty issue list. */
  function MakeRecord(codeHash: string, issues: seq<Issue>, timestamp: string): (p: PatternRecord)
    requires issues != []
    ensures WellFormed(p)
    ensures p.issueCount == |issues|
    ensures forall k :: 0 <= k < |issues| ==> p.issueTypes[k] == issues[k].kind
    ensures p.fixesApplied == TruthyFixes(issues)
    ensures p.codeHash == codeHash && p.timestamp == timestamp
  {
    PatternRecord(codeHash, seq(|issues|, k requires 0 <= k < |issues| => issues[k].kind),
                  timestamp, |issues|, TruthyFixes(issues))
  }

  /** Total of `issue_count` over the records. */
  function SumIssueCounts(ps: seq<PatternRecord>): nat {
    if ps == [] then 0 else SumIssueCounts(ps[..|ps| - 1]) + ps[|ps| - 1].issueCount
  }

  lemma SumIssueCountsAppend(ps: seq<PatternRecord>, p: PatternRecord)
    ensures SumIssueCounts(ps + [p]) == SumIssueCounts(ps) + p.issueCount
  {
    assert (ps + [p])[..|ps|] == ps;
  }

  /** `_calculate_similarity`: a placeholder that always answers 0.5. */
  function Similarity(code: string, p: PatternRecord): nat {
    50
  }

  /** `self.patterns[-100:]`. */
  function Window(ps: seq<PatternRecord>): (w: seq<PatternRecord>)
    ensures |w| <= LookBack && |w| <= |ps|
    ensures w == ps[|ps| - |w|..]
    ensures |ps| <= LookBack ==> w == ps
  {
    if |ps| <= LookBack then ps else ps[|ps| - LookBack..]
  }

  /** The entry built for a similar record. */
  function Entry(p: PatternRecord, similarity: nat): (e: SimilarIssue)
    ensures e.fix == if p.fixesApplied == [] then None else Some(p.fixesApplied[0])
    ensures e.confidence == similarity
  {
    SimilarIssue("Pattern " + p.codeHash,
                 "Similar to " + NatToDecimal(p.issueCount) + " previous issues",
                 similarity,
                 if p.fixesApplied != [] then Some(p.fixesApplied[0]) else None)
  }

  /** The entries for the records of `window` whose similarity exceeds the
      threshold, in record order. */
  function Matches(code: string, window: seq<PatternRecord>): seq<SimilarIssue> {
    if window == [] then []
    else
      var p := window[|window| - 1];
      var rest := Matches(code, window[..|window| - 1]);
      if Similarity(code, p) > SimilarityThreshold then rest + [Entry(p, Similarity(code, p))] else rest
  }

  /** At most one entry per examined record. */
  lemma {:induction false} MatchesBounded(code: string, window: seq<PatternRecord>)
    ensures |Matches(code, window)| <= |window|
  {
    if window != [] {
      MatchesBounded(code, window[..|window| - 1]);
    }
  }

  /** Because the similarity is the constant 0.5, nothing is ever similar. */
  lemma {:induction false} MatchesAlwaysEmpty(code: string, window: seq<PatternRecord>)
    ensures Matches(code, window) == []
  {
    if window != [] {
      MatchesAlwaysEmpty(code, window[..|window| - 1]);
    }
  }

  class PatternLearner {
    var patterns: seq<PatternRecord>
    var stats: Stats

    /** The counters agree with the records. */
    ghost predicate Valid()
      reads this
    {
      && stats.patternsLearned == |patterns|
      && stats.totalAnalyzed == |patterns|
      && stats.totalIssuesFound == SumIssueCounts(patterns)
      && forall k :: 0 <= k < |patterns| ==> WellFormed(patterns[k])
    }

    constructor ()
      ensures Valid()
      ensures patterns == [] && stats == Stats(0, 0, 0)
    {
      patterns := [];
      stats := Stats(0, 0, 0);
    }

    /** `learn_pattern`: an empty issue list changes nothing; otherwise one
        record is appended and the counters move with it. */
    method LearnPattern(code: string, issues: seq<Issue>, fixedCode: string, codeHash: string, timestamp: string)
      requires Valid()
      modifies this
      ensures Valid()
      ensures issues == [] ==> patterns == old(patterns) && stats == old(stats)
      ensures issues != [] ==>
                && patterns == old(patterns) + [MakeRecord(codeHash, issues, timestamp)]
                && stats == Stats(old(stats.totalAnalyzed) + 1,
                                  old(stats.totalIssuesFound) + |issues|,
                                  old(stats.patternsLearned) + 1)
    {
      if issues == [] {
        return;
      }
      var pattern := MakeRecord(codeHash, issues, timestamp);
      SumIssueCountsAppend(patterns, pattern);
      patterns := patterns + [pattern];
      stats := stats.(patternsLearned := stats.patternsLearned + 1);
      stats := stats.(totalAnalyzed := stats.totalAnalyzed + 1);
      stats := stats.(totalIssuesFound := stats.totalIssuesFound + |issues|);
    }

    /** `get_similar_issues`: examine the last 100 records and keep, in order,
        those whose similarity exceeds 0.7. */
    method GetSimilarIssues(code: string) returns (results: seq<SimilarIssue>)
      ensures results == Matches(code, Window(patterns))
      ensures |results| <= LookBack
    {
      var window := Window(patterns);
      results := [];
      var i := 0;
      while i < |window|
        invariant 0 <= i <= |window|
        invariant results == Matches(code, window[..i])
      {
        var pattern := window[i];
        var similarity: nat := Similarity(code, pattern);
        assert window[..i + 1][..i] == window[..i];
        if similarity > SimilarityThreshold {
          results := results + [Entry(pattern, similarity)];
        }
        i := i + 1;
      }
      assert window[..i] == window;
      MatchesBounded(code, window);
    }

    /** `get_stats`. */
    function GetStats(): (s: Stats)
      reads this
      requires Valid()
      ensures s.patternsLearned == s.totalAnalyzed == |patterns|
      ensures s.totalIssuesFound == SumIssueCounts(patterns)
    {
      stats
    }
  }

  /** Every issue adds at least one to `total_issues_found`, so the total is
      never below the number of records. */
  lemma {:induction false} IssuesAtLeastRecords(ps: seq<PatternRecord>)
    requires forall k :: 0 <= k < |ps| ==> WellFormed(ps[k])
    ensures SumIssueCounts(ps) >= |ps|
  {
    if ps != [] {
      IssuesAtLeastRecords(ps[..|ps| - 1]);
    }
  }
}
