/**
 * The leaf computations of app/tools.py, over Dafny strings and sequences.
 * `detect_issues` and `suggest_improvements` build their result step by step
 * in the source, so they are methods here, each proved against the function
 * that states its result.
 */
module Tools {
  import opened Wrappers
  import opened Models
  import opened PyStr

  /** `split_text` cuts the text into chunks of this many characters. */
  const ChunkSize := 100
  /** `refine_summary` keeps at most this many characters. */
  const RefineLimit: nat := 200
  /** `detect_issues` reports code longer than this. */
  const LongCode: nat := 1000
  /** `identify_anomalies` reports a record with a string longer than this. */
  const LongField: nat := 50
  /** The text before the number in each summary of `generate_summaries`. */
  const SummaryPrefix: string := "Summary of chunk "
  /** The one suggestion `suggest_improvements` can make. */
  const PrintAdvice: string := "Consider using logging instead of print."
  /** The one rule `generate_rules` produces. */
  const StringLengthRule: string := "Rule 1: Check string lengths"

  function Min(a: int, b: int): int { if a <= b then a else b }

  /** A list of strings as a list value. */
  function Strs(xs: seq<string>): (r: seq<Value>)
    ensures |r| == |xs| && forall i :: 0 <= i < |xs| ==> r[i] == Str(xs[i])
  {
    seq(|xs|, i requires 0 <= i < |xs| => Str(xs[i]))
  }

  /** extract_functions: how often "def" occurs in the code. */
  function FunctionCount(code: string): (n: nat)
    ensures 3 * n <= |code|
    ensures n > 0 <==> Contains(code, "def")
  {
    StrCountPositiveIffContains(code, "def");
    StrCount(code, "def")
  }

  /** check_complexity: a tenth of the number of lines, capped at 10. */
  function Complexity(code: string): (c: int)
    ensures 0 <= c <= 10
    ensures c == Min((CharCount(code, '\n') + 1) / 10, 10)
  {
    SplitOnCount(code, '\n');
    Min(|SplitOn(code, '\n')| / 10, 10)
  }

  /** detect_issues: one issue for a "TODO", one for code longer than 1000 characters. */
  function IssueCount(code: string): (n: nat)
    ensures n <= 2
    ensures n == 0 <==> !Contains(code, "TODO") && |code| <= LongCode
    ensures n == 2 <==> Contains(code, "TODO") && |code| > LongCode
  {
    (if Contains(code, "TODO") then 1 else 0) + (if |code| > LongCode then 1 else 0)
  }

  /** detect_issues as the source writes it, with a counter. */
  method DetectIssues(code: string) returns (result: StateData)
    ensures result == map["issues" := Int(IssueCount(code))]
  {
    var issues := 0;
    if Contains(code, "TODO") {
      issues := issues + 1;
    }
    if |code| > LongCode {
      issues := issues + 1;
    }
    result := map["issues" := Int(issues)];
  }

  /** The suggestions of suggest_improvements: advice against print, if the code prints. */
  function Suggestions(code: string): (r: seq<string>)
    ensures |r| <= 1
    ensures r != [] <==> Contains(code, "print(")
    ensures forall i :: 0 <= i < |r| ==> r[i] == PrintAdvice
  {
    if Contains(code, "print(") then [PrintAdvice] else []
  }

  /** The quality score of suggest_improvements: 10 less one per suggestion. */
  function QualityScore(code: string): (q: int)
    ensures 9 <= q <= 10
    ensures q == 9 <==> Contains(code, "print(")
  {
    10 - |Suggestions(code)|
  }

  /** suggest_improvements as the source writes it, appending to a list. */
  method SuggestImprovements(code: string) returns (result: StateData)
    ensures result == map["suggestions" := List(Strs(Suggestions(code))),
                          "quality_score" := Int(QualityScore(code))]
  {
    var suggestions: seq<string> := [];
    if Contains(code, "print(") {
      suggestions := suggestions + [PrintAdvice];
    }
    assert suggestions == Suggestions(code);
    var qualityScore := 10 - |suggestions|;
    result := map["suggestions" := List(Strs(suggestions)), "quality_score" := Int(qualityScore)];
  }

  /** The concatenation of a list of strings. */
  function Concat(xs: seq<string>): string
  {
    if xs == [] then "" else xs[0] + Concat(xs[1..])
  }

  /** split_text: consecutive slices of 100 characters, the last one possibly shorter. */
  function Chunks(text: string): (r: seq<string>)
    ensures 100 * |r| - 100 < |text| <= 100 * |r|
    decreases |text|
  {
    if text == [] then []
    else if |text| <= 100 then [text]
    else [text[..100]] + Chunks(text[100..])
  }

  /** The chunks put back together are the text. */
  lemma {:induction false} ChunksConcat(text: string)
    ensures Concat(Chunks(text)) == text
    decreases |text|
  {
    if |text| > 100 {
      ChunksUnfold(text);
      ChunksConcat(text[100..]);
      assert Chunks(text)[1..] == Chunks(text[100..]);
      assert text[..100] + text[100..] == text;
    } else if text != [] {
      assert Concat([text]) == text + Concat([]);
    }
  }

  /** Every chunk but the last has 100 characters; the last has between 1 and 100. */
  lemma ChunkSizes(text: string, i: nat)
    requires i < |Chunks(text)|
    ensures i < |Chunks(text)| - 1 ==> |Chunks(text)[i]| == 100
    ensures 1 <= |Chunks(text)[i]| <= 100
  {
    ChunkAt(text, i);
  }

  /** A text longer than one chunk starts with a full chunk. */
  lemma ChunksUnfold(text: string)
    requires |text| > 100
    ensures Chunks(text) == [text[..100]] + Chunks(text[100..])
  {
  }

  /** The i-th chunk is the slice `text[100 * i : 100 * i + 100]`, as the source's comprehension writes it. */
  lemma {:induction false} ChunkAt(text: string, i: nat)
    requires i < |Chunks(text)|
    ensures Chunks(text)[i] == text[100 * i .. Min(100 * i + 100, |text|)]
    decreases |text|
  {
    if |text| <= 100 {
      assert Chunks(text) == [text];
      assert text[0..|text|] == text;
    } else {
      var rest := text[100..];
      ChunksUnfold(text);
      if i == 0 {
        assert Chunks(text)[0] == text[..100];
      } else {
        ChunkAt(rest, i - 1);
        ChunkShift(text, i);
      }
    }
  }

  /** The chunk after the first full one is the next chunk of the rest of the text. */
  lemma ChunkShift(text: string, i: nat)
    requires |text| > 100 && 0 < i < |Chunks(text)|
    requires i - 1 < |Chunks(text[100..])|
    requires Chunks(text[100..])[i - 1] == text[100..][100 * (i - 1) .. Min(100 * (i - 1) + 100, |text| - 100)]
    ensures Chunks(text)[i] == text[100 * i .. Min(100 * i + 100, |text|)]
  {
    var rest := text[100..];
    var lo, hi := 100 * (i - 1), Min(100 * (i - 1) + 100, |rest|);
    ChunksUnfold(text);
    assert Chunks(text)[i] == Chunks(rest)[i - 1];
    SliceOfSuffix(text, 100, lo, hi);
    assert 100 + lo == 100 * i && 100 + hi == Min(100 * i + 100, |text|);
  }

  /** generate_summaries: one numbered summary per chunk. */
  function Summaries(n: nat): (r: seq<string>)
    ensures |r| == n
  {
    seq(n, i requires 0 <= i < n => SummaryPrefix + NatToString(i + 1))
  }

  /** The number in the i-th summary reads back as i + 1. */
  lemma SummaryNumbers(n: nat, i: nat)
    requires i < n
    ensures |Summaries(n)[i]| > |SummaryPrefix|
    ensures Summaries(n)[i][..|SummaryPrefix|] == SummaryPrefix
    ensures var digits := Summaries(n)[i][|SummaryPrefix|..];
            (forall j :: 0 <= j < |digits| ==> '0' <= digits[j] <= '9') && DecimalValue(digits) == i + 1
  {
    var s := Summaries(n)[i];
    assert s[|SummaryPrefix|..] == NatToString(i + 1);
    NatToStringRoundTrip(i + 1);
  }

  /** merge_summaries: the summaries joined with single spaces. */
  function MergedSummary(summaries: seq<string>): (r: string)
    ensures |r| == if summaries == [] then 0 else TotalLength(summaries) + |summaries| - 1
  {
    JoinWithLength(summaries, " ");
    JoinWith(summaries, " ")
  }

  /**
   * Summary i sits in the merged text after the summaries before it and one
   * space for each of them, and a space follows it unless it is the last.
   */
  lemma MergedPieceAt(summaries: seq<string>, i: nat)
    requires i < |summaries|
    ensures var o := TotalLength(summaries[..i]) + i;
            var m := MergedSummary(summaries);
            && o + |summaries[i]| <= |m|
            && m[o..o + |summaries[i]|] == summaries[i]
            && (i + 1 < |summaries| ==> o + |summaries[i]| < |m| && m[o + |summaries[i]|] == ' ')
  {
    JoinWithPieceAt(summaries, " ", i);
  }

  /**
   * The merged summaries of n chunks are shorter than the refine limit
   * exactly when there are at most ten chunks: each summary has 18 or 19
   * characters while the chunk number has one or two digits.
   */
  lemma MergedSummaryFits(n: nat)
    ensures |MergedSummary(Summaries(n))| < RefineLimit <==> n <= 10
  {
    var xs := Summaries(n);
    if n <= 10 {
      forall i | 0 <= i < n
        ensures |xs[i]| <= |SummaryPrefix| + 2
      {
        NatToStringShort(i + 1);
      }
      TotalLengthAtMost(xs, |SummaryPrefix| + 2);
    } else {
      TotalLengthAtLeast(xs, |SummaryPrefix| + 1);
    }
  }

  /** Splitting a merged summary at its spaces gives back summaries that contain no space. */
  lemma MergedSummarySplits(summaries: seq<string>)
    requires |summaries| >= 1
    requires forall i :: 0 <= i < |summaries| ==> ' ' !in summaries[i]
    ensures SplitOn(MergedSummary(summaries), ' ') == summaries
  {
    SplitOnJoin(summaries, ' ');
  }

  /** refine_summary: the first 200 characters (or items). */
  function Refined<T>(s: seq<T>): (r: seq<T>)
    ensures |r| == Min(|s|, RefineLimit)
    ensures r == s[..|r|]
  {
    Take(s, RefineLimit)
  }

  /** Refining twice is refining once. */
  lemma RefinedIdempotent<T>(s: seq<T>)
    ensures Refined(Refined(s)) == Refined(s)
  {
  }

  /** A record of identify_anomalies is anomalous when one of its values is a string longer than 50. */
  predicate IsAnomalous(entries: seq<(string, Value)>)
  {
    exists i | 0 <= i < |entries| :: entries[i].1.Str? && |entries[i].1.s| > LongField
  }

  /** Every item of the list is a dict. */
  predicate AllDicts(records: seq<Value>)
  {
    forall i | 0 <= i < |records| :: records[i].Dict?
  }

  /** identify_anomalies: the number of anomalous records. */
  function AnomalyCount(records: seq<Value>): (n: nat)
    requires AllDicts(records)
    ensures n <= |records|
    ensures n == 0 <==> forall i :: 0 <= i < |records| ==> !IsAnomalous(records[i].entries)
  {
    if records == [] then 0
    else
      var rest := AnomalyCount(records[1..]);
      assert forall i :: 1 <= i < |records| ==> records[i] == records[1..][i - 1];
      (if IsAnomalous(records[0].entries) then 1 else 0) + rest
  }

  /** Counting anomalies over two lists of records adds up. */
  lemma {:induction false} AnomalyCountAppend(a: seq<Value>, b: seq<Value>)
    requires AllDicts(a) && AllDicts(b)
    ensures AllDicts(a + b)
    ensures AnomalyCount(a + b) == AnomalyCount(a) + AnomalyCount(b)
  {
    if a != [] {
      assert (a + b)[0] == a[0];
      assert (a + b)[1..] == a[1..] + b;
      assert AllDicts(a[1..]);
      assert AllDicts(a + b);
      assert AnomalyCount(a + b) == (if IsAnomalous(a[0].entries) then 1 else 0) + AnomalyCount(a[1..] + b);
      AnomalyCountAppend(a[1..], b);
    } else {
      assert a + b == b;
    }
  }

  /** profile_data's columns: the keys of the first record, in order. */
  function Columns(entries: seq<(string, Value)>): seq<Value>
  {
    seq(|entries|, i requires 0 <= i < |entries| => Str(entries[i].0))
  }

  /**
   * `list(d.keys())` is what iterating the dict yields, so a string is a
   * column exactly when it is a key of the record.
   */
  lemma ColumnsAreKeys(entries: seq<(string, Value)>)
    ensures Iterate(Dict(entries)) == Some(Columns(entries))
    ensures forall c :: Str(c) in Columns(entries) <==> exists i | 0 <= i < |entries| :: entries[i].0 == c
  {
    var cols := Columns(entries);
    forall c
      ensures Str(c) in cols <==> exists i | 0 <= i < |entries| :: entries[i].0 == c
    {
      if Str(c) in cols {
        var j :| 0 <= j < |cols| && cols[j] == Str(c);
        assert entries[j].0 == c;
      }
      if exists i | 0 <= i < |entries| :: entries[i].0 == c {
        var i :| 0 <= i < |entries| && entries[i].0 == c;
        assert cols[i] == Str(c);
      }
    }
  }
}
