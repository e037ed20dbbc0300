/**
 * The integer scanner: every maximal run of decimal digits in the source,
 * left to right, becomes an INTEGER token; every other character is dropped.
 */
module SclScanner {
  import opened Tokens

  /** An ASCII decimal digit. */
  predicate IsDigit(c: char) {
    '0' <= c <= '9'
  }

  /** The half-open index range [start, end) of one digit run in the source. */
  datatype Span = Span(start: nat, end: nat)

  /** The first index at or after i that holds no digit (or the length). */
  function RunEnd(s: string, i: nat): (e: nat)
    requires i <= |s|
    ensures i <= e <= |s|
    ensures forall k :: i <= k < e ==> IsDigit(s[k])
    ensures e == |s| || !IsDigit(s[e])
    ensures i < |s| && IsDigit(s[i]) ==> i < e
    decreases |s| - i
  {
    if i < |s| && IsDigit(s[i]) then RunEnd(s, i + 1) else i
  }

  /**
   * The maximal digit runs of s that start at or after `from`, in order.
   * Each is non-empty, made of digits only, followed by a non-digit or the
   * end, and separated from the next one by at least one non-digit.
   */
  function Spans(s: string, from: nat): (r: seq<Span>)
    requires from <= |s|
    ensures forall k :: 0 <= k < |r| ==> from <= r[k].start < r[k].end <= |s|
    ensures forall k, i :: 0 <= k < |r| && r[k].start <= i < r[k].end ==> IsDigit(s[i])
    ensures forall k :: 0 <= k < |r| ==> r[k].end == |s| || !IsDigit(s[r[k].end])
    ensures forall k :: 0 <= k < |r| - 1 ==> r[k].end < r[k + 1].start
    decreases |s| - from
  {
    if from == |s| then []
    else if !IsDigit(s[from]) then Spans(s, from + 1)
    else
      var e := RunEnd(s, from);
      var rest := Spans(s, e);
      SpansCons(s, from, e, rest);
      [Span(from, e)] + rest
  }

  /** A maximal run, put in front of the runs after it, keeps the four properties of Spans. */
  lemma SpansCons(s: string, from: nat, e: nat, rest: seq<Span>)
    requires from < e <= |s| && (e == |s| || !IsDigit(s[e]))
    requires forall i :: from <= i < e ==> IsDigit(s[i])
    requires forall k :: 0 <= k < |rest| ==> e <= rest[k].start < rest[k].end <= |s|
    requires forall k, i :: 0 <= k < |rest| && rest[k].start <= i < rest[k].end ==> IsDigit(s[i])
    requires forall k :: 0 <= k < |rest| ==> rest[k].end == |s| || !IsDigit(s[rest[k].end])
    requires forall k :: 0 <= k < |rest| - 1 ==> rest[k].end < rest[k + 1].start
    ensures var r := [Span(from, e)] + rest;
            (forall k :: 0 <= k < |r| ==> from <= r[k].start < r[k].end <= |s|) &&
            (forall k, i :: 0 <= k < |r| && r[k].start <= i < r[k].end ==> IsDigit(s[i])) &&
            (forall k :: 0 <= k < |r| ==> r[k].end == |s| || !IsDigit(s[r[k].end])) &&
            (forall k :: 0 <= k < |r| - 1 ==> r[k].end < r[k + 1].start)
  {
    var r := [Span(from, e)] + rest;
    assert forall k :: 0 < k < |r| ==> r[k] == rest[k - 1];
    if rest != [] {
      assert e < rest[0].start by { assert e <= rest[0].start && e != rest[0].start; }
    }
  }

  /** Spans lie within the source and are non-empty. */
  predicate InBounds(s: string, sps: seq<Span>) {
    forall k :: 0 <= k < |sps| ==> sps[k].start < sps[k].end <= |s|
  }

  /** One INTEGER token per span, carrying the text of that span. */
  function TokensOf(s: string, sps: seq<Span>): (ts: seq<Token>)
    requires InBounds(s, sps)
    ensures |ts| == |sps|
    ensures forall k :: 0 <= k < |ts| ==>
              ts[k] == Token(INTEGER, s[sps[k].start..sps[k].end])
  {
    if sps == [] then [] else [Token(INTEGER, s[sps[0].start..sps[0].end])] + TokensOf(s, sps[1..])
  }

  /** The text of every span, in order. */
  function Texts(s: string, sps: seq<Span>): (ts: seq<string>)
    requires InBounds(s, sps)
    ensures |ts| == |sps|
    ensures forall k :: 0 <= k < |ts| ==> ts[k] == s[sps[k].start..sps[k].end]
  {
    if sps == [] then [] else [s[sps[0].start..sps[0].end]] + Texts(s, sps[1..])
  }

  /**
   * The matches of `\d+` from index i on, in the order a left-to-right scan
   * finds them: skip a non-digit, or take the whole digit run starting at i.
   */
  function RunsFrom(s: string, i: nat): seq<string>
    requires i <= |s|
    decreases |s| - i
  {
    if i == |s| then []
    else if !IsDigit(s[i]) then RunsFrom(s, i + 1)
    else [s[i..RunEnd(s, i)]] + RunsFrom(s, RunEnd(s, i))
  }

  /** What `re.findall(r'\d+', s)` returns, for ASCII digits. */
  function FindAll(s: string): seq<string> {
    RunsFrom(s, 0)
  }

  /** What `tokenize` returns for the source s: one INTEGER token per maximal run. */
  function IntegerTokens(s: string): seq<Token> {
    TokensOf(s, Spans(s, 0))
  }

  /** The scan finds exactly the texts of the maximal runs, in order. */
  lemma {:induction false} RunsFromSpans(s: string, from: nat)
    requires from <= |s|
    ensures RunsFrom(s, from) == Texts(s, Spans(s, from))
    decreases |s| - from
  {
    if from < |s| {
      if !IsDigit(s[from]) {
        RunsFromSpans(s, from + 1);
      } else {
        var e := RunEnd(s, from);
        RunsFromSpans(s, e);
        var sps := Spans(s, e);
        assert Spans(s, from) == [Span(from, e)] + sps;
        assert ([Span(from, e)] + sps)[1..] == sps;
      }
    }
  }

  /**
   * The left-to-right scan that `re.findall(r'\d+', s)` performs: at a
   * digit, extend the run as far as it goes and record its text; skip any
   * other character.
   */
  method FindDigitRuns(s: string) returns (matches: seq<string>)
    ensures matches == FindAll(s)
  {
    var i := 0;
    matches := [];
    while i < |s|
      invariant i <= |s|
      invariant FindAll(s) == matches + RunsFrom(s, i)
    {
      if IsDigit(s[i]) {
        var j := i;
        while j < |s| && IsDigit(s[j])
          invariant i <= j <= |s|
          invariant RunEnd(s, j) == RunEnd(s, i)
        {
          j := j + 1;
        }
        assert RunsFrom(s, i) == [s[i..j]] + RunsFrom(s, j);
        assert matches + ([s[i..j]] + RunsFrom(s, j)) == (matches + [s[i..j]]) + RunsFrom(s, j);
        matches := matches + [s[i..j]];
        i := j;
      } else {
        i := i + 1;
      }
    }
    assert matches + [] == matches;
  }

  /** The source with every non-digit character deleted. */
  function Digits(s: string): string {
    if s == [] then [] else (if IsDigit(s[0]) then [s[0]] else []) + Digits(s[1..])
  }

  /** The values of the tokens, concatenated. */
  function Concat(ts: seq<Token>): string {
    if ts == [] then [] else ts[0].value + Concat(ts[1..])
  }

  /** A digit run begins at i: a digit with no digit just before it. */
  predicate IsRunStart(s: string, i: nat)
    requires i < |s|
  {
    IsDigit(s[i]) && (i == 0 || !IsDigit(s[i - 1]))
  }

  /** How many digit runs begin at or after `from`. */
  function CountRunStarts(s: string, from: nat): nat
    requires from <= |s|
    decreases |s| - from
  {
    if from == |s| then 0 else (if IsRunStart(s, from) then 1 else 0) + CountRunStarts(s, from + 1)
  }

  class Scanner {
    var source: string

    constructor (sourceText: string)
      ensures source == sourceText
    {
      source := sourceText;
    }

    /**
     * `tokenize`: take the matches of the digit-run pattern and wrap each
     * one, in order, as an INTEGER token. The method modifies nothing, so
     * the source is left as it was.
     */
    method Tokenize() returns (tokens: seq<Token>)
      ensures tokens == IntegerTokens(source)
    {
      var matches := FindDigitRuns(source);
      RunsFromSpans(source, 0);
      tokens := [];
      for k := 0 to |matches|
        invariant |tokens| == k
        invariant forall i :: 0 <= i < k ==> tokens[i] == Token(INTEGER, matches[i])
      {
        tokens := tokens + [Token(INTEGER, matches[k])];
      }
    }
  }

  // ---------------------------------------------------------------------------
  // Properties of the tokens

  /** Every token is an INTEGER whose value is a non-empty string of digits. */
  lemma AllIntegerDigits(s: string)
    ensures forall k :: 0 <= k < |IntegerTokens(s)| ==>
              var t := IntegerTokens(s)[k];
              t.kind == INTEGER && |t.value| > 0 && forall c :: c in t.value ==> IsDigit(c)
  {
    var sps := Spans(s, 0);
    forall k | 0 <= k < |IntegerTokens(s)|
      ensures var t := IntegerTokens(s)[k];
              t.kind == INTEGER && |t.value| > 0 && forall c :: c in t.value ==> IsDigit(c)
    {
      var v := s[sps[k].start..sps[k].end];
      forall c | c in v ensures IsDigit(c) {
        var i :| 0 <= i < |v| && v[i] == c;
        assert s[sps[k].start + i] == c;
      }
    }
  }

  /** Index i begins a run boundary: it is the start, or the character before it is no digit. */
  predicate NoDigitBefore(s: string, i: nat) {
    i == 0 || (i <= |s| && !IsDigit(s[i - 1]))
  }

  /** A span found from a run boundary starts a run: no digit just before it. */
  lemma {:induction false} SpansStartRuns(s: string, from: nat)
    requires from <= |s| && NoDigitBefore(s, from)
    ensures forall k :: 0 <= k < |Spans(s, from)| ==> NoDigitBefore(s, Spans(s, from)[k].start)
    decreases |s| - from
  {
    if from < |s| {
      if !IsDigit(s[from]) {
        SpansStartRuns(s, from + 1);
      } else {
        var e := RunEnd(s, from);
        var rest := Spans(s, e);
        if e < |s| {
          assert rest == Spans(s, e + 1);
          SpansStartRuns(s, e + 1);
        }
        StartsCons(s, Span(from, e), rest);
      }
    }
  }

  /** Putting a span that starts a run in front of spans that do keeps the property. */
  lemma StartsCons(s: string, sp: Span, rest: seq<Span>)
    requires NoDigitBefore(s, sp.start)
    requires forall k :: 0 <= k < |rest| ==> NoDigitBefore(s, rest[k].start)
    ensures forall k :: 0 <= k < |[sp] + rest| ==> NoDigitBefore(s, ([sp] + rest)[k].start)
  {
    assert forall k :: 0 < k < |[sp] + rest| ==> ([sp] + rest)[k] == rest[k - 1];
  }

  /**
   * Maximal runs: the i-th token is the text of the i-th span, and that
   * span is neither preceded nor followed by a digit in the source.
   */
  lemma MaximalRuns(s: string)
    ensures |IntegerTokens(s)| == |Spans(s, 0)|
    ensures forall k :: 0 <= k < |Spans(s, 0)| ==>
              var sp := Spans(s, 0)[k];
              && IntegerTokens(s)[k].value == s[sp.start..sp.end]
              && (sp.start == 0 || !IsDigit(s[sp.start - 1]))
              && (sp.end == |s| || !IsDigit(s[sp.end]))
  {
    SpansStartRuns(s, 0);
  }

  /** A run of digits contributes itself to the digits of the source. */
  lemma {:induction false} DigitsOfRun(s: string, i: nat, e: nat)
    requires i <= e <= |s|
    requires forall k :: i <= k < e ==> IsDigit(s[k])
    ensures Digits(s[i..]) == s[i..e] + Digits(s[e..])
    decreases e - i
  {
    if i < e {
      assert s[i..][1..] == s[i + 1..];
      DigitsOfRun(s, i + 1, e);
      assert s[i..e] == [s[i]] + s[i + 1..e];
    }
  }

  lemma {:induction false} ConcatSpans(s: string, from: nat)
    requires from <= |s|
    ensures Concat(TokensOf(s, Spans(s, from))) == Digits(s[from..])
    decreases |s| - from
  {
    if from < |s| {
      assert s[from..][1..] == s[from + 1..];
      if !IsDigit(s[from]) {
        ConcatSpans(s, from + 1);
      } else {
        var e := RunEnd(s, from);
        var rest := Spans(s, e);
        assert Spans(s, from)[1..] == rest;
        ConcatSpans(s, e);
        DigitsOfRun(s, from, e);
      }
    }
  }

  /**
   * Order and concatenation: the token values, read left to right, spell
   * the source with every non-digit deleted.
   */
  lemma ConcatIsDigits(s: string)
    ensures Concat(IntegerTokens(s)) == Digits(s)
  {
    ConcatSpans(s, 0);
    assert s[0..] == s;
  }

  lemma {:induction false} NoDigitsFrom(s: string, from: nat)
    requires from <= |s|
    requires forall i :: from <= i < |s| ==> !IsDigit(s[i])
    ensures Spans(s, from) == []
    ensures TokensOf(s, Spans(s, from)) == []
    decreases |s| - from
  {
    if from < |s| {
      NoDigitsFrom(s, from + 1);
    }
  }

  /** A source without digits yields no tokens. */
  lemma NoDigitsNoTokens(s: string)
    requires forall i :: 0 <= i < |s| ==> !IsDigit(s[i])
    ensures IntegerTokens(s) == []
  {
    NoDigitsFrom(s, 0);
  }

  /** Inside a run, after its first digit, no further run begins. */
  lemma {:induction false} NoStartInsideRun(s: string, i: nat, e: nat)
    requires 0 < i <= e <= |s|
    requires forall k :: i - 1 <= k < e ==> IsDigit(s[k])
    ensures CountRunStarts(s, i) == CountRunStarts(s, e)
    decreases e - i
  {
    if i < e {
      NoStartInsideRun(s, i + 1, e);
    }
  }

  lemma {:induction false} CountSpans(s: string, from: nat)
    requires from <= |s| && (from == 0 || !IsDigit(s[from - 1]))
    ensures |Spans(s, from)| == CountRunStarts(s, from)
    decreases |s| - from
  {
    if from < |s| {
      if !IsDigit(s[from]) {
        CountSpans(s, from + 1);
      } else {
        var e := RunEnd(s, from);
        NoStartInsideRun(s, from + 1, e);
        if e < |s| {
          assert Spans(s, e) == Spans(s, e + 1);
          CountSpans(s, e + 1);
        }
      }
    }
  }

  /** Count: there are exactly as many tokens as maximal digit runs. */
  lemma TokenCount(s: string)
    ensures |IntegerTokens(s)| == CountRunStarts(s, 0)
  {
    CountSpans(s, 0);
  }
}
