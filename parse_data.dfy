/** The text-to-sample tokeniser `parse_data`: separators `;` `,` tab and
    newline become spaces, the text is split on runs of whitespace as
    Python's `str.split()` does, and every token that `float()` accepts
    becomes an observation, in order; other tokens are skipped. */
module ParseData {
  import opened Results

  /** Python's `str.isspace`, the separators of `str.split()` with no argument. */
  predicate IsSpace(c: char)
  {
    || ('\t' <= c <= '\r')
    || ('\U{1C}' <= c <= '\U{1F}')
    || c == ' '
    || c == '\U{85}'
    || c == '\U{A0}'
    || c == '\U{1680}'
    || ('\U{2000}' <= c <= '\U{200A}')
    || c == '\U{2028}'
    || c == '\U{2029}'
    || c == '\U{202F}'
    || c == '\U{205F}'
    || c == '\U{3000}'
  }

  /** The characters the regular expression `[;,\t\n]` matches. */
  predicate IsSeparator(c: char)
  {
    c == ';' || c == ',' || c == '\t' || c == '\n'
  }

  function CleanChar(c: char): (r: char)
    ensures IsSeparator(c) ==> r == ' '
    ensures !IsSeparator(c) ==> r == c
  {
    if IsSeparator(c) then ' ' else c
  }

  /** `re.sub(r'[;,\t\n]', ' ', text)`. */
  function Clean(s: string): (r: string)
    ensures |r| == |s|
    ensures forall i :: 0 <= i < |s| ==> r[i] == CleanChar(s[i])
  {
    seq(|s|, i requires 0 <= i < |s| => CleanChar(s[i]))
  }

  /** A token of `str.split()`: non-empty and free of whitespace. */
  ghost predicate IsToken(t: string)
  {
    |t| > 0 && forall i :: 0 <= i < |t| ==> !IsSpace(t[i])
  }

  /** The length of the longest whitespace-free prefix of `s`. */
  function TokenEnd(s: string): (k: nat)
    ensures k <= |s|
    ensures forall i :: 0 <= i < k ==> !IsSpace(s[i])
    ensures k < |s| ==> IsSpace(s[k])
    decreases |s|
  {
    if |s| == 0 || IsSpace(s[0]) then 0 else 1 + TokenEnd(s[1..])
  }

  /** `s.split()`: the maximal runs of non-whitespace characters, in order. */
  function Split(s: string): (toks: seq<string>)
    ensures forall j :: 0 <= j < |toks| ==> IsToken(toks[j])
    decreases |s|
  {
    if |s| == 0 then []
    else if IsSpace(s[0]) then Split(s[1..])
    else
      var k := TokenEnd(s);
      [s[..k]] + Split(s[k..])
  }

  /** The tokens `float()` accepts, converted, in order. */
  function Numbers(toks: seq<string>, toFloat: string -> Option<real>): seq<real>
    decreases |toks|
  {
    if |toks| == 0 then []
    else
      var rest := Numbers(toks[..|toks| - 1], toFloat);
      match toFloat(toks[|toks| - 1])
      case Some(v) => rest + [v]
      case None => rest
  }

  /** What `parse_data` returns: nothing for an empty text or a text
      without a single number, otherwise the numbers it holds. */
  function Parsed(text: string, toFloat: string -> Option<real>): Option<seq<real>>
  {
    if |text| == 0 then None
    else
      var xs := Numbers(Split(Clean(text)), toFloat);
      if |xs| == 0 then None else Some(xs)
  }

  /** `parse_data`: the loop that appends every convertible token. The
      conversion `float(x)` is the parameter `toFloat`. */
  method ParseData(text: string, toFloat: string -> Option<real>) returns (r: Option<seq<real>>)
    ensures r == Parsed(text, toFloat)
    ensures |text| == 0 ==> r == None
    ensures r.Some? ==> |r.value| > 0
  {
    if |text| == 0 {
      return None;
    }
    var tokens := Split(Clean(text));
    var data: seq<real> := [];
    for i := 0 to |tokens|
      invariant data == Numbers(tokens[..i], toFloat)
    {
      assert tokens[..i + 1][..i] == tokens[..i];
      match toFloat(tokens[i]) {
        case Some(v) => data := data + [v];
        case None =>
      }
    }
    assert tokens[..|tokens|] == tokens;
    if |data| == 0 {
      return None;
    }
    return Some(data);
  }

  // ----- what Split computes -----

  /** `s` with all whitespace characters removed. */
  function NonSpace(s: string): string
    decreases |s|
  {
    if |s| == 0 then [] else (if IsSpace(s[0]) then [] else [s[0]]) + NonSpace(s[1..])
  }

  function Flatten(toks: seq<string>): string
    decreases |toks|
  {
    if |toks| == 0 then [] else toks[0] + Flatten(toks[1..])
  }

  lemma {:induction false} NonSpaceAppend(a: string, b: string)
    ensures NonSpace(a + b) == NonSpace(a) + NonSpace(b)
    decreases |a|
  {
    if |a| > 0 {
      assert (a + b)[1..] == a[1..] + b;
      NonSpaceAppend(a[1..], b);
    } else {
      assert a + b == b;
    }
  }

  lemma {:induction false} NonSpaceOfToken(t: string)
    requires forall i :: 0 <= i < |t| ==> !IsSpace(t[i])
    ensures NonSpace(t) == t
    decreases |t|
  {
    if |t| > 0 {
      NonSpaceOfToken(t[1..]);
    }
  }

  /** Splitting loses exactly the whitespace: the tokens put back together
      are the text without its whitespace characters. */
  lemma {:induction false} SplitKeepsAllButWhitespace(s: string)
    ensures Flatten(Split(s)) == NonSpace(s)
    decreases |s|
  {
    if |s| > 0 {
      if IsSpace(s[0]) {
        SplitKeepsAllButWhitespace(s[1..]);
      } else {
        var k := TokenEnd(s);
        assert s == s[..k] + s[k..];
        NonSpaceAppend(s[..k], s[k..]);
        NonSpaceOfToken(s[..k]);
        SplitKeepsAllButWhitespace(s[k..]);
        assert ([s[..k]] + Split(s[k..]))[1..] == Split(s[k..]);
      }
    }
  }

  // ----- a round trip: words between runs of separators -----

  /** The words with `gaps[k]` between word k and word k + 1. */
  function Join(toks: seq<string>, gaps: seq<string>): string
    requires |toks| > 0 && |gaps| == |toks| - 1
    decreases |toks|
  {
    if |toks| == 1 then toks[0]
    else toks[0] + gaps[0] + Join(toks[1..], gaps[1..])
  }

  /** What may stand between two numbers of the input: a non-empty run of
      separators and whitespace, such as ", ". */
  ghost predicate IsGap(g: string)
  {
    |g| > 0 && forall i :: 0 <= i < |g| ==> IsSeparator(g[i]) || IsSpace(g[i])
  }

  /** A non-empty run of whitespace. */
  ghost predicate IsBlank(g: string)
  {
    |g| > 0 && forall i :: 0 <= i < |g| ==> IsSpace(g[i])
  }

  lemma {:induction false} TokenEndOfToken(t: string, rest: string)
    requires forall i :: 0 <= i < |t| ==> !IsSpace(t[i])
    requires |rest| == 0 || IsSpace(rest[0])
    ensures TokenEnd(t + rest) == |t|
    decreases |t|
  {
    if |t| > 0 {
      assert (t + rest)[1..] == t[1..] + rest;
      TokenEndOfToken(t[1..], rest);
    } else {
      assert t + rest == rest;
    }
  }

  lemma SplitTokenThen(t: string, rest: string)
    requires IsToken(t)
    requires |rest| == 0 || IsSpace(rest[0])
    ensures Split(t + rest) == [t] + Split(rest)
  {
    TokenEndOfToken(t, rest);
    var s := t + rest;
    assert s[..|t|] == t;
    assert s[|t|..] == rest;
  }

  /** Leading whitespace yields no token. */
  lemma {:induction false} SplitSkipsBlank(g: string, rest: string)
    requires forall i :: 0 <= i < |g| ==> IsSpace(g[i])
    ensures Split(g + rest) == Split(rest)
    decreases |g|
  {
    if |g| > 0 {
      assert (g + rest)[1..] == g[1..] + rest;
      SplitSkipsBlank(g[1..], rest);
    } else {
      assert g + rest == rest;
    }
  }

  /** Splitting whitespace-free tokens joined by runs of whitespace gives
      back exactly those tokens. */
  lemma {:induction false} SplitJoin(toks: seq<string>, gaps: seq<string>)
    requires |toks| > 0 && |gaps| == |toks| - 1
    requires forall j :: 0 <= j < |toks| ==> IsToken(toks[j])
    requires forall k :: 0 <= k < |gaps| ==> IsBlank(gaps[k])
    ensures Split(Join(toks, gaps)) == toks
    decreases |toks|
  {
    if |toks| == 1 {
      SplitTokenThen(toks[0], []);
      assert toks[0] + [] == toks[0];
    } else {
      var rest := Join(toks[1..], gaps[1..]);
      assert toks[0] + gaps[0] + rest == toks[0] + (gaps[0] + rest);
      SplitTokenThen(toks[0], gaps[0] + rest);
      SplitSkipsBlank(gaps[0], rest);
      SplitJoin(toks[1..], gaps[1..]);
    }
  }

  /** A word of the input: a token holding neither `;` nor `,`. */
  ghost predicate IsWord(t: string)
  {
    IsToken(t) && forall i :: 0 <= i < |t| ==> t[i] != ';' && t[i] != ','
  }

  lemma CleanAppend(a: string, b: string)
    ensures Clean(a + b) == Clean(a) + Clean(b)
  {
  }

  /** Every gap, cleaned. */
  function CleanGaps(gaps: seq<string>): (r: seq<string>)
    ensures |r| == |gaps| && forall k :: 0 <= k < |gaps| ==> r[k] == Clean(gaps[k])
  {
    seq(|gaps|, k requires 0 <= k < |gaps| => Clean(gaps[k]))
  }

  /** Cleaning turns a gap into whitespace. */
  lemma CleanGap(g: string)
    requires IsGap(g)
    ensures IsBlank(Clean(g))
  {
  }

  /** Cleaning keeps the words and cleans every gap. */
  lemma {:induction false} CleanJoin(toks: seq<string>, gaps: seq<string>)
    requires |toks| > 0 && |gaps| == |toks| - 1
    requires forall j :: 0 <= j < |toks| ==> IsWord(toks[j])
    ensures Clean(Join(toks, gaps)) == Join(toks, CleanGaps(gaps))
    decreases |toks|
  {
    assert Clean(toks[0]) == toks[0];
    if |toks| > 1 {
      var rest := Join(toks[1..], gaps[1..]);
      CleanAppend(toks[0] + gaps[0], rest);
      CleanAppend(toks[0], gaps[0]);
      CleanJoin(toks[1..], gaps[1..]);
      assert CleanGaps(gaps)[1..] == CleanGaps(gaps[1..]);
    }
  }

  lemma {:induction false} NumbersAllConvert(toks: seq<string>, toFloat: string -> Option<real>)
    requires forall j :: 0 <= j < |toks| ==> toFloat(toks[j]).Some?
    ensures Numbers(toks, toFloat) == seq(|toks|, j requires 0 <= j < |toks| => toFloat(toks[j]).value)
    decreases |toks|
  {
    if |toks| > 0 {
      NumbersAllConvert(toks[..|toks| - 1], toFloat);
    }
  }

  /** Numbers written with runs of separators and whitespace between them
      are read back exactly, in order. */
  lemma ParseJoined(toks: seq<string>, gaps: seq<string>, toFloat: string -> Option<real>)
    requires |toks| > 0 && |gaps| == |toks| - 1
    requires forall j :: 0 <= j < |toks| ==> IsWord(toks[j])
    requires forall k :: 0 <= k < |gaps| ==> IsGap(gaps[k])
    requires forall j :: 0 <= j < |toks| ==> toFloat(toks[j]).Some?
    ensures Parsed(Join(toks, gaps), toFloat)
         == Some(seq(|toks|, j requires 0 <= j < |toks| => toFloat(toks[j]).value))
  {
    CleanJoin(toks, gaps);
    forall k | 0 <= k < |gaps| {
      CleanGap(gaps[k]);
    }
    SplitJoin(toks, CleanGaps(gaps));
    NumbersAllConvert(toks, toFloat);
    JoinNonEmpty(toks, gaps);
  }

  lemma JoinNonEmpty(toks: seq<string>, gaps: seq<string>)
    requires |toks| > 0 && |gaps| == |toks| - 1 && IsToken(toks[0])
    ensures |Join(toks, gaps)| > 0
  {
  }

  /** The default sample text "10, 12, 11, 14, 13" reads as five numbers. */
  lemma ParseDefaultSample(toFloat: string -> Option<real>)
    requires toFloat("10") == Some(10.0) && toFloat("12") == Some(12.0) && toFloat("11") == Some(11.0)
    requires toFloat("14") == Some(14.0) && toFloat("13") == Some(13.0)
    ensures Parsed("10, 12, 11, 14, 13", toFloat) == Some([10.0, 12.0, 11.0, 14.0, 13.0])
  {
    var toks := ["10", "12", "11", "14", "13"];
    var gaps := [", ", ", ", ", ", ", "];
    DefaultSampleJoined();
    DefaultSampleWords();
    ParseJoined(toks, gaps, toFloat);
    var xs := seq(|toks|, j requires 0 <= j < |toks| => toFloat(toks[j]).value);
    assert xs == [10.0, 12.0, 11.0, 14.0, 13.0];
  }

  lemma DefaultSampleJoined()
    ensures Join(["10", "12", "11", "14", "13"], [", ", ", ", ", ", ", "]) == "10, 12, 11, 14, 13"
  {
    var toks := ["10", "12", "11", "14", "13"];
    var gaps := [", ", ", ", ", ", ", "];
    assert Join(toks[4..], gaps[4..]) == "13";
    assert Join(toks[3..], gaps[3..]) == "14, 13";
    assert Join(toks[2..], gaps[2..]) == "11, 14, 13";
    assert Join(toks[1..], gaps[1..]) == "12, 11, 14, 13";
  }

  lemma DefaultSampleWords()
    ensures forall j :: 0 <= j < 5 ==> IsWord(["10", "12", "11", "14", "13"][j])
    ensures forall k :: 0 <= k < 4 ==> IsGap([", ", ", ", ", ", ", "][k])
  {
    var toks := ["10", "12", "11", "14", "13"];
    forall j | 0 <= j < |toks| ensures IsWord(toks[j]) {
      DigitsAreWord(toks[j]);
    }
    assert IsGap(", ") by {
      assert IsSeparator(", "[0]) && IsSpace(", "[1]);
    }
  }

  /** A run of decimal digits is a word. */
  lemma DigitsAreWord(t: string)
    requires |t| > 0 && forall i :: 0 <= i < |t| ==> '0' <= t[i] <= '9'
    ensures IsWord(t)
  {
  }

  /** A token `float()` rejects is skipped and the others keep their order. */
  lemma {:induction false} NumbersSkip(before: seq<string>, bad: string, after: seq<string>,
                                     toFloat: string -> Option<real>)
    requires toFloat(bad).None?
    ensures Numbers(before + [bad] + after, toFloat) == Numbers(before, toFloat) + Numbers(after, toFloat)
    decreases |after|
  {
    if |after| == 0 {
      assert before + [bad] + after == before + [bad];
      assert (before + [bad])[..|before|] == before;
    } else {
      var s := before + [bad] + after;
      var init := after[..|after| - 1];
      assert s[..|s| - 1] == before + [bad] + init;
      NumbersSkip(before, bad, init, toFloat);
    }
  }
}
