/**
 * The search query the browser builds from address-bar text: Python's
 * `str.split()` with no separator (the maximal runs of non-whitespace
 * characters) followed by `'+'.join(...)`.
 */
module Query {

  /** The characters Python's `str.split()` treats as whitespace (those for
      which `str.isspace()` holds). */
  predicate IsSpace(c: char)
  {
    var n := c as int;
    (0x09 <= n <= 0x0D) || (0x1C <= n <= 0x20) || n == 0x85 || n == 0xA0 ||
    n == 0x1680 || (0x2000 <= n <= 0x200A) || n == 0x2028 || n == 0x2029 ||
    n == 0x202F || n == 0x205F || n == 0x3000
  }

  predicate NoSpace(s: string)
  {
    forall i :: 0 <= i < |s| ==> !IsSpace(s[i])
  }

  predicate AllSpace(s: string)
  {
    forall i :: 0 <= i < |s| ==> IsSpace(s[i])
  }

  /** A token is what `str.split()` may return: non-empty and free of whitespace. */
  predicate IsToken(t: string)
  {
    t != [] && NoSpace(t)
  }

  predicate AllTokens(ts: seq<string>)
  {
    forall k :: 0 <= k < |ts| ==> IsToken(ts[k])
  }

  /** The characters of `s` that are not whitespace, in order. */
  function RemoveSpaces(s: string): string
  {
    if s == [] then []
    else if IsSpace(s[0]) then RemoveSpaces(s[1..])
    else [s[0]] + RemoveSpaces(s[1..])
  }

  /** The tokens laid end to end, with nothing between them. */
  function Concat(ts: seq<string>): string
  {
    if ts == [] then [] else ts[0] + Concat(ts[1..])
  }

  /** The word read so far, closed off as a list of zero or one token. */
  function Flush(word: string): seq<string>
  {
    if word == [] then [] else [word]
  }

  /** Splits `s`, where `word` is the part of a token already read before `s`. */
  function SplitFrom(s: string, word: string): seq<string>
    decreases |s|
  {
    if s == [] then Flush(word)
    else if IsSpace(s[0]) then Flush(word) + SplitFrom(s[1..], [])
    else SplitFrom(s[1..], word + [s[0]])
  }

  /** `s.split()`. */
  function Split(s: string): seq<string>
  {
    SplitFrom(s, [])
  }

  /** `'+'.join(ts)`. */
  function Join(ts: seq<string>): string
  {
    if ts == [] then []
    else if |ts| == 1 then ts[0]
    else ts[0] + "+" + Join(ts[1..])
  }

  /** `'+'.join(text.split())`, the query of a search URL. */
  function SearchQuery(text: string): string
  {
    Join(Split(text))
  }

  /** How two joined queries combine when the texts they come from are
      separated by whitespace: a `+` goes between them only when both are
      non-empty. */
  function Glue(x: string, y: string): string
  {
    if x == [] then y else if y == [] then x else x + "+" + y
  }

  // ---------------------------------------------------------------------
  // Split

  lemma {:induction false} SplitFromTokens(s: string, word: string)
    requires NoSpace(word)
    ensures AllTokens(SplitFrom(s, word))
    decreases |s|
  {
    if s == [] {
    } else if IsSpace(s[0]) {
      SplitFromTokens(s[1..], []);
    } else {
      SplitFromTokens(s[1..], word + [s[0]]);
    }
  }

  /** Every token `str.split()` returns is non-empty and contains no whitespace. */
  lemma SplitTokens(s: string)
    ensures AllTokens(Split(s))
  {
    SplitFromTokens(s, []);
  }

  lemma {:induction false} ConcatAppend(xs: seq<string>, ys: seq<string>)
    ensures Concat(xs + ys) == Concat(xs) + Concat(ys)
  {
    if xs == [] {
      assert xs + ys == ys;
    } else {
      assert (xs + ys)[1..] == xs[1..] + ys;
      ConcatAppend(xs[1..], ys);
    }
  }

  lemma {:induction false} SplitFromCharacters(s: string, word: string)
    ensures Concat(SplitFrom(s, word)) == word + RemoveSpaces(s)
    decreases |s|
  {
    if s == [] {
      assert Concat(Flush(word)) == word;
    } else if IsSpace(s[0]) {
      assert Concat(Flush(word)) == word;
      ConcatAppend(Flush(word), SplitFrom(s[1..], []));
      SplitFromCharacters(s[1..], []);
    } else {
      SplitFromCharacters(s[1..], word + [s[0]]);
    }
  }

  /** The tokens hold every non-whitespace character of the text, in order,
      and nothing else. */
  lemma SplitCharacters(s: string)
    ensures Concat(Split(s)) == RemoveSpaces(s)
  {
    SplitFromCharacters(s, []);
  }

  lemma {:induction false} SplitFromSeparator(a: string, c: char, b: string, word: string)
    requires IsSpace(c)
    ensures SplitFrom(a + [c] + b, word) == SplitFrom(a, word) + SplitFrom(b, [])
    decreases |a|
  {
    var s := a + [c] + b;
    if a == [] {
      assert s == [c] + b;
      assert s[1..] == b;
    } else {
      assert s[0] == a[0];
      assert s[1..] == a[1..] + [c] + b;
      if IsSpace(a[0]) {
        SplitFromSeparator(a[1..], c, b, []);
      } else {
        SplitFromSeparator(a[1..], c, b, word + [a[0]]);
      }
    }
  }

  /** A whitespace character always ends a token: splitting around it splits
      each side on its own. */
  lemma SplitAtSeparator(a: string, c: char, b: string)
    requires IsSpace(c)
    ensures Split(a + [c] + b) == Split(a) + Split(b)
  {
    SplitFromSeparator(a, c, b, []);
  }

  lemma {:induction false} SplitFromWord(s: string, word: string)
    requires NoSpace(s)
    ensures SplitFrom(s, word) == Flush(word + s)
    decreases |s|
  {
    if s == [] {
      assert word + s == word;
    } else {
      assert word + [s[0]] + s[1..] == word + s;
      SplitFromWord(s[1..], word + [s[0]]);
    }
  }

  /** Text without whitespace is a single token, or none when it is empty. */
  lemma SplitWord(s: string)
    requires NoSpace(s)
    ensures Split(s) == if s == [] then [] else [s]
  {
    SplitFromWord(s, []);
    assert [] + s == s;
  }

  lemma {:induction false} SplitFromBlank(s: string, word: string)
    requires AllSpace(s)
    ensures SplitFrom(s, word) == Flush(word)
    decreases |s|
  {
    if s != [] {
      SplitFromBlank(s[1..], []);
    }
  }

  /** Text made only of whitespace has no tokens. */
  lemma SplitBlank(s: string)
    requires AllSpace(s)
    ensures Split(s) == []
  {
    SplitFromBlank(s, []);
  }

  // ---------------------------------------------------------------------
  // Join

  lemma {:induction false} JoinEmpty(ts: seq<string>)
    requires AllTokens(ts)
    ensures Join(ts) == [] <==> ts == []
  {
  }

  /** Joining two lists of tokens is gluing their joins. */
  lemma {:induction false} JoinAppend(xs: seq<string>, ys: seq<string>)
    requires AllTokens(xs) && AllTokens(ys)
    ensures Join(xs + ys) == Glue(Join(xs), Join(ys))
  {
    JoinEmpty(ys);
    if xs == [] {
      assert xs + ys == ys;
    } else if |xs| == 1 {
      if ys == [] {
        assert xs + ys == xs;
      } else {
        assert (xs + ys)[1..] == ys;
      }
    } else {
      assert (xs + ys)[1..] == xs[1..] + ys;
      JoinAppend(xs[1..], ys);
      JoinEmpty(xs[1..]);
    }
  }

  lemma {:induction false} JoinNoSpace(ts: seq<string>)
    requires AllTokens(ts)
    ensures NoSpace(Join(ts))
  {
    if |ts| > 1 {
      JoinNoSpace(ts[1..]);
      var r := Join(ts[1..]);
      assert Join(ts) == ts[0] + "+" + r;
      forall i | 0 <= i < |Join(ts)|
        ensures !IsSpace(Join(ts)[i])
      {
        if i < |ts[0]| {
          assert Join(ts)[i] == ts[0][i];
        } else if i == |ts[0]| {
          assert Join(ts)[i] == '+';
        } else {
          assert Join(ts)[i] == r[i - |ts[0]| - 1];
        }
      }
    }
  }

  // ---------------------------------------------------------------------
  // The search query

  /** The query never contains whitespace. */
  lemma QueryNoSpace(text: string)
    ensures NoSpace(SearchQuery(text))
  {
    SplitTokens(text);
    JoinNoSpace(Split(text));
  }

  /** Text without whitespace passes through unchanged. */
  lemma QueryOfWord(text: string)
    requires NoSpace(text)
    ensures SearchQuery(text) == text
  {
    SplitWord(text);
  }

  /** Text made only of whitespace (the empty text included) gives the empty query. */
  lemma QueryOfBlank(text: string)
    requires AllSpace(text)
    ensures SearchQuery(text) == ""
  {
    SplitBlank(text);
  }

  /** Whitespace between two parts of the text becomes a single `+` between
      their queries, or nothing when either part has no token. */
  lemma QueryAtSeparator(a: string, c: char, b: string)
    requires IsSpace(c)
    ensures SearchQuery(a + [c] + b) == Glue(SearchQuery(a), SearchQuery(b))
  {
    SplitAtSeparator(a, c, b);
    SplitTokens(a);
    SplitTokens(b);
    JoinAppend(Split(a), Split(b));
  }
}
