/**
 * The address classifier and the navigation decision of the browser's
 * address bar: whether the submitted text is tried as a URL (after a
 * reachability probe) or turned into a DuckDuckGo search.
 */
module Address {
  import Query

  /** The search template; the joined query follows it. */
  const SearchTemplate: string := "https://www.duckduckgo.com/?q="

  /** The top-level-domain substrings that make text look like a URL. */
  const Domains: seq<string> := [".com", ".org", ".net", ".gov", ".edu"]

  /** `sub` occurs in `s` starting at index `i`. */
  predicate OccursAt(s: string, sub: string, i: int)
  {
    0 <= i && i + |sub| <= |s| && s[i..i + |sub|] == sub
  }

  /** Python's `sub in s`, read left to right. */
  function Contains(s: string, sub: string): bool
    decreases |s|
  {
    (sub <= s) || (s != [] && Contains(s[1..], sub))
  }

  /** `Contains` finds `sub` exactly when it occurs at some index. */
  lemma {:induction false} ContainsIff(s: string, sub: string)
    ensures Contains(s, sub) <==> exists i :: OccursAt(s, sub, i)
    decreases |s|
  {
    if sub <= s {
      assert OccursAt(s, sub, 0);
    } else if s != [] {
      ContainsIff(s[1..], sub);
      if Contains(s[1..], sub) {
        var i :| OccursAt(s[1..], sub, i);
        assert s[i + 1..i + 1 + |sub|] == s[1..][i..i + |sub|];
        assert OccursAt(s, sub, i + 1);
      }
      if exists i :: OccursAt(s, sub, i) {
        var i :| OccursAt(s, sub, i);
        assert i != 0;
        assert s[1..][i - 1..i - 1 + |sub|] == s[i..i + |sub|];
        assert OccursAt(s[1..], sub, i - 1);
      }
    }
  }

  /** `re.match(r'^(https?://)', text)`. */
  predicate HasScheme(text: string)
  {
    "http://" <= text || "https://" <= text
  }

  /** The address-bar text is tried as a URL: it starts with a scheme, or
      contains one of the domain substrings anywhere, or contains neither a
      space nor a newline (so the empty text and text with only tabs between
      words are tried as URLs too). */
  function LooksLikeUrl(text: string): (isUrl: bool)
    ensures isUrl <==>
      HasScheme(text) ||
      (exists d, i :: d in Domains && OccursAt(text, d, i)) ||
      (forall i :: 0 <= i < |text| ==> text[i] != ' ' && text[i] != '\n')
  {
    ContainsIff(text, Domains[0]);
    ContainsIff(text, Domains[1]);
    ContainsIff(text, Domains[2]);
    ContainsIff(text, Domains[3]);
    ContainsIff(text, Domains[4]);
    HasScheme(text) ||
    (exists d :: d in Domains && Contains(text, d)) ||
    !(' ' in text || '\n' in text)
  }

  /** The search URL for some text: the template followed by the `+`-join of
      the text's whitespace-separated tokens. */
  function SearchUrl(text: string): (url: string)
    ensures SearchTemplate <= url
    ensures Query.NoSpace(url)
    ensures Query.NoSpace(text) ==> url == SearchTemplate + text
    ensures Query.AllSpace(text) ==> url == SearchTemplate
  {
    Query.QueryNoSpace(text);
    if Query.NoSpace(text) then
      Query.QueryOfWord(text);
      SearchTemplate + Query.SearchQuery(text)
    else if Query.AllSpace(text) then
      Query.QueryOfBlank(text);
      SearchTemplate + Query.SearchQuery(text)
    else
      SearchTemplate + Query.SearchQuery(text)
  }

  /** What the reachability probe (an HTTP HEAD request on the raw text)
      reports: a status code, or a request exception. */
  datatype Probe = Status(code: int) | RequestError

  predicate Reachable(probe: Probe)
  {
    probe.Status? && probe.code == 200
  }

  /** The outcome of submitting the address bar: whether the probe was
      issued, and the URL the view is sent to. */
  datatype Navigation = Navigation(probed: bool, target: string)

  /** Submitting `text`, where `probe` is what the HEAD request on `text`
      reports if it is issued. */
  function Navigate(text: string, probe: Probe): (nav: Navigation)
    ensures nav.probed <==> LooksLikeUrl(text)
    ensures nav.probed && Reachable(probe) ==> nav.target == text
    ensures !nav.probed || !Reachable(probe) ==> nav.target == SearchUrl(text)
  {
    if LooksLikeUrl(text) then
      if Reachable(probe) then Navigation(true, text)
      else Navigation(true, SearchUrl(text))
    else Navigation(false, SearchUrl(text))
  }

  /** Text that is not tried as a URL goes to the search whatever a probe
      would have reported. */
  lemma ProbeIgnoredForSearchText(text: string, p: Probe, q: Probe)
    requires !LooksLikeUrl(text)
    ensures Navigate(text, p) == Navigate(text, q)
    ensures Navigate(text, p).target == SearchUrl(text)
  {
  }

  /** A search target never equals the text it came from (it is longer than
      whitespace-free text and has no whitespace otherwise), so the view
      lands on the raw text exactly after a successful probe. */
  lemma DirectOnlyWhenReachable(text: string, probe: Probe)
    ensures Navigate(text, probe).target == text <==> LooksLikeUrl(text) && Reachable(probe)
  {
  }

  /** Two words with one whitespace character between them are searched
      as the first word, `+`, the second word. */
  lemma TwoWordsSearchUrl(first: string, c: char, second: string)
    requires Query.IsToken(first) && Query.IsToken(second) && Query.IsSpace(c)
    ensures SearchUrl(first + [c] + second) == SearchTemplate + first + "+" + second
  {
    Query.QueryAtSeparator(first, c, second);
    Query.QueryOfWord(first);
    Query.QueryOfWord(second);
  }

  /** The loose fallback: a domain name, a bare word, text whose words are
      separated only by a tab, and the empty text are all tried as URLs. */
  lemma LooseFallback()
    ensures LooksLikeUrl("openai.com")
    ensures LooksLikeUrl("helloworld")
    ensures LooksLikeUrl("hello\tworld")
    ensures LooksLikeUrl("")
  {
  }
}
