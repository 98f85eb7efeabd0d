# A model of the python_browser address bar and ad-block toggle

This project models the decision logic of a small PyQt desktop browser
(`browser.py`) in Dafny. The browser is a window around an embedded web view.
It has a toolbar, an address bar that accepts URLs or search text, and an
"ad-blocking" switch. The switch does not filter content: it only sets the
page's JavaScript and local-storage capabilities and reloads.

The model has three modules:

- `Query` (`query.dfy`) models Python's `str.split()` with no argument and
  `'+'.join(...)`. Together they build the search query. Whitespace is
  Python's `str.isspace()` set, given as an explicit character predicate.
- `Address` (`address.dfy`) models the address classifier and the navigation
  decision. Text is tried as a URL when at least one of these holds:
  - it starts with `http://` or `https://`;
  - it contains `.com`, `.org`, `.net`, `.gov` or `.edu`;
  - it contains neither a space nor a newline.

  A URL candidate is probed with an HTTP HEAD request. The probe's outcome is
  a parameter (`Probe = Status(code) | RequestError`). Status 200 sends the
  view to the raw text. Any other outcome, and any text that is not a URL
  candidate, sends the view to `https://www.duckduckgo.com/?q=` followed by
  the joined query.
- `Browser` (`browser.dfy`) models the mutable state as three classes:
  - `AdBlockWebView` holds the flag, the two settings, a reload counter, the
    location and the displayed content;
  - `MainWindow` holds the address bar and the ad-block button icon;
  - `AdBlockSettingsDialog` holds its checkbox.

  Every event handler is a method whose `modifies` clause names exactly the
  fields the handler writes.

Three quirks of the code are kept as written:

- The "no whitespace" test looks only for `' '` and `'\n'`. The empty text
  and text with only tabs between words are therefore tried as URLs
  (`Address.LooseFallback`).
- The coupling of the flag to the settings is inverted. While ad-blocking is
  on, JavaScript is enabled and local storage is disabled.
- The dialog's handler ignores the checkbox state it receives. It calls the
  view's toggle directly, so the toolbar icon is not refreshed.

The window's constructor replaces the view's page
(`browser.setPage(ErrorPage())`) after the view has applied its settings. The
fresh page's settings are the engine's defaults, which the model takes as
parameters. So after start-up the settings need not follow the flag. Every
`UpdateAdBlocking` and every toggle makes them follow it again.
`Browser.ToggleTwice` therefore promises to restore the settings only when
they followed the flag beforehand.

## Model

| member | source | states |
|---|---|---|
| `Query.SplitTokens` | browser.py:159 | every token of `str.split()` is non-empty and contains no whitespace |
| `Query.SplitCharacters` | browser.py:159 | the tokens, laid end to end, are exactly the text's non-whitespace characters in order |
| `Query.SplitAtSeparator` | browser.py:159 | a whitespace character always ends a token: splitting `a + c + b` gives the tokens of `a` followed by those of `b` |
| `Query.SplitWord` | browser.py:159 | text without whitespace is one token, or no token when empty |
| `Query.SplitBlank` | browser.py:159 | all-whitespace text has no tokens |
| `Query.JoinAppend` | browser.py:159 | `'+'.join` of two token lists is the two joins with a `+` between them, or just one when the other list is empty |
| `Query.JoinNoSpace` | browser.py:159 | joining whitespace-free tokens with `+` gives whitespace-free text |
| `Query.QueryNoSpace` | browser.py:159 | the joined query never contains whitespace |
| `Query.QueryOfWord` | browser.py:159 | text with no whitespace passes through the query unchanged |
| `Query.QueryOfBlank` | browser.py:159 | all-whitespace text, the empty text included, yields the empty query |
| `Query.QueryAtSeparator` | browser.py:159 | each gap of whitespace between words becomes exactly one `+`; leading and trailing whitespace disappears |
| `Address.ContainsIff` | browser.py:142 | the substring test holds exactly when the substring occurs at some index |
| `Address.LooksLikeUrl` | browser.py:141-142 | text is a URL candidate iff it starts with `http://`/`https://`, or one of the five domain substrings occurs in it, or no character is `' '` or `'\n'` |
| `Address.SearchUrl` | browser.py:158-160 | the search URL starts with the DuckDuckGo template and has no whitespace; it is template + text for whitespace-free text, and the bare template for all-whitespace text |
| `Address.TwoWordsSearchUrl` | browser.py:158-160 | two words with one whitespace character between them give template + first + `+` + second |
| `Address.Navigate` | browser.py:137-156 | the probe is issued iff the text is a URL candidate; the target is the raw text when the probe reports 200, and otherwise the search URL of the same raw text |
| `Address.ProbeIgnoredForSearchText` | browser.py:154-156 | text that is not a URL candidate goes to its search URL, whatever a probe would report |
| `Address.DirectOnlyWhenReachable` | browser.py:142-153 | for any text, the view lands on the raw text iff the text is a URL candidate and the probe reported 200 |
| `Address.LooseFallback` | browser.py:141-142 | `openai.com`, `helloworld`, a tab-separated pair of words and the empty text are all URL candidates |
| `Browser.AdBlockWebView.constructor` | browser.py:20-25 | a new view starts with ad-blocking on and the settings applied: JavaScript on, local storage off, no reloads |
| `Browser.AdBlockWebView.UpdateAdBlocking` | browser.py:28-31 | afterwards JavaScript-enabled equals the flag and local-storage-enabled equals its negation; nothing else changes |
| `Browser.AdBlockWebView.ToggleAdBlocking` | browser.py:33-36 | flips the flag, leaves the settings following it and performs exactly one reload; location and content are untouched |
| `Browser.AdBlockWebView.Reload` | browser.py:36 | a reload adds one to the reload count and changes nothing else |
| `Browser.AdBlockWebView.SetUrl` | browser.py:135 | the view's location becomes the URL and it shows the page there |
| `Browser.AdBlockWebView.SetHtml` | browser.py:177 | the view displays the given markup; its location and settings are untouched |
| `Browser.AdBlockWebView.ReplacePage` | browser.py:71 | a fresh page brings its own default settings and leaves the flag as it was |
| `Browser.ToggleTwice` | browser.py:33-36 | toggling twice restores the flag, restores the settings when they followed the flag before, and adds two reloads |
| `Browser.MainWindow.constructor` | browser.py:64-113 | the window starts on the home page with an empty address bar, the flag on, the fresh page's default settings and the "enabled" icon |
| `Browser.MainWindow.ToggleAdBlocking` | browser.py:129-132 | the toolbar action performs the view's toggle and then shows the icon for the new flag |
| `Browser.MainWindow.NavigateHome` | browser.py:134-135 | the view's location becomes `http://duckduckgo.com`; the address bar is untouched |
| `Browser.MainWindow.NavigateToUrl` | browser.py:137-156 | the probe is issued with the bar text exactly when it is a URL candidate; the view goes to the target `Address.Navigate` decides; the bar is untouched |
| `Browser.MainWindow.SearchWithQuery` | browser.py:158-161 | the view goes to the search URL of the query |
| `Browser.MainWindow.UpdateUrl` | browser.py:163-164 | a location change overwrites the address bar with the location and touches nothing else |
| `Browser.MainWindow.OnLoadFinished` | browser.py:166-180 | a failed load shows the fixed error document and empties the address bar; a successful load changes nothing |
| `Browser.AdBlockSettingsDialog.constructor` | browser.py:46-51 | the dialog's checkbox starts in the state of the view's flag |
| `Browser.AdBlockSettingsDialog.ToggleAdBlocking` | browser.py:57-59 | whatever the checkbox state, the view's flag flips, the settings follow it and one reload happens; the toolbar icon is not refreshed |
| `Browser.SubmitAddress` | browser.py:72-105 | submitting, then the location change, then the load result: after a successful load the bar shows the decided target; after a failure it is empty and the error document is shown |

## Left out

- The network probe (`requests.head`, browser.py:145) is I/O. Its outcome is
  the `Probe` parameter. The model does not know that `requests` raises for
  text without a scheme; such text yields `RequestError` only when the caller
  chooses it. Redirect statuses are not followed: they are "not 200".
  The request blocks the event loop and has no time-out; the model treats
  its outcome as available at once, so a request that hangs has no `Probe`
  value.
- `QUrl` parsing and normalisation are not modelled. A location is the string
  the browser passed, and the bar shows the string the engine reports.
- The web engine's own reactions are not modelled. These include loading,
  firing `urlChanged` and `loadFinished`, and the location `setHtml` leaves
  behind. Each event is a separate handler call.
  `Browser.SubmitAddress` strings the handlers together in the order the
  engine delivers them.
- Back and forward navigation (browser.py:84-91) are calls into the engine
  with no logic of their own. The toolbar's reload button (browser.py:93-95)
  is the view's `Reload`.
- Certificate-error suppression and the console handler in `ErrorPage`
  (browser.py:10-17) are callbacks into the engine and are not modelled.
  Neither is the empty `on_page_load` handler (browser.py:38-42).
- The user-agent string (browser.py:23) is never read by the modelled logic.
- Widget construction is not modelled: icons, titles, layout, toolbar
  wiring, the dialog's modal loop (browser.py:124-126) and `QApplication`
  (browser.py:182-186). Only the state these steps set appears.
- Mouse clicks on the dialog's checkbox are not modelled. The handler is
  given the new state, and Qt's checkbox flips its own state before calling it.
- Browser.MainWindow.constructor: takes the fresh page's default settings as
  parameters instead of fixing the engine's actual defaults. Those defaults
  belong to the web engine.
