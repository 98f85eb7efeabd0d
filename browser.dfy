/**
 * The browser's mutable state and its event handlers: the web view with its
 * ad-blocking flag and the two capability settings it drives, the main
 * window's address bar, and the ad-blocking settings dialog.
 */
module Browser {
  import Address

  datatype Option<T> = None | Some(value: T)

  /** What the view displays: the page at its location, or markup set directly. */
  datatype Display = ShowsLocation | ShowsHtml(markup: string)

  /** The page the home action and start-up navigate to. */
  const HomeUrl: string := "http://duckduckgo.com"

  /** The static document shown when a page fails to load. */
  const ErrorDocument: string :=
    "\n" +
    "                <html>\n" +
    "                <body>\n" +
    "                <h1>Error Loading Page</h1>\n" +
    "                <p>The requested URL could not be loaded. Please check your internet connection.</p>\n" +
    "                </body>\n" +
    "                </html>\n" +
    "            "

  /** The state a checkbox reports when it changes. */
  datatype CheckState = Unchecked | PartiallyChecked | Checked

  /** The embedded web view. Its navigation (location, displayed markup,
      reloads) belongs to the web engine; the model keeps only what the
      browser sets. */
  class AdBlockWebView {
    var adBlock: bool
    var jsEnabled: bool
    var localStorageEnabled: bool
    var reloadCount: nat
    var location: string
    var content: Display

    /** The coupling the ad-blocking flag imposes on the page settings:
        JavaScript is enabled while ad-blocking is on, and local storage
        is enabled while it is off. */
    predicate SettingsFollowFlag()
      reads this
    {
      jsEnabled == adBlock && localStorageEnabled == !adBlock
    }

    /** A new view: ad-blocking starts on and the settings are applied. */
    constructor ()
      ensures adBlock && SettingsFollowFlag()
      ensures jsEnabled && !localStorageEnabled
      ensures reloadCount == 0 && location == "" && content == ShowsLocation
    {
      adBlock := true;
      reloadCount := 0;
      location := "";
      content := ShowsLocation;
      new;
      UpdateAdBlocking();
    }

    /** Applies the flag to the two page settings. */
    method UpdateAdBlocking()
      modifies this`jsEnabled, this`localStorageEnabled
      ensures SettingsFollowFlag()
    {
      jsEnabled := adBlock;
      localStorageEnabled := !adBlock;
    }

    /** Flips the flag, re-applies the settings and reloads once. */
    method ToggleAdBlocking()
      modifies this`adBlock, this`jsEnabled, this`localStorageEnabled, this`reloadCount
      ensures adBlock == !old(adBlock)
      ensures SettingsFollowFlag()
      ensures reloadCount == old(reloadCount) + 1
    {
      adBlock := !adBlock;
      UpdateAdBlocking();
      Reload();
    }

    /** Reloads the current page. */
    method Reload()
      modifies this`reloadCount
      ensures reloadCount == old(reloadCount) + 1
    {
      reloadCount := reloadCount + 1;
    }

    /** Starts loading `url`; the view then shows the page there. */
    method SetUrl(url: string)
      modifies this`location, this`content
      ensures location == url && content == ShowsLocation
    {
      location := url;
      content := ShowsLocation;
    }

    /** Displays `markup` in place of the current page. */
    method SetHtml(markup: string)
      modifies this`content
      ensures content == ShowsHtml(markup)
    {
      content := ShowsHtml(markup);
    }

    /** Installs a fresh page, whose settings are the engine's defaults
        `pageJs` and `pageStorage`, whatever the flag says. */
    method ReplacePage(pageJs: bool, pageStorage: bool)
      modifies this`jsEnabled, this`localStorageEnabled
      ensures jsEnabled == pageJs && localStorageEnabled == pageStorage
    {
      jsEnabled := pageJs;
      localStorageEnabled := pageStorage;
    }
  }

  /** Toggling twice restores the flag, leaves the settings coupled to it
      (so restores them when they were coupled before) and reloads twice. */
  method ToggleTwice(view: AdBlockWebView)
    modifies view`adBlock, view`jsEnabled, view`localStorageEnabled, view`reloadCount
    ensures view.adBlock == old(view.adBlock)
    ensures view.SettingsFollowFlag()
    ensures old(view.SettingsFollowFlag()) ==>
      view.jsEnabled == old(view.jsEnabled) && view.localStorageEnabled == old(view.localStorageEnabled)
    ensures view.reloadCount == old(view.reloadCount) + 2
  {
    view.ToggleAdBlocking();
    view.ToggleAdBlocking();
  }

  /** The main window: the view, the address bar and the ad-block button. */
  class MainWindow {
    const browser: AdBlockWebView
    var urlBar: string
    /** The ad-block button shows the "enabled" icon. */
    var iconShowsEnabled: bool

    /** Builds the window: a new view, then a fresh page replacing the one
        the view's settings were applied to (its default settings are
        `pageJs` and `pageStorage`), then the home page; the address bar
        starts empty and the icon follows the flag. */
    constructor (pageJs: bool, pageStorage: bool)
      ensures fresh(browser)
      ensures browser.adBlock && browser.reloadCount == 0
      ensures browser.jsEnabled == pageJs && browser.localStorageEnabled == pageStorage
      ensures browser.location == HomeUrl && browser.content == ShowsLocation
      ensures urlBar == "" && iconShowsEnabled
    {
      var view := new AdBlockWebView();
      browser := view;
      urlBar := "";
      new;
      browser.ReplacePage(pageJs, pageStorage);
      NavigateHome();
      iconShowsEnabled := browser.adBlock;
    }

    /** The toolbar's ad-block button: toggles the view and refreshes the icon. */
    method ToggleAdBlocking()
      modifies browser`adBlock, browser`jsEnabled, browser`localStorageEnabled, browser`reloadCount
      modifies this`iconShowsEnabled
      ensures browser.adBlock == !old(browser.adBlock)
      ensures browser.SettingsFollowFlag()
      ensures browser.reloadCount == old(browser.reloadCount) + 1
      ensures iconShowsEnabled == browser.adBlock
    {
      browser.ToggleAdBlocking();
      iconShowsEnabled := browser.adBlock;
    }

    /** The home action. */
    method NavigateHome()
      modifies browser`location, browser`content
      ensures browser.location == HomeUrl && browser.content == ShowsLocation
    {
      browser.SetUrl(HomeUrl);
    }

    /** Submitting the address bar. `probe` is what the HEAD request on the
        bar text reports; `probed` is the text the request is issued with,
        if it is issued at all. */
    method NavigateToUrl(probe: Address.Probe) returns (probed: Option<string>)
      modifies browser`location, browser`content
      ensures probed == if Address.LooksLikeUrl(urlBar) then Some(urlBar) else None
      ensures browser.location == Address.Navigate(urlBar, probe).target
      ensures browser.content == ShowsLocation
    {
      var url := urlBar;
      if Address.LooksLikeUrl(url) {
        probed := Some(url);
        if probe.Status? && probe.code == 200 {
          browser.SetUrl(url);
        } else {
          SearchWithQuery(url);
        }
      } else {
        probed := None;
        SearchWithQuery(url);
      }
    }

    /** Sends the view to the search URL for `query`. */
    method SearchWithQuery(query: string)
      modifies browser`location, browser`content
      ensures browser.location == Address.SearchUrl(query)
      ensures browser.content == ShowsLocation
    {
      browser.SetUrl(Address.SearchUrl(query));
    }

    /** The view's location changed to `location`: the bar shows it. */
    method UpdateUrl(location: string)
      modifies this`urlBar
      ensures urlBar == location
    {
      urlBar := location;
    }

    /** A load finished: on failure the error document replaces the page
        and the bar is cleared; on success nothing changes. */
    method OnLoadFinished(success: bool)
      modifies this`urlBar, browser`content
      ensures !success ==> browser.content == ShowsHtml(ErrorDocument) && urlBar == ""
      ensures success ==> browser.content == old(browser.content) && urlBar == old(urlBar)
    {
      if !success {
        browser.SetHtml(ErrorDocument);
        urlBar := "";
      }
    }
  }

  /** The ad-blocking settings dialog, opened over the main window. */
  class AdBlockSettingsDialog {
    const parent: MainWindow
    var checkboxChecked: bool

    /** The checkbox starts in the state of the view's flag. */
    constructor (parent: MainWindow)
      ensures this.parent == parent
      ensures checkboxChecked == parent.browser.adBlock
    {
      this.parent := parent;
      checkboxChecked := parent.browser.adBlock;
    }

    /** The checkbox changed to `state`. The state is read but not used: the
        view's flag is toggled whatever it is, and the toolbar icon is not
        refreshed. */
    method ToggleAdBlocking(state: CheckState)
      modifies parent.browser`adBlock, parent.browser`jsEnabled
      modifies parent.browser`localStorageEnabled, parent.browser`reloadCount
      ensures parent.browser.adBlock == !old(parent.browser.adBlock)
      ensures parent.browser.SettingsFollowFlag()
      ensures parent.browser.reloadCount == old(parent.browser.reloadCount) + 1
      ensures parent.iconShowsEnabled == old(parent.iconShowsEnabled)
    {
      var enabled := state == Checked;
      parent.browser.ToggleAdBlocking();
    }
  }

  /** One submission as the event loop delivers it: the address bar is
      submitted, the engine reports the new location, then reports whether
      the load succeeded. After a successful load the bar shows where the
      decision sent the view; after a failed one it is empty and the error
      document is shown. */
  method SubmitAddress(window: MainWindow, probe: Address.Probe, loaded: bool)
    modifies window`urlBar, window.browser`location, window.browser`content
    ensures window.browser.location == Address.Navigate(old(window.urlBar), probe).target
    ensures loaded ==> window.urlBar == window.browser.location && window.browser.content == ShowsLocation
    ensures !loaded ==> window.urlBar == "" && window.browser.content == ShowsHtml(ErrorDocument)
  {
    var _ := window.NavigateToUrl(probe);
    window.UpdateUrl(window.browser.location);
    window.OnLoadFinished(loaded);
  }
}
