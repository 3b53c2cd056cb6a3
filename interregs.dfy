/** The Interregs.net client (utils/interregs_utils.py): logging in by trying
    several endpoints, searching the regulation database and assembling up to
    five result entries into the three parallel lists, resolving entry links,
    and cleaning up the whitespace of a regulation document's text. The HTTP
    session is the `Site` oracle; the HTML parsing is abstracted into the
    entries, login form fields and document texts it yields. */
module Interregs {
  import opened Wrappers
  import opened PyText
  import opened Config
  import opened Sources

  /** An HTTP exchange: the request raised, or a status code and body text */
  datatype HttpResponse = HttpRaised | HttpReply(status: int, text: string)

  /** One search-result entry as the parser sees it: the text of its first
      heading/link/strong element, the `href` of its first link and the text of
      its summary element, each when present. */
  datatype Entry = Entry(title: Option<string>, link: Option<string>, summary: Option<string>)

  /** The search page: the request raised (or its status was an error), or the
      final URL and the entries found */
  datatype SearchResult = SearchRaised | SearchPage(url: string, entries: seq<Entry>)

  /** The remote site, as the client observes it */
  datatype Site = Site(
    get: string -> HttpResponse,
    /** the hidden (name, value) fields of the login form on the main page, or
        `None` when the page has no login form */
    loginForm: Option<seq<(string, string)>>,
    post: (string, map<string, string>) -> HttpResponse,
    search: map<string, string> -> SearchResult,
    /** the text of a document's content element, or `None` when fetching it
        raised or it has no content element or body */
    documentText: string -> Option<string>,
    /** the text of a page's first h1/h2/title element */
    pageTitle: string -> Option<string>)

  // ---------------------------------------------------------------------------
  // Login

  const LoginEndpoints: seq<string> := [
    InterregsBaseUrl + "/login.php",
    InterregsBaseUrl + "/db/login.php",
    InterregsBaseUrl + "/auth/login.php",
    InterregsBaseUrl + "/user/login.php"
  ]

  const SuccessIndicators: seq<string> := ["welcome", "dashboard", "logout", "profile"]

  /** The credentials under every field name the login forms might use */
  function BaseLoginData(email: string, password: string): map<string, string> {
    map["email" := email, "password" := password, "username" := email,
        "login_email" := email, "login_password" := password]
  }

  /** The form data posted: the credentials, then each hidden field that has a
      name, later fields overwriting earlier ones */
  function LoginData(email: string, password: string, hidden: seq<(string, string)>): map<string, string>
    decreases |hidden|
  {
    if hidden == [] then BaseLoginData(email, password)
    else
      var m := LoginData(email, password, hidden[..|hidden| - 1]);
      var (name, value) := hidden[|hidden| - 1];
      if name != "" then m[name := value] else m
  }

  /** The `login_data` loop */
  method BuildLoginData(email: string, password: string, hidden: seq<(string, string)>) returns (data: map<string, string>)
    ensures data == LoginData(email, password, hidden)
  {
    data := BaseLoginData(email, password);
    for i := 0 to |hidden|
      invariant data == LoginData(email, password, hidden[..i])
    {
      assert hidden[..i + 1][..i] == hidden[..i];
      if hidden[i].0 != "" {
        data := data[hidden[i].0 := hidden[i].1];
      }
    }
    assert hidden[..|hidden|] == hidden;
  }

  /** A named hidden field carries the value of its last occurrence; a name no
      hidden field uses keeps its credential (or stays absent). */
  lemma LoginDataFields(email: string, password: string, hidden: seq<(string, string)>)
    ensures forall i :: 0 <= i < |hidden| && hidden[i].0 != "" && (forall j :: i < j < |hidden| ==> hidden[j].0 != hidden[i].0) ==>
              hidden[i].0 in LoginData(email, password, hidden) && LoginData(email, password, hidden)[hidden[i].0] == hidden[i].1
    ensures forall n :: (forall j :: 0 <= j < |hidden| ==> hidden[j].0 != n) ==>
              (n in LoginData(email, password, hidden) <==> n in BaseLoginData(email, password))
              && (n in BaseLoginData(email, password) ==> LoginData(email, password, hidden)[n] == BaseLoginData(email, password)[n])
  {
    forall i | 0 <= i < |hidden| && hidden[i].0 != "" && (forall j :: i < j < |hidden| ==> hidden[j].0 != hidden[i].0)
      ensures hidden[i].0 in LoginData(email, password, hidden) && LoginData(email, password, hidden)[hidden[i].0] == hidden[i].1
    {
      LastOccurrenceWins(email, password, hidden, i);
    }
    forall n | forall j :: 0 <= j < |hidden| ==> hidden[j].0 != n
      ensures n in LoginData(email, password, hidden) <==> n in BaseLoginData(email, password)
      ensures n in BaseLoginData(email, password) ==> LoginData(email, password, hidden)[n] == BaseLoginData(email, password)[n]
    {
      UntouchedField(email, password, hidden, n);
    }
  }

  lemma {:induction false} LastOccurrenceWins(email: string, password: string, hidden: seq<(string, string)>, i: nat)
    requires i < |hidden| && hidden[i].0 != ""
    requires forall j :: i < j < |hidden| ==> hidden[j].0 != hidden[i].0
    ensures hidden[i].0 in LoginData(email, password, hidden) && LoginData(email, password, hidden)[hidden[i].0] == hidden[i].1
    decreases |hidden|
  {
    var init := hidden[..|hidden| - 1];
    if i < |hidden| - 1 {
      assert init[i] == hidden[i];
      forall j | i < j < |init|
        ensures init[j].0 != init[i].0
      {
        assert init[j] == hidden[j];
      }
      LastOccurrenceWins(email, password, init, i);
    }
  }

  lemma {:induction false} UntouchedField(email: string, password: string, hidden: seq<(string, string)>, n: string)
    requires forall j :: 0 <= j < |hidden| ==> hidden[j].0 != n
    ensures n in LoginData(email, password, hidden) <==> n in BaseLoginData(email, password)
    ensures n in BaseLoginData(email, password) ==> LoginData(email, password, hidden)[n] == BaseLoginData(email, password)[n]
    decreases |hidden|
  {
    if hidden != [] {
      var init := hidden[..|hidden| - 1];
      forall j | 0 <= j < |init|
        ensures init[j].0 != n
      {
        assert init[j] == hidden[j];
      }
      UntouchedField(email, password, init, n);
    }
  }

  /** A login response counts as success when its status is 200 and its
      lower-cased text shows a success indicator, or shows neither "error" nor
      "invalid". */
  predicate Accepted(r: HttpResponse) {
    && r.HttpReply? && r.status == 200
    && var t := Lower(r.text);
       || (exists k :: 0 <= k < |SuccessIndicators| && Contains(t, SuccessIndicators[k]))
       || (!Contains(t, "error") && !Contains(t, "invalid"))
  }

  /** Whether `login` returns True */
  predicate LoginSucceeds(site: Site, email: string, password: string) {
    var main := site.get(InterregsBaseUrl + "/db/index.php");
    if main.HttpRaised? || main.status != 200 then false
    else if Contains(Lower(main.text), "welcome") || Contains(Lower(main.text), "dashboard") then true
    else if site.loginForm.None? then
      var db := site.get(InterregsBaseUrl + "/db/search.php");
      db.HttpReply? && db.status == 200
    else
      var data := LoginData(email, password, site.loginForm.value);
      exists k :: 0 <= k < |LoginEndpoints| && Accepted(site.post(LoginEndpoints[k], data))
  }

  /** Login succeeds through the form only when some endpoint answers 200; a
      200 answer fails only when it mentions "error" or "invalid" and no
      success indicator. */
  lemma LoginNeedsAnAcceptedEndpoint(site: Site, email: string, password: string)
    requires site.loginForm.Some?
    requires var main := site.get(InterregsBaseUrl + "/db/index.php");
             main.HttpReply? && main.status == 200 && !Contains(Lower(main.text), "welcome") && !Contains(Lower(main.text), "dashboard")
    ensures LoginSucceeds(site, email, password) <==>
              exists k :: 0 <= k < |LoginEndpoints| &&
                var r := site.post(LoginEndpoints[k], LoginData(email, password, site.loginForm.value));
                && r.HttpReply? && r.status == 200
                && ((exists i :: 0 <= i < |SuccessIndicators| && Contains(Lower(r.text), SuccessIndicators[i]))
                    || (!Contains(Lower(r.text), "error") && !Contains(Lower(r.text), "invalid")))
  {
  }

  // ---------------------------------------------------------------------------
  // Document text clean-up

  /** Length of the longest prefix of `s` made of whitespace */
  function SpaceRun(s: string): (n: nat)
    ensures n <= |s|
    ensures forall i :: 0 <= i < n ==> IsSpace(s[i])
    ensures n < |s| ==> !IsSpace(s[n])
  {
    if s == [] || !IsSpace(s[0]) then 0 else 1 + SpaceRun(s[1..])
  }

  /** Position of the last newline of `s`, or -1 */
  function LastNewline(s: string): (p: int)
    ensures -1 <= p < |s|
    ensures p >= 0 ==> s[p] == '\n'
    ensures forall i :: p < i < |s| ==> s[i] != '\n'
  {
    if s == [] then -1
    else if s[|s| - 1] == '\n' then |s| - 1
    else LastNewline(s[..|s| - 1])
  }

  /** `re.sub(r'\n\s*\n', '\n\n', s)`: a newline, then the longest run of
      whitespace up to its last newline, becomes one blank line. */
  function CollapseBlankLines(s: string): string
    decreases |s|
  {
    if s == [] then []
    else if BlankLineEnd(s) > 0 then "\n\n" + CollapseBlankLines(s[BlankLineEnd(s)..])
    else [s[0]] + CollapseBlankLines(s[1..])
  }

  /** Where a blank line that starts `s` ends (after the last newline of the
      whitespace that follows the first one), or 0 when `s` does not start with
      one */
  function BlankLineEnd(s: string): (e: nat)
    requires s != []
    ensures e == 0 || 2 <= e <= |s|
  {
    var l := LastNewline(s[1..1 + SpaceRun(s[1..])]);
    if s[0] == '\n' && l >= 0 then l + 2 else 0
  }

  /** `re.sub(r' +', ' ', s)` */
  function CollapseSpaces(s: string): string
    decreases |s|
  {
    if s == [] then []
    else if s[0] == ' ' then " " + CollapseSpaces(s[SpacesPrefix(s)..])
    else [s[0]] + CollapseSpaces(s[1..])
  }

  /** Length of the run of `' '` that starts `s` */
  function SpacesPrefix(s: string): (n: nat)
    ensures n <= |s|
    ensures forall i :: 0 <= i < n ==> s[i] == ' '
    ensures n < |s| ==> s[n] != ' '
  {
    if s == [] || s[0] != ' ' then 0 else 1 + SpacesPrefix(s[1..])
  }

  /** The clean-up of `_get_regulation_content` */
  function CleanText(raw: string): string {
    CollapseSpaces(CollapseBlankLines(raw))
  }

  /** The characters of `s` that are not whitespace, in order */
  function Visible(s: string): string
    decreases |s|
  {
    if s == [] then [] else (if IsSpace(s[0]) then [] else [s[0]]) + Visible(s[1..])
  }

  lemma {:induction false} VisibleOfSpaces(s: string, n: nat)
    requires n <= |s| && forall i :: 0 <= i < n ==> IsSpace(s[i])
    ensures Visible(s) == Visible(s[n..])
    decreases n
  {
    if n > 0 {
      VisibleOfSpaces(s[1..], n - 1);
      assert s[1..][n - 1..] == s[n..];
    }
  }

  /** Collapsing blank lines only changes whitespace. */
  lemma {:induction false} CollapseBlankLinesVisible(s: string)
    ensures Visible(CollapseBlankLines(s)) == Visible(s)
    decreases |s|
  {
    if s != [] {
      var e := BlankLineEnd(s);
      if e > 0 {
        CollapseBlankLinesVisible(s[e..]);
        BlankLineStep(s);
      } else {
        CollapseBlankLinesVisible(s[1..]);
        OtherCharStep(s);
      }
    }
  }

  /** A collapsed blank line keeps the visible characters of what follows it */
  lemma BlankLineStep(s: string)
    requires s != [] && BlankLineEnd(s) > 0
    requires Visible(CollapseBlankLines(s[BlankLineEnd(s)..])) == Visible(s[BlankLineEnd(s)..])
    ensures Visible(CollapseBlankLines(s)) == Visible(s)
  {
    var rest := CollapseBlankLines(s[BlankLineEnd(s)..]);
    VisibleAfterBlankLine(s);
    VisibleOfBlankLine(rest);
  }

  lemma VisibleAfterBlankLine(s: string)
    requires s != []
    ensures Visible(s) == Visible(s[BlankLineEnd(s)..])
  {
    BlankLineRun(s);
    VisibleOfSpaces(s, BlankLineEnd(s));
  }

  lemma VisibleOfBlankLine(rest: string)
    ensures Visible("\n\n" + rest) == Visible(rest)
  {
    assert "\n\n" + rest == ['\n'] + (['\n'] + rest);
    VisibleCons('\n', ['\n'] + rest);
    VisibleCons('\n', rest);
  }

  /** Any other character is copied */
  lemma OtherCharStep(s: string)
    requires s != [] && BlankLineEnd(s) == 0
    requires Visible(CollapseBlankLines(s[1..])) == Visible(s[1..])
    ensures Visible(CollapseBlankLines(s)) == Visible(s)
  {
    VisibleCons(s[0], CollapseBlankLines(s[1..]));
    VisibleCons(s[0], s[1..]);
    assert s == [s[0]] + s[1..];
  }

  lemma VisibleCons(c: char, t: string)
    ensures Visible([c] + t) == (if IsSpace(c) then [] else [c]) + Visible(t)
  {
    assert ([c] + t)[1..] == t;
  }

  /** A blank line is all whitespace. */
  lemma BlankLineRun(s: string)
    requires s != []
    ensures forall i :: 0 <= i < BlankLineEnd(s) ==> IsSpace(s[i])
  {
    var l := LastNewline(s[1..1 + SpaceRun(s[1..])]);
    if BlankLineEnd(s) > 0 {
      forall i | 0 <= i < l + 2
        ensures IsSpace(s[i])
      {
        if i > 0 {
          assert s[1..][i - 1] == s[i];
        }
      }
    }
  }

  /** No two spaces in a row */
  predicate SingleSpaced(s: string) {
    forall i :: 0 <= i < |s| - 1 && s[i] == ' ' ==> s[i + 1] != ' '
  }

  /** Collapsing spaces only changes whitespace, leaves no two spaces in a row,
      and keeps a string's first character. */
  lemma CollapseSpacesProperties(s: string)
    ensures Visible(CollapseSpaces(s)) == Visible(s)
    ensures SingleSpaced(CollapseSpaces(s))
    ensures s != [] ==> CollapseSpaces(s) != [] && CollapseSpaces(s)[0] == s[0]
  {
    CollapseSpacesVisible(s);
    CollapseSpacesSingle(s);
  }

  lemma {:induction false} CollapseSpacesVisible(s: string)
    ensures Visible(CollapseSpaces(s)) == Visible(s)
    decreases |s|
  {
    if s != [] {
      if s[0] == ' ' {
        var n := SpacesPrefix(s);
        CollapseSpacesVisible(s[n..]);
        VisibleOfSpaces(s, n);
        VisibleCons(' ', CollapseSpaces(s[n..]));
      } else {
        CollapseSpacesVisible(s[1..]);
        VisibleCons(s[0], CollapseSpaces(s[1..]));
        VisibleCons(s[0], s[1..]);
        assert s == [s[0]] + s[1..];
      }
    }
  }

  lemma {:induction false} CollapseSpacesSingle(s: string)
    ensures SingleSpaced(CollapseSpaces(s))
    decreases |s|
  {
    if s != [] {
      var r := CollapseSpaces(s);
      if s[0] == ' ' {
        var rest := s[SpacesPrefix(s)..];
        CollapseSpacesSingle(rest);
        assert r[1..] == CollapseSpaces(rest);
        assert rest != [] ==> rest[0] != ' ' && CollapseSpaces(rest)[0] == rest[0];
      } else {
        CollapseSpacesSingle(s[1..]);
        assert r[1..] == CollapseSpaces(s[1..]);
      }
    }
  }

  /** A single-spaced text is left as it is, so collapsing spaces is
      idempotent. */
  lemma {:induction false} CollapseSpacesIdentity(s: string)
    requires SingleSpaced(s)
    ensures CollapseSpaces(s) == s
    decreases |s|
  {
    if s != [] {
      assert SingleSpaced(s[1..]);
      if s[0] == ' ' {
        assert SpacesPrefix(s) == 1;
      }
      CollapseSpacesIdentity(s[1..]);
      assert s == [s[0]] + s[1..];
    }
  }

  lemma CollapseSpacesIdempotent(s: string)
    ensures CollapseSpaces(CollapseSpaces(s)) == CollapseSpaces(s)
  {
    CollapseSpacesProperties(s);
    CollapseSpacesIdentity(CollapseSpaces(s));
  }

  /** The clean-up keeps every visible character, in order, and leaves no two
      spaces in a row. */
  lemma CleanTextProperties(raw: string)
    ensures Visible(CleanText(raw)) == Visible(raw)
    ensures SingleSpaced(CleanText(raw))
  {
    CollapseBlankLinesVisible(raw);
    CollapseSpacesProperties(CollapseBlankLines(raw));
  }

  /** `_get_regulation_content`: `""` on any error */
  function DocumentContent(site: Site, url: string): string {
    match site.documentText(url)
    case None => ""
    case Some(raw) => CleanText(raw)
  }

  // ---------------------------------------------------------------------------
  // Search

  /** An entry's link made absolute against the site's base URL */
  function ResolveLink(base: string, href: string): string {
    if StartsWith(href, "http") then href
    else if StartsWith(href, "/") then base + href
    else base + "/db/" + href
  }

  /** Absolute links are kept; every other link lands under the base URL. */
  lemma ResolveLinkUnderBase(base: string, href: string)
    ensures StartsWith(href, "http") ==> ResolveLink(base, href) == href
    ensures !StartsWith(href, "http") ==> StartsWith(ResolveLink(base, href), base)
    ensures !StartsWith(href, "http") && StartsWith(href, "/") ==> ResolveLink(base, href) == base + href
    ensures !StartsWith(href, "http") && !StartsWith(href, "/") ==> ResolveLink(base, href) == base + "/db/" + href
  {
    if !StartsWith(href, "http") {
      if StartsWith(href, "/") {
        assert (base + href)[..|base|] == base;
      } else {
        assert (base + "/db/" + href)[..|base|] == base;
      }
    }
  }

  const MaxEntries: nat := 5
  const SummaryMinLength: nat := 100

  /** The records one entry contributes: its linked document when that has
      content, then its summary when longer than 100 characters */
  function EntryRecords(site: Site, pageUrl: string, e: Entry): (r: seq<Source>)
    ensures |r| <= 2
  {
    var title := e.title.GetOr("Regulation Document");
    var linked :=
      if e.link.None? then []
      else
        var url := ResolveLink(InterregsBaseUrl, e.link.value);
        var content := DocumentContent(site, url);
        if content != "" then [Source(content, url, title)] else [];
    var summary :=
      if e.summary.Some? && |e.summary.value| > SummaryMinLength
      then [Source("Summary: " + e.summary.value, pageUrl, title + " - Summary")]
      else [];
    linked + summary
  }

  /** The records of the entries, in order */
  function Records(site: Site, pageUrl: string, entries: seq<Entry>): seq<Source>
    decreases |entries|
  {
    if entries == [] then []
    else Records(site, pageUrl, entries[..|entries| - 1]) + EntryRecords(site, pageUrl, entries[|entries| - 1])
  }

  function SearchParams(query: string, region: string, category: string): map<string, string> {
    map["search" := query, "region" := region, "category" := category, "action" := "search"]
  }

  /** What `search_regulations` returns, for a client that starts logged in or
      not */
  function SearchOutcome(loggedIn: bool, site: Site, email: string, password: string,
                         query: string, region: string, category: string): Result<SourceLists, string>
  {
    if !loggedIn && !LoginSucceeds(site, email, password) then Failure(InterregsApiError)
    else
      match site.search(SearchParams(query, region, category))
      case SearchRaised => Failure(InterregsApiError)
      case SearchPage(url, entries) => Success(Unzip(Records(site, url, entries[..Min(MaxEntries, |entries|)])))
  }

  /** Every record comes from one of the first five entries: at most two per
      entry, each with a non-empty text; a summary record's text is "Summary: "
      and more than 100 characters, and it cites the search page. */
  lemma {:induction false} RecordsShape(site: Site, pageUrl: string, entries: seq<Entry>)
    ensures |Records(site, pageUrl, entries)| <= 2 * |entries|
    ensures forall s :: s in Records(site, pageUrl, entries) ==> s.text != []
    ensures forall s :: s in Records(site, pageUrl, entries) ==>
              (s.url == pageUrl && |s.text| > 9 + SummaryMinLength && s.text[..9] == "Summary: ") || s.text == DocumentContent(site, s.url)
    decreases |entries|
  {
    if entries != [] {
      RecordsShape(site, pageUrl, entries[..|entries| - 1]);
    }
  }

  /** The Interregs.net client; `loggedIn` only ever turns true. */
  class InterregsClient {
    const baseUrl: string
    var loggedIn: bool

    constructor()
      ensures baseUrl == InterregsBaseUrl && !loggedIn
    {
      baseUrl := InterregsBaseUrl;
      loggedIn := false;
    }

    /** `login`: the result is `LoginSucceeds`, and a success marks the client
        logged in. */
    method Login(site: Site, email: string, password: string) returns (ok: bool)
      requires baseUrl == InterregsBaseUrl
      modifies this
      ensures ok == LoginSucceeds(site, email, password)
      ensures loggedIn == (old(loggedIn) || ok)
    {
      var main := site.get(baseUrl + "/db/index.php");
      if main.HttpRaised? || main.status != 200 {
        return false;
      }
      var text := Lower(main.text);
      if Contains(text, "welcome") || Contains(text, "dashboard") {
        loggedIn := true;
        return true;
      }
      if site.loginForm.None? {
        var db := site.get(baseUrl + "/db/search.php");
        if db.HttpReply? && db.status == 200 {
          loggedIn := true;
          return true;
        }
        return false;
      }
      var data := BuildLoginData(email, password, site.loginForm.value);
      var endpoints := [baseUrl + "/login.php", baseUrl + "/db/login.php", baseUrl + "/auth/login.php", baseUrl + "/user/login.php"];
      assert endpoints == LoginEndpoints;
      for k := 0 to |endpoints|
        invariant forall j :: 0 <= j < k ==> !Accepted(site.post(LoginEndpoints[j], data))
        invariant loggedIn == old(loggedIn)
      {
        var response := site.post(endpoints[k], data);
        if response.HttpReply? && response.status == 200 {
          var responseText := Lower(response.text);
          var found := AnyIndicator(responseText);
          if found {
            loggedIn := true;
            return true;
          } else if !Contains(responseText, "error") && !Contains(responseText, "invalid") {
            loggedIn := true;
            return true;
          }
        }
      }
      ok := false;
    }

    /** `search_regulations`: log in first unless already logged in */
    method SearchRegulations(site: Site, email: string, password: string,
                             query: string, region: string, category: string) returns (r: Result<SourceLists, string>)
      requires baseUrl == InterregsBaseUrl
      modifies this
      ensures r == SearchOutcome(old(loggedIn), site, email, password, query, region, category)
      ensures loggedIn == (old(loggedIn) || LoginSucceeds(site, email, password))
      ensures old(loggedIn) ==> loggedIn
    {
      if !loggedIn {
        var ok := Login(site, email, password);
        if !ok {
          return Failure(InterregsApiError);
        }
      }
      var page := site.search(SearchParams(query, region, category));
      if page.SearchRaised? {
        return Failure(InterregsApiError);
      }
      var lists := CollectEntries(site, page.url, page.entries[..Min(MaxEntries, |page.entries|)]);
      r := Success(lists);
    }

    /** `get_regulation_by_id`: the document's content, URL and title */
    method GetRegulationById(site: Site, email: string, password: string, regulationId: string)
      returns (r: Result<(string, string, string), string>)
      requires baseUrl == InterregsBaseUrl
      modifies this
      ensures r == RegulationById(old(loggedIn), site, email, password, regulationId)
      ensures loggedIn == (old(loggedIn) || LoginSucceeds(site, email, password))
    {
      if !loggedIn {
        var ok := Login(site, email, password);
        if !ok {
          return Failure(InterregsApiError);
        }
      }
      var url := baseUrl + "/db/index.php?id=" + regulationId;
      var response := site.get(url);
      if response.HttpRaised? || 400 <= response.status < 600 {
        return Failure(InterregsApiError);
      }
      var title := site.pageTitle(url).GetOr("Regulation " + regulationId);
      var content := DocumentContent(site, url);
      r := Success((content, url, title));
    }
  }

  /** `any(indicator in text for indicator in [...])` */
  method AnyIndicator(text: string) returns (found: bool)
    ensures found <==> exists k :: 0 <= k < |SuccessIndicators| && Contains(text, SuccessIndicators[k])
  {
    found := false;
    for k := 0 to |SuccessIndicators|
      invariant !found
      invariant forall j :: 0 <= j < k ==> !Contains(text, SuccessIndicators[j])
    {
      if Contains(text, SuccessIndicators[k]) {
        return true;
      }
    }
  }

  /** The entry loop, appending to the three result lists */
  method CollectEntries(site: Site, pageUrl: string, entries: seq<Entry>) returns (lists: SourceLists)
    ensures lists == Unzip(Records(site, pageUrl, entries))
  {
    var texts: seq<string> := [];
    var urls: seq<string> := [];
    var titles: seq<string> := [];
    ghost var acc: seq<Source> := [];
    for i := 0 to |entries|
      invariant acc == Records(site, pageUrl, entries[..i])
      invariant SourceLists(texts, urls, titles) == Unzip(acc)
    {
      assert entries[..i + 1][..i] == entries[..i];
      var e := entries[i];
      var title := e.title.GetOr("Regulation Document");
      ghost var before := acc;
      if e.link.Some? {
        var url := ResolveLink(InterregsBaseUrl, e.link.value);
        var content := DocumentContent(site, url);
        if content != "" {
          texts, urls, titles := texts + [content], urls + [url], titles + [title];
          UnzipSnoc(acc, Source(content, url, title));
          acc := acc + [Source(content, url, title)];
        }
      }
      if e.summary.Some? && |e.summary.value| > SummaryMinLength {
        var s := Source("Summary: " + e.summary.value, pageUrl, title + " - Summary");
        texts, urls, titles := texts + [s.text], urls + [s.url], titles + [s.title];
        UnzipSnoc(acc, s);
        acc := acc + [s];
      }
      assert acc == before + EntryRecords(site, pageUrl, e);
    }
    assert entries[..|entries|] == entries;
    lists := SourceLists(texts, urls, titles);
  }

  /** What `get_regulation_by_id` returns */
  function RegulationById(loggedIn: bool, site: Site, email: string, password: string, regulationId: string)
    : Result<(string, string, string), string>
  {
    if !loggedIn && !LoginSucceeds(site, email, password) then Failure(InterregsApiError)
    else
      var url := InterregsBaseUrl + "/db/index.php?id=" + regulationId;
      var response := site.get(url);
      if response.HttpRaised? || 400 <= response.status < 600 then Failure(InterregsApiError)
      else Success((DocumentContent(site, url), url, site.pageTitle(url).GetOr("Regulation " + regulationId)))
  }

  /** `search_interregs_regulations`: a fresh client, so it always logs in */
  method SearchInterregsRegulations(site: Site, email: string, password: string,
                                    query: string, region: string, category: string) returns (r: Result<SourceLists, string>)
    ensures r == SearchOutcome(false, site, email, password, query, region, category)
  {
    var client := new InterregsClient();
    r := client.SearchRegulations(site, email, password, query, region, category);
  }

  /** `get_interregs_regulation` */
  method GetInterregsRegulation(site: Site, email: string, password: string, regulationId: string)
    returns (r: Result<(string, string, string), string>)
    ensures r == RegulationById(false, site, email, password, regulationId)
  {
    var client := new InterregsClient();
    r := client.GetRegulationById(site, email, password, regulationId);
  }

  /** A search by a fresh client fails with the database error exactly when
      logging in fails or the search request raises; otherwise it yields at most
      ten aligned records. */
  lemma SearchOutcomeShape(site: Site, email: string, password: string, query: string, region: string, category: string)
    ensures var r := SearchOutcome(false, site, email, password, query, region, category);
            && (r.Failure? <==> !LoginSucceeds(site, email, password) || site.search(SearchParams(query, region, category)).SearchRaised?)
            && (r.Failure? ==> r.error == InterregsApiError)
            && (r.Success? ==> r.value.Aligned() && |r.value.texts| <= 2 * MaxEntries)
  {
    var page := site.search(SearchParams(query, region, category));
    if LoginSucceeds(site, email, password) && page.SearchPage? {
      RecordsShape(site, page.url, page.entries[..Min(MaxEntries, |page.entries|)]);
    }
  }
}
