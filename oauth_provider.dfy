/**
 * The Notion OAuth connection bookkeeping of `MyOAuthProvider`: the
 * authorization URL, the authorization-code grant (section 4.1.3 of RFC 6749),
 * the upsert of a `notion_connections` row keyed by (user_id, workspace_id),
 * the page discovery that appends `notion_pages` rows, and the access-token
 * lookup.
 *
 * The two tables are fields of the provider object. The token endpoint and
 * the Notion search are functions passed in, and the errors the store reports
 * are inputs, so every branch of the code can be reached and stated.
 */
module OAuthProvider {
  import opened Wrappers
  import SearchParams

  const AuthorizeEndpoint: string := "https://api.notion.com/v1/oauth/authorize"
  const TokenEndpoint: string := "https://api.notion.com/v1/oauth/token"
  const AuthorizationCodeGrant: string := "authorization_code"
  /** The user id every discovered page row is written with, whoever connected. */
  const PageRowUserId: string := "165dba29-36eb-4e88-9889-81a61b0ef3a0"
  const UntitledPage: string := "Untitled"

  /** The provider's constructor argument. */
  datatype Config = Config(redirectUrl: string, scope: string, userId: string)

  /** NOTION_CLIENT_ID and NOTION_CLIENT_SECRET from the process environment. */
  datatype ClientCredentials = ClientCredentials(clientId: string, clientSecret: string)

  /** A URL as an origin-and-path and its decoded query parameters. */
  datatype Url = Url(base: string, query: seq<SearchParams.Param>)

  // ----- The token response (the `OAuthTokens` shape) -----

  datatype Person = Person(email: Option<string>)

  datatype OwnerUser = OwnerUser(
    objectKind: Option<string>,
    id: Option<string>,
    name: Option<string>,
    avatarUrl: Option<string>,
    userType: Option<string>,
    person: Option<Person>)

  datatype Owner = Owner(ownerType: Option<string>, user: Option<OwnerUser>)

  datatype OAuthTokens = OAuthTokens(
    accessToken: string,
    tokenType: string,
    refreshToken: Option<string>,
    botId: Option<string>,
    workspaceName: Option<string>,
    workspaceIcon: Option<string>,
    workspaceId: string,
    owner: Option<Owner>,
    duplicatedTemplateId: Option<string>,
    requestId: Option<string>)

  // ----- Requests sent and responses received -----

  /** The POST to the token endpoint: Basic credentials and the JSON body. */
  datatype TokenRequest = TokenRequest(
    url: string,
    basicUser: string,
    basicPassword: string,
    grantType: string,
    code: string,
    redirectUri: string)

  /** The token endpoint's answer; `parsed` is what `JSON.parse` makes of the body, if anything. */
  datatype TokenResponse = TokenResponse(status: int, body: string, parsed: Option<OAuthTokens>) {
    /** `Response.ok`: a 2xx status. */
    predicate IsOk() {
      200 <= status <= 299
    }
  }

  datatype RichText = RichText(plainText: Option<string>)

  /** One entry of `search().results`; `title` is `properties.title.title`, when present. */
  datatype SearchResult = SearchResult(objectKind: string, id: string, title: Option<seq<RichText>>)

  datatype SearchResponse = SearchOk(results: seq<SearchResult>) | SearchFailed(message: string)

  /** The outbound calls the flow makes, in order. */
  datatype Request = TokenExchange(request: TokenRequest) | PageSearch(bearer: string)

  /** An error the store reports; `maybeSingle()` reports one when several rows match. */
  datatype StoreError = StoreError(message: string) | MultipleRowsReturned

  /** Every way the flow ends by throwing. */
  datatype ProviderError =
    | MissingCode
    | TokenExchangeFailed(body: string)
    | MalformedTokenResponse(body: string)
    | SearchError(message: string)
    | PageInsertError(insertError: StoreError)
    | ConnectionUpsertError(upsertError: StoreError)
    | TokenReadError(readError: StoreError)
    | NoAccessToken
  {
    /** The message of the `Error` the provider throws itself (the others are rethrown as received). */
    function Message(): (m: string)
      requires MissingCode? || TokenExchangeFailed? || NoAccessToken?
      ensures TokenExchangeFailed? ==> |body| <= |m| && m[|m| - |body|..] == body
      ensures m != ""
    {
      match this
      case MissingCode => "Missing authorization code in redirect URL."
      case TokenExchangeFailed(body) => "Token exchange failed: " + body
      case NoAccessToken => "No access token found. Please connect Notion first."
    }
  }

  // ----- Stored rows -----

  /** The upsert conflict target of `notion_connections`. */
  datatype ConnectionKey = ConnectionKey(userId: string, workspaceId: string)

  /** The remaining columns of a `notion_connections` row. */
  datatype Connection = Connection(
    accessToken: string,
    tokenType: string,
    refreshToken: Option<string>,
    botId: Option<string>,
    workspaceName: Option<string>,
    workspaceIcon: Option<string>,
    ownerType: Option<string>,
    ownerObject: Option<string>,
    ownerId: Option<string>,
    ownerName: Option<string>,
    ownerAvatarUrl: Option<string>,
    ownerUserType: Option<string>,
    ownerUserEmail: Option<string>,
    duplicatedTemplateId: Option<string>,
    requestId: Option<string>,
    rawResponse: OAuthTokens,
    updatedAt: string)

  /** A `notion_pages` row. */
  datatype PageRow = PageRow(userId: string, pageId: string, pageName: string)

  // ----- Step 1: the authorization URL -----

  /** The consent-page URL: the five query parameters, set in this order on a URL without a query. */
  function AuthorizationUrl(credentials: ClientCredentials, config: Config): (u: Url)
    ensures u.base == AuthorizeEndpoint
    ensures u.query == [
      SearchParams.Param("client_id", credentials.clientId),
      SearchParams.Param("response_type", "code"),
      SearchParams.Param("owner", "user"),
      SearchParams.Param("redirect_uri", config.redirectUrl),
      SearchParams.Param("scope", config.scope)]
  {
    var p1 := SearchParams.Param("client_id", credentials.clientId);
    var p2 := SearchParams.Param("response_type", "code");
    var p3 := SearchParams.Param("owner", "user");
    var p4 := SearchParams.Param("redirect_uri", config.redirectUrl);
    var p5 := SearchParams.Param("scope", config.scope);
    AuthorizationQuery(p1, p2, p3, p4, p5);
    var q := SearchParams.Set([], p1.name, p1.value);
    var q := SearchParams.Set(q, p2.name, p2.value);
    var q := SearchParams.Set(q, p3.name, p3.value);
    var q := SearchParams.Set(q, p4.name, p4.value);
    var q := SearchParams.Set(q, p5.name, p5.value);
    Url(AuthorizeEndpoint, q)
  }

  /** The URL carries each parameter: `get` of each name returns the configured value. */
  lemma {:induction false} AuthorizationUrlParameters(credentials: ClientCredentials, config: Config)
    ensures var q := AuthorizationUrl(credentials, config).query;
      && SearchParams.Get(q, "client_id") == Some(credentials.clientId)
      && SearchParams.Get(q, "response_type") == Some("code")
      && SearchParams.Get(q, "owner") == Some("user")
      && SearchParams.Get(q, "redirect_uri") == Some(config.redirectUrl)
      && SearchParams.Get(q, "scope") == Some(config.scope)
      && SearchParams.Get(q, "code") == None
  {
    var q := AuthorizationUrl(credentials, config).query;
    QueryLookups(q, credentials.clientId, config.redirectUrl, config.scope);
  }

  lemma QueryLookups(q: seq<SearchParams.Param>, clientId: string, redirectUrl: string, scope: string)
    requires q == [
      SearchParams.Param("client_id", clientId),
      SearchParams.Param("response_type", "code"),
      SearchParams.Param("owner", "user"),
      SearchParams.Param("redirect_uri", redirectUrl),
      SearchParams.Param("scope", scope)]
    ensures SearchParams.Get(q, "client_id") == Some(clientId)
    ensures SearchParams.Get(q, "response_type") == Some("code")
    ensures SearchParams.Get(q, "owner") == Some("user")
    ensures SearchParams.Get(q, "redirect_uri") == Some(redirectUrl)
    ensures SearchParams.Get(q, "scope") == Some(scope)
    ensures SearchParams.Get(q, "code") == None
  {
    assert SearchParams.DistinctNames(q);
    SearchParams.GetDistinct(q, 0);
    SearchParams.GetDistinct(q, 1);
    SearchParams.GetDistinct(q, 2);
    SearchParams.GetDistinct(q, 3);
    SearchParams.GetDistinct(q, 4);
    SearchParams.GetFindsFirst(q, "code");
  }

  /** Setting five parameters with distinct names on an empty query appends them in order. */
  lemma AuthorizationQuery(p1: SearchParams.Param, p2: SearchParams.Param, p3: SearchParams.Param,
                           p4: SearchParams.Param, p5: SearchParams.Param)
    requires p1.name != p2.name && p1.name != p3.name && p1.name != p4.name && p1.name != p5.name
    requires p2.name != p3.name && p2.name != p4.name && p2.name != p5.name
    requires p3.name != p4.name && p3.name != p5.name && p4.name != p5.name
    ensures
      var q1 := SearchParams.Set([], p1.name, p1.value);
      var q2 := SearchParams.Set(q1, p2.name, p2.value);
      var q3 := SearchParams.Set(q2, p3.name, p3.value);
      var q4 := SearchParams.Set(q3, p4.name, p4.value);
      SearchParams.Set(q4, p5.name, p5.value) == [p1, p2, p3, p4, p5]
  {
    var q1 := SearchParams.Set([], p1.name, p1.value);
    assert q1 == [p1];
    SearchParams.GetFindsFirst(q1, p2.name);
    var q2 := SearchParams.Set(q1, p2.name, p2.value);
    assert q2 == [p1, p2];
    SearchParams.GetFindsFirst(q2, p3.name);
    var q3 := SearchParams.Set(q2, p3.name, p3.value);
    assert q3 == [p1, p2, p3];
    SearchParams.GetFindsFirst(q3, p4.name);
    var q4 := SearchParams.Set(q3, p4.name, p4.value);
    assert q4 == [p1, p2, p3, p4];
    SearchParams.GetFindsFirst(q4, p5.name);
  }

  // ----- Step 2: the code exchange -----

  /** The `code` query parameter of the redirect; a missing and an empty one are both refused. */
  function AuthorizationCode(redirect: Url): (code: Option<string>)
    ensures code.Some? ==> code.value != "" && SearchParams.Get(redirect.query, "code") == code
    ensures code.None? ==> SearchParams.Get(redirect.query, "code") in {None, Some("")}
  {
    match SearchParams.Get(redirect.query, "code")
    case Some(c) => if c == "" then None else Some(c)
    case None => None
  }

  /** The authorization-code grant request for this code. */
  function TokenRequestFor(credentials: ClientCredentials, config: Config, code: string): (r: TokenRequest)
    ensures r.url == TokenEndpoint && r.grantType == AuthorizationCodeGrant
    ensures r.code == code && r.redirectUri == config.redirectUrl
    ensures r.basicUser == credentials.clientId && r.basicPassword == credentials.clientSecret
  {
    TokenRequest(TokenEndpoint, credentials.clientId, credentials.clientSecret,
                 AuthorizationCodeGrant, code, config.redirectUrl)
  }

  // ----- Step 3: the connection upsert -----

  function OwnerTypeOf(tokens: OAuthTokens): Option<string> {
    if tokens.owner.Some? then tokens.owner.value.ownerType else None
  }

  /** `tokens.owner?.user`, absent when either level is. */
  function OwnerUserOf(tokens: OAuthTokens): Option<OwnerUser> {
    if tokens.owner.Some? then tokens.owner.value.user else None
  }

  /** The `notion_connections` columns written for a token response at time `updatedAt`. */
  function ConnectionRow(tokens: OAuthTokens, updatedAt: string): (row: Connection)
    // the columns copied from the response as they are
    ensures row.accessToken == tokens.accessToken && row.tokenType == tokens.tokenType
    ensures row.refreshToken == tokens.refreshToken && row.botId == tokens.botId
    ensures row.workspaceName == tokens.workspaceName && row.workspaceIcon == tokens.workspaceIcon
    ensures row.duplicatedTemplateId == tokens.duplicatedTemplateId && row.requestId == tokens.requestId
    ensures row.rawResponse == tokens && row.updatedAt == updatedAt
    // `owner?.type` and the `owner.user` columns: empty without an owner, or without its user
    ensures tokens.owner.None? ==> row.ownerType.None?
    ensures tokens.owner.Some? ==> row.ownerType == tokens.owner.value.ownerType
    ensures OwnerUserOf(tokens).None? ==>
      && row.ownerObject.None? && row.ownerId.None? && row.ownerName.None?
      && row.ownerAvatarUrl.None? && row.ownerUserType.None? && row.ownerUserEmail.None?
    ensures OwnerUserOf(tokens).Some? ==>
      var user := OwnerUserOf(tokens).value;
      && row.ownerObject == user.objectKind && row.ownerId == user.id && row.ownerName == user.name
      && row.ownerAvatarUrl == user.avatarUrl && row.ownerUserType == user.userType
    ensures row.ownerUserEmail.Some? ==>
      && OwnerUserOf(tokens).Some? && OwnerUserOf(tokens).value.person.Some?
      && OwnerUserOf(tokens).value.person.value.email == row.ownerUserEmail
    ensures OwnerUserOf(tokens).Some? && OwnerUserOf(tokens).value.person.Some? ==>
      row.ownerUserEmail == OwnerUserOf(tokens).value.person.value.email
  {
    var user := OwnerUserOf(tokens);
    Connection(
      tokens.accessToken,
      tokens.tokenType,
      tokens.refreshToken,
      tokens.botId,
      tokens.workspaceName,
      tokens.workspaceIcon,
      OwnerTypeOf(tokens),
      if user.Some? then user.value.objectKind else None,
      if user.Some? then user.value.id else None,
      if user.Some? then user.value.name else None,
      if user.Some? then user.value.avatarUrl else None,
      if user.Some? then user.value.userType else None,
      if user.Some? && user.value.person.Some? then user.value.person.value.email else None,
      tokens.duplicatedTemplateId,
      tokens.requestId,
      tokens,
      updatedAt)
  }

  /** The table after a successful upsert on (user_id, workspace_id). */
  function Upserted(connections: map<ConnectionKey, Connection>, userId: string, tokens: OAuthTokens, updatedAt: string)
    : (r: map<ConnectionKey, Connection>)
    ensures ConnectionKey(userId, tokens.workspaceId) in r
    ensures r[ConnectionKey(userId, tokens.workspaceId)] == ConnectionRow(tokens, updatedAt)
    ensures r.Keys == connections.Keys + {ConnectionKey(userId, tokens.workspaceId)}
    ensures forall k :: k in connections && k != ConnectionKey(userId, tokens.workspaceId) ==> r[k] == connections[k]
  {
    connections[ConnectionKey(userId, tokens.workspaceId) := ConnectionRow(tokens, updatedAt)]
  }

  /** A second grant for the same (user, workspace) leaves one row, holding the second grant. */
  lemma {:induction false} RegrantReplacesRow(
    connections: map<ConnectionKey, Connection>, userId: string,
    first: OAuthTokens, second: OAuthTokens, firstAt: string, secondAt: string)
    requires first.workspaceId == second.workspaceId
    ensures Upserted(Upserted(connections, userId, first, firstAt), userId, second, secondAt)
         == Upserted(connections, userId, second, secondAt)
  {
    var key := ConnectionKey(userId, second.workspaceId);
    var twice := Upserted(Upserted(connections, userId, first, firstAt), userId, second, secondAt);
    var once := Upserted(connections, userId, second, secondAt);
    assert twice.Keys == once.Keys;
    forall k | k in twice.Keys ensures twice[k] == once[k] {
      if k != key {
        assert k in connections;
      }
    }
  }

  // ----- Step 3, continued: page discovery -----

  /** `results.filter(r => r.object === "page")`. */
  function Pages(results: seq<SearchResult>): (pages: seq<SearchResult>)
    ensures forall x :: x in pages <==> x in results && x.objectKind == "page"
    ensures |pages| <= |results|
  {
    if results == [] then []
    else if results[0].objectKind == "page" then [results[0]] + Pages(results[1..])
    else Pages(results[1..])
  }

  /** The filter keeps every page result as often as it occurs and drops everything else. */
  lemma {:induction false} PagesKeepsEachPage(results: seq<SearchResult>, x: SearchResult)
    ensures multiset(Pages(results))[x] == if x.objectKind == "page" then multiset(results)[x] else 0
  {
    if results != [] {
      PagesKeepsEachPage(results[1..], x);
      assert results == [results[0]] + results[1..];
    }
  }

  /** A single result passes the filter exactly when it is a page. */
  lemma PagesOfOne(x: SearchResult)
    ensures Pages([x]) == if x.objectKind == "page" then [x] else []
  {
  }

  /** The filter works piece by piece, so the kept results stay in their input order. */
  lemma {:induction false} PagesConcat(a: seq<SearchResult>, b: seq<SearchResult>)
    ensures Pages(a + b) == Pages(a) + Pages(b)
  {
    if a == [] {
      assert a + b == b;
    } else {
      var c := a + b;
      assert c[0] == a[0] && c[1..] == a[1..] + b;
      PagesConcat(a[1..], b);
      var rest := Pages(a[1..]) + Pages(b);
      if a[0].objectKind == "page" {
        assert Pages(c) == [a[0]] + rest;
        assert Pages(a) + Pages(b) == [a[0]] + rest;
      } else {
        assert Pages(c) == rest;
      }
    }
  }

  /** The first title's `plain_text`, or "Untitled" when it is absent or empty (JavaScript `||`). */
  function PageName(result: SearchResult): (name: string)
    ensures name != ""
    ensures name != UntitledPage ==>
      result.title.Some? && |result.title.value| > 0 && result.title.value[0].plainText == Some(name)
    ensures (result.title.Some? && |result.title.value| > 0 && result.title.value[0].plainText.Some?
             && result.title.value[0].plainText.value != "") ==> name == result.title.value[0].plainText.value
  {
    match result.title
    case Some(texts) =>
      if |texts| > 0 && texts[0].plainText.Some? && texts[0].plainText.value != "" then texts[0].plainText.value
      else UntitledPage
    case None => UntitledPage
  }

  /** The `notion_pages` row for one page result. */
  function PageRowFor(page: SearchResult): (row: PageRow)
    ensures row.userId == PageRowUserId && row.pageId == page.id
    ensures row.pageName != ""
  {
    PageRow(PageRowUserId, page.id, PageName(page))
  }

  /** The rows inserted into `notion_pages` for a search: one per page result, in order. */
  function PageRows(results: seq<SearchResult>): (rows: seq<PageRow>)
    ensures |rows| == |Pages(results)|
    ensures forall i :: 0 <= i < |rows| ==> rows[i] == PageRowFor(Pages(results)[i])
  {
    var pages := Pages(results);
    seq(|pages|, i requires 0 <= i < |pages| => PageRowFor(pages[i]))
  }

  /**
   * Every inserted row comes from a page result and carries the fixed user id;
   * every page result gets a row.
   */
  lemma {:induction false} PageRowsFromPages(results: seq<SearchResult>)
    ensures forall row :: row in PageRows(results) ==> row.userId == PageRowUserId
    ensures forall row :: row in PageRows(results) <==>
      exists x :: x in results && x.objectKind == "page" && row == PageRowFor(x)
  {
    var pages := Pages(results);
    var rows := PageRows(results);
    forall row | row in rows
      ensures row.userId == PageRowUserId
      ensures exists x :: x in results && x.objectKind == "page" && row == PageRowFor(x)
    {
      var i :| 0 <= i < |rows| && rows[i] == row;
      assert pages[i] in pages;
    }
    forall x | x in results && x.objectKind == "page" ensures PageRowFor(x) in rows {
      assert x in pages;
      var i :| 0 <= i < |pages| && pages[i] == x;
      assert rows[i] == PageRowFor(x);
    }
  }

  /** The page table after discovery: rows are appended when the search succeeds and the insert does not fail. */
  function PagesAfterDiscovery(pages: seq<PageRow>, search: SearchResponse, insertError: Option<StoreError>)
    : (r: seq<PageRow>)
    ensures search.SearchOk? && insertError.None? ==> r == pages + PageRows(search.results)
    ensures search.SearchFailed? || insertError.Some? ==> r == pages
  {
    if search.SearchOk? && insertError.None? then pages + PageRows(search.results) else pages
  }

  /** Discovery does not deduplicate: running it twice inserts every page row twice. */
  lemma {:induction false} RediscoveryDuplicates(pages: seq<PageRow>, results: seq<SearchResult>, row: PageRow)
    ensures
      var twice := PagesAfterDiscovery(PagesAfterDiscovery(pages, SearchOk(results), None), SearchOk(results), None);
      && |twice| == |pages| + 2 * |Pages(results)|
      && multiset(twice)[row] == multiset(pages)[row] + 2 * multiset(PageRows(results))[row]
  {
    var rows := PageRows(results);
    assert PagesAfterDiscovery(PagesAfterDiscovery(pages, SearchOk(results), None), SearchOk(results), None)
        == pages + rows + rows;
  }

  /**
   * How a save ends: a failed search is thrown first, then a failed page insert,
   * and only after both the upsert error that happened before them.
   */
  function SaveOutcome(search: SearchResponse, insertError: Option<StoreError>, upsertError: Option<StoreError>)
    : (r: Outcome<ProviderError>)
    ensures r == Pass <==> search.SearchOk? && insertError.None? && upsertError.None?
    ensures search.SearchFailed? ==> r == Fail(SearchError(search.message))
    ensures search.SearchOk? && insertError.Some? ==> r == Fail(PageInsertError(insertError.value))
    ensures search.SearchOk? && insertError.None? && upsertError.Some? ==>
      r == Fail(ConnectionUpsertError(upsertError.value))
    ensures r.Fail? && r.error.ConnectionUpsertError? ==>
      search.SearchOk? && insertError.None? && upsertError == Some(r.error.upsertError)
  {
    match search
    case SearchFailed(message) => Fail(SearchError(message))
    case SearchOk(_) =>
      if insertError.Some? then Fail(PageInsertError(insertError.value))
      else if upsertError.Some? then Fail(ConnectionUpsertError(upsertError.value))
      else Pass
  }

  /** A failed upsert does not stop discovery: the pages are stored all the same, and the save still fails. */
  lemma {:induction false} UpsertFailureStillDiscovers(
    pages: seq<PageRow>, results: seq<SearchResult>, upsertError: StoreError)
    ensures PagesAfterDiscovery(pages, SearchOk(results), None) == pages + PageRows(results)
    ensures SaveOutcome(SearchOk(results), None, Some(upsertError)) == Fail(ConnectionUpsertError(upsertError))
  {
  }

  // ----- Step 4: the access-token lookup -----

  /** The keys of the rows `.eq("user_id", userId)` selects. */
  function UserKeys(connections: map<ConnectionKey, Connection>, userId: string): (keys: set<ConnectionKey>)
    ensures keys <= connections.Keys
    ensures forall k :: k in keys <==> k in connections && k.userId == userId
  {
    set k | k in connections && k.userId == userId
  }

  lemma SingletonMembers<T>(s: set<T>, a: T)
    requires |s| == 1 && a in s
    ensures s == {a}
  {
    var rest := s - {a};
    assert |rest| == 0;
    assert rest == {};
  }

  /**
   * `getAccessToken`: a read error is rethrown; `maybeSingle()` fails when
   * several rows belong to the user; no row, or a row with an empty token,
   * is "No access token found"; otherwise the row's token.
   */
  function LookupAccessToken(connections: map<ConnectionKey, Connection>, userId: string, readError: Option<StoreError>)
    : (r: Result<string, ProviderError>)
    ensures readError.Some? ==> r == Err(TokenReadError(readError.value))
    ensures readError.None? && |UserKeys(connections, userId)| > 1 ==> r == Err(TokenReadError(MultipleRowsReturned))
    ensures readError.None? && UserKeys(connections, userId) == {} ==> r == Err(NoAccessToken)
    ensures readError.None? && |UserKeys(connections, userId)| <= 1 && r.Err? ==> r == Err(NoAccessToken)
    ensures r.Ok? <==>
      && readError.None?
      && exists k :: k in connections && k.userId == userId
           && UserKeys(connections, userId) == {k} && connections[k].accessToken != ""
    ensures r.Ok? ==> exists k :: k in connections && k.userId == userId && connections[k].accessToken == r.value
    ensures r.Ok? ==> r.value != ""
  {
    if readError.Some? then Err(TokenReadError(readError.value))
    else
      var keys := UserKeys(connections, userId);
      if |keys| > 1 then Err(TokenReadError(MultipleRowsReturned))
      else if |keys| == 0 then Err(NoAccessToken)
      else
        var k :| k in keys;
        SingletonMembers(keys, k);
        if connections[k].accessToken == "" then Err(NoAccessToken) else Ok(connections[k].accessToken)
  }

  /** After a save, the token is readable, provided the user has no row for another workspace. */
  lemma {:induction false} SavedTokenIsReadable(
    connections: map<ConnectionKey, Connection>, userId: string, tokens: OAuthTokens, updatedAt: string)
    requires forall k :: k in connections && k.userId == userId ==> k.workspaceId == tokens.workspaceId
    requires tokens.accessToken != ""
    ensures LookupAccessToken(Upserted(connections, userId, tokens, updatedAt), userId, None) == Ok(tokens.accessToken)
  {
    var saved := Upserted(connections, userId, tokens, updatedAt);
    var key := ConnectionKey(userId, tokens.workspaceId);
    assert UserKeys(saved, userId) == {key};
  }

  /** A user connected to a second workspace can no longer read a token: the select matches two rows. */
  lemma {:induction false} SecondWorkspaceBreaksLookup(
    connections: map<ConnectionKey, Connection>, userId: string, tokens: OAuthTokens, updatedAt: string,
    other: ConnectionKey)
    requires other in connections && other.userId == userId && other.workspaceId != tokens.workspaceId
    ensures LookupAccessToken(Upserted(connections, userId, tokens, updatedAt), userId, None)
         == Err(TokenReadError(MultipleRowsReturned))
  {
    var saved := Upserted(connections, userId, tokens, updatedAt);
    var key := ConnectionKey(userId, tokens.workspaceId);
    var keys := UserKeys(saved, userId);
    assert {key, other} <= keys;
    assert |{key, other}| == 2;
    SubsetCardinality({key, other}, keys);
  }

  lemma SubsetCardinality<T>(a: set<T>, b: set<T>)
    requires a <= b
    ensures |a| <= |b|
  {
    assert b == a + (b - a);
  }

  // ----- The provider object -----

  class NotionOAuthProvider {
    const config: Config
    const credentials: ClientCredentials
    /** The `notion_connections` table, keyed by its upsert conflict target. */
    var connections: map<ConnectionKey, Connection>
    /** The `notion_pages` table, in insertion order. */
    var pages: seq<PageRow>

    constructor(config: Config, credentials: ClientCredentials,
                connections: map<ConnectionKey, Connection>, pages: seq<PageRow>)
      ensures this.config == config && this.credentials == credentials
      ensures this.connections == connections && this.pages == pages
    {
      this.config := config;
      this.credentials := credentials;
      this.connections := connections;
      this.pages := pages;
    }

    /** `redirectToAuthorization`: the URL it logs for the user to visit. */
    function RedirectToAuthorization(): (u: Url)
      ensures u == AuthorizationUrl(credentials, config)
    {
      AuthorizationUrl(credentials, config)
    }

    /**
     * `handleRedirect`: takes the code out of the redirect, exchanges it at the
     * token endpoint and saves the tokens. `requests` lists the outbound calls.
     */
    method HandleRedirect(
      redirect: Url,
      tokenEndpoint: TokenRequest -> TokenResponse,
      search: string -> SearchResponse,
      upsertError: Option<StoreError>,
      insertError: Option<StoreError>,
      now: string)
      returns (outcome: Outcome<ProviderError>, requests: seq<Request>)
      modifies this
      ensures AuthorizationCode(redirect).None? ==>
        && outcome == Fail(MissingCode) && requests == []
        && connections == old(connections) && pages == old(pages)
      ensures AuthorizationCode(redirect).Some? ==>
        var request := TokenRequestFor(credentials, config, AuthorizationCode(redirect).value);
        var response := tokenEndpoint(request);
        && |requests| >= 1 && requests[0] == TokenExchange(request)
        && (!response.IsOk() ==>
              && outcome == Fail(TokenExchangeFailed(response.body)) && requests == [TokenExchange(request)]
              && connections == old(connections) && pages == old(pages))
        && (response.IsOk() && response.parsed.None? ==>
              && outcome == Fail(MalformedTokenResponse(response.body)) && requests == [TokenExchange(request)]
              && connections == old(connections) && pages == old(pages))
        && (response.IsOk() && response.parsed.Some? ==>
              var tokens := response.parsed.value;
              && requests == [TokenExchange(request), PageSearch(tokens.accessToken)]
              && connections == (if upsertError.None? then Upserted(old(connections), config.userId, tokens, now)
                                 else old(connections))
              && pages == PagesAfterDiscovery(old(pages), search(tokens.accessToken), insertError)
              && outcome == SaveOutcome(search(tokens.accessToken), insertError, upsertError))
    {
      var code := AuthorizationCode(redirect);
      if code.None? {
        return Fail(MissingCode), [];
      }
      var request := TokenRequestFor(credentials, config, code.value);
      var response := tokenEndpoint(request);
      requests := [TokenExchange(request)];
      if !response.IsOk() {
        return Fail(TokenExchangeFailed(response.body)), requests;
      }
      if response.parsed.None? {
        return Fail(MalformedTokenResponse(response.body)), requests;
      }
      var tokens := response.parsed.value;
      requests := requests + [PageSearch(tokens.accessToken)];
      outcome := SaveTokens(tokens, search, upsertError, insertError, now);
    }

    /**
     * `saveTokensToSupabase`: upsert the connection, search with the new token,
     * insert the page rows, and only then report the upsert error.
     */
    method SaveTokens(
      tokens: OAuthTokens,
      search: string -> SearchResponse,
      upsertError: Option<StoreError>,
      insertError: Option<StoreError>,
      now: string)
      returns (outcome: Outcome<ProviderError>)
      modifies this
      ensures connections == if upsertError.None? then Upserted(old(connections), config.userId, tokens, now)
                             else old(connections)
      ensures pages == PagesAfterDiscovery(old(pages), search(tokens.accessToken), insertError)
      ensures outcome == SaveOutcome(search(tokens.accessToken), insertError, upsertError)
    {
      if upsertError.None? {
        connections := Upserted(connections, config.userId, tokens, now);
      }
      var response := search(tokens.accessToken);
      if response.SearchFailed? {
        return Fail(SearchError(response.message));
      }
      var rows := PageRows(response.results);
      if insertError.Some? {
        return Fail(PageInsertError(insertError.value));
      }
      pages := pages + rows;
      if upsertError.Some? {
        return Fail(ConnectionUpsertError(upsertError.value));
      }
      return Pass;
    }

    /** `getAccessToken`, over the connection rows of the configured user. */
    function GetAccessToken(readError: Option<StoreError>): (r: Result<string, ProviderError>)
      reads this
      ensures r == LookupAccessToken(connections, config.userId, readError)
    {
      LookupAccessToken(connections, config.userId, readError)
    }
  }
}
