/** The project search endpoint: query parameters with defaults, the search
    qualifier string sent upstream, and the normalisation of each upstream
    repository record into a `Project`. The upstream search itself is a
    parameter of the handler. */
module ProjectsRoute {
  import opened Nullable
  import opened Domain
  import Decimal
  import Text

  const DefaultSort: string := "stars"
  const DefaultPage: string := "1"
  const PerPage: int := 12
  const Order: string := "desc"

  const NameDescriptionQualifier: string := "in:name,description"
  const PopularQualifier: string := "stars:>10000"
  const StarsFloorQualifier: string := "stars:>1000"
  const LanguagePrefix: string := "language:"

  const FailureStatus: int := 500
  const FailureMessage: string := "Failed to fetch projects"

  /** The raw `search`, `language`, `sort` and `page` parameters; None when absent. */
  datatype QueryParams = QueryParams(search: Option<string>, language: Option<string>, sort: Option<string>, page: Option<string>)

  /** The parameters after defaulting. */
  datatype Filters = Filters(search: string, language: string, sort: string, page: string)

  /** An absent or empty parameter takes its default: no search text, no
      language, sort by stars, first page. */
  function ResolveParams(p: QueryParams): (f: Filters)
    ensures f.search == "" <==> !Truthy(p.search)
    ensures Truthy(p.search) ==> f.search == p.search.value
    ensures f.language == "" <==> !Truthy(p.language)
    ensures Truthy(p.language) ==> f.language == p.language.value
    ensures f.sort == (if Truthy(p.sort) then p.sort.value else DefaultSort) && f.sort != ""
    ensures f.page == (if Truthy(p.page) then p.page.value else DefaultPage) && f.page != ""
  {
    Filters(Or(p.search, ""), Or(p.language, ""), Or(p.sort, DefaultSort), Or(p.page, DefaultPage))
  }

  /** Defaulting twice changes nothing: resolved filters, passed back as
      parameters, resolve to themselves. */
  lemma ResolveIdempotent(p: QueryParams)
    ensures var f := ResolveParams(p);
            ResolveParams(QueryParams(Some(f.search), Some(f.language), Some(f.sort), Some(f.page))) == f
  {
  }

  /** The search qualifier string: the search text restricted to names and
      descriptions, or the popular-repository qualifier when there is no search
      text; then the language restriction if any; then, only without search
      text, a minimum star count. */
  function BuildQuery(search: string, language: string): (q: string)
    ensures q != ""
    ensures search == "" && language == "" ==> q == PopularQualifier + " " + StarsFloorQualifier
    ensures search == "" && language != "" ==>
              q == PopularQualifier + " " + LanguagePrefix + language + " " + StarsFloorQualifier
    ensures search != "" && language == "" ==> q == search + " " + NameDescriptionQualifier
    ensures search != "" && language != "" ==>
              q == search + " " + NameDescriptionQualifier + " " + LanguagePrefix + language
  {
    var base := if search != "" then search + " " + NameDescriptionQualifier else PopularQualifier;
    var withLanguage := if language != "" then base + " " + LanguagePrefix + language else base;
    if search == "" then withLanguage + " " + StarsFloorQualifier else withLanguage
  }

  /** The language named by a `language:<name>` word, if the word is one. */
  function LanguageOf(word: string): (r: Option<string>) {
    if |word| > |LanguagePrefix| && word[..|LanguagePrefix|] == LanguagePrefix
    then Some(word[|LanguagePrefix|..])
    else None
  }

  /** Reads a qualifier string back into the search text and language it was built from. */
  function DecodeQuery(q: string): (r: Option<(string, string)>) {
    match Text.SplitLast(q)
    case None => None
    case Some((before, last)) =>
      if last == StarsFloorQualifier then
        if before == PopularQualifier then Some(("", ""))
        else
          match Text.SplitLast(before)
          case None => None
          case Some((head, word)) =>
            match LanguageOf(word)
            case None => None
            case Some(language) => if head == PopularQualifier then Some(("", language)) else None
      else if last == NameDescriptionQualifier then
        if before != "" then Some((before, "")) else None
      else
        match LanguageOf(last)
        case None => None
        case Some(language) =>
          match Text.SplitLast(before)
          case None => None
          case Some((search, word)) =>
            if word == NameDescriptionQualifier && search != "" then Some((search, language)) else None
  }

  lemma LanguageWord(language: string)
    requires language != "" && Text.NoSpace(language)
    ensures Text.NoSpace(LanguagePrefix + language)
    ensures LanguageOf(LanguagePrefix + language) == Some(language)
    ensures (LanguagePrefix + language)[0] == 'l'
  {
  }

  lemma PopularRoundTrip()
    ensures DecodeQuery(BuildQuery("", "")) == Some(("", ""))
  {
    Text.SplitLastOf(PopularQualifier, StarsFloorQualifier);
  }

  lemma PopularLanguageRoundTrip(language: string)
    requires language != "" && Text.NoSpace(language)
    ensures DecodeQuery(BuildQuery("", language)) == Some(("", language))
  {
    var word := LanguagePrefix + language;
    var before := PopularQualifier + " " + word;
    assert BuildQuery("", language) == before + " " + StarsFloorQualifier;
    Text.SplitLastOf(before, StarsFloorQualifier);
    LanguageWord(language);
    assert before != PopularQualifier;
    Text.SplitLastOf(PopularQualifier, word);
  }

  lemma SearchRoundTrip(search: string)
    requires search != ""
    ensures DecodeQuery(BuildQuery(search, "")) == Some((search, ""))
  {
    Text.SplitLastOf(search, NameDescriptionQualifier);
  }

  lemma SearchLanguageRoundTrip(search: string, language: string)
    requires search != "" && language != "" && Text.NoSpace(language)
    ensures DecodeQuery(BuildQuery(search, language)) == Some((search, language))
  {
    var word := LanguagePrefix + language;
    var before := search + " " + NameDescriptionQualifier;
    assert BuildQuery(search, language) == before + " " + word;
    LanguageWord(language);
    Text.SplitLastOf(before, word);
    assert word != StarsFloorQualifier && word != NameDescriptionQualifier;
    Text.SplitLastOf(search, NameDescriptionQualifier);
  }

  /** The qualifier string determines the search text and the language, for
      any language name that is a single word. */
  lemma QueryRoundTrip(search: string, language: string)
    ensures Text.NoSpace(language) ==> DecodeQuery(BuildQuery(search, language)) == Some((search, language))
  {
    if Text.NoSpace(language) {
      if search == "" && language == "" {
        PopularRoundTrip();
      } else if search == "" {
        PopularLanguageRoundTrip(language);
      } else if language == "" {
        SearchRoundTrip(search);
      } else {
        SearchLanguageRoundTrip(search, language);
      }
    }
  }

  /** The search request sent upstream. */
  datatype SearchRequest = SearchRequest(query: string, sort: string, order: string, perPage: int, page: string)

  /** The request for a set of parameters: twelve results per page, in descending order. */
  function RequestFor(p: QueryParams): (r: SearchRequest)
    ensures r.query == BuildQuery(ResolveParams(p).search, ResolveParams(p).language)
    ensures r.perPage == PerPage && r.order == Order
    ensures r.sort == ResolveParams(p).sort && r.page == ResolveParams(p).page
    ensures Text.NoSpace(ResolveParams(p).language) ==>
              DecodeQuery(r.query) == Some((ResolveParams(p).search, ResolveParams(p).language))
  {
    var f := ResolveParams(p);
    QueryRoundTrip(f.search, f.language);
    SearchRequest(BuildQuery(f.search, f.language), f.sort, Order, PerPage, f.page)
  }

  datatype RepoOwner = RepoOwner(login: string, avatarUrl: string)

  /** One repository record of the upstream search result. */
  datatype RepoItem = RepoItem(
    id: int,
    name: string,
    description: Option<string>,
    stargazersCount: int,
    language: Option<string>,
    owner: Option<RepoOwner>,
    pushedAt: Option<string>,
    htmlUrl: string,
    forksCount: int,
    openIssuesCount: int)

  datatype SearchPage = SearchPage(items: seq<RepoItem>, totalCount: int)

  function OwnerLogin(item: RepoItem): (r: Option<string>) {
    match item.owner
    case None => None
    case Some(o) => Some(o.login)
  }

  function OwnerAvatar(item: RepoItem): (r: Option<string>) {
    match item.owner
    case None => None
    case Some(o) => Some(o.avatarUrl)
  }

  /** A repository record as a project; `now` is the current instant as an ISO
      8601 string, used when the record has no push time. */
  function ToProject(item: RepoItem, now: string): (p: Project)
    ensures p.id == Decimal.IntToString(item.id)
    ensures Decimal.ParseInt(p.id) == Some(item.id)
    ensures p.name == item.name && p.stars == item.stargazersCount
    ensures p.url == Some(item.htmlUrl) && p.forks == Some(item.forksCount) && p.openIssues == Some(item.openIssuesCount)
    ensures p.description != ""
    ensures Truthy(item.description) ==> p.description == item.description.value
    ensures !Truthy(item.description) ==> p.description == "No description"
    ensures p.language != ""
    ensures Truthy(item.language) ==> p.language == item.language.value
    ensures !Truthy(item.language) ==> p.language == "Unknown"
    ensures p.owner != ""
    ensures item.owner.Some? && item.owner.value.login != "" ==> p.owner == item.owner.value.login
    ensures item.owner.None? || item.owner.value.login == "" ==> p.owner == "Unknown"
    ensures item.owner.Some? ==> p.ownerAvatarUrl == item.owner.value.avatarUrl
    ensures item.owner.None? ==> p.ownerAvatarUrl == ""
    ensures Truthy(item.pushedAt) ==> p.lastCommitDate == item.pushedAt.value
    ensures !Truthy(item.pushedAt) ==> p.lastCommitDate == now
  {
    Decimal.IntRoundTrip(item.id);
    Project(
      Decimal.IntToString(item.id),
      item.name,
      Or(item.description, "No description"),
      item.stargazersCount,
      Or(item.language, "Unknown"),
      Or(OwnerLogin(item), "Unknown"),
      Or(OwnerAvatar(item), ""),
      Or(item.pushedAt, now),
      Some(item.htmlUrl),
      Some(item.forksCount),
      Some(item.openIssuesCount))
  }

  /** Every record of the page as a project, in the same order. */
  function MapItems(items: seq<RepoItem>, now: string): (ps: seq<Project>)
    ensures |ps| == |items|
    ensures forall i :: 0 <= i < |items| ==> ps[i] == ToProject(items[i], now)
  {
    if |items| == 0 then []
    else [ToProject(items[0], now)] + MapItems(items[1..], now)
  }

  /** Mapping commutes with concatenation: each record's project depends on that record alone. */
  lemma MapItemsAppend(a: seq<RepoItem>, b: seq<RepoItem>, now: string)
    ensures MapItems(a + b, now) == MapItems(a, now) + MapItems(b, now)
  {
  }

  /** The endpoint's reply: the projects and the upstream total, or a failure. */
  datatype Response = Listed(projects: seq<Project>, total: int) | Failure(status: int, message: string)

  /** The handler. `upstream` answers a search request with a page of records,
      or with None when the call throws. */
  function Get(p: QueryParams, upstream: SearchRequest -> Option<SearchPage>, now: string): (r: Response)
    ensures r.Failure? <==> upstream(RequestFor(p)).None?
    ensures r.Failure? ==> r.status == FailureStatus && r.message == FailureMessage
    ensures r.Listed? ==>
              var page := upstream(RequestFor(p)).value;
              && r.total == page.totalCount
              && |r.projects| == |page.items|
              && forall i :: 0 <= i < |page.items| ==> r.projects[i] == ToProject(page.items[i], now)
  {
    match upstream(RequestFor(p))
    case None => Failure(FailureStatus, FailureMessage)
    case Some(page) => Listed(MapItems(page.items, now), page.totalCount)
  }
}
