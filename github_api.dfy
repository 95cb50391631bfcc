/**
 * The accessors of src/main.py: every function that issues one request (or,
 * for the authenticated user's own lists, a bounded run of page requests) and
 * turns the classified response into a plain value, swallowing failures.
 * Transport is abstract: each request is a `Fetch` supplied by the caller.
 */
module GithubApi {
  import opened Wrappers
  import opened Values
  import opened Classifier

  /** The safety cap on page requests for the authenticated user's own lists. */
  const MaxPages: nat := 100

  /** A record of a followers/following page: an object whose "login" is a string. */
  predicate HasLogin(j: Json) {
    Member(j, "login").Some? && Member(j, "login").value.JString?
  }

  function LoginOf(j: Json): string
    requires HasLogin(j)
  {
    Member(j, "login").value.s
  }

  /** `[record['login'] for record in items]`; `None` when some record has no string login (the comprehension raises). */
  function LoginsOf(items: seq<Json>): (r: Option<seq<string>>)
    ensures r.Some? <==> forall i :: 0 <= i < |items| ==> HasLogin(items[i])
    ensures r.Some? ==> |r.value| == |items| && forall i :: 0 <= i < |items| ==> r.value[i] == LoginOf(items[i])
  {
    if items == [] then Some([])
    else if !HasLogin(items[0]) then None
    else
      match LoginsOf(items[1..])
      case None => None
      case Some(rest) => Some([LoginOf(items[0])] + rest)
  }

  /** The logins of a returned page, or `None` when iterating it raises (it is not a list of login records). */
  function ListOfLogins(v: Reply): Option<seq<string>> {
    if v.Decoded? && v.json.JArray? then LoginsOf(v.json.items) else None
  }

  /**
   * One page of the authenticated user's followers or following, as the
   * pagination loop sees it: `Some(logins)` when the loop extends its list,
   * `None` when it stops, whether on a falsy page (`[]`, 404) or on an exception
   * (transport failure, error status, malformed records).
   */
  function PageLogins(f: Fetch): (r: Option<seq<string>>)
    ensures r.Some? ==> f.Delivered? && f.response.status == 200 && |r.value| > 0
    ensures r.Some? ==> f.response.body.JArray? && |r.value| == |f.response.body.items|
    ensures r.Some? ==> r == LoginsOf(f.response.body.items)
    ensures (f.Delivered? && f.response.status == 200 && f.response.body.JArray? && |f.response.body.items| > 0
             && forall i :: 0 <= i < |f.response.body.items| ==> HasLogin(f.response.body.items[i])) ==> r.Some?
  {
    match f
    case NetworkFailure => None
    case Delivered(resp) =>
      match Classify(resp)
      case Err(_) => None
      case Ok(v) => if TruthyReply(v) then ListOfLogins(v) else None
  }

  /**
   * get_user_followers / get_user_following: one page of an arbitrary user's list,
   * `[]` on any failure. It is also what one page contributes to the paginated
   * list: its logins when the loop extends, `[]` when the page ends the loop.
   */
  function SinglePage(f: Fetch): (r: seq<string>)
    ensures r != [] ==> PageLogins(f) == Some(r)
    ensures PageLogins(f).Some? ==> r == PageLogins(f).value
    ensures f.NetworkFailure? || (f.Delivered? && f.response.status != 200) ==> r == []
  {
    match f
    case NetworkFailure => []
    case Delivered(resp) =>
      match Classify(resp)
      case Err(_) => []
      case Ok(v) =>
        if TruthyReply(v) then
          match ListOfLogins(v)
          case Some(logins) => logins
          case None => []
        else []
  }

  /** get_user_info / get_my_info: the classified value, or Python's `None` when the request or the classifier raises. */
  function UserInfo(f: Fetch): (r: Reply)
    ensures r.Decoded? <==> f.Delivered? && f.response.status == 200
    ensures r.Decoded? ==> r.json == f.response.body
    ensures r == NoContent <==> f.Delivered? && f.response.status == 204
    ensures f.NetworkFailure? ==> r == Nothing
  {
    match f
    case NetworkFailure => Nothing
    case Delivered(resp) =>
      match Classify(resp)
      case Err(_) => Nothing
      case Ok(v) => v
  }

  /**
   * get_user_activity: days since the newest public event. `age` stands for
   * parsing an event's "created_at" and subtracting it from the clock (`None`
   * when the text does not parse). Every failure reads as unknown (`None`).
   */
  function UserActivity(f: Fetch, age: string -> Option<int>): (r: Option<int>)
    ensures r.Some? ==> f.Delivered? && f.response.status == 200
    ensures r.Some? ==> var events := f.response.body;
              events.JArray? && |events.items| > 0
              && Member(events.items[0], "created_at").Some?
              && Member(events.items[0], "created_at").value.JString?
              && r == age(Member(events.items[0], "created_at").value.s)
    ensures (f.Delivered? && f.response.status == 200
             && f.response.body.JArray? && |f.response.body.items| > 0
             && Member(f.response.body.items[0], "created_at").Some?
             && Member(f.response.body.items[0], "created_at").value.JString?)
            ==> r == age(Member(f.response.body.items[0], "created_at").value.s)
  {
    match UserInfo(f)
    case Decoded(JArray(events)) =>
      if |events| > 0 then
        match Member(events[0], "created_at")
        case Some(JString(created)) => age(created)
        case _ => None
      else None
    case _ => None
  }

  /**
   * follow_user: `Ok(true)` when the PUT yields Python's `True`, `Ok(false)` on
   * every swallowed failure, and `Err` for the two exceptions it re-raises.
   */
  function FollowUser(f: Fetch): (r: Result<bool, ApiError>)
    ensures r == Ok(true) <==>
              f.Delivered? && (f.response.status == 204 || (f.response.status == 200 && f.response.body == JBool(true)))
    ensures r.Err? <==>
              f.Delivered? && (f.response.status == 401 || (f.response.status == 403 && MentionsRateLimit(f.response.text)))
    ensures r.Err? ==> r.error.kind != Generic && Classify(f.response) == Err(r.error)
  {
    match f
    case NetworkFailure => Ok(false)
    case Delivered(resp) =>
      match Classify(resp)
      case Ok(v) => Ok(IsTrue(v))
      case Err(e) => if e.kind == RateLimit || e.kind == Authentication then Err(e) else Ok(false)
  }

  // ---------------------------------------------------------------------------
  // Pagination of the authenticated user's followers and following

  /** The logins of pages 1..n, in page order. */
  function Collected(pages: nat -> Fetch, n: nat): seq<string> {
    if n == 0 then [] else Collected(pages, n - 1) + SinglePage(pages(n))
  }

  /** The page at which a run of requests starting at page `p` stops: the first page that does not extend the list, or the cap. */
  function StopPage(pages: nat -> Fetch, p: nat): (r: nat)
    requires 1 <= p <= MaxPages
    ensures p <= r <= MaxPages
    ensures forall q :: p <= q < r ==> PageLogins(pages(q)).Some?
    ensures r < MaxPages ==> PageLogins(pages(r)).None?
    decreases MaxPages - p
  {
    if p == MaxPages || PageLogins(pages(p)).None? then p else StopPage(pages, p + 1)
  }

  /** How many pages the pagination requests. */
  function PagesRequested(pages: nat -> Fetch): nat {
    StopPage(pages, 1)
  }

  /** How many leading pages contribute their logins. */
  function PagesKept(pages: nat -> Fetch): nat {
    var k := PagesRequested(pages);
    if PageLogins(pages(k)).Some? then k else k - 1
  }

  /** What get_my_followers / get_my_following return. */
  function Paginated(pages: nat -> Fetch): seq<string> {
    Collected(pages, PagesKept(pages))
  }

  /** The stop page is determined by the requested pages: it is the first non-extending page, or the cap. */
  lemma {:induction false} StopPageIs(pages: nat -> Fetch, p: nat, k: nat)
    requires 1 <= p <= k <= MaxPages
    requires forall q :: p <= q < k ==> PageLogins(pages(q)).Some?
    requires k == MaxPages || PageLogins(pages(k)).None?
    ensures StopPage(pages, p) == k
    decreases k - p
  {
    if p < k {
      StopPageIs(pages, p + 1, k);
    }
  }

  /**
   * get_my_followers / get_my_following: request pages 1, 2, ... and extend the
   * list with each page's logins, until a page is empty, missing or fails, or
   * 100 pages have been requested. What was gathered before a failure is kept.
   */
  method FetchAllPages(pages: nat -> Fetch) returns (handles: seq<string>, requests: nat)
    ensures requests == PagesRequested(pages)
    ensures handles == Paginated(pages)
  {
    handles := [];
    var page := 1;
    while true
      invariant 1 <= page <= MaxPages
      invariant forall q :: 1 <= q < page ==> PageLogins(pages(q)).Some?
      invariant handles == Collected(pages, page - 1)
      decreases MaxPages - page
    {
      var pageLogins := PageLogins(pages(page));
      if pageLogins.None? {
        break;
      }
      handles := handles + pageLogins.value;
      if page + 1 > MaxPages {
        break;
      }
      page := page + 1;
    }
    requests := page;
    StopPageIs(pages, 1, page);
  }

  /** N pages of logins followed by an empty page: exactly those N pages' logins, in order, after N + 1 requests. */
  lemma StopsAtFirstEmptyPage(pages: nat -> Fetch, n: nat)
    requires n < MaxPages
    requires forall q :: 1 <= q <= n ==> PageLogins(pages(q)).Some?
    requires PageLogins(pages(n + 1)).None?
    ensures PagesRequested(pages) == n + 1
    ensures Paginated(pages) == Collected(pages, n)
  {
    StopPageIs(pages, 1, n + 1);
  }

  /** A source that never runs dry is cut off after exactly 100 requests, keeping all 100 pages. */
  lemma StopsAtPageCap(pages: nat -> Fetch)
    requires forall q :: 1 <= q <= MaxPages ==> PageLogins(pages(q)).Some?
    ensures PagesRequested(pages) == MaxPages
    ensures Paginated(pages) == Collected(pages, MaxPages)
  {
    StopPageIs(pages, 1, MaxPages);
  }

  /** With one login per page, the collected list has one handle per page. */
  lemma {:induction false} OneLoginPerPage(pages: nat -> Fetch, n: nat)
    requires forall q :: 1 <= q <= n ==> PageLogins(pages(q)).Some? && |PageLogins(pages(q)).value| == 1
    ensures |Collected(pages, n)| == n
  {
    if n > 0 {
      OneLoginPerPage(pages, n - 1);
    }
  }

  /**
   * A transport failure or an error status at page j ends the pagination there
   * and keeps the logins of pages 1..j-1.
   */
  lemma KeepsPagesBeforeFailure(pages: nat -> Fetch, j: nat)
    requires 1 <= j <= MaxPages
    requires forall q :: 1 <= q < j ==> PageLogins(pages(q)).Some?
    requires pages(j).NetworkFailure? || Classify(pages(j).response).Err?
    ensures PagesRequested(pages) == j
    ensures Paginated(pages) == Collected(pages, j - 1)
  {
    StopPageIs(pages, 1, j);
  }

  /** The lists built by successive pages only grow: pages 1..m give a prefix of pages 1..n. */
  lemma {:induction false} CollectedPrefix(pages: nat -> Fetch, m: nat, n: nat)
    requires m <= n
    ensures Collected(pages, m) <= Collected(pages, n)
    decreases n - m
  {
    if m < n {
      CollectedPrefix(pages, m, n - 1);
    }
  }
}
