# GitHub follow script: a verified model of its decision layer

The script logs in to the GitHub REST API with a token. It samples up to ten of
the account's followers and collects the accounts one hop away: who those
followers follow and who follows them. It drops the account itself and everyone
it already follows or is followed by. It scores each remaining account with a
fixed rule and follows the accepted ones, one at a time, up to a daily cap.

This project models the decision and bookkeeping layer of `src/main.py` in Dafny:

- `Classifier` is the response classifier (`handle_api_response`). It turns a
  status and a body into a returned value or one of the three exception kinds
  (`GitHubAPIError`, `RateLimitError`, `AuthenticationError`).
- `GithubApi` holds the accessors. Each one swallows failures and returns a
  plain value. It also holds the bounded pagination of the account's own
  follower and following lists, and `follow_user`.
- `Scoring` is `is_good_follow_candidate`. The checks run in the source's order,
  and the verdict records which check decided.
- `Discovery` is `find_potential_follows`. It builds the candidate set and scans
  it in any order, keeping accepted handles up to the cap.
- `Driver` is the body of `main`: the quota check, then discovery, then the
  follow loop with its counters.
- `Values` holds decoded JSON. Python truthiness (`if not x`) and
  `isinstance(x, int)` are written out explicitly, because the source's checks
  depend on them.

No call reaches the network. Every request is an input of type `Fetch`: either a
delivered `Response(status, text, body)` or `NetworkFailure`. The paginated
endpoints are functions from page number to `Fetch`. Per-user endpoints are
functions from handle to `Fetch`. Three other effects are also inputs: the
clock arithmetic of `get_user_activity` (`age`), the positions `random.sample`
picks (`draw`), and what happens while following each candidate (`attempt`).
The candidate set is scanned with Dafny's `:|` choice. So every property of
`SelectCandidates` holds for any enumeration order of the Python set.

## Behaviour of the code worth knowing

- `follow_user` returns `result is True`. A 200 reply whose body is the JSON
  value `true` decodes to Python's `True`. So that reply also counts as
  followed, not only a 204. `GithubApi.FollowUser` states this.
- Every read accessor catches `Exception`, and that includes `RateLimitError`
  and `AuthenticationError`. So discovery never raises. The handlers for these
  errors around discovery in `main` (src/main.py:413-424) cannot fire, and the
  model has no such branch. A rate limit during discovery shows up as empty
  lists and missing profiles.
- The cap check comes after the append (src/main.py:368-371). So a cap of 0
  would still keep one candidate (`Discovery.EffectiveCap`). The shipped cap
  is 200.
- `isinstance(True, int)` holds in Python, so a JSON boolean passes the
  integer test as 0 or 1 (`Scoring.CountTypesScenario`).
- An unreadable rate-limit reply bypasses the quota floor (src/main.py:403-408).
  A transport failure, an error status, a 404, or a document whose lookups or
  reset conversion raise all let the run go on, even when
  little or no quota is left (`Driver.UnreadableQuotaScenarios`).
- The paginator stops after 100 pages. This happens even when page 100 was
  full, and page 100's logins are kept.

## Model

| member | source | states |
|---|---|---|
| `Classifier.Classify` | src/main.py:62-83 | Per status: 200, 204 and 404 return (the body, `True`, `None`) and every other status raises. A raised error carries the original status and body text. It is an authentication error exactly on 401, and a rate-limit error exactly on a 403 whose lower-cased body has "rate limit" at some position. Every other error is generic. |
| `Classifier.Contains` | src/main.py:72 | The left-to-right substring search is true exactly when the needle occurs at some position. |
| `Classifier.RateLimitTestIgnoresCase` | src/main.py:72 | Two bodies that agree up to letter case get the same rate-limit verdict. |
| `Classifier.RateLimitBodyScenario` | tests/test_error_handling.py:51-61 | A 403 with body "API rate limit exceeded" is a rate-limit error with message "GitHub API rate limit exceeded", status 403 and the body kept. |
| `Classifier.UpperCaseRateLimitScenario` | src/main.py:71-74 | A 403 whose body says "RATE LIMIT" is a rate-limit error too. |
| `Classifier.ForbiddenScenario` | tests/test_error_handling.py:63-73 | A 403 that does not mention rate limiting is a generic "Access forbidden" error with status 403 and the body kept. |
| `Classifier.LowerConcat` | src/main.py:72 | Lower-casing distributes over concatenation. |
| `Classifier.OccursBetween` | src/main.py:72 | A phrase placed between two strings occurs right after the first. |
| `Classifier.NoLetterLNoRateLimit` | src/main.py:72 | A body with no letter "l" in either case never counts as mentioning a rate limit. |
| `GithubApi.LoginsOf` | src/main.py:147 | The login comprehension succeeds exactly when every record is an object with a string login. It then yields one login per record, in record order. |
| `GithubApi.PageLogins` | src/main.py:143-147 | A page extends the list only if it was a delivered 200 whose body is a non-empty array. It then extends it with the records' logins (`LoginsOf`), one per record and in record order. Conversely, every such page whose records all have string logins extends the list. |
| `GithubApi.SinglePage` | src/main.py:190-224 | A single-page lookup returns a page's logins exactly when the pagination step would extend with them. It returns `[]` on a transport failure or any non-200 status. The paginated list is built from the same per-page extraction. |
| `GithubApi.UserInfo` | src/main.py:85-109 | The user lookup returns the decoded body exactly on 200, `True` exactly on 204, and `None` on a transport failure (and on every raised error). |
| `GithubApi.UserActivity` | src/main.py:111-132 | A recency is known only for a delivered 200 whose body is a non-empty array, where the first event has a string `created_at`. The recency is then that timestamp's age. Conversely, every such reply yields that age. Every other case is unknown. |
| `GithubApi.FollowUser` | src/main.py:226-246 | A follow succeeds exactly on 204, or on 200 with body `true`. It raises exactly on 401, or on 403 mentioning a rate limit, and then re-raises the classifier's error unchanged. Every other outcome, transport failures included, is `false`. |
| `GithubApi.StopPage` | src/main.py:139-153 | The stop page lies between the start page and 100. Every earlier page extended the list, and a stop page below 100 did not. |
| `GithubApi.StopPageIs` | src/main.py:139-153 | The stop page is the first non-extending page, or 100 if pages run that far. |
| `GithubApi.FetchAllPages` | src/main.py:134-188 | The loop requests exactly `PagesRequested` pages. It returns exactly the concatenated logins of the pages that extended the list. |
| `GithubApi.StopsAtFirstEmptyPage` | tests/test_full_coverage.py:93-101 | N pages of logins and then an empty page (N < 100) give N + 1 requests, and the logins of pages 1..N in order. |
| `GithubApi.StopsAtPageCap` | tests/test_full_coverage.py:116-129 | A source that never runs dry is requested exactly 100 times, and all 100 pages are kept. |
| `GithubApi.OneLoginPerPage` | tests/test_full_coverage.py:116-129 | With one login per page, the list holds one handle per page. |
| `GithubApi.KeepsPagesBeforeFailure` | src/main.py:155-160 | A transport failure or an error status at page j ends the run there. The logins of pages 1..j-1 are kept. |
| `GithubApi.CollectedPrefix` | src/main.py:147 | The accumulated list only grows: pages 1..m give a prefix of pages 1..n. |
| `Scoring.Thresholds` | src/main.py:272-297 | Each rejection reason holds exactly when every earlier check passed and its own check failed: following > 1000, then followers < 5, then followers > 1000, then a known recency > 60, then 5·following ≥ 6·followers. |
| `Scoring.Evaluate` | src/main.py:250-270 | A falsy profile is rejected as missing. Acceptance needs an object profile. An object lacking either count is rejected. |
| `Scoring.RatioAsIntegers` | src/main.py:293-297 | For a positive follower count, following/followers ≥ 1.2 exactly when 5·following ≥ 6·followers. |
| `Scoring.ScoreUser` | src/main.py:248-304 | `is_good_follow_candidate(username)` over the profile and events requests. An accepted handle had a delivered 200 profile whose body is an object, and a recency that is unknown or at most 60 days. A failed events request scores exactly as an unknown recency. Conversely, a handle is accepted exactly when its profile is a delivered 200 object with two integer counts within the bounds, its recency is not known to exceed 60 days, and 5·following < 6·followers. |
| `Scoring.AcceptIff` | src/main.py:248-304 | A candidate is accepted exactly when the profile is an object with two integer counts within the bounds, the recency is not known to exceed 60 days, and 5·following < 6·followers. |
| `Scoring.MalformedProfileRejects` | src/main.py:251-270 | A missing profile, a non-object, a missing count or a non-integer count is rejected, whatever the activity. |
| `Scoring.UnknownActivityDoesNotReject` | src/main.py:283-290 | An unknown recency never rejects as inactive. It behaves exactly like an account active within the threshold. |
| `Scoring.FailedActivityLookupContinues` | tests/test_error_handling.py:181-193 | A failed events lookup is treated as unknown, so evaluation goes on to the ratio check. |
| `Scoring.ZeroFollowersNeverReachRatio` | src/main.py:275-277 | With zero followers the lower bound rejects, before any quotient is formed. |
| `Scoring.AcceptScenario` | tests/test_main.py:199-209 | 400 following, 500 followers, active 30 days ago: accepted. |
| `Scoring.BadRatioScenario` | tests/test_main.py:271-281 | 1000 following, 400 followers: rejected by the ratio. |
| `Scoring.TooManyFollowingScenario` | tests/test_main.py:211-220 | 1500 following, 400 followers: rejected by the following bound. |
| `Scoring.ExactThresholdScenario` | src/main.py:295 | A quotient of exactly 1.2 is rejected. |
| `Scoring.CountTypesScenario` | src/main.py:268 | A count given as a string is rejected, while a boolean count passes as an integer. |
| `Discovery.MyLogin` | src/main.py:310-318 | A login is found only in a truthy object reply, and it is that reply's truthy "login" member. Conversely, a decoded object whose "login" member is truthy always yields that member. |
| `Discovery.SampleOf` | src/main.py:331 | The sample has min(10, len) entries, each taken from a drawn position of the follower list. |
| `Discovery.FilteredMembers` | src/main.py:337-339 | A handle is kept from a fetched list exactly when it is on that list and eligible. |
| `Discovery.HopUnionMembers` | src/main.py:334-353 | A handle is one hop away exactly when it is eligible and on the fetched list of some sampled follower. |
| `Discovery.CandidatesExcludeKnownAccounts` | src/main.py:338 | No candidate is the account's own login, one of its followers or an account it follows. |
| `Discovery.NoFollowersNoCandidates` | src/main.py:331 | An empty sample discovers nobody. |
| `Discovery.AddEligible` | src/main.py:337-339 | The inner loop adds exactly the eligible handles of one list. |
| `Discovery.AddHops` | src/main.py:334-342 | One strategy's loop adds exactly the eligible handles one hop away in its direction. |
| `Discovery.CollectCandidates` | src/main.py:327-353 | After both strategies, the set is exactly the candidate set. |
| `Discovery.SelectCandidates` | src/main.py:358-374 | For any scan order, the result is distinct accepted members of the set, at most the cap. It holds every accepted member unless the cap was reached. |
| `Discovery.CapOfOne` | tests/test_full_coverage.py:242-256 | With a cap of one and some acceptable candidate, exactly one candidate is kept. |
| `Discovery.FindPotentialFollows` | src/main.py:306-381 | With no login, the result is empty. Otherwise the result is a selection, as above, from the candidate set built from the fetched lists and the sample. |
| `Driver.StepOf` | src/main.py:441-472 | A candidate counts as followed exactly when its follow succeeded. The loop aborts exactly on an interrupt or a re-raised rate-limit or authentication error. It stops as rate-limited exactly on a re-raised rate-limit error, and as interrupted exactly on an interrupt. An unexpected exception counts as a failure. |
| `Driver.FirstAbort` | src/main.py:438-472 | The first aborting position: every earlier candidate was processed. It equals the number of candidates exactly when no candidate aborts. |
| `Driver.CountSteps` | src/main.py:443-448 | The number of candidates with a given effect (followed, or failed) is at most the number of candidates. |
| `Driver.CountStepsExtremes` | src/main.py:443-448 | The count equals the number of candidates exactly when every candidate has that effect, and is 0 exactly when none has. |
| `Driver.StepsPartition` | src/main.py:441-472 | Before the first abort each candidate is counted exactly once, as followed or as failed. |
| `Driver.FollowLoop` | src/main.py:435-472 | followed + failed is the first aborting position, so it equals the number of candidates when nothing aborts. followed counts the successes before that position and failed counts the failures (a false result or an unexpected exception). The stop reason is that of the aborting candidate. It is completed exactly when every candidate was processed. |
| `Driver.QuotaRemaining` | src/main.py:389-408 | A remaining count is read exactly from a delivered 200 whose document has `resources.core.remaining` and a numeric `resources.core.reset`. It is then that remaining value as a number; when that value is not a number, or for every other reply, the check is skipped. |
| `Driver.QuotaTooLow` | src/main.py:393-402 | The run stops before discovery exactly when a delivered 200 document has a numeric reset and a numeric remaining count below 100. |
| `Driver.LowQuotaScenario` | tests/test_full_coverage.py:281-289 | A rate-limit document with 50 remaining stops the run. |
| `Driver.AmpleQuotaScenario` | src/main.py:399 | A rate-limit document with 500 remaining does not stop the run. |
| `Driver.UnreadableQuotaScenarios` | src/main.py:403-408 | An unconvertible reset, a transport failure and a 404 never stop the run. |
| `Driver.RunFollowProcess` | src/main.py:383-472 | The run stops before discovery exactly when the rate-limit reply is a readable 200 document (`QuotaTooLow`) whose remaining count is a number below 100. Otherwise the candidates are discovery's result, an empty result ends the run, and the loop's followed and failed counts obey FollowLoop's contract and never exceed the daily cap of 200. |

## Left out

- HTTP transport, headers, timeouts and URLs: replaced by `Fetch` inputs.
- Token loading and the missing-token error at start-up: configuration, not behaviour.
- Logging and console output, including the progress counter `evaluated_count`, which only feeds a log line.
- Date parsing and clock arithmetic in `get_user_activity`: the input `age` returns the day count, or unknown when the timestamp does not parse.
- Randomness: `random.sample` is the input `draw`, constrained to min(10, len) distinct positions. The random sleep between follows is a no-op and is not counted.
- Python's `str.lower()` is modelled on ASCII letters only. No other character lowers to give a "rate limit" match that ASCII lowering misses. The dotted capital I lowers to two characters, so it cannot form one.
- Scoring.Thresholds: the source divides two integers in floating point. The model uses the exact quotient. With 5 to 1000 followers and at most 1000 following, this agrees with the float comparison. The OverflowError Python raises for a following count below about −1.8·10^308 times the follower count (which rejects the candidate) is not modelled.
- GithubApi.LoginsOf: a record whose "login" is not a JSON string is treated like a malformed record. Python would carry that value along.
- A 200 reply whose body is not JSON: the model takes every delivered body as decoded. In the source, that case raises and is swallowed like any other error.
- Driver.QuotaRemaining: a numeric reset timestamp outside the platform's range, which makes `datetime.fromtimestamp` raise and skips the check, is not modelled.
- Driver.StepOf: an interrupt is modelled as arriving before the candidate's follow request. An interrupt during the sleep, after the counter was updated, is left out. So is an interrupt outside the follow loop (main's outer handler).
- The per-follower `except` clauses in discovery and the `except` around the activity lookup in scoring: the functions they guard never raise, so these handlers have no effect in the model.
- Follow idempotence (a second follow of the same account also answers 204): a property of the remote service, not of the script.
