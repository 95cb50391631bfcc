/**
 * find_potential_follows (src/main.py): sample the authenticated account's
 * followers, union the handles one hop away into a candidate set (excluding
 * the account itself and everyone it already follows or is followed by), then
 * scan that set in an arbitrary order keeping accepted handles up to a daily cap.
 */
module Discovery {
  import opened Wrappers
  import opened Values
  import opened Classifier
  import opened GithubApi
  import opened Scoring

  const MaxFollowsPerDay: nat := 200
  /** The number of followers random.sample draws at most. */
  const SampleSize: nat := 10

  /** The requests discovery issues, each as the response (or failure) it gets. */
  datatype Github = Github(
    myInfo: Fetch,                       // GET /user
    followerPages: nat -> Fetch,         // GET /user/followers?page=p
    followingPages: nat -> Fetch,        // GET /user/following?page=p
    followingOf: string -> Fetch,        // GET /users/{u}/following
    followersOf: string -> Fetch,        // GET /users/{u}/followers
    profileOf: string -> Fetch,          // GET /users/{u}
    eventsOf: string -> Fetch,           // GET /users/{u}/events/public
    age: string -> Option<int>,          // days since a "created_at" stamp, by the clock
    draw: seq<string> -> seq<nat>)       // the positions random.sample picks from a list

  /** The authenticated account as discovery sees it. */
  datatype Account = Account(login: Json, followers: seq<string>, following: seq<string>)

  /** `user != my_username and user not in my_following and user not in my_followers`. */
  predicate Eligible(u: string, acct: Account) {
    JString(u) != acct.login && u !in acct.following && u !in acct.followers
  }

  /** `my_info.get('login')`, when it is truthy; `None` also when the value has no `.get`. */
  function MyLogin(info: Reply): (r: Option<Json>)
    ensures r.Some? ==> info.Decoded? && Member(info.json, "login") == r && Truthy(r.value)
    ensures r.Some? ==> TruthyReply(info)
    ensures info.Decoded? && Member(info.json, "login").Some? && Truthy(Member(info.json, "login").value)
            ==> r == Member(info.json, "login")
  {
    if info.Decoded? && info.json.JObject? && "login" in info.json.fields && Truthy(info.json.fields["login"]) then
      Some(info.json.fields["login"])
    else
      None
  }

  /** What random.sample(list, min(10, len(list))) may pick: that many distinct positions of the list. */
  predicate ValidDraw(positions: seq<nat>, n: nat) {
    |positions| == (if n < SampleSize then n else SampleSize)
    && (forall i :: 0 <= i < |positions| ==> positions[i] < n)
    && (forall i, j :: 0 <= i < j < |positions| ==> positions[i] != positions[j])
  }

  function SampleOf(list: seq<string>, positions: seq<nat>): (r: seq<string>)
    requires ValidDraw(positions, |list|)
    ensures |r| == (if |list| < SampleSize then |list| else SampleSize)
    ensures forall i :: 0 <= i < |r| ==> r[i] == list[positions[i]]
  {
    seq(|positions|, i requires 0 <= i < |positions| => list[positions[i]])
  }

  /** The eligible handles among `users`. */
  function Filtered(users: seq<string>, acct: Account): set<string> {
    if users == [] then {}
    else
      var last := users[|users| - 1];
      Filtered(users[..|users| - 1], acct) + (if Eligible(last, acct) then {last} else {})
  }

  lemma {:induction false} FilteredMembers(users: seq<string>, acct: Account, u: string)
    ensures u in Filtered(users, acct) <==> u in users && Eligible(u, acct)
  {
    if users != [] {
      var front := users[..|users| - 1];
      assert u in users <==> u in front || u == users[|users| - 1];
      FilteredMembers(front, acct, u);
    }
  }

  /** The eligible handles on the fetched list of any sampled follower. */
  function HopUnion(sample: seq<string>, hop: string -> seq<string>, acct: Account): set<string> {
    if sample == [] then {}
    else HopUnion(sample[..|sample| - 1], hop, acct) + Filtered(hop(sample[|sample| - 1]), acct)
  }

  /** A handle is one hop away exactly when it is eligible and on the fetched page of some sampled follower. */
  lemma {:induction false} HopUnionMembers(sample: seq<string>, hop: string -> seq<string>, acct: Account, u: string)
    ensures u in HopUnion(sample, hop, acct) <==>
              Eligible(u, acct) && exists k :: 0 <= k < |sample| && u in hop(sample[k])
  {
    if sample != [] {
      var front, last := sample[..|sample| - 1], sample[|sample| - 1];
      HopUnionMembers(front, hop, acct, u);
      FilteredMembers(hop(last), acct, u);
      assert forall k :: 0 <= k < |front| ==> front[k] == sample[k];
      if exists k :: 0 <= k < |sample| && u in hop(sample[k]) {
        var k :| 0 <= k < |sample| && u in hop(sample[k]);
        if k < |front| {
          assert u in hop(front[k]);
        }
      }
    }
  }

  /** The candidate set: one hop forward (who the sample follows) and one hop backward (who follows them). */
  function CandidateSet(acct: Account, sample: seq<string>, forward: string -> seq<string>, backward: string -> seq<string>): set<string> {
    HopUnion(sample, forward, acct) + HopUnion(sample, backward, acct)
  }

  /** The candidate set never holds the account's own handle, a follower or a followed account. */
  lemma CandidatesExcludeKnownAccounts(acct: Account, sample: seq<string>, forward: string -> seq<string>, backward: string -> seq<string>, u: string)
    requires u in CandidateSet(acct, sample, forward, backward)
    ensures JString(u) != acct.login && u !in acct.followers && u !in acct.following
  {
    HopUnionMembers(sample, forward, acct, u);
    HopUnionMembers(sample, backward, acct, u);
  }

  /** An empty sample (an account with no followers) discovers nobody. */
  lemma NoFollowersNoCandidates(acct: Account, forward: string -> seq<string>, backward: string -> seq<string>)
    ensures CandidateSet(acct, [], forward, backward) == {}
  {
  }

  /** The inner loop of a strategy: add the eligible handles of one fetched list. */
  method AddEligible(potential: set<string>, users: seq<string>, acct: Account) returns (result: set<string>)
    ensures result == potential + Filtered(users, acct)
  {
    result := potential;
    var j := 0;
    while j < |users|
      invariant 0 <= j <= |users|
      invariant result == potential + Filtered(users[..j], acct)
    {
      var u := users[j];
      if Eligible(u, acct) {
        result := result + {u};
      }
      assert users[..j + 1][..j] == users[..j];
      j := j + 1;
    }
    assert users[..j] == users;
  }

  /** One strategy's outer loop: for every sampled follower, add the eligible handles of one of their lists. */
  method AddHops(potential: set<string>, acct: Account, sample: seq<string>, hop: string -> seq<string>)
    returns (result: set<string>)
    ensures result == potential + HopUnion(sample, hop, acct)
  {
    result := potential;
    var i := 0;
    while i < |sample|
      invariant 0 <= i <= |sample|
      invariant result == potential + HopUnion(sample[..i], hop, acct)
    {
      result := AddEligible(result, hop(sample[i]), acct);
      assert sample[..i + 1][..i] == sample[..i];
      i := i + 1;
    }
    assert sample[..i] == sample;
  }

  /** Both strategies, in the source's order: following of the sample, then followers of the sample. */
  method CollectCandidates(acct: Account, sample: seq<string>, forward: string -> seq<string>, backward: string -> seq<string>)
    returns (potential: set<string>)
    ensures potential == CandidateSet(acct, sample, forward, backward)
  {
    potential := AddHops({}, acct, sample, forward);
    potential := AddHops(potential, acct, sample, backward);
  }

  /** The cap as the loop applies it: it checks the length after appending, so a cap of 0 still keeps one. */
  function EffectiveCap(cap: nat): nat {
    if cap == 0 then 1 else cap
  }

  predicate NoDuplicates(s: seq<string>) {
    forall i, j :: 0 <= i < j < |s| ==> s[i] != s[j]
  }

  /**
   * What the evaluation loop guarantees of its result, for any enumeration
   * order of the candidate set: distinct accepted candidates, at most the cap,
   * and every accepted candidate unless the cap was reached.
   */
  predicate Selected(good: seq<string>, potential: set<string>, accept: string -> bool, cap: nat) {
    NoDuplicates(good)
    && (forall i :: 0 <= i < |good| ==> good[i] in potential && accept(good[i]))
    && |good| <= EffectiveCap(cap)
    && (|good| < EffectiveCap(cap) ==> forall u :: u in potential && accept(u) ==> u in good)
  }

  /** The evaluation loop: take candidates in any order and keep the accepted ones, stopping at the cap. */
  method SelectCandidates(potential: set<string>, accept: string -> bool, cap: nat) returns (good: seq<string>)
    ensures Selected(good, potential, accept, cap)
  {
    good := [];
    var remaining := potential;
    while remaining != {}
      invariant remaining <= potential
      invariant NoDuplicates(good)
      invariant forall i :: 0 <= i < |good| ==> good[i] in potential - remaining && accept(good[i])
      invariant forall u :: u in potential - remaining && accept(u) ==> u in good
      invariant |good| < EffectiveCap(cap)
      decreases remaining
    {
      var u :| u in remaining;
      remaining := remaining - {u};
      if accept(u) {
        good := good + [u];
        if |good| >= cap {
          return;
        }
      }
    }
  }

  /** With a cap of one, exactly one candidate is kept as soon as any is acceptable. */
  lemma CapOfOne(good: seq<string>, potential: set<string>, accept: string -> bool, u: string)
    requires Selected(good, potential, accept, 1)
    requires u in potential && accept(u)
    ensures |good| == 1
  {
  }

  /** The authenticated account, once its login is known and its two lists are fetched. */
  function AccountOf(gh: Github, login: Json): Account {
    Account(login, Paginated(gh.followerPages), Paginated(gh.followingPages))
  }

  /** The followers random.sample picks: none when there are no followers. */
  function SampleFor(gh: Github): seq<string>
    requires ValidDraw(gh.draw(Paginated(gh.followerPages)), |Paginated(gh.followerPages)|)
  {
    var followers := Paginated(gh.followerPages);
    if |followers| > 0 then SampleOf(followers, gh.draw(followers)) else []
  }

  /** get_user_following over the sampled followers: who each of them follows. */
  function Forward(gh: Github): string -> seq<string> {
    u => SinglePage(gh.followingOf(u))
  }

  /** get_user_followers over the sampled followers: who follows each of them. */
  function Backward(gh: Github): string -> seq<string> {
    u => SinglePage(gh.followersOf(u))
  }

  /** The candidate set discovery builds for the authenticated login. */
  function Discovered(gh: Github, login: Json): set<string>
    requires ValidDraw(gh.draw(Paginated(gh.followerPages)), |Paginated(gh.followerPages)|)
  {
    CandidateSet(AccountOf(gh, login), SampleFor(gh), Forward(gh), Backward(gh))
  }

  /** is_good_follow_candidate over the environment's hops. */
  function Scorer(gh: Github): string -> bool {
    u => ScoreUser(gh.profileOf(u), gh.eventsOf(u), gh.age)
  }

  /** find_potential_follows. */
  method FindPotentialFollows(gh: Github, cap: nat) returns (good: seq<string>)
    requires ValidDraw(gh.draw(Paginated(gh.followerPages)), |Paginated(gh.followerPages)|)
    ensures MyLogin(UserInfo(gh.myInfo)).None? ==> good == []
    ensures MyLogin(UserInfo(gh.myInfo)).Some? ==>
              Selected(good, Discovered(gh, MyLogin(UserInfo(gh.myInfo)).value), Scorer(gh), cap)
  {
    var myInfo := UserInfo(gh.myInfo);
    if !TruthyReply(myInfo) {
      return [];
    }
    var myLogin := MyLogin(myInfo);
    if myLogin.None? {
      return [];
    }
    var myFollowers, _ := FetchAllPages(gh.followerPages);
    var myFollowing, _ := FetchAllPages(gh.followingPages);
    var sample := if |myFollowers| > 0 then SampleOf(myFollowers, gh.draw(myFollowers)) else [];
    assert sample == SampleFor(gh);
    var acct := Account(myLogin.value, myFollowers, myFollowing);
    assert acct == AccountOf(gh, myLogin.value);
    var potential := CollectCandidates(acct, sample, Forward(gh), Backward(gh));
    assert potential == Discovered(gh, myLogin.value);
    good := SelectCandidates(potential, Scorer(gh), cap);
  }
}
