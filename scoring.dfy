/**
 * is_good_follow_candidate (src/main.py): a chain of checks over a fetched
 * profile and the account's activity recency, returning reject at the first
 * failing check. The verdict records which check decided, in the order the
 * source applies them; the source itself returns only the boolean.
 */
module Scoring {
  import opened Wrappers
  import opened Values
  import opened Classifier
  import opened GithubApi

  const MaxFollowing: int := 1000
  const MinFollowers: int := 5
  const MaxFollowers: int := 1000
  const InactivityDays: int := 60
  /** The follow-ratio threshold. The source compares a float quotient; here the quotient is exact. */
  const FollowRatioThreshold: real := 1.2

  datatype Reason =
    | NoProfile         // the lookup gave nothing (None, an empty object, a failure)
    | NotAnObject       // a value that is not an object: the field test or the indexing raises
    | MissingField      // "following" or "followers" absent
    | NotInteger        // either count fails isinstance(..., int)
    | TooManyFollowing
    | TooFewFollowers
    | TooManyFollowers
    | Inactive
    | BadRatio

  datatype Verdict = Accept | Reject(reason: Reason)

  /** The threshold checks, once both counts are known integers. */
  function Thresholds(following: int, followers: int, activity: Option<int>): (v: Verdict)
    ensures v == Reject(TooManyFollowing) <==> following > MaxFollowing
    ensures v == Reject(TooFewFollowers) <==> following <= MaxFollowing && followers < MinFollowers
    ensures v == Reject(TooManyFollowers) <==>
              following <= MaxFollowing && MinFollowers <= followers && followers > MaxFollowers
    ensures v == Reject(Inactive) <==>
              following <= MaxFollowing && MinFollowers <= followers <= MaxFollowers
              && activity.Some? && activity.value > InactivityDays
    ensures v == Reject(BadRatio) <==>
              following <= MaxFollowing && MinFollowers <= followers <= MaxFollowers
              && !(activity.Some? && activity.value > InactivityDays)
              && 5 * following >= 6 * followers
    ensures v.Reject? ==> v.reason in {TooManyFollowing, TooFewFollowers, TooManyFollowers, Inactive, BadRatio}
  {
    if following > MaxFollowing then Reject(TooManyFollowing)
    else if followers < MinFollowers then Reject(TooFewFollowers)
    else if followers > MaxFollowers then Reject(TooManyFollowers)
    else if activity.Some? && activity.value != 0 && activity.value > InactivityDays then Reject(Inactive)
    else if followers > 0 && (following as real) / (followers as real) >= FollowRatioThreshold then
      RatioAsIntegers(following, followers);
      Reject(BadRatio)
    else
      RatioAsIntegers(following, followers);
      Accept
  }

  /** The whole rule over what get_user_info returned and what get_user_activity returned. */
  function Evaluate(info: Reply, activity: Option<int>): (v: Verdict)
    ensures !TruthyReply(info) ==> v == Reject(NoProfile)
    ensures v == Accept ==> info.Decoded? && info.json.JObject?
    ensures info.Decoded? && info.json.JObject? && ("following" !in info.json.fields || "followers" !in info.json.fields)
            ==> v.Reject?
  {
    if !TruthyReply(info) then Reject(NoProfile)
    else if !(info.Decoded? && info.json.JObject?) then Reject(NotAnObject)
    else
      var fields := info.json.fields;
      if "following" !in fields || "followers" !in fields then Reject(MissingField)
      else
        var following, followers := AsInt(fields["following"]), AsInt(fields["followers"]);
        if following.None? || followers.None? then Reject(NotInteger)
        else Thresholds(following.value, followers.value, activity)
  }

  predicate IsGoodFollowCandidate(info: Reply, activity: Option<int>) {
    Evaluate(info, activity) == Accept
  }

  /** is_good_follow_candidate for one handle, given the handle's profile and events requests. */
  predicate ScoreUser(profile: Fetch, events: Fetch, age: string -> Option<int>): (r: bool)
    ensures r ==> profile.Delivered? && profile.response.status == 200 && profile.response.body.JObject?
    ensures r ==> var activity := UserActivity(events, age); activity.None? || activity.value <= InactivityDays
    ensures events.NetworkFailure? || Classify(events.response).Err? ==>
              (r <==> IsGoodFollowCandidate(UserInfo(profile), None))
    ensures r <==>
              (profile.Delivered? && profile.response.status == 200
               && var doc, activity := profile.response.body, UserActivity(events, age);
                  doc.JObject? && "following" in doc.fields && "followers" in doc.fields
                  && AsInt(doc.fields["following"]).Some? && AsInt(doc.fields["followers"]).Some?
                  && var following, followers := AsInt(doc.fields["following"]).value, AsInt(doc.fields["followers"]).value;
                     following <= MaxFollowing && MinFollowers <= followers <= MaxFollowers
                     && !(activity.Some? && activity.value > InactivityDays)
                     && 5 * following < 6 * followers)
  {
    AcceptIff(UserInfo(profile), UserActivity(events, age));
    IsGoodFollowCandidate(UserInfo(profile), UserActivity(events, age))
  }

  /** Over counts of at least one follower, the exact quotient test is a comparison of integers. */
  lemma RatioAsIntegers(following: int, followers: int)
    ensures followers > 0 ==>
              ((following as real) / (followers as real) >= FollowRatioThreshold <==> 5 * following >= 6 * followers)
  {
    if followers > 0 {
      var q := (following as real) / (followers as real);
      assert q * (followers as real) == following as real;
      if q >= FollowRatioThreshold {
        assert q * (followers as real) >= 1.2 * (followers as real);
      } else {
        assert q * (followers as real) < 1.2 * (followers as real);
      }
    }
  }

  /** The profile a 200 from the users endpoint decodes to, cut down to the two counts. */
  function ProfileWith(following: Json, followers: Json): Reply {
    Decoded(JObject(map["following" := following, "followers" := followers]))
  }

  /** Acceptance exactly when the profile is well formed and every threshold is met. */
  lemma AcceptIff(info: Reply, activity: Option<int>)
    ensures IsGoodFollowCandidate(info, activity) <==>
              info.Decoded? && info.json.JObject?
              && "following" in info.json.fields && "followers" in info.json.fields
              && AsInt(info.json.fields["following"]).Some? && AsInt(info.json.fields["followers"]).Some?
              && var following, followers := AsInt(info.json.fields["following"]).value, AsInt(info.json.fields["followers"]).value;
                 following <= MaxFollowing && MinFollowers <= followers <= MaxFollowers
                 && !(activity.Some? && activity.value > InactivityDays)
                 && 5 * following < 6 * followers
  {
    if info.Decoded? && info.json.JObject? && |info.json.fields| > 0
       && "following" in info.json.fields && "followers" in info.json.fields
       && AsInt(info.json.fields["following"]).Some? && AsInt(info.json.fields["followers"]).Some? {
      var following, followers := AsInt(info.json.fields["following"]).value, AsInt(info.json.fields["followers"]).value;
      var v := Thresholds(following, followers, activity);
      assert v.Reject? ==> v.reason in {TooManyFollowing, TooFewFollowers, TooManyFollowers, Inactive, BadRatio};
    }
  }

  /** A missing profile, a missing count or a non-integer count is a reject, whatever the activity. */
  lemma MalformedProfileRejects(info: Reply, activity: Option<int>)
    requires info == Nothing
             || (info.Decoded? && !info.json.JObject?)
             || info == NoContent
             || (info.Decoded? && info.json.JObject?
                 && ("following" !in info.json.fields || "followers" !in info.json.fields
                     || AsInt(info.json.fields["following"]).None? || AsInt(info.json.fields["followers"]).None?))
    ensures !IsGoodFollowCandidate(info, activity)
  {
    AcceptIff(info, activity);
  }

  /** An unknown recency never rejects: it behaves exactly like an account active within the threshold. */
  lemma UnknownActivityDoesNotReject(info: Reply)
    ensures Evaluate(info, None) != Reject(Inactive)
    ensures Evaluate(info, None) == Evaluate(info, Some(InactivityDays))
  {
  }

  /** A failed events lookup reads as unknown, so evaluation continues to the ratio check. */
  lemma FailedActivityLookupContinues(info: Reply, events: Fetch, age: string -> Option<int>)
    requires events.NetworkFailure? || Classify(events.response).Err?
    ensures Evaluate(info, UserActivity(events, age)) == Evaluate(info, None)
  {
  }

  /** A profile with no followers is rejected by the lower bound, before any quotient is formed. */
  lemma ZeroFollowersNeverReachRatio(following: int, activity: Option<int>)
    requires following <= MaxFollowing
    ensures Thresholds(following, 0, activity) == Reject(TooFewFollowers)
  {
  }

  /** 400 following, 500 followers, active 30 days ago: accepted (ratio 0.8). */
  lemma AcceptScenario()
    ensures IsGoodFollowCandidate(ProfileWith(JInt(400), JInt(500)), Some(30))
  {
    RatioAsIntegers(400, 500);
  }

  /** 1000 following, 400 followers: rejected by the ratio (2.5). */
  lemma BadRatioScenario()
    ensures Evaluate(ProfileWith(JInt(1000), JInt(400)), None) == Reject(BadRatio)
  {
    RatioAsIntegers(1000, 400);
  }

  /** 1500 following, 400 followers: rejected by the following bound, before the ratio. */
  lemma TooManyFollowingScenario()
    ensures Evaluate(ProfileWith(JInt(1500), JInt(400)), Some(1)) == Reject(TooManyFollowing)
  {
  }

  /** A quotient of exactly 1.2 (6 following, 5 followers) is rejected. */
  lemma ExactThresholdScenario()
    ensures Evaluate(ProfileWith(JInt(6), JInt(5)), None) == Reject(BadRatio)
  {
    RatioAsIntegers(6, 5);
  }

  /** A count given as a string is rejected; a count given as `true` passes as the integer 1. */
  lemma CountTypesScenario()
    ensures Evaluate(ProfileWith(JString("400"), JInt(500)), None) == Reject(NotInteger)
    ensures Evaluate(ProfileWith(JBool(true), JInt(500)), None) == Accept
  {
    RatioAsIntegers(1, 500);
  }
}
