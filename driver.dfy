/**
 * The body of main (src/main.py): one rate-limit query that can end the run
 * before discovery, discovery, and the sequential follow loop with its
 * success and failure counters.
 */
module Driver {
  import opened Wrappers
  import opened Values
  import opened Classifier
  import opened GithubApi
  import opened Discovery

  /** Below this many remaining requests the run stops before discovery. */
  const QuotaFloor: int := 100

  /** What happens when the loop processes one candidate. */
  datatype Attempt =
    | Responded(put: Fetch)   // follow_user issued its PUT and got this
    | Crashed                 // some other exception escaped the loop body
    | Interrupted             // KeyboardInterrupt while processing the candidate

  /** Why the follow loop ended. */
  datatype Stop = Completed | RateLimited | AuthFailed | UserInterrupt

  /** The effect of one candidate on the loop. */
  datatype Step = Followed | NotFollowed | Abort(stop: Stop)

  function StepOf(a: Attempt): (s: Step)
    ensures s == Followed <==> a.Responded? && FollowUser(a.put) == Ok(true)
    ensures s.Abort? <==> a.Interrupted? || (a.Responded? && FollowUser(a.put).Err?)
    ensures s.Abort? ==> s.stop != Completed
    ensures s == Abort(RateLimited) <==> a.Responded? && FollowUser(a.put).Err? && FollowUser(a.put).error.kind == RateLimit
    ensures s == Abort(UserInterrupt) <==> a.Interrupted?
  {
    match a
    case Responded(put) =>
      (match FollowUser(put)
       case Ok(success) => if success then Followed else NotFollowed
       case Err(e) => Abort(if e.kind == RateLimit then RateLimited else AuthFailed))
    case Crashed => NotFollowed
    case Interrupted => Abort(UserInterrupt)
  }

  /** The position of the first candidate that aborts the loop, or the number of candidates if none does. */
  function FirstAbort(candidates: seq<string>, attempt: string -> Attempt): (r: nat)
    ensures r <= |candidates|
    ensures forall i :: 0 <= i < r ==> !StepOf(attempt(candidates[i])).Abort?
    ensures r < |candidates| ==> StepOf(attempt(candidates[r])).Abort?
    ensures r == |candidates| <==> forall i :: 0 <= i < |candidates| ==> !StepOf(attempt(candidates[i])).Abort?
  {
    if candidates == [] then 0
    else if StepOf(attempt(candidates[0])).Abort? then 0
    else
      var rest := FirstAbort(candidates[1..], attempt);
      assert forall i :: 1 <= i < |candidates| ==> candidates[i] == candidates[1..][i - 1];
      1 + rest
  }

  /** How many of the candidates have the given effect on the loop. */
  function CountSteps(candidates: seq<string>, attempt: string -> Attempt, step: Step): (r: nat)
    ensures r <= |candidates|
  {
    if candidates == [] then 0
    else
      CountSteps(candidates[..|candidates| - 1], attempt, step)
      + (if StepOf(attempt(candidates[|candidates| - 1])) == step then 1 else 0)
  }

  /** The count reaches the number of candidates exactly when every one has that effect, and is 0 exactly when none has. */
  lemma {:induction false} CountStepsExtremes(candidates: seq<string>, attempt: string -> Attempt, step: Step)
    ensures CountSteps(candidates, attempt, step) == |candidates|
            <==> forall i :: 0 <= i < |candidates| ==> StepOf(attempt(candidates[i])) == step
    ensures CountSteps(candidates, attempt, step) == 0
            <==> forall i :: 0 <= i < |candidates| ==> StepOf(attempt(candidates[i])) != step
  {
    if candidates != [] {
      var init := candidates[..|candidates| - 1];
      assert forall i :: 0 <= i < |init| ==> init[i] == candidates[i];
      CountStepsExtremes(init, attempt, step);
    }
  }

  /** Before the first abort every candidate is counted exactly once, as followed or as failed. */
  lemma {:induction false} StepsPartition(candidates: seq<string>, attempt: string -> Attempt)
    requires forall i :: 0 <= i < |candidates| ==> !StepOf(attempt(candidates[i])).Abort?
    ensures CountSteps(candidates, attempt, Followed) + CountSteps(candidates, attempt, NotFollowed) == |candidates|
  {
    if candidates != [] {
      var init := candidates[..|candidates| - 1];
      assert forall i :: 0 <= i < |init| ==> init[i] == candidates[i];
      StepsPartition(init, attempt);
    }
  }

  /**
   * The follow loop of main: follow each candidate in order, counting
   * successes and failures (a swallowed failure or an unexpected exception
   * both count as failed); a rate-limit error, an authentication error or an
   * interrupt stops the loop and keeps the counts reached.
   */
  method FollowLoop(candidates: seq<string>, attempt: string -> Attempt)
    returns (followed: nat, failed: nat, stop: Stop)
    ensures followed + failed == FirstAbort(candidates, attempt)
    ensures followed == CountSteps(candidates[..followed + failed], attempt, Followed)
    ensures failed == CountSteps(candidates[..followed + failed], attempt, NotFollowed)
    ensures stop == if followed + failed < |candidates|
                    then StepOf(attempt(candidates[followed + failed])).stop
                    else Completed
    ensures stop == Completed <==> followed + failed == |candidates|
  {
    followed, failed, stop := 0, 0, Completed;
    var i := 0;
    while i < |candidates|
      invariant i == followed + failed <= |candidates|
      invariant forall j :: 0 <= j < i ==> !StepOf(attempt(candidates[j])).Abort?
      invariant followed == CountSteps(candidates[..i], attempt, Followed)
      invariant failed == CountSteps(candidates[..i], attempt, NotFollowed)
    {
      var step := StepOf(attempt(candidates[i]));
      ghost var next := candidates[..i + 1];
      assert next[..i] == candidates[..i] && next[i] == candidates[i];
      if step.Abort? {
        stop := step.stop;
        break;
      } else if step == Followed {
        followed := followed + 1;
      } else {
        failed := failed + 1;
      }
      i := i + 1;
    }
  }

  /** `doc['resources']['core'][key]`, when every lookup on the way succeeds. */
  function CoreField(doc: Json, key: string): Option<Json> {
    match Member(doc, "resources")
    case None => None
    case Some(resources) =>
      match Member(resources, "core")
      case None => None
      case Some(core) => Member(core, key)
  }

  /**
   * The rate-limit document is readable: it holds a remaining count and a reset
   * timestamp Python can convert (an int, a bool or a float).
   */
  predicate QuotaReadable(doc: Json) {
    CoreField(doc, "remaining").Some? && CoreField(doc, "reset").Some?
    && AsNumber(CoreField(doc, "reset").value).Some?
  }

  /**
   * The remaining request count, when the rate-limit check reads one. `None`
   * when the check is skipped: a transport failure, an error status, a falsy
   * reply, or a document the lookups or the timestamp conversion raise on.
   */
  function QuotaRemaining(f: Fetch): (r: Option<real>)
    ensures r.Some? ==> f.Delivered? && f.response.status == 200 && QuotaReadable(f.response.body)
    ensures f.Delivered? && f.response.status == 200 && QuotaReadable(f.response.body)
            ==> r == AsNumber(CoreField(f.response.body, "remaining").value)
  {
    if f.NetworkFailure? then None
    else
      match Classify(f.response)
      case Err(_) => None
      case Ok(data) =>
        if !TruthyReply(data) || !data.Decoded? then None
        else
          var resources := Member(data.json, "resources");
          var core := if resources.Some? then Member(resources.value, "core") else None;
          if core.None? then None
          else
            var remaining, reset := Member(core.value, "remaining"), Member(core.value, "reset");
            if remaining.None? || reset.None? || AsNumber(reset.value).None? then None
            else AsNumber(remaining.value)
  }

  /** The rate-limit check ends the run: a readable document whose remaining count is a number below 100. */
  predicate QuotaTooLow(f: Fetch): (r: bool)
    ensures r <==> f.Delivered? && f.response.status == 200 && QuotaReadable(f.response.body)
                   && AsNumber(CoreField(f.response.body, "remaining").value).Some?
                   && AsNumber(CoreField(f.response.body, "remaining").value).value < QuotaFloor as real
  {
    var remaining := QuotaRemaining(f);
    remaining.Some? && remaining.value < QuotaFloor as real
  }

  /** A rate-limit document with the given remaining and reset values. */
  function RateLimitDocument(remaining: Json, reset: Json): Response {
    Response(200, "", JObject(map["resources" := JObject(map["core" := JObject(map["remaining" := remaining, "reset" := reset])])]))
  }

  /** 50 remaining requests stop the run. */
  lemma LowQuotaScenario()
    ensures QuotaTooLow(Delivered(RateLimitDocument(JInt(50), JInt(1700000000))))
  {
  }

  /** 500 remaining requests let the run go on. */
  lemma AmpleQuotaScenario()
    ensures !QuotaTooLow(Delivered(RateLimitDocument(JInt(500), JInt(1700000000))))
  {
  }

  /** A check that cannot be read never stops the run: an unconvertible reset, a transport failure, a 404. */
  lemma UnreadableQuotaScenarios()
    ensures !QuotaTooLow(Delivered(RateLimitDocument(JInt(50), JString("soon"))))
    ensures !QuotaTooLow(NetworkFailure)
    ensures !QuotaTooLow(Delivered(Response(404, "", JNull)))
  {
  }

  datatype Report =
    | LowQuota(remaining: real)
    | NoCandidates
    | Finished(followed: nat, failed: nat, stop: Stop)

  /** main: check the quota, discover candidates, follow them. `candidates` is what discovery returned. */
  method RunFollowProcess(rateLimit: Fetch, gh: Github, attempt: string -> Attempt)
    returns (candidates: seq<string>, report: Report)
    requires ValidDraw(gh.draw(Paginated(gh.followerPages)), |Paginated(gh.followerPages)|)
    ensures report.LowQuota? <==> QuotaTooLow(rateLimit)
    ensures report.LowQuota? ==> candidates == [] && report.remaining == QuotaRemaining(rateLimit).value
    ensures !report.LowQuota? && MyLogin(UserInfo(gh.myInfo)).None? ==> candidates == []
    ensures !report.LowQuota? && MyLogin(UserInfo(gh.myInfo)).Some? ==>
              Selected(candidates, Discovered(gh, MyLogin(UserInfo(gh.myInfo)).value), Scorer(gh), MaxFollowsPerDay)
    ensures report.NoCandidates? <==> !QuotaTooLow(rateLimit) && candidates == []
    ensures report.Finished? ==>
              report.followed + report.failed == FirstAbort(candidates, attempt)
              && report.followed == CountSteps(candidates[..report.followed + report.failed], attempt, Followed)
              && report.failed == CountSteps(candidates[..report.followed + report.failed], attempt, NotFollowed)
              && (report.stop == Completed <==> report.followed + report.failed == |candidates|)
    ensures report.Finished? ==> report.followed + report.failed <= MaxFollowsPerDay
  {
    if QuotaTooLow(rateLimit) {
      return [], LowQuota(QuotaRemaining(rateLimit).value);
    }
    candidates := FindPotentialFollows(gh, MaxFollowsPerDay);
    if candidates == [] {
      return candidates, NoCandidates;
    }
    var followed, failed, stop := FollowLoop(candidates, attempt);
    report := Finished(followed, failed, stop);
  }
}
