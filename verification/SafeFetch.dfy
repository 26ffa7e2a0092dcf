/** What one fetch does, whatever it meets: a loop over redirects, with one fallback to http. */
module SafeFetch {
  import opened Basics
  import opened OriginSemaphore

  /** `rest` is everything after the origin. */
  datatype Url = Url(protocol: string, host: string, rest: string)

  function OriginOf(u: Url): Origin { u.protocol + "//" + u.host }

  /** As far as the loop reads it; "" is falsy in the two optional fields. */
  datatype Artifact = Artifact(status: int, errorCode: Option<string>, location: Option<string>)

  predicate Truthy(o: Option<string>) { o.Some? && o.value != "" }

  /** `validateRedirect`: the next address, or a throw. */
  type Redirect = (Url, string) -> Option<Url>

  const FALLBACK_ERRORS := {"network_error", "connection_reset", "dns_error", "fetch_timeout"}

  const REDIRECT_LIMIT: nat := 5

  datatype Next = Again(url: Url, redirects: nat, usedFallback: bool) | Return(artifact: Artifact) | Throw

  predicate FallsBack(schemeWasMissing: bool, url: Url, redirects: nat, usedFallback: bool, a: Artifact) {
    schemeWasMissing && !usedFallback && redirects == 0 && url.protocol == "https:" && Truthy(a.errorCode) && a.errorCode.value in FALLBACK_ERRORS
  }

  /** The end of one turn of the loop, once an artifact is in hand. */
  function Decide(schemeWasMissing: bool, url: Url, redirects: nat, usedFallback: bool, a: Artifact, validate: Redirect): Next {
    if FallsBack(schemeWasMissing, url, redirects, usedFallback, a) then Again(url.(protocol := "http:"), redirects, true)
    else if a.status < 300 || a.status >= 400 || !Truthy(a.location) then Return(a)
    else if redirects >= REDIRECT_LIMIT then Return(a.(errorCode := Some("redirect_limit_exceeded")))
    else match validate(url, a.location.value)
      case None => Throw
      case Some(next) => Again(next, redirects + 1, usedFallback)
  }

  /** What is left of a fetch: redirects still to follow, and the one fallback. */
  function Budgeted(redirects: nat, usedFallback: bool): int { REDIRECT_LIMIT - redirects + if usedFallback then 0 else 1 }

  /** The loop goes on only to the http twin, once and before any redirect, or to where the policy
      sent an answer that redirects, five times at most; it throws exactly where the policy does,
      and an artifact comes back as it was unless one redirect too many is asked for. */
  lemma DecideMeans(schemeWasMissing: bool, url: Url, redirects: nat, usedFallback: bool, a: Artifact, validate: Redirect)
    requires redirects <= REDIRECT_LIMIT
    ensures match Decide(schemeWasMissing, url, redirects, usedFallback, a, validate)
            case Again(next, redirects', usedFallback') =>
              && redirects' <= REDIRECT_LIMIT && 0 <= Budgeted(redirects', usedFallback') < Budgeted(redirects, usedFallback)
              && (usedFallback ==> usedFallback')
              && (|| (redirects' == redirects == 0 && !usedFallback && usedFallback' && url.protocol == "https:" && next == url.(protocol := "http:"))
                  || (redirects' == redirects + 1 && usedFallback' == usedFallback && a.location.Some? && validate(url, a.location.value) == Some(next)))
            case Throw => a.location.Some? && 300 <= a.status < 400 && redirects < REDIRECT_LIMIT && validate(url, a.location.value).None?
            case Return(r) => r == a || (r.errorCode == Some("redirect_limit_exceeded") && redirects == REDIRECT_LIMIT && r == a.(errorCode := r.errorCode))
  {
  }

  // ---------------------------------------------------------------------------------------
  // From one turn on.

  /** What the world does in one turn; `reply` is None where the transport throws. */
  datatype Turn = Turn(aborted: bool, resolves: bool, reply: Option<Artifact>)

  /** Whether the permit a turn asks for at an origin ever comes, or the wait is aborted. */
  type Permits = (nat, Origin) -> bool

  datatype Outcome = Returned(artifact: Artifact) | AbortError | BudgetExhausted | OtherError

  datatype Sent = Sent(outcome: Outcome, urls: seq<Url>, count: nat)

  /** From one turn on: how it ends, the requests it sends, and the budget count it leaves. */
  function FetchFrom(world: nat -> Turn, permits: Permits, validate: Redirect, schemeWasMissing: bool, maximum: nat,
                     turn: nat, url: Url, redirects: nat, usedFallback: bool, count: nat): Sent
    requires redirects <= REDIRECT_LIMIT
    decreases Budgeted(redirects, usedFallback)
  {
    var w := world(turn);
    if w.aborted then Sent(AbortError, [], count)
    else if count >= maximum then Sent(BudgetExhausted, [], count)
    else if !w.resolves then Sent(OtherError, [], count + 1)
    else if !permits(turn, OriginOf(url)) then Sent(AbortError, [], count + 1)
    else match w.reply
      case None => Sent(OtherError, [url], count + 1)
      case Some(a) =>
        match Decide(schemeWasMissing, url, redirects, usedFallback, a, validate)
        case Return(r) => Sent(Returned(r), [url], count + 1)
        case Throw => Sent(OtherError, [url], count + 1)
        case Again(next, redirects', usedFallback') =>
          var rest := FetchFrom(world, permits, validate, schemeWasMissing, maximum, turn + 1, next, redirects', usedFallback', count + 1);
          rest.(urls := [url] + rest.urls)
  }

  /** Where a request may go after another: to the http twin of the first, once, or to what
      the redirect policy made of the answer. */
  ghost predicate MayFollow(world: nat -> Turn, validate: Redirect, schemeWasMissing: bool, k: nat, from: Url, to: Url) {
    && world(k).reply.Some?
    && var a := world(k).reply.value;
    || (k == 0 && schemeWasMissing && from.protocol == "https:" && to == from.(protocol := "http:"))
    || (a.location.Some? && 300 <= a.status < 400 && validate(from, a.location.value) == Some(to))
  }

  lemma {:induction false} FetchFromCounts(world: nat -> Turn, permits: Permits, validate: Redirect, schemeWasMissing: bool, maximum: nat,
                                           turn: nat, url: Url, redirects: nat, usedFallback: bool, count: nat)
    requires redirects <= REDIRECT_LIMIT
    ensures var r := FetchFrom(world, permits, validate, schemeWasMissing, maximum, turn, url, redirects, usedFallback, count);
            && |r.urls| <= REDIRECT_LIMIT - redirects + 1 + (if schemeWasMissing && !usedFallback && redirects == 0 then 1 else 0)
            && count + |r.urls| <= r.count <= count + |r.urls| + 1
            && (count <= maximum ==> r.count <= maximum)
            && (r.urls != [] ==> r.urls[0] == url)
    decreases Budgeted(redirects, usedFallback)
  {
    var w := world(turn);
    if !w.aborted && count < maximum && w.resolves && permits(turn, OriginOf(url)) && w.reply.Some? {
      match Decide(schemeWasMissing, url, redirects, usedFallback, w.reply.value, validate)
      case Again(next, redirects', usedFallback') =>
        FetchFromCounts(world, permits, validate, schemeWasMissing, maximum, turn + 1, next, redirects', usedFallback', count + 1);
      case _ =>
    }
  }

  ghost predicate EachMayFollow(world: nat -> Turn, validate: Redirect, schemeWasMissing: bool, turn: nat, urls: seq<Url>) {
    forall n :: 0 <= n < |urls| - 1 ==> MayFollow(world, validate, schemeWasMissing, turn + n, urls[n], urls[n + 1])
  }

  lemma FollowsOn(world: nat -> Turn, validate: Redirect, schemeWasMissing: bool, turn: nat, url: Url, rest: seq<Url>)
    requires EachMayFollow(world, validate, schemeWasMissing, turn + 1, rest)
    requires rest != [] ==> MayFollow(world, validate, schemeWasMissing, turn, url, rest[0])
    ensures EachMayFollow(world, validate, schemeWasMissing, turn, [url] + rest)
  {
    var all := [url] + rest;
    forall n | 0 <= n < |all| - 1 ensures MayFollow(world, validate, schemeWasMissing, turn + n, all[n], all[n + 1]) {
      if n > 0 { assert all[n] == rest[n - 1] && all[n + 1] == rest[n] && turn + n == turn + 1 + (n - 1); }
    }
  }

  lemma {:induction false} FetchFromFollows(world: nat -> Turn, permits: Permits, validate: Redirect, schemeWasMissing: bool, maximum: nat,
                                            turn: nat, url: Url, redirects: nat, usedFallback: bool, count: nat)
    requires redirects <= REDIRECT_LIMIT && (redirects == 0 && !usedFallback ==> turn == 0)
    ensures EachMayFollow(world, validate, schemeWasMissing, turn,
                          FetchFrom(world, permits, validate, schemeWasMissing, maximum, turn, url, redirects, usedFallback, count).urls)
    decreases Budgeted(redirects, usedFallback)
  {
    var w := world(turn);
    if !w.aborted && count < maximum && w.resolves && permits(turn, OriginOf(url)) && w.reply.Some? {
      match Decide(schemeWasMissing, url, redirects, usedFallback, w.reply.value, validate)
      case Again(next, redirects', usedFallback') =>
        var rest := FetchFrom(world, permits, validate, schemeWasMissing, maximum, turn + 1, next, redirects', usedFallback', count + 1);
        FetchFromFollows(world, permits, validate, schemeWasMissing, maximum, turn + 1, next, redirects', usedFallback', count + 1);
        FetchFromCounts(world, permits, validate, schemeWasMissing, maximum, turn + 1, next, redirects', usedFallback', count + 1);
        FollowsOn(world, validate, schemeWasMissing, turn, url, rest.urls);
      case _ =>
    }
  }

  /** Whatever the network does: at most seven requests, six where the address named its
      scheme; each one paid for; never past the budget; and none to an address that is neither
      the one asked for, its http twin, nor one the redirect policy allowed. */
  lemma FetchSendsAtMostSeven(world: nat -> Turn, permits: Permits, validate: Redirect, schemeWasMissing: bool, maximum: nat, input: Url, count: nat)
    ensures var r := FetchFrom(world, permits, validate, schemeWasMissing, maximum, 0, input, 0, false, count);
            && |r.urls| <= (if schemeWasMissing then 7 else 6)
            && count + |r.urls| <= r.count <= count + |r.urls| + 1
            && (count <= maximum ==> r.count <= maximum)
            && (r.urls != [] ==> r.urls[0] == input)
            && EachMayFollow(world, validate, schemeWasMissing, 0, r.urls)
  {
    FetchFromFollows(world, permits, validate, schemeWasMissing, maximum, 0, input, 0, false, count);
    FetchFromCounts(world, permits, validate, schemeWasMissing, maximum, 0, input, 0, false, count);
  }

  /** Seven is reached: a first answer that fails, then a shop that redirects for ever. */
  lemma {:induction false} RedirectingForEver(world: nat -> Turn, permits: Permits, validate: Redirect, schemeWasMissing: bool, maximum: nat,
                                              turn: nat, url: Url, redirects: nat, usedFallback: bool, count: nat, a: Artifact)
    requires redirects <= REDIRECT_LIMIT && count + REDIRECT_LIMIT + 1 - redirects <= maximum
    requires forall k: nat :: turn <= k ==> world(k) == Turn(false, true, Some(a)) && forall o :: permits(k, o)
    requires a.errorCode.None? && 300 <= a.status < 400 && Truthy(a.location)
    requires forall u :: validate(u, a.location.value).Some?
    ensures var r := FetchFrom(world, permits, validate, schemeWasMissing, maximum, turn, url, redirects, usedFallback, count);
            |r.urls| == REDIRECT_LIMIT + 1 - redirects && r.outcome == Returned(a.(errorCode := Some("redirect_limit_exceeded")))
    decreases REDIRECT_LIMIT - redirects
  {
    if redirects < REDIRECT_LIMIT {
      var next := validate(url, a.location.value).value;
      RedirectingForEver(world, permits, validate, schemeWasMissing, maximum, turn + 1, next, redirects + 1, usedFallback, count + 1, a);
    }
  }

  lemma SevenIsReached(host: string, rest: string, maximum: nat)
    returns (world: nat -> Turn, permits: Permits, validate: Redirect)
    requires maximum >= 7
    ensures |FetchFrom(world, permits, validate, true, maximum, 0, Url("https:", host, rest), 0, false, 0).urls| == 7
  {
    var away := Artifact(301, None, Some("/"));
    world := (k: nat) => Turn(false, true, Some(if k == 0 then Artifact(0, Some("network_error"), None) else away));
    permits := (k: nat, o: Origin) => true;
    validate := (u: Url, l: string) => Some(u);
    RedirectingForEver(world, permits, validate, true, maximum, 1, Url("http:", host, rest), 0, true, 1, away);
  }
}
