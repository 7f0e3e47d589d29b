// Particular runs: a call that nothing disturbs can do what the sequential client does, and runs that
// show where the bounds of the general results lie.
module Runs {
  import opened Wrappers
  import opened Service
  import opened Github
  import opened Handlers
  import opened Broker
  import opened Freshness

  /** The call stands at this progress, in a state that left all other calls of `s` alone. */
  ghost predicate StandsAt(s: State, s': State, c: CallId, p: Prepared, progress: Progress) {
    && c in s'.calls && s'.calls[c].prepared == p && s'.calls[c].progress == progress
    && (forall other :: other in s'.calls ==> other in s.calls || other == c)
    && forall other :: other in s.calls && other != c ==> other in s'.calls && s'.calls[other] == s.calls[other]
  }

  /** Deadlines are computed in time, and no call is ever dropped. */
  function Undropped(latency: nat): Environment {
    (s: State, step: Step) => Prompt(latency)(s, step) && !step.Drop?
  }

  ghost predicate From(server: AppState, latency: nat, from: State, s: State) {
    Reaches(server, Undropped(latency), from, s)
  }

  /** One step on, when the step is not one that `Undropped` restricts. */
  lemma Onward(server: AppState, latency: nat, from: State, s: State, step: Step) returns (s': State)
    requires From(server, latency, from, s) && Enabled(server, s, step) && !step.ReadDeadline? && !step.Drop?
    ensures s' == Apply(server, s, step) && From(server, latency, from, s')
  {
    assert Prompt(latency)(s, step);
    ReachesNext(server, Undropped(latency), from, s, step);
    s' := Apply(server, s, step);
  }

  /** From the token lookup's miss to the installation id. */
  lemma UndisturbedLookup(
    server: AppState, latency: nat, from: State, s: State, c: CallId, p: Prepared, directory: Directory)
    returns (s': State)
    requires From(server, latency, from, s) && StandsAt(s, s, c, p, Signed) && FirstLookup(p.target).Some?
    ensures From(server, latency, from, s') && s'.now == s.now && s'.posts == s.posts
    ensures var known := s.cache.FindId(p.app.name, p.target);
      var id := if known.Some? then known else Resolve(directory, p.app.appId, p.target);
      && s'.cache == (if known.Some? || id.None? then s.cache else s.cache.PutId(p.app.name, p.target, id.value))
      && c in s'.calls && StandsAt(s, s', c, p, s'.calls[c].progress)
      && (if id.Some? then s'.calls[c].progress == IdReady(id.value) else s'.calls[c].progress.Failed?)
  {
    s' := Onward(server, latency, from, s, LookUpId(c));
    if s.cache.FindId(p.app.name, p.target).None? {
      var lookup := FirstLookup(p.target).value;
      var reply := directory(p.app.appId, lookup);
      s' := Onward(server, latency, from, s', HearGithub(c, reply));
      if lookup.OrganizationLookup? && reply.NotFound? {
        s' := Onward(server, latency, from, s', HearGithub(c, directory(p.app.appId, UserLookup(lookup.owner))));
      }
      if s'.calls[c].progress.IdFetched? {
        s' := Onward(server, latency, from, s', StoreId(c));
      }
    }
  }

  /** From the answer of GitHub to the end of the call. */
  lemma UndisturbedStore(
    server: AppState, latency: nat, from: State, s: State, c: CallId, p: Prepared, token: InstallationToken,
    post: nat, writtenAt: Instant)
    returns (s': State)
    requires From(server, latency, from, s) && StandsAt(s, s, c, p, Minted(token, post))
    requires post < |s.posts| && s.posts[post].at == s.now <= writtenAt <= s.now + latency
    ensures From(server, latency, from, s') && s'.now == writtenAt && s'.posts == s.posts
    ensures StandsAt(s, s', c, p, Returned(token, None))
    ensures s'.cache == s.cache.PutToken(KeyOf(p), token, writtenAt + 3_000_000_000_000)
  {
    s' := Onward(server, latency, from, s, Tick(writtenAt - s.now));
    assert s'.calls == s.calls;
    s' := PromptStore(server, latency, from, s', c, p, token, post);
  }

  lemma PromptStore(
    server: AppState, latency: nat, from: State, s: State, c: CallId, p: Prepared, token: InstallationToken, post: nat)
    returns (s': State)
    requires From(server, latency, from, s) && StandsAt(s, s, c, p, Minted(token, post))
    requires post < |s.posts| && s.now <= s.posts[post].at + latency
    ensures From(server, latency, from, s') && s'.now == s.now && s'.posts == s.posts
    ensures StandsAt(s, s', c, p, Returned(token, None))
    ensures s'.cache == s.cache.PutToken(KeyOf(p), token, s.now + 3_000_000_000_000)
  {
    assert Prompt(latency)(s, ReadDeadline(c));
    ReachesNext(server, Undropped(latency), from, s, ReadDeadline(c));
    s' := Apply(server, s, ReadDeadline(c));
    s' := Onward(server, latency, from, s', StoreToken(c));
  }

  /** From the installation id to the end of the call. */
  lemma UndisturbedMint(
    server: AppState, latency: nat, from: State, s: State, c: CallId, p: Prepared, id: nat,
    answer: Option<InstallationToken>, writtenAt: Instant)
    returns (s': State)
    requires From(server, latency, from, s) && StandsAt(s, s, c, p, IdReady(id))
    requires BuildTokenRequest(p.scope, p.target).Some? && s.now <= writtenAt <= s.now + latency
    ensures From(server, latency, from, s')
    ensures var post := Post(p.app.appId, id, BuildTokenRequest(p.scope, p.target).value);
      s'.posts == s.posts + [Sent(c, s.now, KeyOf(p), post, answer)]
    ensures answer.None? ==> StandsAt(s, s', c, p, Failed(MintFailed)) && s'.cache == s.cache && s'.now == s.now
    ensures answer.Some? ==>
      && StandsAt(s, s', c, p, Returned(answer.value, None)) && s'.now == writtenAt
      && s'.cache == s.cache.PutToken(KeyOf(p), answer.value, writtenAt + 3_000_000_000_000)
  {
    s' := Onward(server, latency, from, s, SendPost(c, answer));
    if answer.Some? {
      s' := UndisturbedStore(server, latency, from, s', c, p, answer.value, |s.posts|, writtenAt);
    }
  }

  /** From the start of a call to the answer of the token cache. */
  lemma StartCall(server: AppState, latency: nat, from: State, s: State, c: CallId, request: HttpRequest)
    returns (s': State)
    requires From(server, latency, from, s) && c !in s.calls && Handle(server, request).Ok?
    ensures From(server, latency, from, s') && s'.cache == s.cache && s'.posts == s.posts && s'.now == s.now
    ensures var p := Handle(server, request).value;
      var hit := s.cache.FindToken(KeyOf(p), s.now);
      StandsAt(s, s', c, p, if hit.Some? then Returned(hit.value, Some(s.now)) else TokenMissed)
  {
    s' := Onward(server, latency, from, s, Begin(c, request));
    s' := Onward(server, latency, from, s', ReadClock(c));
    s' := Onward(server, latency, from, s', LookUpToken(c));
  }

  /** What a call leaves behind that came to this outcome. */
  ghost predicate CameTo(s: State, s': State, c: CallId, p: Prepared, around: Surroundings, outcome: Outcome) {
    && s'.cache == outcome.cache
    && c in s'.calls && StandsAt(s, s', c, p, s'.calls[c].progress) && !s'.calls[c].InFlight()
    && (outcome.token.Some? <==> s'.calls[c].progress.Returned?)
    && (outcome.token.Some? ==>
          s'.calls[c].progress
            == Returned(outcome.token.value, if outcome.post.Some? then None else Some(around.readAt)))
    && s'.now == (if outcome.token.Some? && outcome.post.Some? then around.writtenAt else s.now)
    && s'.posts == s.posts + (if outcome.post.None? then []
                              else [Sent(c, s.now, KeyOf(p), outcome.post.value, outcome.token)])
  }

  lemma MintedCall(
    server: AppState, latency: nat, from: State, s: State, c: CallId, p: Prepared, around: Surroundings, id: nat)
    returns (s': State)
    requires From(server, latency, from, s) && StandsAt(s, s, c, p, IdReady(id))
    requires BuildTokenRequest(p.scope, p.target).Some?
    requires around.readAt == s.now <= around.writtenAt <= s.now + latency
    ensures From(server, latency, from, s')
    ensures CameTo(s, s', c, p, around, MintAlone(s.cache, around, p.app, p.target, p.scope, id))
  {
    var post := Post(p.app.appId, id, BuildTokenRequest(p.scope, p.target).value);
    s' := UndisturbedMint(server, latency, from, s, c, p, id, around.mint(post), around.writtenAt);
  }

  /** What came after a call's lookup came after the start of the call. */
  lemma CameToSinceStart(
    s: State, looked: State, s': State, c: CallId, p: Prepared, around: Surroundings, outcome: Outcome)
    requires c in looked.calls && StandsAt(s, looked, c, p, looked.calls[c].progress)
    requires looked.now == s.now && looked.posts == s.posts
    requires CameTo(looked, s', c, p, around, outcome)
    ensures CameTo(s, s', c, p, around, outcome)
  {
  }

  /** From a miss of the token cache to the end of the call. */
  lemma MissedCall(
    server: AppState, latency: nat, from: State, s: State, c: CallId, p: Prepared, around: Surroundings)
    returns (s': State)
    requires From(server, latency, from, s) && StandsAt(s, s, c, p, TokenMissed)
    requires FirstLookup(p.target).Some? && BuildTokenRequest(p.scope, p.target).Some?
    requires around.readAt == s.now <= around.writtenAt <= s.now + latency
    requires s.cache.FindToken(KeyOf(p), around.readAt).None?
    ensures From(server, latency, from, s')
    ensures CameTo(s, s', c, p, around, CallAlone(s.cache, around, p.app, p.target, p.scope))
  {
    s' := Onward(server, latency, from, s, Sign(c, around.signs));
    if around.signs {
      s' := UndisturbedLookup(server, latency, from, s', c, p, around.directory);
      if s'.calls[c].progress.IdReady? {
        var looked, id := s', s'.calls[c].progress.id;
        s' := MintedCall(server, latency, from, looked, c, p, around, id);
        CameToSinceStart(s, looked, s', c, p, around, MintAlone(looked.cache, around, p.app, p.target, p.scope, id));
      }
    }
  }

  /** A call that nothing disturbs can have the outcome of the sequential client: same cache, same
      token, same post. */
  lemma UndisturbedCall(
    server: AppState, latency: nat, from: State, s: State, c: CallId, request: HttpRequest, around: Surroundings)
    returns (s': State)
    requires From(server, latency, from, s) && c !in s.calls && Handle(server, request).Ok?
    requires around.readAt == s.now <= around.writtenAt <= s.now + latency
    ensures From(server, latency, from, s')
    ensures var p := Handle(server, request).value;
      CameTo(s, s', c, p, around, CallAlone(s.cache, around, p.app, p.target, p.scope))
  {
    HandledRequestsAreMintable(server, request);
    var p := Handle(server, request).value;
    s' := StartCall(server, latency, from, s, c, request);
    if s.cache.FindToken(KeyOf(p), around.readAt).None? {
      s' := MissedCall(server, latency, from, s', c, p, around);
    }
  }

  /** GitHub as simple as can be: one installation, and this token for every request. */
  function Obliging(token: InstallationToken, readAt: Instant, writtenAt: Instant): Surroundings {
    Surroundings((_, _) => Found(1), _ => Some(token), true, readAt, writtenAt)
  }

  lemma ObligingOutcome(p: Prepared, token: InstallationToken, readAt: Instant, writtenAt: Instant)
    requires FirstLookup(p.target).Some? && BuildTokenRequest(p.scope, p.target).Some?
    ensures CallAlone(Cache(map[], map[]), Obliging(token, readAt, writtenAt), p.app, p.target, p.scope)
      == Outcome(Cache(map[IdKey(p.app.name, p.target) := 1],
                       map[KeyOf(p) := CachedToken(token, writtenAt + 3_000_000_000_000)]),
                 Some(token), Some(Post(p.app.appId, 1, BuildTokenRequest(p.scope, p.target).value)))
  {
  }

  /** An undisturbed call that finds neither a token nor an id mints at once. */
  lemma FirstCallMints(server: AppState, latency: nat, from: State, s: State, c: CallId, request: HttpRequest,
                       token: InstallationToken)
    returns (s': State)
    requires From(server, latency, from, s) && c !in s.calls && Handle(server, request).Ok?
    requires s.cache == Cache(map[], map[])
    ensures From(server, latency, from, s') && s'.now == s.now + latency
    ensures forall other :: other in s.calls ==> other in s'.calls && s'.calls[other] == s.calls[other]
    ensures forall other :: other in s'.calls ==> other in s.calls || other == c
    ensures var p := Handle(server, request).value;
      && s'.cache.tokens == map[KeyOf(p) := CachedToken(token, s.now + latency + 3_000_000_000_000)]
      && s'.cache.FindId(p.app.name, p.target) == Some(1)
      && |s'.posts| == |s.posts| + 1 && s'.posts[..|s.posts|] == s.posts
      && s'.posts[|s.posts|].key == KeyOf(p) && s'.posts[|s.posts|].at == s.now
      && s'.posts[|s.posts|].token == Some(token)
  {
    HandledRequestsAreMintable(server, request);
    ObligingOutcome(Handle(server, request).value, token, s.now, s.now + latency);
    s' := UndisturbedCall(server, latency, from, s, c, request, Obliging(token, s.now, s.now + latency));
  }

  /** The cache serves a token up to the last nanosecond before the deadline. */
  lemma ServedAtTheLastInstant(server: AppState, request: HttpRequest, token: InstallationToken, latency: nat)
    returns (s: State)
    requires Handle(server, request).Ok?
    ensures From(server, latency, Init(0), s) && 1 in s.calls
    ensures s.calls[1].Key() == KeyOf(Handle(server, request).value)
    ensures s.calls[1].progress == Returned(token, Some(latency + 3_000_000_000_000 - 1))
    ensures |s.posts| == 1 && s.posts[0].at == 0
  {
    ReachesItself(server, Undropped(latency), Init(0));
    s := FirstCallMints(server, latency, Init(0), Init(0), 0, request, token);
    s := Onward(server, latency, Init(0), s, Tick(3_000_000_000_000 - 1));
    s := StartCall(server, latency, Init(0), s, 1, request);
  }

  /** The bound on the lifetime cannot be lowered: with a shorter one, some run serves an expired
      token. */
  lemma ShortLivedTokenServedExpired(
    server: AppState, request: HttpRequest, token: InstallationToken, latency: nat, lifetime: nat)
    requires Handle(server, request).Ok? && lifetime < 3_000_000_000_000 + latency
    ensures exists s, c :: Reachable(server, Prompt(latency), s) && c in s.calls && !ServedUnexpired(s, c, lifetime)
  {
    var s := ServedAtTheLastInstant(server, request, token, latency);
    assert Reachable(server, Undropped(latency), s);
    WiderReachable(server, Undropped(latency), Prompt(latency), s);
    assert !ServedUnexpired(s, 1, lifetime);
  }

  /** Overlapping calls for one key can mint twice at one instant, although no call is dropped: the
      cache does not hold calls back while a mint for their key is under way. */
  lemma RacingCallsMintTwice(
    server: AppState, request: HttpRequest, token: InstallationToken, other: InstallationToken)
    requires Handle(server, request).Ok?
    ensures exists s ::
      Reachable(server, Undropped(0), s) && MintedTogether(s, 0, 1, KeyOf(Handle(server, request).value))
  {
    var from := Init(0);
    var p := Handle(server, request).value;
    ReachesItself(server, Undropped(0), from);
    HandledRequestsAreMintable(server, request);
    var s := StartCall(server, 0, from, from, 1, request);
    s := FirstCallMints(server, 0, from, s, 0, request, token);
    assert StandsAt(s, s, 1, p, TokenMissed);
    s := FinishAsSecond(server, from, s, 1, p, other);
    assert Reachable(server, Undropped(0), s);
  }

  /** A call that missed the token cache finds the id of another call, and mints all the same. */
  lemma FinishAsSecond(server: AppState, from: State, s: State, c: CallId, p: Prepared, token: InstallationToken)
    returns (s': State)
    requires From(server, 0, from, s) && StandsAt(s, s, c, p, TokenMissed)
    requires FirstLookup(p.target).Some? && BuildTokenRequest(p.scope, p.target).Some?
    requires s.cache.FindId(p.app.name, p.target).Some?
    ensures From(server, 0, from, s') && |s'.posts| == |s.posts| + 1 && s'.posts[..|s.posts|] == s.posts
    ensures var sent := s'.posts[|s.posts|]; sent.key == KeyOf(p) && sent.at == s.now && sent.token == Some(token)
  {
    s' := Onward(server, 0, from, s, Sign(c, true));
    s' := UndisturbedLookup(server, 0, from, s', c, p, (_, _) => Broken);
    s' := UndisturbedMint(server, 0, from, s', c, p, s'.calls[c].progress.id, Some(token), s'.now);
  }

  /** Two mints for this key at one instant. */
  ghost predicate MintedTogether(s: State, e: nat, f: nat, key: TokenKey) {
    && e < f < |s.posts| && s.posts[e].key == key && s.posts[f].key == key && s.posts[e].at == s.posts[f].at
    && s.posts[e].token.Some? && s.posts[f].token.Some?
  }

  /** Exactly how long tokens must live for the cache never to serve an expired one. */
  lemma LifetimeBoundIsExact(
    server: AppState, request: HttpRequest, token: InstallationToken, latency: nat, lifetime: nat)
    requires NamesOk(server) && Handle(server, request).Ok?
    ensures (forall s, c :: Reachable(server, Prompt(latency), s) && c in s.calls ==> ServedUnexpired(s, c, lifetime))
       <==> 3_000_000_000_000 + latency <= lifetime
  {
    if lifetime < 3_000_000_000_000 + latency {
      ShortLivedTokenServedExpired(server, request, token, latency, lifetime);
    } else {
      forall s, c | Reachable(server, Prompt(latency), s) && c in s.calls ensures ServedUnexpired(s, c, lifetime) {
        LongLivedTokensAreUnexpired(server, s, c, latency, lifetime);
      }
    }
  }
}
