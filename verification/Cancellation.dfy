// What a call that is dropped between its mint and its insertion into the cache costs: its token is
// lost, and the spacing of mints with it, although no calls overlap. With the run of overlapping calls
// this gives the exact condition for spaced mints.
module Cancellation {
  import opened Wrappers
  import opened Service
  import opened Github
  import opened Handlers
  import opened Broker
  import opened Runs
  import opened Serial

  /** No call is in flight, and no token was ever stored. */
  ghost predicate Idle(server: AppState, s: State, key: TokenKey) {
    && Reachable(server, NoOverlap(server, key), s)
    && (forall c :: c in s.calls ==> !s.calls[c].InFlight())
    && s.cache.tokens == map[]
  }

  lemma Onward(server: AppState, s: State, step: Step, key: TokenKey) returns (s': State)
    requires Reachable(server, NoOverlap(server, key), s)
    requires Enabled(server, s, step) && NoOverlap(server, key)(s, step)
    ensures s' == Apply(server, s, step) && Reachable(server, NoOverlap(server, key), s')
  {
    var start :| Reaches(server, NoOverlap(server, key), Init(start), s);
    ReachesNext(server, NoOverlap(server, key), Init(start), s, step);
    s' := Apply(server, s, step);
  }

  /** A call that starts while nothing is in flight misses the token cache. */
  lemma ToMiss(server: AppState, s: State, c: CallId, request: HttpRequest, key: TokenKey) returns (s': State)
    requires Idle(server, s, key) && c !in s.calls && Handle(server, request).Ok?
    ensures Reachable(server, NoOverlap(server, key), s')
    ensures s'.now == s.now && s'.posts == s.posts && s'.cache == s.cache
    ensures StandsAt(s, s', c, Handle(server, request).value, TokenMissed)
  {
    s' := Onward(server, s, Begin(c, request), key);
    s' := Onward(server, s', ReadClock(c), key);
    s' := Onward(server, s', LookUpToken(c), key);
  }

  /** It then finds its installation id, in the cache or at GitHub. */
  lemma ToIdReady(server: AppState, s: State, c: CallId, p: Prepared, key: TokenKey) returns (s': State)
    requires Reachable(server, NoOverlap(server, key), s) && StandsAt(s, s, c, p, TokenMissed)
    requires FirstLookup(p.target).Some?
    ensures Reachable(server, NoOverlap(server, key), s')
    ensures s'.now == s.now && s'.posts == s.posts && s'.cache.tokens == s.cache.tokens
    ensures c in s'.calls && StandsAt(s, s', c, p, s'.calls[c].progress) && s'.calls[c].progress.IdReady?
  {
    s' := Onward(server, s, Sign(c, true), key);
    s' := Onward(server, s', LookUpId(c), key);
    if s'.calls[c].progress.AskingGithub? {
      s' := Onward(server, s', HearGithub(c, Found(1)), key);
      s' := Onward(server, s', StoreId(c), key);
    }
  }

  /** A mint for the key by a call that is dropped with the token. */
  ghost predicate MintedAndDropped(s: State, s': State, c: CallId, key: TokenKey) {
    && s'.now == s.now && |s'.posts| == |s.posts| + 1 && s'.posts[..|s.posts|] == s.posts
    && (var sent := s'.posts[|s.posts|]; sent.key == key && sent.at == s.now && sent.token.Some?)
    && (forall other :: other in s'.calls ==> other in s.calls || other == c)
  }

  lemma MintAndDrop(server: AppState, s: State, c: CallId, request: HttpRequest, token: InstallationToken)
    returns (s': State)
    requires Handle(server, request).Ok?
    requires Idle(server, s, KeyOf(Handle(server, request).value)) && c !in s.calls
    ensures Idle(server, s', KeyOf(Handle(server, request).value))
    ensures MintedAndDropped(s, s', c, KeyOf(Handle(server, request).value))
  {
    var p := Handle(server, request).value;
    HandledRequestsAreMintable(server, request);
    s' := ToMiss(server, s, c, request, KeyOf(p));
    s' := ToIdReady(server, s', c, p, KeyOf(p));
    s' := PostAndDrop(server, s', c, p, token);
  }

  lemma PostAndDrop(server: AppState, s: State, c: CallId, p: Prepared, token: InstallationToken) returns (s': State)
    requires Reachable(server, NoOverlap(server, KeyOf(p)), s) && BuildTokenRequest(p.scope, p.target).Some?
    requires c in s.calls && s.calls[c].prepared == p && s.calls[c].progress.IdReady?
    ensures Reachable(server, NoOverlap(server, KeyOf(p)), s') && s'.cache == s.cache
    ensures c in s'.calls && s'.calls == s.calls[c := s'.calls[c]] && s'.calls[c].progress.Dropped?
    ensures MintedAndDropped(s, s', c, KeyOf(p))
  {
    s' := Onward(server, s, SendPost(c, Some(token)), KeyOf(p));
    s' := Onward(server, s', Drop(c), KeyOf(p));
  }

  /** Calls that do not overlap can mint for one key twice at one instant, when one is dropped with its
      token. */
  lemma DroppedMintIsRepeated(
    server: AppState, request: HttpRequest, token: InstallationToken, other: InstallationToken)
    requires Handle(server, request).Ok?
    ensures var key := KeyOf(Handle(server, request).value);
      exists s :: Reachable(server, NoOverlap(server, key), s) && MintedTogether(s, 0, 1, key)
  {
    var key := KeyOf(Handle(server, request).value);
    var s := Init(0);
    ReachesItself(server, NoOverlap(server, key), s);
    s := MintAndDrop(server, s, 0, request, token);
    s := MintAndDrop(server, s, 1, request, other);
    assert MintedTogether(s, 0, 1, key);
  }

  ghost predicate AlwaysSpaced(server: AppState, env: Environment, key: TokenKey) {
    forall s :: Reachable(server, env, s) ==> Spaced(s, key)
  }

  /** All mints for a key are fifty minutes apart in all runs exactly when the calls for that key may
      neither overlap nor be dropped while they hold a mint, whatever the calls for other keys do. */
  lemma SpacedExactlyWhen(
    server: AppState, request: HttpRequest, token: InstallationToken, overlap: bool, drops: bool)
    requires NamesOk(server) && Handle(server, request).Ok?
    ensures var key := KeyOf(Handle(server, request).value);
      AlwaysSpaced(server, Rules(server, key, overlap, drops), key) <==> !overlap && !drops
  {
    var key := KeyOf(Handle(server, request).value);
    var env := Rules(server, key, overlap, drops);
    if overlap {
      RacingCallsMintTwice(server, request, token, token);
      var s :| Reachable(server, Undropped(0), s) && MintedTogether(s, 0, 1, key);
      WiderReachable(server, Undropped(0), env, s);
      TogetherIsNotSpaced(s, 0, 1, key);
    } else if drops {
      DroppedMintIsRepeated(server, request, token, token);
      var s :| Reachable(server, env, s) && MintedTogether(s, 0, 1, key);
      TogetherIsNotSpaced(s, 0, 1, key);
    } else {
      forall s | Reachable(server, env, s) ensures Spaced(s, key) {
        UndroppedMintsAreSpaced(server, s, key);
      }
    }
  }

  lemma TogetherIsNotSpaced(s: State, e: nat, f: nat, key: TokenKey)
    requires MintedTogether(s, e, f, key)
    ensures !Spaced(s, key)
  {
    assert MintOf(s, e, key) && MintOf(s, f, key);
  }
}
