// How old a token can be when the cache serves it, in every interleaving.
module Freshness {
  import opened Wrappers
  import opened Service
  import opened Github
  import opened Broker

  /** A call computes its deadline at most `latency` after GitHub minted the token. */
  function Prompt(latency: nat): Environment {
    (s: State, step: Step) =>
      step.ReadDeadline? && step.call in s.calls && s.calls[step.call].progress.Minted?
      && s.calls[step.call].progress.post < |s.posts| ==>
        s.now <= s.posts[s.calls[step.call].progress.post].at + latency
  }

  /** The token was minted by a post for this key, by a call that computed this deadline for it. */
  ghost predicate AgedBy(s: State, key: TokenKey, token: InstallationToken, refreshAfter: Instant) {
    exists d: Deadline ::
      && d in s.deadlines && Backs(s, d.post, key, token)
      && refreshAfter == d.readAt + 3_000_000_000_000
  }

  /** The token was minted for this key, by a call that computed its deadline less than fifty minutes
      before `at`. */
  ghost predicate FreshAt(s: State, key: TokenKey, token: InstallationToken, at: Instant) {
    exists d: Deadline :: d in s.deadlines && Backs(s, d.post, key, token) && at < d.readAt + 3_000_000_000_000
  }

  /** What a call in this stage must show. */
  ghost predicate CallAgeOk(s: State, call: Call) {
    match call.progress
    case DeadlineRead(token, _, refreshAfter) => AgedBy(s, call.Key(), token, refreshAfter)
    case Returned(token, Some(at)) => FreshAt(s, call.Key(), token, at)
    case _ => true
  }

  ghost predicate AgeInv(s: State) {
    && (forall key :: key in s.cache.tokens ==>
          AgedBy(s, key, s.cache.tokens[key].token, s.cache.tokens[key].refreshAfter))
    && (forall c :: c in s.calls ==> CallAgeOk(s, s.calls[c]))
  }

  lemma ExtendsAgedBy(s: State, s': State, key: TokenKey, token: InstallationToken, deadline: Instant)
    requires Extends(s, s') && AgedBy(s, key, token, deadline)
    ensures AgedBy(s', key, token, deadline)
  {
    var d :| d in s.deadlines && Backs(s, d.post, key, token) && deadline == d.readAt + 3_000_000_000_000;
    ExtendsBacks(s, s', d.post, key, token);
    assert d in s'.deadlines;
  }

  lemma ExtendsFreshAt(s: State, s': State, key: TokenKey, token: InstallationToken, at: Instant)
    requires Extends(s, s') && FreshAt(s, key, token, at)
    ensures FreshAt(s', key, token, at)
  {
    var d :| d in s.deadlines && Backs(s, d.post, key, token) && at < d.readAt + 3_000_000_000_000;
    ExtendsBacks(s, s', d.post, key, token);
    assert d in s'.deadlines;
  }

  lemma ExtendsCallAge(s: State, s': State, call: Call)
    requires Extends(s, s') && CallAgeOk(s, call)
    ensures CallAgeOk(s', call)
  {
    match call.progress {
      case DeadlineRead(token, _, refreshAfter) => ExtendsAgedBy(s, s', call.Key(), token, refreshAfter);
      case Returned(token, Some(at)) => ExtendsFreshAt(s, s', call.Key(), token, at);
      case _ =>
    }
  }

  lemma KeepsAge(s: State, s': State, c: CallId)
    requires AgeInv(s) && Extends(s, s')
    requires forall other :: other in s'.calls && other != c ==> other in s.calls && s'.calls[other] == s.calls[other]
    requires c in s'.calls ==> CallAgeOk(s', s'.calls[c])
    requires forall key :: key in s'.cache.tokens ==>
      || (key in s.cache.tokens && s'.cache.tokens[key] == s.cache.tokens[key])
      || AgedBy(s', key, s'.cache.tokens[key].token, s'.cache.tokens[key].refreshAfter)
    ensures AgeInv(s')
  {
    forall key | key in s'.cache.tokens
      ensures AgedBy(s', key, s'.cache.tokens[key].token, s'.cache.tokens[key].refreshAfter)
    {
      if key in s.cache.tokens && s'.cache.tokens[key] == s.cache.tokens[key] {
        ExtendsAgedBy(s, s', key, s.cache.tokens[key].token, s.cache.tokens[key].refreshAfter);
      }
    }
    forall other | other in s'.calls ensures CallAgeOk(s', s'.calls[other]) {
      if other != c { ExtendsCallAge(s, s', s.calls[other]); }
    }
  }

  lemma StepKeepsAge(server: AppState, s: State, step: Step)
    requires Inv(server, s) && AgeInv(s) && Enabled(server, s, step)
    ensures AgeInv(Apply(server, s, step))
  {
    if step.LookUpToken? {
      HitKeepsAge(server, s, step);
    } else if step.ReadDeadline? {
      DeadlineKeepsAge(server, s, step);
    } else if step.StoreToken? {
      StoreKeepsAge(server, s, step);
    } else {
      OthersKeepAge(server, s, step);
    }
  }

  lemma OthersKeepAge(server: AppState, s: State, step: Step)
    requires AgeInv(s) && Enabled(server, s, step)
    requires !step.LookUpToken? && !step.ReadDeadline? && !step.StoreToken?
    ensures AgeInv(Apply(server, s, step))
  {
    StepExtends(server, s, step);
    var s' := Apply(server, s, step);
    if step.Tick? {
      if 0 in s.calls { ExtendsCallAge(s, s', s.calls[0]); }
      KeepsAge(s, s', 0);
    } else {
      assert CallAgeOk(s', s'.calls[step.call]);
      KeepsAge(s, s', step.call);
    }
  }

  lemma StoreKeepsAge(server: AppState, s: State, step: Step)
    requires AgeInv(s) && step.StoreToken? && Enabled(server, s, step)
    ensures AgeInv(Apply(server, s, step))
  {
    StepExtends(server, s, step);
    var s' := Apply(server, s, step);
    var call := s.calls[step.call];
    assert CallAgeOk(s, call);
    ExtendsAgedBy(s, s', call.Key(), call.progress.token, call.progress.refreshAfter);
    KeepsAge(s, s', step.call);
  }

  lemma HitKeepsAge(server: AppState, s: State, step: Step)
    requires AgeInv(s) && step.LookUpToken? && Enabled(server, s, step)
    ensures AgeInv(Apply(server, s, step))
  {
    StepExtends(server, s, step);
    var s' := Apply(server, s, step);
    var call := s.calls[step.call];
    if s.cache.FindToken(call.Key(), call.progress.readAt).Some? {
      var cached := s.cache.tokens[call.Key()];
      assert AgedBy(s, call.Key(), cached.token, cached.refreshAfter);
      assert FreshAt(s, call.Key(), cached.token, call.progress.readAt);
      ExtendsFreshAt(s, s', call.Key(), cached.token, call.progress.readAt);
    }
    KeepsAge(s, s', step.call);
  }

  lemma DeadlineKeepsAge(server: AppState, s: State, step: Step)
    requires Inv(server, s) && AgeInv(s) && step.ReadDeadline? && Enabled(server, s, step)
    ensures AgeInv(Apply(server, s, step))
  {
    StepExtends(server, s, step);
    var s' := Apply(server, s, step);
    var call := s.calls[step.call];
    assert CallOk(server, s, step.call, call);
    ExtendsBacks(s, s', call.progress.post, call.Key(), call.progress.token);
    assert Deadline(call.progress.post, s.now) in s'.deadlines;
    KeepsAge(s, s', step.call);
  }

  lemma {:induction false} RunKeepsAge(server: AppState, env: Environment, from: State, steps: seq<Step>)
    requires NamesOk(server) && Inv(server, from) && AgeInv(from)
    ensures Run(server, env, from, steps).Some? ==> AgeInv(Run(server, env, from, steps).value)
  {
    if steps == [] {
    } else if Run(server, env, from, steps).Some? {
      var front := steps[..|steps| - 1];
      RunKeepsAge(server, env, from, front);
      RunKeepsInv(server, env, from, front);
      StepKeepsAge(server, Run(server, env, from, front).value, steps[|steps| - 1]);
    }
  }

  lemma AgeReachable(server: AppState, env: Environment, s: State)
    requires NamesOk(server) && Reachable(server, env, s)
    ensures AgeInv(s)
  {
    var start :| Reaches(server, env, Init(start), s);
    var steps :| Run(server, env, Init(start), steps) == Some(s);
    RunKeepsAge(server, env, Init(start), steps);
  }

  /** In every interleaving, stale overwrites included, a cache hit at a sampled instant serves a token
      that GitHub minted for this key, by a call that computed its deadline less than fifty minutes
      before that instant. */
  lemma HitsAreFresh(server: AppState, env: Environment, s: State, c: CallId)
    requires NamesOk(server) && Reachable(server, env, s)
    requires c in s.calls && s.calls[c].progress.Returned? && s.calls[c].progress.servedAt.Some?
    ensures FreshAt(s, s.calls[c].Key(), s.calls[c].progress.token, s.calls[c].progress.servedAt.value)
  {
    AgeReachable(server, env, s);
    assert CallAgeOk(s, s.calls[c]);
  }

  // ----- How old the token itself can be -----

  /** Deadlines are computed after the mint, and at most `latency` after it. */
  ghost predicate PromptInv(s: State, latency: nat) {
    forall d: Deadline :: d in s.deadlines ==>
      d.post < |s.posts| && s.posts[d.post].at <= d.readAt <= s.posts[d.post].at + latency
  }

  lemma StepKeepsPrompt(server: AppState, s: State, step: Step, latency: nat)
    requires Inv(server, s) && PromptInv(s, latency) && Enabled(server, s, step) && Prompt(latency)(s, step)
    ensures PromptInv(Apply(server, s, step), latency)
  {
    if step.ReadDeadline? {
      var call := s.calls[step.call];
      assert CallOk(server, s, step.call, call) && SentOk(s, s.posts[call.progress.post]);
    }
  }

  lemma {:induction false} RunKeepsPrompt(server: AppState, from: State, steps: seq<Step>, latency: nat)
    requires NamesOk(server) && Inv(server, from) && PromptInv(from, latency)
    ensures Run(server, Prompt(latency), from, steps).Some? ==>
      PromptInv(Run(server, Prompt(latency), from, steps).value, latency)
  {
    if steps == [] {
    } else if Run(server, Prompt(latency), from, steps).Some? {
      var front := steps[..|steps| - 1];
      RunKeepsPrompt(server, from, front, latency);
      RunKeepsInv(server, Prompt(latency), from, front);
      StepKeepsPrompt(server, Run(server, Prompt(latency), from, front).value, steps[|steps| - 1], latency);
    }
  }

  /** If the cache served this call, then a token that some mint younger than `lifetime` accounts for. */
  ghost predicate ServedUnexpired(s: State, c: CallId, lifetime: nat)
    requires c in s.calls
  {
    var call := s.calls[c];
    call.progress.Returned? && call.progress.servedAt.Some? ==> exists e: nat ::
      Backs(s, e, call.Key(), call.progress.token) && call.progress.servedAt.value < s.posts[e].at + lifetime
  }

  /** Tokens that live at least fifty minutes and the latency are never served expired. */
  lemma LongLivedTokensAreUnexpired(server: AppState, s: State, c: CallId, latency: nat, lifetime: nat)
    requires NamesOk(server) && Reachable(server, Prompt(latency), s) && c in s.calls
    requires 3_000_000_000_000 + latency <= lifetime
    ensures ServedUnexpired(s, c, lifetime)
  {
    var call := s.calls[c];
    if call.progress.Returned? && call.progress.servedAt.Some? {
      HitsAreFresh(server, Prompt(latency), s, c);
      var start :| Reaches(server, Prompt(latency), Init(start), s);
      var steps :| Run(server, Prompt(latency), Init(start), steps) == Some(s);
      RunKeepsPrompt(server, Init(start), steps, latency);
      var d :| d in s.deadlines && Backs(s, d.post, call.Key(), call.progress.token)
        && call.progress.servedAt.value < d.readAt + 3_000_000_000_000;
      assert call.progress.servedAt.value < s.posts[d.post].at + lifetime;
    }
  }
}
