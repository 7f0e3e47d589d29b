// The running service: any number of concurrent token requests over one shared cache, as a state
// machine. One step is what happens between two points where other requests may run: the cache's
// mutex is held within a step and never across two, and the clock is read before the mutex is taken.
module Broker {
  import opened Wrappers
  import opened Configuration
  import opened Service
  import opened Github
  import opened Handlers

  type CallId = nat

  /** Why a call fails. A lookup fails because GitHub knows no installation or because GitHub breaks. */
  datatype Failure =
    | SigningFailed | NotOwnerRepoFormat | NoInstallation | LookupBroke | NoRepositoryRequested | MintFailed

  /** How far a call of `create_installation_token` has come. The `post` of the last stages is the
      position of the call's own request in the history. */
  datatype Progress =
    | Started
    | ClockRead(readAt: Instant)
    | TokenMissed
    | Signed
    | AskingGithub(lookup: Lookup)
    | IdFetched(id: nat)
    | IdReady(id: nat)
    | Minted(token: InstallationToken, post: nat)
    | DeadlineRead(token: InstallationToken, post: nat, refreshAfter: Instant)
    | Returned(token: InstallationToken, servedAt: Option<Instant>)
    | Failed(reason: Failure)
    | Dropped

  datatype Call = Call(request: HttpRequest, prepared: Prepared, progress: Progress)
  {
    function Key(): TokenKey {
      KeyOf(prepared)
    }

    predicate InFlight() {
      !progress.Returned? && !progress.Failed? && !progress.Dropped?
    }
  }

  function KeyOf(p: Prepared): TokenKey {
    TokenKey(p.app.name, p.target, p.scope)
  }

  /** History: GitHub answered `lookup`, asked as `app` on behalf of `target`, with `id`. */
  datatype Resolution = Resolution(app: GithubAppConfig, target: InstallationTarget, lookup: Lookup, id: nat)

  /** History: a token request sent to GitHub, with the token it was answered with, if any. */
  datatype Sent = Sent(caller: CallId, at: Instant, key: TokenKey, post: Post, token: Option<InstallationToken>)

  /** History: the clock read `readAt` when the deadline of the token of this post was computed. */
  datatype Deadline = Deadline(post: nat, readAt: Instant)

  datatype State = State(
    now: Instant, cache: Cache, calls: map<CallId, Call>, resolutions: set<Resolution>, posts: seq<Sent>,
    deadlines: set<Deadline>)

  datatype Step =
    | Tick(elapsed: nat)
    | Begin(call: CallId, request: HttpRequest)
    | ReadClock(call: CallId)
    | LookUpToken(call: CallId)
    | Sign(call: CallId, succeeds: bool)
    | LookUpId(call: CallId)
    | HearGithub(call: CallId, reply: Reply)
    | StoreId(call: CallId)
    | SendPost(call: CallId, answer: Option<InstallationToken>)
    | ReadDeadline(call: CallId)
    | StoreToken(call: CallId)
    | Drop(call: CallId)

  function Init(now: Instant): State {
    State(now, Cache(map[], map[]), map[], {}, [], {})
  }

  predicate Enabled(server: AppState, s: State, step: Step) {
    match step
    case Tick(_) => true
    case Begin(c, request) => c !in s.calls && Handle(server, request).Ok?
    case ReadClock(c) => c in s.calls && s.calls[c].progress.Started?
    case LookUpToken(c) => c in s.calls && s.calls[c].progress.ClockRead?
    case Sign(c, _) => c in s.calls && s.calls[c].progress.TokenMissed?
    case LookUpId(c) => c in s.calls && s.calls[c].progress.Signed?
    case HearGithub(c, _) => c in s.calls && s.calls[c].progress.AskingGithub?
    case StoreId(c) => c in s.calls && s.calls[c].progress.IdFetched?
    case SendPost(c, _) => c in s.calls && s.calls[c].progress.IdReady?
    case ReadDeadline(c) => c in s.calls && s.calls[c].progress.Minted?
    case StoreToken(c) => c in s.calls && s.calls[c].progress.DeadlineRead?
    case Drop(c) => c in s.calls && s.calls[c].InFlight()
  }

  function Proceed(s: State, c: CallId, progress: Progress): State
    requires c in s.calls
  {
    s.(calls := s.calls[c := s.calls[c].(progress := progress)])
  }

  /** What a reply of GitHub leads to: only an organization's 404 is followed by another lookup. */
  function AfterReply(lookup: Lookup, reply: Reply): Progress {
    match reply
    case Found(id) => IdFetched(id)
    case NotFound =>
      if lookup.OrganizationLookup? then AskingGithub(UserLookup(lookup.owner)) else Failed(NoInstallation)
    case Broken => Failed(LookupBroke)
  }

  function Apply(server: AppState, s: State, step: Step): State
    requires Enabled(server, s, step)
  {
    if step.Tick? then s.(now := s.now + step.elapsed)
    else if step.Begin? then
      s.(calls := s.calls[step.call := Call(step.request, Handle(server, step.request).value, Started)])
    else
      var c := step.call;
      var call := s.calls[c];
      var p := call.prepared;
      match step
      case ReadClock(_) => Proceed(s, c, ClockRead(s.now))
      case LookUpToken(_) =>
        (match s.cache.FindToken(call.Key(), call.progress.readAt)
         case Some(token) => Proceed(s, c, Returned(token, Some(call.progress.readAt)))
         case None => Proceed(s, c, TokenMissed))
      case Sign(_, succeeds) => Proceed(s, c, if succeeds then Signed else Failed(SigningFailed))
      case LookUpId(_) =>
        (match s.cache.FindId(p.app.name, p.target)
         case Some(id) => Proceed(s, c, IdReady(id))
         case None =>
           match FirstLookup(p.target)
           case Some(lookup) => Proceed(s, c, AskingGithub(lookup))
           case None => Proceed(s, c, Failed(NotOwnerRepoFormat)))
      case HearGithub(_, reply) =>
        var lookup := call.progress.lookup;
        var heard := if reply.Found? then {Resolution(p.app, p.target, lookup, reply.id)} else {};
        Proceed(s, c, AfterReply(lookup, reply)).(resolutions := s.resolutions + heard)
      case StoreId(_) =>
        var id := call.progress.id;
        Proceed(s, c, IdReady(id)).(cache := s.cache.PutId(p.app.name, p.target, id))
      case SendPost(_, answer) =>
        (match BuildTokenRequest(p.scope, p.target)
         case None => Proceed(s, c, Failed(NoRepositoryRequested))
         case Some(body) =>
           var sent := Sent(c, s.now, call.Key(), Post(p.app.appId, call.progress.id, body), answer);
           var next := if answer.Some? then Minted(answer.value, |s.posts|) else Failed(MintFailed);
           Proceed(s, c, next).(posts := s.posts + [sent]))
      case ReadDeadline(_) =>
        Proceed(s, c, DeadlineRead(call.progress.token, call.progress.post, s.now + CACHE_TTL)).(
          deadlines := s.deadlines + {Deadline(call.progress.post, s.now)})
      case StoreToken(_) =>
        var token := call.progress.token;
        Proceed(s, c, Returned(token, None)).(
          cache := s.cache.PutToken(call.Key(), token, call.progress.refreshAfter))
      case Drop(_) => Proceed(s, c, Dropped)
  }

  /** What GitHub, the clock and the callers may do next. */
  type Environment = (State, Step) -> bool

  /** The state a sequence of steps leads to, if every step is enabled and within the environment. */
  function Run(server: AppState, env: Environment, from: State, steps: seq<Step>): Option<State> {
    if steps == [] then Some(from)
    else
      match Run(server, env, from, steps[..|steps| - 1])
      case None => None
      case Some(s) =>
        var last := steps[|steps| - 1];
        if Enabled(server, s, last) && env(s, last) then Some(Apply(server, s, last)) else None
  }

  ghost predicate Reaches(server: AppState, env: Environment, from: State, s: State) {
    exists steps :: Run(server, env, from, steps) == Some(s)
  }

  /** The states of a service that started empty at some instant. */
  ghost predicate Reachable(server: AppState, env: Environment, s: State) {
    exists start :: Reaches(server, env, Init(start), s)
  }

  // ----- What every step keeps -----

  /** A lookup that may settle a target's installation. */
  predicate LookupFor(target: InstallationTarget, lookup: Lookup) {
    FirstLookup(target) == Some(lookup) || (target.Account? && lookup == UserLookup(target.owner))
  }

  ghost predicate Resolved(s: State, app: GithubAppConfig, target: InstallationTarget, id: nat) {
    exists lookup :: Resolution(app, target, lookup, id) in s.resolutions && LookupFor(target, lookup)
  }

  /** The post at position `e` was answered with this token for this key. */
  ghost predicate Backs(s: State, e: nat, key: TokenKey, token: InstallationToken) {
    e < |s.posts| && s.posts[e].key == key && s.posts[e].token == Some(token)
  }

  ghost predicate CachedTokenOk(s: State, key: TokenKey, cached: CachedToken) {
    exists e: nat :: Backs(s, e, key, cached.token) && s.posts[e].at + CACHE_TTL <= cached.refreshAfter
  }

  ghost predicate ProgressOk(s: State, c: CallId, call: Call) {
    var p := call.prepared;
    match call.progress
    case AskingGithub(lookup) => LookupFor(p.target, lookup)
    case IdFetched(id) => Resolved(s, p.app, p.target, id)
    case IdReady(id) => Resolved(s, p.app, p.target, id)
    case Minted(token, e) => Backs(s, e, call.Key(), token) && s.posts[e].caller == c
    case DeadlineRead(token, e, refreshAfter) =>
      && Backs(s, e, call.Key(), token) && s.posts[e].caller == c
      && s.posts[e].at + CACHE_TTL <= refreshAfter <= s.now + CACHE_TTL
    case Returned(token, servedAt) =>
      exists e: nat :: Backs(s, e, call.Key(), token) && (servedAt.None? ==> s.posts[e].caller == c)
    case Failed(reason) => reason != NotOwnerRepoFormat && reason != NoRepositoryRequested
    case _ => true
  }

  ghost predicate CallOk(server: AppState, s: State, c: CallId, call: Call) {
    Handle(server, call.request) == Ok(call.prepared) && ProgressOk(s, c, call)
  }

  ghost predicate SentOk(s: State, sent: Sent) {
    && sent.at <= s.now
    && sent.caller in s.calls
    && var p := s.calls[sent.caller].prepared;
       && sent.key == KeyOf(p)
       && sent.post.appId == p.app.appId
       && BuildTokenRequest(p.scope, p.target) == Some(sent.post.body)
       && Resolved(s, p.app, p.target, sent.post.installationId)
  }

  ghost predicate CachedIdOk(s: State, key: string, id: nat) {
    exists app: GithubAppConfig, target :: IdKey(app.name, target) == key && Resolved(s, app, target, id)
  }

  ghost predicate ResolutionOk(server: AppState, r: Resolution) {
    r.app in server.githubApps
  }

  /** The app names `validate` accepts. */
  ghost predicate NamesOk(server: AppState) {
    NamesDistinct(server.githubApps) && forall app :: app in server.githubApps ==> '/' !in app.name
  }

  ghost predicate Inv(server: AppState, s: State) {
    && (forall c :: c in s.calls ==> CallOk(server, s, c, s.calls[c]))
    && (forall r :: r in s.resolutions ==> ResolutionOk(server, r))
    && (forall key :: key in s.cache.ids ==> CachedIdOk(s, key, s.cache.ids[key]))
    && (forall key :: key in s.cache.tokens ==> CachedTokenOk(s, key, s.cache.tokens[key]))
    && (forall e :: 0 <= e < |s.posts| ==> SentOk(s, s.posts[e]))
  }

  /** What no step takes back: time, history, who asked for what, and the keys of the cache. */
  ghost predicate Extends(s: State, s': State) {
    && s.now <= s'.now
    && s.resolutions <= s'.resolutions
    && s.posts <= s'.posts
    && s.deadlines <= s'.deadlines
    && (forall c :: c in s.calls ==> c in s'.calls && s'.calls[c].prepared == s.calls[c].prepared)
    && s.cache.ids.Keys <= s'.cache.ids.Keys
    && s.cache.tokens.Keys <= s'.cache.tokens.Keys
  }

  lemma StepExtends(server: AppState, s: State, step: Step)
    requires Enabled(server, s, step)
    ensures Extends(s, Apply(server, s, step))
  {
  }

  /** A step of a call that does not post touches that call only. */
  lemma CallStep(server: AppState, s: State, step: Step)
    requires Enabled(server, s, step) && !step.Tick? && !step.Begin? && !step.SendPost?
    ensures var s' := Apply(server, s, step);
      && s'.now == s.now && s'.posts == s.posts && step.call in s'.calls
      && s'.calls == s.calls[step.call := s'.calls[step.call]]
      && s'.calls[step.call].prepared == s.calls[step.call].prepared
      && s.calls[step.call].InFlight()
      && (!step.StoreToken? ==> s'.cache.tokens == s.cache.tokens)
  {
  }

  /** A post that has a body touches its call and the history of posts only. */
  lemma SendPostStep(server: AppState, s: State, step: Step)
    requires Enabled(server, s, step) && step.SendPost?
    requires var p := s.calls[step.call].prepared; BuildTokenRequest(p.scope, p.target).Some?
    ensures var c, call := step.call, s.calls[step.call];
      var p := call.prepared;
      var post := Post(p.app.appId, call.progress.id, BuildTokenRequest(p.scope, p.target).value);
      var next := if step.answer.Some? then Minted(step.answer.value, |s.posts|) else Failed(MintFailed);
      Apply(server, s, step) == s.(calls := s.calls[c := call.(progress := next)],
                                   posts := s.posts + [Sent(c, s.now, call.Key(), post, step.answer)])
  {
  }

  lemma ExtendsBacks(s: State, s': State, e: nat, key: TokenKey, token: InstallationToken)
    requires Extends(s, s') && Backs(s, e, key, token)
    ensures Backs(s', e, key, token) && s'.posts[e] == s.posts[e]
  {
  }

  lemma ExtendsProgressOk(s: State, s': State, c: CallId, call: Call)
    requires Extends(s, s') && ProgressOk(s, c, call)
    ensures ProgressOk(s', c, call)
  {
    if call.progress.Returned? {
      var e: nat :| Backs(s, e, call.Key(), call.progress.token)
        && (call.progress.servedAt.None? ==> s.posts[e].caller == c);
      ExtendsBacks(s, s', e, call.Key(), call.progress.token);
    }
  }

  lemma ExtendsHistory(server: AppState, s: State, s': State)
    requires Extends(s, s') && Inv(server, s)
    ensures forall key :: key in s.cache.ids ==> CachedIdOk(s', key, s.cache.ids[key])
    ensures forall key :: key in s.cache.tokens ==> CachedTokenOk(s', key, s.cache.tokens[key])
    ensures forall e :: 0 <= e < |s.posts| ==> SentOk(s', s'.posts[e])
  {
    forall key | key in s.cache.ids ensures CachedIdOk(s', key, s.cache.ids[key]) {
      var app: GithubAppConfig, target :| IdKey(app.name, target) == key && Resolved(s, app, target, s.cache.ids[key]);
      assert Resolved(s', app, target, s.cache.ids[key]);
    }
    forall key | key in s.cache.tokens ensures CachedTokenOk(s', key, s.cache.tokens[key]) {
      var cached := s.cache.tokens[key];
      var e: nat :| Backs(s, e, key, cached.token) && s.posts[e].at + CACHE_TTL <= cached.refreshAfter;
      ExtendsBacks(s, s', e, key, cached.token);
    }
    forall e | 0 <= e < |s.posts| ensures SentOk(s', s'.posts[e]) {
      assert SentOk(s, s.posts[e]) && s'.posts[e] == s.posts[e];
    }
  }

  /** What remains to be shown about a step of call `c`: the call itself, and what it added. */
  lemma KeepsInv(server: AppState, s: State, s': State, c: CallId)
    requires Inv(server, s) && Extends(s, s')
    requires forall other :: other in s'.calls && other != c ==> other in s.calls && s'.calls[other] == s.calls[other]
    requires c in s'.calls ==> CallOk(server, s', c, s'.calls[c])
    requires forall r :: r in s'.resolutions - s.resolutions ==> ResolutionOk(server, r)
    requires forall key :: key in s'.cache.ids ==>
      (key in s.cache.ids && s'.cache.ids[key] == s.cache.ids[key]) || CachedIdOk(s', key, s'.cache.ids[key])
    requires forall key :: key in s'.cache.tokens ==>
      || (key in s.cache.tokens && s'.cache.tokens[key] == s.cache.tokens[key])
      || CachedTokenOk(s', key, s'.cache.tokens[key])
    requires forall e :: |s.posts| <= e < |s'.posts| ==> SentOk(s', s'.posts[e])
    ensures Inv(server, s')
  {
    ExtendsHistory(server, s, s');
    forall other | other in s'.calls ensures CallOk(server, s', other, s'.calls[other]) {
      if other != c { ExtendsProgressOk(s, s', other, s.calls[other]); }
    }
    forall r | r in s'.resolutions ensures ResolutionOk(server, r) {
      if r !in s.resolutions { assert r in s'.resolutions - s.resolutions; }
    }
  }

  lemma StepKeepsInv(server: AppState, s: State, step: Step)
    requires Inv(server, s) && Enabled(server, s, step) && NamesOk(server)
    ensures Inv(server, Apply(server, s, step))
  {
    StepExtends(server, s, step);
    var s' := Apply(server, s, step);
    match step {
      case Tick(_) =>
        if 0 in s.calls { ExtendsProgressOk(s, s', 0, s.calls[0]); }
        KeepsInv(server, s, s', 0);
      case HearGithub(c, _) => HearGithubKeepsInv(server, s, step);
      case StoreId(c) => StoreIdKeepsInv(server, s, step);
      case SendPost(c, _) => SendPostKeepsInv(server, s, step);
      case StoreToken(c) => StoreTokenKeepsInv(server, s, step);
      case LookUpToken(c) => LookUpTokenKeepsInv(server, s, step);
      case LookUpId(c) => LookUpIdKeepsInv(server, s, step);
      case Begin(c, _) => KeepsInv(server, s, s', c);
      case ReadClock(c) => KeepsInv(server, s, s', c);
      case Sign(c, _) => KeepsInv(server, s, s', c);
      case ReadDeadline(c) => ReadDeadlineKeepsInv(server, s, step);
      case Drop(c) => KeepsInv(server, s, s', c);
    }
  }

  /** A served token is backed by the post that backs the cache entry. */
  lemma LookUpTokenKeepsInv(server: AppState, s: State, step: Step)
    requires Inv(server, s) && step.LookUpToken? && Enabled(server, s, step)
    ensures Inv(server, Apply(server, s, step))
  {
    StepExtends(server, s, step);
    var s' := Apply(server, s, step);
    CallStep(server, s, step);
    assert CallOk(server, s, step.call, s.calls[step.call]);
    HitIsBacked(server, s, step);
    KeepsInv(server, s, s', step.call);
  }

  lemma HitIsBacked(server: AppState, s: State, step: Step)
    requires Inv(server, s) && step.LookUpToken? && Enabled(server, s, step)
    ensures ProgressOk(Apply(server, s, step), step.call, Apply(server, s, step).calls[step.call])
    ensures Apply(server, s, step).calls[step.call].request == s.calls[step.call].request
    ensures Apply(server, s, step).cache == s.cache && Apply(server, s, step).resolutions == s.resolutions
  {
    var key := s.calls[step.call].Key();
    if s.cache.FindToken(key, s.calls[step.call].progress.readAt).Some? {
      assert CachedTokenOk(s, key, s.cache.tokens[key]);
      var e: nat :| Backs(s, e, key, s.cache.tokens[key].token);
      assert Backs(Apply(server, s, step), e, key, s.cache.tokens[key].token);
    }
  }

  /** A cached id was resolved for whoever finds it, because the key separates apps and targets. */
  lemma CachedIdIsResolved(server: AppState, s: State, app: GithubAppConfig, target: InstallationTarget)
    requires Inv(server, s) && NamesOk(server) && app in server.githubApps
    requires s.cache.FindId(app.name, target).Some?
    ensures Resolved(s, app, target, s.cache.FindId(app.name, target).value)
  {
    var key := IdKey(app.name, target);
    assert CachedIdOk(s, key, s.cache.ids[key]);
    var app': GithubAppConfig, target' :|
      IdKey(app'.name, target') == key && Resolved(s, app', target', s.cache.ids[key]);
    var lookup :| Resolution(app', target', lookup, s.cache.ids[key]) in s.resolutions && LookupFor(target', lookup);
    assert ResolutionOk(server, Resolution(app', target', lookup, s.cache.ids[key]));
    IdKeyInjective(app.name, target, app'.name, target');
    SameNameSameApp(server, app, app');
  }

  /** With distinct names, the name determines the app. */
  lemma SameNameSameApp(server: AppState, a: GithubAppConfig, b: GithubAppConfig)
    requires NamesOk(server) && a in server.githubApps && b in server.githubApps && a.name == b.name
    ensures a == b
  {
    var i :| 0 <= i < |server.githubApps| && server.githubApps[i] == a;
    var j :| 0 <= j < |server.githubApps| && server.githubApps[j] == b;
    assert server.githubApps[i].name == server.githubApps[j].name && i == j;
  }

  lemma LookUpIdKeepsInv(server: AppState, s: State, step: Step)
    requires Inv(server, s) && step.LookUpId? && Enabled(server, s, step) && NamesOk(server)
    ensures Inv(server, Apply(server, s, step))
  {
    StepExtends(server, s, step);
    var s' := Apply(server, s, step);
    var p := s.calls[step.call].prepared;
    assert CallOk(server, s, step.call, s.calls[step.call]);
    HandledRequestsAreMintable(server, s.calls[step.call].request);
    if s.cache.FindId(p.app.name, p.target).Some? {
      CachedIdIsResolved(server, s, p.app, p.target);
      assert Resolved(s', p.app, p.target, s'.calls[step.call].progress.id);
    }
    KeepsInv(server, s, s', step.call);
  }

  /** What a reply leaves the call with. */
  lemma HeardIsOk(server: AppState, s: State, step: Step)
    requires Inv(server, s) && step.HearGithub? && Enabled(server, s, step)
    ensures var s' := Apply(server, s, step);
      && step.call in s'.calls && CallOk(server, s', step.call, s'.calls[step.call])
      && s'.cache == s.cache && (forall r :: r in s'.resolutions - s.resolutions ==> ResolutionOk(server, r))
  {
    var s' := Apply(server, s, step);
    var call := s.calls[step.call];
    var p := call.prepared;
    assert CallOk(server, s, step.call, call);
    HandledRequestsAreMintable(server, call.request);
    if step.reply.Found? {
      assert Resolution(p.app, p.target, call.progress.lookup, step.reply.id) in s'.resolutions;
      assert Resolved(s', p.app, p.target, step.reply.id);
    }
  }

  lemma HearGithubKeepsInv(server: AppState, s: State, step: Step)
    requires Inv(server, s) && step.HearGithub? && Enabled(server, s, step)
    ensures Inv(server, Apply(server, s, step))
  {
    StepExtends(server, s, step);
    CallStep(server, s, step);
    HeardIsOk(server, s, step);
    KeepsInv(server, s, Apply(server, s, step), step.call);
  }

  lemma StoreIdKeepsInv(server: AppState, s: State, step: Step)
    requires Inv(server, s) && step.StoreId? && Enabled(server, s, step)
    ensures Inv(server, Apply(server, s, step))
  {
    StepExtends(server, s, step);
    var s' := Apply(server, s, step);
    var call := s.calls[step.call];
    var p := call.prepared;
    assert ProgressOk(s, step.call, call);
    assert Resolved(s', p.app, p.target, call.progress.id);
    assert CachedIdOk(s', IdKey(p.app.name, p.target), call.progress.id);
    KeepsInv(server, s, s', step.call);
  }

  lemma SendPostKeepsInv(server: AppState, s: State, step: Step)
    requires Inv(server, s) && step.SendPost? && Enabled(server, s, step)
    ensures Inv(server, Apply(server, s, step))
  {
    StepExtends(server, s, step);
    var s' := Apply(server, s, step);
    var call := s.calls[step.call];
    var p := call.prepared;
    assert CallOk(server, s, step.call, call);
    HandledRequestsAreMintable(server, call.request);
    assert Resolved(s', p.app, p.target, call.progress.id);
    assert SentOk(s', s'.posts[|s.posts|]);
    if step.answer.Some? { assert Backs(s', |s.posts|, call.Key(), step.answer.value); }
    KeepsInv(server, s, s', step.call);
  }

  lemma ReadDeadlineKeepsInv(server: AppState, s: State, step: Step)
    requires Inv(server, s) && step.ReadDeadline? && Enabled(server, s, step)
    ensures Inv(server, Apply(server, s, step))
  {
    StepExtends(server, s, step);
    var call := s.calls[step.call];
    assert CallOk(server, s, step.call, call);
    assert SentOk(s, s.posts[call.progress.post]);
    KeepsInv(server, s, Apply(server, s, step), step.call);
  }

  lemma StoreTokenKeepsInv(server: AppState, s: State, step: Step)
    requires Inv(server, s) && step.StoreToken? && Enabled(server, s, step)
    ensures Inv(server, Apply(server, s, step))
  {
    StepExtends(server, s, step);
    var s' := Apply(server, s, step);
    var call := s.calls[step.call];
    assert CallOk(server, s, step.call, call);
    assert Backs(s', call.progress.post, call.Key(), call.progress.token);
    KeepsInv(server, s, s', step.call);
  }

  lemma {:induction false} RunKeepsInv(server: AppState, env: Environment, from: State, steps: seq<Step>)
    requires NamesOk(server) && Inv(server, from)
    ensures Run(server, env, from, steps).Some? ==> Inv(server, Run(server, env, from, steps).value)
  {
    if steps == [] {
    } else if Run(server, env, from, steps).Some? {
      var front := steps[..|steps| - 1];
      RunKeepsInv(server, env, from, front);
      StepKeepsInv(server, Run(server, env, from, front).value, steps[|steps| - 1]);
    }
  }

  lemma ReachableInv(server: AppState, env: Environment, s: State)
    requires NamesOk(server) && Reachable(server, env, s)
    ensures Inv(server, s)
  {
    var start :| Reaches(server, env, Init(start), s);
    var steps :| Run(server, env, Init(start), steps) == Some(s);
    RunKeepsInv(server, env, Init(start), steps);
  }

  /** Over any run nothing is taken back; in particular no cache entry is ever removed. */
  lemma {:induction false} RunExtends(server: AppState, env: Environment, from: State, steps: seq<Step>)
    ensures Run(server, env, from, steps).Some? ==> Extends(from, Run(server, env, from, steps).value)
  {
    if steps == [] {
    } else if Run(server, env, from, steps).Some? {
      var front := steps[..|steps| - 1];
      RunExtends(server, env, from, front);
      StepExtends(server, Run(server, env, from, front).value, steps[|steps| - 1]);
    }
  }

  // ----- Where a returned token comes from -----

  /** The post was built from exactly this request's app, target and scope, and addressed to an
      installation that GitHub named for exactly this app and target. */
  ghost predicate MadeFor(s: State, p: Prepared, sent: Sent) {
    && sent.key == KeyOf(p)
    && sent.post.appId == p.app.appId
    && BuildTokenRequest(p.scope, p.target) == Some(sent.post.body)
    && Resolved(s, p.app, p.target, sent.post.installationId)
  }

  /** In every interleaving, and whatever GitHub answers, a call returns only a token that GitHub
      issued for that call's own request or for an identical one. */
  lemma ReturnedTokenProvenance(server: AppState, env: Environment, s: State, c: CallId)
    requires NamesOk(server) && Reachable(server, env, s)
    requires c in s.calls && s.calls[c].progress.Returned?
    ensures exists e: nat ::
      && e < |s.posts|
      && s.posts[e].token == Some(s.calls[c].progress.token)
      && MadeFor(s, s.calls[c].prepared, s.posts[e])
  {
    ReachableInv(server, env, s);
    var call := s.calls[c];
    assert CallOk(server, s, c, call);
    var e: nat :| Backs(s, e, call.Key(), call.progress.token);
    var sent := s.posts[e];
    assert SentOk(s, sent) && CallOk(server, s, sent.caller, s.calls[sent.caller]);
    SameKeySameRequest(server, s.calls[sent.caller], call);
    assert MadeFor(s, call.prepared, sent);
  }

  /** A key determines app, target and scope. */
  lemma SameKeySameRequest(server: AppState, a: Call, b: Call)
    requires NamesOk(server) && a.Key() == b.Key()
    requires Handle(server, a.request) == Ok(a.prepared) && Handle(server, b.request) == Ok(b.prepared)
    ensures a.prepared == b.prepared
  {
    HandledRequestsAreMintable(server, a.request);
    HandledRequestsAreMintable(server, b.request);
    SameNameSameApp(server, a.prepared.app, b.prepared.app);
  }

  /** The two refusals that the handlers rule out never happen. */
  lemma RefusalsUnreachable(server: AppState, env: Environment, s: State, c: CallId)
    requires NamesOk(server) && Reachable(server, env, s) && c in s.calls
    ensures s.calls[c].progress != Failed(NotOwnerRepoFormat)
    ensures s.calls[c].progress != Failed(NoRepositoryRequested)
  {
    ReachableInv(server, env, s);
    assert CallOk(server, s, c, s.calls[c]);
  }

  // ----- Whom a call asks -----

  /** The call asks GitHub on this path. */
  ghost predicate Asks(s: Option<State>, c: CallId, lookup: Lookup) {
    s.Some? && c in s.value.calls && s.value.calls[c].progress == AskingGithub(lookup)
  }

  /** In every run, a call that asks about a user was told before, at step `i`, that GitHub knows no
      such organization. */
  lemma {:induction false} UserAskedAfterOrganization(
    server: AppState, env: Environment, start: Instant, steps: seq<Step>, c: CallId, owner: string)
    returns (i: nat)
    requires Asks(Run(server, env, Init(start), steps), c, UserLookup(owner))
    ensures i < |steps| && steps[i] == HearGithub(c, NotFound)
    ensures Asks(Run(server, env, Init(start), steps[..i]), c, OrganizationLookup(owner))
  {
    if steps == [] {
      assert false;
    } else {
      var front, last := steps[..|steps| - 1], steps[|steps| - 1];
      if Asks(Run(server, env, Init(start), front), c, UserLookup(owner)) {
        i := UserAskedAfterOrganization(server, env, start, front, c, owner);
        assert front[..i] == steps[..i];
      } else {
        UserAskedNext(server, Run(server, env, Init(start), front).value, last, c, owner);
        i := |steps| - 1;
      }
    }
  }

  lemma UserAskedNext(server: AppState, s: State, step: Step, c: CallId, owner: string)
    requires Enabled(server, s, step) && !Asks(Some(s), c, UserLookup(owner))
    requires Asks(Some(Apply(server, s, step)), c, UserLookup(owner))
    ensures step == HearGithub(c, NotFound) && Asks(Some(s), c, OrganizationLookup(owner))
  {
  }

  // ----- Building runs -----

  lemma ReachesItself(server: AppState, env: Environment, s: State)
    ensures Reaches(server, env, s, s)
  {
    assert Run(server, env, s, []) == Some(s);
  }

  /** What is reached in an environment is reached in every wider one. */
  lemma {:induction false} WiderRun(
    server: AppState, env: Environment, wider: Environment, from: State, steps: seq<Step>)
    requires forall s, step :: env(s, step) ==> wider(s, step)
    requires Run(server, env, from, steps).Some?
    ensures Run(server, wider, from, steps) == Run(server, env, from, steps)
  {
    if steps == [] {
    } else {
      WiderRun(server, env, wider, from, steps[..|steps| - 1]);
    }
  }

  lemma WiderReachable(server: AppState, env: Environment, wider: Environment, s: State)
    requires forall s, step :: env(s, step) ==> wider(s, step)
    requires Reachable(server, env, s)
    ensures Reachable(server, wider, s)
  {
    var start :| Reaches(server, env, Init(start), s);
    var steps :| Run(server, env, Init(start), steps) == Some(s);
    WiderRun(server, env, wider, Init(start), steps);
    assert Reaches(server, wider, Init(start), s);
  }

  lemma ReachesNext(server: AppState, env: Environment, from: State, s: State, step: Step)
    requires Reaches(server, env, from, s) && Enabled(server, s, step) && env(s, step)
    ensures Reaches(server, env, from, Apply(server, s, step))
  {
    var steps :| Run(server, env, from, steps) == Some(s);
    assert (steps + [step])[..|steps|] == steps;
    assert Run(server, env, from, steps + [step]) == Some(Apply(server, s, step));
  }
}
