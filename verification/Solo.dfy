// Every run in which nothing but time disturbs one call: the call has exactly the outcome of the
// sequential client.
module Solo {
  import opened Wrappers
  import opened Service
  import opened Github
  import opened Handlers
  import opened Broker

  /** Only this call takes steps, it is not dropped, and it meets these surroundings. */
  function OnlyCall(c: CallId, request: HttpRequest, around: Surroundings): Environment {
    (s: State, step: Step) =>
      step.Tick? || (step.call == c && !step.Drop? && Meets(s, step, request, around))
  }

  predicate Meets(s: State, step: Step, request: HttpRequest, around: Surroundings) {
    match step
    case Begin(_, begun) => begun == request
    case ReadClock(_) => s.now == around.readAt
    case Sign(_, succeeds) => succeeds == around.signs
    case HearGithub(c, reply) =>
      c in s.calls && s.calls[c].progress.AskingGithub? ==>
        reply == around.directory(s.calls[c].prepared.app.appId, s.calls[c].progress.lookup)
    case SendPost(c, answer) =>
      c in s.calls && s.calls[c].progress.IdReady? ==>
        var p := s.calls[c].prepared;
        var body := BuildTokenRequest(p.scope, p.target);
        body.Some? ==> answer == around.mint(Post(p.app.appId, s.calls[c].progress.id, body.value))
    case ReadDeadline(_) => s.now == around.writtenAt
    case _ => true
  }

  /** What a lookup on this path leads to. */
  function LeadsTo(directory: Directory, appId: nat, lookup: Lookup): Option<nat> {
    var reply := directory(appId, lookup);
    if lookup.OrganizationLookup? && reply.NotFound? then IdOf(directory(appId, UserLookup(lookup.owner)))
    else IdOf(reply)
  }

  /** What is still to come of a call at this stage, if it sent this post already. */
  function Rest(cache: Cache, p: Prepared, progress: Progress, around: Surroundings, sent: Option<Post>): Outcome {
    match progress
    case TokenMissed =>
      if !around.signs then Outcome(cache, None, None) else LookUpAlone(cache, around, p.app, p.target, p.scope)
    case Signed => LookUpAlone(cache, around, p.app, p.target, p.scope)
    case AskingGithub(lookup) =>
      (match LeadsTo(around.directory, p.app.appId, lookup)
       case None => Outcome(cache, None, None)
       case Some(id) => MintAlone(cache.PutId(p.app.name, p.target, id), around, p.app, p.target, p.scope, id))
    case IdFetched(id) => MintAlone(cache.PutId(p.app.name, p.target, id), around, p.app, p.target, p.scope, id)
    case IdReady(id) => MintAlone(cache, around, p.app, p.target, p.scope, id)
    case Minted(token, _) =>
      Outcome(cache.PutToken(KeyOf(p), token, around.writtenAt + 3_000_000_000_000), Some(token), sent)
    case DeadlineRead(token, _, refreshAfter) =>
      Outcome(cache.PutToken(KeyOf(p), token, refreshAfter), Some(token), sent)
    case Returned(token, _) => Outcome(cache, Some(token), sent)
    case Failed(_) => Outcome(cache, None, sent)
    case Dropped => Outcome(cache, None, sent)
    case _ => CallAlone(cache, around, p.app, p.target, p.scope)
  }

  /** The post the call has sent since `from`, if any. */
  ghost predicate SentSince(from: State, s: State, c: CallId, p: Prepared, sent: Option<Post>) {
    match sent
    case None => s.posts == from.posts
    case Some(post) =>
      && |s.posts| == |from.posts| + 1 && from.posts <= s.posts
      && s.posts[|from.posts|].caller == c && s.posts[|from.posts|].key == KeyOf(p)
      && s.posts[|from.posts|].post == post
  }

  /** The answer to the post is what the call goes on with. */
  predicate StageOk(progress: Progress, around: Surroundings, sent: Option<Post>, answer: Option<InstallationToken>) {
    match progress
    case ClockRead(at) => at == around.readAt && sent.None?
    case Minted(token, _) => sent.Some? && answer == Some(token)
    case DeadlineRead(token, _, refreshAfter) =>
      sent.Some? && answer == Some(token) && refreshAfter == around.writtenAt + 3_000_000_000_000
    case Returned(token, servedAt) =>
      if sent.Some? then answer == Some(token) && servedAt.None? else servedAt == Some(around.readAt)
    case Failed(_) => sent.Some? ==> answer.None?
    case Dropped => false
    case _ => sent.None?
  }

  ghost function AnswerSince(from: State, s: State): Option<InstallationToken> {
    if |from.posts| < |s.posts| then s.posts[|from.posts|].token else None
  }

  ghost predicate OnCourse(from: State, s: State, c: CallId, p: Prepared, around: Surroundings, sent: Option<Post>) {
    && c in s.calls && s.calls == from.calls[c := s.calls[c]] && s.calls[c].prepared == p
    && SentSince(from, s, c, p, sent)
    && StageOk(s.calls[c].progress, around, sent, AnswerSince(from, s))
    && Rest(s.cache, p, s.calls[c].progress, around, sent)
         == CallAlone(from.cache, around, p.app, p.target, p.scope)
  }

  ghost predicate SoloInv(from: State, s: State, c: CallId, p: Prepared, around: Surroundings) {
    if c in s.calls then exists sent :: OnCourse(from, s, c, p, around, sent)
    else s.calls == from.calls && s.posts == from.posts && s.cache == from.cache
  }

  /** No step but the post changes what is still to come of the call. */
  lemma StepKeepsRest(
    server: AppState, s: State, step: Step, c: CallId, request: HttpRequest, around: Surroundings,
    sent: Option<Post>, answer: Option<InstallationToken>)
    requires Enabled(server, s, step) && OnlyCall(c, request, around)(s, step)
    requires !step.Tick? && c in s.calls && !step.SendPost?
    requires StageOk(s.calls[c].progress, around, sent, answer)
    ensures var s', p := Apply(server, s, step), s.calls[c].prepared;
      && c in s'.calls && StageOk(s'.calls[c].progress, around, sent, answer)
      && Rest(s'.cache, p, s'.calls[c].progress, around, sent) == Rest(s.cache, p, s.calls[c].progress, around, sent)
  {
  }

  lemma StepStaysOnCourse(
    server: AppState, from: State, s: State, step: Step, c: CallId, request: HttpRequest, around: Surroundings,
    sent: Option<Post>)
    requires Handle(server, request).Ok? && Enabled(server, s, step) && OnlyCall(c, request, around)(s, step)
    requires !step.Tick? && c in s.calls && !step.SendPost?
    requires OnCourse(from, s, c, Handle(server, request).value, around, sent)
    ensures OnCourse(from, Apply(server, s, step), c, Handle(server, request).value, around, sent)
  {
    CallStep(server, s, step);
    StepKeepsRest(server, s, step, c, request, around, sent, AnswerSince(from, s));
  }

  lemma PostIsOnCourse(
    from: State, s: State, s': State, c: CallId, p: Prepared, around: Surroundings, post: Post,
    answer: Option<InstallationToken>)
    requires c in s.calls && s.calls[c].progress.IdReady? && OnCourse(from, s, c, p, around, None)
    requires BuildTokenRequest(p.scope, p.target).Some? && answer == around.mint(post)
    requires post == Post(p.app.appId, s.calls[c].progress.id, BuildTokenRequest(p.scope, p.target).value)
    requires var next := if answer.Some? then Minted(answer.value, |s.posts|) else Failed(MintFailed);
      s' == s.(calls := s.calls[c := s.calls[c].(progress := next)],
               posts := s.posts + [Sent(c, s.now, KeyOf(p), post, answer)])
    ensures OnCourse(from, s', c, p, around, Some(post))
  {
  }

  lemma PostStaysOnCourse(
    server: AppState, from: State, s: State, step: Step, c: CallId, request: HttpRequest, around: Surroundings)
    requires Handle(server, request).Ok? && Enabled(server, s, step) && OnlyCall(c, request, around)(s, step)
    requires step.SendPost? && c in s.calls
    requires OnCourse(from, s, c, Handle(server, request).value, around, None)
    ensures SoloInv(from, Apply(server, s, step), c, Handle(server, request).value, around)
  {
    var p := Handle(server, request).value;
    HandledRequestsAreMintable(server, request);
    var post := Post(p.app.appId, s.calls[c].progress.id, BuildTokenRequest(p.scope, p.target).value);
    SendPostStep(server, s, step);
    assert step.answer == around.mint(post);
    PostIsOnCourse(from, s, Apply(server, s, step), c, p, around, post, step.answer);
  }

  lemma StepKeepsSolo(
    server: AppState, from: State, s: State, step: Step, c: CallId, request: HttpRequest, around: Surroundings)
    requires Handle(server, request).Ok? && Enabled(server, s, step) && OnlyCall(c, request, around)(s, step)
    requires SoloInv(from, s, c, Handle(server, request).value, around)
    ensures SoloInv(from, Apply(server, s, step), c, Handle(server, request).value, around)
  {
    var p, s' := Handle(server, request).value, Apply(server, s, step);
    if c in s.calls {
      var sent :| OnCourse(from, s, c, p, around, sent);
      if step.Tick? {
        assert OnCourse(from, s', c, p, around, sent);
      } else if step.SendPost? {
        PostStaysOnCourse(server, from, s, step, c, request, around);
      } else {
        StepStaysOnCourse(server, from, s, step, c, request, around, sent);
      }
    } else if step.Begin? {
      assert OnCourse(from, s', c, p, around, None);
    }
  }

  lemma {:induction false} RunKeepsSolo(
    server: AppState, from: State, steps: seq<Step>, c: CallId, request: HttpRequest, around: Surroundings)
    requires Handle(server, request).Ok? && c !in from.calls
    ensures var r := Run(server, OnlyCall(c, request, around), from, steps);
      r.Some? ==> SoloInv(from, r.value, c, Handle(server, request).value, around)
  {
    var env := OnlyCall(c, request, around);
    if steps == [] {
    } else if Run(server, env, from, steps).Some? {
      var front := steps[..|steps| - 1];
      RunKeepsSolo(server, from, front, c, request, around);
      StepKeepsSolo(server, from, Run(server, env, from, front).value, steps[|steps| - 1], c, request, around);
    }
  }

  /** Whenever nothing but time disturbs a call and it comes to its end, it leaves the cache, returns the
      token and has sent the post of the sequential client in the same surroundings, and it has touched
      no other call. */
  lemma UndisturbedCallsAgree(
    server: AppState, from: State, steps: seq<Step>, c: CallId, request: HttpRequest, around: Surroundings)
    requires Handle(server, request).Ok? && c !in from.calls
    requires Run(server, OnlyCall(c, request, around), from, steps).Some?
    requires var s := Run(server, OnlyCall(c, request, around), from, steps).value;
      c in s.calls && !s.calls[c].InFlight()
    ensures var p, s := Handle(server, request).value, Run(server, OnlyCall(c, request, around), from, steps).value;
      var outcome := CallAlone(from.cache, around, p.app, p.target, p.scope);
      && s.cache == outcome.cache && s.calls == from.calls[c := s.calls[c]]
      && (match outcome.token
          case Some(token) =>
            s.calls[c].progress == Returned(token, if outcome.post.Some? then None else Some(around.readAt))
          case None => s.calls[c].progress.Failed?)
      && SentSince(from, s, c, p, outcome.post)
      && (outcome.post.Some? ==> AnswerSince(from, s) == outcome.token)
  {
    RunKeepsSolo(server, from, steps, c, request, around);
    var p, s := Handle(server, request).value, Run(server, OnlyCall(c, request, around), from, steps).value;
    var sent :| OnCourse(from, s, c, p, around, sent);
  }
}
