// The cached, concurrent client refines a client that keeps no cache and may only hand over a recent
// answer again, when GitHub's installations do not change during the run.
module Refinement {
  import opened Wrappers
  import opened Text
  import opened Configuration
  import opened Service
  import opened Github
  import opened Handlers
  import opened Broker
  import opened Freshness

  /** GitHub's installations, whether GitHub may fail to answer a lookup at times, and whether signing
      may fail. */
  datatype World = World(directory: Directory, mayBreak: bool, mayNotSign: bool)
  {
    /** The installation of an app and target: an owner's as an organization, else as a user; a
        repository's under the owner before its first slash. */
    function IdOfTarget(appId: nat, target: InstallationTarget): Option<nat> {
      match target
      case Account(owner) =>
        (match directory(appId, OrganizationLookup(owner))
         case Found(id) => Some(id)
         case Broken => None
         case NotFound =>
           match directory(appId, UserLookup(owner))
           case Found(id) => Some(id)
           case _ => None)
      case Repository(repo) =>
        match SplitOnce(repo, '/')
        case None => None
        case Some((owner, name)) =>
          match directory(appId, RepositoryLookup(owner, name))
          case Found(id) => Some(id)
          case _ => None
    }

    function Id(p: Prepared): Option<nat> {
      IdOfTarget(p.app.appId, p.target)
    }

    /** What an uncached client sends for a request, when its lookup succeeds. */
    function UncachedPost(p: Prepared): Option<Post> {
      match (Id(p), BuildTokenRequest(p.scope, p.target))
      case (Some(id), Some(body)) => Some(Post(p.app.appId, id, body))
      case _ => None
    }
  }

  /** What the client's lookup resolves is the installation of the app and target. */
  lemma ResolveIsTheId(w: World, appId: nat, target: InstallationTarget)
    ensures Resolve(w.directory, appId, target) == w.IdOfTarget(appId, target)
  {
    match target
    case Account(owner) => ResolveByCases(w.directory, appId, owner, "");
    case Repository(repo) =>
      match SplitOnce(repo, '/') {
        case None => ResolveByCases(w.directory, appId, repo, "");
        case Some((owner, name)) => ResolveByCases(w.directory, appId, owner, name);
      }
  }

  /** GitHub answers every installation lookup as the directory says, or breaks where it may; signing
      fails only where it may. */
  function Steady(w: World): Environment {
    (s: State, step: Step) =>
      && (step.Sign? ==> step.succeeds || w.mayNotSign)
      && (step.HearGithub? && step.call in s.calls && s.calls[step.call].progress.AskingGithub? ==>
            Answers(w, s.calls[step.call], step.reply))
  }

  predicate Answers(w: World, call: Call, reply: Reply)
    requires call.progress.AskingGithub?
  {
    reply == w.directory(call.prepared.app.appId, call.progress.lookup) || (w.mayBreak && reply.Broken?)
  }

  /** Every id GitHub named is the directory's answer for its app and target, a user is only asked
      about after the organization's 404, and lookups only fail for cause. */
  ghost predicate DirectoryInv(w: World, s: State) {
    && (forall r :: r in s.resolutions ==> w.IdOfTarget(r.app.appId, r.target) == Some(r.id))
    && (forall c :: c in s.calls ==> LookupOk(w, s.calls[c]) && FailureOk(w, s.calls[c]))
  }

  predicate LookupOk(w: World, call: Call) {
    var p := call.prepared;
    call.progress.AskingGithub? && FirstLookup(p.target) != Some(call.progress.lookup) ==>
      && p.target.Account? && call.progress.lookup == UserLookup(p.target.owner)
      && w.directory(p.app.appId, OrganizationLookup(p.target.owner)).NotFound?
  }

  /** A lookup that fails has no answer in the directory, unless GitHub broke where it may; signing
      fails only where it may. */
  predicate FailureOk(w: World, call: Call) {
    && (call.progress == Failed(SigningFailed) ==> w.mayNotSign)
    && (call.progress == Failed(NoInstallation) ==> w.Id(call.prepared).None?)
    && (call.progress == Failed(LookupBroke) ==> w.mayBreak || w.Id(call.prepared).None?)
  }

  lemma StepKeepsDirectory(server: AppState, w: World, s: State, step: Step)
    requires Inv(server, s) && DirectoryInv(w, s) && Enabled(server, s, step) && Steady(w)(s, step)
    ensures DirectoryInv(w, Apply(server, s, step))
  {
    if step.HearGithub? {
      HearGithubKeepsDirectory(server, w, s, step);
    } else {
      OthersKeepDirectory(server, w, s, step);
    }
  }

  lemma OthersKeepDirectory(server: AppState, w: World, s: State, step: Step)
    requires DirectoryInv(w, s) && Enabled(server, s, step) && !step.HearGithub? && Steady(w)(s, step)
    ensures DirectoryInv(w, Apply(server, s, step))
  {
    var s' := Apply(server, s, step);
    assert s'.resolutions == s.resolutions;
    forall c | c in s'.calls ensures LookupOk(w, s'.calls[c]) && FailureOk(w, s'.calls[c]) {
      if c in s.calls { assert LookupOk(w, s.calls[c]) && FailureOk(w, s.calls[c]); }
    }
  }

  /** Where a reply takes the call that asked. */
  lemma ReplyKeepsDirectory(w: World, call: Call, reply: Reply)
    requires call.progress.AskingGithub? && LookupFor(call.prepared.target, call.progress.lookup) && LookupOk(w, call)
    requires Answers(w, call, reply)
    ensures var after := call.(progress := AfterReply(call.progress.lookup, reply));
      LookupOk(w, after) && FailureOk(w, after)
    ensures reply.Found? ==> w.Id(call.prepared) == Some(reply.id)
  {
  }

  lemma HearGithubKeepsDirectory(server: AppState, w: World, s: State, step: Step)
    requires Inv(server, s) && DirectoryInv(w, s)
    requires step.HearGithub? && Enabled(server, s, step) && Steady(w)(s, step)
    ensures DirectoryInv(w, Apply(server, s, step))
  {
    var s' := Apply(server, s, step);
    var call := s.calls[step.call];
    assert CallOk(server, s, step.call, call) && LookupOk(w, call);
    ReplyKeepsDirectory(w, call, step.reply);
    forall r | r in s'.resolutions ensures w.IdOfTarget(r.app.appId, r.target) == Some(r.id) {
      if r !in s.resolutions {
        assert r == Resolution(call.prepared.app, call.prepared.target, call.progress.lookup, step.reply.id);
      }
    }
    forall c | c in s'.calls ensures LookupOk(w, s'.calls[c]) && FailureOk(w, s'.calls[c]) {
      if c != step.call { assert LookupOk(w, s.calls[c]) && FailureOk(w, s.calls[c]); }
    }
  }

  lemma {:induction false} RunKeepsDirectory(server: AppState, w: World, from: State, steps: seq<Step>)
    requires NamesOk(server) && Inv(server, from) && DirectoryInv(w, from)
    ensures Run(server, Steady(w), from, steps).Some? ==>
      DirectoryInv(w, Run(server, Steady(w), from, steps).value)
  {
    if steps == [] {
    } else if Run(server, Steady(w), from, steps).Some? {
      var front := steps[..|steps| - 1];
      RunKeepsDirectory(server, w, from, front);
      RunKeepsInv(server, Steady(w), from, front);
      StepKeepsDirectory(server, w, Run(server, Steady(w), from, front).value, steps[|steps| - 1]);
    }
  }

  lemma SteadyInv(server: AppState, w: World, s: State)
    requires NamesOk(server) && Reachable(server, Steady(w), s)
    ensures Inv(server, s) && DirectoryInv(w, s)
  {
    ReachableInv(server, Steady(w), s);
    var start :| Reaches(server, Steady(w), Init(start), s);
    var steps :| Run(server, Steady(w), Init(start), steps) == Some(s);
    RunKeepsDirectory(server, w, Init(start), steps);
  }

  /** A call whose lookup fails has no installation in the directory, where GitHub does not break. */
  lemma FailedLookupsHaveNoInstallation(server: AppState, w: World, s: State, c: CallId)
    requires NamesOk(server) && Reachable(server, Steady(w), s) && c in s.calls
    requires s.calls[c].progress == Failed(NoInstallation)
          || (s.calls[c].progress == Failed(LookupBroke) && !w.mayBreak)
    ensures w.Id(s.calls[c].prepared).None?
  {
    SteadyInv(server, w, s);
    assert FailureOk(w, s.calls[c]);
  }

  /** Every cached id is the directory's answer for every app and target that would find it. */
  lemma CachedIdsAreTheDirectorys(
    server: AppState, w: World, s: State, app: GithubAppConfig, target: InstallationTarget)
    requires NamesOk(server) && Reachable(server, Steady(w), s) && app in server.githubApps
    requires s.cache.FindId(app.name, target).Some?
    ensures s.cache.FindId(app.name, target) == w.IdOfTarget(app.appId, target)
  {
    SteadyInv(server, w, s);
    CachedIdIsResolved(server, s, app, target);
    ResolvedIsTheDirectorys(w, s, app, target, s.cache.FindId(app.name, target).value);
  }

  lemma ResolvedIsTheDirectorys(
    w: World, s: State, app: GithubAppConfig, target: InstallationTarget, id: nat)
    requires DirectoryInv(w, s) && Resolved(s, app, target, id)
    ensures w.IdOfTarget(app.appId, target) == Some(id)
  {
    var lookup :| Resolution(app, target, lookup, id) in s.resolutions && LookupFor(target, lookup);
  }

  /** An id inserted over one that a racing call inserted first changes nothing. */
  lemma RacingInsertIsNoOp(server: AppState, w: World, s: State, c: CallId)
    requires NamesOk(server) && Reachable(server, Steady(w), s) && Enabled(server, s, StoreId(c))
    requires var p := s.calls[c].prepared; s.cache.FindId(p.app.name, p.target).Some?
    ensures Apply(server, s, StoreId(c)).cache == s.cache
  {
    SteadyInv(server, w, s);
    var p := s.calls[c].prepared;
    FetchedIdIsTheDirectorys(server, w, s, c);
    CachedIdsAreTheDirectorys(server, w, s, p.app, p.target);
    SameInsert(s.cache.ids, IdKey(p.app.name, p.target), s.calls[c].progress.id);
  }

  lemma FetchedIdIsTheDirectorys(server: AppState, w: World, s: State, c: CallId)
    requires Inv(server, s) && DirectoryInv(w, s) && c in s.calls && s.calls[c].progress.IdFetched?
    ensures var p := s.calls[c].prepared;
      p.app in server.githubApps && w.Id(p) == Some(s.calls[c].progress.id)
  {
    var call := s.calls[c];
    assert CallOk(server, s, c, call);
    HandledRequestsAreMintable(server, call.request);
    ResolvedIsTheDirectorys(w, s, call.prepared.app, call.prepared.target, call.progress.id);
  }

  lemma SameInsert(ids: map<string, nat>, key: string, id: nat)
    requires key in ids && ids[key] == id
    ensures ids[key := id] == ids
  {
  }

  // ----- The client without a cache -----

  /** Where a request stands. `Looking` has noted an instant as of which an earlier answer may do. */
  datatype Status =
    | Waiting
    | Looking(at: Instant)
    | Answered(token: InstallationToken, post: nat)
    | Stamped(token: InstallationToken, post: nat)
    | Served(token: InstallationToken)
    | Refused(reason: Failure)
    | Left

  datatype PlainCall = PlainCall(prepared: Prepared, status: Status)

  datatype PlainPost = PlainPost(prepared: Prepared, post: Post, token: Option<InstallationToken>)

  datatype Plain = Plain(now: Instant, calls: map<CallId, PlainCall>, posts: seq<PlainPost>, deadlines: set<Deadline>)

  datatype Move =
    | Idle
    | Wait(elapsed: nat)
    | Arrive(call: CallId, request: HttpRequest)
    | Look(call: CallId)
    | LookAway(call: CallId)
    | Share(call: CallId, stamp: Deadline)
    | Ask(call: CallId, answer: Option<InstallationToken>)
    | Stamp(call: CallId)
    | Deliver(call: CallId)
    | Refuse(call: CallId, reason: Failure)
    | Leave(call: CallId)

  function Becomes(a: Plain, c: CallId, status: Status): Plain
    requires c in a.calls
  {
    a.(calls := a.calls[c := a.calls[c].(status := status)])
  }

  /** An earlier answer may be handed over again: it was given to an identical request, and stamped less
      than fifty minutes before the instant. */
  predicate Reusable(a: Plain, p: Prepared, at: Instant, stamp: Deadline) {
    && stamp in a.deadlines && stamp.post < |a.posts|
    && a.posts[stamp.post].prepared == p && a.posts[stamp.post].token.Some?
    && at < stamp.readAt + 3_000_000_000_000
  }

  /** A request is refused without a post for one of these reasons only. */
  predicate Refusable(w: World, p: Prepared, reason: Failure) {
    match reason
    case SigningFailed => w.mayNotSign
    case NoInstallation => w.Id(p).None?
    case LookupBroke => w.mayBreak || w.Id(p).None?
    case _ => false
  }

  /** What a client without a cache does: for a waiting request it looks the installation up and posts,
      at most once, stamps the answer and hands it over. In place of posting it may hand over a reusable
      answer. It refuses only for cause; a caller may leave at any time. */
  ghost predicate PlainStep(server: AppState, w: World, a: Plain, b: Plain, move: Move) {
    match move
    case Idle => b == a
    case Wait(elapsed) => b == a.(now := a.now + elapsed)
    case Arrive(c, request) =>
      && c !in a.calls && Handle(server, request).Ok?
      && b == a.(calls := a.calls[c := PlainCall(Handle(server, request).value, Waiting)])
    case Look(c) => c in a.calls && a.calls[c].status == Waiting && b == Becomes(a, c, Looking(a.now))
    case LookAway(c) => c in a.calls && a.calls[c].status.Looking? && b == Becomes(a, c, Waiting)
    case Share(c, stamp) =>
      && c in a.calls && a.calls[c].status.Looking?
      && Reusable(a, a.calls[c].prepared, a.calls[c].status.at, stamp)
      && b == Becomes(a, c, Served(a.posts[stamp.post].token.value))
    case Ask(c, answer) =>
      && c in a.calls && a.calls[c].status == Waiting
      && var p := a.calls[c].prepared;
         var post := w.UncachedPost(p);
         && post.Some?
         && b == Becomes(a, c, if answer.Some? then Answered(answer.value, |a.posts|) else Refused(MintFailed)).(
                   posts := a.posts + [PlainPost(p, post.value, answer)])
    case Stamp(c) =>
      && c in a.calls && a.calls[c].status.Answered?
      && var status := a.calls[c].status;
         b == Becomes(a, c, Stamped(status.token, status.post)).(
                deadlines := a.deadlines + {Deadline(status.post, a.now)})
    case Deliver(c) => c in a.calls && a.calls[c].status.Stamped? && b == Becomes(a, c, Served(a.calls[c].status.token))
    case Refuse(c, reason) =>
      && c in a.calls && a.calls[c].status == Waiting && Refusable(w, a.calls[c].prepared, reason)
      && b == Becomes(a, c, Refused(reason))
    case Leave(c) =>
      && c in a.calls && !a.calls[c].status.Served? && !a.calls[c].status.Refused? && !a.calls[c].status.Left?
      && b == Becomes(a, c, Left)
  }

  function StatusOf(progress: Progress): Status {
    match progress
    case ClockRead(at) => Looking(at)
    case Minted(token, e) => Answered(token, e)
    case DeadlineRead(token, e, _) => Stamped(token, e)
    case Returned(token, _) => Served(token)
    case Failed(reason) => Refused(reason)
    case Dropped => Left
    case _ => Waiting
  }

  function PlainCallOf(call: Call): PlainCall {
    PlainCall(call.prepared, StatusOf(call.progress))
  }

  ghost function PlainPostOf(s: State, sent: Sent): PlainPost
    requires sent.caller in s.calls
  {
    PlainPost(s.calls[sent.caller].prepared, sent.post, sent.token)
  }

  ghost predicate Viewable(s: State) {
    forall e :: 0 <= e < |s.posts| ==> s.posts[e].caller in s.calls
  }

  /** What the concurrent client looks like without its cache and its intermediate stages. */
  ghost function View(s: State): Plain
    requires Viewable(s)
  {
    Plain(s.now,
          map c | c in s.calls :: PlainCallOf(s.calls[c]),
          seq(|s.posts|, e requires 0 <= e < |s.posts| => PlainPostOf(s, s.posts[e])),
          s.deadlines)
  }

  /** The step from `s` to `s'` is this move of the client without a cache. */
  ghost predicate Refines(server: AppState, w: World, s: State, s': State, move: Move) {
    Viewable(s) && Viewable(s') && PlainStep(server, w, View(s), View(s'), move)
  }

  lemma InvViewable(server: AppState, s: State)
    requires Inv(server, s)
    ensures Viewable(s)
  {
    assert forall e :: 0 <= e < |s.posts| ==> SentOk(s, s.posts[e]);
  }

  /** A step of one call changes the view of that call, and adds the view of a new post. */
  lemma ViewOfStep(s: State, s': State, c: CallId)
    requires Viewable(s) && c in s'.calls && s.posts <= s'.posts && |s'.posts| <= |s.posts| + 1
    requires s'.calls == s.calls[c := s'.calls[c]]
    requires c in s.calls ==> s'.calls[c].prepared == s.calls[c].prepared
    requires |s.posts| < |s'.posts| ==> s'.posts[|s.posts|].caller == c
    ensures Viewable(s')
    ensures View(s').calls == View(s).calls[c := PlainCallOf(s'.calls[c])]
    ensures s'.posts == s.posts ==> View(s').posts == View(s).posts
    ensures s'.posts != s.posts ==> View(s').posts == View(s).posts + [PlainPostOf(s', s'.posts[|s.posts|])]
    ensures c in s.calls && PlainCallOf(s'.calls[c]) == PlainCallOf(s.calls[c]) ==> View(s').calls == View(s).calls
  {
    assert forall e :: 0 <= e < |s.posts| ==> s'.posts[e] == s.posts[e];
    if s'.posts != s.posts { assert |s'.posts| == |s.posts| + 1; }
  }

  /** In every interleaving, each step of the cached client is a move of the client without a cache:
      it posts exactly what that client posts, refuses only for the same reasons, and otherwise serves
      only what that client may. */
  lemma CachedClientRefinesPlain(server: AppState, w: World, s: State, step: Step)
    requires NamesOk(server) && Reachable(server, Steady(w), s)
    requires Enabled(server, s, step) && Steady(w)(s, step)
    ensures exists move :: Refines(server, w, s, Apply(server, s, step), move)
  {
    SteadyInv(server, w, s);
    AgeReachable(server, Steady(w), s);
    InvViewable(server, s);
    StepKeepsDirectory(server, w, s, step);
    if step.Tick? {
      RefineTick(server, w, s, step);
    } else if step.Begin? {
      RefineBegin(server, w, s, step);
    } else if step.SendPost? {
      RefineSendPost(server, w, s, step);
    } else if step.LookUpToken? {
      var _ := RefineLookUpToken(server, w, s, step);
    } else {
      StepKeepsInv(server, s, step);
      CallStep(server, s, step);
      RefusedForCause(server, w, Apply(server, s, step), step.call);
      var _ := RefineOthers(server, w, s, step);
    }
  }

  lemma RefineTick(server: AppState, w: World, s: State, step: Step)
    requires Viewable(s) && step.Tick?
    ensures Refines(server, w, s, Apply(server, s, step), Wait(step.elapsed))
  {
    var s' := Apply(server, s, step);
    assert View(s').posts == View(s).posts;
  }

  lemma RefineBegin(server: AppState, w: World, s: State, step: Step)
    requires Viewable(s) && step.Begin? && Enabled(server, s, step)
    ensures Refines(server, w, s, Apply(server, s, step), Arrive(step.call, step.request))
  {
    ViewOfStep(s, Apply(server, s, step), step.call);
  }

  /** The move that takes a call from one status to another, where no answer is given. */
  function MoveBetween(c: CallId, before: Status, after: Status): Move {
    if before == after then Idle
    else
      match after
      case Looking(_) => Look(c)
      case Stamped(_, _) => Stamp(c)
      case Served(_) => Deliver(c)
      case Refused(reason) => Refuse(c, reason)
      case _ => Leave(c)
  }

  /** How a step that gives no answer takes a call from one status to another. */
  ghost predicate StatusMoves(s: State, s': State, before: Status, after: Status) {
    && (|| before == after
        || (before == Waiting && after == Looking(s.now))
        || (before.Answered? && after == Stamped(before.token, before.post))
        || (before.Stamped? && after == Served(before.token))
        || (before == Waiting && after.Refused? && after.reason != MintFailed)
        || (!before.Served? && !before.Refused? && !before.Left? && after.Left?))
    && s'.deadlines == if before != after && after.Stamped? then s.deadlines + {Deadline(before.post, s.now)}
                       else s.deadlines
  }

  lemma OtherStages(server: AppState, s: State, step: Step)
    requires Enabled(server, s, step)
    requires !step.Tick? && !step.Begin? && !step.SendPost? && !step.LookUpToken?
    ensures var s' := Apply(server, s, step);
      StatusMoves(s, s', StatusOf(s.calls[step.call].progress), StatusOf(s'.calls[step.call].progress))
  {
  }

  lemma RefusedForCause(server: AppState, w: World, s: State, c: CallId)
    requires Inv(server, s) && DirectoryInv(w, s) && c in s.calls
    ensures RefusalOk(w, s.calls[c])
  {
    assert CallOk(server, s, c, s.calls[c]) && FailureOk(w, s.calls[c]);
  }

  predicate RefusalOk(w: World, call: Call) {
    call.progress.Failed? && call.progress.reason != MintFailed ==> Refusable(w, call.prepared, call.progress.reason)
  }

  lemma RefineOthers(server: AppState, w: World, s: State, step: Step) returns (move: Move)
    requires Viewable(s) && Enabled(server, s, step)
    requires !step.Tick? && !step.Begin? && !step.SendPost? && !step.LookUpToken?
    requires RefusalOk(w, Apply(server, s, step).calls[step.call])
    ensures Refines(server, w, s, Apply(server, s, step), move)
  {
    var s', c := Apply(server, s, step), step.call;
    CallStep(server, s, step);
    OtherStages(server, s, step);
    ViewOfMove(server, w, s, s', c);
    move := MoveBetween(c, StatusOf(s.calls[c].progress), StatusOf(s'.calls[c].progress));
  }

  lemma ViewOfMove(server: AppState, w: World, s: State, s': State, c: CallId)
    requires Viewable(s) && c in s.calls && c in s'.calls && s'.calls == s.calls[c := s'.calls[c]]
    requires s'.calls[c].prepared == s.calls[c].prepared && s'.now == s.now && s'.posts == s.posts
    requires StatusMoves(s, s', StatusOf(s.calls[c].progress), StatusOf(s'.calls[c].progress))
    requires RefusalOk(w, s'.calls[c])
    ensures Refines(server, w, s, s', MoveBetween(c, StatusOf(s.calls[c].progress), StatusOf(s'.calls[c].progress)))
  {
    ViewOfStep(s, s', c);
  }

  /** The post a call sends is the one an uncached client sends for its request. */
  lemma PostIsTheUncachedPost(server: AppState, w: World, s: State, step: Step)
    requires Inv(server, s) && DirectoryInv(w, s) && step.SendPost? && Enabled(server, s, step)
    ensures var s', c, p := Apply(server, s, step), step.call, s.calls[step.call].prepared;
      var post := w.UncachedPost(p);
      && post.Some?
      && s' == s.(posts := s.posts + [Sent(c, s.now, KeyOf(p), post.value, step.answer)],
                  calls := s.calls[c := s.calls[c].(progress :=
                    if step.answer.Some? then Minted(step.answer.value, |s.posts|) else Failed(MintFailed))])
  {
    var call := s.calls[step.call];
    var p := call.prepared;
    assert CallOk(server, s, step.call, call);
    HandledRequestsAreMintable(server, call.request);
    ResolvedIsTheDirectorys(w, s, p.app, p.target, call.progress.id);
  }

  lemma RefineSendPost(server: AppState, w: World, s: State, step: Step)
    requires Inv(server, s) && DirectoryInv(w, s) && Viewable(s)
    requires step.SendPost? && Enabled(server, s, step)
    ensures Refines(server, w, s, Apply(server, s, step), Ask(step.call, step.answer))
  {
    PostIsTheUncachedPost(server, w, s, step);
    ViewOfPost(server, w, s, Apply(server, s, step), step.call, step.answer);
  }

  lemma ViewOfPost(
    server: AppState, w: World, s: State, s': State, c: CallId, answer: Option<InstallationToken>)
    requires Viewable(s) && c in s.calls && StatusOf(s.calls[c].progress) == Waiting
    requires var p := s.calls[c].prepared;
      var post := w.UncachedPost(p);
      && post.Some?
      && s' == s.(posts := s.posts + [Sent(c, s.now, KeyOf(p), post.value, answer)],
                  calls := s.calls[c := s.calls[c].(progress :=
                    if answer.Some? then Minted(answer.value, |s.posts|) else Failed(MintFailed))])
    ensures Refines(server, w, s, s', Ask(c, answer))
  {
    ViewOfStep(s, s', c);
  }

  /** A token from the cache was given to an identical request, and stamped less than fifty minutes
      before the clock reading. */
  lemma HitIsReusable(server: AppState, s: State, c: CallId) returns (stamp: Deadline)
    requires Inv(server, s) && AgeInv(s) && NamesOk(server) && c in s.calls && s.calls[c].progress.ClockRead?
    requires s.cache.FindToken(s.calls[c].Key(), s.calls[c].progress.readAt).Some?
    ensures stamp in s.deadlines && stamp.post < |s.posts| && s.posts[stamp.post].caller in s.calls
    ensures s.calls[s.posts[stamp.post].caller].prepared == s.calls[c].prepared
    ensures s.posts[stamp.post].token == s.cache.FindToken(s.calls[c].Key(), s.calls[c].progress.readAt)
    ensures s.calls[c].progress.readAt < stamp.readAt + 3_000_000_000_000
  {
    var key := s.calls[c].Key();
    var cached := s.cache.tokens[key];
    assert AgedBy(s, key, cached.token, cached.refreshAfter);
    stamp :| stamp in s.deadlines && Backs(s, stamp.post, key, cached.token)
      && cached.refreshAfter == stamp.readAt + 3_000_000_000_000;
    BackedByIdentical(server, s, c, stamp.post, cached.token);
  }

  lemma BackedByIdentical(server: AppState, s: State, c: CallId, e: nat, token: InstallationToken)
    requires Inv(server, s) && NamesOk(server) && c in s.calls && Backs(s, e, s.calls[c].Key(), token)
    ensures s.posts[e].caller in s.calls && s.calls[s.posts[e].caller].prepared == s.calls[c].prepared
  {
    var sent := s.posts[e];
    assert SentOk(s, sent) && CallOk(server, s, sent.caller, s.calls[sent.caller]);
    assert CallOk(server, s, c, s.calls[c]);
    SameKeySameRequest(server, s.calls[sent.caller], s.calls[c]);
  }

  lemma LookUpTokenStatus(server: AppState, s: State, step: Step)
    requires step.LookUpToken? && Enabled(server, s, step)
    ensures var call, s' := s.calls[step.call], Apply(server, s, step);
      var hit := s.cache.FindToken(call.Key(), call.progress.readAt);
      && s'.deadlines == s.deadlines
      && StatusOf(call.progress) == Looking(call.progress.readAt)
      && StatusOf(s'.calls[step.call].progress) == if hit.Some? then Served(hit.value) else Waiting
  {
  }

  lemma RefineLookUpToken(server: AppState, w: World, s: State, step: Step) returns (move: Move)
    requires Inv(server, s) && AgeInv(s) && NamesOk(server) && Viewable(s)
    requires step.LookUpToken? && Enabled(server, s, step)
    ensures Refines(server, w, s, Apply(server, s, step), move)
  {
    var c, s' := step.call, Apply(server, s, step);
    CallStep(server, s, step);
    LookUpTokenStatus(server, s, step);
    if s.cache.FindToken(s.calls[c].Key(), s.calls[c].progress.readAt).Some? {
      var stamp := HitIsReusable(server, s, c);
      ViewOfShare(server, w, s, s', c, stamp);
      move := Share(c, stamp);
    } else {
      ViewOfStep(s, s', c);
      move := LookAway(c);
    }
  }

  lemma ViewOfShare(server: AppState, w: World, s: State, s': State, c: CallId, stamp: Deadline)
    requires Viewable(s) && c in s.calls && s.calls[c].progress.ClockRead?
    requires stamp in s.deadlines && stamp.post < |s.posts| && s.posts[stamp.post].token.Some?
    requires s.calls[s.posts[stamp.post].caller].prepared == s.calls[c].prepared
    requires s.calls[c].progress.readAt < stamp.readAt + 3_000_000_000_000
    requires s'.now == s.now && s'.posts == s.posts && s'.deadlines == s.deadlines
    requires c in s'.calls && s'.calls == s.calls[c := s'.calls[c]]
    requires s'.calls[c].prepared == s.calls[c].prepared
    requires StatusOf(s'.calls[c].progress) == Served(s.posts[stamp.post].token.value)
    ensures Refines(server, w, s, s', Share(c, stamp))
  {
    ViewOfStep(s, s', c);
    assert View(s).posts[stamp.post] == PlainPostOf(s, s.posts[stamp.post]);
  }

  /** A run of the client without a cache, from no requests to `last`. */
  ghost predicate PlainRun(server: AppState, w: World, states: seq<Plain>, start: Instant, last: Plain) {
    && states != [] && states[0] == Plain(start, map[], [], {}) && states[|states| - 1] == last
    && forall i :: 0 <= i < |states| - 1 ==> PlainNext(server, w, states[i], states[i + 1])
  }

  ghost predicate PlainNext(server: AppState, w: World, a: Plain, b: Plain) {
    exists move :: PlainStep(server, w, a, b, move)
  }

  /** Every run of the cached client, however its calls interleave, looks like a run of the client
      without a cache. */
  lemma {:induction false} RunRefinesPlain(server: AppState, w: World, start: Instant, steps: seq<Step>)
    returns (states: seq<Plain>)
    requires NamesOk(server) && Run(server, Steady(w), Init(start), steps).Some?
    ensures var s := Run(server, Steady(w), Init(start), steps).value;
      Viewable(s) && PlainRun(server, w, states, start, View(s))
  {
    var s := Run(server, Steady(w), Init(start), steps).value;
    if steps == [] {
      assert View(s) == Plain(start, map[], [], {});
      states := [View(s)];
    } else {
      var front := steps[..|steps| - 1];
      var before := Run(server, Steady(w), Init(start), front).value;
      states := RunRefinesPlain(server, w, start, front);
      assert Reaches(server, Steady(w), Init(start), before);
      CachedClientRefinesPlain(server, w, before, steps[|steps| - 1]);
      assert PlainNext(server, w, View(before), View(s));
      states := states + [View(s)];
    }
  }
}
