// How the cache spaces the mints of one key, in runs where the calls for that key do not overlap.
// Calls for other keys overlap as they please, and any call may be dropped at any point.
module Serial {
  import opened Wrappers
  import opened Service
  import opened Github
  import opened Handlers
  import opened Broker

  predicate Holding(call: Call) {
    call.progress.Minted? || call.progress.DeadlineRead?
  }

  predicate KeyInFlight(s: State, key: TokenKey) {
    exists c | c in s.calls :: s.calls[c].InFlight() && s.calls[c].Key() == key
  }

  /** Restricts the calls for one key only: unless `overlap`, none begins while another is in flight;
      unless `drops`, none is dropped between its mint and its insertion into the cache. */
  function Rules(server: AppState, key: TokenKey, overlap: bool, drops: bool): Environment {
    (s: State, step: Step) =>
      && (!overlap && BeginsFor(server, step, key) ==> !KeyInFlight(s, key))
      && (!drops && step.Drop? && step.call in s.calls && s.calls[step.call].Key() == key ==>
            !Holding(s.calls[step.call]))
  }

  predicate BeginsFor(server: AppState, step: Step, key: TokenKey) {
    step.Begin? && Handle(server, step.request).Ok? && KeyOf(Handle(server, step.request).value) == key
  }

  /** No two calls for the key overlap. */
  function NoOverlap(server: AppState, key: TokenKey): Environment {
    Rules(server, key, false, true)
  }

  /** The post at position `e` minted a token for this key. */
  predicate MintOf(s: State, e: nat, key: TokenKey) {
    e < |s.posts| && s.posts[e].key == key && s.posts[e].token.Some?
  }

  /** The call that made this post still holds its token. */
  predicate Held(s: State, e: nat)
    requires e < |s.posts|
  {
    var c := s.posts[e].caller;
    c in s.calls && Holding(s.calls[c]) && s.calls[c].progress.post == e
  }

  /** The call that made this post was dropped. */
  predicate Lost(s: State, e: nat)
    requires e < |s.posts|
  {
    s.posts[e].caller in s.calls && s.calls[s.posts[e].caller].progress.Dropped?
  }

  /** Of any two mints of the key, the later one comes fifty minutes after the earlier one, unless the
      call that made the earlier one was dropped. */
  ghost predicate SpacedUnlessLost(s: State, key: TokenKey) {
    forall e: nat, f: nat :: e < f && MintOf(s, e, key) && MintOf(s, f, key) ==>
      Lost(s, e) || s.posts[e].at + 3_000_000_000_000 <= s.posts[f].at
  }

  ghost predicate MintsAreOld(s: State, key: TokenKey) {
    forall e: nat :: MintOf(s, e, key) ==> Lost(s, e) || s.posts[e].at + 3_000_000_000_000 <= s.now
  }

  ghost predicate MintsUpTo(s: State, key: TokenKey, at: Instant) {
    forall e: nat :: MintOf(s, e, key) ==> s.posts[e].at <= at
  }

  /** Past its miss, a call knows that all earlier mints of its key are lost or fifty minutes old. */
  predicate PastMiss(progress: Progress) {
    progress.TokenMissed? || progress.Signed? || progress.AskingGithub? || progress.IdFetched? || progress.IdReady?
  }

  /** What a call for the key knows at its stage. */
  ghost predicate Knows(s: State, key: TokenKey, progress: Progress) {
    && (progress.ClockRead? ==> progress.readAt <= s.now && MintsUpTo(s, key, progress.readAt))
    && (PastMiss(progress) ==> MintsAreOld(s, key))
    && (progress.Minted? || progress.DeadlineRead? ==> forall f: nat :: progress.post < f ==> !MintOf(s, f, key))
  }

  ghost predicate Alone(s: State, key: TokenKey) {
    forall c, d | c in s.calls && d in s.calls && s.calls[c].InFlight() && s.calls[d].InFlight() ::
      s.calls[c].Key() == key && s.calls[d].Key() == key ==> c == d
  }

  /** A mint is held still, lost, or outlived by the key's entry. */
  ghost predicate Accounted(s: State, e: nat, key: TokenKey)
    requires e < |s.posts|
  {
    || Held(s, e) || Lost(s, e)
    || (key in s.cache.tokens && s.posts[e].at + 3_000_000_000_000 <= s.cache.tokens[key].refreshAfter)
  }

  /** The mint made this token, and all later ones of the key are held or lost. */
  ghost predicate Latest(s: State, e: nat, key: TokenKey, token: InstallationToken) {
    Backs(s, e, key, token) && forall f: nat :: e < f && MintOf(s, f, key) ==> Held(s, f) || Lost(s, f)
  }

  ghost predicate SerialInv(s: State, key: TokenKey) {
    && Alone(s, key)
    && (forall c :: c in s.calls && s.calls[c].Key() == key ==> Knows(s, key, s.calls[c].progress))
    && (forall e: nat :: MintOf(s, e, key) ==> Accounted(s, e, key))
    && (key in s.cache.tokens ==> exists e: nat :: Latest(s, e, key, s.cache.tokens[key].token))
    && SpacedUnlessLost(s, key)
  }

  // ----- Steps that neither mint nor store for the key -----

  ghost predicate SameEntry(s: State, s': State, key: TokenKey) {
    && (key in s.cache.tokens <==> key in s'.cache.tokens)
    && (key in s.cache.tokens ==> s'.cache.tokens[key] == s.cache.tokens[key])
  }

  /** Nothing is minted or stored for the key, and who holds a mint of it keeps it or is dropped. */
  ghost predicate Calm(s: State, s': State, key: TokenKey) {
    && s.now <= s'.now && s.posts <= s'.posts && SameEntry(s, s', key)
    && (forall e: nat :: MintOf(s', e, key) ==> e < |s.posts|)
    && (forall e: nat :: MintOf(s, e, key) && Held(s, e) ==> Held(s', e) || Lost(s', e))
    && (forall e: nat :: MintOf(s, e, key) && Lost(s, e) ==> Lost(s', e))
  }

  lemma CalmMints(s: State, s': State, key: TokenKey)
    requires Calm(s, s', key)
    ensures forall e: nat :: MintOf(s', e, key) <==> MintOf(s, e, key)
    ensures forall e: nat :: MintOf(s, e, key) ==> s'.posts[e] == s.posts[e]
  {
  }

  lemma CalmEntry(s: State, s': State, key: TokenKey)
    requires Calm(s, s', key) && key in s.cache.tokens
    requires exists e: nat :: Latest(s, e, key, s.cache.tokens[key].token)
    ensures exists e: nat :: Latest(s', e, key, s'.cache.tokens[key].token)
  {
    CalmMints(s, s', key);
    var e: nat :| Latest(s, e, key, s.cache.tokens[key].token);
    assert Latest(s', e, key, s'.cache.tokens[key].token);
  }

  lemma CalmKnows(s: State, s': State, key: TokenKey, progress: Progress)
    requires Calm(s, s', key) && Knows(s, key, progress)
    ensures Knows(s', key, progress)
  {
    CalmMints(s, s', key);
  }

  lemma CalmKeepsInv(s: State, s': State, key: TokenKey, c: CallId)
    requires SerialInv(s, key) && Calm(s, s', key) && Alone(s', key)
    requires forall d :: d in s'.calls && d != c ==> d in s.calls && s'.calls[d] == s.calls[d]
    requires c in s'.calls && s'.calls[c].Key() == key ==> Knows(s', key, s'.calls[c].progress)
    ensures SerialInv(s', key)
  {
    CalmMints(s, s', key);
    forall d | d in s'.calls && s'.calls[d].Key() == key ensures Knows(s', key, s'.calls[d].progress) {
      if d != c { CalmKnows(s, s', key, s.calls[d].progress); }
    }
    forall e: nat | MintOf(s', e, key) ensures Accounted(s', e, key) {
      assert Accounted(s, e, key);
    }
    if key in s.cache.tokens { CalmEntry(s, s', key); }
  }

  /** No call begins to be in flight when one call moves on. */
  lemma StillAlone(s: State, s': State, c: CallId, key: TokenKey)
    requires Alone(s, key) && c in s.calls && s.calls[c].InFlight()
    requires c in s'.calls && s'.calls == s.calls[c := s'.calls[c]] && s'.calls[c].prepared == s.calls[c].prepared
    ensures Alone(s', key)
  {
  }

  /** Mints of the key are past, and were made by calls for the key. */
  ghost predicate MintersOk(s: State, key: TokenKey) {
    forall e: nat :: MintOf(s, e, key) ==> MinterOk(s, e, key)
  }

  predicate MinterOk(s: State, e: nat, key: TokenKey)
    requires e < |s.posts|
  {
    s.posts[e].caller in s.calls && s.calls[s.posts[e].caller].Key() == key && s.posts[e].at <= s.now
  }

  lemma InvMinters(server: AppState, s: State, key: TokenKey)
    requires Inv(server, s)
    ensures MintersOk(s, key)
  {
    forall e: nat | MintOf(s, e, key) ensures MinterOk(s, e, key) {
      assert SentOk(s, s.posts[e]);
    }
  }

  /** The call lets go of no mint, unless it is dropped or for another key. */
  ghost predicate LetsGoOfNone(before: Call, after: Call, key: TokenKey) {
    || before.Key() != key
    || (after.progress.Dropped? && before.InFlight())
    || (before.InFlight() && !Holding(before))
    || (Holding(before) && Holding(after) && after.progress.post == before.progress.post)
  }

  lemma MoveIsCalm(s: State, s': State, c: CallId, key: TokenKey)
    requires MintersOk(s, key)
    requires c in s.calls && c in s'.calls && s'.calls == s.calls[c := s'.calls[c]]
    requires LetsGoOfNone(s.calls[c], s'.calls[c], key)
    requires s.now <= s'.now && s.posts <= s'.posts && SameEntry(s, s', key)
    requires forall e: nat :: MintOf(s', e, key) ==> e < |s.posts|
    ensures Calm(s, s', key)
  {
    forall e: nat | MintOf(s, e, key)
      ensures Held(s, e) ==> Held(s', e) || Lost(s', e)
      ensures Lost(s, e) ==> Lost(s', e)
    {
      assert MinterOk(s, e, key);
    }
  }

  /** A call for another key mints and stores under its own key only. */
  lemma OtherKeyKeepsInv(server: AppState, s: State, step: Step, key: TokenKey)
    requires Inv(server, s) && SerialInv(s, key) && Enabled(server, s, step) && !step.Tick? && !step.Begin?
    requires s.calls[step.call].Key() != key
    ensures SerialInv(Apply(server, s, step), key)
  {
    InvMinters(server, s, key);
    var s', c := Apply(server, s, step), step.call;
    MovesOneCall(server, s, step);
    MoveIsCalm(s, s', c, key);
    StillAlone(s, s', c, key);
    CalmKeepsInv(s, s', key, c);
  }

  /** What a step of a call changes besides that call. */
  lemma MovesOneCall(server: AppState, s: State, step: Step)
    requires Enabled(server, s, step) && !step.Tick? && !step.Begin?
    ensures var s', c := Apply(server, s, step), step.call;
      && s'.now == s.now && s.posts <= s'.posts && s.calls[c].InFlight()
      && c in s'.calls && s'.calls == s.calls[c := s'.calls[c]] && s'.calls[c].prepared == s.calls[c].prepared
      && (forall e: nat :: |s.posts| <= e < |s'.posts| ==> s'.posts[e].key == s.calls[c].Key())
      && (forall other :: other != s.calls[c].Key() ==> SameEntry(s, s', other))
      && (!step.SendPost? ==> s'.posts == s.posts)
      && (!step.StoreToken? ==> s'.cache.tokens == s.cache.tokens)
  {
  }

  /** Where a quiet step of a call takes it. */
  lemma Stages(server: AppState, s: State, step: Step)
    requires Enabled(server, s, step)
    requires !step.Tick? && !step.Begin? && !step.SendPost? && !step.StoreToken? && !step.LookUpToken?
    ensures var before, after := s.calls[step.call], Apply(server, s, step).calls[step.call];
      && LetsGoOfNone(before, after, before.Key())
      && (PastMiss(after.progress) ==> PastMiss(before.progress))
      && (after.progress.ClockRead? ==> after.progress.readAt == s.now)
      && (Holding(after) ==> Holding(before) && after.progress.post == before.progress.post)
  {
  }

  /** A call for the key moves on without minting or storing. */
  lemma MovedQuietly(s: State, s': State, c: CallId, key: TokenKey)
    requires MintersOk(s, key) && SerialInv(s, key) && c in s.calls && s.calls[c].InFlight()
    requires s'.now == s.now && s'.posts == s.posts && s'.cache.tokens == s.cache.tokens
    requires c in s'.calls && s'.calls == s.calls[c := s'.calls[c]] && s'.calls[c].prepared == s.calls[c].prepared
    requires LetsGoOfNone(s.calls[c], s'.calls[c], key) && Knows(s, key, s'.calls[c].progress)
    ensures SerialInv(s', key)
  {
    MoveIsCalm(s, s', c, key);
    CalmKnows(s, s', key, s'.calls[c].progress);
    StillAlone(s, s', c, key);
    CalmKeepsInv(s, s', key, c);
  }

  lemma QuietStepKeepsInv(server: AppState, s: State, step: Step, key: TokenKey)
    requires Inv(server, s) && SerialInv(s, key) && Enabled(server, s, step)
    requires !step.Tick? && !step.Begin? && !step.SendPost? && !step.StoreToken? && !step.LookUpToken?
    requires s.calls[step.call].Key() == key
    ensures SerialInv(Apply(server, s, step), key)
  {
    InvMinters(server, s, key);
    MovesOneCall(server, s, step);
    Stages(server, s, step);
    assert MintsUpTo(s, key, s.now);
    assert Knows(s, key, s.calls[step.call].progress);
    MovedQuietly(s, Apply(server, s, step), step.call, key);
  }

  /** While a call for the key that holds nothing is in flight, no mint of the key is held. */
  lemma NoneHeld(s: State, c: CallId, e: nat, key: TokenKey)
    requires MintersOk(s, key) && Alone(s, key)
    requires c in s.calls && s.calls[c].InFlight() && s.calls[c].Key() == key && MintOf(s, e, key)
    requires Holding(s.calls[c]) ==> s.calls[c].progress.post != e
    ensures !Held(s, e)
  {
    assert MinterOk(s, e, key);
  }

  /** A miss means that every earlier mint of the key is lost or fifty minutes old: none is held, since
      the call is alone with its key, so each left an entry, and the entry has run out. */
  lemma MissMeansOld(s: State, c: CallId, key: TokenKey)
    requires MintersOk(s, key) && SerialInv(s, key)
    requires c in s.calls && s.calls[c].Key() == key && s.calls[c].progress.ClockRead?
    requires s.cache.FindToken(key, s.calls[c].progress.readAt).None?
    ensures MintsAreOld(s, key)
  {
    assert Knows(s, key, s.calls[c].progress);
    forall e: nat | MintOf(s, e, key) ensures Lost(s, e) || s.posts[e].at + 3_000_000_000_000 <= s.now {
      NoneHeld(s, c, e, key);
      assert Accounted(s, e, key);
    }
  }

  lemma LookUpStage(server: AppState, s: State, step: Step)
    requires step.LookUpToken? && Enabled(server, s, step)
    ensures var before, after := s.calls[step.call], Apply(server, s, step).calls[step.call];
      if s.cache.FindToken(before.Key(), before.progress.readAt).None? then after.progress.TokenMissed?
      else after.progress.Returned?
  {
  }

  lemma LookedUpKnows(s: State, s': State, c: CallId, key: TokenKey)
    requires MintersOk(s, key) && SerialInv(s, key)
    requires c in s.calls && s.calls[c].Key() == key && s.calls[c].progress.ClockRead? && c in s'.calls
    requires if s.cache.FindToken(key, s.calls[c].progress.readAt).None? then s'.calls[c].progress.TokenMissed?
             else s'.calls[c].progress.Returned?
    ensures LetsGoOfNone(s.calls[c], s'.calls[c], key) && Knows(s, key, s'.calls[c].progress)
  {
    if s'.calls[c].progress.TokenMissed? { MissMeansOld(s, c, key); }
  }

  lemma LookUpTokenKeepsSerial(server: AppState, s: State, step: Step, key: TokenKey)
    requires Inv(server, s) && SerialInv(s, key) && Enabled(server, s, step) && step.LookUpToken?
    requires s.calls[step.call].Key() == key
    ensures SerialInv(Apply(server, s, step), key)
  {
    InvMinters(server, s, key);
    MovesOneCall(server, s, step);
    LookUpStage(server, s, step);
    LookedUpKnows(s, Apply(server, s, step), step.call, key);
    MovedQuietly(s, Apply(server, s, step), step.call, key);
  }

  lemma TickKeepsSerial(server: AppState, s: State, step: Step, key: TokenKey)
    requires SerialInv(s, key) && step.Tick?
    ensures SerialInv(Apply(server, s, step), key)
  {
    var s' := Apply(server, s, step);
    if 0 in s.calls && s.calls[0].Key() == key { CalmKnows(s, s', key, s.calls[0].progress); }
    CalmKeepsInv(s, s', key, 0);
  }

  /** A call is there that was not, and nothing else changes. */
  ghost predicate Begun(s: State, s': State, c: CallId) {
    && c !in s.calls && c in s'.calls && s'.calls[c].progress.Started?
    && s' == s.(calls := s.calls[c := s'.calls[c]])
  }

  lemma BegunIsCalm(s: State, s': State, c: CallId, key: TokenKey)
    requires MintersOk(s, key) && Begun(s, s', c)
    ensures Calm(s, s', key)
  {
    forall e: nat | MintOf(s, e, key) ensures (Held(s', e) <==> Held(s, e)) && (Lost(s', e) <==> Lost(s, e)) {
      assert MinterOk(s, e, key);
    }
  }

  lemma BeginKeepsSerial(server: AppState, s: State, step: Step, key: TokenKey)
    requires Inv(server, s) && SerialInv(s, key) && Enabled(server, s, step) && step.Begin?
    requires NoOverlap(server, key)(s, step)
    ensures SerialInv(Apply(server, s, step), key)
  {
    var s' := Apply(server, s, step);
    InvMinters(server, s, key);
    BegunIsCalm(s, s', step.call, key);
    BeginsAlone(server, s, step, key);
    CalmKeepsInv(s, s', key, step.call);
  }

  lemma BeginsAlone(server: AppState, s: State, step: Step, key: TokenKey)
    requires Alone(s, key) && Enabled(server, s, step) && step.Begin? && NoOverlap(server, key)(s, step)
    ensures Alone(Apply(server, s, step), key)
  {
    if BeginsFor(server, step, key) {
      assert !KeyInFlight(s, key);
    }
  }

  // ----- Minting for the key -----

  /** A post for the key by a call past its miss. */
  ghost predicate Posted(s: State, s': State, c: CallId, key: TokenKey) {
    && c in s.calls && s.calls[c].Key() == key && PastMiss(s.calls[c].progress)
    && s'.now == s.now && s'.cache == s.cache && |s'.posts| == |s.posts| + 1 && s.posts <= s'.posts
    && (var sent := s'.posts[|s.posts|]; sent.caller == c && sent.key == key && sent.at == s.now)
    && c in s'.calls && s'.calls == s.calls[c := s'.calls[c]] && s'.calls[c].prepared == s.calls[c].prepared
    && (if s'.posts[|s.posts|].token.Some?
        then s'.calls[c].progress.Minted? && s'.calls[c].progress.post == |s.posts|
        else s'.calls[c].progress.Failed?)
  }

  lemma SendPostIsPosted(server: AppState, s: State, step: Step, key: TokenKey)
    requires Inv(server, s) && Enabled(server, s, step) && step.SendPost? && s.calls[step.call].Key() == key
    ensures Posted(s, Apply(server, s, step), step.call, key)
  {
    assert CallOk(server, s, step.call, s.calls[step.call]);
    HandledRequestsAreMintable(server, s.calls[step.call].request);
  }

  lemma PostedMints(s: State, s': State, c: CallId, key: TokenKey)
    requires Posted(s, s', c, key)
    ensures forall e: nat :: e < |s.posts| ==> s'.posts[e] == s.posts[e]
    ensures forall e: nat :: e < |s.posts| ==> (MintOf(s', e, key) <==> MintOf(s, e, key))
    ensures forall e: nat :: e < |s.posts| && Held(s, e) ==> Held(s', e)
    ensures forall e: nat :: e < |s.posts| && Lost(s, e) ==> Lost(s', e)
    ensures s'.posts[|s.posts|].token.Some? ==> Held(s', |s.posts|)
  {
  }

  lemma PostedEntry(s: State, s': State, c: CallId, key: TokenKey)
    requires Posted(s, s', c, key) && key in s.cache.tokens
    requires exists e: nat :: Latest(s, e, key, s.cache.tokens[key].token)
    ensures exists e: nat :: Latest(s', e, key, s'.cache.tokens[key].token)
  {
    PostedMints(s, s', c, key);
    var e: nat :| Latest(s, e, key, s.cache.tokens[key].token);
    assert Latest(s', e, key, s'.cache.tokens[key].token);
  }

  /** The call is alone with its key, so no other call has anything to show. */
  lemma PostedCalls(s: State, s': State, c: CallId, key: TokenKey)
    requires Posted(s, s', c, key) && Alone(s, key)
    ensures forall d :: d in s'.calls && s'.calls[d].Key() == key ==> Knows(s', key, s'.calls[d].progress)
  {
    forall d | d in s'.calls && s'.calls[d].Key() == key ensures Knows(s', key, s'.calls[d].progress) {
      if d != c { assert !s.calls[d].InFlight(); }
    }
  }

  lemma SendPostKeepsSerial(server: AppState, s: State, step: Step, key: TokenKey)
    requires Inv(server, s) && SerialInv(s, key) && Enabled(server, s, step) && step.SendPost?
    requires s.calls[step.call].Key() == key
    ensures SerialInv(Apply(server, s, step), key)
  {
    SendPostIsPosted(server, s, step, key);
    PostAdded(s, Apply(server, s, step), step.call, key);
  }

  lemma PostAdded(s: State, s': State, c: CallId, key: TokenKey)
    requires SerialInv(s, key) && Posted(s, s', c, key)
    ensures SerialInv(s', key)
  {
    StillAlone(s, s', c, key);
    PostedMints(s, s', c, key);
    PostedCalls(s, s', c, key);
    if key in s.cache.tokens { PostedEntry(s, s', c, key); }
    assert Knows(s, key, s.calls[c].progress);
    forall e: nat | MintOf(s', e, key) ensures Accounted(s', e, key) {
      if e < |s.posts| { assert Accounted(s, e, key); }
    }
  }

  // ----- Storing for the key -----

  /** The holder of a mint stores its token. */
  ghost predicate Stored(s: State, s': State, c: CallId, key: TokenKey) {
    && c in s.calls && s.calls[c].Key() == key && s.calls[c].progress.DeadlineRead?
    && MintOf(s, s.calls[c].progress.post, key) && s.posts[s.calls[c].progress.post].caller == c
    && s.posts[s.calls[c].progress.post].token == Some(s.calls[c].progress.token)
    && s.posts[s.calls[c].progress.post].at + 3_000_000_000_000 <= s.calls[c].progress.refreshAfter
    && s'.now == s.now && s'.posts == s.posts
    && s'.cache == s.cache.PutToken(key, s.calls[c].progress.token, s.calls[c].progress.refreshAfter)
    && c in s'.calls && s'.calls == s.calls[c := s'.calls[c]] && s'.calls[c].prepared == s.calls[c].prepared
    && s'.calls[c].progress.Returned?
  }

  /** Other mints of the key are earlier and not held: lost, or fifty minutes older than the stored
      one, whose entry outlives them. */
  lemma StoredAccounts(s: State, s': State, c: CallId, e: nat, key: TokenKey)
    requires MintersOk(s, key) && SerialInv(s, key) && Stored(s, s', c, key) && MintOf(s', e, key)
    ensures Accounted(s', e, key) && e <= s.calls[c].progress.post
  {
    var own := s.calls[c].progress.post;
    assert Knows(s, key, s.calls[c].progress);
    assert MintOf(s, e, key) && e <= own;
    if e != own {
      NoneHeld(s, c, e, key);
      assert Lost(s, e) || s.posts[e].at + 3_000_000_000_000 <= s.posts[own].at;
    }
  }

  lemma StoreTokenIsStored(server: AppState, s: State, step: Step, key: TokenKey)
    requires Inv(server, s) && Enabled(server, s, step) && step.StoreToken? && s.calls[step.call].Key() == key
    ensures Stored(s, Apply(server, s, step), step.call, key)
  {
    assert CallOk(server, s, step.call, s.calls[step.call]);
  }

  lemma StoredCalls(s: State, s': State, c: CallId, key: TokenKey)
    requires Stored(s, s', c, key) && Alone(s, key)
    ensures forall d :: d in s'.calls && s'.calls[d].Key() == key ==> Knows(s', key, s'.calls[d].progress)
  {
    forall d | d in s'.calls && s'.calls[d].Key() == key ensures Knows(s', key, s'.calls[d].progress) {
      if d != c { assert !s.calls[d].InFlight(); }
    }
  }

  lemma StillSpaced(s: State, s': State, c: CallId, key: TokenKey)
    requires Stored(s, s', c, key) && SpacedUnlessLost(s, key)
    ensures SpacedUnlessLost(s', key)
  {
    assert forall e: nat :: MintOf(s, e, key) && Lost(s, e) ==> Lost(s', e);
  }

  lemma StoreTokenKeepsSerial(server: AppState, s: State, step: Step, key: TokenKey)
    requires Inv(server, s) && SerialInv(s, key) && Enabled(server, s, step) && step.StoreToken?
    requires s.calls[step.call].Key() == key
    ensures SerialInv(Apply(server, s, step), key)
  {
    InvMinters(server, s, key);
    StoreTokenIsStored(server, s, step, key);
    TokenStored(s, Apply(server, s, step), step.call, key);
  }

  lemma TokenStored(s: State, s': State, c: CallId, key: TokenKey)
    requires MintersOk(s, key) && SerialInv(s, key) && Stored(s, s', c, key)
    ensures SerialInv(s', key)
  {
    StillAlone(s, s', c, key);
    StoredCalls(s, s', c, key);
    StillSpaced(s, s', c, key);
    forall e: nat | MintOf(s', e, key) ensures Accounted(s', e, key) && e <= s.calls[c].progress.post {
      StoredAccounts(s, s', c, e, key);
    }
    assert Latest(s', s.calls[c].progress.post, key, s'.cache.tokens[key].token);
  }

  // ----- All steps, all runs -----

  lemma StepKeepsSerial(server: AppState, s: State, step: Step, key: TokenKey)
    requires Inv(server, s) && SerialInv(s, key) && Enabled(server, s, step) && NoOverlap(server, key)(s, step)
    ensures SerialInv(Apply(server, s, step), key)
  {
    if step.Tick? {
      TickKeepsSerial(server, s, step, key);
    } else if step.Begin? {
      BeginKeepsSerial(server, s, step, key);
    } else if s.calls[step.call].Key() != key {
      OtherKeyKeepsInv(server, s, step, key);
    } else if step.LookUpToken? {
      LookUpTokenKeepsSerial(server, s, step, key);
    } else if step.SendPost? {
      SendPostKeepsSerial(server, s, step, key);
    } else if step.StoreToken? {
      StoreTokenKeepsSerial(server, s, step, key);
    } else {
      QuietStepKeepsInv(server, s, step, key);
    }
  }

  lemma {:induction false} RunKeepsSerial(server: AppState, from: State, steps: seq<Step>, key: TokenKey)
    requires NamesOk(server) && Inv(server, from) && SerialInv(from, key)
    ensures Run(server, NoOverlap(server, key), from, steps).Some? ==>
      SerialInv(Run(server, NoOverlap(server, key), from, steps).value, key)
  {
    if steps == [] {
    } else if Run(server, NoOverlap(server, key), from, steps).Some? {
      var front := steps[..|steps| - 1];
      RunKeepsSerial(server, from, front, key);
      RunKeepsInv(server, NoOverlap(server, key), from, front);
      StepKeepsSerial(server, Run(server, NoOverlap(server, key), from, front).value, steps[|steps| - 1], key);
    }
  }

  lemma SerialReachable(server: AppState, s: State, key: TokenKey)
    requires NamesOk(server) && Reachable(server, NoOverlap(server, key), s)
    ensures Inv(server, s) && SerialInv(s, key)
  {
    ReachableInv(server, NoOverlap(server, key), s);
    var start :| Reaches(server, NoOverlap(server, key), Init(start), s);
    var steps :| Run(server, NoOverlap(server, key), Init(start), steps) == Some(s);
    RunKeepsSerial(server, Init(start), steps, key);
  }

  // ----- The results for one key -----

  /** When the calls for one key do not overlap, two mints for it are at least fifty minutes apart,
      unless the call that made the earlier one was dropped. */
  lemma MintsAreSpaced(server: AppState, s: State, e: nat, f: nat, key: TokenKey)
    requires NamesOk(server) && Reachable(server, NoOverlap(server, key), s)
    requires e < f && MintOf(s, e, key) && MintOf(s, f, key)
    ensures Lost(s, e) || s.posts[e].at + 3_000_000_000_000 <= s.posts[f].at
  {
    SerialReachable(server, s, key);
  }

  /** A mint of the key with this token, after which the key was only minted by dropped calls. */
  ghost predicate LatestKept(s: State, e: nat, key: TokenKey, token: InstallationToken) {
    Backs(s, e, key, token) && forall f: nat :: e < f && MintOf(s, f, key) ==> Lost(s, f)
  }

  /** When the calls for one key do not overlap, a call for it that finds a token finds that of the
      key's latest mint, but for those whose call was dropped. */
  lemma HitsServeLatestMint(server: AppState, s: State, c: CallId, token: InstallationToken, key: TokenKey)
    requires NamesOk(server) && Reachable(server, NoOverlap(server, key), s)
    requires c in s.calls && s.calls[c].Key() == key && s.calls[c].progress.ClockRead?
    requires s.cache.FindToken(key, s.calls[c].progress.readAt) == Some(token)
    ensures exists e: nat :: LatestKept(s, e, key, token)
  {
    SerialReachable(server, s, key);
    InvMinters(server, s, key);
    var _ := KeptEntry(s, c, key);
  }

  lemma KeptEntry(s: State, c: CallId, key: TokenKey) returns (e: nat)
    requires MintersOk(s, key) && SerialInv(s, key) && key in s.cache.tokens
    requires c in s.calls && s.calls[c].Key() == key && s.calls[c].progress.ClockRead?
    ensures LatestKept(s, e, key, s.cache.tokens[key].token)
  {
    e :| Latest(s, e, key, s.cache.tokens[key].token);
    forall f: nat | e < f && MintOf(s, f, key) ensures Lost(s, f) {
      NoneHeld(s, c, f, key);
    }
  }

  /** When the calls for one key do not overlap, a call for it whose clock reading falls within fifty
      minutes of a mint by a call that was not dropped never mints: it is served exactly that token. */
  lemma RecentMintIsServed(server: AppState, s: State, c: CallId, e: nat)
    requires c in s.calls && NamesOk(server) && Reachable(server, NoOverlap(server, s.calls[c].Key()), s)
    requires Enabled(server, s, LookUpToken(c)) && MintOf(s, e, s.calls[c].Key()) && !Lost(s, e)
    requires s.calls[c].progress.readAt < s.posts[e].at + 3_000_000_000_000
    ensures Apply(server, s, LookUpToken(c)).calls[c].progress
      == Returned(s.posts[e].token.value, Some(s.calls[c].progress.readAt))
  {
    SerialReachable(server, s, s.calls[c].Key());
    InvMinters(server, s, s.calls[c].Key());
    RecentMintIsFound(s, c, e, s.calls[c].Key());
  }

  lemma RecentMintIsFound(s: State, c: CallId, e: nat, key: TokenKey)
    requires MintersOk(s, key) && SerialInv(s, key) && MintOf(s, e, key) && !Lost(s, e)
    requires c in s.calls && s.calls[c].Key() == key && s.calls[c].progress.ClockRead?
    requires s.calls[c].progress.readAt < s.posts[e].at + 3_000_000_000_000
    ensures s.cache.FindToken(key, s.calls[c].progress.readAt) == s.posts[e].token
  {
    NoneHeld(s, c, e, key);
    assert Accounted(s, e, key);
    var f := KeptEntry(s, c, key);
    assert Knows(s, key, s.calls[c].progress);
    OnlyRecentMint(s, key, s.calls[c].progress.readAt, e, f);
  }

  lemma OnlyRecentMint(s: State, key: TokenKey, readAt: Instant, e: nat, f: nat)
    requires SpacedUnlessLost(s, key) && MintsUpTo(s, key, readAt) && MintOf(s, f, key)
    requires MintOf(s, e, key) && !Lost(s, e) && readAt < s.posts[e].at + 3_000_000_000_000
    requires forall g: nat :: f < g && MintOf(s, g, key) ==> Lost(s, g)
    ensures e == f
  {
  }

  // ----- Calls that are not dropped while they hold a mint -----

  /** Who minted for the key still holds the token or has handed it over. */
  ghost predicate NoneLost(s: State, key: TokenKey) {
    forall e: nat :: MintOf(s, e, key) ==> Kept(s, e)
  }

  predicate Kept(s: State, e: nat)
    requires e < |s.posts|
  {
    Held(s, e) || (s.posts[e].caller in s.calls && s.calls[s.posts[e].caller].progress.Returned?)
  }

  lemma StepKeepsNoneLost(server: AppState, s: State, step: Step, key: TokenKey)
    requires Inv(server, s) && NoneLost(s, key) && Enabled(server, s, step)
    requires Rules(server, key, true, false)(s, step)
    ensures NoneLost(Apply(server, s, step), key)
  {
    InvMinters(server, s, key);
    if step.Tick? {
      var s' := Apply(server, s, step);
      forall e: nat | MintOf(s', e, key) ensures Kept(s', e) { assert MintOf(s, e, key) && Kept(s, e); }
    } else if step.Begin? {
      BegunKeepsKept(s, Apply(server, s, step), step.call, key);
    } else {
      KeepsKept(server, s, step, key);
    }
  }

  lemma BegunKeepsKept(s: State, s': State, c: CallId, key: TokenKey)
    requires MintersOk(s, key) && NoneLost(s, key) && Begun(s, s', c)
    ensures NoneLost(s', key)
  {
    forall e: nat | MintOf(s', e, key) ensures Kept(s', e) {
      assert MintOf(s, e, key) && MinterOk(s, e, key) && Kept(s, e);
    }
  }

  lemma KeepsKept(server: AppState, s: State, step: Step, key: TokenKey)
    requires MintersOk(s, key) && NoneLost(s, key) && Enabled(server, s, step)
    requires !step.Tick? && !step.Begin? && Rules(server, key, true, false)(s, step)
    ensures NoneLost(Apply(server, s, step), key)
  {
    var s', c := Apply(server, s, step), step.call;
    MovesOneCall(server, s, step);
    MintsAreHeldAtFirst(server, s, step);
    KeptStage(server, s, step);
    forall e: nat | MintOf(s', e, key) ensures Kept(s', e) {
      if e < |s.posts| {
        assert s'.posts[e] == s.posts[e] && MintOf(s, e, key) && Kept(s, e);
      }
    }
  }

  lemma MintsAreHeldAtFirst(server: AppState, s: State, step: Step)
    requires Enabled(server, s, step) && !step.Tick? && !step.Begin?
    ensures var s' := Apply(server, s, step);
      forall e: nat :: |s.posts| <= e < |s'.posts| && s'.posts[e].token.Some? ==> Held(s', e)
  {
  }

  /** Who holds a mint goes on holding it, hands it over or is dropped. */
  lemma KeptStage(server: AppState, s: State, step: Step)
    requires Enabled(server, s, step) && !step.Tick? && !step.Begin?
    ensures var before, after := s.calls[step.call].progress, Apply(server, s, step).calls[step.call].progress;
      Holding(s.calls[step.call]) ==>
        || after.Returned? || step.Drop?
        || ((after.Minted? || after.DeadlineRead?) && after.post == before.post)
  {
  }

  lemma {:induction false} RunKeepsNoneLost(server: AppState, from: State, steps: seq<Step>, key: TokenKey)
    requires NamesOk(server) && Inv(server, from) && NoneLost(from, key)
    ensures Run(server, Rules(server, key, true, false), from, steps).Some? ==>
      NoneLost(Run(server, Rules(server, key, true, false), from, steps).value, key)
  {
    var env := Rules(server, key, true, false);
    if steps == [] {
    } else if Run(server, env, from, steps).Some? {
      var front := steps[..|steps| - 1];
      RunKeepsNoneLost(server, from, front, key);
      RunKeepsInv(server, env, from, front);
      StepKeepsNoneLost(server, Run(server, env, from, front).value, steps[|steps| - 1], key);
    }
  }

  lemma NoneLostReachable(server: AppState, s: State, key: TokenKey)
    requires NamesOk(server) && Reachable(server, Rules(server, key, true, false), s)
    ensures NoneLost(s, key)
  {
    var start :| Reaches(server, Rules(server, key, true, false), Init(start), s);
    var steps :| Run(server, Rules(server, key, true, false), Init(start), steps) == Some(s);
    RunKeepsNoneLost(server, Init(start), steps, key);
  }

  /** Of any two mints of the key, the later one comes fifty minutes after the earlier one. */
  ghost predicate Spaced(s: State, key: TokenKey) {
    forall e: nat, f: nat :: e < f && MintOf(s, e, key) && MintOf(s, f, key) ==>
      s.posts[e].at + 3_000_000_000_000 <= s.posts[f].at
  }

  /** When moreover no call for the key is dropped while it holds a mint, all its mints are spaced. */
  lemma UndroppedMintsAreSpaced(server: AppState, s: State, key: TokenKey)
    requires NamesOk(server) && Reachable(server, Rules(server, key, false, false), s)
    ensures Spaced(s, key)
  {
    WiderReachable(server, Rules(server, key, false, false), NoOverlap(server, key), s);
    WiderReachable(server, Rules(server, key, false, false), Rules(server, key, true, false), s);
    SerialReachable(server, s, key);
    NoneLostReachable(server, s, key);
  }
}
