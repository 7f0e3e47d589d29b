// The NATS subject of a GitHub webhook.
module Nats {
  import opened Wrappers
  import opened Text
  import opened Configuration

  predicate IsTokenChar(c: char) {
    'a' <= c <= 'z' || 'A' <= c <= 'Z' || '0' <= c <= '9' || c == '_' || c == '-'
  }

  function Sanitise(value: string): (r: string)
    ensures |r| == |value|
    ensures forall i :: 0 <= i < |r| ==> r[i] == if IsTokenChar(value[i]) then value[i] else '_'
  {
    if value == "" then "" else [if IsTokenChar(value[0]) then value[0] else '_'] + Sanitise(value[1..])
  }

  function SubjectToken(value: string): string {
    var token := Sanitise(value);
    if token == "" then "unknown" else token
  }

  /** A token that stays one token of a subject. */
  predicate IsToken(token: string) {
    token != "" && forall i | 0 <= i < |token| :: IsTokenChar(token[i])
  }

  /** Any text becomes a token, and a token stays as it is. */
  lemma SubjectTokenMeaning(value: string)
    ensures IsToken(SubjectToken(value))
    ensures '.' !in SubjectToken(value)
    ensures IsToken(value) ==> SubjectToken(value) == value
    ensures SubjectToken(SubjectToken(value)) == SubjectToken(value)
  {
    if IsToken(value) { assert Sanitise(value) == value; }
    var token := SubjectToken(value);
    assert Sanitise(token) == token;
  }

  /** The token of a text keeps the letters, digits, `_` and `-`, and has `_` for everything else; the
      empty text has the token `unknown`. */
  lemma SubjectTokenForm(value: string)
    ensures value == "" ==> SubjectToken(value) == "unknown"
    ensures value != "" ==> |SubjectToken(value)| == |value|
    ensures forall i | 0 <= i < |value| ::
      if 'a' <= value[i] <= 'z' || 'A' <= value[i] <= 'Z' || '0' <= value[i] <= '9' || value[i] in {'_', '-'}
      then SubjectToken(value)[i] == value[i] else SubjectToken(value)[i] == '_'
  {
  }

  /** `repository_name`, on the owner and name found in the payload. */
  function RepositoryName(found: Option<(string, string)>): Option<(string, string)> {
    if found.Some? && (found.value.0 == "" || found.value.1 == "") then None else found
  }

  /** The tokens that follow the base. */
  function WebhookTokens(event: Option<string>, repository: Option<(string, string)>): seq<string> {
    [SubjectToken(if event.Some? then event.value else "unknown")]
    + if repository.Some? then [SubjectToken(repository.value.0), SubjectToken(repository.value.1)] else []
  }

  /** `connect` trims the configured base, and building a subject trims it again. */
  function ConnectedBase(nats: NatsConfig): string {
    TrimEnd(nats.subjectBase, '.')
  }

  /** The subject of a webhook. */
  function Subject(base: string, event: Option<string>, repository: Option<(string, string)>): string {
    Join([TrimEnd(base, '.')] + WebhookTokens(event, repository), '.')
  }

  /** What stands for the event; a webhook without an event header is `unknown`. */
  function EventToken(event: Option<string>): string {
    match event
    case None => "unknown"
    case Some(text) => SubjectToken(text)
  }

  lemma JoinTwo(parts: seq<string>)
    requires |parts| == 2
    ensures Join(parts, '.') == parts[0] + "." + parts[1]
  {
    assert parts == [parts[0]] + [parts[1]];
    JoinFirst(parts[0], [parts[1]], '.');
  }

  lemma JoinFour(parts: seq<string>)
    requires |parts| == 4
    ensures Join(parts, '.') == parts[0] + "." + parts[1] + "." + parts[2] + "." + parts[3]
  {
    var (a, b, c, d) := (parts[0], parts[1], parts[2], parts[3]);
    assert parts == [a, b] + [c, d];
    JoinTwo([a, b]);
    JoinTwo([c, d]);
    JoinAppend([a, b], [c, d], '.');
    assert (a + "." + b) + "." + (c + "." + d) == a + "." + b + "." + c + "." + d;
  }

  lemma UnknownIsToken()
    ensures SubjectToken("unknown") == "unknown"
  {
    SubjectTokenMeaning("unknown");
  }

  /** The subject written out. */
  lemma SubjectForm(base: string, event: Option<string>, repository: Option<(string, string)>)
    ensures repository.None? ==> Subject(base, event, repository) == TrimEnd(base, '.') + "." + EventToken(event)
    ensures repository.Some? ==>
      Subject(base, event, repository)
        == TrimEnd(base, '.') + "." + EventToken(event)
           + "." + SubjectToken(repository.value.0) + "." + SubjectToken(repository.value.1)
  {
    UnknownIsToken();
    var parts := [TrimEnd(base, '.')] + WebhookTokens(event, repository);
    assert parts[1] == EventToken(event);
    if repository.Some? { JoinFour(parts); } else { JoinTwo(parts); }
  }

  method SubjectForGithubWebhook(
    subjectBase: string, event: Option<string>, found: Option<(string, string)>)
    returns (subject: string)
    ensures subject == Subject(subjectBase, event, RepositoryName(found))
    ensures found.None? || found.value.0 == "" || found.value.1 == "" ==>
      subject == TrimEnd(subjectBase, '.') + "." + EventToken(event)
    ensures found.Some? && found.value.0 != "" && found.value.1 != "" ==>
      subject == TrimEnd(subjectBase, '.') + "." + EventToken(event)
                 + "." + SubjectToken(found.value.0) + "." + SubjectToken(found.value.1)
    ensures Split(subject, '.')
      == Split(TrimEnd(subjectBase, '.'), '.') + WebhookTokens(event, RepositoryName(found))
  {
    var segments := [TrimEnd(subjectBase, '.'), SubjectToken(if event.Some? then event.value else "unknown")];
    var repository := RepositoryName(found);
    if repository.Some? {
      segments := segments + [SubjectToken(repository.value.0)];
      segments := segments + [SubjectToken(repository.value.1)];
    }
    SegmentsAre(subjectBase, event, repository, segments);
    subject := Join(segments, '.');
    SubjectForm(subjectBase, event, repository);
    SubjectTokens(subjectBase, event, repository);
  }

  lemma SegmentsAre(base: string, event: Option<string>, repository: Option<(string, string)>, segments: seq<string>)
    requires |segments| == if repository.Some? then 4 else 2
    requires segments[0] == TrimEnd(base, '.')
    requires segments[1] == SubjectToken(if event.Some? then event.value else "unknown")
    requires repository.Some? ==>
      segments[2] == SubjectToken(repository.value.0) && segments[3] == SubjectToken(repository.value.1)
    ensures segments == [TrimEnd(base, '.')] + WebhookTokens(event, repository)
  {
  }

  /** Splitting a subject gives the trimmed base's tokens and those of the webhook. */
  lemma SubjectTokens(base: string, event: Option<string>, repository: Option<(string, string)>)
    ensures Split(Subject(base, event, repository), '.')
      == Split(TrimEnd(base, '.'), '.') + WebhookTokens(event, repository)
  {
    WebhookTokensAreTokens(event, repository);
    SubjectSplits(TrimEnd(base, '.'), WebhookTokens(event, repository));
  }

  /** Splitting a subject gives back the base's tokens and the appended ones. */
  lemma SubjectSplits(base: string, tokens: seq<string>)
    requires tokens != [] && forall token :: token in tokens ==> '.' !in token
    ensures Split(Join([base] + tokens, '.'), '.') == Split(base, '.') + tokens
  {
    var parts := Split(base, '.');
    JoinSplit(base, '.');
    JoinAppend(parts, tokens, '.');
    JoinAppend([base], tokens, '.');
    SplitJoin(parts + tokens, '.');
  }

  /** What is appended is one token or three, each of them safe. */
  lemma WebhookTokensAreTokens(event: Option<string>, repository: Option<(string, string)>)
    ensures |WebhookTokens(event, repository)| == if repository.Some? then 3 else 1
    ensures forall token :: token in WebhookTokens(event, repository) ==> IsToken(token) && '.' !in token
  {
    SubjectTokenMeaning(if event.Some? then event.value else "unknown");
    if repository.Some? {
      SubjectTokenMeaning(repository.value.0);
      SubjectTokenMeaning(repository.value.1);
    }
  }

  /** Trimming once is enough. */
  lemma {:induction false} TrimEndIdempotent(s: string, c: char)
    ensures TrimEnd(TrimEnd(s, c), c) == TrimEnd(s, c)
  {
    if s == "" || s[|s| - 1] != c {
    } else {
      TrimEndIdempotent(s[..|s| - 1], c);
    }
  }

  /** Trimming the configured base on connecting does not change the subjects. */
  lemma ConnectedSubject(nats: NatsConfig, event: Option<string>, repository: Option<(string, string)>)
    ensures Subject(ConnectedBase(nats), event, repository) == Subject(nats.subjectBase, event, repository)
  {
    TrimEndIdempotent(nats.subjectBase, '.');
  }

  /** A subject without empty tokens, which is what NATS takes. */
  ghost predicate HasNoEmptyToken(subject: string) {
    forall token :: token in Split(subject, '.') ==> token != ""
  }

  /** Subjects have no empty token exactly when the trimmed base has none. */
  lemma SubjectValidIffBaseValid(base: string, event: Option<string>, repository: Option<(string, string)>)
    ensures HasNoEmptyToken(Subject(base, event, repository))
       <==> HasNoEmptyToken(TrimEnd(base, '.'))
  {
    WebhookTokensAreTokens(event, repository);
    SubjectTokens(base, event, repository);
    var parts, tokens := Split(TrimEnd(base, '.'), '.'), WebhookTokens(event, repository);
    assert forall token :: token in parts + tokens <==> token in parts || token in tokens;
  }

  lemma LeadingDot(rest: string)
    ensures "" in Split("" + ['.'] + rest, '.')
  {
    SplitFirst("", rest, '.');
  }

  lemma DoubleDot(front: string, rest: string)
    requires '.' !in front
    ensures "" in Split(front + ['.'] + ("" + ['.'] + rest), '.')
  {
    SplitFirst(front, "" + ['.'] + rest, '.');
    LeadingDot(rest);
  }

  /** Each of these bases has an empty token once it is trimmed. */
  lemma EmptyTokens(base: string)
    requires base == "." || base == ".a" || base == "a..b"
    ensures "" in Split(TrimEnd(base, '.'), '.')
  {
    if base == "." {
      assert TrimEnd(base, '.') == "";
    } else if base == ".a" {
      LeadingDot("a");
      assert base == "" + ['.'] + "a";
    } else {
      DoubleDot("a", "b");
      assert base == "a" + ['.'] + ("" + ['.'] + "b");
    }
  }

  lemma NoWhitespaceInBases(base: string)
    requires base == "." || base == ".a" || base == "a..b"
    ensures !HasWhitespace(base)
  {
  }

  /** The configuration check does not ask for that: it accepts a base of dots alone, with a leading dot
      and with two dots in a row, and the subjects of each have an empty token. */
  lemma EmptyTokensAreAccepted(
    base: string, endpoint: string, event: Option<string>, repository: Option<(string, string)>)
    requires endpoint != "" && (base == "." || base == ".a" || base == "a..b")
    ensures NatsOk(NatsConfig(endpoint, base, None))
    ensures !HasNoEmptyToken(Subject(base, event, repository))
  {
    EmptyTokens(base);
    NoWhitespaceInBases(base);
    SubjectValidIffBaseValid(base, event, repository);
  }
}
