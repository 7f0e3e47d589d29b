// Which repository a credential request is about.
module CredentialRepo {
  import opened Wrappers
  import opened Text
  import opened Credential

  datatype Repo = Repo(owner: string, name: string)

  function LowerAscii(c: char): char {
    if 'A' <= c <= 'Z' then c - 'A' + 'a' else c
  }

  /** Two characters are the same but for case exactly when they are equal, or one is a capital letter and
      the other its small one. */
  lemma SameButForCase(c: char, d: char)
    ensures LowerAscii(c) == LowerAscii(d) <==>
      || c == d
      || ('A' <= c <= 'Z' && d as int == c as int + 32)
      || ('A' <= d <= 'Z' && c as int == d as int + 32)
  {
  }

  /** `str::eq_ignore_ascii_case`. */
  predicate EqIgnoreAsciiCase(a: string, b: string) {
    |a| == |b| && forall i | 0 <= i < |a| :: LowerAscii(a[i]) == LowerAscii(b[i])
  }

  predicate IsGithubHttpsRequest(credential: Attributes) {
    && "protocol" in credential && credential["protocol"] == "https"
    && "host" in credential && EqIgnoreAsciiCase(credential["host"], "github.com")
  }

  function NonEmpty(parts: seq<string>): (r: seq<string>)
    ensures forall part :: part in r <==> part in parts && part != ""
  {
    if parts == [] then [] else (if parts[0] != "" then [parts[0]] else []) + NonEmpty(parts[1..])
  }

  function Components(path: string): seq<string> {
    NonEmpty(Split(path, '/'))
  }

  /** `strip_suffix(".git")`, or the text itself. */
  function StripGit(name: string): string {
    if EndsWith(name, ".git") then name[..|name| - 4] else name
  }

  function RepoFromPath(path: string): Option<Repo> {
    var components := Components(TrimStart(path, '/'));
    if |components| < 2 then None
    else
      var name := StripGit(components[1]);
      if components[0] == "" || name == "" then None else Some(Repo(components[0], name))
  }

  function RepoFromCredential(credential: Attributes): Option<Repo> {
    if "path" in credential then RepoFromPath(credential["path"]) else None
  }

  /** The parts of every result are non-empty and free of slashes. */
  lemma RepoPartsAreNames(path: string)
    ensures RepoFromPath(path).Some? ==>
      var repo := RepoFromPath(path).value;
      repo.owner != "" && repo.name != "" && '/' !in repo.owner && '/' !in repo.name
  {
    var components := Components(TrimStart(path, '/'));
    if |components| >= 2 {
      assert components[0] in components && components[1] in components;
      assert StripGit(components[1]) <= components[1];
    }
  }

  // ----- Components of rendered paths -----

  lemma LeadingSlash(s: string)
    ensures Components("/" + s) == Components(s)
  {
    SplitOnceUnique("", s, '/');
    assert "" + "/" + s == "/" + s;
    var split := Split("/" + s, '/');
    assert split == [""] + Split(s, '/');
    assert split[1..] == Split(s, '/');
  }

  lemma FirstComponent(part: string, s: string)
    requires part != "" && '/' !in part
    ensures Components(part + "/" + s) == [part] + Components(s)
  {
    SplitOnceUnique(part, s, '/');
    var split := Split(part + "/" + s, '/');
    assert split == [part] + Split(s, '/');
    assert split[1..] == Split(s, '/');
  }

  lemma OnlyComponent(part: string)
    requires part != "" && '/' !in part
    ensures Components(part) == [part]
  {
    assert Split(part, '/') == [part];
    assert NonEmpty([part]) == [part] + NonEmpty([]);
  }

  lemma {:induction false} TrimKeepsComponents(path: string)
    ensures Components(TrimStart(path, '/')) == Components(path)
  {
    if path == "" || path[0] != '/' {
    } else {
      var rest := path[1..];
      assert path == ['/'] + rest;
      TrimKeepsComponents(rest);
      LeadingSlash(rest);
      assert TrimStart(path, '/') == TrimStart(rest, '/');
    }
  }

  function Slashes(n: nat): string {
    if n == 0 then "" else "/" + Slashes(n - 1)
  }

  lemma {:induction false} SlashesVanish(n: nat, s: string)
    ensures Components(Slashes(n) + s) == Components(s)
  {
    if n == 0 {
      assert Slashes(0) + s == s;
    } else {
      assert Slashes(n) + s == "/" + (Slashes(n - 1) + s);
      LeadingSlash(Slashes(n - 1) + s);
      SlashesVanish(n - 1, s);
    }
  }

  /** The repository's file name, and what may follow it. */
  function FileName(repo: Repo, git: bool): string {
    repo.name + if git then ".git" else ""
  }

  function Ending(file: string, tail: Option<string>): string {
    match tail
    case None => file
    case Some(rest) => file + "/" + rest
  }

  /** A path as clients write it: slashes, owner, slashes, the repository with or without `.git`, and
      whatever follows after a further slash. */
  function Render(repo: Repo, leading: nat, between: nat, git: bool, tail: Option<string>): string {
    Slashes(leading) + (repo.owner + "/" + (Slashes(between) + Ending(FileName(repo, git), tail)))
  }

  predicate IsRepo(repo: Repo) {
    repo.owner != "" && '/' !in repo.owner && repo.name != "" && '/' !in repo.name
  }

  lemma StripGitFileName(repo: Repo, git: bool)
    requires IsRepo(repo)
    ensures FileName(repo, git) != "" && '/' !in FileName(repo, git)
    ensures StripGit(FileName(repo, git)) == repo.name <==> git || !EndsWith(repo.name, ".git")
  {
    if git {
      var file := FileName(repo, git);
      assert file[|file| - 4..] == ".git" && file[..|file| - 4] == repo.name;
    } else {
      assert FileName(repo, git) == repo.name;
    }
  }

  lemma EndingComponents(file: string, tail: Option<string>)
    requires file != "" && '/' !in file
    ensures Components(Ending(file, tail)) != [] && Components(Ending(file, tail))[0] == file
  {
    if tail.Some? { FirstComponent(file, tail.value); } else { OnlyComponent(file); }
  }

  lemma OwnerThen(leading: nat, owner: string, between: nat, end: string)
    requires owner != "" && '/' !in owner
    ensures Components(Slashes(leading) + (owner + "/" + (Slashes(between) + end))) == [owner] + Components(end)
  {
    calc {
      Components(Slashes(leading) + (owner + "/" + (Slashes(between) + end)));
      { SlashesVanish(leading, owner + "/" + (Slashes(between) + end)); }
      Components(owner + "/" + (Slashes(between) + end));
      { FirstComponent(owner, Slashes(between) + end); }
      [owner] + Components(Slashes(between) + end);
      { SlashesVanish(between, end); }
      [owner] + Components(end);
    }
  }

  /** Reading a rendered path gives back the repository, unless the name itself ends in `.git` and is
      written without a further `.git`. */
  lemma RepoRoundTrip(repo: Repo, leading: nat, between: nat, git: bool, tail: Option<string>)
    requires IsRepo(repo)
    ensures RepoFromPath(Render(repo, leading, between, git, tail)) == Some(repo)
       <==> git || forall front :: repo.name != front + ".git"
  {
    EndsWithMeaning(repo.name, ".git");
    var file := FileName(repo, git);
    TrimKeepsComponents(Render(repo, leading, between, git, tail));
    OwnerThen(leading, repo.owner, between, Ending(file, tail));
    StripGitFileName(repo, git);
    EndingComponents(file, tail);
  }

  /** A text with components is slashes, its first component, and nothing or a slash and the rest. */
  lemma {:induction false} FirstOfComponents(s: string) returns (leading: nat, tail: Option<string>)
    requires Components(s) != []
    ensures s == Slashes(leading) + Ending(Components(s)[0], tail)
    ensures Components(s)[1..] == if tail.Some? then Components(tail.value) else []
    decreases |s|
  {
    var i := IndexOf(s, '/');
    if i == |s| {
      if s != "" { OnlyComponent(s); }
      leading, tail := 0, None;
      assert s != "" by { assert Split("", '/') == [""]; }
    } else {
      var part, rest := s[..i], s[i + 1..];
      AroundAt(s, i);
      if part == "" {
        assert s == "/" + rest;
        LeadingSlash(rest);
        leading, tail := FirstOfComponents(rest);
        MoreSlashes(leading, Ending(Components(rest)[0], tail));
        leading := leading + 1;
      } else {
        FirstComponent(part, rest);
        leading, tail := 0, Some(rest);
      }
    }
  }

  lemma MoreSlashes(n: nat, s: string)
    ensures "/" + (Slashes(n) + s) == Slashes(n + 1) + s
  {
  }

  /** The path is the repository written with these slashes, this ending and this tail, and reads back. */
  ghost predicate IsWrittenAs(path: string, repo: Repo, leading: nat, between: nat, git: bool, tail: Option<string>) {
    && path == Render(repo, leading, between, git, tail)
    && (git || forall front :: repo.name != front + ".git")
  }

  lemma WrittenForm(path: string, repo: Repo)
    returns (leading: nat, between: nat, git: bool, tail: Option<string>)
    requires RepoFromPath(path) == Some(repo)
    ensures IsWrittenAs(path, repo, leading, between, git, tail)
  {
    TrimKeepsComponents(path);
    var components := Components(path);
    var rest: Option<string>;
    leading, rest := FirstOfComponents(path);
    assert components[1] == components[1..][0];
    between, tail := FirstOfComponents(rest.value);
    git := WrittenFile(components[1], repo);
  }

  lemma WrittenFile(file: string, repo: Repo) returns (git: bool)
    requires StripGit(file) == repo.name
    ensures FileName(repo, git) == file && (git || forall front :: repo.name != front + ".git")
  {
    git := EndsWith(file, ".git");
    EndsWithMeaning(file, ".git");
    if git { assert file == file[..|file| - 4] + ".git"; } else { assert repo.name + "" == file; }
  }

  /** Exactly which paths are about which repository: those that are its owner and name between slashes,
      with or without `.git`, and whatever follows. All other paths are about none. */
  lemma RepoFromPathIff(path: string, repo: Repo)
    ensures RepoFromPath(path) == Some(repo) <==>
      IsRepo(repo) && exists leading, between, git, tail :: IsWrittenAs(path, repo, leading, between, git, tail)
  {
    if RepoFromPath(path) == Some(repo) {
      RepoPartsAreNames(path);
      var leading, between, git, tail := WrittenForm(path, repo);
    }
    if leading, between, git, tail :| IsWrittenAs(path, repo, leading, between, git, tail) {
      if IsRepo(repo) { RepoRoundTrip(repo, leading, between, git, tail); }
    }
  }

  /** Slashes in front of a path do not matter. */
  lemma TrimmedPathSameRepo(path: string)
    ensures RepoFromPath(TrimStart(path, '/')) == RepoFromPath(path)
  {
    TrimKeepsComponents(path);
    TrimKeepsComponents(TrimStart(path, '/'));
  }

  // ----- Requests stated as a URL -----

  lemma PortIsNotPartOfGithub(host: string, port: string)
    ensures !EqIgnoreAsciiCase(host + ":" + port, "github.com")
  {
    var (text, name) := (host + ":" + port, "github.com");
    if |text| == |name| {
      assert text[|host|] == ':';
      assert forall i :: 0 <= i < |name| ==> LowerAscii(name[i]) != LowerAscii(':');
    }
  }

  /** The host without regard to case: each character is the small or the capital letter. */
  lemma GithubHostForms(host: string)
    ensures EqIgnoreAsciiCase(host, "github.com") <==>
      && |host| == 10
      && forall i | 0 <= i < 10 :: host[i] == "github.com"[i] || host[i] == "GITHUB.COM"[i]
  {
    var small, capital := "github.com", "GITHUB.COM";
    forall i | 0 <= i < 10 && i < |host|
      ensures LowerAscii(host[i]) == LowerAscii(small[i]) <==> host[i] == small[i] || host[i] == capital[i]
    {
      assert i == 0 || i == 1 || i == 2 || i == 3 || i == 4 || i == 5 || i == 6 || i == 7 || i == 8 || i == 9;
    }
  }

  predicate NamesGithub(url: Url) {
    url.scheme == "https" && url.port.None? && url.host.Some? && EqIgnoreAsciiCase(url.host.value, "github.com")
  }

  /** Exactly which URLs make a request one for GitHub; a port that the parser reports rules it out. */
  lemma UrlNamesGithubIff(url: Url)
    ensures IsGithubHttpsRequest(UrlAttributes(url)) <==> NamesGithub(url)
  {
    var merged := UrlAttributes(url);
    assert "protocol" != "host" && "host" != "path" && "protocol" != "path";
    assert merged["protocol"] == url.scheme;
    if url.host.Some? && url.port.Some? {
      var (host, port) := (url.host.value, Decimal(url.port.value));
      assert merged["host"] == host + ":" + port;
      PortIsNotPartOfGithub(host, port);
    }
  }

  lemma NoRepoInNothing()
    ensures RepoFromPath("") == None
  {
    assert Split("", '/') == [""];
  }

  /** The path a URL supplies is about the URL's own repository, if it has one. */
  lemma UrlRepo(url: Url)
    ensures RepoFromCredential(UrlAttributes(url)) == RepoFromPath(url.path)
  {
    var front, path := map["protocol" := url.scheme] + HostAttribute(url), PathAttribute(url);
    TrimmedPathSameRepo(url.path);
    NoRepoInNothing();
    assert "path" != "protocol" && "path" != "host";
    assert "path" !in front;
    assert "path" in front + path <==> "path" in path;
  }

  /** Next to what a URL supplies, the URL itself is not looked at. */
  lemma UrlItselfIsIgnored(attributes: Attributes, given: Attributes)
    requires given.Keys == {"url"}
    ensures IsGithubHttpsRequest(attributes + given) <==> IsGithubHttpsRequest(attributes)
    ensures RepoFromCredential(attributes + given) == RepoFromCredential(attributes)
  {
    assert "url" != "protocol" && "url" != "host" && "url" != "path";
  }

  lemma LastWinsSingle(key: string, value: string)
    ensures LastWins([(key, value)], map[]) == map[key := value]
  {
  }

  lemma UrlMeaning(parse: UrlParser, rawUrl: string)
    requires Printable("url", rawUrl)
    ensures Meaning(parse, Print([("url", rawUrl)])) == Ok(WithUrl(parse, map["url" := rawUrl]))
  {
    PrintRoundTrip(parse, [("url", rawUrl)], "");
    LastWinsSingle("url", rawUrl);
  }

  /** A request that git states as a URL alone, whatever the URL: it is one for GitHub exactly when the
      URL parses and names GitHub, and it is about the repository that the URL's own path is about. */
  lemma UrlRequest(parse: UrlParser, rawUrl: string)
    requires Printable("url", rawUrl)
    ensures Meaning(parse, Print([("url", rawUrl)])).Ok?
    ensures var credential := Meaning(parse, Print([("url", rawUrl)])).value;
      var url := parse(rawUrl);
      && (IsGithubHttpsRequest(credential) <==> url.Some? && NamesGithub(url.value))
      && RepoFromCredential(credential) == if url.Some? then RepoFromPath(url.value.path) else None
  {
    UrlMeaning(parse, rawUrl);
    var given := map["url" := rawUrl];
    match parse(rawUrl)
    case None =>
      assert "protocol" !in given && "path" !in given;
    case Some(url) =>
      UrlItselfIsIgnored(UrlAttributes(url), given);
      UrlNamesGithubIff(url);
      UrlRepo(url);
  }
}
