// The git credential helper's side of the INPUT/OUTPUT FORMAT of git-credential(1): reading the
// attributes of a request, and finding the repository in them.
module Credential {
  import opened Wrappers
  import opened Text

  datatype CredentialError = MissingEquals(line: string) | EmptyKey

  type Attributes = map<string, string>

  /** What the program uses of a parsed URL; parsing itself is an arbitrary function. */
  datatype Url = Url(scheme: string, host: Option<string>, port: Option<nat>, path: string)

  type UrlParser = string -> Option<Url>

  // ----- Lines -----

  function StripCarriageReturn(line: string): string {
    if line != "" && line[|line| - 1] == '\r' then line[..|line| - 1] else line
  }

  /** `str::lines`: a line ends with `\n` or `\r\n`; the last one may end with the text. */
  function Lines(s: string): seq<string> {
    var i := IndexOf(s, '\n');
    if i < |s| then [StripCarriageReturn(s[..i])] + Lines(s[i + 1..])
    else if s == "" then []
    else [s]
  }

  lemma LinesOfLine(line: string, rest: string)
    requires '\n' !in line
    ensures Lines(line + "\n" + rest) == [StripCarriageReturn(line)] + Lines(rest)
  {
    SplitOnceUnique(line, rest, '\n');
  }

  /** A last line without a newline is a line too, as it stands; the empty text has no lines. */
  lemma LastLine(line: string)
    requires '\n' !in line
    ensures Lines(line) == if line == "" then [] else [line]
  {
  }

  predicate WholeLines(s: string) {
    s == "" || s[|s| - 1] == '\n'
  }

  /** A non-empty text of whole lines is its first line and a text of whole lines. */
  lemma FirstWholeLine(a: string) returns (line: string, rest: string)
    requires WholeLines(a) && a != ""
    ensures '\n' !in line && a == line + "\n" + rest && WholeLines(rest)
  {
    var split := SplitOnce(a, '\n').value;
    line, rest := split.0, split.1;
    assert rest != "" ==> rest[|rest| - 1] == a[|a| - 1];
  }

  lemma {:induction false} LinesAppend(a: string, b: string)
    requires WholeLines(a)
    ensures Lines(a + b) == Lines(a) + Lines(b)
    decreases |a|
  {
    if a == "" {
      assert a + b == b;
    } else {
      var line, rest := FirstWholeLine(a);
      LinesAppend(rest, b);
      LineInFront(line, rest, b);
    }
  }

  lemma LineInFront(line: string, rest: string, b: string)
    requires '\n' !in line && Lines(rest + b) == Lines(rest) + Lines(b)
    ensures Lines((line + "\n" + rest) + b) == Lines(line + "\n" + rest) + Lines(b)
  {
    RegroupLine(line, rest, b);
    LinesOfLine(line, rest + b);
    LinesOfLine(line, rest);
    Associative([StripCarriageReturn(line)], Lines(rest), Lines(b));
  }

  lemma Associative<T>(a: seq<T>, b: seq<T>, c: seq<T>)
    ensures a + (b + c) == (a + b) + c
  {
  }

  lemma RegroupLine(line: string, rest: string, b: string)
    ensures (line + "\n" + rest) + b == line + "\n" + (rest + b)
  {
  }

  // ----- The attributes of a text -----

  /** The attributes in the lines up to the first empty one, later ones replacing earlier ones. */
  function Collect(lines: seq<string>, collected: Attributes): Result<Attributes, CredentialError> {
    if lines == [] || lines[0] == "" then Ok(collected)
    else
      match SplitOnce(lines[0], '=')
      case None => Err(MissingEquals(lines[0]))
      case Some((key, value)) =>
        if key == "" then Err(EmptyKey) else Collect(lines[1..], collected[key := value])
  }

  function HostAttribute(url: Url): Attributes {
    match (url.host, url.port)
    case (None, _) => map[]
    case (Some(host), None) => map["host" := host]
    case (Some(host), Some(port)) => map["host" := host + ":" + Decimal(port)]
  }

  function PathAttribute(url: Url): Attributes {
    var trimmed := TrimStart(url.path, '/');
    if trimmed == "" then map[] else map["path" := trimmed]
  }

  function UrlAttributes(url: Url): Attributes {
    map["protocol" := url.scheme] + HostAttribute(url) + PathAttribute(url)
  }

  /** A URL only supplies what is not given explicitly. */
  function WithUrl(parse: UrlParser, attributes: Attributes): Attributes {
    if "url" !in attributes then attributes
    else
      match parse(attributes["url"])
      case None => attributes
      case Some(url) => UrlAttributes(url) + attributes
  }

  /** What a text means as a credential request. */
  function Meaning(parse: UrlParser, input: string): Result<Attributes, CredentialError> {
    match Collect(Lines(input), map[])
    case Err(error) => Err(error)
    case Ok(attributes) => Ok(WithUrl(parse, attributes))
  }

  /** Lines from the first empty one on do not matter. */
  lemma {:induction false} CollectStops(lines: seq<string>, ignored: seq<string>, collected: Attributes)
    requires ignored == [] || ignored[0] == ""
    ensures Collect(lines + ignored, collected) == Collect(lines, collected)
  {
    if lines == [] {
      assert lines + ignored == ignored;
    } else if lines[0] != "" {
      assert (lines + ignored)[1..] == lines[1..] + ignored;
      var split := SplitOnce(lines[0], '=');
      if split.Some? { CollectStops(lines[1..], ignored, collected[split.value.0 := split.value.1]); }
    }
  }

  /** Explicit attributes survive the merging of a URL, and nothing but protocol, host and path is
      added. */
  lemma UrlOnlyAdds(parse: UrlParser, attributes: Attributes)
    ensures var merged := WithUrl(parse, attributes);
      && (forall key :: key in attributes ==> key in merged && merged[key] == attributes[key])
      && (forall key :: key in merged && key !in attributes ==> key in {"protocol", "host", "path"})
  {
  }

  // ----- The program's map, and its two readers -----

  class CredentialMap {
    var entries: Attributes

    constructor ()
      ensures entries == map[]
    {
      entries := map[];
    }

    method Insert(key: string, value: string)
      modifies this
      ensures entries == old(entries)[key := value]
    {
      entries := entries[key := value];
    }

    /** `Entry::or_insert`. */
    method OrInsert(key: string, value: string)
      modifies this
      ensures entries == map[key := value] + old(entries)
    {
      if key !in entries {
        entries := entries[key := value];
      }
    }

    /** `merge_url_credential`. */
    method MergeUrl(parse: UrlParser, rawUrl: string)
      modifies this
      ensures entries ==
        match parse(rawUrl)
        case None => old(entries)
        case Some(url) => UrlAttributes(url) + old(entries)
    {
      var parsed := parse(rawUrl);
      if parsed.None? { return; }
      var url := parsed.value;
      OrInsert("protocol", url.scheme);
      if url.host.Some? {
        var host := if url.port.Some? then url.host.value + ":" + Decimal(url.port.value) else url.host.value;
        OrInsert("host", host);
      }
      var path := TrimStart(url.path, '/');
      if path != "" {
        OrInsert("path", path);
      }
      MergeOrder(map["protocol" := url.scheme], HostAttribute(url), PathAttribute(url), old(entries));
    }
  }

  /** Adding what is absent piece by piece is adding it at once, for pieces without common keys. */
  lemma MergeOrder(a: Attributes, b: Attributes, c: Attributes, explicit: Attributes)
    requires a.Keys !! b.Keys && a.Keys !! c.Keys && b.Keys !! c.Keys
    ensures c + (b + (a + explicit)) == a + b + c + explicit
    ensures b == map[] ==> b + (a + explicit) == a + explicit
    ensures c == map[] ==> c + (b + (a + explicit)) == b + (a + explicit)
  {
  }

  method ParseCredential(parse: UrlParser, input: string) returns (r: Result<Attributes, CredentialError>)
    ensures r == Meaning(parse, input)
  {
    var credential := new CredentialMap();
    var lines := Lines(input);
    var i := 0;
    while i < |lines| && lines[i] != ""
      invariant i <= |lines|
      invariant Collect(lines, map[]) == Collect(lines[i..], credential.entries)
    {
      var line := lines[i];
      var split := SplitOnce(line, '=');
      if split.None? { return Err(MissingEquals(line)); }
      var (key, value) := split.value;
      if key == "" { return Err(EmptyKey); }
      credential.Insert(key, value);
      i := i + 1;
    }
    if "url" in credential.entries {
      credential.MergeUrl(parse, credential.entries["url"]);
    }
    return Ok(credential.entries);
  }

  /** `read_line`: the text up to and including the next `\n`, or what is left. */
  function NextLine(s: string): (line: string)
    ensures line <= s
    ensures s != "" ==> line != ""
    ensures line == s || WholeLines(line)
  {
    var i := IndexOf(s, '\n');
    if i < |s| then s[..i + 1] else s
  }

  /** The two texts read as the same attributes. */
  ghost predicate ReadAlike(a: string, b: string) {
    Collect(Lines(a), map[]) == Collect(Lines(b), map[])
  }

  /** Reading up to the first blank line and parsing what was read gives the meaning of the whole
      text: the reader's stop and the parser's agree, and what follows never matters. */
  method ReadCredential(parse: UrlParser, input: string) returns (r: Result<Attributes, CredentialError>)
    ensures r == Meaning(parse, input)
  {
    var credentialInput := "";
    var rest := input;
    while true
      invariant credentialInput + rest == input
      invariant rest == "" || WholeLines(credentialInput)
      decreases |rest|
    {
      var line := NextLine(rest);
      if line == "" {
        assert credentialInput == input;
        break;
      }
      if line == "\n" || line == "\r\n" {
        BlankLineStops(credentialInput, line, rest);
        break;
      }
      TakeLine(credentialInput, line, rest);
      credentialInput := credentialInput + line;
      rest := rest[|line|..];
    }
    assert ReadAlike(input, credentialInput);
    r := ParseCredential(parse, credentialInput);
  }

  lemma TakeLine(front: string, line: string, rest: string)
    requires line <= rest && (line == rest || WholeLines(line))
    ensures (front + line) + rest[|line|..] == front + rest
    ensures rest[|line|..] == "" || (line != "" ==> WholeLines(front + line))
  {
    assert rest == line + rest[|line|..];
  }

  lemma BlankLineStops(front: string, line: string, rest: string)
    requires WholeLines(front) && line <= rest && (line == "\n" || line == "\r\n")
    ensures ReadAlike(front + rest, front)
  {
    LinesAppend(front, rest);
    BlankFirstLine(line, rest);
    CollectStops(Lines(front), Lines(rest), map[]);
  }

  lemma BlankFirstLine(line: string, rest: string)
    requires line <= rest && (line == "\n" || line == "\r\n")
    ensures Lines(rest) != [] && Lines(rest)[0] == ""
  {
    var bare := line[..|line| - 1];
    var after := rest[|line|..];
    assert line == bare + "\n" && rest == line + after;
    LinesOfLine(bare, after);
  }

  // ----- Printing -----

  /** One `key=value` line an attribute, as git writes them. */
  function Print(attributes: seq<(string, string)>): string {
    if attributes == [] then ""
    else attributes[0].0 + "=" + attributes[0].1 + "\n" + Print(attributes[1..])
  }

  /** The attributes that the format can carry. */
  predicate Printable(key: string, value: string) {
    && key != "" && '=' !in key && '\n' !in key
    && '\n' !in value && (value == "" || value[|value| - 1] != '\r')
  }

  /** The map with the last value of each key. */
  function LastWins(attributes: seq<(string, string)>, before: Attributes): Attributes {
    if attributes == [] then before
    else LastWins(attributes[1..], before[attributes[0].0 := attributes[0].1])
  }

  /** The last attribute with this key stands at position `i`. */
  predicate LastAt(attributes: seq<(string, string)>, i: nat, key: string)
    requires i < |attributes|
  {
    attributes[i].0 == key && forall j | i < j < |attributes| :: attributes[j].0 != key
  }

  lemma {:induction false} LastWinsMeaning(attributes: seq<(string, string)>, before: Attributes, key: string)
    ensures key in LastWins(attributes, before) <==>
      key in before || exists i :: 0 <= i < |attributes| && attributes[i].0 == key
    ensures forall i | 0 <= i < |attributes| && LastAt(attributes, i, key) ::
      key in LastWins(attributes, before) && LastWins(attributes, before)[key] == attributes[i].1
    ensures key in before && (forall i :: 0 <= i < |attributes| ==> attributes[i].0 != key)
      ==> key in LastWins(attributes, before) && LastWins(attributes, before)[key] == before[key]
  {
    if attributes == [] {
    } else {
      var rest := attributes[1..];
      LastWinsMeaning(rest, before[attributes[0].0 := attributes[0].1], key);
      assert forall i :: 1 <= i < |attributes| ==> attributes[i] == rest[i - 1];
    }
  }

  lemma {:induction false} CollectPrinted(attributes: seq<(string, string)>, rest: string, collected: Attributes)
    requires forall a :: a in attributes ==> Printable(a.0, a.1)
    requires Collect(Lines(rest), LastWins(attributes, collected)) == Ok(LastWins(attributes, collected))
    ensures Collect(Lines(Print(attributes) + rest), collected) == Ok(LastWins(attributes, collected))
  {
    if attributes == [] {
      assert Print(attributes) + rest == rest;
    } else {
      var (key, value) := attributes[0];
      assert attributes[0] in attributes;
      RegroupLine(key + "=" + value, Print(attributes[1..]), rest);
      PrintedLine(key, value, Print(attributes[1..]) + rest);
      CollectPrinted(attributes[1..], rest, collected[key := value]);
      CollectAttribute(key, value, Lines(Print(attributes[1..]) + rest), collected);
    }
  }

  lemma PrintedLine(key: string, value: string, more: string)
    requires Printable(key, value)
    ensures Lines(key + "=" + value + "\n" + more) == [key + "=" + value] + Lines(more)
  {
    var line := key + "=" + value;
    assert value != "" ==> line[|line| - 1] == value[|value| - 1];
    LinesOfLine(line, more);
  }

  lemma CollectAttribute(key: string, value: string, lines: seq<string>, collected: Attributes)
    requires key != "" && '=' !in key
    ensures Collect([key + "=" + value] + lines, collected) == Collect(lines, collected[key := value])
  {
    SplitOnceUnique(key, value, '=');
    assert ([key + "=" + value] + lines)[1..] == lines;
  }

  /** Printing any sequence of printable attributes, a blank line and anything at all reads back as
      the last-wins map, with what its URL adds. */
  lemma PrintRoundTrip(parse: UrlParser, attributes: seq<(string, string)>, ignored: string)
    requires forall a :: a in attributes ==> Printable(a.0, a.1)
    ensures Meaning(parse, Print(attributes)) == Ok(WithUrl(parse, LastWins(attributes, map[])))
    ensures Meaning(parse, Print(attributes) + "\n" + ignored) == Ok(WithUrl(parse, LastWins(attributes, map[])))
  {
    CollectPrinted(attributes, "", map[]);
    assert Print(attributes) + "" == Print(attributes);
    BlankFirstLine("\n", "\n" + ignored);
    CollectPrinted(attributes, "\n" + ignored, map[]);
    Associative(Print(attributes), "\n", ignored);
  }
}
