// What the credential format carries: which texts are read, as what, and which attributes survive
// being printed and read back.
module CredentialFormat {
  import opened Wrappers
  import opened Text
  import opened Credential

  /** The lines before the first empty one. */
  function Block(lines: seq<string>): seq<string> {
    if lines == [] || lines[0] == "" then [] else [lines[0]] + Block(lines[1..])
  }

  ghost predicate IsAttribute(line: string) {
    exists key, value :: line == key + "=" + value && key != "" && '=' !in key
  }

  lemma AttributeShape(line: string)
    ensures IsAttribute(line) <==> SplitOnce(line, '=').Some? && SplitOnce(line, '=').value.0 != ""
  {
    if key, value :| line == key + "=" + value && key != "" && '=' !in key {
      SplitOnceUnique(key, value, '=');
    }
    if SplitOnce(line, '=').Some? && SplitOnce(line, '=').value.0 != "" {
      var (key, value) := SplitOnce(line, '=').value;
      assert line == key + "=" + value;
    }
  }

  /** The attributes of lines that are attributes. */
  function AttributesOf(lines: seq<string>): seq<(string, string)>
    requires forall line :: line in lines ==> '=' in line
  {
    if lines == [] then []
    else
      assert lines[0] in lines;
      [SplitOnce(lines[0], '=').value] + AttributesOf(lines[1..])
  }

  /** The first line that is not an attribute, and how it is reported. */
  ghost predicate FirstBadLine(lines: seq<string>, i: nat, error: CredentialError) {
    && i < |lines| && !IsAttribute(lines[i])
    && (forall j :: 0 <= j < i ==> IsAttribute(lines[j]))
    && error == if '=' in lines[i] then EmptyKey else MissingEquals(lines[i])
  }

  /** A request is read exactly when every line before the first empty one is an attribute; it means
      the last-wins map of them, and otherwise the first bad line is reported. */
  lemma {:induction false} CollectMeaning(lines: seq<string>, collected: Attributes)
    ensures var block := Block(lines);
      var r := Collect(lines, collected);
      && (r.Ok? <==> forall line :: line in block ==> IsAttribute(line))
      && (r.Ok? ==> (forall line :: line in block ==> '=' in line)
                    && r.value == LastWins(AttributesOf(block), collected))
      && (r.Err? ==> exists i: nat :: FirstBadLine(block, i, r.error))
  {
    if lines == [] || lines[0] == "" {
    } else {
      AttributeShape(lines[0]);
      var block := Block(lines);
      var split := SplitOnce(lines[0], '=');
      if split.Some? && split.value.0 != "" {
        var collected' := collected[split.value.0 := split.value.1];
        CollectMeaning(lines[1..], collected');
        var rest := Block(lines[1..]);
        assert block == [lines[0]] + rest;
        if Collect(lines, collected).Ok? {
          assert block[1..] == rest;
        } else {
          var error := Collect(lines, collected).error;
          var i: nat :| FirstBadLine(rest, i, error);
          assert forall j :: 0 < j < |block| ==> block[j] == rest[j - 1];
          assert FirstBadLine(block, i + 1, error);
        }
      } else {
        assert FirstBadLine(block, 0, Collect(lines, collected).error);
      }
    }
  }

  // ----- Which attributes survive -----

  lemma {:induction false} LinesHaveNoNewline(s: string)
    ensures forall line :: line in Lines(s) ==> '\n' !in line
    decreases |s|
  {
    var i := IndexOf(s, '\n');
    if i == |s| {
    } else {
      LinesHaveNoNewline(s[i + 1..]);
      var line := StripCarriageReturn(s[..i]);
      assert line <= s[..i];
    }
  }

  ghost predicate KeyAndValueClean(key: string, value: string) {
    key != "" && '=' !in key && '\n' !in key && '\n' !in value
  }

  lemma {:induction false} CollectedAreClean(lines: seq<string>, collected: Attributes)
    requires forall line :: line in lines ==> '\n' !in line
    requires forall key :: key in collected ==> KeyAndValueClean(key, collected[key])
    requires Collect(lines, collected).Ok?
    ensures var r := Collect(lines, collected).value;
      forall key :: key in r ==> KeyAndValueClean(key, r[key])
  {
    if lines == [] || lines[0] == "" {
    } else {
      var (key, value) := SplitOnce(lines[0], '=').value;
      assert lines[0] in lines && lines[0] == key + "=" + value;
      CollectedAreClean(lines[1..], collected[key := value]);
    }
  }

  /** A carriage return at the end of a value does not survive. */
  lemma TrailingReturnIsLost(key: string, value: string)
    requires KeyAndValueClean(key, value) && value != "" && value[|value| - 1] == '\r'
    ensures Collect(Lines(Print([(key, value)])), map[]) == Ok(map[key := value[..|value| - 1]])
    ensures map[key := value[..|value| - 1]] != map[key := value]
  {
    var line := key + "=" + value;
    assert Print([(key, value)]) == line + "\n" + "";
    LinesOfLine(line, "");
    var stripped := value[..|value| - 1];
    assert StripCarriageReturn(line) == key + "=" + stripped;
    SplitOnceUnique(key, stripped, '=');
    assert |stripped| != |value| && map[key := stripped][key] != map[key := value][key];
  }

  /** An attribute other than `url` survives printing and reading exactly when it is printable. */
  lemma SurvivesIffPrintable(parse: UrlParser, key: string, value: string)
    requires key != "url"
    ensures Meaning(parse, Print([(key, value)])) == Ok(map[key := value]) <==> Printable(key, value)
  {
    var attributes := [(key, value)];
    if Printable(key, value) {
      PrintRoundTrip(parse, attributes, "");
      assert LastWins(attributes, map[]) == map[key := value];
    }
    if Meaning(parse, Print(attributes)) == Ok(map[key := value]) {
      var lines := Lines(Print(attributes));
      LinesHaveNoNewline(Print(attributes));
      var collected := Collect(lines, map[]).value;
      CollectedAreClean(lines, map[]);
      UrlOnlyAdds(parse, collected);
      assert "url" in collected ==> "url" in WithUrl(parse, collected);
      assert collected == map[key := value];
      assert KeyAndValueClean(key, collected[key]);
      if value != "" && value[|value| - 1] == '\r' {
        TrailingReturnIsLost(key, value);
      }
    }
  }
}
