/** The rewriting of the deployment's environment file. */
module Environment {
  import opened Results

  // ---- Lines of a file ----

  /** The text split at every line feed; a text without any is one line. */
  function Split(text: string): (lines: seq<string>)
    ensures |lines| >= 1
  {
    if text == "" then [""]
    else
      var rest := Split(text[1..]);
      if text[0] == '\n' then [""] + rest else [[text[0]] + rest[0]] + rest[1..]
  }

  function Join(lines: seq<string>): string {
    if lines == [] then "" else if |lines| == 1 then lines[0] else lines[0] + "\n" + Join(lines[1..])
  }

  function TrimLineFeed(text: string): string {
    if text != "" && text[|text| - 1] == '\n' then text[..|text| - 1] else text
  }

  function LinesOf(data: string): seq<string> { Split(TrimLineFeed(data)) }

  ghost predicate OneLine(s: string) { '\n' !in s }

  lemma {:induction false} SplitGivesLines(text: string)
    ensures forall i :: 0 <= i < |Split(text)| ==> OneLine(Split(text)[i])
  {
    if text != "" {
      SplitGivesLines(text[1..]);
      var rest := Split(text[1..]);
      forall i | 0 <= i < |Split(text)|
        ensures OneLine(Split(text)[i])
      {
        if text[0] == '\n' {
          if i > 0 { assert Split(text)[i] == rest[i - 1]; }
        } else if i > 0 {
          assert Split(text)[i] == rest[i];
        }
      }
    }
  }

  lemma {:induction false} SplitOne(line: string)
    requires OneLine(line)
    ensures Split(line) == [line]
  {
    if line != "" {
      assert OneLine(line[1..]);
      SplitOne(line[1..]);
      assert [line[0]] + line[1..] == line;
    }
  }

  lemma {:induction false} SplitAfter(line: string, rest: string)
    requires OneLine(line)
    ensures Split(line + "\n" + rest) == [line] + Split(rest)
  {
    var text := line + "\n" + rest;
    if line == "" {
      assert text[1..] == rest;
    } else {
      assert text[1..] == line[1..] + "\n" + rest;
      SplitAfter(line[1..], rest);
      assert [line[0]] + line[1..] == line;
    }
  }

  /** Lines come back from the file they were joined into. */
  lemma {:induction false} SplitJoin(lines: seq<string>)
    requires |lines| >= 1 && forall i :: 0 <= i < |lines| ==> OneLine(lines[i])
    ensures Split(Join(lines)) == lines
  {
    if |lines| == 1 {
      SplitOne(lines[0]);
    } else {
      SplitJoin(lines[1..]);
      SplitAfter(lines[0], Join(lines[1..]));
    }
  }

  lemma {:induction false} LinesOfFile(lines: seq<string>)
    requires |lines| >= 1 && forall i :: 0 <= i < |lines| ==> OneLine(lines[i])
    ensures LinesOf(Join(lines) + "\n") == lines
  {
    assert TrimLineFeed(Join(lines) + "\n") == Join(lines);
    SplitJoin(lines);
  }

  // ---- Assignments ----

  /** The part before the first equals sign, if there is one. */
  function KeyOf(line: string): Option<string> {
    if line == "" then None
    else if line[0] == '=' then Some("")
    else
      var rest := KeyOf(line[1..]);
      if rest.None? then None else Some([line[0]] + rest.value)
  }

  function Assignment(key: string, value: string): string { key + "=" + value }

  lemma {:induction false} KeyOfAssignment(key: string, value: string)
    requires '=' !in key
    ensures KeyOf(Assignment(key, value)) == Some(key)
  {
    if key != "" {
      assert Assignment(key, value)[1..] == Assignment(key[1..], value);
      KeyOfAssignment(key[1..], value);
      assert [key[0]] + key[1..] == key;
    } else {
      assert Assignment(key, value)[0] == '=';
    }
  }

  lemma {:induction false} KeysHaveNoEquals(line: string)
    requires KeyOf(line).Some?
    ensures '=' !in KeyOf(line).value && |KeyOf(line).value| < |line|
    ensures OneLine(line) ==> OneLine(KeyOf(line).value)
  {
    if line[0] != '=' {
      KeysHaveNoEquals(line[1..]);
    }
  }

  /** The key of a line is what stands before its first equals sign; a line without one has none. */
  lemma {:induction false} KeyIsBeforeEquals(line: string, key: string)
    ensures KeyOf(line) == Some(key) <==> '=' !in key && key + "=" <= line
    ensures KeyOf(line).None? <==> '=' !in line
  {
    if line != "" && line[0] != '=' {
      KeyIsBeforeEquals(line[1..], if key == "" then "" else key[1..]);
      if key != "" && key[0] == line[0] {
        assert key == [key[0]] + key[1..];
        assert key + "=" == [key[0]] + (key[1..] + "=");
      }
    }
  }

  predicate HasBreak(s: string) { '\r' in s || '\n' in s }

  predicate Sets(line: string, key: string) { KeyOf(line) == Some(key) }

  /** Some line of the file sets the key. */
  ghost predicate Present(lines: seq<string>, key: string) {
    exists i :: 0 <= i < |lines| && Sets(lines[i], key)
  }

  /** The key is set, and every line that sets it gives it this value. */
  ghost predicate Says(lines: seq<string>, key: string, value: string) {
    Present(lines, key) && forall i :: 0 <= i < |lines| && Sets(lines[i], key) ==> lines[i] == Assignment(key, value)
  }

  // ---- Replacing ----

  type Replacements = map<string, string>

  predicate Touches(line: string, r: Replacements) { KeyOf(line).Some? && KeyOf(line).value in r }

  function Rewritten(line: string, r: Replacements): string {
    if Touches(line, r) then Assignment(KeyOf(line).value, r[KeyOf(line).value]) else line
  }

  function RewrittenLines(lines: seq<string>, r: Replacements): seq<string> {
    seq(|lines|, i requires 0 <= i < |lines| => Rewritten(lines[i], r))
  }

  /** A line sets a replaced key whose new value would break the line: the only input that is refused. */
  ghost predicate Refused(lines: seq<string>, r: Replacements) {
    exists i :: 0 <= i < |lines| && Touches(lines[i], r)
                && ('\r' in r[KeyOf(lines[i]).value] || '\n' in r[KeyOf(lines[i]).value])
  }

  /** The keys that no line sets, each once, in any order: a Go map is walked in no particular order. */
  ghost predicate IsMissing(added: seq<string>, lines: seq<string>, r: Replacements) {
    && (forall i, j :: 0 <= i < j < |added| ==> added[i] != added[j])
    && (forall key :: key in added <==> key in r && !Present(lines, key))
  }

  function Assignments(added: seq<string>, r: Replacements): seq<string>
    requires forall key :: key in added ==> key in r
  {
    seq(|added|, i requires 0 <= i < |added| => Assignment(added[i], r[added[i]]))
  }

  /** The file after the replacement: every line in its place, the missing keys behind them. */
  function NewFile(data: string, r: Replacements, added: seq<string>): string
    requires forall key :: key in added ==> key in r
  {
    Join(RewrittenLines(LinesOf(data), r) + Assignments(added, r)) + "\n"
  }

  /** The lines before i are rewritten, the others untouched. */
  ghost predicate RewrittenUpTo(lines: seq<string>, before: seq<string>, r: Replacements, i: nat) {
    && i <= |lines| == |before|
    && (forall j :: 0 <= j < i ==> lines[j] == Rewritten(before[j], r))
    && (forall j :: i <= j < |lines| ==> lines[j] == before[j])
  }

  lemma RewriteNext(lines: seq<string>, before: seq<string>, r: Replacements, i: nat)
    requires RewrittenUpTo(lines, before, r, i) && i < |lines|
    ensures RewrittenUpTo(lines[i := Rewritten(before[i], r)], before, r, i + 1)
    ensures !Touches(before[i], r) ==> RewrittenUpTo(lines, before, r, i + 1)
  {}

  /** The first loop: rewrite every line that sets a replaced key, and note which keys were found. */
  method RewriteFound(before: seq<string>, r: Replacements) returns (result: Result<seq<string>>, found: set<string>)
    ensures result.Err? <==> Refused(before, r)
    ensures result.Ok? ==> result.value == RewrittenLines(before, r)
    ensures result.Ok? ==> forall key :: key in found <==> key in r && Present(before, key)
  {
    var lines := before;
    found := {};
    var i := 0;
    while i < |lines|
      invariant RewrittenUpTo(lines, before, r, i)
      invariant forall j :: 0 <= j < i && Touches(before[j], r) ==> !HasBreak(r[KeyOf(before[j]).value])
      invariant forall key :: key in found <==> key in r && Present(before[..i], key)
    {
      var key := KeyOf(lines[i]);
      PresentNext(before, i);
      RewriteNext(lines, before, r, i);
      if key.Some? && key.value in r {
        if HasBreak(r[key.value]) {
          assert Touches(before[i], r);
          return Err(Invalid), {};
        }
        lines := lines[i := Assignment(key.value, r[key.value])];
        found := found + {key.value};
      }
      i := i + 1;
    }
    assert before[..|lines|] == before;
    assert lines == RewrittenLines(before, r);
    result := Ok(lines);
  }

  /** The second loop: append the keys that were not found, in whatever order they come. */
  method AppendMissing(rewritten: seq<string>, r: Replacements, missing: set<string>)
    returns (lines: seq<string>, ghost added: seq<string>)
    requires missing <= r.Keys
    ensures IsOrdering(added, missing) && lines == rewritten + Assignments(added, r)
  {
    lines, added := rewritten, [];
    var left := missing;
    while left != {}
      invariant left <= missing && IsOrdering(added, missing - left)
      invariant lines == rewritten + Assignments(added, r)
      decreases |left|
    {
      var key :| key in left;
      AddOne(added, missing - left, key, r);
      lines := lines + [Assignment(key, r[key])];
      added := added + [key];
      assert missing - (left - {key}) == missing - left + {key};
      left := left - {key};
    }
    assert missing - left == missing;
  }

  /** Each key of the set once. */
  ghost predicate IsOrdering(added: seq<string>, keys: set<string>) {
    (forall i, j :: 0 <= i < j < |added| ==> added[i] != added[j]) && (forall key :: key in added <==> key in keys)
  }

  lemma AddOne(added: seq<string>, keys: set<string>, key: string, r: Replacements)
    requires IsOrdering(added, keys) && key !in keys && keys <= r.Keys && key in r
    ensures IsOrdering(added + [key], keys + {key})
    ensures Assignments(added + [key], r) == Assignments(added, r) + [Assignment(key, r[key])]
  {}

  method ReplaceEnvironment(data: string, r: Replacements) returns (result: Result<string>, ghost added: seq<string>)
    ensures result.Err? <==> Refused(LinesOf(data), r)
    ensures result.Ok? ==> IsMissing(added, LinesOf(data), r) && result.value == NewFile(data, r, added)
  {
    var rewritten, found := RewriteFound(Split(TrimLineFeed(data)), r);
    if rewritten.Err? { return Err(rewritten.code), []; }
    var lines;
    lines, added := AppendMissing(rewritten.value, r, r.Keys - found);
    result := Ok(Join(lines) + "\n");
  }

  lemma PresentNext(lines: seq<string>, i: nat)
    requires i < |lines|
    ensures forall key :: Present(lines[..i + 1], key) <==> Present(lines[..i], key) || Sets(lines[i], key)
  {
    forall key
      ensures Present(lines[..i + 1], key) <==> Present(lines[..i], key) || Sets(lines[i], key)
    {
      if Present(lines[..i + 1], key) && !Sets(lines[i], key) {
        var j :| 0 <= j < |lines[..i + 1]| && Sets(lines[..i + 1][j], key);
        assert lines[..i][j] == lines[j];
      }
      if Present(lines[..i], key) {
        var j :| 0 <= j < |lines[..i]| && Sets(lines[..i][j], key);
        assert lines[..i + 1][j] == lines[j];
      }
      if Sets(lines[i], key) {
        assert lines[..i + 1][i] == lines[i];
      }
    }
  }

  // ---- What the replacement achieves ----

  /** The appended assignments keep to one line each. Nothing in the code makes sure of it. */
  ghost predicate CleanlyAdded(added: seq<string>, r: Replacements) {
    forall key :: key in added ==> key in r && '=' !in key && OneLine(key) && OneLine(r[key])
  }

  lemma RewrittenIsOneLine(line: string, r: Replacements)
    requires OneLine(line) && (Touches(line, r) ==> !HasBreak(r[KeyOf(line).value]))
    ensures OneLine(Rewritten(line, r)) && KeyOf(Rewritten(line, r)) == KeyOf(line)
  {
    if KeyOf(line).Some? {
      KeysHaveNoEquals(line);
      if Touches(line, r) {
        KeyOfAssignment(KeyOf(line).value, r[KeyOf(line).value]);
      }
    }
  }

  /** Reading the new file back line by line: the old lines in order, each rewritten in place, then the added ones. */
  lemma NewFileLines(data: string, r: Replacements, added: seq<string>)
    requires !Refused(LinesOf(data), r) && IsMissing(added, LinesOf(data), r) && CleanlyAdded(added, r)
    ensures LinesOf(NewFile(data, r, added)) == RewrittenLines(LinesOf(data), r) + Assignments(added, r)
  {
    var before := LinesOf(data);
    var after := RewrittenLines(before, r) + Assignments(added, r);
    SplitGivesLines(TrimLineFeed(data));
    forall i | 0 <= i < |after|
      ensures OneLine(after[i])
    {
      if i < |before| {
        RewrittenIsOneLine(before[i], r);
      } else {
        var key := added[i - |before|];
        assert key in added && after[i] == Assignment(key, r[key]);
      }
    }
    LinesOfFile(after);
  }

  /** Where the assignments of the new file are, and what they say. */
  lemma NewFileKeys(data: string, r: Replacements, added: seq<string>, i: nat)
    requires !Refused(LinesOf(data), r) && IsMissing(added, LinesOf(data), r) && CleanlyAdded(added, r)
    requires i < |LinesOf(data)| + |added|
    ensures var before, after := LinesOf(data), RewrittenLines(LinesOf(data), r) + Assignments(added, r);
            && KeyOf(after[i]) == (if i < |before| then KeyOf(before[i]) else Some(added[i - |before|]))
            && (Touches(after[i], r) ==> after[i] == Assignment(KeyOf(after[i]).value, r[KeyOf(after[i]).value]))
  {
    var before := LinesOf(data);
    SplitGivesLines(TrimLineFeed(data));
    if i < |before| {
      RewrittenIsOneLine(before[i], r);
    } else {
      var key := added[i - |before|];
      assert key in added;
      KeyOfAssignment(key, r[key]);
    }
  }

  /** Every replaced key is set to its new value and nothing else; lines that set no replaced key are
      where they were; and replacing once more changes nothing. */
  lemma ReplacementHolds(data: string, r: Replacements, added: seq<string>)
    requires !Refused(LinesOf(data), r) && IsMissing(added, LinesOf(data), r) && CleanlyAdded(added, r)
    ensures var before, after := LinesOf(data), LinesOf(NewFile(data, r, added));
            && (forall key :: key in r ==> Says(after, key, r[key]))
            && |after| == |before| + |added|
            && (forall i :: 0 <= i < |before| && !Touches(before[i], r) ==> after[i] == before[i])
            && RewrittenLines(after, r) == after && IsMissing([], after, r)
  {
    var after := LinesOf(NewFile(data, r, added));
    NewFileLines(data, r, added);
    forall key | key in r
      ensures Says(after, key, r[key])
    {
      KeyIsSaid(data, r, added, key);
    }
    NothingLeft(data, r, added, after);
  }

  lemma NothingLeft(data: string, r: Replacements, added: seq<string>, after: seq<string>)
    requires !Refused(LinesOf(data), r) && IsMissing(added, LinesOf(data), r) && CleanlyAdded(added, r)
    requires after == RewrittenLines(LinesOf(data), r) + Assignments(added, r)
    requires forall key :: key in r ==> Says(after, key, r[key])
    ensures RewrittenLines(after, r) == after && IsMissing([], after, r)
  {
    forall i | 0 <= i < |after|
      ensures Rewritten(after[i], r) == after[i]
    {
      NewFileKeys(data, r, added, i);
    }
  }

  lemma KeyIsSaid(data: string, r: Replacements, added: seq<string>, key: string)
    requires !Refused(LinesOf(data), r) && IsMissing(added, LinesOf(data), r) && CleanlyAdded(added, r) && key in r
    ensures Says(RewrittenLines(LinesOf(data), r) + Assignments(added, r), key, r[key])
  {
    var before, after := LinesOf(data), RewrittenLines(LinesOf(data), r) + Assignments(added, r);
    forall i | 0 <= i < |after| && Sets(after[i], key)
      ensures after[i] == Assignment(key, r[key])
    {
      NewFileKeys(data, r, added, i);
    }
    if Present(before, key) {
      var i :| 0 <= i < |before| && Sets(before[i], key);
      NewFileKeys(data, r, added, i);
      assert Sets(after[i], key);
    } else {
      var i :| 0 <= i < |added| && added[i] == key;
      NewFileKeys(data, r, added, |before| + i);
      assert Sets(after[|before| + i], key);
    }
  }

  lemma SomeKey(keys: seq<string>)
    ensures keys != [] ==> exists key :: key in keys
  {
    if keys != [] {
      assert keys[0] in keys;
    }
  }

  /** Replacing the same values again gives the very same file. */
  lemma ReplacingTwiceIsReplacingOnce(data: string, r: Replacements, added: seq<string>, again: seq<string>)
    requires !Refused(LinesOf(data), r) && IsMissing(added, LinesOf(data), r) && CleanlyAdded(added, r)
    requires IsMissing(again, LinesOf(NewFile(data, r, added)), r)
    ensures NewFile(NewFile(data, r, added), r, again) == NewFile(data, r, added)
  {
    ReplacementHolds(data, r, added);
    var once := NewFile(data, r, added);
    NewFileLines(data, r, added);
    SomeKey(again);
    assert RewrittenLines(LinesOf(once), r) + Assignments(again, r) == LinesOf(once);
  }

  /** Keys that are not replaced keep what the file said about them. */
  lemma OtherKeysStay(data: string, r: Replacements, added: seq<string>, key: string, value: string)
    requires !Refused(LinesOf(data), r) && IsMissing(added, LinesOf(data), r) && CleanlyAdded(added, r)
    requires key !in r && Says(LinesOf(data), key, value)
    ensures Says(LinesOf(NewFile(data, r, added)), key, value)
  {
    var before, after := LinesOf(data), LinesOf(NewFile(data, r, added));
    NewFileLines(data, r, added);
    forall i | 0 <= i < |after| && Sets(after[i], key)
      ensures i < |before| && after[i] == before[i]
    {
      OtherLineStays(data, r, added, key, i);
    }
    var i :| 0 <= i < |before| && Sets(before[i], key);
    assert !Touches(before[i], r);
    assert after[i] == before[i];
  }

  lemma OtherLineStays(data: string, r: Replacements, added: seq<string>, key: string, i: nat)
    requires !Refused(LinesOf(data), r) && IsMissing(added, LinesOf(data), r) && CleanlyAdded(added, r) && key !in r
    requires i < |LinesOf(data)| + |added|
    requires Sets((RewrittenLines(LinesOf(data), r) + Assignments(added, r))[i], key)
    ensures i < |LinesOf(data)| && (RewrittenLines(LinesOf(data), r) + Assignments(added, r))[i] == LinesOf(data)[i]
  {
    NewFileKeys(data, r, added, i);
    assert forall j :: 0 <= j < |added| ==> added[j] in added;
  }

  lemma SaidIsClean(text: string, key: string, value: string)
    requires Says(Split(text), key, value)
    ensures '=' !in key && OneLine(key) && OneLine(value)
  {
    var lines := Split(text);
    SplitGivesLines(text);
    var i :| 0 <= i < |lines| && Sets(lines[i], key);
    KeysHaveNoEquals(lines[i]);
    var line := Assignment(key, value);
    assert lines[i] == line && line[|key| + 1..] == value;
  }

  /** The code checks the values of keys it finds, not of keys it appends. So the replacement
      succeeds in setting every key exactly if what it appends keeps to one line each. */
  lemma SetsEveryKeyIffCleanlyAdded(data: string, r: Replacements, added: seq<string>)
    requires !Refused(LinesOf(data), r) && IsMissing(added, LinesOf(data), r)
    ensures CleanlyAdded(added, r) <==> forall key :: key in r ==> Says(LinesOf(NewFile(data, r, added)), key, r[key])
  {
    var file := NewFile(data, r, added);
    if CleanlyAdded(added, r) {
      ReplacementHolds(data, r, added);
    }
    if forall key :: key in r ==> Says(LinesOf(file), key, r[key]) {
      forall key | key in added
        ensures '=' !in key && OneLine(key) && OneLine(r[key])
      {
        SaidIsClean(TrimLineFeed(file), key, r[key]);
      }
    }
  }
}
