/**
 * Turning the text `upsc <device>` prints into an attribute map
 * (`upsc_ups`, lib/riemann/tools/nut.rb:47-61): split into lines, drop the
 * line terminator, keep the lines of the form `key: value`, strip and
 * normalise the value, and let a later line for a key overwrite an earlier one.
 */
module Upsc {
  import opened Wrappers
  import opened Values

  /** The concatenation of a sequence of strings. */
  function Flatten(ls: seq<string>): string
  {
    if ls == [] then [] else Flatten(ls[..|ls| - 1]) + ls[|ls| - 1]
  }

  lemma FlattenCons(l: string, ls: seq<string>)
    ensures Flatten([l] + ls) == l + Flatten(ls)
    decreases |ls|
  {
    if ls != [] {
      assert ([l] + ls)[..|ls|] == [l] + ls[..|ls| - 1];
      FlattenCons(l, ls[..|ls| - 1]);
    }
  }

  /** The position just past the first newline of `s`, or |s| when there is none. */
  function LineEnd(s: string): (i: nat)
    ensures 0 < i <= |s| || (s == [] && i == 0)
    ensures i == 0 || '\n' !in s[..i - 1]
    ensures i < |s| ==> s[i - 1] == '\n'
    ensures i == |s| && s != [] ==> '\n' !in s[..i - 1]
    decreases |s|
  {
    if s == [] then 0
    else if s[0] == '\n' then 1
    else 1 + LineEnd(s[1..])
  }

  /**
   * `String#lines`: the text cut after every newline. Each line is non-empty,
   * only its last character can be a newline, every line but the last ends in
   * one, and together they are the text.
   */
  function Lines(s: string): (ls: seq<string>)
    ensures Flatten(ls) == s
    ensures forall j :: 0 <= j < |ls| ==> ls[j] != [] && '\n' !in ls[j][..|ls[j]| - 1]
    ensures forall j :: 0 <= j < |ls| - 1 ==> ls[j][|ls[j]| - 1] == '\n'
    decreases |s|
  {
    if s == [] then []
    else
      var i := LineEnd(s);
      var rest := Lines(s[i..]);
      FlattenCons(s[..i], rest);
      assert s == s[..i] + s[i..];
      [s[..i]] + rest
  }

  /** `String#chomp`: drop one trailing "\r\n", "\n" or "\r". */
  function Chomp(s: string): (r: string)
    ensures |r| <= |s| && r == s[..|r|]
    ensures s[|r|..] == "" || s[|r|..] == "\n" || s[|r|..] == "\r" || s[|r|..] == "\r\n"
    ensures r == s <==> s == [] || (s[|s| - 1] != '\n' && s[|s| - 1] != '\r')
    ensures |s| >= 2 && s[|s| - 2..] == "\r\n" ==> r == s[..|s| - 2]
  {
    if |s| >= 2 && s[|s| - 2..] == "\r\n" then s[..|s| - 2]
    else if |s| >= 1 && (s[|s| - 1] == '\n' || s[|s| - 1] == '\r') then
      assert s[|s| - 1..] == [s[|s| - 1]];
      s[..|s| - 1]
    else s
  }

  /** A chomped line of `String#lines` has no newline left in it. */
  lemma ChompedLineHasNoNewline(line: string)
    requires line != [] && '\n' !in line[..|line| - 1]
    ensures '\n' !in Chomp(line)
  {
    var r := Chomp(line);
    if |r| == |line| {
      assert r == line;
      assert line[|line| - 1] != '\n';
    }
    forall j | 0 <= j < |r| ensures r[j] != '\n' {
      if j < |line| - 1 {
        assert r[j] == line[..|line| - 1][j];
      }
    }
  }

  /** The characters `String#strip` removes. */
  predicate IsSpace(c: char)
  {
    c == ' ' || c == '\t' || c == '\n' || c == '\U{000B}' || c == '\U{000C}' || c == '\r' || c == '\0'
  }

  predicate AllSpace(s: string)
  {
    forall j :: 0 <= j < |s| ==> IsSpace(s[j])
  }

  /** The number of leading whitespace characters. */
  function LeadingSpace(s: string): (i: nat)
    ensures i <= |s| && AllSpace(s[..i])
    ensures i < |s| ==> !IsSpace(s[i])
    decreases |s|
  {
    if s == [] || !IsSpace(s[0]) then 0
    else
      var i := 1 + LeadingSpace(s[1..]);
      assert s[..i] == [s[0]] + s[1..][..i - 1];
      i
  }

  /** The length of `s` without its trailing whitespace. */
  function TrailingStart(s: string): (i: nat)
    ensures i <= |s| && AllSpace(s[i..])
    ensures i > 0 ==> !IsSpace(s[i - 1])
    decreases |s|
  {
    if s == [] || !IsSpace(s[|s| - 1]) then |s|
    else
      var i := TrailingStart(s[..|s| - 1]);
      assert s[i..] == s[..|s| - 1][i..] + [s[|s| - 1]];
      i
  }

  /**
   * `String#strip`: the middle of `s` left after removing leading and
   * trailing whitespace; what is removed is all whitespace and what is left
   * neither starts nor ends with any.
   */
  function Strip(s: string): (r: string)
    ensures r == [] || (!IsSpace(r[0]) && !IsSpace(r[|r| - 1]))
    ensures exists i :: 0 <= i <= |s| - |r| && r == s[i..i + |r|] && AllSpace(s[..i]) && AllSpace(s[i + |r|..])
  {
    var j := TrailingStart(s);
    var t := s[..j];
    var i := LeadingSpace(t);
    var r := t[i..];
    assert r == s[i..i + |r|];
    assert s[..i] == t[..i];
    assert s[i + |r|..] == s[j..];
    assert r != [] ==> r[|r| - 1] == s[j - 1];
    r
  }

  /** The regular expression `\A([^:]+): (.*)\z` matches `line` with groups `key` and `raw`. */
  ghost predicate Matches(line: string, key: string, raw: string)
  {
    line == key + ": " + raw && |key| > 0 && ':' !in key && '\n' !in raw
  }

  /** The two groups of a matched line. */
  datatype Groups = Groups(key: string, raw: string)

  /** The position of the first colon of `s`, or |s| when there is none. */
  function FirstColon(s: string): (i: nat)
    ensures i <= |s| && ':' !in s[..i]
    ensures i < |s| ==> s[i] == ':'
    decreases |s|
  {
    if s == [] || s[0] == ':' then 0
    else
      var i := 1 + FirstColon(s[1..]);
      assert s[..i] == [s[0]] + s[1..][..i - 1];
      i
  }

  /**
   * Matching `\A([^:]+): (.*)\z`. The key has no colon, so it can only
   * end at the first colon of the line; a match gives the groups of the line.
   */
  function MatchLine(line: string): (r: Option<Groups>)
    ensures r.Some? ==> Matches(line, r.value.key, r.value.raw)
  {
    var i := FirstColon(line);
    if 0 < i && i + 1 < |line| && line[i + 1] == ' ' && '\n' !in line[i + 2..] then
      assert line == line[..i] + ": " + line[i + 2..];
      Some(Groups(line[..i], line[i + 2..]))
    else None
  }

  /** Every way the expression can match is the one MatchLine finds. */
  lemma MatchLineComplete(line: string, key: string, raw: string)
    requires Matches(line, key, raw)
    ensures MatchLine(line) == Some(Groups(key, raw))
  {
    var i := FirstColon(line);
    assert line[|key|] == ':';
    assert forall m :: 0 <= m < |key| ==> line[m] == key[m];
    assert forall m :: 0 <= m < i ==> line[..i][m] == line[m];
    assert i == |key|;
    assert line[..i] == key;
    assert line[i + 2..] == raw;
  }

  /** What one line of output adds: its key and its stripped, normalised value. */
  function ParseLine(k: Kernel, line: string): Option<(string, Value)>
  {
    match MatchLine(Chomp(line))
    case None => None
    case Some(g) => Some((g.key, Normalize(k, Strip(g.raw))))
  }

  /**
   * A line adds an entry exactly when its chomped text matches the
   * expression, and the entry is the key with the normalised, stripped rest.
   */
  lemma ParseLineMatches(k: Kernel, line: string, key: string, raw: string)
    ensures Matches(Chomp(line), key, raw) ==> ParseLine(k, line) == Some((key, Normalize(k, Strip(raw))))
  {
    if Matches(Chomp(line), key, raw) {
      MatchLineComplete(Chomp(line), key, raw);
    }
  }

  lemma ParseLineSkips(k: Kernel, line: string)
    ensures ParseLine(k, line).Some? ==> exists raw :: Matches(Chomp(line), ParseLine(k, line).value.0, raw)
  {
  }

  /** An entry of the parsed lines that sets `key`. */
  predicate Sets(e: Option<(string, Value)>, key: string)
  {
    e.Some? && e.value.0 == key
  }

  /** The map a sequence of parsed lines builds: each entry sets its key in turn. */
  function Collect(es: seq<Option<(string, Value)>>): map<string, Value>
  {
    if es == [] then map[]
    else
      var m := Collect(es[..|es| - 1]);
      match es[|es| - 1]
      case None => m
      case Some(entry) => m[entry.0 := entry.1]
  }

  /** Collecting one more entry sets its key, if it has one. */
  lemma CollectSnoc(es: seq<Option<(string, Value)>>, i: nat)
    requires i < |es|
    ensures es[i].None? ==> Collect(es[..i + 1]) == Collect(es[..i])
    ensures es[i].Some? ==> Collect(es[..i + 1]) == Collect(es[..i])[es[i].value.0 := es[i].value.1]
  {
    assert es[..i + 1][..i] == es[..i];
  }

  /** A key is in the map exactly when some entry sets it. */
  lemma {:induction false} CollectKeys(es: seq<Option<(string, Value)>>, key: string)
    ensures key in Collect(es) <==> exists j :: 0 <= j < |es| && Sets(es[j], key)
    decreases |es|
  {
    if es != [] {
      var init := es[..|es| - 1];
      CollectKeys(init, key);
      if key in Collect(init) {
        var j :| 0 <= j < |init| && Sets(init[j], key);
        assert es[j] == init[j];
      }
      if exists j :: 0 <= j < |es| && Sets(es[j], key) {
        var j :| 0 <= j < |es| && Sets(es[j], key);
        if j < |init| {
          assert init[j] == es[j];
        }
      }
    }
  }

  /** The value of a key is the one of the last entry that sets it. */
  lemma {:induction false} CollectLastWins(es: seq<Option<(string, Value)>>, j: nat)
    requires j < |es| && es[j].Some?
    requires forall j' :: j < j' < |es| ==> !Sets(es[j'], es[j].value.0)
    ensures es[j].value.0 in Collect(es) && Collect(es)[es[j].value.0] == es[j].value.1
    decreases |es|
  {
    if j < |es| - 1 {
      var init := es[..|es| - 1];
      assert init[j] == es[j];
      forall j' | j < j' < |init| ensures !Sets(init[j'], init[j].value.0) {
        assert init[j'] == es[j'];
      }
      CollectLastWins(init, j);
      assert !Sets(es[|es| - 1], es[j].value.0);
    }
  }

  /** Each line of output, parsed. */
  function ParsedLines(k: Kernel, ls: seq<string>): (es: seq<Option<(string, Value)>>)
    ensures |es| == |ls| && forall j :: 0 <= j < |ls| ==> es[j] == ParseLine(k, ls[j])
  {
    seq(|ls|, j requires 0 <= j < |ls| => ParseLine(k, ls[j]))
  }

  /** The attribute map of a sequence of lines. */
  function Attributes(k: Kernel, ls: seq<string>): map<string, Value>
  {
    Collect(ParsedLines(k, ls))
  }

  /** A key is in the attribute map exactly when some line sets it. */
  lemma AttributesKeys(k: Kernel, ls: seq<string>, key: string)
    ensures key in Attributes(k, ls) <==> exists j :: 0 <= j < |ls| && Sets(ParseLine(k, ls[j]), key)
  {
    var es := ParsedLines(k, ls);
    CollectKeys(es, key);
    if key in Attributes(k, ls) {
      var j :| 0 <= j < |es| && Sets(es[j], key);
      assert Sets(ParseLine(k, ls[j]), key);
    }
  }

  /** The value of a key is the one from the last line that sets it. */
  lemma AttributesLastWins(k: Kernel, ls: seq<string>, j: nat, key: string, v: Value)
    requires j < |ls| && ParseLine(k, ls[j]) == Some((key, v))
    requires forall j' :: j < j' < |ls| ==> !Sets(ParseLine(k, ls[j']), key)
    ensures key in Attributes(k, ls) && Attributes(k, ls)[key] == v
  {
    CollectLastWins(ParsedLines(k, ls), j);
  }

  /** The attribute map of the whole text `upsc` printed. */
  function ParseText(k: Kernel, output: string): map<string, Value>
  {
    Attributes(k, Lines(output))
  }

  /** `upsc_ups` after the query: the loop that fills `data` line by line. */
  method ParseOutput(k: Kernel, output: string) returns (data: map<string, Value>)
    ensures data == ParseText(k, output)
  {
    var lines := Lines(output);
    ghost var es := ParsedLines(k, lines);
    data := map[];
    for i := 0 to |lines|
      invariant data == Collect(es[..i])
    {
      CollectSnoc(es, i);
      var m := MatchLine(Chomp(lines[i]));
      if m.Some? {
        data := data[m.value.key := Normalize(k, Strip(m.value.raw))];
      }
    }
    assert es[..|lines|] == es;
  }
}
