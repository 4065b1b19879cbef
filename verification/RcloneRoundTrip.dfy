/** Printing an accepted configuration and parsing it again. */
module RcloneRoundTrip {
  import opened Basics
  import opened SortedNames
  import opened Lines
  import opened RcloneText
  import opened RcloneSpec

  // ----- lines -----

  lemma {:induction false} UnlinesConcat(a: seq<string>, b: seq<string>)
    ensures Unlines(a + b) == Unlines(a) + Unlines(b)
  {
    if a == [] {
      assert a + b == b;
    } else {
      assert (a + b)[1..] == a[1..] + b;
      UnlinesConcat(a[1..], b);
    }
  }

  lemma SplitLine(line: string, rest: string)
    requires NoNewline(line)
    ensures Split(line + "\n" + rest) == [line] + Split(rest)
  {
    var s := line + "\n" + rest;
    NewlineAt(s, |line|);
    assert s[..|line|] == line && s[|line| + 1..] == rest;
  }

  lemma {:induction false} NewlineAt(s: string, i: nat)
    requires i < |s| && s[i] == '\n' && forall j :: 0 <= j < i ==> s[j] != '\n'
    ensures Newline(s) == i
  {
    var k := Newline(s);
    assert forall j :: 0 <= j < k ==> s[j] == s[..k][j];
  }

  lemma SplitEmpty()
    ensures Split("") == [""]
  {
  }

  lemma {:induction false} SplitUnlines(lines: seq<string>)
    requires forall i :: 0 <= i < |lines| ==> NoNewline(lines[i])
    ensures Split(Unlines(lines)) == lines + [""]
  {
    hide Split, NoNewline;
    if lines == [] {
      SplitEmpty();
    } else {
      SplitUnlines(lines[1..]);
      SplitLine(lines[0], Unlines(lines[1..]));
      assert lines + [""] == [lines[0]] + (lines[1..] + [""]);
    }
  }

  lemma {:induction false} ReadConcat(r: Reading, a: seq<string>, b: seq<string>)
    requires ReadLines(r, a).Some?
    ensures ReadLines(r, a + b) == ReadLines(ReadLines(r, a).value, b)
  {
    if b == [] {
      assert a + b == a;
    } else {
      assert (a + b)[..|a + b| - 1] == a + b[..|b| - 1];
      ReadConcat(r, a, b[..|b| - 1]);
    }
  }

  lemma ReadOne(r: Reading, line: string)
    ensures ReadLines(r, [line]) == ReadLine(r, line)
  {
    assert [line][..0] == [];
    assert ReadLines(r, []) == Some(r);
  }

  // ----- the kinds of printed lines -----

  predicate KeyOk(k: string) {
    k != "" && forall i :: 0 <= i < |k| ==> 'a' <= k[i] <= 'z' || '0' <= k[i] <= '9' || k[i] == '_'
  }

  lemma TrimFixed(s: string)
    requires Trimmed(s)
    ensures Trim(s) == s
  {
  }

  lemma PrintableHasNoNewline(s: string)
    requires Printable(s)
    ensures NoNewline(s)
  {
    assert IsControl('\n');
  }

  lemma PlainChar(c: char)
    requires Word(c) || c == '[' || c == ']' || c == '='
    ensures !IsControl(c) && !IsSpace(c)
  {
  }

  lemma SpaceChar()
    ensures IsSpace(' ') && !IsControl(' ')
  {
  }

  lemma HeadingText(name: string)
    requires RemoteName(name)
    ensures var t := "[" + name + "]"; Trim(t) == t && Printable(t) && !Ignored(t) && Heading(t) && t[1..|t| - 1] == name
  {
    hide IsControl, IsSpace, Trim;
    var t := "[" + name + "]";
    forall i | 0 <= i < |t| ensures !IsControl(t[i]) && !IsSpace(t[i]) { PlainChar(t[i]); }
    TrimFixed(t);
    assert t[1..|t| - 1] == name;
  }

  lemma ReadHeading(r: Reading, name: string)
    requires RemoteName(name) && name !in r.sections && |r.sections| != 2
    ensures ReadLine(r, "[" + name + "]") == Some(Reading(r.sections[name := map[]], Some(name)))
    ensures Printable("[" + name + "]")
  {
    HeadingText(name);
    hide RemoteName, Trim, Printable, Ignored, Heading, Index;
  }

  lemma KeyChar(key: string, i: nat)
    requires KeyOk(key) && i < |key|
    ensures !IsControl(key[i]) && !IsSpace(key[i]) && key[i] !in {'#', ';', '[', '='}
  {
    PlainChar(key[i]);
  }

  lemma KeyLineText(key: string, value: string)
    requires KeyOk(key) && Clean(value) && value != ""
    ensures var t := KeyLine(key, value); Trim(t) == t && Printable(t) && !Ignored(t) && !Heading(t)
  {
    assert key != "";
    hide IsControl, IsSpace, Trim, KeyOk;
    var t := KeyLine(key, value);
    KeyChar(key, 0);
    assert t[0] == key[0] && t[|t| - 1] == value[|value| - 1];
    SpaceChar();
    PlainChar('=');
    forall i | 0 <= i < |t| ensures !IsControl(t[i]) {
      if i < |key| {
        KeyChar(key, i);
      } else if i < |key| + 3 {
        assert t[i] == " = "[i - |key|];
      } else {
        assert t[i] == value[i - |key| - 3];
      }
    }
    TrimFixed(t);
  }

  lemma KeyLineCut(key: string, value: string)
    requires KeyOk(key) && Clean(value) && value != ""
    ensures var t := KeyLine(key, value); var i := Index(t, '=');
            i < |t| && Trim(t[..i]) == key && Trim(t[i + 1..]) == value
  {
    var t := KeyLine(key, value);
    var i := |key| + 1;
    assert t[..i] == key + " " && t[i] == '=' && t[i + 1..] == " " + value;
    forall j | 0 <= j < i ensures t[j] != '=' { assert t[j] == (key + " ")[j]; }
    IndexAt(t, '=', i);
    assert !IsSpace(key[0]) && !IsSpace(key[|key| - 1]);
    TrimSpaceAfter(key);
    TrimSpaceBefore(value);
  }

  lemma ReadKey(r: Reading, name: string, key: string, value: string)
    requires r.current == Some(name) && name in r.sections && key !in r.sections[name]
    requires KeyOk(key) && Clean(value) && value != ""
    ensures ReadLine(r, KeyLine(key, value)) == Some(r.(sections := r.sections[name := r.sections[name][key := value]]))
  {
    hide KeyOk, Clean, Index, Trim, KeyLine, Printable, Ignored, Heading, RemoteName;
    KeyLineText(key, value);
    KeyLineCut(key, value);
  }

  lemma ReadBlank(r: Reading)
    ensures ReadLine(r, "") == Some(r)
  {
    TrimFixed("");
  }

  // ----- sections -----

  predicate SectionOk(s: Section) {
    forall k :: k in s ==> KeyOk(k) && Clean(s[k])
  }

  /** The entries of s under the first n keys. */
  function Under(s: Section, keys: seq<string>, n: nat): Section
    requires n <= |keys|
  {
    map k | k in s && k in keys[..n] :: s[k]
  }

  lemma {:induction false} ReadKeys(r: Reading, name: string, s: Section, keys: seq<string>, n: nat)
    requires SectionOk(s) && Ascending(keys) && Elements(keys) == Printed(s) && n <= |keys|
    requires r.current == Some(name) && name in r.sections && r.sections[name] == map[]
    ensures ReadLines(r, KeyLines(s, keys, n)) == Some(r.(sections := r.sections[name := Under(s, keys, n)]))
  {
    hide KeyOk, Clean, KeyLine, ReadLine, Ascending, SectionOk, Elements, Printed;
    if n == 0 {
      assert Under(s, keys, 0) == map[];
      assert r.sections[name := map[]] == r.sections;
    } else {
      hide ReadLines;
      var key := keys[n - 1];
      ReadKeys(r, name, s, keys, n - 1);
      KeyAt(s, keys, n - 1);
      var before := r.(sections := r.sections[name := Under(s, keys, n - 1)]);
      assert before.sections[name] == Under(s, keys, n - 1);
      ReadKey(before, name, key, s[key]);
      ReadOne(before, KeyLine(key, s[key]));
      ReadConcat(r, KeyLines(s, keys, n - 1), [KeyLine(key, s[key])]);
      NextUnder(s, keys, n);
      hide Under;
      assert before.sections[name := Under(s, keys, n)] == r.sections[name := Under(s, keys, n)];
    }
  }

  lemma {:induction false} KeyLinesPrintable(s: Section, keys: seq<string>, n: nat)
    requires SectionOk(s) && Ascending(keys) && Elements(keys) == Printed(s) && n <= |keys|
    ensures forall i :: 0 <= i < |KeyLines(s, keys, n)| ==> Printable(KeyLines(s, keys, n)[i])
  {
    hide KeyOk, Clean, KeyLine, Ascending, SectionOk, Elements, Printed, Printable;
    if n > 0 {
      KeyLinesPrintable(s, keys, n - 1);
      KeyAt(s, keys, n - 1);
      KeyLineText(keys[n - 1], s[keys[n - 1]]);
    }
  }

  lemma NextUnder(s: Section, keys: seq<string>, n: nat)
    requires 0 < n <= |keys| && keys[n - 1] in s
    ensures Under(s, keys, n) == Under(s, keys, n - 1)[keys[n - 1] := s[keys[n - 1]]]
  {
    assert keys[..n] == keys[..n - 1] + [keys[n - 1]];
  }

  lemma KeyAt(s: Section, keys: seq<string>, i: nat)
    requires SectionOk(s) && Ascending(keys) && Elements(keys) == Printed(s) && i < |keys|
    ensures keys[i] in s && s[keys[i]] != "" && KeyOk(keys[i]) && Clean(s[keys[i]]) && keys[i] !in keys[..i]
    ensures keys[..i + 1] == keys[..i] + [keys[i]]
  {
    assert keys[i] in Elements(keys);
    forall j | 0 <= j < i ensures keys[j] != keys[i] { BelowIrreflexive(keys[i]); }
  }

  lemma ReadSection(r: Reading, name: string, s: Section)
    requires SectionOk(s) && RemoteName(name) && name !in r.sections && |r.sections| != 2
    ensures ReadLines(r, SectionLines(name, s)) == Some(Reading(r.sections[name := Filled(s)], Some(name)))
    ensures forall i :: 0 <= i < |SectionLines(name, s)| ==> Printable(SectionLines(name, s)[i])
  {
    hide ReadLine, ReadLines, KeyLines, SectionOk, RemoteName, Printable, Under, Filled;
    var keys := Ordered(Printed(s));
    var started, closed := Reading(r.sections[name := map[]], Some(name)), Reading(r.sections[name := Filled(s)], Some(name));
    var head, body := ["[" + name + "]"], KeyLines(s, keys, |keys|);
    ReadHeading(r, name);
    ReadOne(r, "[" + name + "]");
    ReadConcat(r, head, body);
    ReadKeys(started, name, s, keys, |keys|);
    KeyLinesPrintable(s, keys, |keys|);
    UnderAll(s, keys);
    assert started.sections[name := Filled(s)] == closed.sections;
    ReadBlank(closed);
    ReadOne(closed, "");
    ReadConcat(r, head + body, [""]);
    EmptyPrintable();
    assert SectionLines(name, s) == head + body + [""];
  }

  lemma EmptyPrintable()
    ensures Printable("")
  {
  }

  lemma UnderAll(s: Section, keys: seq<string>)
    requires Elements(keys) == Printed(s)
    ensures Under(s, keys, |keys|) == Filled(s)
  {
    assert keys[..|keys|] == keys;
    assert forall k :: k in keys <==> k in Elements(keys);
  }

  // ----- whole configurations -----

  predicate Wf(sections: map<string, Section>) {
    |sections| == 2 && forall n :: n in sections ==> RemoteName(n) && SectionOk(sections[n])
  }

  lemma {:induction false} AscendingSize(names: seq<string>)
    requires Ascending(names)
    ensures |Elements(names)| == |names|
  {
    if names != [] {
      AscendingSize(names[1..]);
      TailElements(names);
      assert names[0] in Elements(names);
    }
  }

  /** What is read from the printed sections is exactly what was printed, without empty values. */
  lemma ReadAll(sections: map<string, Section>, names: seq<string>)
    requires Wf(sections) && Ascending(names) && Elements(names) == sections.Keys
    ensures |names| == 2
    ensures var r := ReadLines(Reading(map[], None), AllLines(sections, names, 2));
            r.Some? && r.value.sections == map n | n in sections :: Filled(sections[n])
    ensures forall i :: 0 <= i < |AllLines(sections, names, 2)| ==> Printable(AllLines(sections, names, 2)[i])
  {
    AscendingSize(names);
    assert |sections| == |sections.Keys|;
    var a, b := names[0], names[1];
    assert a in Elements(names) && b in Elements(names);
    assert a != b by { BelowIrreflexive(a); }
    assert forall x :: x in sections ==> x == a || x == b by {
      forall x | x in sections ensures x == a || x == b { assert x in Elements(names); }
    }
    TwoSections(sections, names);
  }

  lemma TwoSections(sections: map<string, Section>, names: seq<string>)
    requires |names| == 2 && names[0] != names[1] && sections.Keys == {names[0], names[1]}
    requires forall n :: n in sections ==> RemoteName(n) && SectionOk(sections[n])
    ensures var r := ReadLines(Reading(map[], None), AllLines(sections, names, 2));
            r.Some? && r.value.sections == map n | n in sections :: Filled(sections[n])
    ensures forall i :: 0 <= i < |AllLines(sections, names, 2)| ==> Printable(AllLines(sections, names, 2)[i])
  {
    hide RemoteName, SectionOk, SectionLines, Filled, Printable, ReadLine, ReadLines;
    var a, b := names[0], names[1];
    var start := Reading(map[], None);
    ReadSection(start, a, sections[a]);
    var one := Reading(map[a := Filled(sections[a])], Some(a));
    assert start.sections[a := Filled(sections[a])] == one.sections;
    assert |one.sections| == 1 by { assert one.sections.Keys == {a}; }
    ReadSection(one, b, sections[b]);
    assert AllLines(sections, names, 1) == SectionLines(a, sections[a]) by {
      assert AllLines(sections, names, 0) == [];
      assert [] + SectionLines(a, sections[a]) == SectionLines(a, sections[a]);
    }
    assert AllLines(sections, names, 2) == SectionLines(a, sections[a]) + SectionLines(b, sections[b]);
    ReadConcat(start, SectionLines(a, sections[a]), SectionLines(b, sections[b]));
    assert one.sections[b := Filled(sections[b])] == map n | n in sections :: Filled(sections[n]);
  }

  lemma ReadPrinted(c: Config)
    requires Wf(c.sections)
    ensures var r := ReadLines(Reading(map[], None), Split(Print(c)));
            r.Some? && r.value.sections == FilledConfig(c).sections
  {
    var names := Ordered(c.sections.Keys);
    ReadAll(c.sections, names);
    var lines := AllLines(c.sections, names, |names|);
    forall i | 0 <= i < |lines| ensures NoNewline(lines[i]) { PrintableHasNoNewline(lines[i]); }
    SplitUnlines(lines);
    var start := Reading(map[], None);
    ReadConcat(start, lines, [""]);
    ReadBlank(ReadLines(start, lines).value);
    ReadOne(ReadLines(start, lines).value, "");
  }

  // ----- accepted configurations -----

  lemma GetFilled(s: Section, k: string)
    ensures Get(Filled(s), k) == Get(s, k) && (k in Filled(s) ==> k in s)
  {
  }

  lemma PrintFilled(c: Config)
    ensures Print(FilledConfig(c)) == Print(c)
  {
    var names := Ordered(c.sections.Keys);
    assert FilledConfig(c).sections.Keys == c.sections.Keys;
    LinesFilled(c, names, |names|);
  }

  lemma {:induction false} LinesFilled(c: Config, names: seq<string>, n: nat)
    requires n <= |names| && Elements(names) == c.sections.Keys
    ensures AllLines(FilledConfig(c).sections, names, n) == AllLines(c.sections, names, n)
  {
    hide SectionLines, Filled;
    if n > 0 {
      LinesFilled(c, names, n - 1);
      assert names[n - 1] in Elements(names);
      SectionFilled(names[n - 1], c.sections[names[n - 1]]);
    }
  }

  lemma SectionFilled(name: string, s: Section)
    ensures SectionLines(name, Filled(s)) == SectionLines(name, s)
  {
    assert Printed(Filled(s)) == Printed(s);
    KeysFilled(s, Ordered(Printed(s)), |Ordered(Printed(s))|);
  }

  lemma {:induction false} KeysFilled(s: Section, keys: seq<string>, n: nat)
    requires n <= |keys|
    ensures KeyLines(Filled(s), keys, n) == KeyLines(s, keys, n)
  {
    if n > 0 {
      KeysFilled(s, keys, n - 1);
      GetFilled(s, keys[n - 1]);
    }
  }
}
