/** "Same except token" and "same target" as relations, and the operations of a configuration. */
module RcloneRelations {
  import opened RcloneSpec

  /** Two sections read the same under every key, but for the token of an OAuth backend. */
  ghost predicate Agrees(s: Section, t: Section) {
    forall key :: Get(s, key) == Get(t, key) || (key == "token" && OAuth(s))
  }

  lemma SameSectionIff(s: Section, t: Section)
    ensures SameSection(s, t, false) <==> Agrees(s, t)
  {
    if SameSection(s, t, false) {
      forall key ensures Get(s, key) == Get(t, key) || (key == "token" && OAuth(s)) {
        if key in s.Keys + t.Keys { assert SameKey(s, t, key, false); }
      }
    }
    if Agrees(s, t) {
      forall key | key in s.Keys + t.Keys ensures SameKey(s, t, key, false) { }
    }
  }

  lemma SameNames(c: Config, d: Config, replace: bool)
    requires SameConfig(c, d, replace)
    ensures c.sections.Keys == d.sections.Keys
  {
    hide SameSection;
    var a, b := c.sections.Keys, d.sections.Keys;
    assert |c.sections| == |a| && |d.sections| == |b|;
    assert a <= b;
    assert b == a + (b - a) && |b| == |a| + |b - a|;
  }

  /** The exact meaning of the token relation. */
  lemma {:induction false} ExceptTokenIff(c: Config, d: Config)
    ensures SameExceptToken(c, d) <==>
            c.remote == d.remote && c.sections.Keys == d.sections.Keys &&
            forall n :: n in c.sections && n in d.sections ==> Agrees(c.sections[n], d.sections[n])
  {
    hide Agrees, SameSection;
    if SameExceptToken(c, d) {
      SameNames(c, d, false);
      forall n | n in c.sections && n in d.sections ensures Agrees(c.sections[n], d.sections[n]) { SameSectionIff(c.sections[n], d.sections[n]); }
    } else if c.remote == d.remote && c.sections.Keys == d.sections.Keys {
      assert |c.sections| == |c.sections.Keys| && |d.sections| == |d.sections.Keys|;
      var n :| n in c.sections && !SameSection(c.sections[n], d.sections[n], false);
      SameSectionIff(c.sections[n], d.sections[n]);
    }
  }

  /** "Same except token" is an equivalence. */
  lemma {:induction false} ExceptTokenEquivalence(a: Config, b: Config, c: Config)
    ensures SameExceptToken(a, a)
    ensures SameExceptToken(a, b) ==> SameExceptToken(b, a)
    ensures SameExceptToken(a, b) && SameExceptToken(b, c) ==> SameExceptToken(a, c)
  {
    ExceptTokenIff(a, a);
    ExceptTokenIff(a, b);
    ExceptTokenIff(b, a);
    ExceptTokenIff(b, c);
    ExceptTokenIff(a, c);
    hide SameExceptToken;
    if SameExceptToken(a, b) {
      forall n | n in a.sections && n in b.sections ensures Agrees(b.sections[n], a.sections[n]) {
        assert Get(a.sections[n], "type") == Get(b.sections[n], "type");
      }
      if SameExceptToken(b, c) {
        forall n | n in a.sections && n in c.sections ensures Agrees(a.sections[n], c.sections[n]) {
          assert Get(a.sections[n], "type") == Get(b.sections[n], "type");
          assert Agrees(b.sections[n], c.sections[n]);
        }
      }
    }
  }

  /** A refreshed token never relocates the target. */
  lemma {:induction false} ExceptTokenWithinTarget(c: Config, d: Config)
    requires SameExceptToken(c, d)
    ensures SameTarget(c, d)
  {
    forall n | n in c.sections ensures n in d.sections && SameSection(c.sections[n], d.sections[n], true) {
      assert SameSection(c.sections[n], d.sections[n], false);
      forall key | key in c.sections[n].Keys + d.sections[n].Keys ensures SameKey(c.sections[n], d.sections[n], key, true) {
        assert SameKey(c.sections[n], d.sections[n], key, false);
      }
    }
  }
}

module RcloneConfig {
  import opened Basics
  import opened SortedNames
  import opened Lines
  import opened StreamSinks
  import opened RcloneText
  import opened RcloneSpec
  import opened RcloneRoundTrip

  lemma {:induction false} ReadCons(r: Reading, line: string, rest: seq<string>)
    ensures ReadLines(r, [line] + rest) ==
            if ReadLine(r, line).None? then None else ReadLines(ReadLine(r, line).value, rest)
  {
    hide ReadLine;
    if rest == [] {
      assert [line] + rest == [line];
      ReadOne(r, line);
    } else {
      assert ([line] + rest)[..|rest|] == [line] + rest[..|rest| - 1];
      ReadCons(r, line, rest[..|rest| - 1]);
    }
  }

  /** Line by line: sections and keys are filled in until a line is refused. */
  method ParseConfig(v: Values, raw: string, remote: string, socket: string) returns (c: Option<Config>)
    ensures c == Parse(v, raw, remote, socket)
  {
    hide ReadLine, Accept, ByteLength;
    if raw == "" || ByteLength(raw) > MAX_CONFIG || !RemoteName(remote) { return None; }
    var r := Reading(map[], None);
    var rest := raw;
    ghost var goal := ReadLines(r, Split(raw));
    var more := true;
    while more
      invariant more ==> ReadLines(r, Split(rest)) == goal
      invariant !more ==> Some(r) == goal
      decreases more, |rest|
    {
      var index := IndexNewline(rest, 0);
      var line := if index >= 0 then rest[..index] else rest;
      if index >= 0 {
        assert rest == line + "\n" + rest[index + 1..];
        SplitLine(line, rest[index + 1..]);
        ReadCons(r, line, Split(rest[index + 1..]));
      } else {
        WholeLine(rest);
        ReadOne(r, rest);
      }
      var next := ReadLine(r, line);
      if next.None? { return None; }
      r := next.value;
      if index >= 0 { rest := rest[index + 1..]; } else { more := false; }
    }
    c := Accept(v, r.sections, remote, socket);
  }

  lemma WholeLine(s: string)
    requires NoNewline(s)
    ensures Split(s) == [s]
  {
    var i := Newline(s);
  }

  method SortedKeys(keys: set<string>) returns (r: seq<string>)
    ensures Ascending(r) && Elements(r) == keys
  {
    var rest := keys;
    r := [];
    while rest != {}
      invariant rest <= keys && Ascending(r) && Elements(r) == keys - rest
      decreases |rest|
    {
      var k :| k in rest;
      assert k in r ==> k in Elements(r);
      InsertAscending(k, r);
      r := Insert(k, r);
      rest := rest - {k};
    }
  }

  method SectionText(name: string, s: Section) returns (out: string)
    ensures out == Unlines(SectionLines(name, s))
  {
    var keys := SortedKeys(Printed(s));
    AscendingUnique(keys, Ordered(Printed(s)));
    ghost var done := ["[" + name + "]"];
    out := "[" + name + "]" + "\n";
    OneLine("[" + name + "]");
    var i := 0;
    while i < |keys|
      invariant i <= |keys|
      invariant done == ["[" + name + "]"] + KeyLines(s, keys, i) && out == Unlines(done)
    {
      var line := KeyLine(keys[i], Get(s, keys[i]));
      OneLine(line);
      UnlinesConcat(done, [line]);
      out := out + line + "\n";
      done := done + [line];
      i := i + 1;
    }
    OneLine("");
    UnlinesConcat(done, [""]);
    out := out + "\n";
    assert SectionLines(name, s) == done + [""];
  }

  lemma OneLine(line: string)
    ensures Unlines([line]) == line + "\n"
  {
    assert [line][1..] == [];
  }

  /** Sections and keys in string order, empty values left out. */
  method Bytes(c: Config) returns (out: string)
    ensures out == Print(c)
  {
    hide SectionLines;
    var names := SortedKeys(c.sections.Keys);
    AscendingUnique(names, Ordered(c.sections.Keys));
    out := "";
    var i := 0;
    while i < |names|
      invariant i <= |names| && out == Unlines(AllLines(c.sections, names, i))
    {
      assert names[i] in Elements(names);
      var text := SectionText(names[i], c.sections[names[i]]);
      UnlinesConcat(AllLines(c.sections, names, i), SectionLines(names[i], c.sections[names[i]]));
      out := out + text;
      i := i + 1;
    }
  }

  /** The socket is there only while the runtime form is printed. */
  method RuntimeBytes(c: Config, socket: string) returns (out: string)
    ensures out == Print(WithSocket(c, socket))
  {
    out := Bytes(WithSocket(c, socket));
  }

  /** One direction of a section's comparison. */
  method SameFields(fields: Section, a: Section, b: Section, replace: bool) returns (same: bool)
    ensures same <==> forall key :: key in a ==>
              Exempt(fields, key, replace) ||
              (if PresenceOnly(fields, key, replace) then (Get(a, key) == "") == (Get(b, key) == "") else Get(a, key) == Get(b, key))
  {
    var rest := a.Keys;
    while rest != {}
      invariant rest <= a.Keys
      invariant forall key :: key in a && key !in rest ==>
                  Exempt(fields, key, replace) ||
                  (if PresenceOnly(fields, key, replace) then (Get(a, key) == "") == (Get(b, key) == "") else Get(a, key) == Get(b, key))
      decreases |rest|
    {
      var key :| key in rest;
      rest := rest - {key};
      if Exempt(fields, key, replace) { continue; }
      if PresenceOnly(fields, key, replace) {
        if (a[key] == "") != (Get(b, key) == "") { return false; }
        continue;
      }
      if Get(b, key) != a[key] { return false; }
    }
    return true;
  }

  method Same(c: Config, d: Config, replace: bool) returns (same: bool)
    ensures same == SameConfig(c, d, replace)
  {
    if c.remote != d.remote || |c.sections| != |d.sections| { return false; }
    var rest := c.sections.Keys;
    while rest != {}
      invariant rest <= c.sections.Keys
      invariant forall n :: n in c.sections && n !in rest ==> n in d.sections && SameSection(c.sections[n], d.sections[n], replace)
      decreases |rest|
    {
      var n :| n in rest;
      if n !in d.sections { return false; }
      var s, t := c.sections[n], d.sections[n];
      var forth := SameFields(s, s, t, replace);
      var back := SameFields(s, t, s, replace);
      BothWays(s, t, replace);
      if !forth || !back { return false; }
      rest := rest - {n};
    }
    return true;
  }

  lemma BothWays(s: Section, t: Section, replace: bool)
    ensures SameSection(s, t, replace) <==>
            (forall key :: key in s ==> SameKey(s, t, key, replace)) && (forall key :: key in t ==> SameKey(s, t, key, replace))
  {
  }
}
