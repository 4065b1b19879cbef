/** A configuration that is accepted, but whose printed form is refused. */
module RcloneLongUrl {
  import opened Basics
  import opened SortedNames
  import opened RcloneText
  import opened RcloneSpec
  import opened RcloneRoundTrip
  import opened RcloneAccepted

  // ----- sizes -----

  lemma {:induction false} ByteBounds(s: string)
    ensures |s| <= ByteLength(s) <= 4 * |s|
  {
    if s != "" { ByteBounds(s[..|s| - 1]); }
  }

  lemma {:induction false} AsciiBytes(s: string)
    requires forall i :: 0 <= i < |s| ==> (s[i] as int) < 0x80
    ensures ByteLength(s) == |s|
  {
    if s != "" { AsciiBytes(s[..|s| - 1]); }
  }

  lemma {:induction false} UnlinesSize(lines: seq<string>, m: nat)
    requires forall i :: 0 <= i < |lines| ==> |lines[i]| < m
    ensures |Unlines(lines)| <= m * |lines|
  {
    if lines != [] {
      UnlinesSize(lines[1..], m);
      assert m * |lines| == m + m * |lines[1..]|;
    }
  }

  /** A section with short lines. */
  predicate Small(s: Section, m: nat) {
    |s| <= 3 && forall k :: k in s ==> |k| + |s[k]| + 3 < m
  }

  lemma {:induction false} KeyLinesSize(s: Section, keys: seq<string>, n: nat, m: nat)
    requires n <= |keys| && Small(s, m) && Elements(keys) == Printed(s)
    ensures |KeyLines(s, keys, n)| == n && forall i :: 0 <= i < n ==> |KeyLines(s, keys, n)[i]| < m
  {
    if n > 0 {
      KeyLinesSize(s, keys, n - 1, m);
      assert keys[n - 1] in Elements(keys);
    }
  }

  lemma FewPrinted(s: Section)
    ensures |Printed(s)| <= |s|
  {
    assert |s| == |s.Keys| && s.Keys == Printed(s) + (s.Keys - Printed(s));
  }

  lemma SectionSize(name: string, s: Section, m: nat)
    requires Small(s, m) && |name| + 2 < m
    ensures |SectionLines(name, s)| <= 5 && forall i :: 0 <= i < |SectionLines(name, s)| ==> |SectionLines(name, s)[i]| < m
  {
    hide Ordered, KeyLines, Ascending;
    var keys := Ordered(Printed(s));
    KeyLinesSize(s, keys, |keys|, m);
    AscendingSize(keys);
    FewPrinted(s);
    hide Printed;
  }

  lemma TwoSectionsSize(sections: map<string, Section>, names: seq<string>, m: nat)
    requires |names| == 2 && names[0] in sections && names[1] in sections && |names[0]| + 2 < m && |names[1]| + 2 < m
    requires Small(sections[names[0]], m) && Small(sections[names[1]], m)
    ensures |AllLines(sections, names, 2)| <= 10
    ensures forall i :: 0 <= i < |AllLines(sections, names, 2)| ==> |AllLines(sections, names, 2)[i]| < m
  {
    hide SectionLines, Small;
    SectionSize(names[0], sections[names[0]], m);
    SectionSize(names[1], sections[names[1]], m);
    assert AllLines(sections, names, 0) == [];
    assert AllLines(sections, names, 1) == SectionLines(names[0], sections[names[0]]);
    assert AllLines(sections, names, 2) == SectionLines(names[0], sections[names[0]]) + SectionLines(names[1], sections[names[1]]);
  }

  lemma AtMostTen(m: nat, n: nat)
    requires n <= 10
    ensures m * n <= 10 * m
  {
  }

  lemma LinesBytes(lines: seq<string>, m: nat)
    requires |lines| <= 10 && forall i :: 0 <= i < |lines| ==> |lines[i]| < m
    ensures ByteLength(Unlines(lines)) <= 40 * m
  {
    hide Unlines, ByteLength;
    UnlinesSize(lines, m);
    AtMostTen(m, |lines|);
    ByteBounds(Unlines(lines));
  }

  lemma NamesOf(sections: map<string, Section>) returns (names: seq<string>)
    requires |sections| == 2
    ensures names == Ordered(sections.Keys) && |names| == 2 && names[0] in sections && names[1] in sections
  {
    names := Ordered(sections.Keys);
    AscendingSize(names);
    assert |sections| == |sections.Keys|;
    assert names[0] in Elements(names) && names[1] in Elements(names);
  }

  lemma PrintSize(c: Config, m: nat)
    requires |c.sections| == 2 && forall n :: n in c.sections ==> Small(c.sections[n], m) && |n| + 2 < m
    ensures ByteLength(Print(c)) <= 40 * m
  {
    hide Small, AllLines, Unlines, ByteLength, Ordered;
    var names := NamesOf(c.sections);
    TwoSectionsSize(c.sections, names, m);
    LinesBytes(AllLines(c.sections, names, 2), m);
  }

  // ----- the configuration -----

  const PASSWORD := "AAAAAAAAAAAAAAAAAAAAAAAA"

  /** 4096 bytes without a final slash. */
  function LongUrl(): string {
    "https://a.bc/" + seq(4083, i => 'x')
  }

  function LongCloud(): Section {
    map["type" := "webdav", "url" := LongUrl(), "bearer_token" := "t"]
  }

  function LongCrypt(): Section {
    map["type" := "crypt", "remote" := "cloud:", "password" := PASSWORD]
  }

  function LongConfig(): Config {
    Config(map["cloud" := LongCloud(), "secret" := LongCrypt()], "secret")
  }

  function StoredCloud(): Section {
    LongCloud()["vendor" := "other"]["url" := LongUrl() + "/"]
  }

  /** What is kept of it once accepted. */
  function Stored(): Config {
    Config(map["secret" := NormalCrypt(LongCrypt()), "cloud" := StoredCloud()], "secret")
  }

  lemma VisibleClean(s: string)
    requires forall i :: 0 <= i < |s| ==> 0x20 < s[i] as int < 0x7f
    ensures Clean(s)
  {
  }

  lemma LongUrlBytes()
    ensures |LongUrl()| == MAX_URL && ByteLength(LongUrl()) == MAX_URL && ByteLength(LongUrl() + "/") > MAX_URL && Clean(LongUrl())
  {
    AsciiBytes(LongUrl());
    ByteBounds(LongUrl() + "/");
    VisibleClean(LongUrl());
    hide ByteLength;
  }

  lemma ThreeKeys(a: string, x: string, b: string, y: string, c: string, z: string, m: nat)
    requires KeyOk(a) && KeyOk(b) && KeyOk(c) && Clean(x) && Clean(y) && Clean(z) && a != b && a != c && b != c
    requires |a| + |x| + 3 < m && |b| + |y| + 3 < m && |c| + |z| + 3 < m
    ensures var s := map[a := x, b := y, c := z]; SectionOk(s) && Small(s, m)
  {
    hide KeyOk, Clean;
    var s := map[a := x, b := y, c := z];
    assert s.Keys == {a, b, c} && |s| == |s.Keys|;
  }

  lemma LongCloudOk()
    ensures SectionOk(LongCloud()) && Small(LongCloud(), 4200)
  {
    LongUrlBytes();
    WebDavKeysOk();
    VisibleClean("webdav");
    VisibleClean("t");
    hide LongUrl, ByteLength, Clean, KeyOk;
    ThreeKeys("type", "webdav", "url", LongUrl(), "bearer_token", "t", 4200);
  }

  lemma LongCryptOk()
    ensures SectionOk(LongCrypt()) && Small(LongCrypt(), 4200)
  {
    CryptKeysOk();
    VisibleClean("crypt");
    VisibleClean("cloud:");
    VisibleClean(PASSWORD);
    hide Clean, KeyOk;
    ThreeKeys("type", "crypt", "remote", "cloud:", "password", PASSWORD, 4200);
  }

  lemma LongNames()
    ensures RemoteName("cloud") && RemoteName("secret") && |LongConfig().sections| == 2
  {
    hide LongCloud, LongCrypt;
    assert LongConfig().sections.Keys == {"cloud", "secret"};
    assert |LongConfig().sections| == |LongConfig().sections.Keys|;
  }

  lemma LongFilled()
    ensures FilledConfig(LongConfig()).sections == LongConfig().sections
  {
    assert |LongUrl()| > 0;
    hide LongUrl;
    assert Filled(LongCloud()) == LongCloud() && Filled(LongCrypt()) == LongCrypt();
    hide LongCloud, LongCrypt, Filled;
  }

  lemma LongWf()
    ensures Wf(LongConfig().sections) && forall n :: n in LongConfig().sections ==> Small(LongConfig().sections[n], 4200) && |n| + 2 < 4200
  {
    hide RemoteName, SectionOk, Small, LongCloud, LongCrypt;
    LongNames();
    LongCloudOk();
    LongCryptOk();
  }

  /** Reading its text gives the configuration as it was written. */
  lemma ReadLong()
    ensures var text := Print(LongConfig());
            && text != "" && ByteLength(text) <= MAX_CONFIG
            && var r := ReadLines(Reading(map[], None), Lines.Split(text));
               r.Some? && r.value.sections == LongConfig().sections
  {
    assert LongConfig().remote in LongConfig().sections by { hide LongCloud, LongCrypt; }
    hide LongConfig, Small, ReadLines, Lines.Split, Print, ByteLength, FilledConfig;
    LongWf();
    ReadPrinted(LongConfig());
    PrintSize(LongConfig(), 4200);
    NonEmptyPrint(LongConfig());
    LongFilled();
  }

  lemma LongCryptAccepted(v: Values)
    requires v.obscured(PASSWORD)
    ensures AcceptsCrypt(v, LongCrypt())
  {
    assert LongCrypt().Keys <= CRYPT_KEYS;
  }

  lemma LongAccepts(v: Values)
    requires v.obscured(PASSWORD) && v.safeRoot("") && v.url(LongUrl()) == Some(LongUrl() + "/")
    ensures Accept(v, LongConfig().sections, "secret", "") == Some(Stored())
  {
    LongNames();
    LongWebDav(v);
    LongUpstream();
    LongCryptAccepted(v);
    assert LongConfig().sections["secret"] == LongCrypt() && LongConfig().sections["cloud"] == LongCloud();
    hide LongUrl, LongCloud, LongCrypt, LongConfig, Backend, Index, NormalCrypt, AcceptsCrypt, Accept, Upstream, Root, RemoteName;
    AcceptTwo(v, LongConfig().sections, "secret", "cloud", NormalCrypt(LongCrypt()), LongCloud(), Backend(v, LongCloud()), "");
  }

  lemma LongUpstream()
    ensures Upstream(NormalCrypt(LongCrypt())) == "cloud" && Root(NormalCrypt(LongCrypt())) == Some("")
  {
    var t := "cloud:";
    assert Get(NormalCrypt(LongCrypt()), "remote") == t;
    IndexAt(t, ':', 5);
    hide Index, NormalCrypt, LongCrypt;
    assert t[..5] == "cloud" && t[6..] == "";
  }

  lemma LongWebDav(v: Values)
    requires v.url(LongUrl()) == Some(LongUrl() + "/")
    ensures Backend(v, LongCloud()) == Some(StoredCloud())
  {
    hide LongUrl;
    AsciiBytes("t");
    var c := LongCloud()["vendor" := "other"];
    assert BearerAuth(c) by { hide NoColon; }
  }

  lemma LongParses(v: Values)
    requires v.obscured(PASSWORD) && v.safeRoot("") && v.url(LongUrl()) == Some(LongUrl() + "/")
    ensures Parse(v, Print(LongConfig()), "secret", "") == Some(Stored())
  {
    hide LongConfig, ByteLength, ReadLines, Lines.Split, Accept, LongUrl, RemoteName, Print, Stored;
    ReadLong();
    LongNames();
    LongAccepts(v);
  }

  lemma StoredCloudAt()
    ensures CloudName(Stored()) == "cloud" && "cloud" in Stored().sections && Stored().sections["cloud"] == StoredCloud()
  {
    LongUpstream();
    hide LongCrypt, NormalCrypt, StoredCloud, Upstream;
    assert Stored().sections["secret"] == NormalCrypt(LongCrypt());
  }

  lemma StoredUrl()
    ensures Get(StoredCloud(), "type") == "webdav" && Get(StoredCloud(), "url") == LongUrl() + "/"
  {
    hide LongUrl;
  }

  lemma StoredDoesNotFit()
    ensures !Fits(Stored())
  {
    hide LongUrl, ByteLength, Stored, StoredCloud, CloudName, Get;
    LongUrlBytes();
    StoredCloudAt();
    StoredUrl();
  }

  /**
    A WebDAV configuration whose URL has 4096 bytes and no final slash is accepted.  Its
    normalised URL has one byte more, so neither its printed form nor its runtime form
    is accepted again.
   */
  lemma {:induction false} LongUrlIsLost(v: Values, socket: string)
    requires Lawful(v) && v.obscured(PASSWORD) && v.safeRoot("") && v.url(LongUrl()) == Some(LongUrl() + "/")
    requires socket != "" && Clean(socket)
    ensures ByteLength(LongUrl()) == MAX_URL
    ensures Parse(v, Print(LongConfig()), "secret", "") == Some(Stored())
    ensures Parse(v, Print(Stored()), "secret", "") == None
    ensures Parse(v, Print(WithSocket(Stored(), socket)), "secret", socket) == None
  {
    hide *;
    var text := Print(LongConfig());
    LongUrlBytes();
    LongParses(v);
    StoredDoesNotFit();
    ParseOfPrint(v, text, "secret", "");
    ParseOfRuntimeForm(v, text, "secret", socket);
  }
}
