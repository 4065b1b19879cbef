/** Accepted configurations survive printing and parsing, with and without the runtime socket. */
module RcloneAccepted {
  import opened Basics
  import opened SortedNames
  import opened Lines
  import opened RcloneText
  import opened RcloneSpec
  import opened RcloneRoundTrip

  // ----- what reading gives -----

  predicate CleanValues(s: Section) {
    forall k :: k in s ==> Clean(s[k])
  }

  predicate ReadOk(sections: map<string, Section>) {
    forall n :: n in sections ==> RemoteName(n) && CleanValues(sections[n])
  }

  lemma ValueClean(t: string, i: nat)
    requires Printable(t) && i < |t|
    ensures Clean(Trim(t[i + 1..]))
  {
    hide IsControl, IsSpace;
    assert Printable(t[i + 1..]);
  }

  lemma ReadLineOk(r: Reading, line: string)
    requires ReadOk(r.sections) && ReadLine(r, line).Some?
    ensures ReadOk(ReadLine(r, line).value.sections)
  {
    hide RemoteName, IsControl, IsSpace, Trim, Index, Clean, Printable, Heading, Ignored;
    var t := Trim(line);
    var i := Index(t, '=');
    if i < |t| && Printable(t) { ValueClean(t, i); }
  }

  lemma {:induction false} ReadLinesOk(r: Reading, lines: seq<string>)
    requires ReadOk(r.sections) && ReadLines(r, lines).Some?
    ensures ReadOk(ReadLines(r, lines).value.sections)
  {
    hide ReadOk, ReadLine;
    if lines != [] {
      ReadLinesOk(r, lines[..|lines| - 1]);
      ReadLineOk(ReadLines(r, lines[..|lines| - 1]).value, lines[|lines| - 1]);
    }
  }

  // ----- literals -----

  lemma CryptKeysOk()
    ensures forall k :: k in CRYPT_KEYS ==> KeyOk(k)
  {
  }

  lemma OneDriveKeysOk()
    ensures forall k :: k in ONEDRIVE_KEYS ==> KeyOk(k)
  {
  }

  lemma DriveKeysOk()
    ensures forall k :: k in DRIVE_KEYS ==> KeyOk(k)
  {
  }

  lemma WebDavKeysOk()
    ensures forall k :: k in WEBDAV_KEYS + {"unix_socket"} ==> KeyOk(k)
  {
  }

  lemma WordsClean(s: string)
    requires forall i :: 0 <= i < |s| ==> Word(s[i])
    ensures Clean(s)
  {
    forall i | 0 <= i < |s| ensures !IsControl(s[i]) && !IsSpace(s[i]) { PlainChar(s[i]); }
    hide IsControl, IsSpace, Word;
  }

  lemma DefaultsClean()
    ensures Clean("standard") && Clean("true") && Clean("global") && Clean("drive") && Clean("other")
  {
    WordsClean("standard");
    WordsClean("true");
    WordsClean("global");
    WordsClean("drive");
    WordsClean("other");
  }

  // ----- sections after normalisation -----

  lemma CryptOk(v: Values, c: Section)
    requires CleanValues(c) && AcceptsCrypt(v, c)
    ensures SectionOk(NormalCrypt(c))
  {
    CryptKeysOk();
    DefaultsClean();
    hide KeyOk, Clean;
  }

  lemma TokenOk(v: Values, c: Section, keys: set<string>)
    requires Lawful(v) && CleanValues(c) && c.Keys <= keys && "token" in keys && WithToken(v, c).Some?
    ensures CleanValues(WithToken(v, c).value) && WithToken(v, c).value.Keys <= keys
  {
    hide Clean;
  }

  lemma BackendOk(v: Values, c: Section)
    requires Lawful(v) && CleanValues(c) && Backend(v, c).Some?
    ensures SectionOk(Backend(v, c).value)
  {
    DefaultsClean();
    if Get(c, "type") == "onedrive" {
      OneDriveOk(v, c);
    } else if Get(c, "type") == "drive" {
      DriveOk(v, c);
    } else {
      WebDavOk(v, c);
    }
    hide Clean, KeyOk, OneDrive, GoogleDrive, WebDav, SectionOk;
  }

  lemma OneDriveOk(v: Values, c: Section)
    requires Lawful(v) && CleanValues(c) && OneDrive(v, c).Some?
    ensures SectionOk(OneDrive(v, c).value)
  {
    DefaultsClean();
    OneDriveKeysOk();
    hide Clean, KeyOk, Lawful, WithToken;
    TokenOk(v, c["region" := "global"], ONEDRIVE_KEYS);
  }

  lemma DriveOk(v: Values, c: Section)
    requires Lawful(v) && CleanValues(c) && GoogleDrive(v, c).Some?
    ensures SectionOk(GoogleDrive(v, c).value)
  {
    DefaultsClean();
    DriveKeysOk();
    hide Clean, KeyOk, Lawful, WithToken;
    TokenOk(v, if Get(c, "scope") == "" then c["scope" := "drive"] else c, DRIVE_KEYS);
  }

  lemma WebDavOk(v: Values, c: Section)
    requires Lawful(v) && CleanValues(c) && WebDav(v, c).Some?
    ensures SectionOk(WebDav(v, c).value)
  {
    DefaultsClean();
    WebDavKeysOk();
    hide Clean, KeyOk, BasicAuth, BearerAuth;
  }

  // ----- normalisation is stable -----

  lemma FilledPut(s: Section, k: string, x: string)
    requires x != ""
    ensures Filled(s[k := x]) == Filled(s)[k := x]
    ensures Get(s, k) == x ==> Filled(s)[k := x] == Filled(s)
  {
  }

  lemma GetsFilled(s: Section)
    ensures forall k :: Get(Filled(s), k) == Get(s, k)
    ensures Filled(s).Keys <= s.Keys
  {
  }

  lemma CryptStable(v: Values, c: Section)
    requires AcceptsCrypt(v, c)
    ensures var n := NormalCrypt(c);
            AcceptsCrypt(v, Filled(n)) && NormalCrypt(Filled(n)) == Filled(n) && Upstream(Filled(n)) == Upstream(n) && Root(Filled(n)) == Root(n)
  {
    var n := NormalCrypt(c);
    GetsFilled(n);
    FilledPut(n, "filename_encryption", "standard");
    FilledPut(Filled(n), "directory_name_encryption", "true");
    assert Filled(Filled(n)) == Filled(n);
    hide Filled, Index;
  }

  lemma OneDriveStable(v: Values, c: Section)
    requires Lawful(v) && OneDrive(v, c).Some?
    ensures OneDrive(v, Filled(OneDrive(v, c).value)) == Some(Filled(OneDrive(v, c).value))
  {
    var o := OneDrive(v, c).value;
    GetsFilled(o);
    assert Filled(o)["region" := "global"] == Filled(o);
    assert Filled(o)["token" := Get(o, "token")] == Filled(o);
    hide Filled, ByteLength, Clean;
  }

  lemma DriveStable(v: Values, c: Section)
    requires Lawful(v) && GoogleDrive(v, c).Some?
    ensures GoogleDrive(v, Filled(GoogleDrive(v, c).value)) == Some(Filled(GoogleDrive(v, c).value))
  {
    var o := GoogleDrive(v, c).value;
    GetsFilled(o);
    assert Filled(o)["token" := Get(o, "token")] == Filled(o);
    hide Filled, ByteLength, Clean;
  }

  lemma WebDavStable(v: Values, c: Section)
    requires Lawful(v) && WebDav(v, c).Some?
    ensures var o := WebDav(v, c).value;
            WebDav(v, Filled(o)) == if ByteLength(Get(o, "url")) <= MAX_URL then Some(Filled(o)) else None
  {
    var o := WebDav(v, c).value;
    GetsFilled(o);
    assert Filled(o)["url" := Get(o, "url")] == Filled(o);
    hide Filled, ByteLength, Clean, NoColon;
  }

  /** A normalised backend, without its empty values, normalises to itself, unless its URL has become too long. */
  lemma {:induction false} BackendStable(v: Values, c: Section)
    requires Lawful(v) && Backend(v, c).Some?
    ensures var o := Backend(v, c).value; Backend(v, Filled(o)) == if UrlFits(o) then Some(Filled(o)) else None
    ensures Get(Backend(v, c).value, "type") == Get(c, "type") && "unix_socket" !in Backend(v, c).value
  {
    var o := Backend(v, c).value;
    GetsFilled(o);
    TypeKept(v, c);
    if Get(c, "type") == "onedrive" {
      OneDriveStable(v, c);
    } else if Get(c, "type") == "drive" {
      DriveStable(v, c);
    } else {
      WebDavStable(v, c);
    }
    hide OneDrive, GoogleDrive, WebDav, Filled, Get, Lawful;
  }

  lemma TypeKept(v: Values, c: Section)
    requires Backend(v, c).Some?
    ensures Get(Backend(v, c).value, "type") == Get(c, "type") && "unix_socket" !in Backend(v, c).value
  {
    hide ByteLength, BasicAuth, BearerAuth;
  }

  // ----- whole configurations -----

  /** What acceptance leaves: two named sections, normalised. */
  ghost predicate AcceptedBy(v: Values, c: Config) {
    exists crypt: Section, cloud: Section :: Shaped(v, c, crypt, cloud)
  }

  ghost predicate Shaped(v: Values, c: Config, crypt: Section, cloud: Section) {
    && AcceptsCrypt(v, crypt) && CleanValues(crypt) && Backend(v, cloud).Some? && CleanValues(cloud)
    && RemoteName(c.remote) && RemoteName(CloudName(c)) && CloudName(c) != c.remote
    && Root(NormalCrypt(crypt)).Some? && v.safeRoot(Root(NormalCrypt(crypt)).value) && Upstream(NormalCrypt(crypt)) == CloudName(c)
    && c.sections == map[c.remote := NormalCrypt(crypt), CloudName(c) := Backend(v, cloud).value]
  }

  lemma ParsedIsShaped(v: Values, raw: string, remote: string, socket: string)
    requires Parse(v, raw, remote, socket).Some?
    ensures AcceptedBy(v, Parse(v, raw, remote, socket).value) && Parse(v, raw, remote, socket).value.remote == remote
  {
    hide ReadLines, RemoteName, CleanValues, AcceptsCrypt, Backend, ByteLength;
    var start := Reading(map[], None);
    assert ReadOk(start.sections);
    ReadLinesOk(start, Split(raw));
    var secs := ReadLines(start, Split(raw)).value.sections;
    var c := Parse(v, raw, remote, socket).value;
    var up := Upstream(NormalCrypt(secs[remote]));
    assert remote in c.sections && c.sections[remote] == NormalCrypt(secs[remote]);
    assert CloudName(c) == up;
    var plain := WithoutSocket(secs[up], socket).value;
    FewerClean(secs[up], plain);
    assert Shaped(v, c, secs[remote], plain);
  }

  lemma FewerClean(s: Section, t: Section)
    requires CleanValues(s) && forall k :: k in t ==> k in s && t[k] == s[k]
    ensures CleanValues(t)
  {
  }

  lemma AcceptedWf(v: Values, c: Config)
    requires Lawful(v) && AcceptedBy(v, c)
    ensures Wf(c.sections) && c.remote in c.sections && CloudName(c) in c.sections
  {
    hide Lawful, AcceptsCrypt, Backend, RemoteName, SectionOk, NormalCrypt, CleanValues, Root, Upstream, CloudName;
    var crypt, cloud :| Shaped(v, c, crypt, cloud);
    CryptOk(v, crypt);
    BackendOk(v, cloud);
    assert c.sections.Keys == {c.remote, CloudName(c)};
    assert |c.sections| == |c.sections.Keys| == 2;
  }

  predicate Fits(c: Config) {
    CloudName(c) in c.sections ==> UrlFits(c.sections[CloudName(c)])
  }

  /** Accepting the filled sections again, perhaps with the socket in place, gives them back or refuses the URL. */
  lemma AcceptFilled(v: Values, c: Config, secs: map<string, Section>, socket: string)
    requires Lawful(v) && AcceptedBy(v, c)
    requires c.remote in c.sections && CloudName(c) in c.sections
    requires secs.Keys == c.sections.Keys && c.remote in secs && secs[c.remote] == Filled(c.sections[c.remote])
    requires CloudName(c) in secs && WithoutSocket(secs[CloudName(c)], socket) == Some(Filled(c.sections[CloudName(c)]))
    ensures Accept(v, secs, c.remote, socket) == if Fits(c) then Some(FilledConfig(c)) else None
  {
    hide *;
    var crypt, cloud := ShapeOf(v, c);
    var up := CloudName(c);
    CryptStable(v, crypt);
    BackendStable(v, cloud);
    FilledTwo(c, up, crypt, Backend(v, cloud).value);
    TwoKeys(secs, c.remote, up);
    var o := Backend(v, cloud).value;
    AcceptTwo(v, secs, c.remote, up, Filled(NormalCrypt(crypt)), Filled(o), Backend(v, Filled(o)), socket);
    FitsOf(c);
  }

  lemma FitsOf(c: Config)
    requires CloudName(c) in c.sections
    ensures Fits(c) == UrlFits(c.sections[CloudName(c)])
  {
  }

  lemma ShapeOf(v: Values, c: Config) returns (crypt: Section, cloud: Section)
    requires AcceptedBy(v, c)
    ensures AcceptsCrypt(v, crypt) && Backend(v, cloud).Some? && CloudName(c) != c.remote
    ensures Root(NormalCrypt(crypt)).Some? && v.safeRoot(Root(NormalCrypt(crypt)).value) && Upstream(NormalCrypt(crypt)) == CloudName(c)
    ensures c.sections == map[c.remote := NormalCrypt(crypt), CloudName(c) := Backend(v, cloud).value]
    ensures c.sections.Keys == {c.remote, CloudName(c)}
    ensures c.sections[c.remote] == NormalCrypt(crypt) && c.sections[CloudName(c)] == Backend(v, cloud).value
  {
    hide AcceptsCrypt, Backend, RemoteName, NormalCrypt, CleanValues, Root, Upstream, CloudName;
    crypt, cloud :| Shaped(v, c, crypt, cloud);
  }

  lemma TwoKeys(secs: map<string, Section>, a: string, b: string)
    requires secs.Keys == {a, b} && a != b
    ensures |secs| == 2
  {
    assert |secs| == |secs.Keys|;
  }

  lemma FilledTwo(c: Config, up: string, crypt: Section, cloud: Section)
    requires c.sections == map[c.remote := NormalCrypt(crypt), up := cloud] && up != c.remote
    ensures FilledConfig(c) == Config(map[c.remote := Filled(NormalCrypt(crypt)), up := Filled(cloud)], c.remote)
  {
    hide Filled, NormalCrypt;
    assert FilledConfig(c).sections == map[c.remote := Filled(NormalCrypt(crypt)), up := Filled(cloud)];
  }

  lemma AcceptTwo(v: Values, secs: map<string, Section>, remote: string, up: string, crypt: Section, plain: Section, cloud: Option<Section>, socket: string)
    requires |secs| == 2 && remote in secs && up in secs && up != remote
    requires AcceptsCrypt(v, secs[remote]) && NormalCrypt(secs[remote]) == crypt && Upstream(crypt) == up
    requires Root(crypt).Some? && v.safeRoot(Root(crypt).value)
    requires WithoutSocket(secs[up], socket) == Some(plain) && Backend(v, plain) == cloud
    ensures Accept(v, secs, remote, socket) == if cloud.Some? then Some(Config(map[remote := crypt, up := cloud.value], remote)) else None
  {
    hide AcceptsCrypt, NormalCrypt, Upstream, Root, WithoutSocket, Backend;
  }

  /**
    For every accepted configuration: the printed form parses exactly if it is not too
    long and neither is its normalised URL, and then to the same configuration without
    its empty values, which prints the same bytes again.
   */
  lemma {:induction false} ParseOfPrint(v: Values, raw: string, remote: string, socket: string)
    requires Lawful(v) && Parse(v, raw, remote, socket).Some?
    ensures var c := Parse(v, raw, remote, socket).value;
            && Parse(v, Print(c), remote, "") == (if ByteLength(Print(c)) <= MAX_CONFIG && Fits(c) then Some(FilledConfig(c)) else None)
            && Print(FilledConfig(c)) == Print(c)
  {
    assert RemoteName(remote);
    var c := Parse(v, raw, remote, socket).value;
    ParsedIsShaped(v, raw, remote, socket);
    PrintedParses(v, c);
  }

  lemma PrintedParses(v: Values, c: Config)
    requires Lawful(v) && AcceptedBy(v, c) && RemoteName(c.remote)
    ensures Parse(v, Print(c), c.remote, "") == if ByteLength(Print(c)) <= MAX_CONFIG && Fits(c) then Some(FilledConfig(c)) else None
    ensures Print(FilledConfig(c)) == Print(c)
  {
    hide ReadLines, Split, ByteLength, Accept, RemoteName, Lawful, AcceptedBy, Wf, Print, FilledConfig, Fits;
    AcceptedWf(v, c);
    ReadPrinted(c);
    PrintFilled(c);
    NonEmptyPrint(c);
    FilledAccepted(v, c);
  }

  lemma FilledAccepted(v: Values, c: Config)
    requires Lawful(v) && AcceptedBy(v, c) && c.remote in c.sections && CloudName(c) in c.sections
    ensures Accept(v, FilledConfig(c).sections, c.remote, "") == if Fits(c) then Some(FilledConfig(c)) else None
  {
    hide Accept, Lawful, AcceptedBy, Filled, CloudName, Fits;
    AcceptFilled(v, c, FilledConfig(c).sections, "");
  }

  lemma NonEmptyPrint(c: Config)
    requires c.remote in c.sections
    ensures Print(c) != ""
  {
    var names := Ordered(c.sections.Keys);
    assert c.remote in Elements(names);
    NonEmptyLines(c.sections, names, |names|);
  }

  lemma NonEmptyLines(sections: map<string, Section>, names: seq<string>, n: nat)
    requires 0 < n <= |names|
    ensures AllLines(sections, names, n) != [] && Unlines(AllLines(sections, names, n)) != ""
  {
  }

  /**
    The runtime form with the injected socket parses back to the same configuration
    exactly for WebDAV, the only backend that has a socket, within the same two bounds.
   */
  lemma {:induction false} ParseOfRuntimeForm(v: Values, raw: string, remote: string, socket: string)
    requires Lawful(v) && Parse(v, raw, remote, "").Some? && socket != "" && Clean(socket)
    ensures var c := Parse(v, raw, remote, "").value; var text := Print(WithSocket(c, socket));
            Parse(v, text, remote, socket) ==
              if CloudName(c) in c.sections && Get(c.sections[CloudName(c)], "type") == "webdav" && ByteLength(text) <= MAX_CONFIG && Fits(c)
              then Some(FilledConfig(c)) else None
  {
    hide ReadLines, Split, ByteLength, Accept, RemoteName, Fits;
    var c := Parse(v, raw, remote, "").value;
    ParsedIsShaped(v, raw, remote, "");
    AcceptedWf(v, c);
    var d := WithSocket(c, socket);
    SocketWf(c, socket);
    ReadPrinted(d);
    NonEmptyPrint(d);
    SocketAccept(v, c, socket);
    hide Print, Wf, AcceptedBy;
  }

  lemma SocketWf(c: Config, socket: string)
    requires Wf(c.sections) && CloudName(c) in c.sections && socket != "" && Clean(socket) && c.remote in c.sections
    ensures Wf(WithSocket(c, socket).sections) && c.remote in WithSocket(c, socket).sections && WithSocket(c, socket).remote == c.remote
  {
    WebDavKeysOk();
    hide KeyOk, Clean, RemoteName;
    var d := WithSocket(c, socket);
    assert d.sections.Keys == c.sections.Keys;
    assert |d.sections| == |d.sections.Keys| && |c.sections| == |c.sections.Keys|;
  }

  lemma SocketAccept(v: Values, c: Config, socket: string)
    requires Lawful(v) && AcceptedBy(v, c) && c.remote in c.sections && CloudName(c) in c.sections && socket != ""
    ensures Accept(v, FilledConfig(WithSocket(c, socket)).sections, c.remote, socket) ==
            if Get(c.sections[CloudName(c)], "type") == "webdav" && Fits(c) then Some(FilledConfig(c)) else None
  {
    hide AcceptedBy, Fits, UrlFits;
    var crypt, cloud := ShapeOf(v, c);
    var up := CloudName(c);
    var s := c.sections[up];
    var secs := FilledConfig(WithSocket(c, socket)).sections;
    BackendStable(v, cloud);
    CryptStable(v, crypt);
    assert "unix_socket" !in s;
    SocketSection(s, socket);
    assert secs[up] == Filled(s["unix_socket" := socket]);
    assert secs[c.remote] == Filled(c.sections[c.remote]);
    hide Lawful, AcceptsCrypt, Backend, RemoteName, NormalCrypt, CleanValues, Filled, Root, Upstream, WithoutSocket;
    if Get(s, "type") == "webdav" {
      AcceptFilled(v, c, secs, socket);
    }
  }

  lemma SocketSection(s: Section, socket: string)
    requires "unix_socket" !in s && socket != ""
    ensures WithoutSocket(Filled(s["unix_socket" := socket]), socket) == if Get(s, "type") == "webdav" then Some(Filled(s)) else None
  {
    var t := Filled(s["unix_socket" := socket]);
    GetsFilled(s["unix_socket" := socket]);
    assert t - {"unix_socket"} == Filled(s);
  }
}
