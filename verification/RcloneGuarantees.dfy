/** What an accepted configuration guarantees, and what no configuration may hold twice. */
module RcloneGuarantees {
  import opened Basics
  import opened Lines
  import opened RcloneText
  import opened RcloneSpec
  import opened RcloneAccepted

  // ----- the normalised sections -----

  /** Names and contents are encrypted, under passwords that the runtime can reveal. */
  predicate Encrypted(v: Values, c: Section) {
    && Get(c, "type") == "crypt" && Get(c, "filename_encryption") == "standard" && Get(c, "directory_name_encryption") == "true"
    && v.obscured(Get(c, "password")) && (Get(c, "password2") != "" ==> v.obscured(Get(c, "password2")))
  }

  /** Either a user with a password or a bearer token, never both, and within their bounds. */
  predicate OneCredential(v: Values, c: Section) {
    && (Get(c, "user") != "" <==> Get(c, "bearer_token") == "")
    && (Get(c, "user") != "" ==> ByteLength(Get(c, "user")) <= 1024 && (forall i :: 0 <= i < |Get(c, "user")| ==> Get(c, "user")[i] != ':') && v.obscured(Get(c, "pass")))
    && (Get(c, "bearer_token") != "" ==> ByteLength(Get(c, "bearer_token")) <= 8192 && Get(c, "pass") == "")
  }

  predicate Personal(v: Values, c: Section) {
    && Get(c, "region") == "global" && v.drive(Get(c, "drive_id")) && Get(c, "drive_type") in {"personal", "business", "documentLibrary"}
    && (Get(c, "client_id") != "" ==> v.drive(Get(c, "client_id"))) && ByteLength(Get(c, "client_secret")) <= 4096
  }

  /** A folder or a shared drive of its own, never the root of the account. */
  predicate Confined(v: Values, c: Section) {
    && Get(c, "scope") in {"drive", "drive.file"} && v.googleClient(Get(c, "client_id")) && ByteLength(Get(c, "client_id")) <= 256
    && 0 < ByteLength(Get(c, "client_secret")) <= 4096
    && (Get(c, "root_folder_id") != "" || Get(c, "team_drive") != "")
    && (forall k :: k in {"root_folder_id", "team_drive"} && Get(c, k) != "" ==> v.googleId(Get(c, k)) && Get(c, k) != "root")
  }

  /** Nothing but the keys of its type, which is one of three; the token or the URL is normalised. */
  ghost predicate Narrow(v: Values, c: Section) {
    || (Get(c, "type") == "onedrive" && c.Keys <= ONEDRIVE_KEYS && Personal(v, c) && exists t :: v.token(t) == Some(Get(c, "token")))
    || (Get(c, "type") == "drive" && c.Keys <= DRIVE_KEYS && Confined(v, c) && exists t :: v.token(t) == Some(Get(c, "token")))
    || (Get(c, "type") == "webdav" && c.Keys <= WEBDAV_KEYS && OneCredential(v, c) && Get(c, "vendor") in {"other", "nextcloud", "owncloud", "fastmail", "rclone"} &&
        exists u :: v.url(u) == Some(Get(c, "url")))
  }

  lemma ColonFree(s: string)
    ensures NoColon(s) <==> forall i :: 0 <= i < |s| ==> s[i] != ':'
  {
    hide Index;
    IndexFirst(s, ':');
  }

  lemma {:induction false} IndexFirst(s: string, c: char)
    ensures forall i :: 0 <= i < Index(s, c) && i < |s| ==> s[i] != c
    ensures Index(s, c) < |s| ==> s[Index(s, c)] == c
  {
    if s != "" && s[0] != c {
      IndexFirst(s[1..], c);
      assert forall i :: 1 <= i < |s| ==> s[i] == s[1..][i - 1];
    }
  }

  lemma CryptEncrypted(v: Values, c: Section)
    requires AcceptsCrypt(v, c)
    ensures Encrypted(v, NormalCrypt(c))
  {
  }

  lemma OneDrivePersonal(v: Values, c: Section)
    requires Get(c, "type") == "onedrive" && OneDrive(v, c).Some?
    ensures Narrow(v, OneDrive(v, c).value)
  {
    hide ByteLength;
    assert v.token(Get(c["region" := "global"], "token")) == Some(Get(OneDrive(v, c).value, "token"));
  }

  lemma DriveConfined(v: Values, c: Section)
    requires Get(c, "type") == "drive" && GoogleDrive(v, c).Some?
    ensures Narrow(v, GoogleDrive(v, c).value)
  {
    hide ByteLength;
    var d := if Get(c, "scope") == "" then c["scope" := "drive"] else c;
    assert v.token(Get(d, "token")) == Some(Get(GoogleDrive(v, c).value, "token"));
    SecretLength(Get(c, "client_secret"));
  }

  lemma SecretLength(s: string)
    requires s != ""
    ensures ByteLength(s) > 0
  {
  }

  lemma WebDavCredential(v: Values, c: Section)
    requires Get(c, "type") == "webdav" && WebDav(v, c).Some?
    ensures Narrow(v, WebDav(v, c).value)
  {
    hide ByteLength, Index;
    var d := if Get(c, "vendor") == "" then c["vendor" := "other"] else c;
    ColonFree(Get(d, "user"));
    assert v.url(Get(d, "url")) == Some(Get(WebDav(v, c).value, "url"));
  }

  lemma BackendNarrow(v: Values, c: Section)
    requires Backend(v, c).Some?
    ensures Narrow(v, Backend(v, c).value)
  {
    hide OneDrive, GoogleDrive, WebDav, Narrow, Get;
    if Get(c, "type") == "onedrive" { OneDrivePersonal(v, c); }
    else if Get(c, "type") == "drive" { DriveConfined(v, c); }
    else { WebDavCredential(v, c); }
  }

  // ----- exactly which sections are accepted -----

  function WithDefault(c: Section, key: string, x: string): Section {
    if Get(c, key) == "" then c[key := x] else c
  }

  /** A section is fit for its type once defaults are filled in; what it gives itself is not overridden. */
  predicate Acceptable(v: Values, c: Section) {
    || (Get(c, "type") == "onedrive" && c.Keys <= ONEDRIVE_KEYS && Personal(v, WithDefault(c, "region", "global")) && v.token(Get(c, "token")).Some?)
    || (Get(c, "type") == "drive" && c.Keys <= DRIVE_KEYS && Confined(v, WithDefault(c, "scope", "drive")) && v.token(Get(c, "token")).Some?)
    || (Get(c, "type") == "webdav" && c.Keys <= WEBDAV_KEYS && OneCredential(v, c) && v.url(Get(c, "url")).Some? &&
        Get(WithDefault(c, "vendor", "other"), "vendor") in {"other", "nextcloud", "owncloud", "fastmail", "rclone"})
  }

  lemma OneDriveIff(v: Values, c: Section)
    requires Get(c, "type") == "onedrive"
    ensures OneDrive(v, c).Some? <==> Acceptable(v, c)
  {
    hide ByteLength, OneCredential, Confined;
  }

  lemma DriveIff(v: Values, c: Section)
    requires Get(c, "type") == "drive"
    ensures GoogleDrive(v, c).Some? <==> Acceptable(v, c)
  {
    if Get(c, "client_secret") != "" { SecretLength(Get(c, "client_secret")); }
    assert ByteLength("") == 0;
    hide ByteLength, OneCredential, Personal;
  }

  lemma WebDavIff(v: Values, c: Section)
    requires Get(c, "type") == "webdav"
    ensures WebDav(v, c).Some? <==> Acceptable(v, c)
  {
    hide ByteLength, Index, Personal, Confined;
    ColonFree(Get(c, "user"));
    hide NoColon;
  }

  /** A backend is accepted exactly if it is fit for its type; and normalising keeps what it gave, but for the token's and the URL's spelling. */
  lemma {:induction false} BackendIff(v: Values, c: Section, key: string)
    ensures Backend(v, c).Some? <==> Acceptable(v, c)
    ensures Backend(v, c).Some? && Get(c, key) != "" && key !in {"token", "url"} ==> Get(Backend(v, c).value, key) == Get(c, key)
  {
    if Get(c, "type") == "onedrive" { OneDriveIff(v, c); }
    else if Get(c, "type") == "drive" { DriveIff(v, c); }
    else if Get(c, "type") == "webdav" { WebDavIff(v, c); }
    hide ByteLength, BasicAuth, BearerAuth, OneCredential, Personal, Confined;
  }

  /** So is the encrypted section. */
  lemma {:induction false} CryptIff(v: Values, c: Section)
    ensures AcceptsCrypt(v, c) <==>
              && c.Keys <= CRYPT_KEYS && Encrypted(v, NormalCrypt(c))
              && (forall k :: k in {"filename_encryption", "directory_name_encryption"} && Get(c, k) != "" ==> Get(NormalCrypt(c), k) == Get(c, k))
  {
    assert Get(NormalCrypt(c), "filename_encryption") == "standard" && Get(NormalCrypt(c), "directory_name_encryption") == "true";
    assert Get(NormalCrypt(c), "password") == Get(c, "password") && Get(NormalCrypt(c), "password2") == Get(c, "password2") && Get(NormalCrypt(c), "type") == Get(c, "type");
  }

  /**
    Every accepted configuration has two sections: an encrypted one, under the name that
    was asked for, over a safe path of the other; and a narrow one, which is of another
    name and never holds a socket.
   */
  lemma {:induction false} AcceptedGuarantees(v: Values, raw: string, remote: string, socket: string)
    requires Parse(v, raw, remote, socket).Some?
    ensures var c := Parse(v, raw, remote, socket).value; var up := CloudName(c);
            && c.remote == remote && c.sections.Keys == {remote, up} && up != remote
            && Encrypted(v, c.sections[remote]) && Root(c.sections[remote]).Some? && v.safeRoot(Root(c.sections[remote]).value)
            && Narrow(v, c.sections[up]) && "unix_socket" !in c.sections[up]
  {
    ParsedIsShaped(v, raw, remote, socket);
    hide *;
    ShapedGuarantees(v, Parse(v, raw, remote, socket).value);
  }

  lemma ShapedGuarantees(v: Values, c: Config)
    requires AcceptedBy(v, c)
    ensures var up := CloudName(c);
            && c.sections.Keys == {c.remote, up} && up != c.remote
            && Encrypted(v, c.sections[c.remote]) && Root(c.sections[c.remote]).Some? && v.safeRoot(Root(c.sections[c.remote]).value)
            && Narrow(v, c.sections[up]) && "unix_socket" !in c.sections[up]
  {
    hide Encrypted, Narrow, Backend, AcceptsCrypt, NormalCrypt, CleanValues, Root, Upstream, CloudName, RemoteName;
    var crypt, cloud :| Shaped(v, c, crypt, cloud);
    CryptEncrypted(v, crypt);
    BackendNarrow(v, cloud);
    TypeKept(v, cloud);
  }

  // ----- nothing twice -----

  predicate IsHeading(line: string) {
    !Ignored(Trim(line)) && Heading(Trim(line))
  }

  predicate IsPair(line: string) {
    !Ignored(Trim(line)) && !Heading(Trim(line)) && Index(Trim(line), '=') < |Trim(line)|
  }

  function KeyOf(line: string): string
    requires IsPair(line)
  {
    Trim(Trim(line)[..Index(Trim(line), '=')])
  }

  /** The key has been read in the section that is being read. */
  predicate HasKey(r: Reading, key: string) {
    r.current.Some? && r.current.value in r.sections && key in r.sections[r.current.value]
  }

  lemma PairStores(r: Reading, line: string)
    requires IsPair(line) && ReadLine(r, line).Some?
    ensures !HasKey(r, KeyOf(line)) && HasKey(ReadLine(r, line).value, KeyOf(line))
  {
    hide Trim, Index, Printable, RemoteName;
  }

  lemma OthersKeep(r: Reading, line: string, key: string)
    requires HasKey(r, key) && !IsHeading(line) && ReadLine(r, line).Some?
    ensures HasKey(ReadLine(r, line).value, key)
  {
    hide Trim, Index, Printable, RemoteName;
  }

  lemma {:induction false} KeyStays(lines: seq<string>, i: nat, n: nat)
    requires i < n <= |lines| && IsPair(lines[i]) && (forall k :: i < k < n ==> !IsHeading(lines[k]))
    requires ReadLines(Reading(map[], None), lines[..n]).Some?
    ensures HasKey(ReadLines(Reading(map[], None), lines[..n]).value, KeyOf(lines[i]))
    decreases n
  {
    hide IsPair, IsHeading, KeyOf, HasKey, ReadLine;
    var start := Reading(map[], None);
    assert lines[..n][..n - 1] == lines[..n - 1] && lines[..n][n - 1] == lines[n - 1];
    if i == n - 1 {
      PairStores(ReadLines(start, lines[..n - 1]).value, lines[i]);
    } else {
      KeyStays(lines, i, n - 1);
      OthersKeep(ReadLines(start, lines[..n - 1]).value, lines[n - 1], KeyOf(lines[i]));
    }
  }

  lemma {:induction false} PrefixReads(lines: seq<string>, n: nat)
    requires n <= |lines| && ReadLines(Reading(map[], None), lines).Some?
    ensures ReadLines(Reading(map[], None), lines[..n]).Some?
    decreases |lines|
  {
    hide ReadLine;
    if n < |lines| {
      var before := lines[..|lines| - 1];
      assert before[..n] == lines[..n];
      PrefixReads(before, n);
    } else {
      assert lines[..n] == lines;
    }
  }

  /** A key that one section gives twice refuses the whole configuration. */
  lemma {:induction false} RepeatedKeyRefused(v: Values, raw: string, remote: string, socket: string, i: nat, j: nat)
    requires i < j < |Split(raw)| && IsPair(Split(raw)[i]) && IsPair(Split(raw)[j]) && KeyOf(Split(raw)[i]) == KeyOf(Split(raw)[j])
    requires forall k :: i < k < j ==> !IsHeading(Split(raw)[k])
    ensures Parse(v, raw, remote, socket).None?
  {
    hide IsPair, IsHeading, KeyOf, HasKey, ReadLine, Split, Accept, ByteLength, RemoteName;
    var lines, start := Split(raw), Reading(map[], None);
    if ReadLines(start, lines).Some? {
      PrefixReads(lines, j);
      PrefixReads(lines, j + 1);
      KeyStays(lines, i, j);
      assert lines[..j + 1][..j] == lines[..j];
      PairStores(ReadLines(start, lines[..j]).value, lines[j]);
    }
  }
}
