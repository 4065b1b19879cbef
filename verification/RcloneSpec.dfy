/**
  The restricted rclone configuration: what is accepted, how it is normalised and how
  it is printed.
 */
module RcloneSpec {
  import opened Basics
  import opened SortedNames
  import opened Lines
  import opened RcloneText

  const MAX_CONFIG := 262144
  const MAX_URL := 4096

  type Section = map<string, string>

  datatype Config = Config(sections: map<string, Section>, remote: string)

  /** A missing key reads as the empty string. */
  function Get(s: Section, key: string): string {
    if key in s then s[key] else ""
  }

  /** Patterns and normalisers of single values: base64, identifiers, OAuth tokens, endpoint URLs. */
  datatype Values = Values(
    obscured: string -> bool, drive: string -> bool, googleClient: string -> bool, googleId: string -> bool,
    safeRoot: string -> bool, token: string -> Option<string>, url: string -> Option<string>)

  predicate Clean(s: string) {
    Printable(s) && Trimmed(s)
  }

  /**
    Normalisers give non-empty clean values.  A token's is idempotent.  So is a URL's,
    but only on what it accepts: it bounds its argument, and its value can be longer,
    by a final slash or by percent-encoding.
   */
  ghost predicate Lawful(v: Values) {
    && (forall t :: v.token(t).Some? ==> v.token(t).value != "" && Clean(v.token(t).value) && v.token(v.token(t).value) == v.token(t))
    && (forall t :: v.url(t).Some? ==>
          && ByteLength(t) <= MAX_URL && v.url(t).value != "" && Clean(v.url(t).value)
          && (ByteLength(v.url(t).value) <= MAX_URL ==> v.url(v.url(t).value) == v.url(t)))
  }

  /** The normalised URL is one that the normaliser accepts. */
  predicate UrlFits(c: Section) {
    Get(c, "type") == "webdav" ==> ByteLength(Get(c, "url")) <= MAX_URL
  }

  // ----- reading -----

  datatype Reading = Reading(sections: map<string, Section>, current: Option<string>)

  predicate Ignored(t: string) {
    t == "" || t[0] == '#' || t[0] == ';'
  }

  predicate Heading(t: string) {
    |t| >= 2 && t[0] == '[' && t[|t| - 1] == ']'
  }

  /** One line; None is a refusal. */
  function ReadLine(r: Reading, line: string): Option<Reading> {
    var t := Trim(line);
    if Ignored(t) then Some(r)
    else if !Printable(t) then None
    else if Heading(t) then
      var name := t[1..|t| - 1];
      if !RemoteName(name) || name in r.sections || |r.sections| == 2 then None
      else Some(Reading(r.sections[name := map[]], Some(name)))
    else
      var i := Index(t, '=');
      if i == |t| || r.current.None? || r.current.value !in r.sections then None
      else
        var key, value := Trim(t[..i]), Trim(t[i + 1..]);
        var s := r.sections[r.current.value];
        if key in s then None else Some(r.(sections := r.sections[r.current.value := s[key := value]]))
  }

  function ReadLines(r: Reading, lines: seq<string>): Option<Reading> {
    if lines == [] then Some(r)
    else
      var before := ReadLines(r, lines[..|lines| - 1]);
      if before.None? then None else ReadLine(before.value, lines[|lines| - 1])
  }

  // ----- accepting -----

  const CRYPT_KEYS := {"type", "remote", "password", "password2", "filename_encryption", "directory_name_encryption"}
  const ONEDRIVE_KEYS := {"type", "token", "drive_id", "drive_type", "client_id", "client_secret", "region"}
  const DRIVE_KEYS := {"type", "token", "client_id", "client_secret", "scope", "root_folder_id", "team_drive"}
  const WEBDAV_KEYS := {"type", "url", "vendor", "user", "pass", "bearer_token"}

  predicate NoColon(s: string) {
    Index(s, ':') == |s|
  }

  predicate AcceptsCrypt(v: Values, c: Section) {
    && Get(c, "type") == "crypt" && c.Keys <= CRYPT_KEYS
    && v.obscured(Get(c, "password")) && (Get(c, "password2") == "" || v.obscured(Get(c, "password2")))
    && Get(c, "filename_encryption") in {"", "standard"} && Get(c, "directory_name_encryption") in {"", "true"}
  }

  function WithToken(v: Values, c: Section): Option<Section> {
    var t := v.token(Get(c, "token"));
    if t.Some? then Some(c["token" := t.value]) else None
  }

  function OneDrive(v: Values, c: Section): Option<Section> {
    if !(c.Keys <= ONEDRIVE_KEYS) || !v.drive(Get(c, "drive_id")) ||
       Get(c, "drive_type") !in {"personal", "business", "documentLibrary"} || Get(c, "region") !in {"", "global"} ||
       (Get(c, "client_id") != "" && !v.drive(Get(c, "client_id"))) || ByteLength(Get(c, "client_secret")) > 4096
    then None else WithToken(v, c["region" := "global"])
  }

  function GoogleDrive(v: Values, c: Section): Option<Section> {
    if !(c.Keys <= DRIVE_KEYS) || ByteLength(Get(c, "client_id")) > 256 || !v.googleClient(Get(c, "client_id")) ||
       Get(c, "client_secret") == "" || ByteLength(Get(c, "client_secret")) > 4096 ||
       (Get(c, "root_folder_id") == "" && Get(c, "team_drive") == "") || Get(c, "root_folder_id") == "root" || Get(c, "team_drive") == "root" ||
       (Get(c, "root_folder_id") != "" && !v.googleId(Get(c, "root_folder_id"))) ||
       (Get(c, "team_drive") != "" && !v.googleId(Get(c, "team_drive")))
    then None
    else
      var d := if Get(c, "scope") == "" then c["scope" := "drive"] else c;
      if Get(d, "scope") in {"drive", "drive.file"} then WithToken(v, d) else None
  }

  predicate BasicAuth(v: Values, c: Section) {
    Get(c, "user") != "" && ByteLength(Get(c, "user")) <= 1024 && NoColon(Get(c, "user")) && v.obscured(Get(c, "pass")) && Get(c, "bearer_token") == ""
  }

  predicate BearerAuth(c: Section) {
    Get(c, "user") == "" && Get(c, "pass") == "" && Get(c, "bearer_token") != "" && ByteLength(Get(c, "bearer_token")) <= 8192
  }

  function WebDav(v: Values, c: Section): Option<Section> {
    if !(c.Keys <= WEBDAV_KEYS) || Get(c, "vendor") !in {"", "other", "nextcloud", "owncloud", "fastmail", "rclone"} then None
    else
      var d := if Get(c, "vendor") == "" then c["vendor" := "other"] else c;
      var u := v.url(Get(d, "url"));
      if (!BasicAuth(v, d) && !BearerAuth(d)) || u.None? then None else Some(d["url" := u.value])
  }

  function Backend(v: Values, c: Section): Option<Section> {
    if Get(c, "type") == "onedrive" then OneDrive(v, c)
    else if Get(c, "type") == "drive" then GoogleDrive(v, c)
    else if Get(c, "type") == "webdav" then WebDav(v, c)
    else None
  }

  function Upstream(c: Section): string {
    Get(c, "remote")[..Index(Get(c, "remote"), ':')]
  }

  function Root(c: Section): Option<string> {
    var r := Get(c, "remote");
    var i := Index(r, ':');
    if i == |r| then None else Some(r[i + 1..])
  }

  function NormalCrypt(c: Section): Section {
    c["filename_encryption" := "standard"]["directory_name_encryption" := "true"]
  }

  /** The runtime's own socket must be there exactly as it was injected; it is no part of the configuration. */
  function WithoutSocket(c: Section, socket: string): Option<Section> {
    if socket == "" then Some(c)
    else if Get(c, "type") != "webdav" || Get(c, "unix_socket") != socket then None
    else Some(c - {"unix_socket"})
  }

  function Accept(v: Values, sections: map<string, Section>, remote: string, socket: string): Option<Config> {
    if |sections| != 2 || remote !in sections || !AcceptsCrypt(v, sections[remote]) then None
    else
      var crypt := NormalCrypt(sections[remote]);
      var up := Upstream(crypt);
      if Root(crypt).None? || up == remote || !v.safeRoot(Root(crypt).value) || up !in sections then None
      else
        var plain := WithoutSocket(sections[up], socket);
        if plain.None? then None
        else
          var cloud := Backend(v, plain.value);
          if cloud.None? then None else Some(Config(map[remote := crypt, up := cloud.value], remote))
  }

  function Parse(v: Values, raw: string, remote: string, socket: string): Option<Config> {
    if raw == "" || ByteLength(raw) > MAX_CONFIG || !RemoteName(remote) then None
    else
      var r := ReadLines(Reading(map[], None), Split(raw));
      if r.None? then None else Accept(v, r.value.sections, remote, socket)
  }

  // ----- printing -----

  /** The strings of a set in ascending order. */
  ghost function Ordered(s: set<string>): (r: seq<string>)
    ensures Ascending(r) && Elements(r) == s
  {
    OrderExists(s);
    var r :| Ascending(r) && Elements(r) == s;
    r
  }

  lemma {:induction false} OrderExists(s: set<string>)
    ensures exists r :: Ascending(r) && Elements(r) == s
  {
    if s == {} {
      assert Ascending([]) && Elements([]) == s;
    } else {
      var x :| x in s;
      OrderExists(s - {x});
      var r :| Ascending(r) && Elements(r) == s - {x};
      assert x in r ==> x in Elements(r);
      InsertAscending(x, r);
      assert Ascending(Insert(x, r)) && Elements(Insert(x, r)) == s;
    }
  }

  function Printed(s: Section): set<string> {
    set k | k in s && s[k] != ""
  }

  function KeyLine(key: string, value: string): string {
    key + " = " + value
  }

  /** The lines of the first n keys. */
  function KeyLines(s: Section, keys: seq<string>, n: nat): seq<string>
    requires n <= |keys|
  {
    if n == 0 then [] else KeyLines(s, keys, n - 1) + [KeyLine(keys[n - 1], Get(s, keys[n - 1]))]
  }

  ghost function SectionLines(name: string, s: Section): seq<string> {
    var keys := Ordered(Printed(s));
    ["[" + name + "]"] + KeyLines(s, keys, |keys|) + [""]
  }

  /** The lines of the first n sections. */
  ghost function AllLines(sections: map<string, Section>, names: seq<string>, n: nat): seq<string>
    requires n <= |names|
  {
    if n == 0 then []
    else AllLines(sections, names, n - 1) + SectionLines(names[n - 1], if names[n - 1] in sections then sections[names[n - 1]] else map[])
  }

  function Unlines(lines: seq<string>): string {
    if lines == [] then "" else lines[0] + "\n" + Unlines(lines[1..])
  }

  ghost function Print(c: Config): string {
    var names := Ordered(c.sections.Keys);
    Unlines(AllLines(c.sections, names, |names|))
  }

  function CloudName(c: Config): string {
    if c.remote in c.sections then Upstream(c.sections[c.remote]) else ""
  }

  function WithSocket(c: Config, socket: string): Config {
    var up := CloudName(c);
    if socket == "" || up !in c.sections then c else c.(sections := c.sections[up := c.sections[up]["unix_socket" := socket]])
  }

  // ----- the same configuration -----

  function Filled(s: Section): Section {
    map k | k in s && s[k] != "" :: s[k]
  }

  function FilledConfig(c: Config): Config {
    c.(sections := map n | n in c.sections :: Filled(c.sections[n]))
  }

  predicate OAuth(s: Section) {
    Get(s, "type") in {"onedrive", "drive"}
  }

  /** Keys that a replacement may change: the token always, other credentials when `replace`. */
  predicate Exempt(s: Section, key: string, replace: bool) {
    OAuth(s) && (key == "token" || (replace && key in {"client_id", "client_secret"}))
  }

  predicate PresenceOnly(s: Section, key: string, replace: bool) {
    replace && Get(s, "type") == "webdav" && key in {"pass", "bearer_token"}
  }

  predicate SameKey(s: Section, t: Section, key: string, replace: bool) {
    Exempt(s, key, replace) ||
    (if PresenceOnly(s, key, replace) then (Get(s, key) == "") == (Get(t, key) == "") else Get(s, key) == Get(t, key))
  }

  predicate SameSection(s: Section, t: Section, replace: bool) {
    forall key :: key in s.Keys + t.Keys ==> SameKey(s, t, key, replace)
  }

  predicate SameConfig(c: Config, d: Config, replace: bool) {
    c.remote == d.remote && |c.sections| == |d.sections| &&
    forall name :: name in c.sections ==> name in d.sections && SameSection(c.sections[name], d.sections[name], replace)
  }

  predicate SameExceptToken(c: Config, d: Config) {
    SameConfig(c, d, false)
  }

  predicate SameTarget(c: Config, d: Config) {
    SameConfig(c, d, true)
  }
}
