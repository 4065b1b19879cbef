/** The characters, trimming and cutting that the configuration parser uses. */
module RcloneText {
  predicate IsControl(c: char) {
    var n := c as int;
    n < 0x20 || 0x7f <= n < 0xa0
  }

  predicate IsSpace(c: char) {
    var n := c as int;
    (9 <= n <= 13) || n == 0x20 || n == 0x85 || n == 0xa0 || n == 0x1680 || (0x2000 <= n <= 0x200a) ||
    n == 0x2028 || n == 0x2029 || n == 0x202f || n == 0x205f || n == 0x3000
  }

  predicate Printable(s: string) {
    forall i :: 0 <= i < |s| ==> !IsControl(s[i])
  }

  predicate Trimmed(s: string) {
    s == "" || (!IsSpace(s[0]) && !IsSpace(s[|s| - 1]))
  }

  function TrimLeft(s: string): (r: string)
    ensures r == "" || !IsSpace(r[0])
    ensures |r| <= |s| && r == s[|s| - |r|..]
  {
    if s != "" && IsSpace(s[0]) then TrimLeft(s[1..]) else s
  }

  function TrimRight(s: string): (r: string)
    ensures r == "" || !IsSpace(r[|r| - 1])
    ensures r <= s
  {
    if s != "" && IsSpace(s[|s| - 1]) then TrimRight(s[..|s| - 1]) else s
  }

  function Trim(s: string): (r: string)
    ensures Trimmed(r)
    ensures Printable(s) ==> Printable(r)
  {
    var l := TrimLeft(s);
    assert TrimRight(l) != "" ==> TrimRight(l)[0] == l[0];
    TrimRight(l)
  }

  lemma TrimSpaceBefore(s: string)
    requires Trimmed(s)
    ensures Trim(" " + s) == s
  {
    assert IsSpace(' ') && (" " + s)[0] == ' ' && (" " + s)[1..] == s;
    assert TrimLeft(" " + s) == TrimLeft(s) == s;
  }

  lemma TrimSpaceAfter(s: string)
    requires Trimmed(s) && s != ""
    ensures Trim(s + " ") == s
  {
    assert IsSpace(' ') && (s + " ")[|s|] == ' ' && (s + " ")[..|s|] == s;
    assert TrimLeft(s + " ") == s + " ";
    assert TrimRight(s + " ") == TrimRight(s) == s;
  }

  /** The position of the first `c`, or the length. */
  function Index(s: string, c: char): (i: nat)
    ensures i <= |s| && (i < |s| ==> s[i] == c) && forall j :: 0 <= j < i ==> s[j] != c
  {
    if s == "" || s[0] == c then 0 else 1 + Index(s[1..], c)
  }

  lemma IndexAt(s: string, c: char, i: nat)
    requires i < |s| && s[i] == c && forall j :: 0 <= j < i ==> s[j] != c
    ensures Index(s, c) == i
  {
  }

  predicate Letter(c: char) {
    'A' <= c <= 'Z' || 'a' <= c <= 'z'
  }

  predicate Word(c: char) {
    Letter(c) || '0' <= c <= '9' || c == '_' || c == '-'
  }

  /** A section name: a letter and one to sixty-three more word characters. */
  predicate RemoteName(s: string) {
    2 <= |s| <= 64 && Letter(s[0]) && forall i :: 0 <= i < |s| ==> Word(s[i])
  }

  /** Bytes of one character in UTF-8. */
  function Width(c: char): nat {
    var n := c as int;
    if n < 0x80 then 1 else if n < 0x800 then 2 else if n < 0x10000 then 3 else 4
  }

  function ByteLength(s: string): nat {
    if s == "" then 0 else ByteLength(s[..|s| - 1]) + Width(s[|s| - 1])
  }
}
