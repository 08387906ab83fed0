/**
  The per-line test of `is_vps_in_hosts`: `re.search(f'^{ip}[ \t]+{hostname}$', line)`.

  The address and the host name are interpolated without escaping, so each '.' in them is
  the regular-expression wildcard (any character but a newline); every other character is
  taken literally. Both pieces therefore match exactly as many characters as they have, which
  fixes the split of a line: the address at the front, the host name at the end, and at least
  one space or tab between them. Without MULTILINE, `$` matches at the end of the text or just
  before a newline that ends it, so a line read from the file may keep its '\n'.
 */
module HostsLine {

  predicate CharMatches(p: char, c: char) {
    if p == '.' then c != '\n' else c == p
  }

  /** An interpolated piece of the pattern against a piece of text. */
  predicate PieceMatches(p: string, t: string) {
    |p| == |t| && forall k :: 0 <= k < |p| ==> CharMatches(p[k], t[k])
  }

  predicate IsBlank(c: char) { c == ' ' || c == '\t' }

  /** The whole of b is ip, then `[ \t]+`, then hostname. */
  predicate MatchesBody(ip: string, hostname: string, b: string) {
    && |ip| + 1 + |hostname| <= |b|
    && PieceMatches(ip, b[..|ip|])
    && (forall k :: |ip| <= k < |b| - |hostname| ==> IsBlank(b[k]))
    && PieceMatches(hostname, b[|b| - |hostname|..])
  }

  /** `^ip[ \t]+hostname$` finds a match in line. */
  predicate LineMatches(ip: string, hostname: string, line: string) {
    || MatchesBody(ip, hostname, line)
    || (line != [] && line[|line| - 1] == '\n' && MatchesBody(ip, hostname, line[..|line| - 1]))
  }

  /** The line "ip, blanks, hostname", with or without its newline, is found. */
  lemma ExactLineMatches(ip: string, hostname: string, blanks: string, eol: string)
    requires blanks != [] && forall k :: 0 <= k < |blanks| ==> IsBlank(blanks[k])
    requires eol == "" || eol == "\n"
    ensures LineMatches(ip, hostname, ip + blanks + hostname + eol)
  {
    var b := ip + blanks + hostname;
    assert b[..|ip|] == ip;
    assert b[|b| - |hostname|..] == hostname;
    assert forall k :: |ip| <= k < |b| - |hostname| ==> b[k] == blanks[k - |ip|];
    assert MatchesBody(ip, hostname, b);
    if eol == "\n" {
      assert (b + eol)[..|b + eol| - 1] == b;
    } else {
      assert b + eol == b;
    }
  }

  /**
    A host name that is only a prefix of the last name on the line is not found:
    "vm1" is not found on the line "10.0.0.5 vm10".
   */
  lemma PrefixOfNameDoesNotMatch(ip: string, hostname: string, blanks: string, tail: string, eol: string)
    requires hostname != [] && !IsBlank(hostname[0]) && '\n' !in hostname
    requires tail != [] && '\n' !in tail
    requires eol == "" || eol == "\n"
    ensures !LineMatches(ip, hostname, ip + blanks + hostname + tail + eol)
  {
    var b := ip + blanks + hostname + tail;
    var k0 := |ip| + |blanks|;
    assert b[k0] == hostname[0];
    assert !MatchesBody(ip, hostname, b);
    var line := b + eol;
    if eol == "" {
      assert line == b;
      assert line[|line| - 1] == tail[|tail| - 1];
    } else {
      assert line[..|line| - 1] == b;
      var last := |hostname| - 1;
      assert line[|line| - |hostname|..][last] == '\n';
      assert !CharMatches(hostname[last], '\n');
    }
  }

  /** The address is not escaped: each '.' in it accepts any character on the line. */
  lemma DotInAddressIsWildcard()
    ensures LineMatches("10.0.0.5", "vm1", "10x0y0z5 vm1\n")
  {
    ExactLineMatchesWith("10.0.0.5", "10x0y0z5", "vm1", " ");
  }

  lemma ExactLineMatchesWith(ip: string, text: string, hostname: string, blanks: string)
    requires PieceMatches(ip, text)
    requires blanks != [] && forall k :: 0 <= k < |blanks| ==> IsBlank(blanks[k])
    ensures LineMatches(ip, hostname, text + blanks + hostname + "\n")
  {
    var b := text + blanks + hostname;
    assert b[..|ip|] == text;
    assert b[|b| - |hostname|..] == hostname;
    assert forall k :: |ip| <= k < |b| - |hostname| ==> b[k] == blanks[k - |ip|];
    assert (b + "\n")[..|b + "\n"| - 1] == b;
  }
}
