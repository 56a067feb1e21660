/**
 * The parts of Go's standard library whose behaviour the core depends on:
 * byte search, net.SplitHostPort, strconv.Atoi on a 64-bit platform,
 * and the scheme of a URL as url.Parse finds it (abstracted
 * to "the non-empty text before the first ://").
 */
module GoLib {
  import opened Types

  /** Index of the first `c` in `s`, or -1 (bytealg.IndexByteString). */
  function IndexOf(s: string, c: char): (r: int)
    ensures -1 <= r < |s|
    ensures r >= 0 ==> s[r] == c && c !in s[..r]
    ensures r < 0 ==> c !in s
  {
    if |s| == 0 then -1
    else if s[0] == c then 0
    else
      var k := IndexOf(s[1..], c);
      if k < 0 then -1
      else
        assert s[..k + 1] == [s[0]] + s[1..][..k];
        k + 1
  }

  /** Index of the last `c` in `s`, or -1 (bytealg.LastIndexByteString). */
  function LastIndexOf(s: string, c: char): (r: int)
    ensures -1 <= r < |s|
    ensures r >= 0 ==> s[r] == c && c !in s[r + 1..]
    ensures r < 0 ==> c !in s
  {
    if |s| == 0 then -1
    else if s[|s| - 1] == c then |s| - 1
    else
      var k := LastIndexOf(s[..|s| - 1], c);
      assert k >= 0 ==> s[k + 1..] == s[..|s| - 1][k + 1..] + [s[|s| - 1]];
      k
  }

  const MissingPort := "missing port in address"
  const TooManyColons := "too many colons in address"
  const MissingBracket := "missing ']' in address"
  const UnexpectedOpen := "unexpected '[' in address"
  const UnexpectedClose := "unexpected ']' in address"

  /**
   * net.SplitHostPort: the port is the text after the last colon; a host in
   * square brackets may contain colons, an unbracketed one may not, and no
   * stray bracket may appear.  The error is the reason Go reports.
   */
  function SplitHostPort(hostport: string): Result<(string, string), string>
  {
    var i := LastIndexOf(hostport, ':');
    if i < 0 then Err(MissingPort)
    else if hostport[0] == '[' then
      var end := IndexOf(hostport, ']');
      if end < 0 then Err(MissingBracket)
      else if end + 1 == |hostport| then Err(MissingPort)
      else if end + 1 != i then
        (if hostport[end + 1] == ':' then Err(TooManyColons) else Err(MissingPort))
      else if '[' in hostport[1..] then Err(UnexpectedOpen)
      else if ']' in hostport[end + 1..] then Err(UnexpectedClose)
      else Ok((hostport[1..end], hostport[i + 1..]))
    else
      var host := hostport[..i];
      if ':' in host then Err(TooManyColons)
      else if '[' in hostport then Err(UnexpectedOpen)
      else if ']' in hostport then Err(UnexpectedClose)
      else Ok((host, hostport[i + 1..]))
  }

  /** What SplitHostPort guarantees about the two parts it returns. */
  lemma SplitHostPortParts(hostport: string)
    requires SplitHostPort(hostport).Ok?
    ensures var (host, port) := SplitHostPort(hostport).value;
      && ':' !in port && '[' !in port && ']' !in port
      && '[' !in host && ']' !in host
      && |host| + |port| < |hostport|
  {
    var i := LastIndexOf(hostport, ':');
    var (host, port) := SplitHostPort(hostport).value;
    assert port == hostport[i + 1..];
    if hostport[0] == '[' {
      var end := IndexOf(hostport, ']');
      assert host == hostport[1..][..end - 1];
      assert port == hostport[end + 1..][1..];
    } else {
      assert port == hostport[i + 1..];
    }
  }

  /** SplitHostPort on a bracketed address whose closing bracket is followed by the last colon. */
  lemma BracketedCase(hp: string, end: nat)
    requires end + 1 < |hp| && hp[0] == '['
    requires LastIndexOf(hp, ':') == end + 1 && IndexOf(hp, ']') == end
    requires '[' !in hp[1..] && ']' !in hp[end + 1..]
    ensures SplitHostPort(hp) == Ok((hp[1..end], hp[end + 2..]))
  {
  }

  /**
   * A host and port joined by a single colon, as the listen address is
   * rebuilt, split back into both parts when neither holds a colon or a
   * bracket.
   */
  lemma SplitConcatenated(host: string, port: string)
    requires ':' !in host && '[' !in host && ']' !in host
    requires ':' !in port && '[' !in port && ']' !in port
    ensures SplitHostPort(host + ":" + port) == Ok((host, port))
  {
    var hp := host + ":" + port;
    LastIndexAfter(hp, |host|, ':');
    assert hp[..|host|] == host;
    assert hp[|host| + 1..] == port;
    assert hp == hp[..|host|] + [':'] + hp[|host| + 1..];
  }

  /** SplitHostPort on an unbracketed address with a colon before its last one. */
  lemma ColonInHostCase(hp: string, i: nat)
    requires i < |hp| && hp[0] != '[' && LastIndexOf(hp, ':') == i && ':' in hp[..i]
    ensures SplitHostPort(hp) == Err(TooManyColons)
  {
  }

  /** `i` is the last occurrence of `c` when nothing after it is `c`. */
  lemma LastIndexAfter(s: string, i: nat, c: char)
    requires i < |s| && s[i] == c && c !in s[i + 1..]
    ensures LastIndexOf(s, c) == i
  {
  }

  /** `i` is the first occurrence of `c` when nothing before it is `c`. */
  lemma FirstIndexBefore(s: string, i: nat, c: char)
    requires i < |s| && s[i] == c && c !in s[..i]
    ensures IndexOf(s, c) == i
  {
  }

  const MinInt64 := -0x8000_0000_0000_0000
  const MaxInt64 := 0x7fff_ffff_ffff_ffff

  predicate IsDigit(c: char) {
    '0' <= c <= '9'
  }

  predicate AllDigits(s: string) {
    forall i :: 0 <= i < |s| ==> IsDigit(s[i])
  }

  /** The value of a string of decimal digits. */
  function DecimalValue(ds: string): nat
    requires AllDigits(ds)
  {
    if |ds| == 0 then 0
    else DecimalValue(ds[..|ds| - 1]) * 10 + (ds[|ds| - 1] as int - '0' as int)
  }

  /**
   * strconv.Atoi with 64-bit int: an optional sign followed by at least one
   * decimal digit, the value within the int64 range; None is Atoi's error.
   */
  function Atoi(s: string): (r: Option<int>)
    ensures r.Some? ==> MinInt64 <= r.value <= MaxInt64
  {
    if |s| == 0 then None
    else
      var negative := s[0] == '-';
      var digits := if s[0] == '-' || s[0] == '+' then s[1..] else s;
      if |digits| == 0 || !AllDigits(digits) then None
      else
        var n: int := DecimalValue(digits);
        var v := if negative then -n else n;
        if v < MinInt64 || v > MaxInt64 then None else Some(v)
  }

  /** Whether the separator "://" starts at index `k` of `u`. */
  predicate SeparatorAt(u: string, k: int) {
    0 <= k && k + 3 <= |u| && u[k] == ':' && u[k + 1] == '/' && u[k + 2] == '/'
  }

  /** The index of the first "://" in `u`, if any. */
  function SeparatorIndex(u: string): (r: Option<nat>)
    ensures r.Some? ==> SeparatorAt(u, r.value)
    ensures r.Some? ==> forall k :: 0 <= k < r.value ==> !SeparatorAt(u, k)
    ensures r.None? ==> forall k :: 0 <= k < |u| ==> !SeparatorAt(u, k)
  {
    if |u| < 3 then None
    else if SeparatorAt(u, 0) then Some(0)
    else
      match SeparatorIndex(u[1..])
      case None =>
        assert forall k :: 1 <= k < |u| ==> SeparatorAt(u, k) == SeparatorAt(u[1..], k - 1);
        None
      case Some(k) =>
        assert forall j :: 1 <= j < |u| ==> SeparatorAt(u, j) == SeparatorAt(u[1..], j - 1);
        Some(k + 1)
  }

  /**
   * The scheme of a URL and the text after "://", or None where url.Parse
   * fails: the scheme is the non-empty text before the first "://".
   */
  function SplitScheme(u: string): Option<(string, string)>
  {
    match SeparatorIndex(u)
    case None => None
    case Some(k) => if k == 0 then None else Some((u[..k], u[k + 3..]))
  }

  /** A scheme without a colon is recovered from `scheme + "://" + rest`. */
  lemma SplitSchemeOfJoin(scheme: string, rest: string)
    requires scheme != "" && ':' !in scheme
    ensures SplitScheme(scheme + "://" + rest) == Some((scheme, rest))
  {
    var u := scheme + "://" + rest;
    assert SeparatorAt(u, |scheme|);
    forall k | 0 <= k < |scheme|
      ensures !SeparatorAt(u, k)
    {
      assert u[k] == scheme[k];
    }
    var r := SeparatorIndex(u);
    assert r == Some(|scheme|);
    assert u[..|scheme|] == scheme;
    assert u[|scheme| + 3..] == rest;
  }

  /** Text appended after the scheme separator stays after it. */
  lemma SplitSchemeAppend(u: string, tail: string)
    requires SplitScheme(u).Some?
    ensures SplitScheme(u + tail) == Some((SplitScheme(u).value.0, SplitScheme(u).value.1 + tail))
  {
    var k := SeparatorIndex(u).value;
    var v := u + tail;
    assert SeparatorAt(v, k);
    forall j | 0 <= j < k
      ensures !SeparatorAt(v, j)
    {
      assert !SeparatorAt(u, j);
    }
    assert SeparatorIndex(v) == Some(k);
    assert v[..k] == u[..k];
    assert v[k + 3..] == u[k + 3..] + tail;
  }
}
