/**
 * The string operations of Rust's `str` that the keep's parsers are built
 * from: `split_once`, `rsplit_once`, `rsplit_terminator(..).next()`,
 * `replace` of one character, `trim_end_matches` of one character, and
 * `u16::from_str`. Strings are sequences of characters.
 */
module Text {
  import opened Wrappers

  /** The position of the first `c` in `s`. */
  function FirstIndex(s: string, c: char): (r: Option<nat>)
    ensures r.Some? ==> r.value < |s| && s[r.value] == c && c !in s[..r.value]
    ensures r.None? <==> c !in s
  {
    if |s| == 0 then None
    else if s[0] == c then Some(0)
    else
      match FirstIndex(s[1..], c)
      case None => None
      case Some(i) =>
        assert s[..i + 1] == [s[0]] + s[1..][..i];
        Some(i + 1)
  }

  /** The position of the last `c` in `s`. */
  function LastIndex(s: string, c: char): (r: Option<nat>)
    ensures r.Some? ==> r.value < |s| && s[r.value] == c && c !in s[r.value + 1..]
    ensures r.None? <==> c !in s
  {
    if |s| == 0 then None
    else if s[|s| - 1] == c then Some(|s| - 1)
    else
      match LastIndex(s[..|s| - 1], c)
      case None =>
        assert s == s[..|s| - 1] + [s[|s| - 1]];
        None
      case Some(i) =>
        assert s[i + 1..] == s[..|s| - 1][i + 1..] + [s[|s| - 1]];
        Some(i)
  }

  /** `s.split_once(c)`: the text before and after the FIRST `c`. */
  function SplitOnce(s: string, c: char): (r: Option<(string, string)>)
    ensures r.Some? ==> s == r.value.0 + [c] + r.value.1 && c !in r.value.0
    ensures r.None? <==> c !in s
  {
    match FirstIndex(s, c)
    case None => None
    case Some(i) =>
      assert s == s[..i] + [c] + s[i + 1..];
      Some((s[..i], s[i + 1..]))
  }

  /** `s.rsplit_once(c)`: the text before and after the LAST `c`. */
  function RSplitOnce(s: string, c: char): (r: Option<(string, string)>)
    ensures r.Some? ==> s == r.value.0 + [c] + r.value.1 && c !in r.value.1
    ensures r.None? <==> c !in s
  {
    match LastIndex(s, c)
    case None => None
    case Some(i) =>
      assert s == s[..i] + [c] + s[i + 1..];
      Some((s[..i], s[i + 1..]))
  }

  /** Splitting a joined string at the first separator recovers its parts. */
  lemma SplitOnceJoin(a: string, c: char, b: string)
    requires c !in a
    ensures SplitOnce(a + [c] + b, c) == Some((a, b))
  {
    var s := a + [c] + b;
    assert s[|a|] == c;
    var r := SplitOnce(s, c);
    var (x, y) := r.value;
    assert x == s[..|x|] == a;
    assert y == s[|a| + 1..] == b;
  }

  /** Splitting a joined string at the last separator recovers its parts. */
  lemma RSplitOnceJoin(a: string, c: char, b: string)
    requires c !in b
    ensures RSplitOnce(a + [c] + b, c) == Some((a, b))
  {
    var s := a + [c] + b;
    assert s[|a|] == c;
    var r := RSplitOnce(s, c);
    var (x, y) := r.value;
    assert x == s[..|x|] == a;
    assert y == s[|a| + 1..] == b;
  }

  /**
   * `path.rsplit_terminator('/').next()`: the text after the last `/`, once
   * a single trailing `/` is dropped. The empty path has no component; a
   * path ending in `//` has an empty one.
   */
  function LastComponent(path: string): (r: Option<string>)
    ensures r.None? <==> path == ""
    ensures r.Some? ==> '/' !in r.value
    ensures r.Some? ==> |r.value| + (if path[|path| - 1] == '/' then 1 else 0) <= |path|
    ensures r.Some? && path[|path| - 1] != '/' ==>
      path == path[..|path| - |r.value|] + r.value
      && (|r.value| == |path| || path[|path| - |r.value| - 1] == '/')
    ensures r.Some? && path[|path| - 1] == '/' ==>
      path == path[..|path| - |r.value| - 1] + r.value + "/"
      && (|r.value| + 1 == |path| || path[|path| - |r.value| - 2] == '/')
  {
    if path == "" then None
    else
      var p := if path[|path| - 1] == '/' then path[..|path| - 1] else path;
      match RSplitOnce(p, '/')
      case None => Some(p)
      case Some((_, last)) => Some(last)
  }

  /** A name without `/` is the last component of any directory path it is appended to. */
  lemma LastComponentOfJoin(prefix: string, name: string)
    requires prefix == [] || prefix[|prefix| - 1] == '/'
    requires '/' !in name && name != []
    ensures LastComponent(prefix + name) == Some(name)
  {
    var path := prefix + name;
    assert path[|path| - 1] == name[|name| - 1];
    if prefix != [] {
      var dir := prefix[..|prefix| - 1];
      assert path == dir + ['/'] + name;
      RSplitOnceJoin(dir, '/', name);
    } else {
      assert path == name;
    }
  }

  /**
   * `host:port` with the port in decimal: a single path component that splits
   * at its first `:` into the host and a port text that parses back to the port.
   */
  lemma HostPortText(host: string, port: nat)
    requires '/' !in host && ':' !in host && port <= U16_MAX
    ensures var addr := host + ":" + DecimalText(port);
      && '/' !in addr && addr != []
      && SplitOnce(addr, ':') == Some((host, DecimalText(port)))
      && ParseU16(DecimalText(port)) == Some(port)
  {
    var digits := DecimalText(port);
    assert forall i :: 0 <= i < |digits| ==> digits[i] != '/';
    assert host + ":" + digits == host + [':'] + digits;
    SplitOnceJoin(host, ':', digits);
    ParseU16RoundTrip(port);
  }

  /** `s.replace(from, [to])`: every `from` becomes `to`, nothing else changes. */
  function Replace(s: string, from: char, to: char): (r: string)
    ensures |r| == |s|
    ensures forall i :: 0 <= i < |s| ==> r[i] == if s[i] == from then to else s[i]
  {
    seq(|s|, i requires 0 <= i < |s| => if s[i] == from then to else s[i])
  }

  /** `s.trim_end_matches(c)`: `s` without its trailing run of `c`. */
  function TrimEnd(s: string, c: char): (r: string)
    ensures r <= s
    ensures r == [] || r[|r| - 1] != c
    ensures forall k :: |r| <= k < |s| ==> s[k] == c
  {
    if |s| > 0 && s[|s| - 1] == c then TrimEnd(s[..|s| - 1], c) else s
  }

  predicate IsDigit(ch: char) {
    '0' <= ch <= '9'
  }

  /** The value of a string of decimal digits. */
  function DecimalValue(ds: string): (v: nat)
    requires forall i :: 0 <= i < |ds| ==> IsDigit(ds[i])
  {
    if ds == [] then 0
    else
      assert IsDigit(ds[|ds| - 1]);
      10 * DecimalValue(ds[..|ds| - 1]) + (ds[|ds| - 1] as int - '0' as int)
  }

  const U16_MAX: nat := 65535

  predicate AllDigits(ds: string) {
    forall i :: 0 <= i < |ds| ==> IsDigit(ds[i])
  }

  /** A numeral without its one optional leading `+`. */
  function Unsigned(s: string): (ds: string)
    ensures s == ds || s == ['+'] + ds
  {
    if |s| > 0 && s[0] == '+' then s[1..] else s
  }

  /**
   * `s.parse::<u16>()`: an optional `+`, then one or more decimal digits
   * whose value fits in 16 bits.
   */
  function ParseU16(s: string): (r: Option<nat>)
    ensures r.Some? <==>
      Unsigned(s) != [] && AllDigits(Unsigned(s)) && DecimalValue(Unsigned(s)) <= U16_MAX
    ensures r.Some? ==> r.value == DecimalValue(Unsigned(s)) && r.value <= U16_MAX
    ensures r.Some? ==> s != [] && s != "+"
    ensures r.Some? ==> forall i :: 0 <= i < |s| ==> IsDigit(s[i]) || (i == 0 && s[i] == '+')
  {
    var ds := Unsigned(s);
    if ds == [] then None
    else if exists i :: 0 <= i < |ds| && !IsDigit(ds[i]) then None
    else
      var v := DecimalValue(ds);
      if v <= U16_MAX then Some(v) else None
  }

  /** The decimal text of a number, without sign or leading zeros. */
  function DecimalText(n: nat): (ds: string)
    ensures ds != []
    ensures forall i :: 0 <= i < |ds| ==> IsDigit(ds[i])
  {
    var d := ['0' + (n % 10) as char];
    if n < 10 then d else DecimalText(n / 10) + d
  }

  lemma {:induction false} DecimalRoundTrip(n: nat)
    ensures DecimalValue(DecimalText(n)) == n
  {
    var d := ['0' + (n % 10) as char];
    if n >= 10 {
      DecimalRoundTrip(n / 10);
      assert DecimalText(n)[..|DecimalText(n)| - 1] == DecimalText(n / 10);
    }
  }

  /** Every port number printed in decimal parses back to itself. */
  lemma ParseU16RoundTrip(n: nat)
    requires n <= U16_MAX
    ensures ParseU16(DecimalText(n)) == Some(n)
  {
    DecimalRoundTrip(n);
  }
}
