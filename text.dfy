/**
 * String handling shared by the Go and the Rust code: trimming a set of
 * characters from both ends, splitting output into lines, and decimal
 * numerals.
 */
module Text {
  import opened Wrappers

  /** Unicode White_Space: what Go's `strings.TrimSpace` and Rust's `str::trim` remove. */
  const WhiteSpace: set<char> := {
    '\t', '\n', '\U{0B}', '\U{0C}', '\r', ' ', '\U{85}', '\U{A0}', '\U{1680}',
    '\U{2000}', '\U{2001}', '\U{2002}', '\U{2003}', '\U{2004}', '\U{2005}',
    '\U{2006}', '\U{2007}', '\U{2008}', '\U{2009}', '\U{200A}',
    '\U{2028}', '\U{2029}', '\U{202F}', '\U{205F}', '\U{3000}'
  }

  /** `s` without its leading characters from `cut`. */
  function TrimStart(s: string, cut: set<char>): string {
    if s != [] && s[0] in cut then TrimStart(s[1..], cut) else s
  }

  /** `s` without its trailing characters from `cut`. */
  function TrimEnd(s: string, cut: set<char>): string {
    if s != [] && s[|s| - 1] in cut then TrimEnd(s[..|s| - 1], cut) else s
  }

  /** Trimming the start drops a run of characters of `cut` and stops at the first other one. */
  lemma {:induction false} TrimStartSuffix(s: string, cut: set<char>)
    ensures |TrimStart(s, cut)| <= |s| && TrimStart(s, cut) == s[|s| - |TrimStart(s, cut)|..]
    ensures TrimStart(s, cut) != [] ==> TrimStart(s, cut)[0] !in cut
    ensures forall i :: 0 <= i < |s| - |TrimStart(s, cut)| ==> s[i] in cut
  {
    if s != [] && s[0] in cut {
      TrimStartSuffix(s[1..], cut);
    }
  }

  /** Trimming the end drops a run of characters of `cut` and stops at the last other one. */
  lemma {:induction false} TrimEndPrefix(s: string, cut: set<char>)
    ensures TrimEnd(s, cut) <= s
    ensures TrimEnd(s, cut) != [] ==> TrimEnd(s, cut)[|TrimEnd(s, cut)| - 1] !in cut
    ensures forall i :: |TrimEnd(s, cut)| <= i < |s| ==> s[i] in cut
  {
    if s != [] && s[|s| - 1] in cut {
      TrimEndPrefix(s[..|s| - 1], cut);
    }
  }

  /** Go's `strings.Trim(s, cutset)`; with `WhiteSpace`, Go's `TrimSpace` and Rust's `trim`. */
  function Trim(s: string, cut: set<char>): string {
    TrimEnd(TrimStart(s, cut), cut)
  }

  /** The trimmed string has neither a leading nor a trailing character of `cut`. */
  lemma TrimEnds(s: string, cut: set<char>)
    ensures Trim(s, cut) != [] ==> Trim(s, cut)[0] !in cut && Trim(s, cut)[|Trim(s, cut)| - 1] !in cut
  {
    var u := TrimStart(s, cut);
    var r := TrimEnd(u, cut);
    TrimStartSuffix(s, cut);
    TrimEndPrefix(u, cut);
    if r != [] {
      assert r[0] == u[0];
    }
  }

  /** Appending to a string whose trimmed start is non-empty keeps that start. */
  lemma {:induction false} TrimStartAppend(s: string, t: string, cut: set<char>)
    requires TrimStart(s, cut) != []
    ensures TrimStart(s + t, cut) == TrimStart(s, cut) + t
  {
    if s[0] in cut {
      assert (s + t)[1..] == s[1..] + t;
      TrimStartAppend(s[1..], t, cut);
    }
  }

  /** Trimming the end of a longer string never loses what trimming the shorter one kept. */
  lemma {:induction false} TrimEndAppend(u: string, t: string, cut: set<char>)
    ensures TrimEnd(u, cut) <= TrimEnd(u + t, cut)
    decreases |t|
  {
    if t == [] {
      assert u + t == u;
    } else if t[|t| - 1] in cut {
      assert (u + t)[..|u + t| - 1] == u + t[..|t| - 1];
      TrimEndAppend(u, t[..|t| - 1], cut);
    } else {
      assert TrimEnd(u + t, cut) == u + t;
      TrimEndPrefix(u, cut);
    }
  }

  /** A non-empty trimmed text is a prefix of the trimmed text of every extension of it. */
  lemma TrimExtends(b: string, t: string, cut: set<char>)
    requires Trim(b, cut) != []
    ensures Trim(b, cut) <= Trim(b + t, cut)
  {
    TrimStartAppend(b, t, cut);
    TrimEndAppend(TrimStart(b, cut), t, cut);
  }

  /** A kept character followed only by trimmed ones ends the trimmed text. */
  lemma TrimKeepsKeptChar(s: string, c: char, t: string, cut: set<char>)
    requires c !in cut
    requires forall i :: 0 <= i < |t| ==> t[i] in cut
    ensures Trim(s + [c] + t, cut) != []
    ensures Trim(s + [c] + t, cut)[|Trim(s + [c] + t, cut)| - 1] == c
  {
    var line := s + [c] + t;
    var u := TrimStart(line, cut);
    TrimStartSuffix(line, cut);
    assert line[|s|] == c;
    assert |line| - |u| <= |s|;
    assert u == line[|line| - |u|..];
    var k := |u| - |t| - 1;
    assert u[k] == c;
    assert u[k + 1..] == t;
    TrimEndSkips(u, k, cut);
  }

  /** Trimming the end stops at the last kept character. */
  lemma {:induction false} TrimEndSkips(u: string, k: nat, cut: set<char>)
    requires k < |u| && u[k] !in cut
    requires forall i :: k < i < |u| ==> u[i] in cut
    ensures TrimEnd(u, cut) == u[..k + 1]
    decreases |u|
  {
    if k + 1 < |u| {
      assert u[|u| - 1] in cut;
      TrimEndSkips(u[..|u| - 1], k, cut);
      assert u[..|u| - 1][..k + 1] == u[..k + 1];
    } else {
      assert u[..k + 1] == u;
    }
  }

  /** Rust's `w.starts_with(t)`: `t` is a prefix of `w`. */
  predicate StartsWith(w: string, t: string) {
    t == [] || (w != [] && t[0] == w[0] && StartsWith(w[1..], t[1..]))
  }

  /** `starts_with` is Dafny's prefix order. */
  lemma {:induction false} StartsWithIsPrefix(w: string, t: string)
    ensures StartsWith(w, t) <==> t <= w
  {
    if t != [] && w != [] {
      StartsWithIsPrefix(w[1..], t[1..]);
      if t[1..] <= w[1..] && t[0] == w[0] {
        assert t == [t[0]] + t[1..] && w == [w[0]] + w[1..];
      }
    }
  }

  /** Go's `strings.Split(s, "\n")`: never empty, and `[""]` for the empty string. */
  function SplitLines(s: string): (r: seq<string>)
    ensures |r| >= 1
    ensures forall i :: 0 <= i < |r| ==> '\n' !in r[i]
    ensures s != [] && s[0] != '\n' ==> r[0] != [] && r[0][0] == s[0]
  {
    if s == [] then [""]
    else
      var rest := SplitLines(s[1..]);
      if s[0] == '\n' then [""] + rest
      else [[s[0]] + rest[0]] + rest[1..]
  }

  /** Go's `strings.Join(lines, "\n")`. */
  function JoinLines(lines: seq<string>): string
    requires |lines| >= 1
  {
    if |lines| == 1 then lines[0] else lines[0] + "\n" + JoinLines(lines[1..])
  }

  /** Joining the split lines gives back the text. */
  lemma {:induction false} JoinSplitLines(s: string)
    ensures JoinLines(SplitLines(s)) == s
  {
    if s != [] {
      var rest := SplitLines(s[1..]);
      JoinSplitLines(s[1..]);
      if s[0] == '\n' {
        assert SplitLines(s)[1..] == rest;
      } else {
        var r := SplitLines(s);
        assert r[0] == [s[0]] + rest[0];
        if |rest| == 1 {
          assert JoinLines(r) == [s[0]] + rest[0];
        } else {
          assert r[1..] == rest[1..];
          assert JoinLines(r) == [s[0]] + rest[0] + "\n" + JoinLines(rest[1..]);
        }
      }
    }
  }

  predicate IsDigit(c: char) {
    '0' <= c <= '9'
  }

  predicate AllDigits(s: string) {
    forall i :: 0 <= i < |s| ==> IsDigit(s[i])
  }

  function DigitChar(d: nat): (c: char)
    requires d < 10
    ensures IsDigit(c) && c as int - '0' as int == d
  {
    (d + '0' as int) as char
  }

  /** The decimal numeral of `n`, as Go's `%d` and Rust's `{}` print it. */
  function NatToString(n: nat): (s: string)
    ensures s != [] && AllDigits(s)
    decreases n
  {
    if n < 10 then [DigitChar(n)] else NatToString(n / 10) + [DigitChar(n % 10)]
  }

  /** The value of a string of digits. */
  function DigitsValue(s: string): nat
    requires AllDigits(s)
  {
    if s == [] then 0
    else DigitsValue(s[..|s| - 1]) * 10 + (s[|s| - 1] as int - '0' as int)
  }

  /** The number a decimal numeral denotes; None for anything else. */
  function ParseNat(s: string): (r: Option<nat>)
    ensures r.Some? <==> s != [] && AllDigits(s)
  {
    if s != [] && AllDigits(s) then Some(DigitsValue(s)) else None
  }

  /** Reading back a printed number gives the number. */
  lemma {:induction false} ParseNatToString(n: nat)
    ensures ParseNat(NatToString(n)) == Some(n)
    decreases n
  {
    var s := NatToString(n);
    if n < 10 {
      assert s[..|s| - 1] == [];
    } else {
      ParseNatToString(n / 10);
      assert s[..|s| - 1] == NatToString(n / 10);
      assert DigitsValue(s) == DigitsValue(NatToString(n / 10)) * 10 + n % 10;
    }
  }

  /** The position of the first `c` in `s`, or `|s|` when there is none. */
  function IndexOf(s: string, c: char): (i: nat)
    ensures i <= |s|
    ensures i < |s| ==> s[i] == c
    ensures forall j :: 0 <= j < i ==> s[j] != c
  {
    if s == [] then 0
    else if s[0] == c then 0
    else 1 + IndexOf(s[1..], c)
  }

  /** Reads "<a>:<b>" with two decimal numerals. */
  function ParseIdPair(s: string): Option<(nat, nat)> {
    var i := IndexOf(s, ':');
    if i == |s| then None
    else
      match (ParseNat(s[..i]), ParseNat(s[i + 1..]))
      case (Some(a), Some(b)) => Some((a, b))
      case _ => None
  }

  /** A pair printed as "<a>:<b>" reads back as that pair. */
  lemma IdPairRoundTrip(a: nat, b: nat)
    ensures ParseIdPair(NatToString(a) + ":" + NatToString(b)) == Some((a, b))
  {
    var sa, sb := NatToString(a), NatToString(b);
    var s := sa + ":" + sb;
    assert forall j :: 0 <= j < |sa| ==> s[j] == sa[j];
    assert s[|sa|] == ':';
    assert IndexOf(s, ':') == |sa|;
    assert s[..|sa|] == sa;
    assert s[|sa| + 1..] == sb;
    ParseNatToString(a);
    ParseNatToString(b);
  }
}
