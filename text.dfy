/** The few JavaScript string operations the core relies on: `split` and `join`
    on a one-character separator, and the decimal rendering of a line number
    (template literal `${k}`). Strings are sequences of characters. */
module Text {

  /** Index of the first occurrence of `c` in `s` (`s.indexOf(c)` when found). */
  function IndexOf(s: string, c: char): (k: nat)
    requires c in s
    ensures k < |s| && s[k] == c && c !in s[..k]
  {
    if s[0] == c then 0 else 1 + IndexOf(s[1..], c)
  }

  /** Index of the last occurrence of `c` in `s` (`s.lastIndexOf(c)` when found). */
  function LastIndexOf(s: string, c: char): (k: nat)
    requires c in s
    ensures k < |s| && s[k] == c && c !in s[k + 1..]
  {
    if s[|s| - 1] == c then |s| - 1
    else
      assert s == s[..|s| - 1] + [s[|s| - 1]];
      LastIndexOf(s[..|s| - 1], c)
  }

  /** An occurrence of `c` with no `c` after it is the last one. */
  lemma LastIndexOfUnique(s: string, c: char, k: nat)
    requires k < |s| && s[k] == c && c !in s[k + 1..]
    ensures c in s && LastIndexOf(s, c) == k
  {
  }

  /** The first separator of `p + [sep] + r` sits right after `p` when `p` has none. */
  lemma {:induction false} IndexOfAfterPrefix(p: string, sep: char, r: string)
    requires sep !in p
    ensures sep in p + [sep] + r && IndexOf(p + [sep] + r, sep) == |p|
  {
    var s := p + [sep] + r;
    assert s[|p|] == sep;
    if p != [] {
      assert s[1..] == p[1..] + [sep] + r;
      IndexOfAfterPrefix(p[1..], sep, r);
    }
  }

  /** `s.split(sep)`: the pieces between separators, in order. There is always
      at least one piece, and no piece contains the separator. */
  function Split(s: string, sep: char): (parts: seq<string>)
    ensures |parts| >= 1
    decreases |s|
  {
    if sep in s then
      var k := IndexOf(s, sep);
      [s[..k]] + Split(s[k + 1..], sep)
    else
      [s]
  }

  /** No piece of a split contains the separator. */
  lemma {:induction false} SplitPiecesFree(s: string, sep: char)
    ensures forall i :: 0 <= i < |Split(s, sep)| ==> sep !in Split(s, sep)[i]
    decreases |s|
  {
    if sep in s {
      var k := IndexOf(s, sep);
      SplitPiecesFree(s[k + 1..], sep);
    }
  }

  /** `parts.join(sep)`; the empty list joins to the empty string. */
  function Join(parts: seq<string>, sep: char): string
  {
    if |parts| == 0 then ""
    else if |parts| == 1 then parts[0]
    else parts[0] + [sep] + Join(parts[1..], sep)
  }

  /** Splitting and joining on the same separator gives the string back. */
  lemma {:induction false} JoinSplit(s: string, sep: char)
    ensures Join(Split(s, sep), sep) == s
    decreases |s|
  {
    if sep in s {
      var k := IndexOf(s, sep);
      JoinSplit(s[k + 1..], sep);
      assert Split(s, sep) == [s[..k]] + Split(s[k + 1..], sep);
      assert s == s[..k] + [sep] + s[k + 1..];
    }
  }

  /** Joining pieces free of the separator and splitting again gives the
      pieces back. */
  lemma {:induction false} SplitJoin(parts: seq<string>, sep: char)
    requires |parts| >= 1
    requires forall i :: 0 <= i < |parts| ==> sep !in parts[i]
    ensures Split(Join(parts, sep), sep) == parts
  {
    if |parts| > 1 {
      var rest := Join(parts[1..], sep);
      assert Join(parts, sep) == parts[0] + [sep] + rest;
      SplitCons(parts[0], sep, rest);
      SplitJoin(parts[1..], sep);
      assert parts == [parts[0]] + parts[1..];
    }
  }

  /** A first piece free of the separator splits off by itself. */
  lemma SplitCons(p: string, sep: char, r: string)
    requires sep !in p
    ensures Split(p + [sep] + r, sep) == [p] + Split(r, sep)
  {
    var s := p + [sep] + r;
    IndexOfAfterPrefix(p, sep, r);
    assert s[..|p|] == p;
    assert s[|p| + 1..] == r;
  }

  /** Joining all pieces but the last yields the text before the last separator. */
  lemma {:induction false} JoinAllButLast(s: string, sep: char)
    requires sep in s
    ensures |Split(s, sep)| >= 2
    ensures Join(Split(s, sep)[..|Split(s, sep)| - 1], sep) == s[..LastIndexOf(s, sep)]
    decreases |s|
  {
    var k := IndexOf(s, sep);
    var p, rest := s[..k], s[k + 1..];
    assert s == p + [sep] + rest;
    if sep in rest {
      JoinAllButLast(rest, sep);
      JoinAllButLastStep(s, p, sep, rest);
    } else {
      JoinAllButLastBase(s, p, sep, rest);
    }
  }

  /** The base case of JoinAllButLast: exactly one separator. */
  lemma JoinAllButLastBase(s: string, p: string, sep: char, rest: string)
    requires s == p + [sep] + rest && sep !in p && sep !in rest
    ensures sep in s && |Split(s, sep)| >= 2
    ensures Join(Split(s, sep)[..|Split(s, sep)| - 1], sep) == s[..LastIndexOf(s, sep)]
  {
    SplitCons(p, sep, rest);
    assert Split(rest, sep) == [rest];
    assert s[|p|] == sep && s[|p| + 1..] == rest;
    LastIndexOfUnique(s, sep, |p|);
    assert s[..|p|] == p;
  }

  /** The inductive step of JoinAllButLast: one more leading piece. */
  lemma JoinAllButLastStep(s: string, p: string, sep: char, rest: string)
    requires s == p + [sep] + rest && sep !in p && sep in rest
    requires |Split(rest, sep)| >= 2
    requires Join(Split(rest, sep)[..|Split(rest, sep)| - 1], sep) == rest[..LastIndexOf(rest, sep)]
    ensures sep in s && |Split(s, sep)| >= 2
    ensures Join(Split(s, sep)[..|Split(s, sep)| - 1], sep) == s[..LastIndexOf(s, sep)]
  {
    SplitCons(p, sep, rest);
    var rp := Split(rest, sep);
    var init := rp[..|rp| - 1];
    var sp := Split(s, sep);
    assert sp == [p] + rp;
    assert sp[..|sp| - 1] == [p] + init;
    JoinCons(p, init, sep);
    LastIndexOfAfterPrefix(p, sep, rest);
    assert Join(sp[..|sp| - 1], sep) == p + [sep] + rest[..LastIndexOf(rest, sep)];
  }

  /** Joining a longer list puts the separator after its first piece. */
  lemma JoinCons(p: string, xs: seq<string>, sep: char)
    requires |xs| >= 1
    ensures Join([p] + xs, sep) == p + [sep] + Join(xs, sep)
  {
    assert ([p] + xs)[1..] == xs;
  }

  /** The last separator of `p + [sep] + r`, when `r` holds one, is the
      last separator of `r`, shifted. */
  lemma LastIndexOfAfterPrefix(p: string, sep: char, r: string)
    requires sep in r
    ensures var s := p + [sep] + r;
      sep in s && LastIndexOf(s, sep) == |p| + 1 + LastIndexOf(r, sep) &&
      s[..LastIndexOf(s, sep)] == p + [sep] + r[..LastIndexOf(r, sep)]
  {
    var s := p + [sep] + r;
    var l := LastIndexOf(r, sep);
    assert s[|p| + 1 + l] == sep;
    assert s[|p| + 1 + l + 1..] == r[l + 1..];
    LastIndexOfUnique(s, sep, |p| + 1 + l);
    assert s[..|p| + 1 + l] == p + [sep] + r[..l];
  }

  function DigitChar(d: nat): (c: char)
    requires d < 10
    ensures '0' <= c <= '9'
  {
    "0123456789"[d]
  }

  /** Decimal rendering of a natural number, most significant digit first. */
  function NatToString(n: nat): (s: string)
    ensures |s| >= 1
    ensures forall i :: 0 <= i < |s| ==> '0' <= s[i] <= '9'
  {
    if n < 10 then [DigitChar(n)] else NatToString(n / 10) + [DigitChar(n % 10)]
  }

  /** The rendering starts with '0' only for 0 itself. */
  lemma {:induction false} NatToStringNoLeadingZero(n: nat)
    ensures NatToString(n)[0] == '0' <==> n == 0
  {
    if n >= 10 {
      NatToStringNoLeadingZero(n / 10);
    }
  }

  /** The number a string of decimal digits denotes, most significant first. */
  function DecimalValue(s: string): nat
    requires forall i :: 0 <= i < |s| ==> '0' <= s[i] <= '9'
  {
    if s == [] then 0 else DecimalValue(s[..|s| - 1]) * 10 + (s[|s| - 1] as int - '0' as int)
  }

  /** Reading the rendering back gives the number: `NatToString` loses nothing,
      so distinct line numbers get distinct labels. */
  lemma {:induction false} NatToStringValue(n: nat)
    ensures DecimalValue(NatToString(n)) == n
  {
    var s := NatToString(n);
    if n < 10 {
      assert s == [DigitChar(n)];
      assert s[..0] == [];
    } else {
      NatToStringValue(n / 10);
      assert s[..|s| - 1] == NatToString(n / 10);
    }
  }

  /** Different numbers render differently. */
  lemma NatToStringInjective(m: nat, n: nat)
    requires m != n
    ensures NatToString(m) != NatToString(n)
  {
    NatToStringValue(m);
    NatToStringValue(n);
  }
}
