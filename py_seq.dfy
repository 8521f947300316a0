/** Python's sequence and string primitives that the server relies on, with the
    exact semantics of slicing (negative bounds count from the end, out-of-range
    bounds are clamped), `str.strip()`, `str.rstrip(c)`, `str.join`, `in` on
    strings and `str(n)` for a natural number. */
module PySeq {

  /** A slice bound `i` normalised the way Python does for a sequence of length `n`. */
  function Bound(n: nat, i: int): (b: nat)
    ensures b <= n
    ensures 0 <= i <= n ==> b == i
    ensures i < 0 && n + i >= 0 ==> b == n + i
    ensures i > n ==> b == n
    ensures n + i < 0 ==> b == 0
  {
    if i < 0 then (if n + i < 0 then 0 else n + i)
    else if i > n then n
    else i
  }

  /** `s[i:]` */
  function From<T>(s: seq<T>, i: int): (r: seq<T>)
    ensures |r| <= |s|
    ensures r == s[|s| - |r|..]
  {
    s[Bound(|s|, i)..]
  }

  /** `s[:j]` */
  function Upto<T>(s: seq<T>, j: int): (r: seq<T>)
    ensures |r| <= |s|
    ensures r == s[..|r|]
  {
    s[..Bound(|s|, j)]
  }

  /** Python's `s[:i] + s[i:] == s` holds for every integer `i`. */
  lemma SplitAt<T>(s: seq<T>, i: int)
    ensures Upto(s, i) + From(s, i) == s
  {
    var b := Bound(|s|, i);
    assert Upto(s, i) == s[..b];
    assert From(s, i) == s[b..];
  }

  /** With `1 <= k <= |s|`, `s[-k:]` is the last `k` entries and `s[:-k]` the rest. */
  lemma NegativeSplit<T>(s: seq<T>, k: int)
    requires 1 <= k <= |s|
    ensures From(s, -k) == s[|s| - k..] && |From(s, -k)| == k
    ensures Upto(s, -k) == s[..|s| - k] && |Upto(s, -k)| == |s| - k
  {
  }

  /** `s[:n]` for a non-negative `n`: the first `min(n, |s|)` entries. */
  function Take<T>(s: seq<T>, n: nat): (r: seq<T>)
    ensures |r| == if n < |s| then n else |s|
    ensures r == s[..|r|]
  {
    Upto(s, n)
  }

  lemma ConcatAssociative<T>(x: seq<T>, y: seq<T>, z: seq<T>)
    ensures (x + y) + z == x + (y + z)
  {
  }

  /** `a` is a tail of `b`. */
  predicate IsSuffix<T(==)>(a: seq<T>, b: seq<T>)
  {
    |a| <= |b| && b[|b| - |a|..] == a
  }

  lemma SuffixTransitive<T>(a: seq<T>, b: seq<T>, c: seq<T>)
    requires IsSuffix(a, b) && IsSuffix(b, c)
    ensures IsSuffix(a, c)
  {
    assert c[|c| - |a|..] == c[|c| - |b|..][|b| - |a|..];
  }

  lemma SuffixExtend<T>(a: seq<T>, b: seq<T>, x: T)
    requires IsSuffix(a, b)
    ensures IsSuffix(a + [x], b + [x])
  {
    assert (b + [x])[|b| + 1 - (|a| + 1)..] == b[|b| - |a|..] + [x];
  }

  predicate StartsWith(s: string, p: string)
  {
    |p| <= |s| && s[..|p|] == p
  }

  lemma StartsWithConcat(a: string, b: string)
    ensures StartsWith(a + b, a)
  {
    assert (a + b)[..|a|] == a;
  }

  predicate EndsWith(s: string, p: string)
  {
    |p| <= |s| && s[|s| - |p|..] == p
  }

  /** Python's `sub in s` on strings. */
  function Contains(s: string, sub: string): (r: bool)
    ensures StartsWith(s, sub) ==> r
    ensures r ==> |sub| <= |s|
    decreases |s|
  {
    if |s| < |sub| then false
    else StartsWith(s, sub) || (s != [] && Contains(s[1..], sub))
  }

  /** A string in which the first character of `sub` never occurs does not
      contain `sub`. */
  lemma {:induction false} NotContainsWithoutFirst(s: string, sub: string)
    requires sub != []
    requires forall i :: 0 <= i < |s| ==> s[i] != sub[0]
    ensures !Contains(s, sub)
    decreases |s|
  {
    if |s| >= |sub| {
      assert s[0] != sub[0];
      NotContainsWithoutFirst(s[1..], sub);
    }
  }

  /** The characters `str.strip()` removes: Python's `str.isspace()` set. */
  predicate IsSpace(c: char)
  {
    || c == ' '
    || '\t' <= c <= '\r'
    || '\U{1C}' <= c <= '\U{1F}'
    || c == '\U{85}' || c == '\U{A0}' || c == '\U{1680}'
    || '\U{2000}' <= c <= '\U{200A}'
    || c == '\U{2028}' || c == '\U{2029}' || c == '\U{202F}' || c == '\U{205F}'
    || c == '\U{3000}'
  }

  predicate AllSpace(s: string)
  {
    forall i :: 0 <= i < |s| ==> IsSpace(s[i])
  }

  /** `s.lstrip()` */
  function LStrip(s: string): (r: string)
    ensures |r| <= |s| && r == s[|s| - |r|..]
    ensures r == [] || !IsSpace(r[0])
    decreases |s|
  {
    if s != [] && IsSpace(s[0]) then LStrip(s[1..]) else s
  }

  /** What `lstrip()` removes is whitespace. */
  lemma {:induction false} LStripDropsSpace(s: string)
    ensures AllSpace(s[..|s| - |LStrip(s)|])
    decreases |s|
  {
    if s != [] && IsSpace(s[0]) {
      LStripDropsSpace(s[1..]);
      var k := |s| - |LStrip(s)|;
      forall i | 0 <= i < k
        ensures IsSpace(s[..k][i])
      {
        if i > 0 {
          assert s[..k][i] == s[1..][..k - 1][i - 1];
        }
      }
    }
  }

  /** `s.rstrip()` */
  function RStrip(s: string): (r: string)
    ensures |r| <= |s| && r == s[..|r|]
    ensures r == [] || !IsSpace(r[|r| - 1])
    decreases |s|
  {
    if s != [] && IsSpace(s[|s| - 1]) then RStrip(s[..|s| - 1]) else s
  }

  /** What `rstrip()` removes is whitespace. */
  lemma {:induction false} RStripDropsSpace(s: string)
    ensures AllSpace(s[|RStrip(s)|..])
    decreases |s|
  {
    if s != [] && IsSpace(s[|s| - 1]) {
      var init := s[..|s| - 1];
      RStripDropsSpace(init);
      var k := |RStrip(s)|;
      forall i | 0 <= i < |s| - k
        ensures IsSpace(s[k..][i])
      {
        if k + i < |s| - 1 {
          assert s[k..][i] == init[k..][i];
        }
      }
    }
  }

  /** `s.strip()` */
  function Strip(s: string): (r: string)
  {
    RStrip(LStrip(s))
  }

  /** What `strip()` keeps: a contiguous piece of `s` with no whitespace at
      either end, and it is empty exactly when `s` is all whitespace. */
  lemma StripSpec(s: string)
    ensures exists i, j :: 0 <= i <= j <= |s| && Strip(s) == s[i..j]
    ensures Strip(s) == [] || (!IsSpace(Strip(s)[0]) && !IsSpace(Strip(s)[|Strip(s)| - 1]))
    ensures Strip(s) == [] <==> AllSpace(s)
  {
    var l := LStrip(s);
    var r := RStrip(l);
    var i := |s| - |l|;
    LStripDropsSpace(s);
    RStripDropsSpace(l);
    assert s[i..][..|r|] == s[i..i + |r|];
    assert Strip(s) == s[i..i + |r|];
    if r != [] {
      assert r[0] == l[0] == s[i];
    } else {
      assert l[|r|..] == l;
      assert l == [];
      assert s[..|s|] == s;
    }
  }

  /** Stripping twice changes nothing more. */
  lemma {:induction false} StripIdempotent(s: string)
    ensures Strip(Strip(s)) == Strip(s)
  {
    var t := Strip(s);
    StripSpec(s);
    if t != [] {
      assert LStrip(t) == t;
      assert RStrip(t) == t;
    }
  }

  /** `s.rstrip(c)`: drop every trailing `c`. */
  function RStripChar(s: string, c: char): (r: string)
    ensures |r| <= |s| && r == s[..|r|]
    ensures forall i :: |r| <= i < |s| ==> s[i] == c
    ensures r == [] || r[|r| - 1] != c
    decreases |s|
  {
    if s != [] && s[|s| - 1] == c then RStripChar(s[..|s| - 1], c) else s
  }

  /** `sep.join(parts)` */
  function Join(parts: seq<string>, sep: string): (r: string)
    ensures parts == [] ==> r == ""
    ensures |parts| == 1 ==> r == parts[0]
    ensures parts != [] ==> |r| >= |parts[|parts| - 1]|
    decreases |parts|
  {
    if |parts| == 0 then ""
    else if |parts| == 1 then parts[0]
    else Join(parts[..|parts| - 1], sep) + sep + parts[|parts| - 1]
  }

  /** A join begins with its first part. */
  lemma {:induction false} JoinStartsWithFirst(parts: seq<string>, sep: string)
    requires parts != []
    ensures StartsWith(Join(parts, sep), parts[0])
    decreases |parts|
  {
    if |parts| > 1 {
      var init := parts[..|parts| - 1];
      JoinStartsWithFirst(init, sep);
      var j := Join(init, sep);
      assert (j + sep + parts[|parts| - 1])[..|parts[0]|] == j[..|parts[0]|];
    }
  }

  /** The total length of a join: every part plus one separator between each two. */
  function TotalLength(parts: seq<string>): nat
  {
    if parts == [] then 0 else TotalLength(parts[..|parts| - 1]) + |parts[|parts| - 1]|
  }

  lemma {:induction false} JoinLength(parts: seq<string>, sep: string)
    requires parts != []
    ensures |Join(parts, sep)| == TotalLength(parts) + (|parts| - 1) * |sep|
    decreases |parts|
  {
    if |parts| > 1 {
      JoinLength(parts[..|parts| - 1], sep);
      assert parts[..|parts| - 1][..|parts| - 2] == parts[..|parts| - 2];
    } else {
      assert parts[..0] == [];
    }
  }

  /** `str(n)` for a natural number: its decimal digits. */
  function NatToString(n: nat): (r: string)
    ensures |r| >= 1
    ensures forall i :: 0 <= i < |r| ==> '0' <= r[i] <= '9'
    ensures n < 10 ==> |r| == 1
  {
    if n < 10 then [Digit(n)] else NatToString(n / 10) + [Digit(n % 10)]
  }

  function Digit(d: nat): (c: char)
    requires d < 10
    ensures '0' <= c <= '9'
  {
    ['0', '1', '2', '3', '4', '5', '6', '7', '8', '9'][d]
  }

  function Min(a: int, b: int): int
  {
    if a <= b then a else b
  }
}
