/**
 * String helpers shared by the frontend (TypeScript) and the backend (Python) models.
 * Strings are sequences of Unicode scalar values; white space, trimming and lower-casing
 * are restricted to ASCII.
 */
module Text {
  import opened Wrappers

  /** ASCII white space as recognised by `str.strip()` and `String.prototype.trim`. */
  predicate IsSpace(c: char)
  {
    c == ' ' || c == '\t' || c == '\n' || c == '\r' || c == '\U{000B}' || c == '\U{000C}'
  }

  function TrimStart(s: string): (r: string)
    ensures |r| <= |s| && r == s[|s| - |r|..]
    ensures r == [] || !IsSpace(r[0])
    ensures forall i :: 0 <= i < |s| - |r| ==> IsSpace(s[i])
  {
    if |s| > 0 && IsSpace(s[0]) then TrimStart(s[1..]) else s
  }

  function TrimEnd(s: string): (r: string)
    ensures |r| <= |s| && r == s[..|r|]
    ensures r == [] || !IsSpace(r[|r| - 1])
    ensures forall i :: |r| <= i < |s| ==> IsSpace(s[i])
  {
    if |s| > 0 && IsSpace(s[|s| - 1]) then TrimEnd(s[..|s| - 1]) else s
  }

  /** Both ends stripped of white space. */
  function Trim(s: string): string
  {
    TrimEnd(TrimStart(s))
  }

  /** Leading white space before a non-space character is removed entirely. */
  lemma {:induction false} TrimStartSkipsSpaces(w: string, x: string)
    requires forall i :: 0 <= i < |w| ==> IsSpace(w[i])
    requires x != [] && !IsSpace(x[0])
    ensures TrimStart(w + x) == x
  {
    if w == [] {
      assert w + x == x;
    } else {
      assert (w + x)[1..] == w[1..] + x;
      TrimStartSkipsSpaces(w[1..], x);
    }
  }

  /** Trailing white space is only removed after the last non-space character. */
  lemma {:induction false} TrimEndAfter(a: string, b: string)
    requires a != [] && !IsSpace(a[|a| - 1])
    ensures TrimEnd(a + b) == a + TrimEnd(b)
  {
    if b == [] {
      assert a + b == a;
    } else if IsSpace(b[|b| - 1]) {
      assert (a + b)[..|a + b| - 1] == a + b[..|b| - 1];
      TrimEndAfter(a, b[..|b| - 1]);
    }
  }

  /** Neither end is white space. */
  predicate Trimmed(s: string)
  {
    s == [] || (!IsSpace(s[0]) && !IsSpace(s[|s| - 1]))
  }

  /** A string whose trimmed form is empty, the falsy case of `s.trim()` and `s.strip()`. */
  predicate IsBlank(s: string)
  {
    Trim(s) == []
  }

  lemma TrimResultTrimmed(s: string)
    ensures Trimmed(Trim(s))
  {
    var t := TrimStart(s);
    var r := TrimEnd(t);
    if r != [] {
      assert r[0] == t[0];
    }
  }

  lemma TrimOfTrimmed(s: string)
    requires Trimmed(s)
    ensures Trim(s) == s
  {
  }

  lemma TrimIdempotent(s: string)
    ensures Trim(Trim(s)) == Trim(s)
  {
    TrimResultTrimmed(s);
    TrimOfTrimmed(Trim(s));
  }

  lemma {:induction false} TrimStartAllSpace(s: string)
    requires forall i :: 0 <= i < |s| ==> IsSpace(s[i])
    ensures TrimStart(s) == []
  {
    if |s| > 0 {
      TrimStartAllSpace(s[1..]);
    }
  }

  /** A string is blank exactly when every character of it is white space. */
  lemma BlankIffAllSpace(s: string)
    ensures IsBlank(s) <==> forall i :: 0 <= i < |s| ==> IsSpace(s[i])
  {
    if forall i :: 0 <= i < |s| ==> IsSpace(s[i]) {
      TrimStartAllSpace(s);
    }
    if IsBlank(s) {
      assert TrimStart(s) == [];
    }
  }

  predicate StartsWith(s: string, prefix: string)
  {
    |prefix| <= |s| && s[..|prefix|] == prefix
  }

  predicate EndsWith(s: string, suffix: string)
  {
    |suffix| <= |s| && s[|s| - |suffix|..] == suffix
  }

  lemma StartsWithAppend(a: string, b: string)
    ensures StartsWith(a + b, a)
  {
    assert (a + b)[..|a|] == a;
  }

  lemma EndsWithAppend(a: string, b: string)
    ensures EndsWith(a + b, b)
  {
    assert (a + b)[|a + b| - |b|..] == b;
  }

  lemma AppendAssoc(a: string, b: string, c: string)
    ensures a + (b + c) == (a + b) + c
  {
  }

  lemma StartsWithExtend(a: string, b: string, prefix: string)
    requires StartsWith(a, prefix)
    ensures StartsWith(a + b, prefix)
  {
    assert (a + b)[..|prefix|] == a[..|prefix|];
  }

  lemma EndsWithShrink(s: string, a: string, b: string)
    requires EndsWith(s, a + b)
    ensures EndsWith(s, b)
  {
    assert s[|s| - |b|..] == s[|s| - |a + b|..][|a|..];
    assert (a + b)[|a|..] == b;
  }

  /** `value || undefined` for a form field: an empty string is left out of the request. */
  function Optional(s: string): (r: Option<string>)
    ensures r.None? <==> s == ""
    ensures r.Some? ==> r.value == s
  {
    if s == "" then None else Some(s)
  }

  /** `s.includes(t)` / `t in s`: some suffix of `s` starts with `t`. */
  predicate Contains(s: string, t: string)
  {
    StartsWith(s, t) || (|s| > 0 && Contains(s[1..], t))
  }

  /** The first index at which `t` occurs in `s`, like `indexOf` and `str.find`. */
  function IndexOf(s: string, t: string): (r: Option<nat>)
    ensures r.Some? ==> r.value + |t| <= |s| && StartsWith(s[r.value..], t)
    ensures r.Some? ==> forall j :: 0 <= j < r.value ==> !StartsWith(s[j..], t)
    ensures r.None? ==> forall j :: 0 <= j <= |s| ==> !StartsWith(s[j..], t)
  {
    if StartsWith(s, t) then Some(0)
    else if |s| == 0 then None
    else
      match IndexOf(s[1..], t)
      case None =>
        assert forall j :: 1 <= j <= |s| ==> s[j..] == s[1..][j - 1..];
        None
      case Some(k) =>
        assert forall j :: 1 <= j <= |s| ==> s[j..] == s[1..][j - 1..];
        Some(k + 1)
  }

  lemma {:induction false} ContainsIffIndexOf(s: string, t: string)
    ensures Contains(s, t) <==> IndexOf(s, t).Some?
  {
    if !StartsWith(s, t) && |s| > 0 {
      ContainsIffIndexOf(s[1..], t);
    }
  }

  /** A text in which the first character of `t` never occurs does not contain `t`. */
  lemma {:induction false} MissingFirstChar(s: string, t: string)
    requires |t| > 0 && forall i :: 0 <= i < |s| ==> s[i] != t[0]
    ensures !Contains(s, t)
  {
    if |s| > 0 {
      assert s[0] != t[0];
      if |t| <= |s| {
        assert s[..|t|][0] == s[0];
      }
      MissingFirstChar(s[1..], t);
    }
  }

  /** A text in which `t` starts at none of the places holding its first character does not
    * contain `t`. */
  lemma {:induction false} NoMatchAtFirstChars(s: string, t: string)
    requires |t| > 0 && forall j :: 0 <= j < |s| && s[j] == t[0] ==> !StartsWith(s[j..], t)
    ensures !Contains(s, t)
  {
    if |s| > 0 {
      assert s[0..] == s;
      if |t| <= |s| {
        assert s[..|t|][0] == s[0];
      }
      forall j | 0 <= j < |s[1..]| && s[1..][j] == t[0]
        ensures !StartsWith(s[1..][j..], t)
      {
        assert s[1..][j..] == s[j + 1..];
      }
      NoMatchAtFirstChars(s[1..], t);
    }
  }

  /** A text whose tail starts with `t` contains `t`. */
  lemma {:induction false} ContainsInTail(a: string, b: string, t: string)
    requires StartsWith(b, t)
    ensures Contains(a + b, t)
  {
    if a == [] {
      assert a + b == b;
    } else {
      assert (a + b)[1..] == a[1..] + b;
      ContainsInTail(a[1..], b, t);
    }
  }

  /** Every string contains the empty string, as `"abc".includes("")` holds. */
  lemma ContainsEmpty(s: string)
    ensures Contains(s, "")
  {
  }

  /** `s.split(sep)[0]` for a non-empty `sep`: the text before the first `sep`, or all of `s`
    * when `sep` does not occur. */
  function Before(s: string, sep: string): (r: string)
    requires sep != []
    ensures StartsWith(s, r)
    ensures forall j :: 0 <= j < |r| ==> !StartsWith(s[j..], sep)
    ensures r == s || StartsWith(s[|r|..], sep)
    ensures !Contains(r, sep)
  {
    match IndexOf(s, sep)
    case None => ContainsIffIndexOf(s, sep); s
    case Some(i) =>
      PrefixHasNoMatch(s, sep, i);
      s[..i]
  }

  /** The first piece ends where `IndexOf` finds the separator. */
  lemma BeforeEndsAtIndexOf(s: string, sep: string)
    requires sep != []
    ensures IndexOf(s, sep).Some? ==> |Before(s, sep)| == IndexOf(s, sep).value
  {
  }

  /** Splitting `a + c + b` on the character `c`, which `a` does not hold, gives `a` first. */
  lemma BeforeChar(a: string, c: char, b: string)
    requires forall j :: 0 <= j < |a| ==> a[j] != c
    ensures Before(a + [c] + b, [c]) == a
  {
    var s := a + [c] + b;
    var r := Before(s, [c]);
    assert s[|a|..][..1] == [c];
    forall j | 0 <= j < |a|
      ensures !StartsWith(s[j..], [c])
    {
      assert s[j..][..1] == [a[j]];
    }
    assert |r| == |a|;
    assert r == s[..|a|];
  }

  lemma PrefixHasNoMatch(s: string, t: string, i: nat)
    requires t != [] && i <= |s|
    requires forall j :: 0 <= j < i ==> !StartsWith(s[j..], t)
    ensures !Contains(s[..i], t)
  {
    var p := s[..i];
    forall j | 0 <= j <= i
      ensures !StartsWith(p[j..], t)
    {
      if j + |t| <= i {
        assert p[j..][..|t|] == s[j..][..|t|];
      }
    }
    ContainsIffIndexOf(p, t);
  }

  /** `s.split(sep)[1]`: the text between the first and the second `sep` (or the end of `s`);
    * `None` when `sep` does not occur, where JavaScript yields `undefined`. */
  function SplitSecond(s: string, sep: string): (r: Option<string>)
    requires sep != []
    ensures r.None? <==> !Contains(s, sep)
    ensures r.Some? ==> (|Before(s, sep)| + |sep| <= |s| &&
      r.value == Before(s[|Before(s, sep)| + |sep|..], sep))
  {
    var first := Before(s, sep);
    BeforeWholeIffAbsent(s, sep);
    if first == s then None else Some(Before(s[|first| + |sep|..], sep))
  }

  /** The first piece is the whole text exactly when `sep` does not occur; otherwise a whole
    * `sep` follows it. */
  lemma BeforeWholeIffAbsent(s: string, sep: string)
    requires sep != []
    ensures Before(s, sep) == s <==> !Contains(s, sep)
    ensures Before(s, sep) != s ==> |Before(s, sep)| + |sep| <= |s|
  {
    var first := Before(s, sep);
    if first != s {
      assert s == s[..|first|] + s[|first|..];
      ContainsInTail(s[..|first|], s[|first|..], sep);
    }
  }

  function LowerChar(c: char): char
  {
    if 'A' <= c <= 'Z' then (c as int + 32) as char else c
  }

  /** ASCII `toLowerCase()` / `lower()`. */
  function Lower(s: string): (r: string)
    ensures |r| == |s|
    ensures forall i :: 0 <= i < |s| ==> r[i] == LowerChar(s[i])
  {
    if s == [] then [] else [LowerChar(s[0])] + Lower(s[1..])
  }

  /** A needle written in lower case that occurs in `s` also occurs in `Lower(s)`. */
  lemma {:induction false} ContainsLower(s: string, t: string)
    requires forall k :: 0 <= k < |t| ==> LowerChar(t[k]) == t[k]
    requires Contains(s, t)
    ensures Contains(Lower(s), t)
  {
    if StartsWith(s, t) {
      assert Lower(s)[..|t|] == t;
    } else {
      ContainsLower(s[1..], t);
      assert Lower(s)[1..] == Lower(s[1..]);
    }
  }

  /** Whether any of `needles` occurs in `s`, as `needles.some(n => s.includes(n))`. */
  function ContainsAny(s: string, needles: seq<string>): (r: bool)
    ensures r <==> exists i :: 0 <= i < |needles| && Contains(s, needles[i])
  {
    if needles == [] then false
    else Contains(s, needles[0]) || ContainsAny(s, needles[1..])
  }

  /** The position of the first `c` in `s`. */
  function FirstIndexOf(s: string, c: char): (i: nat)
    requires c in s
    ensures i < |s| && s[i] == c && c !in s[..i]
  {
    if s[0] == c then 0 else
      assert s == [s[0]] + s[1..];
      1 + FirstIndexOf(s[1..], c)
  }

  /** `s.split(c)` for a one-character separator: the pieces between the separators, at least one. */
  function Split(s: string, c: char): (r: seq<string>)
    ensures |r| >= 1
    ensures forall i :: 0 <= i < |r| ==> c !in r[i]
    decreases |s|
  {
    if c !in s then [s]
    else
      var i := FirstIndexOf(s, c);
      [s[..i]] + Split(s[i + 1..], c)
  }

  /** `sep.join(parts)` / `parts.join(sep)`. */
  function Join(parts: seq<string>, sep: string): string
  {
    if |parts| == 0 then ""
    else if |parts| == 1 then parts[0]
    else parts[0] + sep + Join(parts[1..], sep)
  }

  lemma {:induction false} JoinSnoc(parts: seq<string>, x: string, sep: string)
    ensures Join(parts + [x], sep) == if parts == [] then x else Join(parts, sep) + sep + x
  {
    if |parts| > 1 {
      assert (parts + [x])[1..] == parts[1..] + [x];
      JoinSnoc(parts[1..], x, sep);
    } else if |parts| == 1 {
      assert (parts + [x])[1..] == [x];
    }
  }

  /** A joined list ends with its last part. */
  lemma JoinEndsWithLast(parts: seq<string>, sep: string)
    requires |parts| > 0
    ensures EndsWith(Join(parts, sep), parts[|parts| - 1])
  {
    var init := parts[..|parts| - 1];
    assert parts == init + [parts[|parts| - 1]];
    JoinSnoc(init, parts[|parts| - 1], sep);
  }

  function DigitChar(d: nat): char
    requires d < 10
  {
    "0123456789"[d]
  }

  /** Decimal rendering of a natural number, as `str(n)` and template literals print it. */
  function NatToString(n: nat): (r: string)
    ensures |r| > 0
    ensures forall i :: 0 <= i < |r| ==> '0' <= r[i] <= '9'
  {
    if n < 10 then [DigitChar(n)] else NatToString(n / 10) + [DigitChar(n % 10)]
  }

  function IntToString(n: int): string
  {
    if n < 0 then "-" + NatToString(-n) else NatToString(n)
  }

  /** `f"{part * 100 // whole}%"`, the success rate both test scripts print. */
  function Percent(part: nat, whole: nat): (r: string)
    ensures EndsWith(r, "%")
    ensures whole == 0 ==> r == "0%"
    ensures whole > 0 && part == whole ==> r == "100%"
    ensures whole > 0 ==> r == NatToString(Scaled(part, whole)) + "%"
  {
    if whole == 0 then "0%"
    else
      var q := Scaled(part, whole);
      if part == whole then
        ScaledSelf(whole);
        assert NatToString(q) == NatToString(10) + [DigitChar(0)];
        NatToString(q) + "%"
      else NatToString(q) + "%"
  }

  /** The rate is rounded down, not to the nearest percent: one of three is "33%". */
  lemma PercentRoundsDown()
    ensures Percent(1, 3) == "33%"
  {
    assert Scaled(1, 3) == 33;
    assert NatToString(33) == NatToString(3) + [DigitChar(3)];
  }

  /** Two of three is "66%", where rounding would give 67. */
  lemma PercentTwoThirds()
    ensures Percent(2, 3) == "66%"
  {
    assert Scaled(2, 3) == 66;
    assert NatToString(66) == NatToString(6) + [DigitChar(6)];
  }

  /** `part * 100 // whole`: the largest `q` with `q * whole <= part * 100`. */
  function Scaled(part: nat, whole: nat): (q: nat)
    requires whole > 0
    ensures q * whole <= part * 100 < q * whole + whole
  {
    var x := part * 100;
    assert x == whole * (x / whole) + x % whole;
    x / whole
  }

  lemma ScaledSelf(whole: nat)
    requires whole > 0
    ensures Scaled(whole, whole) == 100
  {
    var q := whole * 100 / whole;
    assert whole * 100 == q * whole + whole * 100 % whole;
    MulMono(q, 99, whole);
    MulMono(101, q, whole);
  }

  lemma MulMono(a: int, b: int, w: nat)
    ensures a <= b ==> a * w <= b * w
  {
    if a <= b {
      assert b * w == a * w + (b - a) * w;
    }
  }

  /** Joining the pieces of a split with the separator gives back the original string. */
  lemma {:induction false} JoinSplit(s: string, c: char)
    ensures Join(Split(s, c), [c]) == s
    decreases |s|
  {
    if c in s {
      var i := FirstIndexOf(s, c);
      var rest := Split(s[i + 1..], c);
      JoinSplit(s[i + 1..], c);
      assert Split(s, c) == [s[..i]] + rest;
      assert ([s[..i]] + rest)[1..] == rest;
      assert s == s[..i] + [c] + s[i + 1..];
    }
  }

  /** `s.rfind(c)`: the last position of `c`, or -1. */
  function LastIndexOf(s: string, c: char): (r: int)
    ensures -1 <= r < |s|
    ensures r >= 0 ==> s[r] == c
    ensures forall k :: r < k < |s| ==> s[k] != c
  {
    if |s| == 0 then -1
    else if s[|s| - 1] == c then |s| - 1
    else LastIndexOf(s[..|s| - 1], c)
  }

  /**
   * `os.path.splitext(p)[1]` with the POSIX separator: from the last '.' of the last path
   * segment on, provided a character other than '.' precedes it in that segment; else "".
   */
  function SplitExt(p: string): (ext: string)
    ensures ext == "" || (ext[0] == '.' && EndsWith(p, ext) && '/' !in ext && '.' !in ext[1..])
  {
    var sep := LastIndexOf(p, '/');
    var dot := LastIndexOf(p, '.');
    if dot > sep && NamedBetween(p, sep, dot) then
      assert forall k :: 0 <= k < |p[dot..]| ==> p[dot..][k] == p[dot + k];
      p[dot..]
    else ""
  }

  /** Some character strictly between positions `lo` and `hi` of `p` is not a '.'. */
  predicate NamedBetween(p: string, lo: int, hi: int)
  {
    exists k :: lo < k < hi && 0 <= k < |p| && p[k] != '.'
  }

  /** Appending a text without `c` leaves the last position of `c` where it was. */
  lemma {:induction false} LastIndexOfAppend(s: string, t: string, c: char)
    requires c !in t
    ensures LastIndexOf(s + t, c) == LastIndexOf(s, c)
    decreases |t|
  {
    if |t| > 0 {
      var u := t[..|t| - 1];
      assert (s + t)[..|s + t| - 1] == s + u;
      assert (s + t)[|s + t| - 1] == t[|t| - 1];
      LastIndexOfAppend(s, u, c);
    } else {
      assert s + t == s;
    }
  }

  /** The extension of a file name that has one: a base whose last segment holds a character
    * other than '.', then '.', then a text without '.' or '/'. */
  lemma SplitExtOfNamed(base: string, e: string)
    requires '.' !in e && '/' !in e
    requires exists k :: LastIndexOf(base, '/') < k < |base| && base[k] != '.'
    ensures SplitExt(base + "." + e) == "." + e
  {
    var p := base + "." + e;
    LastSlashOfNamed(base, e);
    LastDotOfNamed(base, e);
    NamedBeforeDot(base, e);
    SplitExtAt(p, |base|);
    ExtensionSuffix(base, e);
  }

  lemma NamedBeforeDot(base: string, e: string)
    requires exists k :: LastIndexOf(base, '/') < k < |base| && base[k] != '.'
    ensures NamedBetween(base + "." + e, LastIndexOf(base, '/'), |base|)
  {
    var k :| LastIndexOf(base, '/') < k < |base| && base[k] != '.';
    assert (base + "." + e)[k] == base[k];
  }

  lemma ExtensionSuffix(base: string, e: string)
    ensures (base + "." + e)[|base|..] == "." + e
  {
  }

  /** Where the last '.' follows the last '/' with a name before it, the extension starts there. */
  lemma SplitExtAt(p: string, dot: int)
    requires LastIndexOf(p, '.') == dot > LastIndexOf(p, '/')
    requires NamedBetween(p, LastIndexOf(p, '/'), dot)
    ensures SplitExt(p) == p[dot..]
  {
  }

  lemma LastSlashOfNamed(base: string, e: string)
    requires '/' !in e
    ensures LastIndexOf(base + "." + e, '/') == LastIndexOf(base, '/')
  {
    assert base + "." + e == (base + ".") + e;
    LastIndexOfAppend(base + ".", e, '/');
    LastIndexOfAppend(base, ".", '/');
  }

  lemma LastDotOfNamed(base: string, e: string)
    requires '.' !in e
    ensures LastIndexOf(base + "." + e, '.') == |base|
  {
    assert base + "." + e == (base + ".") + e;
    LastIndexOfAppend(base + ".", e, '.');
    assert LastIndexOf(base + ".", '.') == |base|;
  }

  /** A joined list starts with its first part. */
  lemma JoinStartsWithFirst(parts: seq<string>, sep: string)
    requires |parts| > 0
    ensures StartsWith(Join(parts, sep), parts[0])
  {
    if |parts| > 1 {
      StartsWithAppend(parts[0], sep + Join(parts[1..], sep));
      assert parts[0] + sep + Join(parts[1..], sep) == parts[0] + (sep + Join(parts[1..], sep));
    }
  }
}
