/**
 * Shared vocabulary of the model: optional values, Java exceptions that escape an
 * operation, and the few `java.lang.String` operations the generators rely on
 * (trim, isBlank, split(...)[0], compareTo, Integer.toString, capitalize).
 */
module Common {

  datatype Option<T> = None | Some(value: T)

  /** A Java exception that escapes an operation: its class name and its message. */
  datatype Thrown = Thrown(exception: string, message: string)

  /** The outcome of an operation that can throw. */
  datatype Result<T> = Ok(value: T) | Err(thrown: Thrown)

  const NullPointer := Thrown("NullPointerException", "")
  const ArrayIndexOutOfBounds := Thrown("ArrayIndexOutOfBoundsException", "")
  const ListIndexOutOfBounds := Thrown("IndexOutOfBoundsException", "")
  const StackOverflow := Thrown("StackOverflowError", "")

  /** The text Java's string concatenation produces for a possibly-null string. */
  function NullText(s: Option<string>): (r: string)
    ensures s.Some? ==> r == s.value
    ensures s.None? ==> r == "null"
  {
    if s.Some? then s.value else "null"
  }

  // ---------------------------------------------------------------------------
  // Whitespace, trim and isBlank
  // ---------------------------------------------------------------------------

  /** `Character.isWhitespace`: the ASCII controls U+0009..U+000D and U+001C..U+001F, and the
      Unicode space, line and paragraph separators except the non-breaking ones. */
  predicate IsJavaWhitespace(c: char) {
    ('\t' <= c <= '\r') || ('\U{1C}' <= c <= ' ') || c == '\U{1680}'
    || ('\U{2000}' <= c <= '\U{2006}') || ('\U{2008}' <= c <= '\U{200A}')
    || c == '\U{2028}' || c == '\U{2029}' || c == '\U{205F}' || c == '\U{3000}'
  }

  /** `String.isBlank`: empty or made only of whitespace. */
  predicate IsBlank(s: string) {
    forall i :: 0 <= i < |s| ==> IsJavaWhitespace(s[i])
  }

  /** `String.trim` removes every leading and trailing character up to U+0020. */
  function TrimStart(s: string): (r: string)
    ensures |r| <= |s| && r == s[|s| - |r|..]
    ensures r == [] || r[0] > ' '
  {
    if |s| > 0 && s[0] <= ' ' then TrimStart(s[1..]) else s
  }

  function TrimEnd(s: string): (r: string)
    ensures |r| <= |s| && r == s[..|r|]
    ensures r == [] || r[|r| - 1] > ' '
  {
    if |s| > 0 && s[|s| - 1] <= ' ' then TrimEnd(s[..|s| - 1]) else s
  }

  function Trim(s: string): string {
    TrimEnd(TrimStart(s))
  }

  lemma TrimEndKeepsStart(s: string)
    requires s != [] && s[0] > ' '
    ensures TrimEnd(s) != [] && TrimEnd(s)[0] == s[0]
  {
  }

  /** The result of `trim` has no trimmable character at either end and is a slice of its input. */
  lemma TrimProperties(s: string)
    ensures var r := Trim(s);
      (r == [] || (r[0] > ' ' && r[|r| - 1] > ' '))
      && exists i, j :: 0 <= i <= j <= |s| && r == s[i..j]
  {
    var t := TrimStart(s);
    if t != [] {
      TrimEndKeepsStart(t);
    }
    var r := TrimEnd(t);
    var i := |s| - |t|;
    assert r == s[i..][..|r|] == s[i..i + |r|];
  }

  /** Trimming introduces no character its input lacks. */
  lemma TrimIntroducesNothing(s: string, c: char)
    requires c !in s
    ensures c !in Trim(s)
  {
    var t := TrimStart(s);
    assert t == s[|s| - |t|..];
    assert c !in t;
    assert TrimEnd(t) == t[..|TrimEnd(t)|];
  }

  /** Trimming twice is trimming once. */
  lemma TrimIdempotent(s: string)
    ensures Trim(Trim(s)) == Trim(s)
  {
    TrimProperties(s);
    var r := Trim(s);
    assert TrimStart(r) == r;
    assert TrimEnd(r) == r;
  }

  // ---------------------------------------------------------------------------
  // Small string operations
  // ---------------------------------------------------------------------------

  predicate StartsWith(s: string, prefix: string) {
    |prefix| <= |s| && s[..|prefix|] == prefix
  }

  predicate EndsWith(s: string, suffix: string) {
    |suffix| <= |s| && s[|s| - |suffix|..] == suffix
  }

  /** `String.replace(char, char)`. */
  function ReplaceChar(s: string, from: char, to: char): (r: string)
    ensures |r| == |s|
    ensures forall i :: 0 <= i < |s| ==> r[i] == (if s[i] == from then to else s[i])
  {
    if s == [] then [] else [if s[0] == from then to else s[0]] + ReplaceChar(s[1..], from, to)
  }

  /** Lower-casing restricted to ASCII letters (`toLowerCase(Locale.ROOT)` on ASCII text). */
  function ToLowerAscii(s: string): (r: string)
    ensures |r| == |s|
    ensures forall i :: 0 <= i < |s| ==> r[i] == (if 'A' <= s[i] <= 'Z' then s[i] - 'A' + 'a' else s[i])
  {
    if s == [] then [] else [if 'A' <= s[0] <= 'Z' then s[0] - 'A' + 'a' else s[0]] + ToLowerAscii(s[1..])
  }

  /** `StringUtils.capitalize` for text whose first character is ASCII: null stays null and
      the first letter is upper-cased. */
  function Capitalize(s: Option<string>): (r: Option<string>)
    ensures r.None? <==> s.None?
    ensures s.Some? ==> |r.value| == |s.value|
    ensures s.Some? && s.value != [] ==> r.value[1..] == s.value[1..]
  {
    match s
    case None => None
    case Some(t) =>
      if t == [] then Some(t)
      else Some([if 'a' <= t[0] <= 'z' then t[0] - 'a' + 'A' else t[0]] + t[1..])
  }

  /** Index of the first occurrence of `c` in `s`. */
  function IndexOf(s: string, c: char): (i: nat)
    requires c in s
    ensures i < |s| && s[i] == c && c !in s[..i]
  {
    if s[0] == c then 0 else 1 + IndexOf(s[1..], c)
  }

  /**
   * `s.split(sep)[0]` for a one-character, non-metacharacter separator. Java drops trailing
   * empty strings from the split, so a non-empty string made only of separators yields an
   * empty array and the indexing throws.
   */
  function SplitHead(s: string, sep: char): (r: Result<string>)
    ensures r.Err? <==> (s != [] && forall i :: 0 <= i < |s| ==> s[i] == sep)
    ensures r.Ok? ==> sep !in r.value && StartsWith(s, r.value)
    ensures r.Ok? && sep in s ==> s[|r.value|] == sep
  {
    if sep !in s then
      assert s != [] ==> s[0] != sep;
      Ok(s)
    else if forall i :: 0 <= i < |s| ==> s[i] == sep then Err(ArrayIndexOutOfBounds)
    else Ok(s[..IndexOf(s, sep)])
  }

  // ---------------------------------------------------------------------------
  // Integer.toString
  // ---------------------------------------------------------------------------

  function DigitChar(d: nat): char
    requires d < 10
  {
    "0123456789"[d]
  }

  function NatToString(n: nat): (r: string)
    ensures |r| > 0
    ensures forall i :: 0 <= i < |r| ==> '0' <= r[i] <= '9'
    decreases n
  {
    if n < 10 then [DigitChar(n)] else NatToString(n / 10) + [DigitChar(n % 10)]
  }

  /** `Integer.toString`: decimal digits, with a leading '-' for a negative value. */
  function IntToString(i: int): (r: string)
    ensures |r| > 0
    ensures r[0] == '-' <==> i < 0
  {
    if i < 0 then "-" + NatToString(-i) else NatToString(i)
  }

  // ---------------------------------------------------------------------------
  // String.compareTo and sorting
  // ---------------------------------------------------------------------------

  /** `a.compareTo(b) <= 0`: the first differing character decides, otherwise the shorter
      string comes first. */
  predicate LessEq(a: string, b: string) {
    |a| == 0 || (|b| > 0 && (a[0] < b[0] || (a[0] == b[0] && LessEq(a[1..], b[1..]))))
  }

  lemma {:induction false} LessEqReflexive(a: string)
    ensures LessEq(a, a)
  {
    if |a| > 0 {
      LessEqReflexive(a[1..]);
    }
  }

  lemma {:induction false} LessEqTotal(a: string, b: string)
    ensures LessEq(a, b) || LessEq(b, a)
  {
    if |a| > 0 && |b| > 0 && a[0] == b[0] {
      LessEqTotal(a[1..], b[1..]);
    }
  }

  lemma {:induction false} LessEqAntisymmetric(a: string, b: string)
    requires LessEq(a, b) && LessEq(b, a)
    ensures a == b
  {
    if |a| > 0 && |b| > 0 {
      LessEqAntisymmetric(a[1..], b[1..]);
      assert a == [a[0]] + a[1..];
      assert b == [b[0]] + b[1..];
    }
  }

  lemma {:induction false} LessEqTransitive(a: string, b: string, c: string)
    requires LessEq(a, b) && LessEq(b, c)
    ensures LessEq(a, c)
  {
    if |a| > 0 && a[0] == b[0] && b[0] == c[0] {
      LessEqTransitive(a[1..], b[1..], c[1..]);
    }
  }

  predicate NoDup<T(==)>(s: seq<T>) {
    forall i, j :: 0 <= i < j < |s| ==> s[i] != s[j]
  }

  /** A sequence has no duplicates exactly when no value occurs in it twice. */
  lemma {:induction false} NoDupMultiset<T>(s: seq<T>)
    ensures NoDup(s) <==> forall x :: multiset(s)[x] <= 1
  {
    if s != [] {
      var t := s[1..];
      assert s == [s[0]] + t;
      NoDupMultiset(t);
      if NoDup(s) {
        assert forall j :: 0 <= j < |t| ==> t[j] == s[j + 1];
      } else {
        var i, j :| 0 <= i < j < |s| && s[i] == s[j];
        if i == 0 {
          assert t[j - 1] == s[0];
          assert multiset(s)[s[0]] >= 2;
        } else {
          assert t[i - 1] == t[j - 1];
          assert !NoDup(t);
          var x :| multiset(t)[x] > 1;
          assert multiset(s)[x] == multiset([s[0]])[x] + multiset(t)[x];
        }
      }
    }
  }

  /** Rearranging a sequence keeps it free of duplicates. */
  lemma NoDupPermutation<T>(a: seq<T>, b: seq<T>)
    requires NoDup(a) && multiset(a) == multiset(b)
    ensures NoDup(b)
  {
    NoDupMultiset(a);
    NoDupMultiset(b);
  }

  predicate Sorted(s: seq<string>) {
    forall i, j :: 0 <= i < j < |s| ==> LessEq(s[i], s[j])
  }

  function Insert(x: string, s: seq<string>): (r: seq<string>)
    requires Sorted(s)
    ensures Sorted(r)
    ensures multiset(r) == multiset(s) + multiset{x}
  {
    if s == [] then [x]
    else if LessEq(x, s[0]) then
      assert forall j :: 0 < j < |s| ==> LessEq(x, s[j]) by {
        forall j | 0 < j < |s| { LessEqTransitive(x, s[0], s[j]); }
      }
      [x] + s
    else
      var rest := Insert(x, s[1..]);
      InsertKeepsOrder(x, s, rest);
      [s[0]] + rest
  }

  lemma InsertKeepsOrder(x: string, s: seq<string>, rest: seq<string>)
    requires s != [] && Sorted(s) && !LessEq(x, s[0])
    requires Sorted(rest) && multiset(rest) == multiset(s[1..]) + multiset{x}
    ensures Sorted([s[0]] + rest)
    ensures multiset([s[0]] + rest) == multiset(s) + multiset{x}
  {
    LessEqTotal(x, s[0]);
    assert s == [s[0]] + s[1..];
    forall y | y in rest
      ensures LessEq(s[0], y)
    {
      assert y in multiset(rest);
      if y != x {
        assert y in multiset(s[1..]);
      }
    }
  }

  /** `ascendingOrder`: a sorted copy of a list of strings, as `Collections.sort` orders it;
      the input list itself is a value and stays as it was. */
  function AscendingOrder(s: seq<string>): (r: seq<string>)
    ensures Sorted(r)
    ensures multiset(r) == multiset(s)
  {
    if s == [] then []
    else
      assert s == [s[0]] + s[1..];
      Insert(s[0], AscendingOrder(s[1..]))
  }

  /** Sorting strings has only one possible outcome: two sorted arrangements of the same
      multiset are equal, so any sort (stable or not) agrees with `AscendingOrder`. */
  lemma {:induction false} SortedPermutationUnique(a: seq<string>, b: seq<string>)
    requires Sorted(a) && Sorted(b) && multiset(a) == multiset(b)
    ensures a == b
    decreases |a|
  {
    if a != [] {
      assert |b| == |multiset(b)| == |multiset(a)| == |a|;
      assert a[0] in multiset(b);
      assert b[0] in multiset(a);
      var i :| 0 <= i < |b| && b[i] == a[0];
      var j :| 0 <= j < |a| && a[j] == b[0];
      LessEqReflexive(a[0]);
      assert LessEq(b[0], b[i]);
      assert LessEq(a[0], a[j]);
      LessEqAntisymmetric(a[0], b[0]);
      assert a == [a[0]] + a[1..];
      assert b == [b[0]] + b[1..];
      assert multiset(a[1..]) == multiset(a) - multiset{a[0]};
      assert multiset(b[1..]) == multiset(b) - multiset{b[0]};
      SortedPermutationUnique(a[1..], b[1..]);
    }
  }
}
