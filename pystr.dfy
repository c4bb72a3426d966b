/**
 * The few Python `str` operations the compiler-options script relies on:
 * `str.upper()` (restricted to ASCII), `sep.join(xs)`, `s.split(sep)` and
 * `s.rpartition(sep)`, each for the single-character separators the script uses
 * (`join` takes any separator string).
 */
module PyStr {

  predicate IsAsciiLower(c: char) {
    'a' <= c <= 'z'
  }

  predicate IsAsciiUpper(c: char) {
    'A' <= c <= 'Z'
  }

  /** Inverse of UpperChar on the ASCII upper-case letters. */
  function LowerChar(c: char): (l: char)
    ensures IsAsciiUpper(c) ==> IsAsciiLower(l)
    ensures !IsAsciiUpper(c) ==> l == c
  {
    if IsAsciiUpper(c) then (c as int + 32) as char else c
  }

  /** Upper-cases one ASCII letter; every other character is left alone. */
  function UpperChar(c: char): (u: char)
    ensures !IsAsciiLower(u)
    ensures u != c <==> IsAsciiLower(c)
    ensures u != c ==> IsAsciiUpper(u) && LowerChar(u) == c
  {
    if IsAsciiLower(c) then (c as int - 32) as char else c
  }

  /** `s.upper()` for ASCII text. */
  function Upper(s: string): (r: string)
    ensures |r| == |s|
    ensures forall i | 0 <= i < |r| :: !IsAsciiLower(r[i])
  {
    seq(|s|, i requires 0 <= i < |s| => UpperChar(s[i]))
  }

  /** Upper-casing is determined character by character. */
  lemma UpperByChars(s: string, u: string)
    requires |s| == |u| && forall i | 0 <= i < |s| :: UpperChar(s[i]) == u[i]
    ensures Upper(s) == u
  {
  }

  /** Two characters that are equal once ASCII letter case is ignored. */
  predicate SameCharIgnoringCase(x: char, y: char) {
    || x == y
    || (IsAsciiLower(x) && y as int == x as int - 32)
    || (IsAsciiLower(y) && x as int == y as int - 32)
  }

  /** Two strings that differ at most in the case of ASCII letters. */
  predicate SameIgnoringCase(a: string, b: string) {
    |a| == |b| && forall i | 0 <= i < |a| :: SameCharIgnoringCase(a[i], b[i])
  }

  /** Upper-casing identifies exactly the strings that differ only in letter case. */
  lemma UpperEqualIff(a: string, b: string)
    ensures Upper(a) == Upper(b) <==> SameIgnoringCase(a, b)
  {
    if Upper(a) == Upper(b) {
      forall i | 0 <= i < |a|
        ensures SameCharIgnoringCase(a[i], b[i])
      {
        assert UpperChar(a[i]) == Upper(a)[i] == Upper(b)[i] == UpperChar(b[i]);
      }
    }
    if SameIgnoringCase(a, b) {
      forall i | 0 <= i < |a|
        ensures Upper(a)[i] == Upper(b)[i]
      {
        assert SameCharIgnoringCase(a[i], b[i]);
      }
    }
  }

  /** Upper-casing twice is upper-casing once. */
  lemma UpperIdempotent(s: string)
    ensures Upper(Upper(s)) == Upper(s)
  {
  }

  /** `sep.join(xs)`: the elements of xs with sep between neighbours. */
  function Join(sep: string, xs: seq<string>): string {
    if |xs| == 0 then ""
    else if |xs| == 1 then xs[0]
    else xs[0] + sep + Join(sep, xs[1..])
  }

  /** A join starts with the first element, so it is empty only if that element is. */
  lemma JoinNonEmpty(sep: string, xs: seq<string>)
    requires xs != [] && xs[0] != ""
    ensures Join(sep, xs) != ""
  {
  }

  /** Joining two non-empty lists puts one separator between the two joins. */
  lemma {:induction false} JoinAppend(sep: string, xs: seq<string>, ys: seq<string>)
    requires xs != [] && ys != []
    ensures Join(sep, xs + ys) == Join(sep, xs) + sep + Join(sep, ys)
  {
    if |xs| == 1 {
      assert (xs + ys)[1..] == ys;
    } else {
      assert (xs + ys)[1..] == xs[1..] + ys;
      JoinAppend(sep, xs[1..], ys);
    }
  }

  /** `s.split(c)` for a one-character separator: the pieces between the occurrences of c. */
  function Split(s: string, c: char): (r: seq<string>)
    ensures |r| >= 1
    ensures forall p | p in r :: c !in p
    ensures Join([c], r) == s
  {
    if s == [] then [""]
    else
      var rest := Split(s[1..], c);
      if s[0] == c then
        assert Join([c], [""] + rest) == "" + [c] + Join([c], rest);
        [""] + rest
      else
        var r := [[s[0]] + rest[0]] + rest[1..];
        assert |rest| > 1 ==> Join([c], rest) == rest[0] + [c] + Join([c], rest[1..]);
        assert r[1..] == rest[1..];
        r
  }

  /** A string without the separator splits into itself. */
  lemma {:induction false} SplitWithoutSeparator(s: string, c: char)
    requires c !in s
    ensures Split(s, c) == [s]
  {
    if s != [] {
      SplitWithoutSeparator(s[1..], c);
    }
  }

  /** Splitting a separator-free piece followed by the separator peels that piece off. */
  lemma {:induction false} SplitAtSeparator(x: string, c: char, rest: string)
    requires c !in x
    ensures Split(x + [c] + rest, c) == [x] + Split(rest, c)
  {
    if x == [] {
      assert x + [c] + rest == [c] + rest;
    } else {
      var s := x + [c] + rest;
      assert s[0] == x[0] && s[1..] == x[1..] + [c] + rest;
      SplitAtSeparator(x[1..], c, rest);
      var tailSplit := Split(s[1..], c);
      assert tailSplit == [x[1..]] + Split(rest, c);
      assert [s[0]] + tailSplit[0] == x;
      assert Split(s, c) == [[s[0]] + tailSplit[0]] + tailSplit[1..];
    }
  }

  /** Split undoes Join when no element holds the separator. */
  lemma {:induction false} SplitJoin(xs: seq<string>, c: char)
    requires xs != []
    requires forall x | x in xs :: c !in x
    ensures Split(Join([c], xs), c) == xs
  {
    if |xs| == 1 {
      SplitWithoutSeparator(xs[0], c);
    } else {
      SplitAtSeparator(xs[0], c, Join([c], xs[1..]));
      SplitJoin(xs[1..], c);
    }
  }

  /**
   * `s.rpartition(c)`: the text before the last c, the separator itself and
   * the text after it; ("", "", s) when c does not occur.
   */
  function RPartition(s: string, c: char): (r: (string, string, string))
    ensures r.0 + r.1 + r.2 == s
    ensures c !in r.2
    ensures c in s <==> r.1 == [c]
    ensures c !in s ==> r == ("", "", s)
    decreases |s|
  {
    if s == [] then ("", "", "")
    else
      var init, last := s[..|s| - 1], s[|s| - 1];
      assert s == init + [last];
      if last == c then (init, [c], "")
      else
        var p := RPartition(init, c);
        assert c in s <==> c in init;
        assert p.0 + p.1 + (p.2 + [last]) == (p.0 + p.1 + p.2) + [last];
        (p.0, p.1, p.2 + [last])
  }

  /** The last occurrence of the separator is where rpartition cuts. */
  lemma {:induction false} RPartitionAtLast(head: string, c: char, tail: string)
    requires c !in tail
    ensures RPartition(head + [c] + tail, c) == (head, [c], tail)
  {
    var s := head + [c] + tail;
    if tail == [] {
      assert s[..|s| - 1] == head;
    } else {
      var t' := tail[..|tail| - 1];
      assert s[..|s| - 1] == head + [c] + t';
      assert tail == t' + [tail[|tail| - 1]];
      RPartitionAtLast(head, c, t');
    }
  }
}
