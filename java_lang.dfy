/**
 * The pieces of java.lang behaviour the adapter relies on, written out:
 * fixed-width integers, `long` division and the `(int)` cast, ASCII lower-casing,
 * `String.split("\\.")` and the literal `String.replaceFirst`.
 */
module JavaLang {

  /** Java `short`, `int` and `long`. */
  type Int32 = x: int | -0x8000_0000 <= x < 0x8000_0000
  type Long = x: int | -0x8000_0000_0000_0000 <= x < 0x8000_0000_0000_0000
  type Short = x: int | -0x8000 <= x < 0x8000

  /** Java's `/` on integers: the quotient is truncated toward zero, so the remainder
      takes the sign of the dividend (Dafny's own `/` is Euclidean). */
  function DivTruncated(a: int, b: int): (q: int)
    requires b > 0
    ensures a >= 0 ==> 0 <= a - q * b < b
    ensures a < 0 ==> -b < a - q * b <= 0
  {
    if a >= 0 then a / b
    else
      var n := -a;
      assert n == (n / b) * b + n % b;
      -(n / b)
  }

  /** Java's `(int)` narrowing of a `long`: keep the low 32 bits, read them as two's complement. */
  function NarrowToInt(x: int): (r: Int32)
    ensures (x - r) % 0x1_0000_0000 == 0
    ensures -0x8000_0000 <= x < 0x8000_0000 ==> r == x
  {
    var m := x % 0x1_0000_0000;
    if m < 0x8000_0000 then m else m - 0x1_0000_0000
  }

  // ---------------------------------------------------------------- lower case

  function LowerChar(c: char): char
  {
    if 'A' <= c <= 'Z' then (c as int + 32) as char else c
  }

  /** `toLowerCase`, restricted to the ASCII letters. */
  function Lower(s: string): string
  {
    seq(|s|, i requires 0 <= i < |s| => LowerChar(s[i]))
  }

  predicate IsLower(s: string)
  {
    forall i :: 0 <= i < |s| ==> !('A' <= s[i] <= 'Z')
  }

  lemma LowerIsLower(s: string)
    ensures IsLower(Lower(s)) && |Lower(s)| == |s|
  {
  }

  lemma LowerKeepsLower(s: string)
    requires IsLower(s)
    ensures Lower(s) == s
  {
  }

  lemma LowerIdempotent(s: string)
    ensures Lower(Lower(s)) == Lower(s)
  {
    LowerIsLower(s);
    LowerKeepsLower(Lower(s));
  }

  // ---------------------------------------------------------------- split on '.'

  /** Every segment between dots, empty ones included (a regex split with a negative limit). */
  function SplitAll(s: string): (parts: seq<string>)
    ensures |parts| >= 1
    ensures forall i :: 0 <= i < |parts| ==> '.' !in parts[i]
    decreases |s|
  {
    if |s| == 0 then [""]
    else
      var rest := SplitAll(s[1..]);
      if s[0] == '.' then [""] + rest
      else [[s[0]] + rest[0]] + rest[1..]
  }

  /** The inverse of `SplitAll`: the segments glued back together with dots. */
  function Join(parts: seq<string>): string
    requires |parts| >= 1
    decreases |parts|
  {
    if |parts| == 1 then parts[0] else parts[0] + "." + Join(parts[1..])
  }

  function DropTrailingEmpty(parts: seq<string>): (r: seq<string>)
    ensures |r| <= |parts| && r == parts[..|r|]
    ensures |r| > 0 ==> r[|r| - 1] != ""
    ensures forall i :: |r| <= i < |parts| ==> parts[i] == ""
    decreases |parts|
  {
    if |parts| > 0 && parts[|parts| - 1] == "" then DropTrailingEmpty(parts[..|parts| - 1]) else parts
  }

  /** `s.split("\\.")`: a string without a dot is returned whole; otherwise the segments,
      with the trailing empty ones removed. */
  function Split(s: string): seq<string>
  {
    if '.' !in s then [s] else DropTrailingEmpty(SplitAll(s))
  }

  lemma {:induction false} SplitAllNoDot(s: string)
    requires '.' !in s
    ensures SplitAll(s) == [s]
    decreases |s|
  {
    if |s| > 0 {
      SplitAllNoDot(s[1..]);
      assert [s[0]] + s[1..] == s;
    }
  }

  lemma {:induction false} SplitAllSeparated(a: string, b: string)
    requires '.' !in a
    ensures SplitAll(a + "." + b) == [a] + SplitAll(b)
    decreases |a|
  {
    if |a| == 0 {
      assert a + "." + b == "." + b;
      assert ("." + b)[1..] == b;
    } else {
      var s := a + "." + b;
      assert s[1..] == a[1..] + "." + b;
      SplitAllSeparated(a[1..], b);
      assert [a[0]] + a[1..] == a;
    }
  }

  /** Splitting undoes joining, for segments free of dots. */
  lemma {:induction false} SplitJoin(parts: seq<string>)
    requires |parts| >= 1
    requires forall i :: 0 <= i < |parts| ==> '.' !in parts[i]
    ensures SplitAll(Join(parts)) == parts
    decreases |parts|
  {
    if |parts| == 1 {
      SplitAllNoDot(parts[0]);
    } else {
      SplitJoin(parts[1..]);
      SplitAllSeparated(parts[0], Join(parts[1..]));
      assert [parts[0]] + parts[1..] == parts;
    }
  }

  /** Joining undoes splitting, for every string. */
  lemma {:induction false} JoinSplit(s: string)
    ensures Join(SplitAll(s)) == s
    decreases |s|
  {
    if |s| > 0 {
      JoinSplit(s[1..]);
      var rest := SplitAll(s[1..]);
      if s[0] == '.' {
        assert ([""] + rest)[1..] == rest;
        assert s == "." + s[1..];
      } else {
        var parts := [[s[0]] + rest[0]] + rest[1..];
        if |rest| == 1 {
          assert s == [s[0]] + s[1..];
        } else {
          assert parts[1..] == rest[1..];
          assert Join(rest) == rest[0] + "." + Join(rest[1..]);
          assert s == [s[0]] + s[1..];
        }
      }
    }
  }

  /** `cat + "." + db + "." + tbl` splits back into its three names. */
  lemma QualifiedNameSplits(cat: string, db: string, tbl: string)
    requires '.' !in cat && '.' !in db && '.' !in tbl && tbl != ""
    ensures Split(cat + "." + db + "." + tbl) == [cat, db, tbl]
  {
    var parts := [cat, db, tbl];
    assert Join(parts[2..]) == tbl;
    assert Join(parts[1..]) == db + "." + tbl;
    assert Join(parts) == cat + "." + db + "." + tbl;
    SplitJoin(parts);
    var s := cat + "." + db + "." + tbl;
    assert s[|cat|] == '.';
  }

  // ---------------------------------------------------------------- replaceFirst

  predicate OccursAt(s: string, pat: string, i: int)
  {
    0 <= i && i + |pat| <= |s| && s[i..i + |pat|] == pat
  }

  /** `s.replaceFirst(pat, rep)` for a pattern that matches only itself. */
  function ReplaceFirst(s: string, pat: string, rep: string): string
    requires pat != ""
    decreases |s|
  {
    if |s| < |pat| then s
    else if s[..|pat|] == pat then rep + s[|pat|..]
    else [s[0]] + ReplaceFirst(s[1..], pat, rep)
  }

  /** Without an occurrence of the pattern the string is returned unchanged. */
  lemma {:induction false} ReplaceFirstNoMatch(s: string, pat: string, rep: string)
    requires pat != ""
    requires forall i :: !OccursAt(s, pat, i)
    ensures ReplaceFirst(s, pat, rep) == s
    decreases |s|
  {
    if |s| >= |pat| {
      assert !OccursAt(s, pat, 0);
      forall i ensures !OccursAt(s[1..], pat, i) {
        if i >= 0 { ShiftedOccurrence(s, pat, i); }
      }
      ReplaceFirstNoMatch(s[1..], pat, rep);
      assert [s[0]] + s[1..] == s;
    }
  }

  /** Otherwise exactly the first occurrence is replaced and the rest is kept. */
  lemma {:induction false} ReplaceFirstAtFirstMatch(s: string, pat: string, rep: string, i: nat)
    requires pat != ""
    requires OccursAt(s, pat, i)
    requires forall j :: 0 <= j < i ==> !OccursAt(s, pat, j)
    ensures ReplaceFirst(s, pat, rep) == s[..i] + rep + s[i + |pat|..]
    decreases i
  {
    if i == 0 {
      assert s[..0] == [];
    } else {
      var t := s[1..];
      assert !OccursAt(s, pat, 0);
      assert ReplaceFirst(s, pat, rep) == [s[0]] + ReplaceFirst(t, pat, rep);
      assert t[i - 1..i - 1 + |pat|] == s[i..i + |pat|];
      assert OccursAt(t, pat, i - 1);
      forall j | 0 <= j < i - 1 ensures !OccursAt(t, pat, j) {
        ShiftedOccurrence(s, pat, j);
      }
      ReplaceFirstAtFirstMatch(t, pat, rep, i - 1);
      assert t[..i - 1] == s[1..i];
      assert t[i - 1 + |pat|..] == s[i + |pat|..];
      assert [s[0]] + s[1..i] == s[..i];
    }
  }

  lemma ShiftedOccurrence(s: string, pat: string, j: nat)
    requires |s| > 0
    ensures OccursAt(s[1..], pat, j) <==> OccursAt(s, pat, j + 1)
  {
    if j + |pat| <= |s| - 1 {
      assert s[1..][j..j + |pat|] == s[j + 1..j + 1 + |pat|];
    }
  }

  // ---------------------------------------------------------------- decimal text

  function DigitChar(d: nat): char
    requires d < 10
  {
    "0123456789"[d]
  }

  /** `Integer.toString` of a non-negative number. */
  function NatToString(n: nat): string
    decreases n
  {
    if n < 10 then [DigitChar(n)] else NatToString(n / 10) + [DigitChar(n % 10)]
  }
}
