/** The handful of JavaScript string operations the core relies on, over `seq<char>`. */
module Strings {
  import opened Wrappers

  /** `a || b` on an optional string: an absent or empty `a` is falsy. */
  function OrElse(a: Option<string>, b: string): (r: string)
    ensures r == b || (a.Some? && r == a.value && r != "")
  {
    if a.Some? && a.value != "" then a.value else b
  }

  /** `s.replace(new RegExp(from, "g"), to)` for a single character. */
  function ReplaceChar(s: string, from: char, to: char): (r: string)
    ensures |r| == |s|
    ensures forall i :: 0 <= i < |s| ==> r[i] == (if s[i] == from then to else s[i])
  {
    if s == [] then [] else [if s[0] == from then to else s[0]] + ReplaceChar(s[1..], from, to)
  }

  /** JavaScript's `s.length`: the number of UTF-16 code units, two for a character outside the Basic
      Multilingual Plane and one for any other. */
  function Utf16Length(s: string): (n: nat)
    ensures |s| <= n <= 2 * |s|
  {
    if s == [] then 0 else (if s[0] as int >= 0x10000 then 2 else 1) + Utf16Length(s[1..])
  }

  /** Code units add up over a concatenation. */
  lemma {:induction false} Utf16LengthAppend(a: string, b: string)
    ensures Utf16Length(a + b) == Utf16Length(a) + Utf16Length(b)
  {
    if a == [] {
      assert a + b == b;
    } else {
      assert (a + b)[0] == a[0] && (a + b)[1..] == a[1..] + b;
      Utf16LengthAppend(a[1..], b);
    }
  }

  /** On text within the Basic Multilingual Plane, code units and characters agree. */
  lemma {:induction false} Utf16LengthBmp(s: string)
    requires forall i :: 0 <= i < |s| ==> s[i] as int < 0x10000
    ensures Utf16Length(s) == |s|
  {
    if s != [] {
      assert forall i :: 0 <= i < |s[1..]| ==> s[1..][i] == s[i + 1];
      Utf16LengthBmp(s[1..]);
    }
  }

  /** A character outside the Basic Multilingual Plane counts twice: n of them are 2 * n code units. */
  lemma {:induction false} Utf16LengthAstral(n: nat, c: char)
    requires c as int >= 0x10000
    ensures Utf16Length(seq(n, _ => c)) == 2 * n
  {
    if n > 0 {
      assert seq(n, _ => c)[1..] == seq(n - 1, _ => c);
      Utf16LengthAstral(n - 1, c);
    }
  }

  /** `s.startsWith(p)` */
  predicate StartsWith(s: string, p: string) {
    |p| <= |s| && s[..|p|] == p
  }

  /** `s.includes(p)`: `p` occurs in `s` at some offset. */
  predicate Includes(s: string, p: string)
    decreases |s|
  {
    StartsWith(s, p) || (s != [] && Includes(s[1..], p))
  }

  /** `s.toLowerCase()` restricted to ASCII letters. */
  function ToLowerAscii(s: string): (r: string)
    ensures |r| == |s|
    ensures forall i :: 0 <= i < |s| ==> r[i] == LowerChar(s[i])
  {
    if s == [] then [] else [LowerChar(s[0])] + ToLowerAscii(s[1..])
  }

  function LowerChar(c: char): char {
    if 'A' <= c <= 'Z' then (c as int + 32) as char else c
  }

  /** `parts.join(sep)` */
  function Join(parts: seq<string>, sep: char): string {
    if |parts| == 0 then ""
    else if |parts| == 1 then parts[0]
    else parts[0] + [sep] + Join(parts[1..], sep)
  }

  /** `s.split(sep)` for a single-character separator: always at least one field, none containing `sep`. */
  function Split(s: string, sep: char): (r: seq<string>)
    ensures |r| >= 1
    ensures forall i :: 0 <= i < |r| ==> sep !in r[i]
  {
    if s == [] then [""]
    else
      var rest := Split(s[1..], sep);
      if s[0] == sep then [""] + rest else [[s[0]] + rest[0]] + rest[1..]
  }

  /** Joining the fields of a split gives back the string. */
  lemma {:induction false} JoinSplit(s: string, sep: char)
    ensures Join(Split(s, sep), sep) == s
  {
    if s != [] {
      JoinSplit(s[1..], sep);
      var rest := Split(s[1..], sep);
      if s[0] != sep && |rest| > 1 {
        assert Join([[s[0]] + rest[0]] + rest[1..], sep)
            == [s[0]] + rest[0] + [sep] + Join(rest[1..], sep);
      }
    }
  }

  /** Splitting a join of separator-free fields gives back the fields. */
  lemma {:induction false} SplitJoin(parts: seq<string>, sep: char)
    requires |parts| >= 1
    requires forall i :: 0 <= i < |parts| ==> sep !in parts[i]
    ensures Split(Join(parts, sep), sep) == parts
    decreases |parts|, |parts[0]|
  {
    if |parts| == 1 {
      SplitFree(parts[0], sep);
    } else if parts[0] == "" {
      SplitJoin(parts[1..], sep);
      assert Join(parts, sep) == [sep] + Join(parts[1..], sep);
      assert ([sep] + Join(parts[1..], sep))[1..] == Join(parts[1..], sep);
      assert parts == [""] + parts[1..];
    } else {
      var p0 := parts[0];
      var tail := [p0[1..]] + parts[1..];
      assert forall i :: 0 <= i < |tail| ==> sep !in tail[i] by {
        forall i | 0 <= i < |tail| ensures sep !in tail[i] {
          if i == 0 { assert forall c :: c in p0[1..] ==> c in p0; } else { assert tail[i] == parts[i]; }
        }
      }
      SplitJoin(tail, sep);
      assert tail[1..] == parts[1..];
      assert Join(tail, sep) == p0[1..] + [sep] + Join(parts[1..], sep);
      assert Join(parts, sep) == [p0[0]] + Join(tail, sep);
      assert ([p0[0]] + Join(tail, sep))[1..] == Join(tail, sep);
      assert p0[0] != sep;
      assert [p0[0]] + p0[1..] == p0;
    }
  }

  /** A string without the separator splits into itself alone. */
  lemma {:induction false} SplitFree(s: string, sep: char)
    requires sep !in s
    ensures Split(s, sep) == [s]
  {
    if s != [] {
      assert sep !in s[1..] by { assert forall c :: c in s[1..] ==> c in s; }
      SplitFree(s[1..], sep);
      assert [s[0]] + s[1..] == s;
    }
  }

  /** `s.replace(p, "")` with a string pattern: removes the first occurrence of `p`, if any. */
  function RemoveFirst(s: string, p: string): string
    decreases |s|
  {
    if StartsWith(s, p) then s[|p|..]
    else if s == [] then s
    else [s[0]] + RemoveFirst(s[1..], p)
  }

  /** `p` occurs in `s` at offset `i`, and at no earlier offset. */
  predicate FirstOccurrenceAt(s: string, p: string, i: nat) {
    i <= |s| && StartsWith(s[i..], p) && forall j :: 0 <= j < i ==> !StartsWith(s[j..], p)
  }

  /** `RemoveFirst` leaves a string without the pattern unchanged, and otherwise cuts the pattern out at its
      first occurrence. */
  lemma {:induction false} RemoveFirstCuts(s: string, p: string)
    ensures !Includes(s, p) ==> RemoveFirst(s, p) == s
    ensures Includes(s, p) ==>
      exists i: nat :: FirstOccurrenceAt(s, p, i) && RemoveFirst(s, p) == s[..i] + s[i + |p|..]
    decreases |s|
  {
    if StartsWith(s, p) {
      assert s[..0] + s[|p|..] == s[|p|..];
      assert s[0..] == s;
      assert FirstOccurrenceAt(s, p, 0);
    } else if s != [] {
      RemoveFirstCuts(s[1..], p);
      if Includes(s[1..], p) {
        var t := s[1..];
        var i: nat :| FirstOccurrenceAt(t, p, i) && RemoveFirst(t, p) == t[..i] + t[i + |p|..];
        RemoveFirstStep(s, p, i);
      } else {
        assert [s[0]] + s[1..] == s;
      }
    }
  }

  lemma RemoveFirstStep(s: string, p: string, i: nat)
    requires s != [] && !StartsWith(s, p)
    requires FirstOccurrenceAt(s[1..], p, i)
    requires RemoveFirst(s[1..], p) == s[1..][..i] + s[1..][i + |p|..]
    ensures FirstOccurrenceAt(s, p, i + 1)
    ensures RemoveFirst(s, p) == s[..i + 1] + s[i + 1 + |p|..]
  {
    var t := s[1..];
    FirstOccurrenceStep(s, p, i);
    assert RemoveFirst(s, p) == [s[0]] + RemoveFirst(t, p);
    assert |p| <= |t| - i;
    calc {
      [s[0]] + (t[..i] + t[i + |p|..]);
      ([s[0]] + t[..i]) + t[i + |p|..];
      { assert [s[0]] + t[..i] == s[..i + 1]; }
      s[..i + 1] + t[i + |p|..];
      { assert t[i + |p|..] == s[i + 1 + |p|..]; }
      s[..i + 1] + s[i + 1 + |p|..];
    }
  }

  lemma FirstOccurrenceStep(s: string, p: string, i: nat)
    requires s != [] && !StartsWith(s, p)
    requires FirstOccurrenceAt(s[1..], p, i)
    ensures FirstOccurrenceAt(s, p, i + 1)
  {
    var t := s[1..];
    assert s[i + 1..] == t[i..];
    forall j | 0 <= j < i + 1 ensures !StartsWith(s[j..], p) {
      if j > 0 {
        assert s[j..] == t[j - 1..];
        assert !StartsWith(t[j - 1..], p);
      }
    }
  }

  /** Strict lexicographic order on code points: the total order used for version strings. */
  predicate LexLess(a: string, b: string) {
    if |a| == 0 then |b| > 0
    else if |b| == 0 then false
    else if a[0] != b[0] then a[0] < b[0]
    else LexLess(a[1..], b[1..])
  }

  lemma {:induction false} LexIrreflexive(a: string)
    ensures !LexLess(a, a)
  {
    if |a| > 0 { LexIrreflexive(a[1..]); }
  }

  lemma {:induction false} LexTransitive(a: string, b: string, c: string)
    requires LexLess(a, b) && LexLess(b, c)
    ensures LexLess(a, c)
  {
    if |a| > 0 && |b| > 0 && |c| > 0 && a[0] == b[0] && b[0] == c[0] {
      LexTransitive(a[1..], b[1..], c[1..]);
    }
  }

  lemma {:induction false} LexTotal(a: string, b: string)
    requires a != b
    ensures LexLess(a, b) || LexLess(b, a)
  {
    if |a| > 0 && |b| > 0 && a[0] == b[0] {
      assert a == [a[0]] + a[1..] && b == [b[0]] + b[1..];
      LexTotal(a[1..], b[1..]);
    }
  }

  lemma {:induction false} LexAsymmetric(a: string, b: string)
    requires LexLess(a, b)
    ensures !LexLess(b, a)
  {
    if |a| > 0 && |b| > 0 && a[0] == b[0] {
      LexAsymmetric(a[1..], b[1..]);
    }
  }

  /** `String(n)` for an integer. */
  function IntToString(n: int): (r: string)
    ensures |r| >= 1
  {
    if n < 0 then "-" + NatToString(-n) else NatToString(n)
  }

  function NatToString(n: nat): (r: string)
    ensures |r| >= 1
    ensures forall i :: 0 <= i < |r| ==> '0' <= r[i] <= '9'
  {
    if n < 10 then [DigitChar(n)] else NatToString(n / 10) + [DigitChar(n % 10)]
  }

  function DigitChar(d: nat): (c: char)
    requires d < 10
  {
    (d + '0' as int) as char
  }
}
