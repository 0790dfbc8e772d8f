/** The parts of Go's `strconv` and `strings` packages the services rely on,
    over `seq<char>`. Case mapping and white-space trimming cover ASCII only. */
module Strings {
  import opened Results

  /** True when `c` is an ASCII decimal digit. */
  predicate IsDigit(c: char) { '0' <= c <= '9' }

  /** True when every character of `s` is a decimal digit. */
  predicate AllDigits(s: string) { forall i :: 0 <= i < |s| ==> IsDigit(s[i]) }

  function DigitChar(d: nat): (c: char)
    requires d < 10
    ensures IsDigit(c) && c as int - '0' as int == d
  {
    ('0' as int + d) as char
  }

  /** `strconv.Itoa` on a non-negative value (also Go's `%d`). */
  function NatToString(n: nat): (s: string)
    ensures |s| >= 1 && AllDigits(s)
    ensures s[0] == '0' ==> n == 0
    decreases n
  {
    if n < 10 then [DigitChar(n)] else NatToString(n / 10) + [DigitChar(n % 10)]
  }

  /** `strconv.Itoa` / `%d` on any `int`: a leading '-' for negative values. */
  function IntToString(i: int): (s: string)
    ensures |s| >= 1
    ensures i >= 0 <==> s[0] != '-'
  {
    if i >= 0 then NatToString(i) else "-" + NatToString(-i)
  }

  /** The value of a string of decimal digits, most significant first. */
  function DigitsValue(s: string): nat
    requires AllDigits(s)
  {
    if |s| == 0 then 0
    else DigitsValue(s[..|s| - 1]) * 10 + (s[|s| - 1] as int - '0' as int)
  }

  /** The inverse of `NatToString`: a non-empty run of digits, or nothing. */
  function ParseNat(s: string): (r: Option<nat>)
    ensures r.Some? <==> |s| > 0 && AllDigits(s)
  {
    if |s| > 0 && AllDigits(s) then Some(DigitsValue(s)) else None
  }

  /** Printing a number and reading it back yields that number. */
  lemma {:induction false} ParseNatToString(n: nat)
    ensures ParseNat(NatToString(n)) == Some(n)
    decreases n
  {
    if n >= 10 {
      ParseNatToString(n / 10);
      var s := NatToString(n);
      assert s[..|s| - 1] == NatToString(n / 10);
      assert s[|s| - 1] == DigitChar(n % 10);
      assert DigitsValue(s) == DigitsValue(NatToString(n / 10)) * 10 + n % 10;
    }
  }

  /** Distinct numbers print differently. */
  lemma NatToStringInjective(m: nat, n: nat)
    ensures NatToString(m) == NatToString(n) <==> m == n
  {
    if NatToString(m) == NatToString(n) {
      ParseNatToString(m);
      ParseNatToString(n);
    }
  }

  /** No printed integer contains `c` when `c` is neither a digit nor '-'. */
  lemma IntToStringFree(i: int, c: char)
    requires !IsDigit(c) && c != '-'
    ensures c !in IntToString(i)
  {
  }

  /** A character absent from both parts is absent from their concatenation. */
  lemma NotInAppend(a: string, b: string, c: char)
    requires c !in a && c !in b
    ensures c !in a + b
  {
  }

  /** `order` holds exactly the elements of `keys`, as often: one order a Go map's keys
      may be visited in. */
  predicate Listing<T(==)>(order: seq<T>, keys: seq<T>)
  {
    multiset(order) == multiset(keys)
  }

  /** `strings.HasPrefix`. */
  predicate HasPrefix(s: string, p: string) { |p| <= |s| && s[..|p|] == p }

  /** `strings.HasSuffix`. */
  predicate HasSuffix(s: string, p: string) { |p| <= |s| && s[|s| - |p|..] == p }

  /** `strings.Contains`: `sub` occurs somewhere in `s`. */
  predicate Contains(s: string, sub: string)
    decreases |s|
  {
    HasPrefix(s, sub) || (|s| > 0 && Contains(s[1..], sub))
  }

  /** ASCII case folding of one character. */
  function LowerChar(c: char): char
  {
    if 'A' <= c <= 'Z' then (c as int - 'A' as int + 'a' as int) as char else c
  }

  /** `strings.ToLower`, restricted to ASCII letters. */
  function ToLower(s: string): (r: string)
    ensures |r| == |s|
    ensures forall i :: 0 <= i < |s| ==> !('A' <= r[i] <= 'Z')
  {
    seq(|s|, i requires 0 <= i < |s| => LowerChar(s[i]))
  }

  /** Lower-casing a second time changes nothing. */
  lemma ToLowerIdempotent(s: string)
    ensures ToLower(ToLower(s)) == ToLower(s)
  {
  }

  /** The ASCII white space `strings.TrimSpace` removes. */
  predicate IsSpace(c: char) { c == ' ' || c == '\t' || c == '\n' || c == '\r' || c == '\U{000B}' || c == '\U{000C}' }

  function TrimLeft(s: string): (r: string)
    ensures |r| <= |s| && r == s[|s| - |r|..]
    ensures |r| > 0 ==> !IsSpace(r[0])
    ensures forall i :: 0 <= i < |s| - |r| ==> IsSpace(s[i])
  {
    if |s| > 0 && IsSpace(s[0]) then
      var r := TrimLeft(s[1..]);
      assert s[1..][|s| - 1 - |r|..] == s[|s| - |r|..];
      assert forall i :: 1 <= i < |s| - |r| ==> s[i] == s[1..][i - 1];
      r
    else s
  }

  function TrimRight(s: string): (r: string)
    ensures |r| <= |s| && r == s[..|r|]
    ensures |r| > 0 ==> !IsSpace(r[|r| - 1])
    ensures forall i :: |r| <= i < |s| ==> IsSpace(s[i])
  {
    if |s| > 0 && IsSpace(s[|s| - 1]) then TrimRight(s[..|s| - 1]) else s
  }

  /** The number of white-space characters `TrimSpace` removes from the front. */
  function LeadingSpaces(s: string): (n: nat)
    ensures n <= |s|
  {
    |s| - |TrimLeft(s)|
  }

  /** `strings.TrimSpace`: drops leading and trailing white space and nothing else. */
  function TrimSpace(s: string): (r: string)
    ensures LeadingSpaces(s) + |r| <= |s| && r == s[LeadingSpaces(s)..LeadingSpaces(s) + |r|]
    ensures forall i :: 0 <= i < LeadingSpaces(s) ==> IsSpace(s[i])
    ensures forall i :: LeadingSpaces(s) + |r| <= i < |s| ==> IsSpace(s[i])
    ensures |r| > 0 ==> !IsSpace(r[0]) && !IsSpace(r[|r| - 1])
  {
    TrimRight(TrimLeft(s))
  }

  /** Trimming leaves nothing more to trim. */
  lemma TrimSpaceIdempotent(s: string)
    ensures TrimSpace(TrimSpace(s)) == TrimSpace(s)
  {
    var r := TrimSpace(s);
    assert TrimLeft(r) == r;
    assert TrimRight(r) == r;
  }

  /** `strings.Split(s, string(sep))` for a one-character separator: the pieces between separators. */
  function Split(s: string, sep: char): (parts: seq<string>)
    ensures |parts| >= 1
    ensures forall i :: 0 <= i < |parts| ==> sep !in parts[i]
    decreases |s|
  {
    if |s| == 0 then [""]
    else
      var rest := Split(s[1..], sep);
      if s[0] == sep then [""] + rest
      else [[s[0]] + rest[0]] + rest[1..]
  }

  /** `strings.Join(parts, sep)`. */
  function JoinWith(parts: seq<string>, sep: string): string
    decreases |parts|
  {
    if |parts| == 0 then ""
    else if |parts| == 1 then parts[0]
    else parts[0] + sep + JoinWith(parts[1..], sep)
  }

  /** Splitting two separator-free pieces joined by the separator gives the two pieces. */
  lemma SplitPair(x: string, y: string, sep: char)
    requires sep !in x && sep !in y
    ensures Split(x + [sep] + y, sep) == [x, y]
  {
    assert [x, y][1..] == [y];
    assert JoinWith([x, y], [sep]) == x + [sep] + y;
    SplitJoin([x, y], sep);
  }

  /** Splitting after a separator-free first piece: that piece, then the rest's pieces. */
  lemma SplitCons(x: string, y: string, sep: char)
    requires sep !in x
    ensures Split(x + [sep] + y, sep) == [x] + Split(y, sep)
  {
    var rest := Split(y, sep);
    JoinSplit(y, sep);
    assert ([x] + rest)[1..] == rest;
    assert JoinWith([x] + rest, [sep]) == x + [sep] + y;
    SplitJoin([x] + rest, sep);
  }

  /** A join starts with its first piece. */
  lemma JoinStartsWith(parts: seq<string>, sep: string)
    requires |parts| >= 1
    ensures HasPrefix(JoinWith(parts, sep), parts[0])
  {
    if |parts| > 1 {
      assert JoinWith(parts, sep)[..|parts[0]|] == parts[0];
    }
  }

  /** Joining the pieces of a split with the separator gives back the string. */
  lemma {:induction false} JoinSplit(s: string, sep: char)
    ensures JoinWith(Split(s, sep), [sep]) == s
    decreases |s|
  {
    if |s| > 0 {
      JoinSplit(s[1..], sep);
      var rest := Split(s[1..], sep);
      if s[0] != sep {
        if |rest| > 1 {
          assert ([[s[0]] + rest[0]] + rest[1..])[1..] == rest[1..];
          assert JoinWith(rest, [sep]) == rest[0] + [sep] + JoinWith(rest[1..], [sep]);
        }
      }
    }
  }

  /** Splitting a join of separator-free pieces gives back the pieces. */
  lemma {:induction false} SplitJoin(parts: seq<string>, sep: char)
    requires |parts| >= 1
    requires forall i :: 0 <= i < |parts| ==> sep !in parts[i]
    ensures Split(JoinWith(parts, [sep]), sep) == parts
    decreases |parts|, |parts[0]|
  {
    if |parts| == 1 {
      SplitNoSep(parts[0], sep);
    } else if |parts[0]| == 0 {
      SplitJoin(parts[1..], sep);
      assert JoinWith(parts, [sep]) == [sep] + JoinWith(parts[1..], [sep]);
      assert ([sep] + JoinWith(parts[1..], [sep]))[1..] == JoinWith(parts[1..], [sep]);
      assert [""] + parts[1..] == parts;
    } else {
      var p0 := parts[0];
      var shorter := [p0[1..]] + parts[1..];
      assert shorter[1..] == parts[1..];
      SplitJoin(shorter, sep);
      var j := JoinWith(parts, [sep]);
      assert j == p0 + [sep] + JoinWith(parts[1..], [sep]);
      assert j[1..] == JoinWith(shorter, [sep]);
      assert j[0] == p0[0];
      assert [p0[0]] + p0[1..] == p0;
      assert [[p0[0]] + p0[1..]] + parts[1..] == parts;
    }
  }

  lemma {:induction false} SplitNoSep(s: string, sep: char)
    requires sep !in s
    ensures Split(s, sep) == [s]
    decreases |s|
  {
    if |s| > 0 {
      assert s[0] != sep;
      assert sep !in s[1..] by {
        assert forall k :: 0 <= k < |s| - 1 ==> s[1..][k] == s[k + 1];
      }
      SplitNoSep(s[1..], sep);
      assert [s[0]] + s[1..] == s;
    }
  }

  /** Every line followed by a newline is the same text as the lines joined by
      newlines, plus a final empty line. */
  function Lines(lines: seq<string>): string
  {
    if |lines| == 0 then "" else lines[0] + "\n" + Lines(lines[1..])
  }

  lemma {:induction false} LinesAsJoin(lines: seq<string>)
    ensures Lines(lines) == JoinWith(lines + [""], "\n")
    decreases |lines|
  {
    if |lines| > 0 {
      LinesAsJoin(lines[1..]);
      assert (lines + [""])[1..] == lines[1..] + [""];
    }
  }

  lemma {:induction false} LinesAppend(a: seq<string>, b: seq<string>)
    ensures Lines(a + b) == Lines(a) + Lines(b)
  {
    if |a| > 0 {
      assert (a + b)[1..] == a[1..] + b;
      LinesAppend(a[1..], b);
      calc {
        Lines(a + b);
        a[0] + "\n" + Lines(a[1..] + b);
        a[0] + "\n" + (Lines(a[1..]) + Lines(b));
        (a[0] + "\n" + Lines(a[1..])) + Lines(b);
      }
    } else {
      assert a + b == b;
    }
  }

  /** The lines of newline-terminated text come back from `Split` on '\n', followed by "". */
  lemma SplitLines(lines: seq<string>)
    requires forall i :: 0 <= i < |lines| ==> '\n' !in lines[i]
    ensures Split(Lines(lines), '\n') == lines + [""]
  {
    var all := lines + [""];
    NewlineFreeTail(lines);
    SplitJoin(all, '\n');
    LinesAsJoin(lines);
  }

  lemma NewlineFreeTail(lines: seq<string>)
    requires forall i :: 0 <= i < |lines| ==> '\n' !in lines[i]
    ensures forall i :: 0 <= i < |lines + [""]| ==> '\n' !in (lines + [""])[i]
  {
    var all := lines + [""];
    forall i | 0 <= i < |all| ensures '\n' !in all[i] {
      if i < |lines| {
        assert all[i] == lines[i];
      } else {
        assert all[i] == "";
      }
    }
  }

  /** The lines `f` gives for each element, in order. */
  function ConcatMap<T>(f: T -> seq<string>, xs: seq<T>): seq<string>
  {
    if |xs| == 0 then [] else ConcatMap(f, xs[..|xs| - 1]) + f(xs[|xs| - 1])
  }

  /** When `f` gives two lines per element, line `2i` and `2i+1` are those of element `i`. */
  lemma {:induction false} ConcatMapPairs<T>(f: T -> seq<string>, xs: seq<T>, i: nat)
    requires forall j :: 0 <= j < |xs| ==> |f(xs[j])| == 2
    requires i < |xs|
    ensures |ConcatMap(f, xs)| == 2 * |xs|
    ensures ConcatMap(f, xs)[2 * i] == f(xs[i])[0] && ConcatMap(f, xs)[2 * i + 1] == f(xs[i])[1]
    decreases |xs|
  {
    var init := xs[..|xs| - 1];
    assert forall j :: 0 <= j < |init| ==> init[j] == xs[j];
    var ai, e := ConcatMap(f, init), f(xs[|xs| - 1]);
    if |init| > 0 {
      ConcatMapPairs(f, init, if i < |init| then i else 0);
    }
    assert |ai| == 2 * |init|;
    if i < |init| {
      assert (ai + e)[2 * i] == ai[2 * i] && (ai + e)[2 * i + 1] == ai[2 * i + 1];
    } else {
      assert (ai + e)[2 * i] == e[0] && (ai + e)[2 * i + 1] == e[1];
    }
  }

  /** When no line `f` gives contains `c`, no line of the concatenation does. */
  lemma {:induction false} ConcatMapFree<T>(f: T -> seq<string>, xs: seq<T>, c: char)
    requires forall j, k :: 0 <= j < |xs| && 0 <= k < |f(xs[j])| ==> c !in f(xs[j])[k]
    ensures forall k :: 0 <= k < |ConcatMap(f, xs)| ==> c !in ConcatMap(f, xs)[k]
    decreases |xs|
  {
    if |xs| > 0 {
      var init := xs[..|xs| - 1];
      assert forall j :: 0 <= j < |init| ==> init[j] == xs[j];
      ConcatMapFree(f, init, c);
      var ai, e := ConcatMap(f, init), f(xs[|xs| - 1]);
      forall k | 0 <= k < |ai + e|
        ensures c !in (ai + e)[k]
      {
        if k >= |ai| {
          assert (ai + e)[k] == e[k - |ai|];
        }
      }
    }
  }

  /** `strings.ReplaceAll(s, pat, rep)` for a non-empty `pat`: left to right, non-overlapping. */
  function ReplaceAll(s: string, pat: string, rep: string): (r: string)
    requires |pat| > 0
    ensures !Contains(s, pat) ==> r == s
    decreases |s|
  {
    if |s| == 0 then s
    else if HasPrefix(s, pat) then rep + ReplaceAll(s[|pat|..], pat, rep)
    else [s[0]] + ReplaceAll(s[1..], pat, rep)
  }

  /** No occurrence of a pattern that starts with `c` in a string free of `c`. */
  lemma {:induction false} NoMatchWithout(s: string, pat: string, c: char)
    requires |pat| > 0 && pat[0] == c && c !in s
    ensures !Contains(s, pat)
    decreases |s|
  {
    if |s| > 0 {
      assert c !in s[1..] by {
        assert forall k :: 0 <= k < |s| - 1 ==> s[1..][k] == s[k + 1];
      }
      NoMatchWithout(s[1..], pat, c);
    }
  }

  /** A first character that does not start the pattern passes through `ReplaceAll`. */
  lemma ReplaceAllCons(c: char, t: string, pat: string, rep: string)
    requires |pat| > 0 && c != pat[0]
    ensures ReplaceAll([c] + t, pat, rep) == [c] + ReplaceAll(t, pat, rep)
  {
    var s := [c] + t;
    assert s[0] == c && s[1..] == t;
    if |pat| <= |s| {
      assert s[..|pat|][0] == c;
    }
  }

  /** A prefix free of the pattern's first character passes through `ReplaceAll` intact. */
  lemma {:induction false} ReplaceAllAfter(a: string, b: string, pat: string, rep: string)
    requires |pat| > 0 && pat[0] !in a
    ensures ReplaceAll(a + b, pat, rep) == a + ReplaceAll(b, pat, rep)
    decreases |a|
  {
    if |a| > 0 {
      var c, tail := a[0], a[1..];
      assert a == [c] + tail;
      assert a + b == [c] + (tail + b);
      assert pat[0] !in tail;
      ReplaceAllCons(c, tail + b, pat, rep);
      ReplaceAllAfter(tail, b, pat, rep);
    } else {
      assert a + b == b;
    }
  }
}
