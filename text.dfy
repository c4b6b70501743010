/** String operations with the semantics of Rust's `str::split` (on a non-empty
    separator), `[String]::join`, `str::replace` and the decimal `Display` of
    an unsigned integer, together with the facts the generators rely on. */
module Text {

  /** A line break. */
  const NL := "\n"

  /** `sep` occurs in `s` starting at position `i`. */
  predicate MatchAt(s: string, i: nat, sep: string)
  {
    i + |sep| <= |s| && s[i..i + |sep|] == sep
  }

  /** No character of `s` is `c`. */
  predicate Avoids(s: string, c: char)
  {
    forall j | 0 <= j < |s| :: s[j] != c
  }

  /** The pieces of `s` between the leftmost non-overlapping occurrences of `sep`,
      as `s.split(sep)` yields them. */
  function SplitOn(s: string, sep: string): (r: seq<string>)
    requires sep != []
    ensures |r| >= 1
    decreases |s|
  {
    if MatchAt(s, 0, sep) then [""] + SplitOn(s[|sep|..], sep)
    else if s == [] then [""]
    else
      var rest := SplitOn(s[1..], sep);
      [[s[0]] + rest[0]] + rest[1..]
  }

  lemma ConcatAssoc(a: string, b: string, d: string)
    ensures a + b + d == a + (b + d)
  {
  }

  lemma EmptyRight(s: string)
    ensures s + "" == s
  {
  }

  function Join(xs: seq<string>, sep: string): string
  {
    if |xs| == 0 then ""
    else if |xs| == 1 then xs[0]
    else xs[0] + sep + Join(xs[1..], sep)
  }

  /** Each string followed by `sep`, as a loop writing "item, " per item produces. */
  function Terminated(xs: seq<string>, sep: string): string
  {
    if xs == [] then "" else Terminated(xs[..|xs| - 1], sep) + (xs[|xs| - 1] + sep)
  }

  /** Every occurrence of `from` replaced by `to`, scanning left to right. */
  function Replace(s: string, from: string, to: string): string
    requires from != []
  {
    Join(SplitOn(s, from), to)
  }

  lemma {:induction false} JoinSnoc(xs: seq<string>, y: string, sep: string)
    requires |xs| >= 1
    ensures Join(xs + [y], sep) == Join(xs, sep) + sep + y
  {
    if |xs| > 1 {
      assert (xs + [y])[1..] == xs[1..] + [y];
      JoinSnoc(xs[1..], y, sep);
    }
  }

  lemma JoinHead(c: char, x: string, xs: seq<string>, sep: string)
    ensures Join([[c] + x] + xs, sep) == [c] + Join([x] + xs, sep)
  {
    if |xs| > 0 {
      assert ([[c] + x] + xs)[1..] == xs;
      assert ([x] + xs)[1..] == xs;
    }
  }

  lemma MatchShift(s: string, i: nat, sep: string)
    requires |s| >= 1
    ensures MatchAt(s[1..], i, sep) <==> MatchAt(s, i + 1, sep)
  {
    if i + 1 + |sep| <= |s| {
      assert s[1..][i..i + |sep|] == s[i + 1..i + 1 + |sep|];
    }
  }

  /** Splitting `a + sep + b` where no occurrence of `sep` starts inside `a`
      yields `a` as its first piece, followed by the pieces of `b`. */
  lemma {:induction false} SplitCons(a: string, sep: string, b: string)
    requires sep != []
    requires forall i | 0 <= i < |a| :: !MatchAt(a + sep + b, i, sep)
    ensures SplitOn(a + sep + b, sep) == [a] + SplitOn(b, sep)
  {
    var s := a + sep + b;
    if a == [] {
      assert s == sep + b;
      assert s[..|sep|] == sep;
      assert s[|sep|..] == b;
    } else {
      assert !MatchAt(s, 0, sep);
      assert s[1..] == a[1..] + sep + b;
      forall i | 0 <= i < |a[1..]|
        ensures !MatchAt(a[1..] + sep + b, i, sep)
      {
        MatchShift(s, i, sep);
      }
      SplitCons(a[1..], sep, b);
      assert [s[0]] + a[1..] == a;
    }
  }

  /** A string in which `sep` never occurs is split into itself alone. */
  lemma {:induction false} SplitWhole(a: string, sep: string)
    requires sep != []
    requires forall i | 0 <= i <= |a| :: !MatchAt(a, i, sep)
    ensures SplitOn(a, sep) == [a]
    decreases |a|
  {
    if a != [] {
      forall i | 0 <= i <= |a[1..]|
        ensures !MatchAt(a[1..], i, sep)
      {
        MatchShift(a, i, sep);
      }
      SplitWhole(a[1..], sep);
      assert [a[0]] + a[1..] == a;
    }
  }

  /** A string without the character `c` is split at `c` into itself alone. */
  lemma AvoidsSplit(a: string, c: char)
    requires Avoids(a, c)
    ensures SplitOn(a, [c]) == [a]
  {
    forall i | 0 <= i <= |a|
      ensures !MatchAt(a, i, [c])
    {
      if i + 1 <= |a| { assert a[i..i + 1][0] == a[i]; }
    }
    SplitWhole(a, [c]);
  }

  /** Joining the pieces of a split gives back the original string. */
  lemma {:induction false} JoinSplit(s: string, sep: string)
    requires sep != []
    ensures Join(SplitOn(s, sep), sep) == s
    decreases |s|
  {
    if MatchAt(s, 0, sep) {
      var rest := s[|sep|..];
      JoinSplit(rest, sep);
      assert SplitOn(s, sep) == [""] + SplitOn(rest, sep);
      assert (([""] + SplitOn(rest, sep))[1..]) == SplitOn(rest, sep);
      assert s == s[..|sep|] + rest;
    } else if s != [] {
      var rest := SplitOn(s[1..], sep);
      JoinSplit(s[1..], sep);
      assert rest == [rest[0]] + rest[1..];
      JoinHead(s[0], rest[0], rest[1..], sep);
      assert [s[0]] + s[1..] == s;
    }
  }

  /** Splitting a join gives back the joined strings, provided none of them
      contains the separator's first character. */
  lemma {:induction false} SplitJoin(xs: seq<string>, sep: string)
    requires sep != [] && |xs| >= 1
    requires forall k | 0 <= k < |xs| :: Avoids(xs[k], sep[0])
    ensures SplitOn(Join(xs, sep), sep) == xs
  {
    if |xs| == 1 {
      forall i | 0 <= i <= |xs[0]|
        ensures !MatchAt(xs[0], i, sep)
      {
        if i + |sep| <= |xs[0]| { assert xs[0][i..i + |sep|][0] == xs[0][i]; }
      }
      SplitWhole(xs[0], sep);
    } else {
      var rest := Join(xs[1..], sep);
      forall i | 0 <= i < |xs[0]|
        ensures !MatchAt(xs[0] + sep + rest, i, sep)
      {
        var s := xs[0] + sep + rest;
        if i + |sep| <= |s| { assert s[i..i + |sep|][0] == s[i] == xs[0][i]; }
      }
      SplitCons(xs[0], sep, rest);
      SplitJoin(xs[1..], sep);
      assert [xs[0]] + xs[1..] == xs;
    }
  }

  /** A terminated list is the join of the items and one empty item. */
  lemma {:induction false} TerminatedJoin(xs: seq<string>, sep: string)
    ensures Terminated(xs, sep) == Join(xs + [""], sep)
  {
    if xs != [] {
      var init, x := xs[..|xs| - 1], xs[|xs| - 1];
      assert xs == init + [x];
      TerminatedJoin(init, sep);
      if init == [] {
        assert [x] + [""] == [x, ""];
      } else {
        JoinSnoc(init, "", sep);
        JoinSnoc(init, x, sep);
        assert xs + [""] == (init + [x]) + [""];
        JoinSnoc(init + [x], "", sep);
      }
    }
  }

  /** Splitting a terminated list gives back the items and an empty last piece:
      the separator trails the last item. */
  lemma TerminatedSplit(xs: seq<string>, sep: string)
    requires sep != []
    requires forall k | 0 <= k < |xs| :: Avoids(xs[k], sep[0])
    ensures SplitOn(Terminated(xs, sep), sep) == xs + [""]
  {
    TerminatedJoin(xs, sep);
    var ys := xs + [""];
    assert forall k | 0 <= k < |ys| :: ys[k] == if k < |xs| then xs[k] else "";
    SplitJoin(ys, sep);
  }

  /** Replacing what a join put between the strings swaps the separator. */
  lemma ReplaceJoin(xs: seq<string>, from: string, to: string)
    requires from != [] && |xs| >= 1
    requires forall k | 0 <= k < |xs| :: Avoids(xs[k], from[0])
    ensures Replace(Join(xs, from), from, to) == Join(xs, to)
  {
    SplitJoin(xs, from);
  }

  /** Replacing one character by another maps the string character by character. */
  lemma {:induction false} ReplaceChar(s: string, f: char, t: char)
    ensures |Replace(s, [f], [t])| == |s|
    ensures forall i | 0 <= i < |s| :: Replace(s, [f], [t])[i] == if s[i] == f then t else s[i]
    decreases |s|
  {
    if s != [] {
      ReplaceChar(s[1..], f, t);
      var rest := SplitOn(s[1..], [f]);
      if MatchAt(s, 0, [f]) {
        assert s[1..] == s[|[f]|..];
        assert SplitOn(s, [f]) == [""] + rest;
        assert ([""] + rest)[1..] == rest;
        assert Replace(s, [f], [t]) == [t] + Replace(s[1..], [f], [t]);
      } else {
        assert s[0] != f;
        assert SplitOn(s, [f]) == [[s[0]] + rest[0]] + rest[1..];
        assert rest == [rest[0]] + rest[1..];
        JoinHead(s[0], rest[0], rest[1..], [t]);
        assert Replace(s, [f], [t]) == [s[0]] + Replace(s[1..], [f], [t]);
      }
    }
  }

  function DigitChar(d: nat): char
    requires d < 10
  {
    (48 + d) as char
  }

  predicate IsDigits(s: string)
  {
    forall i | 0 <= i < |s| :: '0' <= s[i] <= '9'
  }

  /** The decimal text of `n`, as `format!("{}", n)` writes it. */
  function NatToString(n: nat): (s: string)
    ensures |s| >= 1 && IsDigits(s)
    ensures n >= 10 ==> s[0] != '0'
  {
    if n < 10 then [DigitChar(n)] else NatToString(n / 10) + [DigitChar(n % 10)]
  }

  /** The value of a string of decimal digits. */
  function DigitsValue(s: string): nat
    requires IsDigits(s)
  {
    if |s| == 0 then 0 else DigitsValue(s[..|s| - 1]) * 10 + ((s[|s| - 1] as int) - 48)
  }

  /** Reading back the decimal text gives the number: the numbering is injective. */
  lemma {:induction false} NatToStringRoundTrip(n: nat)
    ensures DigitsValue(NatToString(n)) == n
  {
    if n >= 10 {
      NatToStringRoundTrip(n / 10);
      var s := NatToString(n);
      assert s[..|s| - 1] == NatToString(n / 10);
    }
  }
}
