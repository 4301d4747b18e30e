/** The parts of Go's `strings` and `strconv` packages the runner relies on,
    stated over sequences so that text (`string`) and raw bytes share them. */
module Strings {

  import opened Wrappers

  /** One byte of a Go `string` or `[]byte`. */
  newtype byte = x: int | 0 <= x < 256

  type Bytes = seq<byte>

  /** The line feed and carriage return bytes. */
  const LF: byte := 0x0a
  const CR: byte := 0x0d

  /** A Go `string` value read as text. */
  type Text = seq<char>

  /** `strings.HasPrefix(s, p)`. */
  predicate HasPrefix<T(==)>(s: seq<T>, p: seq<T>) {
    |p| <= |s| && s[..|p|] == p
  }

  /** `strings.HasSuffix(s, p)`. */
  predicate HasSuffix<T(==)>(s: seq<T>, p: seq<T>) {
    |p| <= |s| && s[|s| - |p|..] == p
  }

  /** `strings.Contains(s, sub)`: `sub` occurs somewhere in `s`. */
  predicate Contains<T(==)>(s: seq<T>, sub: seq<T>)
    decreases |s|
  {
    HasPrefix(s, sub) || (|s| > 0 && Contains(s[1..], sub))
  }

  /** `strings.Index(s, string(c))`: the first position of `c`, or -1. */
  function IndexOf<T(==)>(s: seq<T>, c: T): (r: int)
    ensures -1 <= r < |s|
    ensures r == -1 <==> c !in s
    ensures r >= 0 ==> s[r] == c && c !in s[..r]
  {
    if |s| == 0 then -1
    else if s[0] == c then 0
    else
      var k := IndexOf(s[1..], c);
      assert k >= 0 ==> s[..k+1] == [s[0]] + s[1..][..k];
      if k < 0 then -1 else k + 1
  }

  /** `strings.Index(s, sub)`: the first position at which `sub` starts, or -1. */
  function Find<T(==)>(s: seq<T>, sub: seq<T>): (r: int)
    ensures -1 <= r <= |s|
    ensures r >= 0 ==> HasPrefix(s[r..], sub)
    ensures forall j :: 0 <= j < r || (r == -1 && 0 <= j <= |s|) ==> !HasPrefix(s[j..], sub)
    decreases |s|
  {
    if HasPrefix(s, sub) then 0
    else if |s| == 0 then -1
    else
      var k := Find(s[1..], sub);
      assert forall j :: 1 <= j <= |s| ==> s[j..] == s[1..][j-1..];
      if k < 0 then -1 else k + 1
  }

  /** `strings.Replace(s, pat, rep, 1)`: only the first occurrence, if any, is replaced. */
  function ReplaceFirst<T(==)>(s: seq<T>, pat: seq<T>, rep: seq<T>): (r: seq<T>)
  {
    var k := Find(s, pat);
    if k < 0 then s else s[..k] + rep + s[k + |pat|..]
  }

  /** `strings.ReplaceAll(s, string(a), string(b))` for one-element patterns. */
  function ReplaceAll<T(==)>(s: seq<T>, a: T, b: T): (r: seq<T>)
    ensures |r| == |s|
    ensures forall i :: 0 <= i < |s| ==> r[i] == (if s[i] == a then b else s[i])
  {
    if |s| == 0 then [] else [if s[0] == a then b else s[0]] + ReplaceAll(s[1..], a, b)
  }

  /** `strings.ReplaceAll(s, string(c), "")`: every `c` removed. */
  function RemoveAll<T(==)>(s: seq<T>, c: T): (r: seq<T>)
    ensures c !in r
    ensures |r| <= |s|
    ensures forall x :: x in r ==> x in s
  {
    if |s| == 0 then [] else (if s[0] == c then [] else [s[0]]) + RemoveAll(s[1..], c)
  }

  /** How often `c` occurs in `s`. */
  function Count<T(==)>(s: seq<T>, c: T): nat {
    if |s| == 0 then 0 else (if s[0] == c then 1 else 0) + Count(s[1..], c)
  }

  lemma AppendAssoc<T>(a: seq<T>, b: seq<T>, c: seq<T>)
    ensures (a + b) + c == a + (b + c)
  {
  }

  lemma {:induction false} CountAppend<T>(a: seq<T>, b: seq<T>, c: T)
    ensures Count(a + b, c) == Count(a, c) + Count(b, c)
  {
    if |a| == 0 {
      assert a + b == b;
    } else {
      assert (a + b)[1..] == a[1..] + b;
      CountAppend(a[1..], b, c);
    }
  }

  /** `strings.Split(s, string(c))`: the pieces between the occurrences of `c`;
      the empty sequence splits into one empty piece. */
  function Split<T(==)>(s: seq<T>, c: T): (r: seq<seq<T>>)
    ensures |r| >= 1
    decreases |s|
  {
    if |s| == 0 then [[]]
    else if s[0] == c then [[]] + Split(s[1..], c)
    else
      var rest := Split(s[1..], c);
      [[s[0]] + rest[0]] + rest[1..]
  }

  /** `strings.Join(parts, sep)`. */
  function Join<T>(parts: seq<seq<T>>, sep: seq<T>): (r: seq<T>)
  {
    if |parts| == 0 then []
    else if |parts| == 1 then parts[0]
    else parts[0] + sep + Join(parts[1..], sep)
  }

  lemma {:induction false} JoinSnoc<T>(parts: seq<seq<T>>, x: seq<T>, sep: seq<T>)
    ensures Join(parts + [x], sep) == if |parts| == 0 then x else Join(parts, sep) + sep + x
  {
    if |parts| == 0 {
      assert parts + [x] == [x];
    } else if |parts| == 1 {
      assert (parts + [x])[1..] == [x];
    } else {
      assert (parts + [x])[1..] == parts[1..] + [x];
      JoinSnoc(parts[1..], x, sep);
    }
  }

  /** No piece of a split contains the separator. */
  lemma {:induction false} SplitPiecesFree<T>(s: seq<T>, c: T)
    ensures forall p :: p in Split(s, c) ==> c !in p
    decreases |s|
  {
    if |s| > 0 {
      SplitPiecesFree(s[1..], c);
    }
  }

  /** Joining the pieces of a split with the separator gives the input back. */
  lemma {:induction false} JoinSplit<T>(s: seq<T>, c: T)
    ensures Join(Split(s, c), [c]) == s
    decreases |s|
  {
    if |s| > 0 {
      var rest := Split(s[1..], c);
      JoinSplit(s[1..], c);
      if s[0] == c {
        assert Split(s, c) == [[]] + rest;
        if |rest| == 1 {
          assert Join(Split(s, c), [c]) == [] + [c] + rest[0];
        } else {
          assert (Split(s, c))[1..] == rest;
        }
      } else {
        var hd := [s[0]] + rest[0];
        assert Split(s, c) == [hd] + rest[1..];
        if |rest| == 1 {
          assert Join(Split(s, c), [c]) == hd;
        } else {
          assert Join(rest, [c]) == rest[0] + [c] + Join(rest[1..], [c]);
          assert (Split(s, c))[1..] == rest[1..];
          assert Join(Split(s, c), [c]) == hd + [c] + Join(rest[1..], [c]);
        }
      }
    }
  }

  lemma {:induction false} SplitPrefix<T>(p: seq<T>, c: T, tail: seq<T>)
    requires c !in p
    ensures Split(p + [c] + tail, c) == [p] + Split(tail, c)
    decreases |p|
  {
    if |p| == 0 {
      assert p + [c] + tail == [c] + tail;
      assert ([c] + tail)[1..] == tail;
    } else {
      assert (p + [c] + tail)[1..] == p[1..] + [c] + tail;
      SplitPrefix(p[1..], c, tail);
      assert [p[0]] + p[1..] == p;
    }
  }

  lemma {:induction false} SplitFree<T>(p: seq<T>, c: T)
    requires c !in p
    ensures Split(p, c) == [p]
    decreases |p|
  {
    if |p| > 0 {
      SplitFree(p[1..], c);
      assert [p[0]] + p[1..] == p;
    }
  }

  /** Splitting a join of separator-free pieces gives the pieces back. */
  lemma {:induction false} SplitJoin<T>(parts: seq<seq<T>>, c: T)
    requires |parts| >= 1
    requires forall i :: 0 <= i < |parts| ==> c !in parts[i]
    ensures Split(Join(parts, [c]), c) == parts
    decreases |parts|
  {
    if |parts| == 1 {
      SplitFree(parts[0], c);
    } else {
      SplitJoin(parts[1..], c);
      SplitPrefix(parts[0], c, Join(parts[1..], [c]));
      assert [parts[0]] + parts[1..] == parts;
    }
  }

  /** The separators a join inserts: one fewer than the pieces. */
  lemma {:induction false} JoinCount<T>(parts: seq<seq<T>>, c: T)
    requires |parts| >= 1
    ensures Count(Join(parts, [c]), c) == SumCounts(parts, c) + |parts| - 1
    decreases |parts|
  {
    if |parts| > 1 {
      JoinCount(parts[1..], c);
      CountAppend(parts[0] + [c], Join(parts[1..], [c]), c);
      CountAppend(parts[0], [c], c);
      assert Count([c], c) == 1 by { assert [c][1..] == []; }
    }
  }

  /** How often `c` occurs in all the pieces together. */
  function SumCounts<T(==)>(parts: seq<seq<T>>, c: T): nat {
    if |parts| == 0 then 0 else Count(parts[0], c) + SumCounts(parts[1..], c)
  }

  lemma {:induction false} CountFree<T>(s: seq<T>, c: T)
    requires c !in s
    ensures Count(s, c) == 0
  {
    if |s| > 0 {
      assert c !in s[1..];
      CountFree(s[1..], c);
    }
  }

  /** Pieces without `c` hold no `c` between them. */
  lemma {:induction false} SumCountsFree<T>(parts: seq<seq<T>>, c: T)
    requires forall i :: 0 <= i < |parts| ==> c !in parts[i]
    ensures SumCounts(parts, c) == 0
  {
    if |parts| > 0 {
      CountFree(parts[0], c);
      SumCountsFree(parts[1..], c);
    }
  }

  /** `unicode.IsSpace`: the characters `strings.TrimSpace` removes. */
  predicate IsSpace(c: char) {
    c == ' ' || c == '\t' || c == '\n' || c == '\U{0B}' || c == '\U{0C}' || c == '\r'
    || c == '\U{85}' || c == '\U{A0}' || c == '\U{1680}' || ('\U{2000}' <= c <= '\U{200A}')
    || c == '\U{2028}' || c == '\U{2029}' || c == '\U{202F}' || c == '\U{205F}' || c == '\U{3000}'
  }

  /** Drops the leading white space. */
  function TrimLeading(s: Text): (r: Text)
    ensures |r| <= |s|
  {
    if |s| > 0 && IsSpace(s[0]) then TrimLeading(s[1..]) else s
  }

  /** Drops the trailing white space. */
  function TrimTrailing(s: Text): (r: Text)
    ensures |r| <= |s|
  {
    if |s| > 0 && IsSpace(s[|s| - 1]) then TrimTrailing(s[..|s| - 1]) else s
  }

  /** `strings.TrimSpace(s)`. */
  function TrimSpace(s: Text): Text {
    TrimTrailing(TrimLeading(s))
  }

  /** What `TrimLeading` keeps is a suffix that does not start with white space,
      and what it drops is white space. */
  lemma TrimLeadingSpec(s: Text)
    ensures var r := TrimLeading(s);
      |r| <= |s| && r == s[|s| - |r|..] && (r == [] || !IsSpace(r[0]))
      && forall i :: 0 <= i < |s| - |r| ==> IsSpace(s[i])
  {
    TrimLeadingSuffix(s);
    TrimLeadingDrops(s);
  }

  lemma {:induction false} TrimLeadingSuffix(s: Text)
    ensures var r := TrimLeading(s);
      r == s[|s| - |r|..] && (r == [] || !IsSpace(r[0]))
  {
    if |s| > 0 && IsSpace(s[0]) {
      TrimLeadingSuffix(s[1..]);
      var r := TrimLeading(s);
      assert s[1..][|s| - 1 - |r|..] == s[|s| - |r|..];
    }
  }

  lemma {:induction false} TrimLeadingDrops(s: Text)
    ensures forall i :: 0 <= i < |s| - |TrimLeading(s)| ==> IsSpace(s[i])
  {
    if |s| > 0 && IsSpace(s[0]) {
      TrimLeadingDrops(s[1..]);
      var n := |s| - |TrimLeading(s)|;
      forall i | 0 <= i < n ensures IsSpace(s[i]) {
        if i > 0 { assert s[i] == s[1..][i - 1]; }
      }
    }
  }

  /** What `TrimTrailing` keeps is a prefix that does not end with white space,
      and what it drops is white space. */
  lemma TrimTrailingSpec(s: Text)
    ensures var r := TrimTrailing(s);
      |r| <= |s| && r == s[..|r|] && (r == [] || !IsSpace(r[|r| - 1]))
      && forall i :: |r| <= i < |s| ==> IsSpace(s[i])
  {
    TrimTrailingPrefix(s);
    TrimTrailingDrops(s);
  }

  lemma {:induction false} TrimTrailingPrefix(s: Text)
    ensures var r := TrimTrailing(s);
      r == s[..|r|] && (r == [] || !IsSpace(r[|r| - 1]))
  {
    if |s| > 0 && IsSpace(s[|s| - 1]) {
      TrimTrailingPrefix(s[..|s| - 1]);
      var r := TrimTrailing(s);
      assert s[..|s| - 1][..|r|] == s[..|r|];
    }
  }

  lemma {:induction false} TrimTrailingDrops(s: Text)
    ensures forall i :: |TrimTrailing(s)| <= i < |s| ==> IsSpace(s[i])
  {
    if |s| > 0 && IsSpace(s[|s| - 1]) {
      TrimTrailingDrops(s[..|s| - 1]);
      var n := |TrimTrailing(s)|;
      forall i | n <= i < |s| ensures IsSpace(s[i]) {
        if i < |s| - 1 { assert s[i] == s[..|s| - 1][i]; }
      }
    }
  }

  /** The trimmed text is a slice of the input with no white space at either end,
      what remains starts where the leading white space ends. */
  lemma TrimSpaceSpec(s: Text)
    ensures var r := TrimSpace(s);
      && |r| <= |s|
      && (r == [] || (!IsSpace(r[0]) && !IsSpace(r[|r| - 1])))
      && r == s[|s| - |TrimLeading(s)|..][..|r|]
  {
    TrimLeadingSpec(s);
    TrimTrailingSpec(TrimLeading(s));
  }

  /** Trimmed text has no leading or trailing space, so trimming again changes nothing. */
  lemma TrimSpaceIdempotent(s: Text)
    ensures TrimSpace(TrimSpace(s)) == TrimSpace(s)
  {
    var t := TrimSpace(s);
    TrimSpaceSpec(s);
    assert TrimLeading(t) == t;
    assert TrimTrailing(t) == t;
  }

  // ---- decimal numbers (strconv.Itoa and strconv.Atoi on a 64-bit int) ----

  predicate IsDigit(c: char) { '0' <= c <= '9' }

  function DigitChar(d: nat): (c: char)
    requires d < 10
    ensures IsDigit(c)
  {
    "0123456789"[d]
  }

  function DigitValue(c: char): (d: nat)
    requires IsDigit(c)
    ensures d < 10
  {
    (c as int - '0' as int) as nat
  }

  /** The decimal digits of `n`, most significant first, without leading zeros. */
  function NatToText(n: nat): (r: Text)
    ensures |r| >= 1
    ensures forall i :: 0 <= i < |r| ==> IsDigit(r[i])
  {
    if n < 10 then [DigitChar(n)] else NatToText(n / 10) + [DigitChar(n % 10)]
  }

  /** `strconv.Itoa(n)`. */
  function Itoa(n: int): (r: Text)
  {
    if n < 0 then "-" + NatToText(-n) else NatToText(n)
  }

  /** The number a run of decimal digits denotes. */
  function DigitsValue(s: Text): (v: nat)
    requires forall i :: 0 <= i < |s| ==> IsDigit(s[i])
  {
    if |s| == 0 then 0 else DigitsValue(s[..|s| - 1]) * 10 + DigitValue(s[|s| - 1])
  }

  const MinInt64: int := -0x8000_0000_0000_0000
  const MaxInt64: int := 0x7FFF_FFFF_FFFF_FFFF

  /** `strconv.Atoi(s)` for a 64-bit `int`: an optional sign and at least one
      decimal digit, with a value in the 64-bit range; `None` is the error. */
  function Atoi(s: Text): (r: Option<int>)
    ensures r.Some? ==> MinInt64 <= r.value <= MaxInt64
  {
    var neg := |s| > 0 && s[0] == '-';
    var body := if |s| > 0 && (s[0] == '-' || s[0] == '+') then s[1..] else s;
    if |body| == 0 || !(forall i :: 0 <= i < |body| ==> IsDigit(body[i])) then None
    else
      var m: int := DigitsValue(body);
      var v := if neg then 0 - m else m;
      if MinInt64 <= v <= MaxInt64 then Some(v) else None
  }

  lemma {:induction false} DigitCharValue(d: nat)
    requires d < 10
    ensures DigitValue(DigitChar(d)) == d
  {
    assert "0123456789"[d] as int == '0' as int + d;
  }

  lemma {:induction false} DigitsOfNat(n: nat)
    ensures DigitsValue(NatToText(n)) == n
  {
    var t := NatToText(n);
    if n < 10 {
      DigitCharValue(n);
      assert t[..0] == [];
    } else {
      DigitsOfNat(n / 10);
      DigitCharValue(n % 10);
      assert t[..|t| - 1] == NatToText(n / 10);
    }
  }

  /** `strconv.Atoi` reads back what `strconv.Itoa` writes, across the 64-bit range. */
  lemma AtoiItoa(n: int)
    requires MinInt64 <= n <= MaxInt64
    ensures Atoi(Itoa(n)) == Some(n)
  {
    var t := Itoa(n);
    if n < 0 {
      var d := NatToText(-n);
      assert t[0] == '-' && t[1..] == d;
      DigitsOfNat(-n);
    } else {
      var d := NatToText(n);
      assert IsDigit(d[0]);
      DigitsOfNat(n);
    }
  }

}
