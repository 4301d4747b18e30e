/** The log-line helpers of internal/tui/logging.go. Go strings are byte
    sequences and these helpers index them byte by byte, so the model works on
    `Bytes`. Opening, sizing and reading the log file are outside the model:
    `ReadLastLogLine` is handed the file's contents, or `None` when any of those
    steps failed. */
module Logging {
  import opened Wrappers
  import opened Strings

  const ESC: byte := 0x1b
  const LBRACKET: byte := 0x5b
  const TAB: byte := 0x09
  const SPACE: byte := 0x20
  const DOT: byte := 0x2e

  /** How much of the end of the file the footer looks at. */
  const MaxRead: nat := 8192

  /** An ASCII letter, which ends a control sequence. */
  predicate IsLetter(b: byte) {
    (0x41 <= b <= 0x5a) || (0x61 <= b <= 0x7a)
  }

  /** A byte that survives outside escape sequences: not a control byte, or a tab. */
  predicate Printable(b: byte) {
    b >= SPACE || b == TAB
  }

  /** No escape byte and no control byte other than tab. */
  predicate Clean(s: Bytes) {
    forall i :: 0 <= i < |s| ==> Printable(s[i])
  }

  // ---- stripping escape sequences ----

  /** Where `stripANSICodes` is: in text, just after ESC, or inside `ESC [`. */
  datatype Mode = Plain | Escape | Csi

  /** What `stripANSICodes` writes for the rest `s` of its input when in mode `m`. */
  function StripFrom(m: Mode, s: Bytes): (r: Bytes)
    ensures Clean(r) && |r| <= |s|
    decreases |s|
  {
    if |s| == 0 then []
    else
      var ch := s[0];
      match m
      case Plain =>
        if ch == ESC then StripFrom(Escape, s[1..])
        else if !Printable(ch) then StripFrom(Plain, s[1..])
        else [ch] + StripFrom(Plain, s[1..])
      case Escape => StripFrom(if ch == LBRACKET then Csi else Plain, s[1..])
      case Csi => StripFrom(if IsLetter(ch) then Plain else Csi, s[1..])
  }

  /** The mode `stripANSICodes` is in after reading `s` from mode `m`. */
  function EndMode(m: Mode, s: Bytes): Mode
    decreases |s|
  {
    if |s| == 0 then m
    else
      var ch := s[0];
      match m
      case Plain => EndMode(if ch == ESC then Escape else Plain, s[1..])
      case Escape => EndMode(if ch == LBRACKET then Csi else Plain, s[1..])
      case Csi => EndMode(if IsLetter(ch) then Plain else Csi, s[1..])
  }

  /** `stripANSICodes(input)`. */
  function StripAnsi(s: Bytes): Bytes {
    StripFrom(Plain, s)
  }

  /** `stripANSICodes`: a three-state scan that copies the bytes it keeps. */
  method StripAnsiCodes(input: Bytes) returns (out: Bytes)
    ensures out == StripAnsi(input)
  {
    out := [];
    var mode := Plain;
    var i := 0;
    while i < |input|
      invariant 0 <= i <= |input|
      invariant out + StripFrom(mode, input[i..]) == StripAnsi(input)
    {
      var ch := input[i];
      assert input[i..][0] == ch && input[i..][1..] == input[i + 1..];
      match mode {
        case Plain =>
          if ch == ESC {
            mode := Escape;
          } else if Printable(ch) {
            AppendAssoc(out, [ch], StripFrom(Plain, input[i + 1..]));
            out := out + [ch];
          }
        case Escape =>
          mode := if ch == LBRACKET then Csi else Plain;
        case Csi =>
          if IsLetter(ch) {
            mode := Plain;
          }
      }
      i := i + 1;
    }
    assert input[i..] == [];
  }

  /** Stripping a concatenation strips the second part from where the first left off. */
  lemma {:induction false} StripAppend(m: Mode, a: Bytes, b: Bytes)
    ensures StripFrom(m, a + b) == StripFrom(m, a) + StripFrom(EndMode(m, a), b)
    decreases |a|
  {
    if |a| == 0 {
      assert a + b == b;
    } else {
      assert (a + b)[0] == a[0] && (a + b)[1..] == a[1..] + b;
      var ch := a[0];
      var next := match m
        case Plain => if ch == ESC then Escape else Plain
        case Escape => if ch == LBRACKET then Csi else Plain
        case Csi => if IsLetter(ch) then Plain else Csi;
      StripAppend(next, a[1..], b);
      if m == Plain && ch != ESC && Printable(ch) {
        AppendAssoc([ch], StripFrom(Plain, a[1..]), StripFrom(EndMode(m, a), b));
      }
    }
  }

  /** `a` is obtained from `b` by deleting elements. */
  predicate IsSubsequence(a: Bytes, b: Bytes)
    decreases |b|
  {
    if |b| == 0 then |a| == 0
    else (|a| > 0 && a[0] == b[0] && IsSubsequence(a[1..], b[1..])) || IsSubsequence(a, b[1..])
  }

  /** The output only deletes bytes of the input, keeping the order of the rest. */
  lemma {:induction false} StripIsSubsequence(m: Mode, s: Bytes)
    ensures IsSubsequence(StripFrom(m, s), s)
    decreases |s|
  {
    if |s| > 0 {
      var ch := s[0];
      match m
      case Plain =>
        StripIsSubsequence(Plain, s[1..]);
        StripIsSubsequence(Escape, s[1..]);
        if ch != ESC && Printable(ch) {
          var r := StripFrom(m, s);
          assert r[0] == s[0] && r[1..] == StripFrom(Plain, s[1..]);
        }
      case Escape =>
        StripIsSubsequence(if ch == LBRACKET then Csi else Plain, s[1..]);
      case Csi =>
        StripIsSubsequence(if IsLetter(ch) then Plain else Csi, s[1..]);
    }
  }

  /** Text without escape or control bytes passes through unchanged. */
  lemma {:induction false} StripKeepsClean(s: Bytes)
    requires Clean(s)
    ensures StripFrom(Plain, s) == s && EndMode(Plain, s) == Plain
  {
    if |s| > 0 {
      assert Printable(s[0]);
      StripKeepsClean(s[1..]);
      assert s == [s[0]] + s[1..];
    }
  }

  /** Stripping twice is stripping once. */
  lemma StripIdempotent(s: Bytes)
    ensures StripAnsi(StripAnsi(s)) == StripAnsi(s)
  {
    StripKeepsClean(StripAnsi(s));
  }

  /** Inside `ESC [`, bytes up to the first letter produce nothing. */
  lemma {:induction false} CsiBodySkipped(body: Bytes, rest: Bytes)
    requires forall i :: 0 <= i < |body| ==> !IsLetter(body[i])
    ensures StripFrom(Csi, body + rest) == StripFrom(Csi, rest)
  {
    if |body| == 0 {
      assert body + rest == rest;
    } else {
      assert !IsLetter(body[0]);
      assert (body + rest)[0] == body[0] && (body + rest)[1..] == body[1..] + rest;
      CsiBodySkipped(body[1..], rest);
    }
  }

  /** A control sequence `ESC [` … letter, met in text, disappears entirely. */
  lemma CsiRemoved(before: Bytes, body: Bytes, letter: byte, after: Bytes)
    requires EndMode(Plain, before) == Plain
    requires forall i :: 0 <= i < |body| ==> !IsLetter(body[i])
    requires IsLetter(letter)
    ensures StripAnsi(before + ([ESC, LBRACKET] + body + [letter] + after)) == StripAnsi(before) + StripAnsi(after)
  {
    var seqPart := [ESC, LBRACKET] + body + [letter] + after;
    StripAppend(Plain, before, seqPart);
    assert seqPart[0] == ESC && seqPart[1..][0] == LBRACKET;
    assert seqPart[1..][1..] == body + ([letter] + after);
    CsiBodySkipped(body, [letter] + after);
    assert ([letter] + after)[1..] == after;
  }

  /** ESC followed by anything but `[`, met in text, drops both bytes. */
  lemma EscapePairRemoved(before: Bytes, other: byte, after: Bytes)
    requires EndMode(Plain, before) == Plain
    requires other != LBRACKET
    ensures StripAnsi(before + ([ESC, other] + after)) == StripAnsi(before) + StripAnsi(after)
  {
    var pair := [ESC, other] + after;
    StripAppend(Plain, before, pair);
    assert pair[1..][1..] == after;
  }

  // ---- sanitising a line ----

  /** The ASCII white space `strings.TrimSpace` removes. */
  predicate AsciiSpace(b: byte) {
    b == SPACE || (0x09 <= b <= 0x0d)
  }

  /** Drops the leading white space. */
  function TrimLeft(s: Bytes): (r: Bytes)
    ensures |r| <= |s| && r == s[|s| - |r|..]
    ensures r == [] || !AsciiSpace(r[0])
  {
    if |s| > 0 && AsciiSpace(s[0]) then TrimLeft(s[1..]) else s
  }

  /** Drops the trailing white space. */
  function TrimRight(s: Bytes): (r: Bytes)
    ensures |r| <= |s| && r == s[..|r|]
    ensures r == [] || !AsciiSpace(r[|r| - 1])
  {
    if |s| > 0 && AsciiSpace(s[|s| - 1]) then TrimRight(s[..|s| - 1]) else s
  }

  /** What `TrimLeft` drops is white space. */
  lemma {:induction false} TrimLeftSpec(s: Bytes)
    ensures forall i :: 0 <= i < |s| - |TrimLeft(s)| ==> AsciiSpace(s[i])
  {
    if |s| > 0 && AsciiSpace(s[0]) {
      TrimLeftSpec(s[1..]);
      var n := |s| - |TrimLeft(s)|;
      forall i | 0 <= i < n ensures AsciiSpace(s[i]) {
        if i > 0 { assert s[i] == s[1..][i - 1]; }
      }
    }
  }

  /** What `TrimRight` drops is white space. */
  lemma {:induction false} TrimRightSpec(s: Bytes)
    ensures forall i :: |TrimRight(s)| <= i < |s| ==> AsciiSpace(s[i])
  {
    if |s| > 0 && AsciiSpace(s[|s| - 1]) {
      TrimRightSpec(s[..|s| - 1]);
      var n := |TrimRight(s)|;
      forall i | n <= i < |s| ensures AsciiSpace(s[i]) {
        if i < |s| - 1 { assert s[i] == s[..|s| - 1][i]; }
      }
    }
  }

  /** `strings.TrimSpace` on the ASCII white space. */
  function TrimAscii(s: Bytes): Bytes {
    TrimRight(TrimLeft(s))
  }

  /** The trimmed line is the slice of `s` that starts where the leading white
      space ends; everything outside that slice is white space, and the slice
      neither starts nor ends with white space. */
  lemma TrimAsciiShape(s: Bytes)
    ensures |s| - |TrimLeft(s)| + |TrimAscii(s)| <= |s|
    ensures TrimAscii(s) == s[|s| - |TrimLeft(s)|..|s| - |TrimLeft(s)| + |TrimAscii(s)|]
    ensures TrimAscii(s) == [] || (!AsciiSpace(TrimAscii(s)[0]) && !AsciiSpace(TrimAscii(s)[|TrimAscii(s)| - 1]))
    ensures forall i :: 0 <= i < |s| - |TrimLeft(s)| ==> AsciiSpace(s[i])
    ensures forall i :: |s| - |TrimLeft(s)| + |TrimAscii(s)| <= i < |s| ==> AsciiSpace(s[i])
  {
    var l := TrimLeft(s);
    var r := TrimRight(l);
    TrimLeftSpec(s);
    TrimRightSpec(l);
    TrimmedSlice(s, l, r);
  }

  /** A suffix `l` of `s` cut before some white space is a slice of `s` with
      that white space after it. */
  lemma TrimmedSlice(s: Bytes, l: Bytes, r: Bytes)
    requires |l| <= |s| && l == s[|s| - |l|..]
    requires |r| <= |l| && r == l[..|r|] && forall i :: |r| <= i < |l| ==> AsciiSpace(l[i])
    requires l == [] || !AsciiSpace(l[0])
    ensures |s| - |l| + |r| <= |s| && r == s[|s| - |l|..|s| - |l| + |r|]
    ensures r == [] || !AsciiSpace(r[0])
    ensures forall i :: |s| - |l| + |r| <= i < |s| ==> AsciiSpace(s[i])
  {
    var a := |s| - |l|;
    forall i | a + |r| <= i < |s|
      ensures AsciiSpace(s[i])
    {
      assert s[i] == l[i - a];
    }
  }

  /** `sanitizeLogLine`: carriage returns removed, escapes stripped, white space trimmed. */
  function Sanitize(line: Bytes): Bytes {
    if line == [] then [] else TrimAscii(StripAnsi(RemoveAll(line, CR)))
  }

  /** A sanitised line is clean, holds no carriage return, and neither starts nor
      ends with white space. */
  lemma SanitizeShape(line: Bytes)
    ensures var r := Sanitize(line);
      && Clean(r) && CR !in r
      && (r == [] || (!AsciiSpace(r[0]) && !AsciiSpace(r[|r| - 1])))
  {
    if line != [] {
      var stripped := StripAnsi(RemoveAll(line, CR));
      TrimAsciiShape(stripped);
    }
  }

  method SanitizeLogLine(line: Bytes) returns (r: Bytes)
    ensures r == Sanitize(line)
  {
    if line == [] {
      return [];
    }
    var noCR := RemoveAll(line, CR);
    var stripped := StripAnsiCodes(noCR);
    r := TrimAscii(stripped);
  }

  // ---- fitting a line to the footer ----

  const Ellipsis: Bytes := [DOT, DOT, DOT]

  /** `fitLine`: cut to `width` bytes, the last three replaced by "..." when
      there is room for them. */
  function FitLine(line: Bytes, width: int): (r: Bytes)
    ensures width <= 0 || |line| <= width ==> r == line
    ensures 0 < width < |line| ==> |r| == width
    ensures 0 < width < |line| && width <= 3 ==> r == line[..width]
    ensures 3 < width < |line| ==> HasPrefix(line, r[..width - 3]) && HasSuffix(r, Ellipsis)
  {
    if width <= 0 then line
    else if |line| <= width then line
    else if width <= 3 then line[..width]
    else line[..width - 3] + Ellipsis
  }

  // ---- the last log line ----

  /** The part of the file `readLastLogLine` reads: its last `MaxRead` bytes. */
  function Window(content: Bytes): (w: Bytes)
    ensures |w| == if |content| < MaxRead then |content| else MaxRead
    ensures HasSuffix(content, w)
  {
    var readSize := if |content| > MaxRead then MaxRead else |content|;
    content[|content| - readSize..]
  }

  /** `strings.TrimRight(s, "\n")`. */
  function TrimNewlines(s: Bytes): (r: Bytes)
    ensures |r| <= |s| && r == s[..|r|]
    ensures r == [] || r[|r| - 1] != LF
  {
    if |s| > 0 && s[|s| - 1] == LF then TrimNewlines(s[..|s| - 1]) else s
  }

  /** What `TrimNewlines` drops is line feeds. */
  lemma {:induction false} TrimNewlinesSpec(s: Bytes)
    ensures forall i :: |TrimNewlines(s)| <= i < |s| ==> s[i] == LF
  {
    if |s| > 0 && s[|s| - 1] == LF {
      TrimNewlinesSpec(s[..|s| - 1]);
      var n := |TrimNewlines(s)|;
      forall i | n <= i < |s| ensures s[i] == LF {
        if i < |s| - 1 { assert s[i] == s[..|s| - 1][i]; }
      }
    }
  }

  /** The position of the last non-empty entry among the first `n`, or -1. */
  function LastNonEmpty(xs: seq<Bytes>, n: nat): (j: int)
    requires n <= |xs|
    ensures -1 <= j < n
    ensures j >= 0 ==> xs[j] != []
    ensures forall k :: j < k < n ==> xs[k] == []
  {
    if n == 0 then -1
    else if xs[n - 1] != [] then n - 1
    else LastNonEmpty(xs, n - 1)
  }

  /** Each line as the footer would show it. */
  function Shown(lines: seq<Bytes>): (r: seq<Bytes>)
    ensures |r| == |lines|
  {
    seq(|lines|, i requires 0 <= i < |lines| => Sanitize(lines[i]))
  }

  /** The lines `readLastLogLine` scans for a file with these contents. */
  function TailLines(content: Bytes): seq<Bytes> {
    var text := TrimNewlines(Window(content));
    if text == [] then [] else Split(text, LF)
  }

  /** What `readLastLogLine` shows: the last visible line of the tail, sanitised. */
  function LastLogLine(content: Option<Bytes>): Bytes {
    if content.None? then []
    else
      var shown := Shown(TailLines(content.value));
      var j := LastNonEmpty(shown, |shown|);
      if j < 0 then [] else shown[j]
  }

  /** The result comes from the last `MaxRead` bytes alone. */
  lemma LastLogLineReadsWindow(earlier: Bytes, recent: Bytes)
    requires |recent| >= MaxRead
    ensures LastLogLine(Some(earlier + recent)) == LastLogLine(Some(recent))
  {
    assert Window(earlier + recent) == Window(recent);
  }

  /** Every line after the one shown sanitises to nothing; when nothing is
      shown, every line does. */
  lemma LastLogLineIsLastVisible(content: Bytes)
    ensures var lines := TailLines(content); var r := LastLogLine(Some(content));
      && (r == [] <==> forall k :: 0 <= k < |lines| ==> Sanitize(lines[k]) == [])
      && (r != [] ==>
            exists j :: 0 <= j < |lines| && r == Sanitize(lines[j]) && forall k :: j < k < |lines| ==> Sanitize(lines[k]) == [])
  {
    var lines := TailLines(content);
    var shown := Shown(lines);
    var j := LastNonEmpty(shown, |shown|);
    assert forall k :: 0 <= k < |lines| ==> shown[k] == Sanitize(lines[k]);
    if j >= 0 {
      assert shown[j] != [];
    }
  }

  /** `readLastLogLine` after the file has been read. */
  method ReadLastLogLine(content: Option<Bytes>) returns (line: Bytes)
    ensures line == LastLogLine(content)
  {
    if content.None? {
      return [];
    }
    var data := content.value;
    var readSize := |data|;
    if readSize > MaxRead {
      readSize := MaxRead;
    }
    var buf := data[|data| - readSize..];
    assert buf == Window(data);
    var text := TrimNewlines(buf);
    if text == [] {
      return [];
    }
    var lines := Split(text, LF);
    assert lines == TailLines(data);
    ghost var shown := Shown(lines);
    var i := |lines| - 1;
    while i >= 0
      invariant -1 <= i < |lines|
      invariant LastNonEmpty(shown, i + 1) == LastNonEmpty(shown, |shown|)
    {
      assert shown[i] == Sanitize(lines[i]);
      var l := SanitizeLogLine(lines[i]);
      if l != [] {
        return l;
      }
      i := i - 1;
    }
    return [];
  }
}
