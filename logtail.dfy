/** The log tailer of internal/monitor/logtail.go: it remembers how far into a
    log file it has read and, on every poll, sends each new non-empty line to
    PostHog. The file is seen, at each `os.Open`, as a `Snapshot` of its
    content or of the error the open or a later call returned; PostHog is a
    `Sink` that records the events handed to it. */
module LogTail {
  import opened Wrappers
  import opened Strings

  /** Where reading an opened file can fail: seeking to the offset, scanning
      (after `scanned` lines were delivered), or asking for the position. */
  datatype Fault =
    | NoFault
    | SeekFault(reason: Text)
    | ScanFault(scanned: nat, reason: Text)
    | TellFault(reason: Text)

  /** The file as one poll finds it. */
  datatype Snapshot =
    | Absent                                  // os.IsNotExist
    | OpenError(reason: Text)                 // any other open error
    | StatError(reason: Text)
    | Readable(content: Bytes, fault: Fault)

  // ---- lines as `bufio.ScanLines` cuts them ----

  /** The pieces between line feeds, without the empty piece after a final
      line feed. */
  function Pieces(data: Bytes): (ps: seq<Bytes>)
    ensures forall i :: 0 <= i < |ps| ==> LF !in ps[i]
  {
    SplitPiecesFree(data, LF);
    var p := Split(data, LF);
    assert forall i :: 0 <= i < |p| ==> p[i] in p;
    if p[|p| - 1] == [] then p[..|p| - 1] else p
  }

  /** A line without the carriage return of a CRLF ending. */
  function DropCR(t: Bytes): (r: Bytes)
    ensures LF !in t ==> LF !in r
  {
    if |t| > 0 && t[|t| - 1] == CR then t[..|t| - 1] else t
  }

  function DropCRs(ps: seq<Bytes>): (ts: seq<Bytes>)
    ensures |ts| == |ps|
  {
    if |ps| == 0 then [] else [DropCR(ps[0])] + DropCRs(ps[1..])
  }

  /** The lines the scanner yields for `data`. */
  function Tokens(data: Bytes): seq<Bytes> {
    DropCRs(Pieces(data))
  }

  /** The lines that are not empty, in order. */
  function NonEmpty(ts: seq<Bytes>): (r: seq<Bytes>)
    ensures |r| <= |ts|
    ensures forall i :: 0 <= i < |r| ==> r[i] != [] && r[i] in ts
  {
    if |ts| == 0 then []
    else (if ts[0] != [] then [ts[0]] else []) + NonEmpty(ts[1..])
  }

  // ---- one poll ----

  /** What a poll leaves behind: the new offset, the lines sent, the error. */
  datatype PollOutcome = PollOutcome(offset: nat, sent: seq<Bytes>, err: Option<Text>)

  /** `seekToEnd`: the new offset and the error. */
  function SeekEnd(offset: nat, s: Snapshot): (nat, Option<Text>) {
    match s
    case Absent => (offset, None)
    case OpenError(r) => (offset, Some(r))
    case StatError(r) => (offset, Some(r))
    case Readable(content, _) => (|content|, None)
  }

  /** Where reading starts: the offset, or the beginning of a file that has
      shrunk below it. */
  function Start(offset: nat, content: Bytes): nat {
    if |content| < offset then 0 else offset
  }

  /** `checkAndReadNewLines`. */
  function CheckAndRead(offset: nat, s: Snapshot): PollOutcome {
    match s
    case Absent => PollOutcome(offset, [], None)
    case OpenError(r) => PollOutcome(offset, [], Some("failed to open file: " + r))
    case StatError(r) => PollOutcome(offset, [], Some("failed to stat file: " + r))
    case Readable(content, fault) =>
      var start := Start(offset, content);
      if |content| == start then PollOutcome(start, [], None)
      else
        var ts := Tokens(content[start..]);
        match fault
        case SeekFault(r) => PollOutcome(start, [], Some("failed to seek: " + r))
        case ScanFault(k, r) =>
          PollOutcome(start, NonEmpty(ts[..if k < |ts| then k else |ts|]), Some("error scanning file: " + r))
        case TellFault(r) => PollOutcome(start, NonEmpty(ts), Some("failed to get current offset: " + r))
        case NoFault => PollOutcome(|content|, NonEmpty(ts), None)
  }

  // ---- properties of a poll ----

  /** A missing file is waited for: nothing is sent, no error, the offset stays. */
  lemma PollAbsent(offset: nat)
    ensures CheckAndRead(offset, Absent) == PollOutcome(offset, [], None)
  {
  }

  /** A file shorter than the offset was truncated or rotated: it is read as
      from an offset of 0. */
  lemma PollTruncated(offset: nat, content: Bytes, fault: Fault)
    requires |content| < offset
    ensures CheckAndRead(offset, Readable(content, fault)) == CheckAndRead(0, Readable(content, fault))
  {
  }

  /** A file exactly as long as the offset has nothing new. */
  lemma PollIdle(offset: nat, content: Bytes, fault: Fault)
    requires |content| == offset
    ensures CheckAndRead(offset, Readable(content, fault)) == PollOutcome(offset, [], None)
  {
  }

  /** A clean read sends exactly the non-empty lines after the offset, in order,
      each without its line ending, and moves the offset to the end. */
  lemma PollSendsNewLines(offset: nat, content: Bytes)
    requires offset <= |content|
    ensures var p := CheckAndRead(offset, Readable(content, NoFault));
      && p.offset == |content| && p.err == None
      && p.sent == NonEmpty(Tokens(content[offset..]))
      && forall i :: 0 <= i < |p.sent| ==> p.sent[i] != [] && LF !in p.sent[i]
  {
    var ts := Tokens(content[offset..]);
    TokensFree(content[offset..]);
  }

  lemma TokensFree(data: Bytes)
    ensures forall t :: t in Tokens(data) ==> LF !in t
  {
    DropCRsFree(Pieces(data));
  }

  lemma {:induction false} DropCRsFree(ps: seq<Bytes>)
    requires forall i :: 0 <= i < |ps| ==> LF !in ps[i]
    ensures forall t :: t in DropCRs(ps) ==> LF !in t
  {
    if |ps| > 0 {
      DropCRsFree(ps[1..]);
    }
  }

  /** The offset never passes the end of the file it was read from. */
  lemma PollStaysInFile(offset: nat, content: Bytes, fault: Fault)
    requires offset <= |content|
    ensures CheckAndRead(offset, Readable(content, fault)).offset <= |content|
  {
  }

  /** Seeking to the end of a file and then polling it unchanged sends nothing. */
  lemma SeekThenPollIsQuiet(offset: nat, content: Bytes, fault: Fault)
    ensures var o := SeekEnd(offset, Readable(content, fault)).0;
      CheckAndRead(o, Readable(content, fault)) == PollOutcome(|content|, [], None)
  {
  }

  /** A file that only grows, by whole lines, is sent line for line: polling
      it before and after the growth sends what one poll of the grown file
      sends, and ends at the same offset. */
  lemma PollIncremental(a: Bytes, b: Bytes)
    requires |a| > 0 && a[|a| - 1] == LF
    ensures var first := CheckAndRead(0, Readable(a, NoFault));
      var second := CheckAndRead(first.offset, Readable(a + b, NoFault));
      var once := CheckAndRead(0, Readable(a + b, NoFault));
      first.sent + second.sent == once.sent && second.offset == once.offset
  {
    assert (a + b)[0..] == a + b && a[0..] == a;
    assert (a + b)[|a|..] == b;
    TokensAppend(a, b);
    NonEmptyAppend(Tokens(a), Tokens(b));
    if b == [] {
      assert a + b == a;
      assert Tokens(b) == [] by { assert Split(b, LF) == [[]]; }
    }
  }

  /** A line cut by a poll is sent as two events: the part written before the
      poll and the rest. */
  lemma PartialLineSentInTwo()
    ensures var a: Bytes := [0x61];
      var b: Bytes := [0x62, LF];
      var first := CheckAndRead(0, Readable(a, NoFault));
      var second := CheckAndRead(first.offset, Readable(a + b, NoFault));
      first.sent == [[0x61]] && second.sent == [[0x62]]
      && CheckAndRead(0, Readable(a + b, NoFault)).sent == [[0x61, 0x62]]
  {
    var a: Bytes := [0x61];
    var b: Bytes := [0x62, LF];
    var x: Bytes := [0x62];
    var ab: Bytes := [0x61, 0x62];
    TokensOfLine(a);
    TokensOfLine(x);
    TokensOfLine(ab);
    assert a[0..] == a;
    assert (a + b)[1..] == b == x + [LF];
    assert (a + b)[0..] == a + b == ab + [LF];
    assert NonEmpty([a]) == [a] && NonEmpty([x]) == [x] && NonEmpty([ab]) == [ab];
  }

  /** A line with neither line feed nor carriage return is one token, with or
      without a line feed after it. */
  lemma TokensOfLine(x: Bytes)
    requires x != [] && LF !in x && CR !in x
    ensures Tokens(x) == [x] && Tokens(x + [LF]) == [x]
  {
    SplitFree(x, LF);
    SplitPrefix(x, LF, []);
    assert x + [LF] + [] == x + [LF];
    assert Split([], LF) == [[]];
    assert Pieces(x) == [x];
    assert [x] + [[]] == [x, []];
    assert Pieces(x + [LF]) == [x];
    assert DropCR(x) == x;
  }

  lemma {:induction false} SplitEndsEmpty(a: Bytes, c: byte)
    requires |a| > 0 && a[|a| - 1] == c
    ensures |Split(a, c)| >= 2 && Split(a, c)[|Split(a, c)| - 1] == []
    decreases |a|
  {
    if |a| == 1 {
      assert a[1..] == [];
    } else {
      assert a[1..][|a| - 2] == c;
      SplitEndsEmpty(a[1..], c);
    }
  }

  lemma SplitAfterSeparator(a: Bytes, b: Bytes, c: byte)
    requires |a| > 0 && a[|a| - 1] == c
    ensures Split(a + b, c) == Split(a, c)[..|Split(a, c)| - 1] + Split(b, c)
  {
    var x := a[..|a| - 1];
    assert a == x + [c];
    assert a + b == x + [c] + b;
    SplitAcross(x, b, c);
    SplitAcross(x, [], c);
    assert x + [c] + [] == a;
    assert Split([], c) == [[]];
    var sx := Split(x, c);
    assert Split(a, c) == sx + [[]];
    assert (sx + [[]])[..|sx|] == sx;
  }

  /** Splitting around a separator splits each side on its own. */
  lemma {:induction false} SplitAcross(x: Bytes, y: Bytes, c: byte)
    ensures Split(x + [c] + y, c) == Split(x, c) + Split(y, c)
    decreases |x|
  {
    if |x| == 0 {
      assert x + [c] + y == [c] + y;
      SplitCons(c, y, c);
      assert Split(x, c) == [[]];
    } else {
      var h, x' := x[0], x[1..];
      var t := x' + [c] + y;
      assert x + [c] + y == [h] + t;
      assert x == [h] + x';
      SplitAcross(x', y, c);
      SplitCons(h, t, c);
      SplitCons(h, x', c);
      var r, q := Split(x', c), Split(y, c);
      assert Split(t, c) == r + q;
      if h == c {
        assert Split(x + [c] + y, c) == [[]] + (r + q);
        assert Split(x, c) == [[]] + r;
      } else {
        GlueHead(h, r, q);
        assert Split(x + [c] + y, c) == [[h] + (r + q)[0]] + (r + q)[1..];
        assert Split(x, c) == [[h] + r[0]] + r[1..];
      }
    }
  }

  /** Gluing a byte onto the first piece commutes with appending more pieces. */
  lemma GlueHead(h: byte, r: seq<Bytes>, q: seq<Bytes>)
    requires |r| > 0
    ensures [[h] + (r + q)[0]] + (r + q)[1..] == [[h] + r[0]] + r[1..] + q
  {
    assert (r + q)[0] == r[0];
    assert (r + q)[1..] == r[1..] + q;
  }

  /** One step of `Split`, stated for a sequence written as head and tail. */
  lemma SplitCons(x: byte, t: Bytes, c: byte)
    ensures Split([x] + t, c) ==
      if x == c then [[]] + Split(t, c)
      else [[x] + Split(t, c)[0]] + Split(t, c)[1..]
  {
    assert ([x] + t)[0] == x && ([x] + t)[1..] == t;
  }

  lemma PiecesAppend(a: Bytes, b: Bytes)
    requires |a| > 0 && a[|a| - 1] == LF
    ensures Pieces(a + b) == Pieces(a) + Pieces(b)
  {
    SplitAfterSeparator(a, b, LF);
    SplitEndsEmpty(a, LF);
    var sa, sb := Split(a, LF), Split(b, LF);
    var x := sa[..|sa| - 1];
    if sb[|sb| - 1] == [] {
      assert (x + sb)[..|x + sb| - 1] == x + sb[..|sb| - 1];
    }
  }

  lemma {:induction false} DropCRsAppend(a: seq<Bytes>, b: seq<Bytes>)
    ensures DropCRs(a + b) == DropCRs(a) + DropCRs(b)
  {
    if |a| == 0 {
      assert a + b == b;
    } else {
      assert (a + b)[1..] == a[1..] + b;
      DropCRsAppend(a[1..], b);
    }
  }

  lemma TokensAppend(a: Bytes, b: Bytes)
    requires |a| > 0 && a[|a| - 1] == LF
    ensures Tokens(a + b) == Tokens(a) + Tokens(b)
  {
    PiecesAppend(a, b);
    DropCRsAppend(Pieces(a), Pieces(b));
  }

  lemma {:induction false} NonEmptyAppend(a: seq<Bytes>, b: seq<Bytes>)
    ensures NonEmpty(a + b) == NonEmpty(a) + NonEmpty(b)
  {
    if |a| == 0 {
      assert a + b == b;
    } else {
      assert (a + b)[0] == a[0];
      assert (a + b)[1..] == a[1..] + b;
      NonEmptyAppend(a[1..], b);
      var h: seq<Bytes> := if a[0] != [] then [a[0]] else [];
      AppendAssoc(h, NonEmpty(a[1..]), NonEmpty(b));
    }
  }

  /** The polls of `Start` after the seek, one per tick: the final offset and
      every line sent. A failed poll is only logged and the next tick polls
      again. */
  function Follow(offset: nat, ticks: seq<Snapshot>): (nat, seq<Bytes>)
    decreases |ticks|
  {
    if |ticks| == 0 then (offset, [])
    else
      var r := Follow(offset, ticks[..|ticks| - 1]);
      var p := CheckAndRead(r.0, ticks[|ticks| - 1]);
      (p.offset, r.1 + p.sent)
  }

  lemma FollowLast(offset: nat, ticks: seq<Snapshot>, i: nat)
    requires i < |ticks|
    ensures var r := Follow(offset, ticks[..i]);
      var p := CheckAndRead(r.0, ticks[i]);
      Follow(offset, ticks[..i + 1]) == (p.offset, r.1 + p.sent)
  {
    assert ticks[..i + 1][..i] == ticks[..i];
  }

  /** A file nobody writes to is followed without a single event, whatever
      errors the reads run into. */
  lemma {:induction false} FollowQuietFile(content: Bytes, ticks: seq<Snapshot>)
    requires forall i :: 0 <= i < |ticks| ==> ticks[i].Readable? && ticks[i].content == content
    ensures Follow(|content|, ticks) == (|content|, [])
    decreases |ticks|
  {
    if |ticks| > 0 {
      var last := ticks[|ticks| - 1];
      assert last == Readable(content, last.fault);
      var init := ticks[..|ticks| - 1];
      FollowQuietFile(content, init);
      PollIdle(|content|, content, last.fault);
      var p := CheckAndRead(|content|, last);
      assert p == PollOutcome(|content|, [], None);
      var e: seq<Bytes> := [];
      assert Follow(|content|, ticks) == (p.offset, e + p.sent);
      assert e + p.sent == e;
    }
  }

  /** Following a log that only existed before `Start` sends none of its old
      lines. */
  lemma StartSkipsOldLines(offset: nat, content: Bytes, fault: Fault, ticks: seq<Snapshot>)
    requires forall i :: 0 <= i < |ticks| ==> ticks[i].Readable? && ticks[i].content == content
    ensures Follow(SeekEnd(offset, Readable(content, fault)).0, ticks).1 == []
  {
    FollowQuietFile(content, ticks);
  }

  // ---- the tailer ----

  /** An event handed to PostHog. */
  datatype LogEvent = LogEvent(logType: Text, line: Bytes)

  function Tagged(logType: Text, lines: seq<Bytes>): (es: seq<LogEvent>)
    ensures |es| == |lines|
  {
    seq(|lines|, i requires 0 <= i < |lines| => LogEvent(logType, lines[i]))
  }

  lemma TaggedAppend(logType: Text, a: seq<Bytes>, b: seq<Bytes>)
    ensures Tagged(logType, a + b) == Tagged(logType, a) + Tagged(logType, b)
  {
  }

  /** One more line scanned: the events grow by that line's event, or by
      nothing when the line is empty. */
  lemma SendStep(before: seq<LogEvent>, logType: Text, ts: seq<Bytes>, i: nat)
    requires i < |ts|
    ensures before + Tagged(logType, NonEmpty(ts[..i + 1]))
      == before + Tagged(logType, NonEmpty(ts[..i]))
         + (if ts[i] != [] then [LogEvent(logType, ts[i])] else [])
  {
    var done := NonEmpty(ts[..i]);
    var line: seq<Bytes> := if ts[i] != [] then [ts[i]] else [];
    assert ts[..i + 1] == ts[..i] + [ts[i]];
    NonEmptyAppend(ts[..i], [ts[i]]);
    assert NonEmpty([ts[i]]) == line;
    TaggedAppend(logType, done, line);
    AppendAssoc(before, Tagged(logType, done), Tagged(logType, line));
  }

  /** The PostHog client, seen through the events handed to it. */
  class Sink {
    var events: seq<LogEvent>

    constructor()
      ensures events == []
    {
      events := [];
    }

    /** `CaptureLogEvent`: whether PostHog accepted the event is the oracle
        `accepts`; the event counts as handed over either way. */
    method Capture(logType: Text, line: Bytes, accepts: Bytes -> bool) returns (err: Option<Text>)
      modifies this
      ensures events == old(events) + [LogEvent(logType, line)]
      ensures err.None? <==> accepts(line)
    {
      events := events + [LogEvent(logType, line)];
      err := if accepts(line) then None else Some("posthog request failed");
    }
  }

  class LogTailer {
    const filePath: Text
    const logType: Text
    const sink: Sink
    /** The ticker period, in seconds. */
    const pollSeconds: nat
    var offset: nat

    /** `NewLogTailer`: reading starts at offset 0, polling every 2 seconds. */
    constructor (filePath: Text, logType: Text, sink: Sink)
      ensures this.filePath == filePath && this.logType == logType && this.sink == sink
      ensures offset == 0 && pollSeconds == 2
    {
      this.filePath := filePath;
      this.logType := logType;
      this.sink := sink;
      pollSeconds := 2;
      offset := 0;
    }

    /** `Start`: seek to the end of the file (a failure is only logged), poll
        once per tick, and stop with the context's error once it is done; the
        ticks that came before that are `ticks`. */
    method Start(first: Snapshot, ticks: seq<Snapshot>, accepts: Bytes -> bool, cancelled: Text)
      returns (err: Text)
      modifies this`offset, sink
      ensures var r := Follow(SeekEnd(old(offset), first).0, ticks);
        offset == r.0 && sink.events == old(sink.events) + Tagged(logType, r.1)
      ensures err == cancelled
    {
      var _ := SeekToEnd(first);
      PollEach(ticks, accepts);
      return cancelled;
    }

    /** The ticks of `Start`: one `checkAndReadNewLines` each, whatever it
        returns. */
    method PollEach(ticks: seq<Snapshot>, accepts: Bytes -> bool)
      modifies this`offset, sink
      ensures var r := Follow(old(offset), ticks);
        offset == r.0 && sink.events == old(sink.events) + Tagged(logType, r.1)
    {
      ghost var start := offset;
      ghost var sent: seq<Bytes> := [];
      var i := 0;
      while i < |ticks|
        invariant 0 <= i <= |ticks|
        invariant (offset, sent) == Follow(start, ticks[..i])
        invariant sink.events == old(sink.events) + Tagged(logType, sent)
      {
        ghost var p := CheckAndRead(offset, ticks[i]);
        var _ := CheckAndReadNewLines(ticks[i], accepts);
        FollowLast(start, ticks, i);
        TaggedAppend(logType, sent, p.sent);
        AppendAssoc(old(sink.events), Tagged(logType, sent), Tagged(logType, p.sent));
        sent := sent + p.sent;
        i := i + 1;
      }
      assert ticks[..i] == ticks;
    }

    /** `seekToEnd`. */
    method SeekToEnd(s: Snapshot) returns (err: Option<Text>)
      modifies this`offset
      ensures (offset, err) == SeekEnd(old(offset), s)
    {
      match s
      case Absent => err := None;
      case OpenError(r) => err := Some(r);
      case StatError(r) => err := Some(r);
      case Readable(content, _) =>
        offset := |content|;
        err := None;
    }

    /** `checkAndReadNewLines`: a failed send is only logged, and the next
        line is sent regardless. */
    method CheckAndReadNewLines(s: Snapshot, accepts: Bytes -> bool) returns (err: Option<Text>)
      modifies this`offset, sink
      ensures var p := CheckAndRead(old(offset), s);
        offset == p.offset && err == p.err && sink.events == old(sink.events) + Tagged(logType, p.sent)
    {
      match s {
        case Absent => return None;
        case OpenError(r) => return Some("failed to open file: " + r);
        case StatError(r) => return Some("failed to stat file: " + r);
        case Readable(content, fault) =>
          if |content| < offset {
            offset := 0;
          }
          if |content| == offset {
            assert Tagged(logType, []) == [];
            return None;
          }
          if fault.SeekFault? {
            return Some("failed to seek: " + fault.reason);
          }
          var ts := Tokens(content[offset..]);
          var limit := if fault.ScanFault? && fault.scanned < |ts| then fault.scanned else |ts|;
          SendLines(ts, limit, accepts);
          assert ts[..|ts|] == ts;
          match fault {
            case ScanFault(_, r) => return Some("error scanning file: " + r);
            case TellFault(r) => return Some("failed to get current offset: " + r);
            case NoFault =>
              offset := |content|;
              return None;
          }
      }
    }

    /** The scanning loop: every non-empty line among the first `limit` goes to
        the sink, whatever the sink answers. */
    method SendLines(ts: seq<Bytes>, limit: nat, accepts: Bytes -> bool)
      requires limit <= |ts|
      modifies sink
      ensures sink.events == old(sink.events) + Tagged(logType, NonEmpty(ts[..limit]))
    {
      var i := 0;
      while i < limit
        invariant 0 <= i <= limit
        invariant sink.events == old(sink.events) + Tagged(logType, NonEmpty(ts[..i]))
      {
        SendStep(old(sink.events), logType, ts, i);
        if ts[i] != [] {
          var _ := sink.Capture(logType, ts[i], accepts);
        }
        i := i + 1;
      }
    }
  }
}
