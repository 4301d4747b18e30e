/** The VM manager (internal/runner/vm.go): image reference resolution, the
    local image lookup that fixes `imageRef`, and the tart commands that
    drive one VM instance. */
module Vm {
  import opened Wrappers
  import opened Strings
  import opened Config
  import opened Effects

  // ---- image references ----

  /** The reference `Clone` clones from: the one `ImageExists` settled on, or
      the registry path before any lookup. */
  function CloneSource(r: RegistryConfig, imageRef: Text): Text {
    if imageRef != "" then imageRef else RegistryPath(r)
  }

  /** `GetRegistryPath`: the image reference tart pulls and clones from. */
  function RegistryPath(r: RegistryConfig): (p: Text)
    ensures r.url == "" ==> p == r.imageName
    ensures r.url != "" ==> HasPrefix(p, r.url + "/")
  {
    if r.url == "" then r.imageName
    else if HasPrefix(r.imageName, r.url + "/") then r.imageName
    else r.url + "/" + r.imageName
  }

  /** The three cases of the registry path, as the source states them. */
  lemma RegistryPathCases(r: RegistryConfig)
    ensures r.url == "" ==> RegistryPath(r) == r.imageName
    ensures r.url != "" && HasPrefix(r.imageName, r.url + "/") ==> RegistryPath(r) == r.imageName
    ensures r.url != "" && !HasPrefix(r.imageName, r.url + "/") ==> RegistryPath(r) == r.url + "/" + r.imageName
  {
  }

  /** The registry prefix is never doubled: a path that starts with the prefix
      twice had an image name that already did. */
  lemma NoDoublePrefix(r: RegistryConfig)
    requires r.url != ""
    ensures var pre := r.url + "/";
      HasPrefix(RegistryPath(r), pre + pre) ==> HasPrefix(r.imageName, pre + pre)
  {
    var pre := r.url + "/";
    var p := RegistryPath(r);
    if HasPrefix(p, pre + pre) && !HasPrefix(r.imageName, pre) {
      assert false;
    }
  }

  /** Resolving a resolved path again changes nothing. */
  lemma RegistryPathIdempotent(r: RegistryConfig)
    ensures RegistryPath(r.(imageName := RegistryPath(r))) == RegistryPath(r)
  {
  }

  lemma RegistryPathExamples()
    ensures RegistryPath(RegistryConfig("ghcr.io/org", "ghcr.io/org/runner:latest", "", "")) == "ghcr.io/org/runner:latest"
    ensures RegistryPath(RegistryConfig("", "runner:latest", "", "")) == "runner:latest"
    ensures RegistryPath(RegistryConfig("ghcr.io/org", "runner:latest", "", "")) == "ghcr.io/org/runner:latest"
  {
    var pre: Text := "ghcr.io/org/";
    assert HasPrefix("ghcr.io/org/runner:latest", pre);
    assert !HasPrefix("runner:latest", pre) by {
      assert "runner:latest"[0] != pre[0];
    }
  }

  /** Keeps the non-empty elements, as `filepath.Join` ignores empty ones. */
  function NonEmpty(elems: seq<Text>): (r: seq<Text>)
    ensures forall i :: 0 <= i < |r| ==> r[i] != ""
  {
    if |elems| == 0 then [] else (if elems[0] == "" then [] else [elems[0]]) + NonEmpty(elems[1..])
  }

  /** `filepath.Join` without the lexical clean-up of the joined path. */
  function PathJoin(elems: seq<Text>): Text {
    Join(NonEmpty(elems), "/")
  }

  /** `GetCachePath`, with `$HOME` given as `home`. */
  function CachePath(home: Text, r: RegistryConfig): Text {
    PathJoin([home, ".tart", "cache", "OCIs", ReplaceAll(RegistryPath(r), ':', '/')])
  }

  lemma {:induction false} NonEmptyKeepsAll(elems: seq<Text>)
    requires forall i :: 0 <= i < |elems| ==> elems[i] != ""
    ensures NonEmpty(elems) == elems
  {
    if |elems| > 0 {
      NonEmptyKeepsAll(elems[1..]);
    }
  }

  lemma JoinFive<T>(a: seq<T>, b: seq<T>, c: seq<T>, d: seq<T>, e: seq<T>, sep: seq<T>)
    ensures Join([a, b, c, d, e], sep) == a + sep + (b + sep + (c + sep + (d + sep + e)))
  {
    assert [d, e][1..] == [e];
    assert Join([d, e], sep) == d + sep + e;
    assert [c, d, e][1..] == [d, e];
    assert Join([c, d, e], sep) == c + sep + (d + sep + e);
    assert [b, c, d, e][1..] == [c, d, e];
    assert Join([b, c, d, e], sep) == b + sep + (c + sep + (d + sep + e));
    assert [a, b, c, d, e][1..] == [b, c, d, e];
  }

  lemma CachePathOf(home: Text, tail: Text)
    requires home != "" && tail != ""
    ensures PathJoin([home, ".tart", "cache", "OCIs", tail]) == home + "/.tart/cache/OCIs/" + tail
  {
    var elems := [home, ".tart", "cache", "OCIs", tail];
    NonEmptyKeepsAll(elems);
    JoinFive(home, ".tart", "cache", "OCIs", tail, "/");
    CacheDirPrefix(tail);
  }

  lemma CacheDirPrefix(tail: Text)
    ensures "/" + (".tart" + "/" + ("cache" + "/" + ("OCIs" + "/" + tail))) == "/.tart/cache/OCIs/" + tail
  {
    var t1 := "OCIs" + "/" + tail;
    assert "OCIs" + "/" == "OCIs/";
    var t2 := "cache" + "/" + t1;
    AppendAssoc("cache" + "/", "OCIs/", tail);
    assert "cache" + "/" + "OCIs/" == "cache/OCIs/";
    var t3 := ".tart" + "/" + t2;
    AppendAssoc(".tart" + "/", "cache/OCIs/", tail);
    assert ".tart" + "/" + "cache/OCIs/" == ".tart/cache/OCIs/";
    AppendAssoc("/", ".tart/cache/OCIs/", tail);
    assert "/" + ".tart/cache/OCIs/" == "/.tart/cache/OCIs/";
  }

  /** The cache path is `$HOME/.tart/cache/OCIs/` followed by the registry path
      with every tag separator turned into a path separator. */
  lemma CachePathShape(home: Text, r: RegistryConfig)
    requires home != "" && RegistryPath(r) != ""
    ensures CachePath(home, r) == home + "/.tart/cache/OCIs/" + ReplaceAll(RegistryPath(r), ':', '/')
    ensures ':' !in ReplaceAll(RegistryPath(r), ':', '/')
  {
    var tail := ReplaceAll(RegistryPath(r), ':', '/');
    CachePathOf(home, tail);
  }

  // ---- the address check: ^(\d+\.){3}\d+$ ----

  predicate AllDigits(s: Text) {
    forall i :: 0 <= i < |s| ==> IsDigit(s[i])
  }

  /** The pattern `^(\d+\.){3}\d+$` as a scanner over the rest of the input:
      `dots` separators have been read so far, and `seen` says whether the
      current group already holds a digit. */
  predicate ScanQuad(s: Text, dots: nat, seen: bool)
    decreases |s|
  {
    if |s| == 0 then dots == 3 && seen
    else if IsDigit(s[0]) then ScanQuad(s[1..], dots, true)
    else s[0] == '.' && seen && dots < 3 && ScanQuad(s[1..], dots + 1, false)
  }

  /** `ipRegex.MatchString(s)`. */
  predicate MatchesIpRegex(s: Text) {
    ScanQuad(s, 0, false)
  }

  /** Every piece is a non-empty run of decimal digits. */
  predicate DigitRuns(parts: seq<Text>) {
    forall i :: 0 <= i < |parts| ==> parts[i] != "" && AllDigits(parts[i])
  }

  /** Four non-empty digit runs separated by three dots; no range check on the values. */
  predicate IsDottedQuad(s: Text) {
    |Split(s, '.')| == 4 && DigitRuns(Split(s, '.'))
  }

  /** What is left to scan, in terms of its dot-separated pieces: as many pieces
      as groups are still expected, all digits, and all non-empty except that the
      first may be empty when the current group already holds a digit. */
  predicate RestOfQuad(p: seq<Text>, dots: nat, seen: bool) {
    && dots <= 3 && |p| == 4 - dots
    && AllDigits(p[0]) && (seen || p[0] != "")
    && forall i :: 1 <= i < |p| ==> p[i] != "" && AllDigits(p[i])
  }

  lemma {:induction false} ScanQuadPieces(s: Text, dots: nat, seen: bool)
    ensures ScanQuad(s, dots, seen) <==> RestOfQuad(Split(s, '.'), dots, seen)
    decreases |s|
  {
    var p := Split(s, '.');
    if |s| > 0 {
      var rest := Split(s[1..], '.');
      if IsDigit(s[0]) {
        ScanQuadPieces(s[1..], dots, true);
        assert p == [[s[0]] + rest[0]] + rest[1..];
        assert forall i :: 1 <= i < |p| ==> p[i] == rest[i];
        assert AllDigits(p[0]) <==> AllDigits(rest[0]) by {
          assert forall i :: 0 <= i < |rest[0]| ==> p[0][i + 1] == rest[0][i];
        }
      } else if s[0] == '.' {
        ScanQuadPieces(s[1..], dots + 1, false);
        assert p == [[]] + rest;
        assert forall i :: 1 <= i < |p| ==> p[i] == rest[i - 1];
        if RestOfQuad(p, dots, seen) {
          assert RestOfQuad(rest, dots + 1, false) by {
            assert rest[0] == p[1];
            forall i | 1 <= i < |rest| ensures rest[i] != "" && AllDigits(rest[i]) {
              assert rest[i] == p[i + 1];
            }
          }
        }
      } else {
        assert p[0][0] == s[0];
      }
    }
  }

  /** The regular expression accepts exactly the dotted quads. */
  lemma IpRegexIsDottedQuad(s: Text)
    ensures MatchesIpRegex(s) <==> IsDottedQuad(s)
  {
    ScanQuadPieces(s, 0, false);
  }

  /** A run of digits moves the scan on without a dot. */
  lemma {:induction false} ScanDigits(d: Text, rest: Text, dots: nat, seen: bool)
    requires |d| > 0 && AllDigits(d)
    ensures ScanQuad(d + rest, dots, seen) == ScanQuad(rest, dots, true)
  {
    assert (d + rest)[1..] == d[1..] + rest;
    if |d| > 1 {
      ScanDigits(d[1..], rest, dots, true);
    }
  }

  /** Four runs of digits joined by dots pass the scan. */
  lemma ScanQuadOfRuns(a: Text, b: Text, c: Text, d: Text)
    requires |a| > 0 && |b| > 0 && |c| > 0 && |d| > 0
    requires AllDigits(a) && AllDigits(b) && AllDigits(c) && AllDigits(d)
    ensures MatchesIpRegex(a + ("." + (b + ("." + (c + ("." + d))))))
  {
    ScanDigits(d, "", 3, false);
    assert d + "" == d;
    assert ("." + d)[1..] == d;
    ScanDigits(c, "." + d, 2, false);
    assert ("." + (c + ("." + d)))[1..] == c + ("." + d);
    ScanDigits(b, "." + (c + ("." + d)), 1, false);
    assert ("." + (b + ("." + (c + ("." + d)))))[1..] == b + ("." + (c + ("." + d)));
    ScanDigits(a, "." + (b + ("." + (c + ("." + d)))), 0, false);
  }

  lemma IpRegexAcceptsTypical()
    ensures MatchesIpRegex("192.168.64.10")
  {
    assert "192.168.64.10" == "192" + ("." + ("168" + ("." + ("64" + ("." + "10")))));
    ScanQuadOfRuns("192", "168", "64", "10");
  }

  /** The pattern does not bound the value of each group. */
  lemma IpRegexAcceptsOutOfRange()
    ensures MatchesIpRegex("999.999.999.999")
  {
    assert "999.999.999.999" == "999" + ("." + ("999" + ("." + ("999" + ("." + "999")))));
    ScanQuadOfRuns("999", "999", "999", "999");
  }

  lemma IpRegexRejectsExamples()
    ensures !MatchesIpRegex("")
    ensures !MatchesIpRegex("not-an-ip")
    ensures !MatchesIpRegex("1.2.3")
  {
  }

  // ---- the local image lookup of ImageExists ----

  /** The image name without its tag, when a tag separator follows a non-empty name. */
  function LocalName(localRef: Text): (n: Text)
    ensures IndexOf(localRef, ':') > 0 ==> n == localRef[..IndexOf(localRef, ':')] && n != "" && ':' !in n
    ensures IndexOf(localRef, ':') <= 0 ==> n == localRef
  {
    var idx := IndexOf(localRef, ':');
    if idx > 0 then localRef[..idx] else localRef
  }

  /** The references `ImageExists` looks for in the `tart list` output, in order. */
  function Candidates(r: RegistryConfig): (c: seq<Text>)
    ensures |c| >= 1 && c[0] == r.imageName
  {
    var localRef := r.imageName;
    var localName := LocalName(localRef);
    var registryPath := RegistryPath(r);
    [localRef]
    + (if localName != localRef then [localName] else [])
    + (if registryPath != localRef then [registryPath] else [])
  }

  /** The first candidate that occurs in the listing, if any. */
  function FirstListed(candidates: seq<Text>, listing: Text): Option<Text> {
    if |candidates| == 0 then None
    else if Contains(listing, candidates[0]) then Some(candidates[0])
    else FirstListed(candidates[1..], listing)
  }

  /** The first listed candidate is listed, no earlier candidate is, and there is
      none exactly when no candidate is listed. */
  lemma {:induction false} FirstListedSpec(candidates: seq<Text>, listing: Text)
    ensures var r := FirstListed(candidates, listing);
      && (r.None? <==> forall k :: 0 <= k < |candidates| ==> !Contains(listing, candidates[k]))
      && (r.Some? ==> exists k :: (0 <= k < |candidates| && r.value == candidates[k]
            && Contains(listing, candidates[k])
            && forall j :: 0 <= j < k ==> !Contains(listing, candidates[j])))
  {
    if |candidates| > 0 && !Contains(listing, candidates[0]) {
      var tail := candidates[1..];
      FirstListedSpec(tail, listing);
      var r := FirstListed(tail, listing);
      if r.Some? {
        var k :| 0 <= k < |tail| && r.value == tail[k]
          && Contains(listing, tail[k])
          && forall j :: 0 <= j < k ==> !Contains(listing, tail[j]);
        assert forall j :: 0 <= j < k + 1 ==> !Contains(listing, candidates[j]) by {
          forall j | 0 <= j < k + 1 ensures !Contains(listing, candidates[j]) {
            if j > 0 { assert candidates[j] == tail[j - 1]; }
          }
        }
        assert candidates[k + 1] == tail[k];
      } else {
        forall k | 0 <= k < |candidates| ensures !Contains(listing, candidates[k]) {
          if k > 0 { assert candidates[k] == tail[k - 1]; }
        }
      }
    }
  }

  /** What `ImageExists` decides from a successful `tart list`: whether the image is
      there and the reference `imageRef` is set to. */
  datatype Lookup = Lookup(found: bool, ref: Text)

  function SelectImage(r: RegistryConfig, listing: Text): Lookup {
    var localRef := r.imageName;
    var registryPath := RegistryPath(r);
    var localName := LocalName(localRef);
    if Contains(listing, localRef) then Lookup(true, localRef)
    else if localName != localRef && Contains(listing, localName) then Lookup(true, localName)
    else if registryPath != localRef && Contains(listing, registryPath) then Lookup(true, registryPath)
    else Lookup(false, registryPath)
  }

  /** The lookup picks the first listed candidate, and falls back to the registry path. */
  lemma FirstListedCons(x: Text, rest: seq<Text>, listing: Text)
    ensures FirstListed([x] + rest, listing) ==
      if Contains(listing, x) then Some(x) else FirstListed(rest, listing)
  {
    assert ([x] + rest)[1..] == rest;
  }

  lemma SelectImageIsFirstListed(r: RegistryConfig, listing: Text)
    ensures var l := SelectImage(r, listing);
      && (l.found <==> FirstListed(Candidates(r), listing).Some?)
      && (l.found ==> l.ref == FirstListed(Candidates(r), listing).value)
      && (!l.found ==> l.ref == RegistryPath(r))
  {
    var localRef, localName, registryPath := r.imageName, LocalName(r.imageName), RegistryPath(r);
    var second: seq<Text> := if localName != localRef then [localName] else [];
    var third: seq<Text> := if registryPath != localRef then [registryPath] else [];
    assert Candidates(r) == [localRef] + (second + third);
    FirstListedCons(localRef, second + third, listing);
    if second != [] {
      assert second + third == [localName] + third;
      FirstListedCons(localName, third, listing);
    }
    if third != [] {
      FirstListedCons(registryPath, [], listing);
      assert third == [registryPath] + [];
    }
    assert second == [] ==> second + third == third;
  }

  // ---- address polling ----

  const IpTimeout: Text := "timeout waiting for VM IP"

  /** The address a `tart ip` answer shows: its trimmed output, when the command
      succeeded and that output matches the address pattern. */
  function Address(o: Outcome): Option<Text> {
    if o.Done? && MatchesIpRegex(TrimSpace(o.output)) then Some(TrimSpace(o.output)) else None
  }

  /** An event of the `select` in `waitForIP`, with a tick reduced to the address
      its `tart ip` answer shows, if any. */
  function Seen(p: Poll<Outcome>): Poll<Option<Text>> {
    match p
    case Cancelled(reason) => Cancelled(reason)
    case TimedOut => TimedOut
    case Tick(o) => Tick(Address(o))
  }

  function SeenAll(polls: seq<Poll<Outcome>>): (events: seq<Poll<Option<Text>>>)
    ensures |events| == |polls|
  {
    if |polls| == 0 then [] else [Seen(polls[0])] + SeenAll(polls[1..])
  }

  lemma {:induction false} SeenAt(polls: seq<Poll<Outcome>>, i: nat)
    requires i < |polls|
    ensures SeenAll(polls)[i] == Seen(polls[i])
  {
    if i > 0 {
      SeenAt(polls[1..], i - 1);
    }
  }

  /** The result of `waitForIP` over the events its `select` sees; running out of
      events stands for the five-minute timer firing. */
  function IpWait(events: seq<Poll<Option<Text>>>): Result<Text> {
    if |events| == 0 then Err(IpTimeout)
    else match events[0]
      case Cancelled(reason) => Err(reason)
      case TimedOut => Err(IpTimeout)
      case Tick(a) => if a.Some? then Ok(a.value) else IpWait(events[1..])
  }

  /** The commands one tick issues: `tart ip`, then `ssh-keygen -R` for an address. */
  function ProbeLog(name: Text, a: Option<Text>): seq<Command> {
    [TartIp(name)] + if a.Some? then [ForgetHostKey(a.value)] else []
  }

  /** The commands `waitForIP` issues over those events. */
  function IpWaitLog(name: Text, events: seq<Poll<Option<Text>>>): seq<Command> {
    if |events| == 0 then []
    else match events[0]
      case Cancelled(_) => []
      case TimedOut => []
      case Tick(a) => ProbeLog(name, a) + if a.Some? then [] else IpWaitLog(name, events[1..])
  }

  /** One event of the wait: what it decides and what it issues. */
  lemma IpWaitStep(name: Text, events: seq<Poll<Option<Text>>>, i: nat)
    requires i < |events|
    ensures events[i].Cancelled? ==>
      IpWait(events[i..]) == Err(events[i].reason) && IpWaitLog(name, events[i..]) == []
    ensures events[i].TimedOut? ==>
      IpWait(events[i..]) == Err(IpTimeout) && IpWaitLog(name, events[i..]) == []
    ensures events[i].Tick? && events[i].answer.Some? ==>
      IpWait(events[i..]) == Ok(events[i].answer.value)
      && IpWaitLog(name, events[i..]) == ProbeLog(name, events[i].answer)
    ensures events[i].Tick? && events[i].answer.None? ==>
      IpWait(events[i..]) == IpWait(events[i + 1..])
      && IpWaitLog(name, events[i..]) == ProbeLog(name, None) + IpWaitLog(name, events[i + 1..])
  {
    assert events[i..][0] == events[i];
    assert events[i..][1..] == events[i + 1..];
    if events[i].Tick? && events[i].answer.Some? {
      assert ProbeLog(name, events[i].answer) + [] == ProbeLog(name, events[i].answer);
    }
  }

  /** Every address `Address` reports is a dotted quad. */
  lemma AddressIsDottedQuad(o: Outcome)
    ensures Address(o).Some? ==> IsDottedQuad(Address(o).value) && Address(o).value == TrimSpace(o.output)
  {
    IpRegexIsDottedQuad(TrimSpace(o.output));
  }

  /** An address is returned only if it is a dotted quad that some `tart ip` printed. */
  lemma {:induction false} IpWaitYieldsDottedQuad(polls: seq<Poll<Outcome>>)
    ensures IpWait(SeenAll(polls)).Ok? ==>
      exists k :: 0 <= k < |polls| && polls[k].Tick? && IpWait(SeenAll(polls)).value == TrimSpace(polls[k].answer.output)
        && IsDottedQuad(IpWait(SeenAll(polls)).value)
  {
    if |polls| > 0 && polls[0].Tick? {
      AddressIsDottedQuad(polls[0].answer);
      if Address(polls[0].answer).None? {
        IpWaitYieldsDottedQuad(polls[1..]);
        assert SeenAll(polls)[1..] == SeenAll(polls[1..]);
        if IpWait(SeenAll(polls)).Ok? {
          var k :| 0 <= k < |polls[1..]| && polls[1..][k].Tick?
            && IpWait(SeenAll(polls[1..])).value == TrimSpace(polls[1..][k].answer.output);
          assert polls[k + 1] == polls[1..][k];
        }
      }
    }
  }

  /** A tick that shows a matching address. */
  predicate Answers(p: Poll<Option<Text>>) {
    p.Tick? && p.answer.Some?
  }

  /** Event `k` is the first tick that shows an address, and nothing ended the
      wait before it. */
  predicate FirstAnswer(events: seq<Poll<Option<Text>>>, k: int) {
    0 <= k < |events| && Answers(events[k])
    && forall j :: 0 <= j < k ==> events[j].Tick? && !Answers(events[j])
  }

  /** The address obtained is that of the first tick that shows one. */
  lemma {:induction false} IpWaitAt(events: seq<Poll<Option<Text>>>, k: int)
    requires FirstAnswer(events, k)
    ensures IpWait(events) == Ok(events[k].answer.value)
  {
    if k > 0 {
      assert events[0].Tick? && !Answers(events[0]);
      var tail := events[1..];
      assert FirstAnswer(tail, k - 1) by {
        forall j | 0 <= j < k - 1 ensures tail[j].Tick? && !Answers(tail[j]) {
          assert tail[j] == events[j + 1];
        }
        assert tail[k - 1] == events[k];
      }
      IpWaitAt(tail, k - 1);
    }
  }

  /** When an address is obtained, some tick showed it first. */
  lemma {:induction false} IpWaitOkHasAnswer(events: seq<Poll<Option<Text>>>)
    requires IpWait(events).Ok?
    ensures exists k :: FirstAnswer(events, k)
  {
    if Answers(events[0]) {
      assert FirstAnswer(events, 0);
    } else {
      var tail := events[1..];
      IpWaitOkHasAnswer(tail);
      var k :| FirstAnswer(tail, k);
      assert FirstAnswer(events, k + 1) by {
        forall j | 0 <= j < k + 1 ensures events[j].Tick? && !Answers(events[j]) {
          if j > 0 { assert events[j] == tail[j - 1]; }
        }
        assert events[k + 1] == tail[k];
      }
    }
  }

  /** An address is obtained exactly when some tick shows one before the context
      is done or the timer fires. */
  lemma IpWaitOkIff(events: seq<Poll<Option<Text>>>)
    ensures IpWait(events).Ok? <==> exists k :: FirstAnswer(events, k)
  {
    if IpWait(events).Ok? {
      IpWaitOkHasAnswer(events);
    }
    if exists k :: FirstAnswer(events, k) {
      var k :| FirstAnswer(events, k);
      IpWaitAt(events, k);
    }
  }

  /** With no tick showing an address, the wait ends in an error: the context's,
      or the timeout. */
  lemma {:induction false} IpWaitNeverAnswered(events: seq<Poll<Option<Text>>>)
    requires forall j :: 0 <= j < |events| ==> !Answers(events[j])
    ensures IpWait(events).Err?
    ensures (forall j :: 0 <= j < |events| ==> events[j].Tick?) ==> IpWait(events) == Err(IpTimeout)
  {
    if |events| > 0 && events[0].Tick? {
      IpWaitNeverAnswered(events[1..]);
    }
  }

  // ---- the manager ----

  class VMManager {
    const cfg: Config
    /** `os.Getenv("HOME")`, read once. */
    const home: Text
    const host: Host
    /** The reference `Clone` uses; set by `ImageExists`. */
    var imageRef: Text

    constructor(cfg: Config, home: Text, host: Host)
      ensures this.cfg == cfg && this.home == home && this.host == host && imageRef == ""
    {
      this.cfg := cfg;
      this.home := home;
      this.host := host;
      imageRef := "";
    }

    /** `Login`: a no-op without a registry URL or user name. */
    method Login(o: Outcome) returns (err: Option<Text>)
      modifies host
      ensures cfg.registry.url == "" || cfg.registry.username == "" ==>
        err == None && host.log == old(host.log)
      ensures cfg.registry.url != "" && cfg.registry.username != "" ==>
        && host.log == old(host.log) + [TartLogin(cfg.registry.url, cfg.registry.username)]
        && (err == None <==> o.Done?)
        && (o.Failed? ==> err == Some("registry login failed: " + o.reason + "\nOutput: " + o.output))
    {
      if cfg.registry.url == "" || cfg.registry.username == "" {
        return None;
      }
      host.Issue(TartLogin(cfg.registry.url, cfg.registry.username));
      if o.Failed? {
        return Some("registry login failed: " + o.reason + "\nOutput: " + o.output);
      }
      return None;
    }

    /** `ImageExists`: looks the image up in the `tart list` output and fixes `imageRef`. */
    method ImageExists(listing: Outcome) returns (found: bool, err: Option<Text>)
      modifies this`imageRef, host
      ensures host.log == old(host.log) + [TartList]
      ensures listing.Failed? ==>
        err == Some("tart list failed: " + listing.reason) && !found && imageRef == old(imageRef)
      ensures listing.Done? ==>
        && err == None
        && found == SelectImage(cfg.registry, listing.output).found
        && imageRef == SelectImage(cfg.registry, listing.output).ref
    {
      var localRef := cfg.registry.imageName;
      var registryPath := RegistryPath(cfg.registry);
      var localName := localRef;
      var idx := IndexOf(localRef, ':');
      if idx > 0 {
        localName := localRef[..idx];
      }
      host.Issue(TartList);
      if listing.Failed? {
        return false, Some("tart list failed: " + listing.reason);
      }
      var out := listing.output;
      if Contains(out, localRef) {
        imageRef := localRef;
        return true, None;
      }
      if localName != localRef && Contains(out, localName) {
        imageRef := localName;
        return true, None;
      }
      if registryPath != localRef && Contains(out, registryPath) {
        imageRef := registryPath;
        return true, None;
      }
      imageRef := registryPath;
      return false, None;
    }

    /** `PullImage`: clears the tart directory and pulls the registry path; the disk
        resize that follows when a truncate size is configured is one outcome. */
    method PullImage(pull: Outcome, resize: Outcome) returns (err: Option<Text>)
      modifies host
      ensures host.log == old(host.log) + [RemoveAll(PathJoin([home, ".tart"])), TartPull(RegistryPath(cfg.registry))]
      ensures pull.Failed? ==> err == Some("tart pull failed: " + pull.reason)
      ensures pull.Done? && cfg.options.truncateSize != "" && resize.Failed? ==>
        err == Some("disk resize failed: " + resize.reason)
      ensures err == None <==> pull.Done? && (cfg.options.truncateSize == "" || resize.Done?)
    {
      host.Issue(RemoveAll(PathJoin([home, ".tart"])));
      host.Issue(TartPull(RegistryPath(cfg.registry)));
      if pull.Failed? {
        return Some("tart pull failed: " + pull.reason);
      }
      if cfg.options.truncateSize != "" && resize.Failed? {
        return Some("disk resize failed: " + resize.reason);
      }
      return None;
    }

    method Clone(name: Text, o: Outcome) returns (err: Option<Text>)
      modifies host
      ensures host.log == old(host.log) + [TartClone(CloneSource(cfg.registry, imageRef), name)]
      ensures err == None <==> o.Done?
      ensures o.Failed? ==> err == Some("tart clone failed: " + o.reason + "\nOutput: " + o.output)
    {
      var ref := imageRef;
      if ref == "" {
        ref := RegistryPath(cfg.registry);
      }
      host.Issue(TartClone(ref, name));
      if o.Failed? {
        return Some("tart clone failed: " + o.reason + "\nOutput: " + o.output);
      }
      return None;
    }

    /** `Start`: launches `tart run --no-graphics`; the outcome is whether the process started. */
    method Start(name: Text, o: Outcome) returns (err: Option<Text>)
      modifies host
      ensures host.log == old(host.log) + [TartRun(name)]
      ensures err == None <==> o.Done?
      ensures o.Failed? ==> err == Some("tart run failed: " + o.reason)
    {
      host.Issue(TartRun(name));
      if o.Failed? {
        return Some("tart run failed: " + o.reason);
      }
      return None;
    }

    /** One tick of `waitForIP`: runs `tart ip`; a failed command or an answer that
        is not an address is skipped, an address has its old host key removed. */
    method ProbeIp(name: Text, o: Outcome) returns (a: Option<Text>)
      modifies host
      ensures a == Address(o)
      ensures host.log == old(host.log) + ProbeLog(name, a)
    {
      host.Issue(TartIp(name));
      if o.Failed? {
        return None;
      }
      var ip := TrimSpace(o.output);
      if MatchesIpRegex(ip) {
        host.Issue(ForgetHostKey(ip));
        return Some(ip);
      }
      return None;
    }

    /** `WaitForIP`: polls `tart ip` until it prints a dotted quad. */
    method WaitForIP(name: Text, polls: seq<Poll<Outcome>>) returns (r: Result<Text>)
      modifies host
      ensures r == IpWait(SeenAll(polls))
      ensures host.log == old(host.log) + IpWaitLog(name, SeenAll(polls))
    {
      ghost var events := SeenAll(polls);
      ghost var start := host.log;
      var i := 0;
      while i < |polls|
        invariant 0 <= i <= |polls|
        invariant IpWait(events[i..]) == IpWait(events)
        invariant host.log + IpWaitLog(name, events[i..]) == start + IpWaitLog(name, events)
      {
        SeenAt(polls, i);
        assert events[i..] == [Seen(polls[i])] + events[i + 1..];
        var step := Select(name, polls[i], events[i + 1..]);
        if step.Some? {
          return step.value;
        }
        i := i + 1;
      }
      assert events[i..] == [];
      assert host.log + [] == host.log;
      return Err(IpTimeout);
    }

    /** One pass of the `select` in `waitForIP`, followed by the events `rest`:
        `None` keeps polling. */
    method Select(name: Text, p: Poll<Outcome>, ghost rest: seq<Poll<Option<Text>>>)
      returns (step: Option<Result<Text>>)
      modifies host
      ensures step.Some? ==>
        (step.value == IpWait([Seen(p)] + rest)
         && host.log == old(host.log) + IpWaitLog(name, [Seen(p)] + rest))
      ensures step.None? ==>
        (IpWait([Seen(p)] + rest) == IpWait(rest)
         && host.log + IpWaitLog(name, rest) == old(host.log) + IpWaitLog(name, [Seen(p)] + rest))
    {
      ghost var events := [Seen(p)] + rest;
      IpWaitStep(name, events, 0);
      assert events[0..] == events && events[1..] == rest;
      match p
      case Cancelled(reason) =>
        assert old(host.log) + [] == old(host.log);
        return Some(Err(reason));
      case TimedOut =>
        assert old(host.log) + [] == old(host.log);
        return Some(Err(IpTimeout));
      case Tick(o) =>
        var a := ProbeIp(name, o);
        if a.Some? {
          return Some(Ok(a.value));
        }
        return None;
    }

    method Stop(name: Text, o: Outcome) returns (err: Option<Text>)
      modifies host
      ensures host.log == old(host.log) + [TartStop(name)]
      ensures err == None <==> o.Done?
      ensures o.Failed? ==> err == Some("tart stop failed: " + o.reason + "\nOutput: " + o.output)
    {
      host.Issue(TartStop(name));
      if o.Failed? {
        return Some("tart stop failed: " + o.reason + "\nOutput: " + o.output);
      }
      return None;
    }

    method Delete(name: Text, o: Outcome) returns (err: Option<Text>)
      modifies host
      ensures host.log == old(host.log) + [TartDelete(name)]
      ensures err == None <==> o.Done?
      ensures o.Failed? ==> err == Some("tart delete failed: " + o.reason + "\nOutput: " + o.output)
    {
      host.Issue(TartDelete(name));
      if o.Failed? {
        return Some("tart delete failed: " + o.reason + "\nOutput: " + o.output);
      }
      return None;
    }

    /** `Cleanup`: stop, then delete, the same instance; it reports nothing. */
    method Cleanup(name: Text, stop: Outcome, delete: Outcome)
      modifies host
      ensures host.log == old(host.log) + [TartStop(name), TartDelete(name)]
    {
      var _ := Stop(name, stop);
      var _ := Delete(name, delete);
    }
  }
}
