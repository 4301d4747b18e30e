/** The runner loop of internal/runner/loop.go. `Run` repeats cycles that make
    sure the base image is cached and then bring up one ephemeral runner in a
    fresh VM (`runOnce`). The Go loop only ends on cancellation, on the shutdown
    flag or on a missing registry; the model runs it over a finite sequence of
    cycles, each carrying what the outside world answers during it, and ends
    with `StillRunning` when they are used up. */
module Loop {
  import opened Wrappers
  import opened Strings
  import opened Effects
  import opened Config
  import opened Vm
  import opened Ssh
  import opened GitHub

  const NoRegistry: Text := "image not found and no registry URL configured"
  const LoginFailed: Text := "registry login failed: "

  // ---- run identifiers ----

  /** One draw of `rand.Intn(10000)`. */
  type Draw = n: int | 0 <= n < 10000

  function Pow10(k: nat): nat {
    if k == 0 then 1 else 10 * Pow10(k - 1)
  }

  lemma {:induction false} DecimalWidth(n: nat, k: nat)
    requires 1 <= k && n < Pow10(k)
    ensures |NatToText(n)| <= k
  {
    if n >= 10 {
      assert k >= 2;
      assert n / 10 < Pow10(k - 1);
      DecimalWidth(n / 10, k - 1);
    }
  }

  /** `generateRunID`: the two draws written in decimal one after the other. */
  function RunID(a: Draw, b: Draw): (id: Text)
    ensures 2 <= |id| <= 8
    ensures forall i :: 0 <= i < |id| ==> IsDigit(id[i])
  {
    DecimalWidth(a, 4);
    DecimalWidth(b, 4);
    NatToText(a) + NatToText(b)
  }

  /** Different draws can give the same identifier, so two runs may share an
      instance name. */
  lemma RunIDCollides()
    ensures RunID(1, 23) == RunID(12, 3)
  {
    assert NatToText(23) == NatToText(2) + [DigitChar(3)];
    assert NatToText(12) == NatToText(1) + [DigitChar(2)];
  }

  /** The VM name of one run. */
  function InstanceName(cfg: Config, runID: Text): Text {
    "runner_" + cfg.github.runnerName + "_" + runID
  }

  // ---- one iteration ----

  /** What one `runOnce` meets: the token exchange, the run-ID draws, and the
      outcome of every step. */
  datatype Iteration = Iteration(
    tokenCreate: Option<Text>, tokenSend: Request -> Reply,
    idHigh: Draw, idLow: Draw,
    clone: Outcome, start: Outcome,
    ipPolls: seq<Poll<Outcome>>, sshPolls: seq<Poll<Outcome>>,
    configure: Outcome, run: Outcome, stop: Outcome,
    cleanupStop: Outcome, cleanupDelete: Outcome)

  /** The commands a stretch of `runOnce` issues and the error it ends with. */
  datatype Step = Step(log: seq<Command>, err: Option<Text>)

  /** `s` and then, unless it failed, `k`. */
  function Then(s: Step, k: Step): Step {
    if s.err.Some? then s else Step(s.log + k.log, k.err)
  }

  function Wrap(prefix: Text, e: Option<Text>): Option<Text> {
    if e.Some? then Some(prefix + e.value) else None
  }

  function CloneStep(ref: Text, name: Text, o: Outcome): Step {
    Step([TartClone(ref, name)], Wrap("failed to clone VM: ",
      if o.Failed? then Some("tart clone failed: " + o.reason + "\nOutput: " + o.output) else None))
  }

  function StartStep(name: Text, o: Outcome): Step {
    Step([TartRun(name)], Wrap("failed to start VM: ", if o.Failed? then Some("tart run failed: " + o.reason) else None))
  }

  function IpStep(name: Text, polls: seq<Poll<Outcome>>): Step {
    var ip := IpWait(SeenAll(polls));
    Step(IpWaitLog(name, SeenAll(polls)), if ip.Err? then Some("failed to get VM IP: " + ip.error) else None)
  }

  function SshStep(target: Text, polls: seq<Poll<Outcome>>): Step {
    Step(SshWaitLog(target, polls), Wrap("SSH not available: ", SshWait(polls)))
  }

  function ConfigureStep(cfg: Config, target: Text, token: Text, o: Outcome): Step {
    var labels := Join(EffectiveLabels(cfg.github.runnerLabels), ",");
    Step([Ssh(target, ConfigCommand(cfg.github.runnerURL, token, cfg.github.runnerName, labels), false)],
      Wrap("failed to configure runner: ", if o.Failed? then Some(CommandFailed + o.reason) else None))
  }

  /** Running the runner and the graceful stop: their errors are only logged. */
  function FinishStep(target: Text, name: Text): Step {
    Step([Ssh(target, RunCommand, true), TartStop(name)], None)
  }

  /** Bringing the VM up: clone, start, wait for an address. */
  function Boot(ref: Text, name: Text, it: Iteration): Step {
    Then(Then(CloneStep(ref, name, it.clone), StartStep(name, it.start)), IpStep(name, it.ipPolls))
  }

  /** Working on the VM at `ip`: wait for SSH, configure, run, stop. */
  function Session(cfg: Config, ip: Text, name: Text, token: Text, it: Iteration): Step {
    var target := Target(cfg, ip);
    Then(Then(SshStep(target, it.sshPolls), ConfigureStep(cfg, target, token, it.configure)), FinishStep(target, name))
  }

  /** The steps after the instance name is fixed, each run only when all before
      it succeeded. */
  function Attempt(cfg: Config, ref: Text, name: Text, token: Text, it: Iteration): Step {
    var ip := IpWait(SeenAll(it.ipPolls));
    Then(Boot(ref, name, it), Session(cfg, if ip.Ok? then ip.value else "", name, token, it))
  }

  /** `runOnce` cloning from `ref`: no token, no VM; otherwise the attempt,
      followed in every case by the deferred cleanup of the instance. */
  function Iterate(cfg: Config, ref: Text, parse: Text -> Result<Text>, it: Iteration): Step {
    var token := RegistrationToken(cfg, it.tokenCreate, it.tokenSend, parse);
    if token.Err? then Step([], Some("failed to get registration token: " + token.error))
    else
      var name := InstanceName(cfg, RunID(it.idHigh, it.idLow));
      var a := Attempt(cfg, ref, name, token.value, it);
      Step(a.log + [TartStop(name), TartDelete(name)], a.err)
  }

  /** The stages that can fail `runOnce`, in order, with the text its error then
      starts with. */
  const StagePrefixes: seq<Text> := ["failed to get registration token: ", "failed to clone VM: ",
    "failed to start VM: ", "failed to get VM IP: ", "SSH not available: ", "failed to configure runner: "]

  /** What each stage that can fail `runOnce` comes to, judged on its own
      input alone. */
  datatype Stages = Stages(token: Result<Text>, clone: Outcome, start: Outcome,
                           ip: Result<Text>, ssh: Option<Text>, configure: Outcome)

  function StagesOf(cfg: Config, parse: Text -> Result<Text>, it: Iteration): Stages {
    Stages(RegistrationToken(cfg, it.tokenCreate, it.tokenSend, parse), it.clone, it.start,
           IpWait(SeenAll(it.ipPolls)), SshWait(it.sshPolls), it.configure)
  }

  /** Which stages fail. */
  function StageFailures(s: Stages): seq<bool> {
    [s.token.Err?, s.clone.Failed?, s.start.Failed?, s.ip.Err?, s.ssh.Some?, s.configure.Failed?]
  }

  /** The position of the first `true`, or the length when there is none. */
  function FirstTrue(flags: seq<bool>): (k: nat)
    ensures k <= |flags|
    ensures k < |flags| ==> flags[k]
    ensures forall i :: 0 <= i < k ==> !flags[i]
  {
    if |flags| == 0 then 0 else if flags[0] then 0 else 1 + FirstTrue(flags[1..])
  }

  /** The error of the first failing stage, read off the stages in order. */
  function StageError(s: Stages): Option<Text> {
    if s.token.Err? then Some(StagePrefixes[0] + s.token.error)
    else if s.clone.Failed? then Some(StagePrefixes[1] + ("tart clone failed: " + s.clone.reason + "\nOutput: " + s.clone.output))
    else if s.start.Failed? then Some(StagePrefixes[2] + ("tart run failed: " + s.start.reason))
    else if s.ip.Err? then Some(StagePrefixes[3] + s.ip.error)
    else if s.ssh.Some? then Some(StagePrefixes[4] + s.ssh.value)
    else if s.configure.Failed? then Some(StagePrefixes[5] + (CommandFailed + s.configure.reason))
    else None
  }

  /** The error of `runOnce` is the error of its first failing stage. */
  lemma IterateErr(cfg: Config, ref: Text, parse: Text -> Result<Text>, it: Iteration)
    ensures Iterate(cfg, ref, parse, it).err == StageError(StagesOf(cfg, parse, it))
  {
    var token := RegistrationToken(cfg, it.tokenCreate, it.tokenSend, parse);
    if token.Ok? {
      var name := InstanceName(cfg, RunID(it.idHigh, it.idLow));
      var ip := IpWait(SeenAll(it.ipPolls));
      var b := Boot(ref, name, it);
      var ses := Session(cfg, if ip.Ok? then ip.value else "", name, token.value, it);
      assert Attempt(cfg, ref, name, token.value, it) == Then(b, ses);
      assert b.err.None? <==> it.clone.Done? && it.start.Done? && ip.Ok?;
    }
  }

  /** There is an error exactly when some stage fails, and it starts with the
      text of the first stage that failed. */
  lemma StageErrorIsFirstFailure(s: Stages)
    ensures var k := FirstTrue(StageFailures(s));
      && (StageError(s).None? <==> k == |StagePrefixes|)
      && (k < |StagePrefixes| ==> StageError(s).Some? && HasPrefix(StageError(s).value, StagePrefixes[k]))
  {
    var f := StageFailures(s);
    var k := FirstTrue(f);
    var e := StageError(s);
    if k < 6 {
      var x: Text;
      if k == 0 {
        x := s.token.error;
      } else if k == 1 {
        assert !f[0];
        x := "tart clone failed: " + s.clone.reason + "\nOutput: " + s.clone.output;
      } else if k == 2 {
        assert !f[0] && !f[1];
        x := "tart run failed: " + s.start.reason;
      } else if k == 3 {
        assert !f[0] && !f[1] && !f[2];
        x := s.ip.error;
      } else if k == 4 {
        assert !f[0] && !f[1] && !f[2] && !f[3];
        x := s.ssh.value;
      } else {
        assert !f[0] && !f[1] && !f[2] && !f[3] && !f[4];
        x := CommandFailed + s.configure.reason;
      }
      assert e == Some(StagePrefixes[k] + x);
      PrefixOfAppend(StagePrefixes[k], x);
    } else {
      assert !f[0] && !f[1] && !f[2] && !f[3] && !f[4] && !f[5];
    }
  }

  /** `runOnce` succeeds exactly when no stage fails; otherwise its error names
      the first stage that failed, whatever the later ones would have done. */
  lemma IterateFirstFailure(cfg: Config, ref: Text, parse: Text -> Result<Text>, it: Iteration)
    ensures var k := FirstTrue(StageFailures(StagesOf(cfg, parse, it)));
      var s := Iterate(cfg, ref, parse, it);
      && (s.err.None? <==> k == |StagePrefixes|)
      && (k < |StagePrefixes| ==> s.err.Some? && HasPrefix(s.err.value, StagePrefixes[k]))
  {
    IterateErr(cfg, ref, parse, it);
    StageErrorIsFirstFailure(StagesOf(cfg, parse, it));
  }

  lemma PrefixOfAppend(p: Text, x: Text)
    ensures HasPrefix(p + x, p)
  {
    assert (p + x)[..|p|] == p;
  }

  /** The runner's own exit and the graceful stop never decide the result. */
  lemma IterateIgnoresRunnerExit(cfg: Config, ref: Text, parse: Text -> Result<Text>, it: Iteration,
                                 run: Outcome, stop: Outcome, cleanupStop: Outcome, cleanupDelete: Outcome)
    ensures Iterate(cfg, ref, parse, it).err ==
      Iterate(cfg, ref, parse, it.(run := run, stop := stop, cleanupStop := cleanupStop, cleanupDelete := cleanupDelete)).err
  {
  }

  /** VM clones in a command log. */
  function Clones(log: seq<Command>): nat {
    if |log| == 0 then 0 else (if log[0].TartClone? then 1 else 0) + Clones(log[1..])
  }

  /** VM deletions in a command log. */
  function Deletes(log: seq<Command>): nat {
    if |log| == 0 then 0 else (if log[0].TartDelete? then 1 else 0) + Deletes(log[1..])
  }

  lemma {:induction false} TallyAppend(a: seq<Command>, b: seq<Command>)
    ensures Clones(a + b) == Clones(a) + Clones(b)
    ensures Deletes(a + b) == Deletes(a) + Deletes(b)
  {
    if |a| > 0 {
      assert (a + b)[0] == a[0];
      assert (a + b)[1..] == a[1..] + b;
      TallyAppend(a[1..], b);
    } else {
      assert a + b == b;
    }
  }

  lemma TallyPair(x: Command, y: Command)
    ensures Clones([x, y]) == (if x.TartClone? then 1 else 0) + (if y.TartClone? then 1 else 0)
    ensures Deletes([x, y]) == (if x.TartDelete? then 1 else 0) + (if y.TartDelete? then 1 else 0)
  {
    assert [x, y][1..] == [y];
    assert [y][1..] == [];
    assert Clones([y]) == (if y.TartClone? then 1 else 0) + Clones([]);
    assert Deletes([y]) == (if y.TartDelete? then 1 else 0) + Deletes([]);
  }

  lemma {:induction false} IpWaitLogQuiet(name: Text, events: seq<Poll<Option<Text>>>)
    ensures Clones(IpWaitLog(name, events)) == 0 && Deletes(IpWaitLog(name, events)) == 0
  {
    if |events| > 0 && events[0].Tick? {
      var a := events[0].answer;
      var rest := if a.Some? then [] else IpWaitLog(name, events[1..]);
      if a.None? {
        IpWaitLogQuiet(name, events[1..]);
      }
      TallyAppend(ProbeLog(name, a), rest);
    }
  }

  lemma {:induction false} SshWaitLogQuiet(target: Text, polls: seq<Poll<Outcome>>)
    ensures Clones(SshWaitLog(target, polls)) == 0 && Deletes(SshWaitLog(target, polls)) == 0
  {
    if |polls| > 0 && polls[0].Tick? {
      var rest := if polls[0].answer.Done? then [] else SshWaitLog(target, polls[1..]);
      if !polls[0].answer.Done? {
        SshWaitLogQuiet(target, polls[1..]);
      }
      TallyAppend([SshProbe(target)], rest);
    }
  }

  lemma ThenTally(s: Step, k: Step)
    ensures Clones(Then(s, k).log) == Clones(s.log) + (if s.err.None? then Clones(k.log) else 0)
    ensures Deletes(Then(s, k).log) == Deletes(s.log) + (if s.err.None? then Deletes(k.log) else 0)
    ensures |s.log| > 0 ==> |Then(s, k).log| > 0 && Then(s, k).log[0] == s.log[0]
  {
    if s.err.None? {
      TallyAppend(s.log, k.log);
    }
  }

  /** Booting clones the instance first and never deletes one. */
  lemma BootShape(ref: Text, name: Text, it: Iteration)
    ensures var b := Boot(ref, name, it);
      |b.log| >= 1 && b.log[0] == TartClone(ref, name) && Clones(b.log) == 1 && Deletes(b.log) == 0
  {
    var cl, st, ips := CloneStep(ref, name, it.clone), StartStep(name, it.start), IpStep(name, it.ipPolls);
    IpWaitLogQuiet(name, SeenAll(it.ipPolls));
    assert [TartClone(ref, name)][1..] == [] && [TartRun(name)][1..] == [];
    ThenTally(cl, st);
    ThenTally(Then(cl, st), ips);
  }

  /** Working on the VM neither clones nor deletes one. */
  lemma SessionQuiet(cfg: Config, ip: Text, name: Text, token: Text, it: Iteration)
    ensures var s := Session(cfg, ip, name, token, it); Clones(s.log) == 0 && Deletes(s.log) == 0
  {
    var target := Target(cfg, ip);
    var ss, co, fi := SshStep(target, it.sshPolls), ConfigureStep(cfg, target, token, it.configure), FinishStep(target, name);
    SshWaitLogQuiet(target, it.sshPolls);
    assert co.log[1..] == [];
    TallyPair(Ssh(target, RunCommand, true), TartStop(name));
    ThenTally(ss, co);
    ThenTally(Then(ss, co), fi);
  }

  /** The attempt starts with the clone and neither clones nor deletes again. */
  lemma AttemptShape(cfg: Config, ref: Text, name: Text, token: Text, it: Iteration)
    ensures var a := Attempt(cfg, ref, name, token, it);
      |a.log| >= 1 && a.log[0] == TartClone(ref, name) && Clones(a.log) == 1 && Deletes(a.log) == 0
  {
    var ip := IpWait(SeenAll(it.ipPolls));
    var addr := if ip.Ok? then ip.value else "";
    BootShape(ref, name, it);
    SessionQuiet(cfg, addr, name, token, it);
    ThenTally(Boot(ref, name, it), Session(cfg, addr, name, token, it));
  }

  /** Without a token nothing is issued; with one, the run clones its instance
      first and deletes it last, exactly once. */
  lemma IterateCleansUp(cfg: Config, ref: Text, parse: Text -> Result<Text>, it: Iteration)
    ensures var s := Iterate(cfg, ref, parse, it);
      && (RegistrationToken(cfg, it.tokenCreate, it.tokenSend, parse).Err? ==> s.log == [])
      && (RegistrationToken(cfg, it.tokenCreate, it.tokenSend, parse).Ok? ==>
            var name := InstanceName(cfg, RunID(it.idHigh, it.idLow));
            && |s.log| >= 3 && s.log[0] == TartClone(ref, name)
            && s.log[|s.log| - 2..] == [TartStop(name), TartDelete(name)]
            && Clones(s.log) == 1 && Deletes(s.log) == 1)
  {
    var token := RegistrationToken(cfg, it.tokenCreate, it.tokenSend, parse);
    if token.Ok? {
      var name := InstanceName(cfg, RunID(it.idHigh, it.idLow));
      var a := Attempt(cfg, ref, name, token.value, it);
      AttemptShape(cfg, ref, name, token.value, it);
      var cleanup := [TartStop(name), TartDelete(name)];
      TallyPair(TartStop(name), TartDelete(name));
      TallyAppend(a.log, cleanup);
    }
  }

  /** Clone, start and wait for the address. */
  method BootVm(vm: VMManager, name: Text, it: Iteration) returns (err: Option<Text>, ip: Text)
    modifies vm.host
    ensures var b := Boot(CloneSource(vm.cfg.registry, vm.imageRef), name, it);
      err == b.err && vm.host.log == old(vm.host.log) + b.log
    ensures err.None? ==> IpWait(SeenAll(it.ipPolls)) == Ok(ip)
  {
    ghost var c := [TartClone(CloneSource(vm.cfg.registry, vm.imageRef), name)];
    var e := vm.Clone(name, it.clone);
    if e.Some? {
      return Some("failed to clone VM: " + e.value), "";
    }
    e := vm.Start(name, it.start);
    AppendAssoc(old(vm.host.log), c, [TartRun(name)]);
    if e.Some? {
      return Some("failed to start VM: " + e.value), "";
    }
    var r := vm.WaitForIP(name, it.ipPolls);
    AppendAssoc(old(vm.host.log), c + [TartRun(name)], IpWaitLog(name, SeenAll(it.ipPolls)));
    if r.Err? {
      return Some("failed to get VM IP: " + r.error), "";
    }
    return None, r.value;
  }

  /** Wait for SSH, configure the runner, run it and stop the VM. */
  method SessionOnVm(vm: VMManager, ip: Text, name: Text, token: Text, it: Iteration) returns (err: Option<Text>)
    modifies vm.host
    ensures var s := Session(vm.cfg, ip, name, token, it);
      err == s.err && vm.host.log == old(vm.host.log) + s.log
  {
    var ssh := new SSHClient(vm.cfg, vm.host);
    ghost var w := SshWaitLog(Target(vm.cfg, ip), it.sshPolls);
    var e := ssh.WaitForSSH(ip, it.sshPolls);
    if e.Some? {
      return Some("SSH not available: " + e.value);
    }
    ghost var co := ConfigureStep(vm.cfg, Target(vm.cfg, ip), token, it.configure);
    e := ssh.ConfigureRunner(ip, token, it.configure);
    AppendAssoc(old(vm.host.log), w, co.log);
    if e.Some? {
      return Some("failed to configure runner: " + e.value);
    }
    ghost var mid := vm.host.log;
    ghost var fin := FinishStep(Target(vm.cfg, ip), name).log;
    e := ssh.RunRunner(ip, it.run);
    e := vm.Stop(name, it.stop);
    assert vm.host.log == mid + fin;
    AppendAssoc(old(vm.host.log), w + co.log, fin);
    return None;
  }

  /** The steps of `runOnce` after the deferred cleanup is registered. */
  method RunAttempt(vm: VMManager, name: Text, token: Text, it: Iteration) returns (err: Option<Text>)
    modifies vm.host
    ensures var a := Attempt(vm.cfg, CloneSource(vm.cfg.registry, vm.imageRef), name, token, it);
      err == a.err && vm.host.log == old(vm.host.log) + a.log
  {
    ghost var b := Boot(CloneSource(vm.cfg.registry, vm.imageRef), name, it);
    var ip;
    err, ip := BootVm(vm, name, it);
    if err.Some? {
      return;
    }
    err := SessionOnVm(vm, ip, name, token, it);
    AppendAssoc(old(vm.host.log), b.log, Session(vm.cfg, ip, name, token, it).log);
  }

  /** `runOnce`: fetch a token, name the instance, run the attempt and clean
      the instance up whatever happened. */
  method RunOnce(vm: VMManager, parse: Text -> Result<Text>, it: Iteration) returns (err: Option<Text>)
    modifies vm.host
    ensures var s := Iterate(vm.cfg, CloneSource(vm.cfg.registry, vm.imageRef), parse, it);
      err == s.err && vm.host.log == old(vm.host.log) + s.log
  {
    var token := RegistrationToken(vm.cfg, it.tokenCreate, it.tokenSend, parse);
    if token.Err? {
      return Some("failed to get registration token: " + token.error);
    }
    var name := InstanceName(vm.cfg, RunID(it.idHigh, it.idLow));
    err := RunAttempt(vm, name, token.value, it);
    vm.Cleanup(name, it.cleanupStop, it.cleanupDelete);
    AppendAssoc(old(vm.host.log), Attempt(vm.cfg, CloneSource(vm.cfg.registry, vm.imageRef), name, token.value, it).log,
      [TartStop(name), TartDelete(name)]);
  }

  // ---- the loop ----

  /** What one turn of the loop meets: cancellation and the shutdown flag at its
      head, the image listing, the pull and disk resize, the iteration, and
      whether the context was cancelled when the iteration failed. */
  datatype Cycle = Cycle(
    cancelled: bool, flagPresent: bool,
    listing: Outcome, pull: Outcome, resize: Outcome,
    iteration: Iteration, cancelledAfter: bool)

  /** How `Run` returns: `nil`, an error, or, in the model, not yet. */
  datatype Exit = Stopped | Errored(error: Text) | StillRunning

  /** One turn: whether it ends the loop, the image reference after it, and
      the commands it issued (pauses included). */
  datatype Turn = Turn(exit: Option<Exit>, imageRef: Text, log: seq<Command>)

  /** The run of the loop: its exit, the final image reference and the log. */
  datatype Trace = Trace(exit: Exit, imageRef: Text, log: seq<Command>)

  function PullLog(cfg: Config, home: Text): seq<Command> {
    [RemoveAll(PathJoin([home, ".tart"])), TartPull(RegistryPath(cfg.registry))]
  }

  predicate PullFails(cfg: Config, c: Cycle) {
    c.pull.Failed? || (cfg.options.truncateSize != "" && c.resize.Failed?)
  }

  /** Whether a turn gets as far as `runOnce`: not cancelled, no shutdown flag,
      the image listed, and either found or pulled. */
  predicate Proceeds(cfg: Config, c: Cycle) {
    && !c.cancelled
    && !(cfg.options.shutdownFlagFile != "" && c.flagPresent)
    && c.listing.Done?
    && (SelectImage(cfg.registry, c.listing.output).found || (cfg.registry.url != "" && !PullFails(cfg, c)))
  }

  /** The head of a turn, up to `runOnce`: cancellation, the shutdown flag and
      making sure the image is cached. */
  function Prepare(cfg: Config, home: Text, ref: Text, c: Cycle): Turn {
    if c.cancelled then Turn(Some(Stopped), ref, [])
    else if cfg.options.shutdownFlagFile != "" && c.flagPresent then Turn(Some(Stopped), ref, [])
    else if c.listing.Failed? then Turn(None, ref, [TartList, Sleep(5)])
    else
      var look := SelectImage(cfg.registry, c.listing.output);
      if look.found then Turn(None, look.ref, [TartList])
      else if cfg.registry.url == "" then Turn(Some(Errored(NoRegistry)), look.ref, [TartList])
      else if PullFails(cfg, c) then Turn(None, look.ref, [TartList] + PullLog(cfg, home) + [Sleep(30)])
      else Turn(None, look.ref, [TartList] + PullLog(cfg, home))
  }

  /** One turn of the loop, starting from image reference `ref`. A failed
      iteration ends the loop only when the context is cancelled by then;
      otherwise the loop pauses ten seconds and goes on. */
  function CycleTurn(cfg: Config, home: Text, ref: Text, parse: Text -> Result<Text>, c: Cycle): Turn {
    var p := Prepare(cfg, home, ref, c);
    if !Proceeds(cfg, c) then p
    else
      var s := Iterate(cfg, CloneSource(cfg.registry, p.imageRef), parse, c.iteration);
      if s.err.None? then Turn(None, p.imageRef, p.log + s.log)
      else if c.cancelledAfter then Turn(Some(Stopped), p.imageRef, p.log + s.log)
      else Turn(None, p.imageRef, p.log + s.log + [Sleep(10)])
  }

  /** The loop over `cycles`, starting from image reference `ref`. */
  function RunLoop(cfg: Config, home: Text, ref: Text, parse: Text -> Result<Text>, cycles: seq<Cycle>): Trace
    decreases |cycles|
  {
    if |cycles| == 0 then Trace(StillRunning, ref, [])
    else
      var t := CycleTurn(cfg, home, ref, parse, cycles[0]);
      if t.exit.Some? then Trace(t.exit.value, t.imageRef, t.log)
      else
        var rest := RunLoop(cfg, home, t.imageRef, parse, cycles[1..]);
        Trace(rest.exit, rest.imageRef, t.log + rest.log)
  }

  /** `Run`: the dependency check, the registry login, then the loop. */
  function RunSpec(cfg: Config, home: Text, ref: Text, parse: Text -> Result<Text>,
                   deps: Option<Text>, login: Outcome, cycles: seq<Cycle>): Trace {
    if deps.Some? then Trace(Errored(deps.value), ref, [])
    else if cfg.registry.url == "" || cfg.registry.username == "" then RunLoop(cfg, home, ref, parse, cycles)
    else
      var loginLog := [TartLogin(cfg.registry.url, cfg.registry.username)];
      if login.Failed? then
        Trace(Errored(LoginFailed + "registry login failed: " + login.reason + "\nOutput: " + login.output), ref, loginLog)
      else
        var t := RunLoop(cfg, home, ref, parse, cycles);
        Trace(t.exit, t.imageRef, loginLog + t.log)
  }

  /** The head of a turn, up to `runOnce`. */
  method PrepareCycle(vm: VMManager, c: Cycle) returns (proceed: bool, exit: Option<Exit>)
    modifies vm`imageRef, vm.host
    ensures proceed == Proceeds(vm.cfg, c)
    ensures var t := Prepare(vm.cfg, vm.home, old(vm.imageRef), c);
      exit == t.exit && vm.imageRef == t.imageRef && vm.host.log == old(vm.host.log) + t.log
  {
    if c.cancelled {
      return false, Some(Stopped);
    }
    if vm.cfg.options.shutdownFlagFile != "" && c.flagPresent {
      return false, Some(Stopped);
    }
    var found, err := vm.ImageExists(c.listing);
    if err.Some? {
      vm.host.Issue(Sleep(5));
      return false, None;
    }
    if !found {
      if vm.cfg.registry.url == "" {
        return false, Some(Errored(NoRegistry));
      }
      var pullErr := vm.PullImage(c.pull, c.resize);
      AppendAssoc(old(vm.host.log), [TartList], PullLog(vm.cfg, vm.home));
      if pullErr.Some? {
        vm.host.Issue(Sleep(30));
        return false, None;
      }
    }
    return true, None;
  }

  /** One turn of the loop. */
  method RunCycle(vm: VMManager, parse: Text -> Result<Text>, c: Cycle) returns (exit: Option<Exit>)
    modifies vm`imageRef, vm.host
    ensures var t := CycleTurn(vm.cfg, vm.home, old(vm.imageRef), parse, c);
      exit == t.exit && vm.imageRef == t.imageRef && vm.host.log == old(vm.host.log) + t.log
  {
    var proceed;
    proceed, exit := PrepareCycle(vm, c);
    if !proceed {
      return;
    }
    ghost var p := Prepare(vm.cfg, vm.home, old(vm.imageRef), c);
    var iterErr := RunOnce(vm, parse, c.iteration);
    ghost var s := Iterate(vm.cfg, CloneSource(vm.cfg.registry, vm.imageRef), parse, c.iteration);
    AppendAssoc(old(vm.host.log), p.log, s.log);
    if iterErr.Some? {
      if c.cancelledAfter {
        return Some(Stopped);
      }
      vm.host.Issue(Sleep(10));
      AppendAssoc(old(vm.host.log), p.log + s.log, [Sleep(10)]);
    }
    return None;
  }

  /** One turn of `RunLoop` taken at position `i`. */
  lemma RunLoopAt(cfg: Config, home: Text, ref: Text, parse: Text -> Result<Text>, cycles: seq<Cycle>, i: nat)
    requires i < |cycles|
    ensures var t := CycleTurn(cfg, home, ref, parse, cycles[i]);
      var r := RunLoop(cfg, home, ref, parse, cycles[i..]);
      var rest := RunLoop(cfg, home, t.imageRef, parse, cycles[i + 1..]);
      && (t.exit.Some? ==> r == Trace(t.exit.value, t.imageRef, t.log))
      && (t.exit.None? ==> r == Trace(rest.exit, rest.imageRef, t.log + rest.log))
  {
    assert cycles[i..][0] == cycles[i] && cycles[i..][1..] == cycles[i + 1..];
  }

  /** The main loop, after the login. */
  method RunCycles(vm: VMManager, parse: Text -> Result<Text>, cycles: seq<Cycle>) returns (r: Exit)
    modifies vm`imageRef, vm.host
    ensures var t := RunLoop(vm.cfg, vm.home, old(vm.imageRef), parse, cycles);
      r == t.exit && vm.imageRef == t.imageRef && vm.host.log == old(vm.host.log) + t.log
  {
    ghost var whole := RunLoop(vm.cfg, vm.home, vm.imageRef, parse, cycles);
    assert cycles[0..] == cycles;
    var i := 0;
    while i < |cycles|
      invariant 0 <= i <= |cycles|
      invariant RunLoop(vm.cfg, vm.home, vm.imageRef, parse, cycles[i..]).exit == whole.exit
      invariant RunLoop(vm.cfg, vm.home, vm.imageRef, parse, cycles[i..]).imageRef == whole.imageRef
      invariant vm.host.log + RunLoop(vm.cfg, vm.home, vm.imageRef, parse, cycles[i..]).log == old(vm.host.log) + whole.log
    {
      ghost var ref := vm.imageRef;
      ghost var log := vm.host.log;
      RunLoopAt(vm.cfg, vm.home, ref, parse, cycles, i);
      var exit := RunCycle(vm, parse, cycles[i]);
      if exit.Some? {
        return exit.value;
      }
      AppendAssoc(log, CycleTurn(vm.cfg, vm.home, ref, parse, cycles[i]).log,
        RunLoop(vm.cfg, vm.home, vm.imageRef, parse, cycles[i + 1..]).log);
      i := i + 1;
    }
    assert cycles[i..] == [];
    return StillRunning;
  }

  /** `Run`: dependencies, registry login, then the loop. */
  method Run(vm: VMManager, parse: Text -> Result<Text>, deps: Option<Text>, login: Outcome, cycles: seq<Cycle>)
    returns (r: Exit)
    modifies vm`imageRef, vm.host
    ensures var t := RunSpec(vm.cfg, vm.home, old(vm.imageRef), parse, deps, login, cycles);
      r == t.exit && vm.imageRef == t.imageRef && vm.host.log == old(vm.host.log) + t.log
  {
    if deps.Some? {
      return Errored(deps.value);
    }
    var loginErr := vm.Login(login);
    if loginErr.Some? {
      return Errored(LoginFailed + loginErr.value);
    }
    ghost var loginLog: seq<Command> :=
      if vm.cfg.registry.url == "" || vm.cfg.registry.username == "" then []
      else [TartLogin(vm.cfg.registry.url, vm.cfg.registry.username)];
    assert vm.host.log == old(vm.host.log) + loginLog;
    r := RunCycles(vm, parse, cycles);
    AppendAssoc(old(vm.host.log), loginLog, RunLoop(vm.cfg, vm.home, old(vm.imageRef), parse, cycles).log);
    assert loginLog == [] ==> old(vm.host.log) + loginLog == old(vm.host.log);
  }

  // ---- what the loop promises ----

  lemma {:induction false} LoopFailsOnlyWithoutRegistry(cfg: Config, home: Text, ref: Text,
                                                        parse: Text -> Result<Text>, cycles: seq<Cycle>)
    ensures RunLoop(cfg, home, ref, parse, cycles).exit.Errored? ==>
      RunLoop(cfg, home, ref, parse, cycles).exit.error == NoRegistry && cfg.registry.url == ""
    decreases |cycles|
  {
    if |cycles| > 0 {
      var t := CycleTurn(cfg, home, ref, parse, cycles[0]);
      if t.exit.None? {
        LoopFailsOnlyWithoutRegistry(cfg, home, t.imageRef, parse, cycles[1..]);
      }
    }
  }

  /** A failed iteration never makes `Run` return an error: it returns one only
      for a missing dependency, a failed login, or an image that is not cached
      while no registry is configured. */
  lemma RunFailsOnlyAtSetup(cfg: Config, home: Text, ref: Text, parse: Text -> Result<Text>,
                            deps: Option<Text>, login: Outcome, cycles: seq<Cycle>)
    ensures var t := RunSpec(cfg, home, ref, parse, deps, login, cycles);
      t.exit.Errored? ==>
        || (deps.Some? && t.exit.error == deps.value)
        || (deps.None? && login.Failed? && HasPrefix(t.exit.error, LoginFailed))
        || (deps.None? && t.exit.error == NoRegistry && cfg.registry.url == "")
  {
    LoopFailsOnlyWithoutRegistry(cfg, home, ref, parse, cycles);
    if deps.None? && cfg.registry.url != "" && cfg.registry.username != "" && login.Failed? {
      var e := LoginFailed + "registry login failed: " + login.reason + "\nOutput: " + login.output;
      assert e == LoginFailed + ("registry login failed: " + login.reason + "\nOutput: " + login.output);
      assert e[..|LoginFailed|] == LoginFailed;
    }
  }

  /** The loop returns `nil` only when asked to: cancellation, the shutdown flag
      while one is configured, or cancellation seen after a failed iteration. */
  lemma {:induction false} LoopStopsOnlyOnRequest(cfg: Config, home: Text, ref: Text,
                                                  parse: Text -> Result<Text>, cycles: seq<Cycle>)
    ensures RunLoop(cfg, home, ref, parse, cycles).exit == Stopped ==>
      exists k :: 0 <= k < |cycles| &&
        (cycles[k].cancelled || (cfg.options.shutdownFlagFile != "" && cycles[k].flagPresent) || cycles[k].cancelledAfter)
    decreases |cycles|
  {
    if |cycles| > 0 {
      var t := CycleTurn(cfg, home, ref, parse, cycles[0]);
      if t.exit.None? {
        LoopStopsOnlyOnRequest(cfg, home, t.imageRef, parse, cycles[1..]);
        if RunLoop(cfg, home, ref, parse, cycles).exit == Stopped {
          var k :| 0 <= k < |cycles[1..]| && (cycles[1..][k].cancelled
            || (cfg.options.shutdownFlagFile != "" && cycles[1..][k].flagPresent) || cycles[1..][k].cancelledAfter);
          assert cycles[1..][k] == cycles[k + 1];
        }
      } else if t.exit.value == Stopped {
        assert cycles[0] == cycles[0];
      }
    }
  }

  /** A stop request at the head of a turn: the context is cancelled, or the
      shutdown flag file exists while one is configured. */
  predicate StopRequested(cfg: Config, c: Cycle) {
    c.cancelled || (cfg.options.shutdownFlagFile != "" && c.flagPresent)
  }

  /** A turn that ends the loop ends it with `nil` or with the missing-registry
      error, never otherwise. */
  lemma TurnExits(cfg: Config, home: Text, ref: Text, parse: Text -> Result<Text>, c: Cycle)
    ensures var t := CycleTurn(cfg, home, ref, parse, c);
      t.exit.Some? ==> t.exit.value == Stopped || (t.exit.value == Errored(NoRegistry) && cfg.registry.url == "")
    ensures StopRequested(cfg, c) ==> CycleTurn(cfg, home, ref, parse, c) == Turn(Some(Stopped), ref, [])
  {
  }

  /** A stop request at the head of any turn makes the loop return `nil`,
      unless an earlier turn already returned the missing-registry error; with a
      registry configured, it always returns `nil`. */
  lemma {:induction false} StopRequestEndsLoop(cfg: Config, home: Text, ref: Text,
                                               parse: Text -> Result<Text>, cycles: seq<Cycle>, k: nat)
    requires k < |cycles| && StopRequested(cfg, cycles[k])
    ensures var e := RunLoop(cfg, home, ref, parse, cycles).exit;
      e == Stopped || (e == Errored(NoRegistry) && cfg.registry.url == "")
    decreases |cycles|
  {
    var t := CycleTurn(cfg, home, ref, parse, cycles[0]);
    TurnExits(cfg, home, ref, parse, cycles[0]);
    if k > 0 && t.exit.None? {
      assert cycles[1..][k - 1] == cycles[k];
      StopRequestEndsLoop(cfg, home, t.imageRef, parse, cycles[1..], k - 1);
    }
  }

  /** The end of a turn that reached `runOnce`: a failed iteration returns
      `nil` when the context is cancelled by then and otherwise pauses ten
      seconds and goes on; a successful one goes straight on. */
  lemma IterationOutcome(cfg: Config, home: Text, ref: Text, parse: Text -> Result<Text>, c: Cycle)
    requires Proceeds(cfg, c)
    ensures var p := Prepare(cfg, home, ref, c);
      var s := Iterate(cfg, CloneSource(cfg.registry, p.imageRef), parse, c.iteration);
      var t := CycleTurn(cfg, home, ref, parse, c);
      && t.imageRef == p.imageRef
      && (s.err.None? ==> t.exit == None && t.log == p.log + s.log)
      && (s.err.Some? && c.cancelledAfter ==> t.exit == Some(Stopped) && t.log == p.log + s.log)
      && (s.err.Some? && !c.cancelledAfter ==> t.exit == None && t.log == p.log + s.log + [Sleep(10)])
  {
  }

  /** A turn's IP or SSH wait meets a cancellation. */
  predicate CancelInWaits(c: Cycle) {
    || (exists j :: 0 <= j < |c.iteration.ipPolls| && c.iteration.ipPolls[j].Cancelled?)
    || (exists j :: 0 <= j < |c.iteration.sshPolls| && c.iteration.sshPolls[j].Cancelled?)
  }

  /** The turn meets a cancellation somewhere. */
  predicate SeesCancel(c: Cycle) {
    c.cancelled || c.cancelledAfter || CancelInWaits(c)
  }

  /** The turns describe one context that, once cancelled, stays cancelled: a
      wait that meets the cancellation leaves the context cancelled when
      `runOnce` returns, and every turn after one that met it finds the context
      cancelled at its head. */
  predicate Coherent(cycles: seq<Cycle>) {
    && (forall k :: 0 <= k < |cycles| && CancelInWaits(cycles[k]) ==> cycles[k].cancelledAfter)
    && (forall k, j :: 0 <= k < j < |cycles| && SeesCancel(cycles[k]) ==> cycles[j].cancelled)
  }

  /** With coherent turns, a wait ended by cancellation makes the failed
      iteration return `nil`. */
  lemma CancelledWaitStops(cfg: Config, home: Text, ref: Text, parse: Text -> Result<Text>,
                           cycles: seq<Cycle>, k: nat)
    requires Coherent(cycles) && k < |cycles| && Proceeds(cfg, cycles[k]) && CancelInWaits(cycles[k])
    ensures var p := Prepare(cfg, home, ref, cycles[k]);
      Iterate(cfg, CloneSource(cfg.registry, p.imageRef), parse, cycles[k].iteration).err.Some? ==>
        CycleTurn(cfg, home, ref, parse, cycles[k]).exit == Some(Stopped)
  {
    IterationOutcome(cfg, home, ref, parse, cycles[k]);
  }

  /** With coherent turns, once any turn meets a cancellation, the loop does
      not run another turn after it: it returns `nil`, or had already returned
      the missing-registry error. */
  lemma CoherentLoopStops(cfg: Config, home: Text, ref: Text, parse: Text -> Result<Text>,
                          cycles: seq<Cycle>, k: nat)
    requires Coherent(cycles) && k + 1 < |cycles| && SeesCancel(cycles[k])
    ensures var e := RunLoop(cfg, home, ref, parse, cycles).exit;
      e == Stopped || (e == Errored(NoRegistry) && cfg.registry.url == "")
  {
    assert cycles[k + 1].cancelled;
    StopRequestEndsLoop(cfg, home, ref, parse, cycles, k + 1);
  }

  /** `Run` returns the dependency error when a dependency is missing, and
      the wrapped login error when the login it attempts fails. */
  lemma RunSetupFailures(cfg: Config, home: Text, ref: Text, parse: Text -> Result<Text>,
                         deps: Option<Text>, login: Outcome, cycles: seq<Cycle>)
    ensures deps.Some? ==> RunSpec(cfg, home, ref, parse, deps, login, cycles) == Trace(Errored(deps.value), ref, [])
    ensures deps.None? && cfg.registry.url != "" && cfg.registry.username != "" && login.Failed? ==>
      RunSpec(cfg, home, ref, parse, deps, login, cycles).exit
        == Errored(LoginFailed + "registry login failed: " + login.reason + "\nOutput: " + login.output)
    ensures deps.None? && (cfg.registry.url == "" || cfg.registry.username == "" || login.Done?) ==>
      RunSpec(cfg, home, ref, parse, deps, login, cycles).exit == RunLoop(cfg, home, ref, parse, cycles).exit
  {
  }

  lemma PrepareQuiet(cfg: Config, home: Text, ref: Text, c: Cycle)
    ensures Clones(Prepare(cfg, home, ref, c).log) == 0 && Deletes(Prepare(cfg, home, ref, c).log) == 0
  {
    var pl := PullLog(cfg, home);
    TallyPair(RemoveAll(PathJoin([home, ".tart"])), TartPull(RegistryPath(cfg.registry)));
    TallyAppend([TartList], pl);
    TallyAppend([TartList] + pl, [Sleep(30)]);
  }

  lemma CycleBalanced(cfg: Config, home: Text, ref: Text, parse: Text -> Result<Text>, c: Cycle)
    ensures var t := CycleTurn(cfg, home, ref, parse, c); Clones(t.log) == Deletes(t.log)
  {
    var p := Prepare(cfg, home, ref, c);
    PrepareQuiet(cfg, home, ref, c);
    if Proceeds(cfg, c) {
      var s := Iterate(cfg, CloneSource(cfg.registry, p.imageRef), parse, c.iteration);
      IterateCleansUp(cfg, CloneSource(cfg.registry, p.imageRef), parse, c.iteration);
      TallyAppend(p.log, s.log);
      TallyAppend(p.log + s.log, [Sleep(10)]);
    }
  }

  lemma {:induction false} LoopBalanced(cfg: Config, home: Text, ref: Text,
                                        parse: Text -> Result<Text>, cycles: seq<Cycle>)
    ensures var t := RunLoop(cfg, home, ref, parse, cycles); Clones(t.log) == Deletes(t.log)
    decreases |cycles|
  {
    if |cycles| > 0 {
      var t := CycleTurn(cfg, home, ref, parse, cycles[0]);
      CycleBalanced(cfg, home, ref, parse, cycles[0]);
      if t.exit.None? {
        LoopBalanced(cfg, home, t.imageRef, parse, cycles[1..]);
        TallyAppend(t.log, RunLoop(cfg, home, t.imageRef, parse, cycles[1..]).log);
      }
    }
  }

  /** Every VM `Run` clones it also deletes: the log holds as many deletions
      as clones, however the run ends. */
  lemma RunLeavesNoInstances(cfg: Config, home: Text, ref: Text, parse: Text -> Result<Text>,
                             deps: Option<Text>, login: Outcome, cycles: seq<Cycle>)
    ensures var t := RunSpec(cfg, home, ref, parse, deps, login, cycles); Clones(t.log) == Deletes(t.log)
  {
    LoopBalanced(cfg, home, ref, parse, cycles);
    if deps.None? && cfg.registry.url != "" && cfg.registry.username != "" && login.Done? {
      TallyAppend([TartLogin(cfg.registry.url, cfg.registry.username)], RunLoop(cfg, home, ref, parse, cycles).log);
    }
  }
}
