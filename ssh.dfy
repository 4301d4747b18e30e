/** The SSH client of internal/runner/ssh.go: the commands it runs on a VM over
    `sshpass`/`ssh`, and how their failures read. */
module Ssh {
  import opened Wrappers
  import opened Strings
  import opened Effects
  import opened Config

  const SshTimeout: Text := "timeout waiting for SSH"
  const CommandFailed: Text := "SSH command failed: "
  const RunCommand: Text := "source ~/.zprofile && ./actions-runner/run.sh"

  /** The `user@host` argument every command is addressed to. */
  function Target(cfg: Config, ip: Text): Text {
    cfg.vm.username + "@" + ip
  }

  /** The labels the runner registers with: the configured ones, or
      `self-hosted` when none are configured. */
  function EffectiveLabels(labels: seq<Text>): (r: seq<Text>)
    ensures |r| >= 1
    ensures |labels| > 0 ==> r == labels
    ensures |labels| == 0 ==> r == ["self-hosted"]
  {
    if |labels| == 0 then ["self-hosted"] else labels
  }

  /** The `config.sh` invocation, as the format string lays it out. */
  function ConfigCommand(url: Text, token: Text, name: Text, labels: Text): Text {
    "./actions-runner/config.sh --url " + (url + (" --token " + (token
      + (" --ephemeral --name " + (name + (" --labels " + (labels + " --unattended --replace")))))))
  }

  /** The words of the `config.sh` invocation. */
  function ConfigArgs(url: Text, token: Text, name: Text, labels: Text): seq<Text> {
    ["./actions-runner/config.sh", "--url", url, "--token", token, "--ephemeral",
     "--name", name, "--labels", labels, "--unattended", "--replace"]
  }

  // ---- waiting for SSH ----

  /** The result of `WaitForSSH` over the events its `select` sees: `None` once
      a probe succeeds; running out of events stands for the five-minute timer. */
  function SshWait(polls: seq<Poll<Outcome>>): Option<Text> {
    if |polls| == 0 then Some(SshTimeout)
    else match polls[0]
      case Cancelled(reason) => Some(reason)
      case TimedOut => Some(SshTimeout)
      case Tick(o) => if o.Done? then None else SshWait(polls[1..])
  }

  /** The probes `WaitForSSH` issues over those events. */
  function SshWaitLog(target: Text, polls: seq<Poll<Outcome>>): seq<Command> {
    if |polls| == 0 then []
    else match polls[0]
      case Cancelled(_) => []
      case TimedOut => []
      case Tick(o) => [SshProbe(target)] + if o.Done? then [] else SshWaitLog(target, polls[1..])
  }

  /** Event `k` is the first successful probe, and every earlier event is a
      failed probe. */
  predicate FirstSuccess(polls: seq<Poll<Outcome>>, k: int) {
    0 <= k < |polls| && polls[k].Tick? && polls[k].answer.Done?
    && forall j :: 0 <= j < k ==> polls[j].Tick? && polls[j].answer.Failed?
  }

  /** One event of the wait: what it decides and what it issues. */
  lemma SshWaitStep(target: Text, polls: seq<Poll<Outcome>>, i: nat)
    requires i < |polls|
    ensures !polls[i].Tick? ==>
      (SshWait(polls[i..]) == (if polls[i].Cancelled? then Some(polls[i].reason) else Some(SshTimeout))
       && SshWaitLog(target, polls[i..]) == [])
    ensures polls[i].Tick? && polls[i].answer.Done? ==>
      (SshWait(polls[i..]) == None && SshWaitLog(target, polls[i..]) == [SshProbe(target)])
    ensures polls[i].Tick? && polls[i].answer.Failed? ==>
      (SshWait(polls[i..]) == SshWait(polls[i + 1..])
       && SshWaitLog(target, polls[i..]) == [SshProbe(target)] + SshWaitLog(target, polls[i + 1..]))
  {
    assert polls[i..][0] == polls[i];
    assert polls[i..][1..] == polls[i + 1..];
    assert [SshProbe(target)] + [] == [SshProbe(target)];
  }

  /** SSH counts as available exactly when a probe succeeds before the context
      is done or the timer fires. */
  lemma {:induction false} SshWaitOkIff(polls: seq<Poll<Outcome>>)
    ensures SshWait(polls) == None <==> exists k :: FirstSuccess(polls, k)
  {
    if |polls| > 0 && polls[0].Tick? && polls[0].answer.Failed? {
      var tail := polls[1..];
      SshWaitOkIff(tail);
      if k :| FirstSuccess(tail, k) {
        assert FirstSuccess(polls, k + 1) by {
          forall j | 0 <= j < k + 1 ensures polls[j].Tick? && polls[j].answer.Failed? {
            if j > 0 { assert polls[j] == tail[j - 1]; }
          }
          assert polls[k + 1] == tail[k];
        }
      }
      if k :| FirstSuccess(polls, k) {
        assert k > 0;
        assert FirstSuccess(tail, k - 1) by {
          forall j | 0 <= j < k - 1 ensures tail[j].Tick? && tail[j].answer.Failed? {
            assert tail[j] == polls[j + 1];
          }
          assert tail[k - 1] == polls[k];
        }
      }
    } else if |polls| > 0 && polls[0].Tick? {
      assert FirstSuccess(polls, 0);
    } else {
      assert forall k :: !FirstSuccess(polls, k);
    }
  }

  /** With every probe failing, the wait ends in the timeout error. */
  lemma {:induction false} SshWaitAllFail(polls: seq<Poll<Outcome>>)
    requires forall j :: 0 <= j < |polls| ==> polls[j].Tick? && polls[j].answer.Failed?
    ensures SshWait(polls) == Some(SshTimeout)
  {
    if |polls| > 0 {
      SshWaitAllFail(polls[1..]);
    }
  }

  // ---- labels and the configuration command ----

  /** A label list joined with commas splits back into the same labels, as
      long as no label holds a comma. */
  lemma LabelsRoundTrip(labels: seq<Text>)
    requires |labels| >= 1
    requires forall i :: 0 <= i < |labels| ==> ',' !in labels[i]
    ensures Split(Join(labels, ","), ',') == labels
  {
    assert "," == [','];
    SplitJoin(labels, ',');
  }

  /** The joined labels hold exactly one comma fewer than there are labels. */
  lemma LabelsCommas(labels: seq<Text>)
    requires |labels| >= 1
    requires forall i :: 0 <= i < |labels| ==> ',' !in labels[i]
    ensures Count(Join(labels, ","), ',') == |labels| - 1
  {
    assert "," == [','];
    JoinCount(labels, ',');
    SumCountsFree(labels, ',');
  }

  /** The joined labels start with the first label and end with the last one,
      so with non-empty labels there is no comma at either end. */
  lemma {:induction false} LabelsEnds(labels: seq<Text>)
    requires |labels| >= 1
    ensures HasPrefix(Join(labels, ","), labels[0])
    ensures HasSuffix(Join(labels, ","), labels[|labels| - 1])
  {
    if |labels| > 1 {
      LabelsEnds(labels[1..]);
      var rest := Join(labels[1..], ",");
      assert Join(labels, ",") == labels[0] + ("," + rest);
      assert labels[1..][|labels[1..]| - 1] == labels[|labels| - 1];
      var last := labels[|labels| - 1];
      assert rest[|rest| - |last|..] == last;
      assert Join(labels, ",")[|Join(labels, ",")| - |last|..] == rest[|rest| - |last|..];
    }
  }

  /** Splitting a word off the front of a space-separated text. */
  lemma SplitWord(w: Text, tail: Text)
    requires ' ' !in w
    ensures Split(w + (" " + tail), ' ') == [w] + Split(tail, ' ')
  {
    assert w + (" " + tail) == w + [' '] + tail;
    SplitPrefix(w, ' ', tail);
  }

  lemma SplitCommandHead(url: Text, rest: Text)
    requires ' ' !in url
    ensures Split("./actions-runner/config.sh --url " + (url + rest), ' ')
      == ["./actions-runner/config.sh", "--url"] + Split(url + rest, ' ')
  {
    assert "./actions-runner/config.sh --url " == "./actions-runner/config.sh" + " " + ("--url" + " ");
    AppendAssoc("./actions-runner/config.sh" + " ", "--url" + " ", url + rest);
    AppendAssoc("./actions-runner/config.sh", " ", ("--url" + " ") + (url + rest));
    AppendAssoc("--url", " ", url + rest);
    SplitWord("./actions-runner/config.sh", "--url" + (" " + (url + rest)));
    SplitWord("--url", url + rest);
  }

  lemma SplitFlag(flag: Text, v: Text, rest: Text)
    requires ' ' !in flag && ' ' !in v
    ensures Split(v + (" " + flag + " " + rest), ' ') == [v, flag] + Split(rest, ' ')
  {
    AppendAssoc(" " + flag, " ", rest);
    AppendAssoc(" ", flag, " " + rest);
    SplitWord(v, flag + (" " + rest));
    SplitWord(flag, rest);
  }

  /** Splitting the last two words of a space-separated text. */
  lemma SplitLastWords(v: Text, a: Text, b: Text)
    requires ' ' !in v && ' ' !in a && ' ' !in b
    ensures Split(v + (" " + (a + (" " + b))), ' ') == [v, a, b]
  {
    SplitWord(v, a + (" " + b));
    SplitWord(a, b);
    SplitFree(b, ' ');
  }

  lemma SplitCommandTail(labels: Text)
    requires ' ' !in labels
    ensures Split(labels + " --unattended --replace", ' ') == [labels, "--unattended", "--replace"]
  {
    assert " --unattended --replace" == " " + ("--unattended" + (" " + "--replace"));
    SplitLastWords(labels, "--unattended", "--replace");
  }

  /** With no space inside the URL, token, name or labels, the remote shell
      splits the `config.sh` invocation into exactly the intended words. */
  lemma ConfigCommandWords(url: Text, token: Text, name: Text, labels: Text)
    requires ' ' !in url && ' ' !in token && ' ' !in name && ' ' !in labels
    ensures Split(ConfigCommand(url, token, name, labels), ' ') == ConfigArgs(url, token, name, labels)
  {
    var t3 := name + (" --labels " + (labels + " --unattended --replace"));
    SplitNameOnwards(name, labels);
    var t2 := token + (" --ephemeral --name " + t3);
    SplitTokenOnwards(token, t3);
    assert " --token " == " " + "--token" + " ";
    SplitFlag("--token", url, t2);
    SplitCommandHead(url, " --token " + t2);
  }

  lemma SplitNameOnwards(name: Text, labels: Text)
    requires ' ' !in name && ' ' !in labels
    ensures Split(name + (" --labels " + (labels + " --unattended --replace")), ' ')
      == [name, "--labels", labels, "--unattended", "--replace"]
  {
    SplitCommandTail(labels);
    assert " --labels " == " " + "--labels" + " ";
    SplitFlag("--labels", name, labels + " --unattended --replace");
  }

  lemma SplitTokenOnwards(token: Text, rest: Text)
    requires ' ' !in token
    ensures Split(token + (" --ephemeral --name " + rest), ' ')
      == [token, "--ephemeral", "--name"] + Split(rest, ' ')
  {
    assert " --ephemeral --name " == " " + "--ephemeral" + " " + "--name" + " ";
    Regroup(" ", "--ephemeral", " ", "--name", " ", rest);
    SplitTwoWords(token, "--ephemeral", "--name" + (" " + rest));
    SplitWord("--name", rest);
  }

  /** Concatenation regrouped to the right. */
  lemma Regroup(a: Text, b: Text, c: Text, d: Text, e: Text, rest: Text)
    ensures (a + b + c + d + e) + rest == a + (b + (c + (d + (e + rest))))
  {
    AppendAssoc(a + b + c + d, e, rest);
    AppendAssoc(a + b + c, d, e + rest);
    AppendAssoc(a + b, c, d + (e + rest));
    AppendAssoc(a, b, c + (d + (e + rest)));
  }

  lemma SplitTwoWords(v: Text, a: Text, rest: Text)
    requires ' ' !in v && ' ' !in a
    ensures Split(v + (" " + (a + (" " + rest))), ' ') == [v, a] + Split(rest, ' ')
  {
    SplitWord(v, a + (" " + rest));
    SplitWord(a, rest);
  }

  /** The SSH client: the configuration it reads and the host it runs on. */
  class SSHClient {
    const cfg: Config
    const host: Host

    constructor(cfg: Config, host: Host)
      ensures this.cfg == cfg && this.host == host
    {
      this.cfg := cfg;
      this.host := host;
    }

    /** `WaitForSSH`: probes `user@ip` with `pwd` until a probe succeeds. */
    method WaitForSSH(ip: Text, polls: seq<Poll<Outcome>>) returns (err: Option<Text>)
      modifies host
      ensures err == SshWait(polls)
      ensures host.log == old(host.log) + SshWaitLog(Target(cfg, ip), polls)
    {
      var target := Target(cfg, ip);
      ghost var start := host.log;
      var i := 0;
      while i < |polls|
        invariant 0 <= i <= |polls|
        invariant SshWait(polls[i..]) == SshWait(polls)
        invariant host.log + SshWaitLog(target, polls[i..]) == start + SshWaitLog(target, polls)
      {
        SshWaitStep(target, polls, i);
        match polls[i]
        case Cancelled(reason) =>
          assert host.log + [] == host.log;
          return Some(reason);
        case TimedOut =>
          assert host.log + [] == host.log;
          return Some(SshTimeout);
        case Tick(o) =>
          host.Issue(SshProbe(target));
          if o.Done? {
            return None;
          }
        i := i + 1;
      }
      assert polls[i..] == [];
      assert host.log + [] == host.log;
      return Some(SshTimeout);
    }

    /** `Execute`: runs `command` on `user@ip`; a failure reads "SSH command failed: …". */
    method Execute(ip: Text, command: Text, showOutput: bool, o: Outcome) returns (err: Option<Text>)
      modifies host
      ensures host.log == old(host.log) + [Ssh(Target(cfg, ip), command, showOutput)]
      ensures err == None <==> o.Done?
      ensures o.Failed? ==> err == Some(CommandFailed + o.reason)
    {
      host.Issue(Ssh(Target(cfg, ip), command, showOutput));
      if o.Failed? {
        return Some(CommandFailed + o.reason);
      }
      return None;
    }

    /** `ExecuteWithOutput`: as `Execute`, but hands back the combined output,
        which is returned even when the command fails. */
    method ExecuteWithOutput(ip: Text, command: Text, o: Outcome) returns (output: Text, err: Option<Text>)
      modifies host
      ensures host.log == old(host.log) + [Ssh(Target(cfg, ip), command, false)]
      ensures output == o.output
      ensures err == None <==> o.Done?
      ensures o.Failed? ==> err == Some(CommandFailed + o.reason)
    {
      host.Issue(Ssh(Target(cfg, ip), command, false));
      output := o.output;
      if o.Failed? {
        return output, Some(CommandFailed + o.reason);
      }
      return output, None;
    }

    /** The `+=` loop of `ConfigureRunner` that builds the label list. */
    method LabelsString(labels: seq<Text>) returns (s: Text)
      ensures s == Join(labels, ",")
    {
      s := "";
      var i := 0;
      while i < |labels|
        invariant 0 <= i <= |labels|
        invariant s == Join(labels[..i], ",")
      {
        if i > 0 {
          s := s + ",";
        }
        s := s + labels[i];
        JoinSnoc(labels[..i], labels[i], ",");
        assert labels[..i + 1] == labels[..i] + [labels[i]];
        i := i + 1;
      }
      assert labels[..i] == labels;
    }

    /** `ConfigureRunner`: registers the runner, ephemeral, under the configured
        runner name. */
    method ConfigureRunner(ip: Text, token: Text, o: Outcome) returns (err: Option<Text>)
      modifies host
      ensures host.log == old(host.log) + [Ssh(Target(cfg, ip),
        ConfigCommand(cfg.github.runnerURL, token, cfg.github.runnerName,
          Join(EffectiveLabels(cfg.github.runnerLabels), ",")), false)]
      ensures err == None <==> o.Done?
      ensures o.Failed? ==> err == Some(CommandFailed + o.reason)
    {
      var labels := cfg.github.runnerLabels;
      if |labels| == 0 {
        labels := ["self-hosted"];
      }
      var labelsStr := LabelsString(labels);
      var configCmd := ConfigCommand(cfg.github.runnerURL, token, cfg.github.runnerName, labelsStr);
      err := Execute(ip, configCmd, false, o);
    }

    /** `RunRunner`: runs the runner in the foreground, its output shown. */
    method RunRunner(ip: Text, o: Outcome) returns (err: Option<Text>)
      modifies host
      ensures host.log == old(host.log) + [Ssh(Target(cfg, ip), RunCommand, true)]
      ensures err == None <==> o.Done?
      ensures o.Failed? ==> err == Some(CommandFailed + o.reason)
    {
      err := Execute(ip, RunCommand, true, o);
    }
  }
}
