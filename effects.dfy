/** What the runner asks of the outside world. Every `exec.Command` the core
    starts (tart, sshpass/ssh, ssh-keygen), every `os.RemoveAll` it makes and
    every backoff `time.Sleep` is recorded, in order, in a `Host`'s log; what
    each call answers is handed to the model as an `Outcome`. */
module Effects {
  import opened Strings

  /** The answer of one external command: it succeeded with some output, or
      it failed with an error and the output it produced anyway. */
  datatype Outcome = Done(output: Text) | Failed(reason: Text, output: Text)

  /** One event seen at a `select` of a polling loop: the context is done, the
      overall timer fired, or the ticker fired and the probe answered. */
  datatype Poll<A> = Cancelled(reason: Text) | TimedOut | Tick(answer: A)

  datatype Command =
    | TartLogin(registry: Text, username: Text)          // tart login <url>, credentials in the environment
    | TartList                                            // tart list
    | RemoveAll(path: Text)                               // os.RemoveAll
    | TartPull(ref: Text)                                 // tart pull <ref> --concurrency 1
    | TartClone(ref: Text, name: Text)                    // tart clone <ref> <name>
    | TartRun(name: Text)                                 // tart run --no-graphics <name> (started, not awaited)
    | TartIp(name: Text)                                  // tart ip <name>
    | TartStop(name: Text)                                // tart stop <name>
    | TartDelete(name: Text)                              // tart delete <name>
    | ForgetHostKey(ip: Text)                             // ssh-keygen -R <ip>
    | SshProbe(target: Text)                              // sshpass -e ssh -q -o ConnectTimeout=1 ... <target> pwd
    | Ssh(target: Text, command: Text, showOutput: bool)  // sshpass -e ssh -q ... <target> <command>
    | Sleep(seconds: nat)                                 // time.Sleep
    | Launchctl(args: seq<Text>)                          // launchctl <args...>
    | RemoveFile(path: Text)                              // os.Remove

  /** The machine the runner runs on, seen through the commands issued to it. */
  class Host {
    var log: seq<Command>

    constructor()
      ensures log == []
    {
      log := [];
    }

    method Issue(c: Command)
      modifies this
      ensures log == old(log) + [c]
    {
      log := log + [c];
    }
  }
}
