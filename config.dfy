/** The configuration record (internal/config) and `Config.Validate`. */
module Config {
  import opened Wrappers
  import opened Strings

  datatype GitHubConfig = GitHubConfig(
    apiToken: Text,
    registrationEndpoint: Text,
    runnerURL: Text,
    runnerName: Text,
    runnerLabels: seq<Text>,
    runnerGroup: Text)   // read and written by the configuration form only

  datatype VMConfig = VMConfig(username: Text, password: Text)

  datatype RegistryConfig = RegistryConfig(url: Text, imageName: Text, username: Text, password: Text)

  datatype OptionsConfig = OptionsConfig(
    truncateSize: Text,
    logFile: Text,
    shutdownFlagFile: Text,
    workingDirectory: Text,
    maxConcurrentRunners: int)   // read and written by the configuration form only

  datatype DaemonConfig = DaemonConfig(launchLabel: Text, plistPath: Text, user: Text)

  datatype Config = Config(
    github: GitHubConfig,
    vm: VMConfig,
    registry: RegistryConfig,
    options: OptionsConfig,
    daemon: DaemonConfig)

  /** The record the configuration form starts from (`defaultConfig`). */
  const DefaultConfig: Config := Config(
    GitHubConfig("", "", "", "runner", ["self-hosted", "arm64"], ""),
    VMConfig("admin", "admin"),
    RegistryConfig("", "", "", ""),
    OptionsConfig("", "runner.log", ".shutdown", "/Users/admin/vm", 0),
    DaemonConfig("com.mirego.ekiden", "/Library/LaunchDaemons/com.mirego.ekiden.plist", "admin"))

  /** The failed checks `Validate` can report, in the order it makes them. */
  datatype Problem =
    | ApiTokenMissing
    | EndpointMissing
    | EndpointInvalid
    | RunnerURLMissing
    | ImageNameMissing
    | UsernameMissing
    | PasswordMissing

  /** The text `Validate` appends for each failed check. */
  function Message(p: Problem): Text {
    match p
    case ApiTokenMissing => "github.api_token is required"
    case EndpointMissing => "github.registration_endpoint is required"
    case EndpointInvalid => "github.registration_endpoint must be a valid URL"
    case RunnerURLMissing => "github.runner_url is required"
    case ImageNameMissing => "registry.image_name is required"
    case UsernameMissing => "vm.username is required"
    case PasswordMissing => "vm.password is required"
  }

  /** Where each check comes in `Validate`. */
  function Rank(p: Problem): nat {
    match p
    case ApiTokenMissing => 0
    case EndpointMissing => 1
    case EndpointInvalid => 2
    case RunnerURLMissing => 3
    case ImageNameMissing => 4
    case UsernameMissing => 5
    case PasswordMissing => 6
  }

  /** The six checks `Validate` makes; `urlParses` stands for `url.Parse` succeeding. */
  predicate Acceptable(c: Config, urlParses: Text -> bool) {
    && c.github.apiToken != ""
    && c.github.registrationEndpoint != ""
    && urlParses(c.github.registrationEndpoint)
    && c.github.runnerURL != ""
    && c.registry.imageName != ""
    && c.vm.username != ""
    && c.vm.password != ""
  }

  /** Whether check `p` fails on `c`. */
  predicate Fails(p: Problem, c: Config, urlParses: Text -> bool) {
    match p
    case ApiTokenMissing => c.github.apiToken == ""
    case EndpointMissing => c.github.registrationEndpoint == ""
    case EndpointInvalid => c.github.registrationEndpoint != "" && !urlParses(c.github.registrationEndpoint)
    case RunnerURLMissing => c.github.runnerURL == ""
    case ImageNameMissing => c.registry.imageName == ""
    case UsernameMissing => c.vm.username == ""
    case PasswordMissing => c.vm.password == ""
  }

  /** The failed checks `Validate` collects, in the order it appends their messages. */
  function Problems(c: Config, urlParses: Text -> bool): seq<Problem> {
    TokenProblem(c) + EndpointProblem(c, urlParses) + RunnerURLProblem(c)
    + ImageProblem(c) + UsernameProblem(c) + PasswordProblem(c)
  }

  function TokenProblem(c: Config): seq<Problem> {
    if c.github.apiToken == "" then [ApiTokenMissing] else []
  }

  function EndpointProblem(c: Config, urlParses: Text -> bool): seq<Problem> {
    if c.github.registrationEndpoint == "" then [EndpointMissing]
    else if !urlParses(c.github.registrationEndpoint) then [EndpointInvalid]
    else []
  }

  function RunnerURLProblem(c: Config): seq<Problem> {
    if c.github.runnerURL == "" then [RunnerURLMissing] else []
  }

  function ImageProblem(c: Config): seq<Problem> {
    if c.registry.imageName == "" then [ImageNameMissing] else []
  }

  function UsernameProblem(c: Config): seq<Problem> {
    if c.vm.username == "" then [UsernameMissing] else []
  }

  function PasswordProblem(c: Config): seq<Problem> {
    if c.vm.password == "" then [PasswordMissing] else []
  }

  /** Every check, in the order `Validate` makes them. */
  const Checks: seq<Problem> :=
    [ApiTokenMissing, EndpointMissing, EndpointInvalid, RunnerURLMissing,
     ImageNameMissing, UsernameMissing, PasswordMissing]

  /** The checks of `checks` that fail on `c`, in order: the reference for `Problems`. */
  function Failing(checks: seq<Problem>, c: Config, urlParses: Text -> bool): seq<Problem> {
    if |checks| == 0 then []
    else (if Fails(checks[0], c, urlParses) then [checks[0]] else []) + Failing(checks[1..], c, urlParses)
  }

  /** The messages of the failed checks, in order. */
  function Messages(ps: seq<Problem>): (ms: seq<Text>)
    ensures |ms| == |ps|
    ensures forall i :: 0 <= i < |ps| ==> ms[i] == Message(ps[i])
  {
    if |ps| == 0 then [] else [Message(ps[0])] + Messages(ps[1..])
  }

  /** `Config.Validate`: records one problem per failed check, then joins their
      messages with "; ". */
  method Validate(c: Config, urlParses: Text -> bool) returns (err: Option<Text>)
    ensures err == None <==> Acceptable(c, urlParses)
    ensures err.Some? ==> err.value == Join(Messages(Problems(c, urlParses)), "; ")
  {
    var errs: seq<Problem> := [];
    errs := errs + if c.github.apiToken == "" then [ApiTokenMissing] else [];
    assert errs == TokenProblem(c);
    errs := errs +
      if c.github.registrationEndpoint == "" then [EndpointMissing]
      else if !urlParses(c.github.registrationEndpoint) then [EndpointInvalid]
      else [];
    errs := errs + if c.github.runnerURL == "" then [RunnerURLMissing] else [];
    errs := errs + if c.registry.imageName == "" then [ImageNameMissing] else [];
    errs := errs + if c.vm.username == "" then [UsernameMissing] else [];
    errs := errs + if c.vm.password == "" then [PasswordMissing] else [];
    assert errs == Problems(c, urlParses);
    ProblemsEmptyIff(c, urlParses);
    if |errs| > 0 {
      err := Some(Join(Messages(errs), "; "));
    } else {
      err := None;
    }
  }

  lemma FailingCons(p: Problem, rest: seq<Problem>, c: Config, urlParses: Text -> bool)
    ensures Failing([p] + rest, c, urlParses)
      == (if Fails(p, c, urlParses) then [p] else []) + Failing(rest, c, urlParses)
  {
    assert ([p] + rest)[1..] == rest;
  }

  /** The last four checks, which each fail on their own. */
  lemma FailingLaterChecks(c: Config, urlParses: Text -> bool)
    ensures Failing(Checks[3..], c, urlParses)
      == RunnerURLProblem(c) + (ImageProblem(c) + (UsernameProblem(c) + PasswordProblem(c)))
  {
    var l6: seq<Problem> := [];
    var l5 := [PasswordMissing] + l6;
    var l4 := [UsernameMissing] + l5;
    var l3 := [ImageNameMissing] + l4;
    assert Checks[3..] == [RunnerURLMissing] + l3;
    FailingCons(PasswordMissing, l6, c, urlParses);
    FailingCons(UsernameMissing, l5, c, urlParses);
    FailingCons(ImageNameMissing, l4, c, urlParses);
    FailingCons(RunnerURLMissing, l3, c, urlParses);
    assert PasswordProblem(c) + [] == PasswordProblem(c);
  }

  /** The first three checks, of which the two endpoint checks exclude each other. */
  lemma FailingEarlyChecks(c: Config, urlParses: Text -> bool)
    ensures Failing(Checks, c, urlParses)
      == TokenProblem(c) + (EndpointProblem(c, urlParses) + Failing(Checks[3..], c, urlParses))
  {
    var l2 := Checks[3..];
    var l1 := [EndpointInvalid] + l2;
    var l0 := [EndpointMissing] + l1;
    assert Checks == [ApiTokenMissing] + l0;
    FailingCons(EndpointInvalid, l2, c, urlParses);
    FailingCons(EndpointMissing, l1, c, urlParses);
    FailingCons(ApiTokenMissing, l0, c, urlParses);
    var em := if Fails(EndpointMissing, c, urlParses) then [EndpointMissing] else [];
    var ei := if Fails(EndpointInvalid, c, urlParses) then [EndpointInvalid] else [];
    assert EndpointProblem(c, urlParses) == em + ei;
    AppendAssoc(em, ei, Failing(l2, c, urlParses));
  }

  /** `Validate` collects exactly the failing checks, in the order of `Checks`. */
  lemma ProblemsAreFailingChecks(c: Config, urlParses: Text -> bool)
    ensures Problems(c, urlParses) == Failing(Checks, c, urlParses)
  {
    FailingEarlyChecks(c, urlParses);
    FailingLaterChecks(c, urlParses);
    var t, e, r := TokenProblem(c), EndpointProblem(c, urlParses), RunnerURLProblem(c);
    var i, u, p := ImageProblem(c), UsernameProblem(c), PasswordProblem(c);
    AppendAssoc(t + e + r + i, u, p);
    AppendAssoc(t + e + r, i, u + p);
    AppendAssoc(t + e, r, i + (u + p));
    AppendAssoc(t, e, r + (i + (u + p)));
  }

  /** A check is in the result of `Failing` exactly when it is listed and fails. */
  lemma {:induction false} FailingMembers(checks: seq<Problem>, c: Config, urlParses: Text -> bool, p: Problem)
    ensures p in Failing(checks, c, urlParses) <==> p in checks && Fails(p, c, urlParses)
  {
    if |checks| > 0 {
      FailingMembers(checks[1..], c, urlParses, p);
      assert checks == [checks[0]] + checks[1..];
    }
  }

  /** `ps` lists checks in the order `Validate` makes them, each at most once. */
  predicate InCheckOrder(ps: seq<Problem>) {
    forall i, j :: 0 <= i < j < |ps| ==> Rank(ps[i]) < Rank(ps[j])
  }

  /** Keeping some of the checks keeps their order. */
  lemma {:induction false} FailingInOrder(checks: seq<Problem>, c: Config, urlParses: Text -> bool)
    requires InCheckOrder(checks)
    ensures InCheckOrder(Failing(checks, c, urlParses))
  {
    if |checks| > 0 {
      var rest := Failing(checks[1..], c, urlParses);
      assert InCheckOrder(checks[1..]) by {
        forall i, j | 0 <= i < j < |checks[1..]| ensures Rank(checks[1..][i]) < Rank(checks[1..][j]) {
          assert checks[1..][i] == checks[i + 1] && checks[1..][j] == checks[j + 1];
        }
      }
      FailingInOrder(checks[1..], c, urlParses);
      if Fails(checks[0], c, urlParses) {
        var f := [checks[0]] + rest;
        forall i, j | 0 <= i < j < |f| ensures Rank(f[i]) < Rank(f[j]) {
          if i == 0 {
            FailingMembers(checks[1..], c, urlParses, f[j]);
            var k :| 0 <= k < |checks[1..]| && checks[1..][k] == f[j];
            assert checks[k + 1] == f[j];
          } else {
            assert f[i] == rest[i - 1] && f[j] == rest[j - 1];
          }
        }
      }
    }
  }

  /** Every problem is one of the checks. */
  lemma AllChecked(p: Problem)
    ensures p in Checks
  {
    match p
    case ApiTokenMissing => assert Checks[0] == p;
    case EndpointMissing => assert Checks[1] == p;
    case EndpointInvalid => assert Checks[2] == p;
    case RunnerURLMissing => assert Checks[3] == p;
    case ImageNameMissing => assert Checks[4] == p;
    case UsernameMissing => assert Checks[5] == p;
    case PasswordMissing => assert Checks[6] == p;
  }

  /** A check is reported exactly when it fails. */
  lemma ProblemsExact(c: Config, urlParses: Text -> bool, p: Problem)
    ensures p in Problems(c, urlParses) <==> Fails(p, c, urlParses)
  {
    ProblemsAreFailingChecks(c, urlParses);
    FailingMembers(Checks, c, urlParses, p);
    AllChecked(p);
  }

  /** No message is collected exactly when all six checks pass. */
  lemma ProblemsEmptyIff(c: Config, urlParses: Text -> bool)
    ensures Problems(c, urlParses) == [] <==> Acceptable(c, urlParses)
  {
    forall p: Problem ensures p in Problems(c, urlParses) <==> Fails(p, c, urlParses) {
      ProblemsExact(c, urlParses, p);
    }
    if Problems(c, urlParses) != [] {
      assert Problems(c, urlParses)[0] in Problems(c, urlParses);
    }
  }

  /** The endpoint is reported at most once: as missing or as malformed, never both. */
  lemma EndpointReportedOnce(c: Config, urlParses: Text -> bool)
    ensures !(EndpointMissing in Problems(c, urlParses) && EndpointInvalid in Problems(c, urlParses))
  {
    ProblemsExact(c, urlParses, EndpointMissing);
    ProblemsExact(c, urlParses, EndpointInvalid);
  }

  /** The messages come out in the fixed order of the checks, each at most once. */
  lemma ProblemsInCheckOrder(c: Config, urlParses: Text -> bool)
    ensures InCheckOrder(Problems(c, urlParses))
  {
    assert InCheckOrder(Checks) by {
      forall i, j | 0 <= i < j < |Checks| ensures Rank(Checks[i]) < Rank(Checks[j]) {
        assert forall k :: 0 <= k < |Checks| ==> Rank(Checks[k]) == k;
      }
    }
    FailingInOrder(Checks, c, urlParses);
    ProblemsAreFailingChecks(c, urlParses);
  }

  /** Different failed checks read differently, so the joined error names each one. */
  lemma MessagesDistinct(p: Problem, q: Problem)
    requires p != q
    ensures Message(p) != Message(q)
  {
    MessageLengthOf(p);
    MessageLengthOf(q);
    if {p, q} == {UsernameMissing, PasswordMissing} {
      assert Message(p)[10] != Message(q)[10];
    }
  }

  /** The length of each message: only the user name and password messages
      share one. */
  function MessageLength(p: Problem): nat {
    match p
    case ApiTokenMissing => 28
    case EndpointMissing => 40
    case EndpointInvalid => 48
    case RunnerURLMissing => 29
    case ImageNameMissing => 31
    case UsernameMissing => 23
    case PasswordMissing => 23
  }

  lemma MessageLengthOf(p: Problem)
    ensures |Message(p)| == MessageLength(p)
  {
  }

  /** Only the six checked fields matter: two records that agree on them validate alike. */
  lemma ProblemsOnlyReadCheckedFields(c: Config, d: Config, urlParses: Text -> bool)
    requires c.github.apiToken == d.github.apiToken
    requires c.github.registrationEndpoint == d.github.registrationEndpoint
    requires c.github.runnerURL == d.github.runnerURL
    requires c.registry.imageName == d.registry.imageName
    requires c.vm.username == d.vm.username && c.vm.password == d.vm.password
    ensures Problems(c, urlParses) == Problems(d, urlParses)
  {
  }
}
