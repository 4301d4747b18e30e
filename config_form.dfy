/** The configuration form of internal/tui/config_form.go: nineteen text
    inputs bound to fields of the configuration record, focus that moves
    between them with wrap-around, and the conversion of the edited values
    back into a record (required-field check, then `Config.Validate`).

    A field key of the source is a dotted string such as "github.api_token";
    here it is a constructor of `Key`, and the comment beside each constructor
    names the string it stands for. The record is a value: `setFieldValue`,
    which updates the record in place, is `Set`, returning the updated record. */
module ConfigForm {
  import opened Wrappers
  import opened Strings
  import opened Config

  datatype Key =
    | ApiToken              // github.api_token
    | RegistrationEndpoint  // github.registration_endpoint
    | RunnerURL             // github.runner_url
    | RunnerName            // github.runner_name
    | RunnerLabels          // github.runner_labels
    | RunnerGroup           // github.runner_group
    | VMUsername            // vm.username
    | VMPassword            // vm.password
    | RegistryURL           // registry.url
    | ImageName             // registry.image_name
    | RegistryUsername      // registry.username
    | RegistryPassword      // registry.password
    | LogFile               // options.log_file
    | MaxRunners            // options.max_concurrent_runners
    | ShutdownFlagFile      // options.shutdown_flag_file
    | WorkingDirectory      // options.working_directory
    | DaemonLabel           // daemon.label
    | PlistPath             // daemon.plist_path
    | DaemonUser            // daemon.user

  /** One input of the form: the field it edits, its title (the label it shows), whether it must be
      filled in, and whether its text is masked. */
  datatype Field = Field(key: Key, title: Text, required: bool, secret: bool)

  /** The inputs `newConfigForm` builds, in display order. */
  const FormFields: seq<Field> := [
    Field(ApiToken, "GitHub API token", true, true),
    Field(RegistrationEndpoint, "Registration endpoint", true, false),
    Field(RunnerURL, "Runner URL", true, false),
    Field(RunnerName, "Runner name", false, false),
    Field(RunnerLabels, "Runner labels (comma)", false, false),
    Field(RunnerGroup, "Runner group (optional)", false, false),
    Field(VMUsername, "VM username", true, false),
    Field(VMPassword, "VM password", true, true),
    Field(RegistryURL, "Registry URL", false, false),
    Field(ImageName, "Registry image name", true, false),
    Field(RegistryUsername, "Registry username", false, false),
    Field(RegistryPassword, "Registry password", false, true),
    Field(LogFile, "Log file", false, false),
    Field(MaxRunners, "Max concurrent runners", false, false),
    Field(ShutdownFlagFile, "Shutdown flag file", false, false),
    Field(WorkingDirectory, "Working directory", false, false),
    Field(DaemonLabel, "Daemon label", false, false),
    Field(PlistPath, "Daemon plist path", false, false),
    Field(DaemonUser, "Daemon user", false, false)]

  // ---- labels as comma-separated text ----

  /** A label as `splitCSV` can produce it: not empty, no comma, no white space
      at either end. */
  predicate CleanLabel(x: Text) {
    x != "" && ',' !in x && TrimSpace(x) == x
  }

  /** The trimmed pieces that are not empty, in order. */
  function NonEmptyTrimmed(parts: seq<Text>): seq<Text> {
    if |parts| == 0 then []
    else
      var t := TrimSpace(parts[0]);
      (if t != "" then [t] else []) + NonEmptyTrimmed(parts[1..])
  }

  /** `splitCSV`: the comma-separated pieces, trimmed, empty ones dropped. */
  function SplitCSV(value: Text): seq<Text> {
    NonEmptyTrimmed(Split(value, ','))
  }

  /** `splitCSV` as the source runs it: one pass over the pieces, appending. */
  method SplitLabels(value: Text) returns (labels: seq<Text>)
    ensures labels == SplitCSV(value)
  {
    var parts := Split(value, ',');
    labels := [];
    var i := 0;
    while i < |parts|
      invariant 0 <= i <= |parts|
      invariant labels == NonEmptyTrimmed(parts[..i])
    {
      var trimmed := TrimSpace(parts[i]);
      if trimmed != "" {
        labels := labels + [trimmed];
      }
      NonEmptyTrimmedAppend(parts[..i], [parts[i]]);
      assert parts[..i + 1] == parts[..i] + [parts[i]];
      i := i + 1;
    }
    assert parts[..|parts|] == parts;
  }

  /** Filtering distributes over concatenation: the pieces keep their order. */
  lemma {:induction false} NonEmptyTrimmedAppend(a: seq<Text>, b: seq<Text>)
    ensures NonEmptyTrimmed(a + b) == NonEmptyTrimmed(a) + NonEmptyTrimmed(b)
  {
    if |a| == 0 {
      assert a + b == b;
    } else {
      assert (a + b)[0] == a[0];
      assert (a + b)[1..] == a[1..] + b;
      NonEmptyTrimmedAppend(a[1..], b);
      var t := TrimSpace(a[0]);
      var h: seq<Text> := if t != "" then [t] else [];
      AppendAssoc(h, NonEmptyTrimmed(a[1..]), NonEmptyTrimmed(b));
    }
  }

  /** Trimming keeps only characters of the input. */
  lemma TrimSpaceWithin(s: Text, c: char)
    requires c !in s
    ensures c !in TrimSpace(s)
  {
    TrimSpaceSpec(s);
    var r := TrimSpace(s);
    var a := |s| - |TrimLeading(s)|;
    forall i | 0 <= i < |r| ensures r[i] != c {
      assert r[i] == s[a..][i];
    }
  }

  /** Filtered pieces that held no comma are clean labels. */
  lemma {:induction false} NonEmptyTrimmedClean(parts: seq<Text>)
    requires forall i :: 0 <= i < |parts| ==> ',' !in parts[i]
    ensures forall x :: x in NonEmptyTrimmed(parts) ==> CleanLabel(x)
  {
    if |parts| > 0 {
      NonEmptyTrimmedClean(parts[1..]);
      TrimSpaceWithin(parts[0], ',');
      TrimSpaceIdempotent(parts[0]);
    }
  }

  /** Every label `splitCSV` yields is clean. */
  lemma SplitCSVClean(value: Text)
    ensures forall x :: x in SplitCSV(value) ==> CleanLabel(x)
  {
    SplitPiecesFree(value, ',');
    NonEmptyTrimmedClean(Split(value, ','));
  }

  /** Clean labels pass the filter unchanged. */
  lemma {:induction false} NonEmptyTrimmedOfClean(labels: seq<Text>)
    requires forall i :: 0 <= i < |labels| ==> CleanLabel(labels[i])
    ensures NonEmptyTrimmed(labels) == labels
  {
    if |labels| > 0 {
      NonEmptyTrimmedOfClean(labels[1..]);
    }
  }

  /** Comma-joined pieces split back into the non-empty trimmed pieces, in order. */
  lemma SplitCSVOfJoin(parts: seq<Text>)
    requires |parts| >= 1
    requires forall i :: 0 <= i < |parts| ==> ',' !in parts[i]
    ensures SplitCSV(Join(parts, ",")) == NonEmptyTrimmed(parts)
  {
    SplitJoin(parts, ',');
  }

  /** A non-empty list of clean labels survives joining with commas and
      splitting again. */
  lemma LabelsRoundTrip(labels: seq<Text>)
    requires |labels| >= 1
    requires forall i :: 0 <= i < |labels| ==> CleanLabel(labels[i])
    ensures SplitCSV(Join(labels, ",")) == labels
  {
    SplitCSVOfJoin(labels);
    NonEmptyTrimmedOfClean(labels);
  }

  // ---- the key <-> field mapping ----

  /** `getFieldValue`: the text the input for `k` starts with. */
  function Get(c: Config, k: Key): Text {
    match k
    case ApiToken => c.github.apiToken
    case RegistrationEndpoint => c.github.registrationEndpoint
    case RunnerURL => c.github.runnerURL
    case RunnerName => c.github.runnerName
    case RunnerLabels => Join(c.github.runnerLabels, ",")
    case RunnerGroup => c.github.runnerGroup
    case VMUsername => c.vm.username
    case VMPassword => c.vm.password
    case RegistryURL => c.registry.url
    case ImageName => c.registry.imageName
    case RegistryUsername => c.registry.username
    case RegistryPassword => c.registry.password
    case LogFile => c.options.logFile
    case MaxRunners => Itoa(c.options.maxConcurrentRunners)
    case ShutdownFlagFile => c.options.shutdownFlagFile
    case WorkingDirectory => c.options.workingDirectory
    case DaemonLabel => c.daemon.launchLabel
    case PlistPath => c.daemon.plistPath
    case DaemonUser => c.daemon.user
  }

  /** The fields an empty input leaves as they were. */
  predicate KeepsOnEmpty(k: Key) {
    k == RunnerName || k == RunnerLabels || k == LogFile || k == ShutdownFlagFile
    || k == WorkingDirectory || k == DaemonLabel || k == PlistPath || k == DaemonUser
  }

  /** The fields whose input is stored as typed, even when empty. */
  predicate Overwrites(k: Key) {
    !KeepsOnEmpty(k) && k != MaxRunners
  }

  /** The fields that hold their input's text verbatim. */
  predicate PlainKey(k: Key) {
    k != RunnerLabels && k != MaxRunners
  }

  /** The runner limit an input sets: a decimal integer of at least 1. */
  function RunnerLimit(value: Text): Option<int> {
    if value == "" then None
    else match Atoi(value)
      case Some(n) => if n >= 1 then Some(n) else None
      case None => None
  }

  /** `setFieldValue`. */
  function Set(c: Config, k: Key, v: Text): Config {
    match k
    case ApiToken => c.(github := c.github.(apiToken := v))
    case RegistrationEndpoint => c.(github := c.github.(registrationEndpoint := v))
    case RunnerURL => c.(github := c.github.(runnerURL := v))
    case RunnerName => if v != "" then c.(github := c.github.(runnerName := v)) else c
    case RunnerLabels => if v != "" then c.(github := c.github.(runnerLabels := SplitCSV(v))) else c
    case RunnerGroup => c.(github := c.github.(runnerGroup := v))
    case VMUsername => c.(vm := c.vm.(username := v))
    case VMPassword => c.(vm := c.vm.(password := v))
    case RegistryURL => c.(registry := c.registry.(url := v))
    case ImageName => c.(registry := c.registry.(imageName := v))
    case RegistryUsername => c.(registry := c.registry.(username := v))
    case RegistryPassword => c.(registry := c.registry.(password := v))
    case LogFile => if v != "" then c.(options := c.options.(logFile := v)) else c
    case MaxRunners =>
      if RunnerLimit(v).Some? then c.(options := c.options.(maxConcurrentRunners := RunnerLimit(v).value)) else c
    case ShutdownFlagFile => if v != "" then c.(options := c.options.(shutdownFlagFile := v)) else c
    case WorkingDirectory => if v != "" then c.(options := c.options.(workingDirectory := v)) else c
    case DaemonLabel => if v != "" then c.(daemon := c.daemon.(launchLabel := v)) else c
    case PlistPath => if v != "" then c.(daemon := c.daemon.(plistPath := v)) else c
    case DaemonUser => if v != "" then c.(daemon := c.daemon.(user := v)) else c
  }

  /** An empty input leaves the runner name, the labels, the file paths, the
      daemon settings and the runner limit as they were. */
  lemma SetEmptyKeeps(c: Config, k: Key)
    requires KeepsOnEmpty(k) || k == MaxRunners
    ensures Set(c, k, "") == c
  {
  }

  /** Reading a plain field back after storing a value gives that value: for the
      token, URL, VM, registry and group fields whatever the value, for the
      others whenever it is not empty. */
  lemma SetThenGet(c: Config, k: Key, v: Text)
    requires PlainKey(k)
    requires Overwrites(k) || v != ""
    ensures Get(Set(c, k, v), k) == v
  {
  }

  /** Storing into one field leaves every other field as it was. */
  lemma SetLeavesOthers(c: Config, k: Key, k': Key, v: Text)
    requires k != k'
    ensures Get(Set(c, k, v), k') == Get(c, k')
  {
  }

  /** No input touches the truncation size, which the form does not show. */
  lemma SetKeepsTruncateSize(c: Config, k: Key, v: Text)
    ensures Set(c, k, v).options.truncateSize == c.options.truncateSize
  {
  }

  /** The runner limit changes only to a value of at least 1 that its input
      spells in decimal; every such value can be entered. */
  lemma RunnerLimitRule(c: Config, v: Text, n: int)
    requires 1 <= n <= MaxInt64
    ensures var m := Set(c, MaxRunners, v).options.maxConcurrentRunners;
      m != c.options.maxConcurrentRunners ==> Atoi(v) == Some(m) && m >= 1
    ensures Set(c, MaxRunners, Itoa(n)).options.maxConcurrentRunners == n
  {
    AtoiItoa(n);
  }

  /** A non-empty labels input replaces the labels by its comma-separated pieces,
      every one of them a clean label. */
  lemma SetLabels(c: Config, v: Text)
    requires v != ""
    ensures Set(c, RunnerLabels, v).github.runnerLabels == SplitCSV(v)
    ensures forall x :: x in Set(c, RunnerLabels, v).github.runnerLabels ==> CleanLabel(x)
  {
    SplitCSVClean(v);
  }

  /** The configurations whose every field the form shows faithfully: labels
      are clean and the runner limit is a 64-bit integer. */
  predicate Displayable(c: Config) {
    && (forall i :: 0 <= i < |c.github.runnerLabels| ==> CleanLabel(c.github.runnerLabels[i]))
    && MinInt64 <= c.options.maxConcurrentRunners <= MaxInt64
  }

  /** Storing back the text an input was filled with changes nothing. */
  lemma SetGetIdentity(c: Config, k: Key)
    requires Displayable(c)
    ensures Set(c, k, Get(c, k)) == c
  {
    match k
    case RunnerLabels =>
      var ls := c.github.runnerLabels;
      if ls != [] {
        LabelsRoundTrip(ls);
        assert Join(ls, ",") != "" by { JoinNonEmpty(ls); }
      }
    case MaxRunners =>
      AtoiItoa(c.options.maxConcurrentRunners);
    case _ =>
  }

  /** Joining at least one non-empty piece gives non-empty text. */
  lemma JoinNonEmpty(ls: seq<Text>)
    requires |ls| >= 1 && ls[0] != ""
    ensures Join(ls, ",") != ""
  {
  }

  // ---- turning the inputs back into a record ----

  /** A required input whose trimmed text is empty. */
  predicate Missing(f: Field, v: Text) {
    f.required && v == ""
  }

  /** Every input's text with the surrounding white space removed. */
  function TrimAll(values: seq<Text>): (ts: seq<Text>)
    ensures |ts| == |values|
  {
    seq(|values|, i requires 0 <= i < |values| => TrimSpace(values[i]))
  }

  /** The first input that is missing, if any. */
  function FirstMissing(fields: seq<Field>, values: seq<Text>): (r: Option<nat>)
    requires |values| == |fields|
    ensures r.Some? ==> (r.value < |fields| && Missing(fields[r.value], values[r.value])
      && forall j :: 0 <= j < r.value ==> !Missing(fields[j], values[j]))
    ensures r.None? ==> forall j :: 0 <= j < |fields| ==> !Missing(fields[j], values[j])
  {
    if |fields| == 0 then None
    else if Missing(fields[0], values[0]) then Some(0)
    else match FirstMissing(fields[1..], values[1..])
      case None => None
      case Some(k) => Some(k + 1)
  }

  /** The record after storing every (trimmed) input in turn. */
  function Fill(c: Config, fields: seq<Field>, values: seq<Text>): Config
    requires |values| == |fields|
    decreases |fields|
  {
    if |fields| == 0 then c
    else Fill(Set(c, fields[0].key, values[0]), fields[1..], values[1..])
  }

  /** Storing the input at `i` first leaves the rest of the filling to do. */
  lemma FillStep(c: Config, fields: seq<Field>, values: seq<Text>, i: nat)
    requires |values| == |fields| && i < |fields|
    ensures Fill(c, fields[i..], values[i..])
      == Fill(Set(c, fields[i].key, values[i]), fields[i + 1..], values[i + 1..])
  {
    assert fields[i..][1..] == fields[i + 1..] && values[i..][1..] == values[i + 1..];
  }

  /** `toConfig`: the first missing input is reported by its label; otherwise
      the inputs are stored over the default record, which must then pass
      validation. */
  function FormResult(fields: seq<Field>, values: seq<Text>, urlParses: Text -> bool): Result<Config>
    requires |values| == |fields|
  {
    var ts := TrimAll(values);
    match FirstMissing(fields, ts)
    case Some(i) => Err(fields[i].title + " is required")
    case None =>
      var c := Fill(DefaultConfig, fields, ts);
      if Acceptable(c, urlParses) then Ok(c) else Err(Join(Messages(Problems(c, urlParses)), "; "))
  }

  /** The error names the first required input, in display order, whose trimmed
      text is empty, and nothing is validated then. */
  lemma FirstMissingReported(fields: seq<Field>, values: seq<Text>, urlParses: Text -> bool, i: nat)
    requires |values| == |fields| && i < |fields|
    requires fields[i].required && TrimSpace(values[i]) == ""
    requires forall j :: 0 <= j < i ==> !(fields[j].required && TrimSpace(values[j]) == "")
    ensures FormResult(fields, values, urlParses) == Err(fields[i].title + " is required")
  {
    var ts := TrimAll(values);
    assert Missing(fields[i], ts[i]);
  }

  /** With every required input filled in, no input is reported missing. */
  lemma NoneMissing(fields: seq<Field>, values: seq<Text>)
    requires |values| == |fields|
    requires forall j :: 0 <= j < |fields| ==> !(fields[j].required && TrimSpace(values[j]) == "")
    ensures FirstMissing(fields, TrimAll(values)) == None
  {
  }

  /** A form passes only with every required input filled in and a record
      that validates. */
  lemma FormOkIsComplete(fields: seq<Field>, values: seq<Text>, urlParses: Text -> bool)
    requires |values| == |fields|
    ensures FormResult(fields, values, urlParses).Ok? <==>
      (forall j :: 0 <= j < |fields| ==> !(fields[j].required && TrimSpace(values[j]) == ""))
      && Acceptable(Fill(DefaultConfig, fields, TrimAll(values)), urlParses)
  {
    var ts := TrimAll(values);
    if FirstMissing(fields, ts).Some? {
      var k := FirstMissing(fields, ts).value;
      assert fields[k].required && TrimSpace(values[k]) == "";
    }
  }

  /** A field not among the inputs keeps its value. */
  lemma {:induction false} FillLeaves(c: Config, fields: seq<Field>, values: seq<Text>, k: Key)
    requires |values| == |fields|
    requires forall j :: 0 <= j < |fields| ==> fields[j].key != k
    ensures Get(Fill(c, fields, values), k) == Get(c, k)
    decreases |fields|
  {
    if |fields| > 0 {
      SetLeavesOthers(c, fields[0].key, k, values[0]);
      FillLeaves(Set(c, fields[0].key, values[0]), fields[1..], values[1..], k);
    }
  }

  /** No input touches the truncation size. */
  lemma {:induction false} FillKeepsTruncateSize(c: Config, fields: seq<Field>, values: seq<Text>)
    requires |values| == |fields|
    ensures Fill(c, fields, values).options.truncateSize == c.options.truncateSize
    decreases |fields|
  {
    if |fields| > 0 {
      SetKeepsTruncateSize(c, fields[0].key, values[0]);
      FillKeepsTruncateSize(Set(c, fields[0].key, values[0]), fields[1..], values[1..]);
    }
  }

  /** A plain field edited by one input only ends up holding that input's
      text, when storing it is not skipped. */
  lemma {:induction false} FillStores(c: Config, fields: seq<Field>, values: seq<Text>, i: nat)
    requires |values| == |fields| && i < |fields|
    requires forall j :: i < j < |fields| ==> fields[j].key != fields[i].key
    requires PlainKey(fields[i].key)
    requires Overwrites(fields[i].key) || values[i] != ""
    ensures Get(Fill(c, fields, values), fields[i].key) == values[i]
    decreases |fields|
  {
    var c1 := Set(c, fields[0].key, values[0]);
    if i == 0 {
      SetThenGet(c, fields[0].key, values[0]);
      FillLeaves(c1, fields[1..], values[1..], fields[0].key);
    } else {
      FillStores(c1, fields[1..], values[1..], i - 1);
    }
  }

  /** The six fields `Config.Validate` requires to be set. */
  predicate Checked(k: Key) {
    k == ApiToken || k == RegistrationEndpoint || k == RunnerURL
    || k == VMUsername || k == VMPassword || k == ImageName
  }

  /** Which inputs are required: exactly those of the six fields validation
      insists on. */
  lemma RequiredInputs()
    ensures forall i :: 0 <= i < |FormFields| ==> (FormFields[i].required <==> Checked(FormFields[i].key))
  {
  }

  /** The position of a field in the order the form shows them. */
  function Ordinal(k: Key): nat {
    match k
    case ApiToken => 0
    case RegistrationEndpoint => 1
    case RunnerURL => 2
    case RunnerName => 3
    case RunnerLabels => 4
    case RunnerGroup => 5
    case VMUsername => 6
    case VMPassword => 7
    case RegistryURL => 8
    case ImageName => 9
    case RegistryUsername => 10
    case RegistryPassword => 11
    case LogFile => 12
    case MaxRunners => 13
    case ShutdownFlagFile => 14
    case WorkingDirectory => 15
    case DaemonLabel => 16
    case PlistPath => 17
    case DaemonUser => 18
  }

  /** The inputs list the fields in order, one input per field. */
  lemma KeysInOrder()
    ensures |FormFields| == 19
    ensures forall i :: 0 <= i < |FormFields| ==> Ordinal(FormFields[i].key) == i
  {
  }

  /** Every field has one input. */
  lemma KeysDistinct()
    ensures forall i, j :: 0 <= i < j < |FormFields| ==> FormFields[i].key != FormFields[j].key
  {
    KeysInOrder();
  }

  /** Every input for field `k` is required. */
  predicate AllRequired(fields: seq<Field>, k: Key) {
    forall j :: 0 <= j < |fields| && fields[j].key == k ==> fields[j].required
  }

  /** Some input edits field `k`, and every input that does is required. */
  predicate RequiredInput(fields: seq<Field>, k: Key) {
    (exists i :: 0 <= i < |fields| && fields[i].key == k) && AllRequired(fields, k)
  }

  /** A field that is set, or that input `i` edits, and whose inputs are all
      required and filled in, is set after filling. */
  lemma {:induction false} FillKeepsRequired(c: Config, fields: seq<Field>, values: seq<Text>, k: Key, i: int)
    requires |values| == |fields| && forall j :: 0 <= j < |fields| ==> !Missing(fields[j], values[j])
    requires Overwrites(k) && AllRequired(fields, k)
    requires Get(c, k) != "" || (0 <= i < |fields| && fields[i].key == k)
    ensures Get(Fill(c, fields, values), k) != ""
    decreases |fields|
  {
    if |fields| > 0 {
      var c1 := Set(c, fields[0].key, values[0]);
      var f1, v1 := fields[1..], values[1..];
      if fields[0].key == k {
        assert !Missing(fields[0], values[0]);
        SetThenGet(c, k, values[0]);
      } else {
        SetLeavesOthers(c, fields[0].key, k, values[0]);
      }
      forall j | 0 <= j < |f1|
        ensures !Missing(f1[j], v1[j]) && (f1[j].key == k ==> f1[j].required)
      {
        assert f1[j] == fields[j + 1] && v1[j] == values[j + 1];
      }
      FillKeepsRequired(c1, f1, v1, k, i - 1);
    }
  }

  /** A required input that is filled in leaves its field set. */
  lemma FillSetsRequired(c: Config, fields: seq<Field>, values: seq<Text>, k: Key)
    requires |values| == |fields| && forall j :: 0 <= j < |fields| ==> !Missing(fields[j], values[j])
    requires Overwrites(k) && RequiredInput(fields, k)
    ensures Get(Fill(c, fields, values), k) != ""
  {
    var i :| 0 <= i < |fields| && fields[i].key == k;
    FillKeepsRequired(c, fields, values, k, i);
  }

  /** The form requires an input for each of the three GitHub fields validation
      insists on. */
  lemma FormRequiresGitHubFields()
    ensures RequiredInput(FormFields, ApiToken) && RequiredInput(FormFields, RegistrationEndpoint)
    ensures RequiredInput(FormFields, RunnerURL)
  {
    KeysInOrder();
    assert FormFields[0].key == ApiToken && FormFields[1].key == RegistrationEndpoint;
    assert FormFields[2].key == RunnerURL;
  }

  /** The form requires an input for the VM credentials and the image name. */
  lemma FormRequiresImageFields()
    ensures RequiredInput(FormFields, VMUsername) && RequiredInput(FormFields, VMPassword)
    ensures RequiredInput(FormFields, ImageName)
  {
    KeysInOrder();
    assert FormFields[6].key == VMUsername && FormFields[7].key == VMPassword;
    assert FormFields[9].key == ImageName;
  }

  /** With no required input missing, the six fields validation checks are set,
      whatever record filling starts from. */
  lemma FilledRequiredFields(c: Config, fields: seq<Field>, ts: seq<Text>)
    requires |ts| == |fields| && forall j :: 0 <= j < |fields| ==> !Missing(fields[j], ts[j])
    requires RequiredInput(fields, ApiToken) && RequiredInput(fields, RegistrationEndpoint)
    requires RequiredInput(fields, RunnerURL) && RequiredInput(fields, VMUsername)
    requires RequiredInput(fields, VMPassword) && RequiredInput(fields, ImageName)
    ensures var d := Fill(c, fields, ts);
      && d.github.apiToken != "" && d.github.registrationEndpoint != "" && d.github.runnerURL != ""
      && d.vm.username != "" && d.vm.password != "" && d.registry.imageName != ""
  {
    FillSetsRequired(c, fields, ts, ApiToken);
    FillSetsRequired(c, fields, ts, RegistrationEndpoint);
    FillSetsRequired(c, fields, ts, RunnerURL);
    FillSetsRequired(c, fields, ts, VMUsername);
    FillSetsRequired(c, fields, ts, VMPassword);
    FillSetsRequired(c, fields, ts, ImageName);
  }

  /** Once every required input is filled in, validation can object only to a
      registration endpoint that is not a URL. */
  lemma FormOnlyRejectsEndpointURL(values: seq<Text>, urlParses: Text -> bool)
    requires |values| == |FormFields|
    requires FirstMissing(FormFields, TrimAll(values)) == None
    ensures FormResult(FormFields, values, urlParses).Ok?
      || FormResult(FormFields, values, urlParses) == Err(Message(EndpointInvalid))
  {
    FormRequiresGitHubFields();
    FormRequiresImageFields();
    FilledRequiredFields(DefaultConfig, FormFields, TrimAll(values));
    OnlyEndpointCanFail(Fill(DefaultConfig, FormFields, TrimAll(values)), urlParses);
  }

  /** With the six required fields filled in, the endpoint's form is all that
      validation still checks. */
  lemma OnlyEndpointCanFail(c: Config, urlParses: Text -> bool)
    requires c.github.apiToken != "" && c.github.registrationEndpoint != "" && c.github.runnerURL != ""
    requires c.vm.username != "" && c.vm.password != "" && c.registry.imageName != ""
    ensures Acceptable(c, urlParses) || Join(Messages(Problems(c, urlParses)), "; ") == Message(EndpointInvalid)
  {
    if !Acceptable(c, urlParses) {
      assert Problems(c, urlParses) == [EndpointInvalid];
    }
  }

  /** A successful form holds in each plain field the trimmed text of its
      input, unless that text is empty and the field keeps its default then. */
  lemma FormStoresInputs(values: seq<Text>, urlParses: Text -> bool, i: nat)
    requires |values| == |FormFields| && i < |FormFields|
    requires PlainKey(FormFields[i].key)
    requires Overwrites(FormFields[i].key) || TrimSpace(values[i]) != ""
    requires FormResult(FormFields, values, urlParses).Ok?
    ensures Get(FormResult(FormFields, values, urlParses).value, FormFields[i].key) == TrimSpace(values[i])
  {
    KeysDistinct();
    StoresInput(FormFields, values, urlParses, i);
  }

  /** An input whose key no later input shares is stored by a successful form. */
  lemma StoresInput(fields: seq<Field>, values: seq<Text>, urlParses: Text -> bool, i: nat)
    requires |values| == |fields| && i < |fields|
    requires forall j :: i < j < |fields| ==> fields[j].key != fields[i].key
    requires PlainKey(fields[i].key)
    requires Overwrites(fields[i].key) || TrimSpace(values[i]) != ""
    requires FormResult(fields, values, urlParses).Ok?
    ensures Get(FormResult(fields, values, urlParses).value, fields[i].key) == TrimSpace(values[i])
  {
    var ts := TrimAll(values);
    assert ts[i] == TrimSpace(values[i]);
    FillStores(DefaultConfig, fields, ts, i);
  }

  /** The form always resets the truncation size, which it does not show, to
      the default's empty value. */
  lemma FormResetsTruncateSize(fields: seq<Field>, values: seq<Text>, urlParses: Text -> bool)
    requires |values| == |fields|
    ensures FormResult(fields, values, urlParses).Ok? ==>
      FormResult(fields, values, urlParses).value.options.truncateSize == ""
  {
    FillKeepsTruncateSize(DefaultConfig, fields, TrimAll(values));
  }

  // ---- focus ----

  /** The input focused after `key`: tab and down move forward, shift+tab and
      up move back, both wrapping around; other keys keep the focus. */
  function NextFocus(focus: int, n: int, key: Text): (r: int)
    ensures 0 <= focus < n ==> 0 <= r < n
  {
    if key == "tab" || key == "down" then (if focus + 1 >= n then 0 else focus + 1)
    else if key == "shift+tab" || key == "up" then (if focus - 1 < 0 then n - 1 else focus - 1)
    else focus
  }

  /** Moving forward and back is stepping around a ring of `n` inputs. */
  lemma FocusIsModular(focus: int, n: int)
    requires 0 <= focus < n
    ensures NextFocus(focus, n, "tab") == NextFocus(focus, n, "down") == (focus + 1) % n
    ensures NextFocus(focus, n, "shift+tab") == NextFocus(focus, n, "up") == (focus - 1) % n
  {
    if focus + 1 == n {
      assert (focus + 1) % n == 0;
    } else {
      assert (focus + 1) % n == focus + 1;
    }
    if focus == 0 {
      assert (focus - 1) % n == n - 1;
    } else {
      assert (focus - 1) % n == focus - 1;
    }
  }

  /** Back undoes forward and forward undoes back. */
  lemma FocusBackAndForth(focus: int, n: int)
    requires 0 <= focus < n
    ensures NextFocus(NextFocus(focus, n, "tab"), n, "shift+tab") == focus
    ensures NextFocus(NextFocus(focus, n, "shift+tab"), n, "tab") == focus
  {
  }

  /** Any other key leaves the focus where it is. */
  lemma FocusOtherKeys(focus: int, n: int, key: Text)
    requires key != "tab" && key != "down" && key != "shift+tab" && key != "up"
    ensures NextFocus(focus, n, key) == focus
  {
  }

  /** The inputs as `newConfigForm` fills them from a record. */
  function InitialValues(c: Config): (vs: seq<Text>)
    ensures |vs| == |FormFields|
  {
    seq(|FormFields|, i requires 0 <= i < |FormFields| => Get(c, FormFields[i].key))
  }

  /** The form: its inputs' texts and the focused input. */
  class Form {
    const fields: seq<Field>
    var values: seq<Text>
    var focus: int

    predicate Valid()
      reads this
    {
      fields == FormFields && |values| == |fields| && 0 <= focus < |values|
    }

    /** `newConfigForm`: every input shows its field of `c`; the first is focused. */
    constructor (c: Config)
      ensures Valid() && values == InitialValues(c) && focus == 0
    {
      var vs: seq<Text> := [];
      var i := 0;
      while i < |FormFields|
        invariant 0 <= i <= |FormFields| && |vs| == i
        invariant forall j :: 0 <= j < i ==> vs[j] == Get(c, FormFields[j].key)
      {
        vs := vs + [Get(c, FormFields[i].key)];
        i := i + 1;
      }
      fields := FormFields;
      values := vs;
      focus := 0;
    }

    /** `updateFocus`. */
    method UpdateFocus(key: Text)
      requires Valid()
      modifies this`focus
      ensures Valid() && focus == NextFocus(old(focus), |values|, key)
    {
      if key == "tab" || key == "down" {
        focus := focus + 1;
        if focus >= |values| {
          focus := 0;
        }
      } else if key == "shift+tab" || key == "up" {
        focus := focus - 1;
        if focus < 0 {
          focus := |values| - 1;
        }
      }
    }

    /** `toConfig`. */
    method ToConfig(urlParses: Text -> bool) returns (r: Result<Config>)
      requires |values| == |fields|
      ensures r == FormResult(fields, values, urlParses)
    {
      var fs, vs := fields, values;
      var cfg := DefaultConfig;
      ghost var ts := TrimAll(vs);
      var i := 0;
      while i < |fs|
        invariant 0 <= i <= |fs|
        invariant forall j :: 0 <= j < i ==> !(fs[j].required && TrimSpace(vs[j]) == "")
        invariant Fill(cfg, fs[i..], ts[i..]) == Fill(DefaultConfig, fs, ts)
      {
        var value := TrimSpace(vs[i]);
        if fs[i].required && value == "" {
          FirstMissingReported(fs, vs, urlParses, i);
          return Err(fs[i].title + " is required");
        }
        FillStep(cfg, fs, ts, i);
        cfg := Set(cfg, fs[i].key, value);
        i := i + 1;
      }
      NoneMissing(fs, vs);
      var err := Validate(cfg, urlParses);
      if err.Some? {
        r := Err(err.value);
      } else {
        r := Ok(cfg);
      }
    }
  }
}
