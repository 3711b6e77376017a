/** The setup checker's decisions: which Python versions pass, how the two
    API keys are accepted and masked, which files must exist, when the API
    test runs, and the exit code of the summary. The probes themselves
    (subprocesses, imports, the file system, the API call) are inputs. */
module VerifySetup {
  import opened Core
  import opened Text

  // ---------------------------------------------------------------------
  // Python version.
  // ---------------------------------------------------------------------

  /** Python 3.10 or a later 3.x; a major version other than 3 fails. */
  predicate PythonVersionOk(major: nat, minor: nat) {
    major == 3 && minor >= 10
  }

  lemma PythonVersionExamples()
    ensures PythonVersionOk(3, 10) && PythonVersionOk(3, 13)
    ensures !PythonVersionOk(3, 9) && !PythonVersionOk(2, 12) && !PythonVersionOk(4, 0)
  {
  }

  // ---------------------------------------------------------------------
  // Environment keys.
  // ---------------------------------------------------------------------

  const AnthropicPrefix := "sk-ant-"

  /** The displayed form of an accepted Anthropic key. */
  function MaskAnthropic(key: string): (m: string)
    ensures exists j :: 0 <= j <= 10 && j <= |key| && m == key[..j] + Repeat('*', 10)
    ensures |key| >= 10 ==> |m| == 20
  {
    Take(key, 10) + Repeat('*', 10)
  }

  /** The displayed form of the EnrichLayer key: ten characters and ten
      stars for a key longer than ten, else its first three characters
      (all of a shorter key) and five stars. */
  function MaskEnrich(key: string): (m: string)
    ensures |key| > 10 ==> m == key[..10] + Repeat('*', 10)
    ensures |key| <= 10 ==>
      |m| == (if |key| < 3 then |key| else 3) + 5 && m == key[..|m| - 5] + Repeat('*', 5)
  {
    if |key| > 10 then key[..10] + Repeat('*', 10) else Take(key, 3) + Repeat('*', 5)
  }

  datatype EnvCheck =
    | EnvPassed(anthropicMask: string, enrichMask: string)
    | EnvFileMissing
    | LoadFailed
    | AnthropicKeyInvalid
    | EnrichKeyUnset

  predicate Passed(e: EnvCheck) {
    e.EnvPassed?
  }

  /** `check_env_file`: the `.env` file must exist and load, the Anthropic
      key must be set and start with "sk-ant-", and only then is the
      EnrichLayer key looked at, which must be set. An empty value counts
      as unset. */
  function CheckEnvFile(envExists: bool, dotenvLoads: bool, anthropicKey: Option<string>, enrichKey: Option<string>)
    : (e: EnvCheck)
    ensures Passed(e) <==>
      && envExists && dotenvLoads
      && anthropicKey.Some? && StartsWith(anthropicKey.value, AnthropicPrefix)
      && enrichKey.Some? && enrichKey.value != ""
    ensures Passed(e) ==> e.anthropicMask == MaskAnthropic(anthropicKey.value)
                          && e.enrichMask == MaskEnrich(enrichKey.value)
  {
    if !envExists then EnvFileMissing
    else if !dotenvLoads then LoadFailed
    else if !(anthropicKey.Some? && anthropicKey.value != "" && StartsWith(anthropicKey.value, AnthropicPrefix))
    then AnthropicKeyInvalid
    else if enrichKey.None? || enrichKey.value == "" then EnrichKeyUnset
    else EnvPassed(MaskAnthropic(anthropicKey.value), MaskEnrich(enrichKey.value))
  }

  /** A missing or badly prefixed Anthropic key fails the check before the
      EnrichLayer key is read: the outcome is the same whatever that key
      is. */
  lemma AnthropicCheckedFirst(anthropicKey: Option<string>, enrich1: Option<string>, enrich2: Option<string>)
    requires anthropicKey.None? || !StartsWith(anthropicKey.value, AnthropicPrefix)
    ensures CheckEnvFile(true, true, anthropicKey, enrich1) == AnthropicKeyInvalid
    ensures CheckEnvFile(true, true, anthropicKey, enrich1) == CheckEnvFile(true, true, anthropicKey, enrich2)
  {
  }

  /** An accepted Anthropic key is shown as its first ten characters and
      ten stars, never in full beyond that. */
  lemma AnthropicMaskShape(key: string)
    requires StartsWith(key, AnthropicPrefix)
    ensures var m := MaskAnthropic(key);
      && |m| == (if |key| < 10 then |key| else 10) + 10
      && m[..7] == AnthropicPrefix
      && forall i :: |m| - 10 <= i < |m| ==> m[i] == '*'
  {
    var m := MaskAnthropic(key);
    assert m[..7] == key[..7];
  }

  /** The EnrichLayer mask is 20 characters for keys longer than ten and
      otherwise the key's first three characters (all of a shorter key)
      and five stars, so at most eight. */
  lemma EnrichMaskLength(key: string)
    ensures |key| > 10 ==> |MaskEnrich(key)| == 20
    ensures |key| <= 10 ==> |MaskEnrich(key)| == (if |key| < 3 then |key| else 3) + 5 <= 8
  {
  }

  // ---------------------------------------------------------------------
  // Required files.
  // ---------------------------------------------------------------------

  const RequiredFiles: seq<string> :=
    ["chained_outreach.py", "agent_outreach.py", "test_cases.py", "requirements.txt", ".env.example"]

  /** `check_file_structure`: every required file is looked up in order;
      the check passes exactly when none is missing. */
  method CheckFileStructure(present: string -> bool) returns (allExist: bool, missing: seq<string>)
    ensures allExist <==> forall k :: 0 <= k < |RequiredFiles| ==> present(RequiredFiles[k])
    ensures forall f :: f in missing <==> f in RequiredFiles && !present(f)
    ensures |missing| <= |RequiredFiles|
  {
    allExist := true;
    missing := [];
    var i := 0;
    while i < |RequiredFiles|
      invariant 0 <= i <= |RequiredFiles|
      invariant allExist <==> forall k :: 0 <= k < i ==> present(RequiredFiles[k])
      invariant forall f :: f in missing <==> f in RequiredFiles[..i] && !present(f)
      invariant |missing| <= i
    {
      if !present(RequiredFiles[i]) {
        missing := missing + [RequiredFiles[i]];
        allExist := false;
      }
      assert RequiredFiles[..i + 1] == RequiredFiles[..i] + [RequiredFiles[i]];
      i := i + 1;
    }
    assert RequiredFiles[..i] == RequiredFiles;
  }

  // ---------------------------------------------------------------------
  // The results table and the summary.
  // ---------------------------------------------------------------------

  /** The outcomes of the seven probes run unconditionally. */
  datatype Probes = Probes(
    python: bool, node: bool, claudeCli: bool, venv: bool,
    dependencies: bool, envConfig: bool, fileStructure: bool)

  datatype Entry = Entry(check: string, passed: bool)

  /** The results in insertion order; the API test is only run, and only
      listed, when dependencies and environment both passed. */
  function Results(p: Probes, apiConnectivity: bool): (rs: seq<Entry>)
    ensures |rs| == if p.dependencies && p.envConfig then 8 else 7
    ensures |rs| == 8 <==> Entry("API Connectivity", apiConnectivity) in rs
  {
    var base := [Entry("Python 3.10+", p.python), Entry("Node.js", p.node), Entry("Claude CLI", p.claudeCli),
                 Entry("Virtual Environment", p.venv), Entry("Dependencies", p.dependencies),
                 Entry("Environment Config", p.envConfig), Entry("File Structure", p.fileStructure)];
    assert forall k :: 0 <= k < 7 ==> base[k].check != "API Connectivity";
    if p.dependencies && p.envConfig then base + [Entry("API Connectivity", apiConnectivity)] else base
  }

  /** `print_summary`: counts the passed checks; the exit code is 0 exactly
      when every check passed, and 1 otherwise. */
  method PrintSummary(results: seq<Entry>) returns (passed: nat, exitCode: int)
    ensures passed <= |results|
    ensures passed == |results| <==> forall k :: 0 <= k < |results| ==> results[k].passed
    ensures exitCode == (if passed == |results| then 0 else 1)
  {
    passed := 0;
    var i := 0;
    while i < |results|
      invariant 0 <= i <= |results|
      invariant passed <= i
      invariant passed == i <==> forall k :: 0 <= k < i ==> results[k].passed
    {
      if results[i].passed {
        passed := passed + 1;
      }
      i := i + 1;
    }
    exitCode := if passed == |results| then 0 else 1;
  }

  /** `main`: the exit code is 0 exactly when all seven probes passed and
      the API test, which then runs, passed too. */
  method RunChecks(p: Probes, apiConnectivity: bool) returns (exitCode: int)
    ensures exitCode == 0 <==>
      && p.python && p.node && p.claudeCli && p.venv && p.dependencies && p.envConfig && p.fileStructure
      && apiConnectivity
    ensures exitCode == 0 || exitCode == 1
  {
    var rs := Results(p, apiConnectivity);
    var passed;
    passed, exitCode := PrintSummary(rs);
    if exitCode == 0 {
      assert rs[0].passed && rs[1].passed && rs[2].passed && rs[3].passed && rs[4].passed;
      assert rs[5].passed && rs[6].passed && rs[7].passed;
    } else {
      var k :| 0 <= k < |rs| && !rs[k].passed;
    }
  }
}
