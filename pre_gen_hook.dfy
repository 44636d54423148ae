/** The cookiecutter pre-generation hook of the Keras real-time serving
    template: it checks the project slug, the subscription id and the image
    name, in that order, and cancels generation at the first bad one. */
module PreGenHook {

  // ---------------------------------------------------------------------
  // `MODULE_REGEX = r"^[_a-zA-Z][_a-zA-Z0-9]+$"` under `re.match`

  /** `[_a-zA-Z]`: ASCII letters and the underscore. */
  predicate IsHeadChar(c: char) {
    c == '_' || 'a' <= c <= 'z' || 'A' <= c <= 'Z'
  }

  /** `[_a-zA-Z0-9]`. */
  predicate IsWordChar(c: char) {
    IsHeadChar(c) || '0' <= c <= '9'
  }

  /** Where the greedy run of `[_a-zA-Z0-9]` that starts at `i` ends. */
  function WordRunEnd(s: string, i: nat): (j: nat)
    requires i <= |s|
    ensures i <= j <= |s|
    ensures forall k :: i <= k < j ==> IsWordChar(s[k])
    ensures j < |s| ==> !IsWordChar(s[j])
    decreases |s| - i
  {
    if i == |s| || !IsWordChar(s[i]) then i else WordRunEnd(s, i + 1)
  }

  /** The matcher: one head character, the greedy run of word characters
      (at least one), then `$`, which holds at the end of the string or
      just before a final newline. Backtracking into the run cannot help,
      since every shorter run is followed by a word character. */
  function MatchesModuleRegex(s: string): bool
  {
    if |s| < 2 || !IsHeadChar(s[0]) then false
    else
      var j := WordRunEnd(s, 1);
      j >= 2 && (j == |s| || (j == |s| - 1 && s[j] == '\n'))
  }

  /** A Python identifier of at least two characters, ASCII only. */
  predicate IsSlug(b: string) {
    |b| >= 2 && IsHeadChar(b[0]) && forall i :: 1 <= i < |b| ==> IsWordChar(b[i])
  }

  /** The names the pattern accepts: a slug, optionally followed by one
      newline. */
  predicate ValidModuleName(s: string) {
    IsSlug(s) || (|s| > 0 && s[|s| - 1] == '\n' && IsSlug(s[..|s| - 1]))
  }

  /** The matcher accepts exactly the slugs, with or without one final
      newline. */
  lemma MatcherIsValidModuleName(s: string)
    ensures MatchesModuleRegex(s) <==> ValidModuleName(s)
  {
    if |s| >= 2 && IsHeadChar(s[0]) {
      var j := WordRunEnd(s, 1);
      if IsSlug(s) {
        assert j == |s|;
      } else if |s| > 0 && s[|s| - 1] == '\n' && IsSlug(s[..|s| - 1]) {
        var b := s[..|s| - 1];
        assert forall k :: 1 <= k < |b| ==> b[k] == s[k];
        assert j == |s| - 1;
      }
      if MatchesModuleRegex(s) && j == |s| - 1 {
        assert IsSlug(s[..|s| - 1]);
      }
    }
  }

  /** A name with a hyphen is never a module name. */
  lemma HyphenRejected(s: string, i: nat)
    requires i < |s| && s[i] == '-'
    ensures !MatchesModuleRegex(s)
  {
    MatcherIsValidModuleName(s);
    if i < |s| - 1 {
      assert s[..|s| - 1][i] == '-';
    }
  }

  /** One character is too short: the pattern needs two. */
  lemma ShortNamesRejected(s: string)
    requires |s| <= 1
    ensures !MatchesModuleRegex(s)
  {
  }

  /** `$` also matches before a final newline, so a slug followed by one
      `\n` passes. */
  lemma TrailingNewlineAccepted(b: string)
    requires IsSlug(b)
    ensures MatchesModuleRegex(b + "\n")
  {
    MatcherIsValidModuleName(b + "\n");
    assert (b + "\n")[..|b|] == b;
  }

  lemma ModuleNameExamples()
    ensures MatchesModuleRegex("my_project")
    ensures MatchesModuleRegex("_x1")
    ensures !MatchesModuleRegex("my-project")
    ensures !MatchesModuleRegex("1st_project")
    ensures !MatchesModuleRegex("a")
  {
    MatcherIsValidModuleName("my_project");
    MatcherIsValidModuleName("_x1");
    HyphenRejected("my-project", 2);
  }

  // ---------------------------------------------------------------------
  // The three checks

  /** The lines the hook prints. */
  datatype Line =
    | InvalidSlug(moduleName: string)
    | MissingSubId
    | UnderscoreInImage(imageName: string)
    | AllPassed
    | CreatingAks
    | CreatingIotEdge

  /** The text of each printed line. */
  function Text(line: Line): string
  {
    match line
    case InvalidSlug(name) =>
      "ERROR: The project slug " + name
        + " is not a valid Python module name. Please do not use a - and use _ instead"
    case MissingSubId => "ERROR: The subscription id is missing, please enter a valid subscription id slug"
    case UnderscoreInImage(name) => "ERROR: The image name must not have underscores in it " + name
    case AllPassed => "All checks passed"
    case CreatingAks => "Creating AKS project..."
    case CreatingIotEdge => "Creating IOT Edge project..."
  }

  /** Distinct lines read differently: the error lines name what was wrong. */
  lemma ErrorTextsNameTheInput(name: string)
    ensures Text(InvalidSlug(name))[24..24 + |name|] == name
    ensures Text(UnderscoreInImage(name))[54..] == name
  {
    var head := "ERROR: The project slug ";
    var tail := " is not a valid Python module name. Please do not use a - and use _ instead";
    assert |head| == 24;
    assert Text(InvalidSlug(name)) == head + name + tail;
    assert (head + name + tail)[24..24 + |name|] == name;
    var imageHead := "ERROR: The image name must not have underscores in it ";
    assert |imageHead| == 54;
    assert Text(UnderscoreInImage(name)) == imageHead + name;
    assert (imageHead + name)[54..] == name;
  }

  /** A check either passes or prints an error line and exits with status 1. */
  datatype Check = Pass | Fail(line: Line)

  function CheckModule(moduleName: string): (c: Check)
    ensures c.Pass? <==> ValidModuleName(moduleName)
    ensures c.Fail? ==> c.line == InvalidSlug(moduleName)
  {
    MatcherIsValidModuleName(moduleName);
    if !MatchesModuleRegex(moduleName) then Fail(InvalidSlug(moduleName)) else Pass
  }

  function CheckSubId(subId: string): (c: Check)
    ensures c.Pass? <==> |subId| > 0
    ensures c.Fail? ==> c.line == MissingSubId
  {
    if |subId| == 0 then Fail(MissingSubId) else Pass
  }

  function CheckImageName(imageName: string): (c: Check)
    ensures c.Pass? <==> forall i :: 0 <= i < |imageName| ==> imageName[i] != '_'
    ensures c.Fail? ==> c.line == UnderscoreInImage(imageName)
  {
    if '_' in imageName then Fail(UnderscoreInImage(imageName)) else Pass
  }

  // ---------------------------------------------------------------------
  // The main block

  /** What the hook leaves behind: the lines it printed and its exit status. */
  datatype HookRun = HookRun(printed: seq<Line>, status: nat)

  /** The checks in order module, subscription, image; the first failure
      exits with status 1, otherwise the deployment type is announced. */
  function RunHook(projectName: string, subId: string, imageName: string, deploymentType: string): (run: HookRun)
    ensures run.status <= 1 && |run.printed| >= 1
    ensures run.status == 0 <==> run.printed[0] == AllPassed
  {
    var slug := CheckModule(projectName);
    var sub := CheckSubId(subId);
    var image := CheckImageName(imageName);
    if slug.Fail? then HookRun([slug.line], 1)
    else if sub.Fail? then HookRun([sub.line], 1)
    else if image.Fail? then HookRun([image.line], 1)
    else
      HookRun([AllPassed]
        + (if deploymentType == "aks" then [CreatingAks] else [])
        + (if deploymentType == "iotedge" then [CreatingIotEdge] else []), 0)
  }

  /** Generation goes ahead exactly when all three inputs are good. */
  lemma HookPassesIffAllValid(projectName: string, subId: string, imageName: string, deploymentType: string)
    ensures var run := RunHook(projectName, subId, imageName, deploymentType);
      && (run.status == 0 <==>
            ValidModuleName(projectName) && |subId| > 0 &&
            forall i :: 0 <= i < |imageName| ==> imageName[i] != '_')
      && (run.status != 0 ==> run.status == 1 && |run.printed| == 1 && !run.printed[0].AllPassed?)
  {
  }

  /** A bad slug is reported alone: the later checks never run, whatever
      the other inputs are. */
  lemma BadModuleStopsFirst(projectName: string, subId: string, imageName: string, deploymentType: string)
    requires !ValidModuleName(projectName)
    ensures RunHook(projectName, subId, imageName, deploymentType) == HookRun([InvalidSlug(projectName)], 1)
  {
  }

  /** With a good slug, a missing subscription id is reported before any
      image-name problem. */
  lemma MissingSubIdBeforeImage(projectName: string, imageName: string, deploymentType: string)
    requires ValidModuleName(projectName)
    ensures RunHook(projectName, "", imageName, deploymentType) == HookRun([MissingSubId], 1)
  {
  }

  /** When all checks pass, "All checks passed" comes first and the
      announcement follows the deployment type. */
  lemma DeploymentAnnouncement(projectName: string, subId: string, imageName: string, deploymentType: string)
    requires ValidModuleName(projectName) && |subId| > 0
    requires forall i :: 0 <= i < |imageName| ==> imageName[i] != '_'
    ensures RunHook(projectName, subId, imageName, deploymentType).printed
         == if deploymentType == "aks" then [AllPassed, CreatingAks]
            else if deploymentType == "iotedge" then [AllPassed, CreatingIotEdge]
            else [AllPassed]
  {
  }
}
