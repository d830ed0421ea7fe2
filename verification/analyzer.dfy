/**
 * The repository analyzer: a priority-ordered decision table from the marker
 * files a repository contains to its language, framework and suggested build
 * commands. The file search and the package.json parse are not modelled; their
 * findings are the booleans of RepoFacts.
 */
module Analyzer {
  import opened Wrappers

  /**
   * RepoAnalysisResult.ProjectLanguage. `Unknown` stands for the value a new
   * result starts with, which the analyzer keeps when no marker is found.
   */
  datatype Language = Unknown | DotNet | NodeJs | Go | Python | Java

  /** What reading the first package.json found gives. */
  datatype PackageJson =
      /** Reading the file or parsing it as JSON threw. */
    | Unreadable
      /**
       * Whether the root's `scripts` property is an object, and whether that
       * object's `test` property is a string; the second field only matters
       * when the first holds, since `test` is looked up inside `scripts` alone.
       */
    | Parsed(scriptsIsObject: bool, scriptsTestIsString: bool)

  /** Which files a search of the whole repository tree finds. */
  datatype RepoFacts = RepoFacts(
    dockerfile: bool,            // a file named Dockerfile*
    csproj: bool,                // a *.csproj file
    packageJson: bool,
    firstPackageJson: PackageJson,
    goMod: bool,
    requirementsTxt: bool,
    setupPy: bool,
    pyprojectToml: bool,
    pomXml: bool,
    buildGradle: bool,
    buildGradleKts: bool)

  /**
   * RepoAnalysisResult. A framework of None means the field keeps the value a
   * new result starts with.
   */
  datatype RepoAnalysis = RepoAnalysis(
    language: Language,
    framework: Option<string>,
    hasDockerfile: bool,
    suggestedBuildCommands: seq<string>)

  /** A new RepoAnalysisResult. */
  const Fresh := RepoAnalysis(Unknown, None, false, [])

  predicate HasTestScript(p: PackageJson)
  {
    p.Parsed? && p.scriptsIsObject && p.scriptsTestIsString
  }

  predicate PythonMarker(facts: RepoFacts)
  {
    facts.requirementsTxt || facts.setupPy || facts.pyprojectToml
  }

  predicate GradleMarker(facts: RepoFacts)
  {
    facts.buildGradle || facts.buildGradleKts
  }

  /** The commands for a Node.js repository, from what its package.json says. */
  function NodeCommands(p: PackageJson): (commands: seq<string>)
  {
    match p
    case Unreadable => ["npm install"]
    case Parsed(scriptsIsObject, scriptsTestIsString) =>
      if scriptsIsObject then
        if scriptsTestIsString then ["npm install", "npm test"] else ["npm install"]
      else ["npm install"]
  }

  function Analyze(facts: RepoFacts): (analysis: RepoAnalysis)
  {
    var result := if facts.dockerfile then Fresh.(hasDockerfile := true) else Fresh;
    if facts.csproj then
      result.(language := DotNet, framework := Some("DotNet Core"),
              suggestedBuildCommands := ["dotnet restore", "dotnet build", "dotnet test"])
    else if facts.packageJson then
      result.(language := NodeJs, framework := Some("Node.js Generic"),
              suggestedBuildCommands := NodeCommands(facts.firstPackageJson))
    else if facts.goMod then
      result.(language := Go, framework := Some("Go Modules"),
              suggestedBuildCommands := ["go build", "go test ./..."])
    else if PythonMarker(facts) then
      result.(language := Python, framework := Some("Python"),
              suggestedBuildCommands := ["pip install -r requirements.txt", "pytest"])
    else if facts.pomXml then
      result.(language := Java, framework := Some("Maven"),
              suggestedBuildCommands := ["mvn clean install", "mvn test"])
    else if GradleMarker(facts) then
      result.(language := Java, framework := Some("Gradle"),
              suggestedBuildCommands := ["gradle build", "gradle test"])
    else
      result
  }

  // The same decisions as a table: the markers in the order they are tried,
  // and the stack each one selects.

  function Markers(facts: RepoFacts): (present: seq<bool>)
  {
    [facts.csproj, facts.packageJson, facts.goMod, PythonMarker(facts), facts.pomXml, GradleMarker(facts)]
  }

  const Stacks: seq<(Language, string)> := [
    (DotNet, "DotNet Core"), (NodeJs, "Node.js Generic"), (Go, "Go Modules"),
    (Python, "Python"), (Java, "Maven"), (Java, "Gradle")]

  /** The index of the first true entry, or |markers| when none is true. */
  function FirstMarker(markers: seq<bool>): (i: nat)
    ensures i <= |markers|
    ensures forall j :: 0 <= j < i ==> !markers[j]
    ensures i < |markers| ==> markers[i]
  {
    if |markers| == 0 || markers[0] then 0 else 1 + FirstMarker(markers[1..])
  }

  /**
   * Exactly one stack is chosen: the one of the first marker present, in the
   * order .csproj, package.json, go.mod, Python files, pom.xml, Gradle files;
   * it always comes with at least one command. With no marker, the result
   * keeps its defaults and has no commands.
   */
  lemma AnalyzeFollowsPriority(facts: RepoFacts)
    ensures var analysis := Analyze(facts);
      var i := FirstMarker(Markers(facts));
      if i < |Stacks| then
        && analysis.language == Stacks[i].0
        && analysis.framework == Some(Stacks[i].1)
        && |analysis.suggestedBuildCommands| > 0
      else
        analysis == Fresh.(hasDockerfile := facts.dockerfile)
  {
    var m := Markers(facts);
    assert |m| == 6 && m[0] == facts.csproj && m[1] == facts.packageJson && m[2] == facts.goMod;
    assert m[3] == PythonMarker(facts) && m[4] == facts.pomXml && m[5] == GradleMarker(facts);
    var i := FirstMarker(m);
    if facts.csproj {
      assert m[0];
      assert i == 0;
    } else if facts.packageJson {
      assert !m[0] && m[1];
      assert i == 1;
    } else if facts.goMod {
      assert !m[0] && !m[1] && m[2];
      assert i == 2;
    } else if PythonMarker(facts) {
      assert !m[0] && !m[1] && !m[2] && m[3];
      assert i == 3;
    } else if facts.pomXml {
      assert !m[0] && !m[1] && !m[2] && !m[3] && m[4];
      assert i == 4;
    } else if GradleMarker(facts) {
      assert !m[0] && !m[1] && !m[2] && !m[3] && !m[4] && m[5];
      assert i == 5;
    } else {
      assert forall j :: 0 <= j < |m| ==> !m[j];
      assert i == 6;
    }
  }

  /** HasDockerfile records whether a Dockerfile* exists, and nothing else depends on it. */
  lemma AnalyzeDockerfileIndependent(facts: RepoFacts, dockerfile: bool)
    ensures Analyze(facts).hasDockerfile == facts.dockerfile
    ensures Analyze(facts.(dockerfile := dockerfile)) == Analyze(facts).(hasDockerfile := dockerfile)
  {
    if facts.csproj {
    } else if facts.packageJson {
    } else if facts.goMod {
    } else if PythonMarker(facts) {
    } else if facts.pomXml {
    } else if GradleMarker(facts) {
    }
  }

  /** A .NET repository gets exactly restore, build and test. */
  lemma AnalyzeDotNet(facts: RepoFacts)
    requires facts.csproj
    ensures Analyze(facts).language == DotNet
    ensures Analyze(facts).suggestedBuildCommands == ["dotnet restore", "dotnet build", "dotnet test"]
  {
  }

  /**
   * A Node.js repository always gets `npm install` first, and `npm test` after
   * it exactly when package.json has a string scripts.test; an unreadable
   * package.json gives `npm install` alone.
   */
  lemma AnalyzeNode(facts: RepoFacts)
    requires !facts.csproj && facts.packageJson
    ensures var commands := Analyze(facts).suggestedBuildCommands;
      && Analyze(facts).language == NodeJs
      && |commands| > 0 && commands[0] == "npm install"
      && ("npm test" in commands <==> HasTestScript(facts.firstPackageJson))
      && (HasTestScript(facts.firstPackageJson) ==> commands == ["npm install", "npm test"])
      && (!HasTestScript(facts.firstPackageJson) ==> commands == ["npm install"])
  {
    var commands := Analyze(facts).suggestedBuildCommands;
    if !HasTestScript(facts.firstPackageJson) {
      assert commands == ["npm install"];
      assert "npm install" != "npm test";
    }
  }

  /** A Go repository gets exactly build and test of all packages. */
  lemma AnalyzeGo(facts: RepoFacts)
    requires !facts.csproj && !facts.packageJson && facts.goMod
    ensures Analyze(facts).language == Go
    ensures Analyze(facts).suggestedBuildCommands == ["go build", "go test ./..."]
  {
  }

  /** Any one of requirements.txt, setup.py and pyproject.toml selects Python. */
  lemma AnalyzePython(facts: RepoFacts)
    requires !facts.csproj && !facts.packageJson && !facts.goMod
    ensures Analyze(facts).language == Python <==> PythonMarker(facts)
    ensures PythonMarker(facts) ==>
      Analyze(facts).suggestedBuildCommands == ["pip install -r requirements.txt", "pytest"]
  {
  }

  /** pom.xml wins over Gradle files; Gradle is chosen only when pom.xml is absent. */
  lemma AnalyzeMavenOverGradle(facts: RepoFacts)
    requires !facts.csproj && !facts.packageJson && !facts.goMod && !PythonMarker(facts)
    ensures facts.pomXml ==>
      Analyze(facts).framework == Some("Maven") &&
      Analyze(facts).suggestedBuildCommands == ["mvn clean install", "mvn test"]
    ensures Analyze(facts).framework == Some("Gradle") <==> !facts.pomXml && GradleMarker(facts)
    ensures Analyze(facts).framework == Some("Gradle") ==>
      Analyze(facts).suggestedBuildCommands == ["gradle build", "gradle test"]
  {
  }
}
