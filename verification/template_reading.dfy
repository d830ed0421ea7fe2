/**
 * Readers for the generated pipeline files, and the properties of the
 * generators stated through them: which jobs and stages a generated file
 * declares, and what each one runs, read back from the lines alone.
 */
module TemplateReading {
  import opened Wrappers
  import opened Text
  import opened Analyzer
  import opened Template

  // ---------------------------------------------------------------------------
  // Line readers
  // ---------------------------------------------------------------------------

  /** The lines after the first line equal to `header`; None when no line is. */
  function After(lines: seq<string>, header: string): (rest: Option<seq<string>>)
    ensures rest.None? <==> header !in lines
  {
    if |lines| == 0 then None
    else if lines[0] == header then Some(lines[1..])
    else
      assert lines == [lines[0]] + lines[1..];
      After(lines[1..], header)
  }

  /** The leading lines that start with `indent`, with the indent removed. */
  function Entries(lines: seq<string>, indent: string): (entries: seq<string>)
  {
    if |lines| > 0 && StartsWith(lines[0], indent) then [lines[0][|indent|..]] + Entries(lines[1..], indent)
    else []
  }

  /** The lines that satisfy `keep`, in order. */
  function Filter(keep: string -> bool, lines: seq<string>): (kept: seq<string>)
    ensures |kept| <= |lines|
    ensures forall k :: 0 <= k < |kept| ==> keep(kept[k])
  {
    if |lines| == 0 then []
    else (if keep(lines[0]) then [lines[0]] else []) + Filter(keep, lines[1..])
  }

  lemma {:induction false} FilterAppend(keep: string -> bool, a: seq<string>, b: seq<string>)
    ensures Filter(keep, a + b) == Filter(keep, a) + Filter(keep, b)
  {
    if |a| == 0 {
      assert a + b == b;
    } else {
      assert (a + b)[0] == a[0] && (a + b)[1..] == a[1..] + b;
      FilterAppend(keep, a[1..], b);
      Assoc(if keep(a[0]) then [a[0]] else [], Filter(keep, a[1..]), Filter(keep, b));
    }
  }

  lemma {:induction false} FilterNone(keep: string -> bool, lines: seq<string>)
    requires forall k :: 0 <= k < |lines| ==> !keep(lines[k])
    ensures Filter(keep, lines) == []
  {
    if |lines| > 0 {
      assert !keep(lines[0]);
      FilterNone(keep, lines[1..]);
    }
  }

  /** A kept line followed by lines that are all dropped filters to that line alone. */
  lemma FilterHead(keep: string -> bool, line: string, rest: seq<string>)
    requires keep(line)
    requires forall k :: 0 <= k < |rest| ==> !keep(rest[k])
    ensures Filter(keep, [line] + rest) == [line]
  {
    assert ([line] + rest)[1..] == rest;
    FilterNone(keep, rest);
  }

  lemma {:induction false} AfterSkips(before: seq<string>, rest: seq<string>, header: string)
    requires header !in before
    ensures After(before + rest, header) == After(rest, header)
  {
    if |before| > 0 {
      assert (before + rest)[0] == before[0];
      assert (before + rest)[1..] == before[1..] + rest;
      AfterSkips(before[1..], rest, header);
    } else {
      assert before + rest == rest;
    }
  }

  lemma {:induction false} EntriesOfPrefixed(indent: string, xs: seq<string>, rest: seq<string>)
    ensures Entries(PrefixEach(indent, xs) + rest, indent) == xs + Entries(rest, indent)
  {
    if |xs| == 0 {
      assert PrefixEach(indent, xs) + rest == rest;
    } else {
      var lines := PrefixEach(indent, xs) + rest;
      assert lines[0] == indent + xs[0];
      assert lines[0][..|indent|] == indent;
      assert lines[0][|indent|..] == xs[0];
      assert lines[1..] == PrefixEach(indent, xs[1..]) + rest;
      EntriesOfPrefixed(indent, xs[1..], rest);
      assert xs == [xs[0]] + xs[1..];
    }
  }

  /** Lines that start with `indent` cannot be a header that does not. */
  lemma PrefixedLacks(indent: string, xs: seq<string>, header: string)
    requires !StartsWith(header, indent)
    ensures header !in PrefixEach(indent, xs)
  {
    var ys := PrefixEach(indent, xs);
    forall k | 0 <= k < |ys|
      ensures ys[k] != header
    {
      assert ys[k][..|indent|] == indent;
    }
  }

  // ---------------------------------------------------------------------------
  // GitLab CI
  // ---------------------------------------------------------------------------

  /** A job as read back from a GitLab CI file: its stage and its script lines. */
  datatype Job = Job(stage: string, script: seq<string>)

  /** The image named on the first line. */
  function ReadGitLabImage(lines: seq<string>): (image: Option<string>)
  {
    if |lines| > 0 && StartsWith(lines[0], "image: ") then Some(lines[0][7..]) else None
  }

  /** The entries of the `stages:` list. */
  function ReadGitLabStages(lines: seq<string>): (stages: seq<string>)
  {
    match After(lines, "stages:")
    case None => []
    case Some(rest) => Entries(rest, "  - ")
  }

  /** The job called `name`: the stage line and the script entries under its header. */
  function ReadGitLabJob(lines: seq<string>, name: string): (job: Option<Job>)
  {
    match After(lines, name + ":")
    case None => None
    case Some(rest) =>
      if |rest| >= 2 && StartsWith(rest[0], "  stage: ") && rest[1] == "  script:"
      then Some(Job(rest[0][9..], Entries(rest[2..], GitLabEntry)))
      else None
  }

  /** Whatever precedes it, the lines after the first occurrence of a header are those that follow it. */
  lemma ReadAfter(before: seq<string>, header: string, rest: seq<string>)
    requires header !in before
    ensures After(before + [header] + rest, header) == Some(rest)
  {
    Assoc(before, [header], rest);
    AfterSkips(before, [header] + rest, header);
    assert ([header] + rest)[1..] == rest;
  }

  /** The position of the first line equal to `line`, or |lines| when there is none. */
  function LineIndex(lines: seq<string>, line: string): (i: nat)
    ensures i <= |lines|
    ensures i < |lines| <==> line in lines
    ensures i < |lines| ==> lines[i] == line
    ensures forall k :: 0 <= k < i ==> lines[k] != line
  {
    if |lines| == 0 then 0
    else if lines[0] == line then 0
    else
      assert lines == [lines[0]] + lines[1..];
      1 + LineIndex(lines[1..], line)
  }

  /** A header no earlier line equals is found right after the lines before it. */
  lemma IndexOfFirst(before: seq<string>, header: string, rest: seq<string>)
    requires header !in before
    ensures LineIndex(before + [header] + rest, header) == |before|
  {
    assert (before + [header] + rest)[|before|] == header;
  }

  /** A job reads back as written, whatever follows it, when no earlier line is its header. */
  lemma ReadJobBlock(before: seq<string>, name: string, stage: string, script: seq<string>, after: seq<string>)
    requires name + ":" !in before
    ensures ReadGitLabJob(before + GitLabJob(name, stage, script) + after, name) == Some(Job(stage, script))
  {
    var body := ["  stage: " + stage, "  script:"] + PrefixEach(GitLabEntry, script) + [""];
    assert GitLabJob(name, stage, script) == [name + ":"] + body;
    Assoc(before, [name + ":"] + body, after);
    Assoc([name + ":"], body, after);
    Assoc(before, [name + ":"], body + after);
    ReadAfter(before, name + ":", body + after);
    JobBodyRead(stage, script, after);
  }

  /** A job's header is found where the job begins when no earlier line is its header. */
  lemma JobIndex(before: seq<string>, name: string, stage: string, script: seq<string>, after: seq<string>)
    requires name + ":" !in before
    ensures LineIndex(before + GitLabJob(name, stage, script) + after, name + ":") == |before|
  {
    var body := ["  stage: " + stage, "  script:"] + PrefixEach(GitLabEntry, script) + [""];
    assert GitLabJob(name, stage, script) == [name + ":"] + body;
    Assoc(before, [name + ":"] + body, after);
    Assoc([name + ":"], body, after);
    Assoc(before, [name + ":"], body + after);
    IndexOfFirst(before, name + ":", body + after);
  }

  /** The lines under a job's header give back its stage and its script. */
  lemma JobBodyRead(stage: string, script: seq<string>, after: seq<string>)
    ensures var rest := ["  stage: " + stage, "  script:"] + PrefixEach(GitLabEntry, script) + [""] + after;
      && |rest| >= 2 && StartsWith(rest[0], "  stage: ") && rest[1] == "  script:"
      && rest[0][9..] == stage && Entries(rest[2..], GitLabEntry) == script
  {
    var entries := PrefixEach(GitLabEntry, script);
    var rest := ["  stage: " + stage, "  script:"] + entries + [""] + after;
    assert rest[0] == "  stage: " + stage && rest[1] == "  script:";
    assert rest[0][..9] == "  stage: " && rest[0][9..] == stage;
    assert rest[2..] == entries + ([""] + after);
    EntriesOfPrefixed(GitLabEntry, script, [""] + after);
    assert Entries([""] + after, GitLabEntry) == [];
    assert script + [] == script;
  }

  /** A line that is not blank and does not begin with a space is not a line of a job other than its own header. */
  lemma JobLacksHeader(name: string, stage: string, script: seq<string>, header: string)
    requires header != name + ":" && |header| > 0 && header[0] != ' '
    ensures header !in GitLabJob(name, stage, script)
  {
    assert !StartsWith(header, GitLabEntry) by {
      assert |header| < |GitLabEntry| || header[..|GitLabEntry|][0] != GitLabEntry[0];
    }
    PrefixedLacks(GitLabEntry, script, header);
    assert ("  stage: " + stage)[0] == ' ';
    assert GitLabJob(name, stage, script) == [name + ":", "  stage: " + stage, "  script:"] + PrefixEach(GitLabEntry, script) + [""];
  }

  /** A line beginning with neither a space, `i` nor `s` is not a line of the header. */
  lemma HeaderLacks(analysis: RepoAnalysis, line: string)
    requires |line| > 0 && line[0] != ' ' && line[0] != 'i' && line[0] != 's'
    ensures line !in GitLabHeader(analysis)
  {
    assert !StartsWith(line, "  - ") by {
      assert |line| < 4 || line[..4][0] != ' ';
    }
    PrefixedLacks("  - ", GitLabStageNames(analysis.hasDockerfile), line);
    assert ("image: " + GitLabImage(analysis.language))[0] == 'i';
    assert "stages:"[0] == 's';
  }

  /** The GitLab file opens with the image: the language's own, or ubuntu:latest for an unknown language or Java. */
  lemma GitLabImageRead(analysis: RepoAnalysis)
    ensures ReadGitLabImage(GitLabCiLines(analysis)) == Some(GitLabImage(analysis.language))
    ensures var image := ReadGitLabImage(GitLabCiLines(analysis));
      && (analysis.language == DotNet ==> image == Some("mcr.microsoft.com/dotnet/sdk:8.0"))
      && (analysis.language == NodeJs ==> image == Some("node:18-alpine"))
      && (analysis.language == Go ==> image == Some("golang:1.21"))
      && (analysis.language == Python ==> image == Some("python:3.10"))
      && (analysis.language in {Unknown, Java} ==> image == Some("ubuntu:latest"))
  {
  }

  /** The jobs that follow the header. */
  function GitLabJobs(analysis: RepoAnalysis): (lines: seq<string>)
  {
    GitLabBuildJob(analysis.suggestedBuildCommands)
    + GitLabTestJob(analysis.language)
    + (if analysis.hasDockerfile then GitLabPackageAndDeploy() else [])
  }

  lemma GitLabCiSplit(analysis: RepoAnalysis)
    ensures GitLabCiLines(analysis) == GitLabHeader(analysis) + GitLabJobs(analysis)
  {
    var build := GitLabBuildJob(analysis.suggestedBuildCommands);
    var test := GitLabTestJob(analysis.language);
    var docker := if analysis.hasDockerfile then GitLabPackageAndDeploy() else [];
    Assoc(GitLabHeader(analysis), build, test);
    Assoc(GitLabHeader(analysis), build + test, docker);
  }

  /** The stages are always build and test, followed by package and deploy exactly when there is a Dockerfile. */
  lemma GitLabStagesRead(analysis: RepoAnalysis)
    ensures ReadGitLabStages(GitLabCiLines(analysis)) ==
      ["build", "test"] + (if analysis.hasDockerfile then ["package", "deploy"] else [])
  {
    var before := ["image: " + GitLabImage(analysis.language), ""];
    var entries := PrefixEach("  - ", GitLabStageNames(analysis.hasDockerfile));
    var tail := [""] + GitLabJobs(analysis);
    GitLabCiSplit(analysis);
    assert GitLabHeader(analysis) == before + ["stages:"] + entries + [""];
    Assoc(before + ["stages:"] + entries, [""], GitLabJobs(analysis));
    Assoc(before + ["stages:"], entries, tail);
    assert ("image: " + GitLabImage(analysis.language))[0] == 'i';
    assert "stages:" !in before;
    ReadAfter(before, "stages:", entries + tail);
    EntriesOfPrefixed("  - ", GitLabStageNames(analysis.hasDockerfile), tail);
    assert Entries(tail, "  - ") == [];
    assert GitLabStageNames(analysis.hasDockerfile) + [] == GitLabStageNames(analysis.hasDockerfile);
  }

  /**
   * The build job runs each suggested command verbatim and in order, or the
   * placeholder echo alone when there are none.
   */
  lemma GitLabBuildJobRead(analysis: RepoAnalysis)
    ensures ReadGitLabJob(GitLabCiLines(analysis), "build_job") == Some(Job("build", BuildScript(analysis.suggestedBuildCommands)))
    ensures |analysis.suggestedBuildCommands| > 0 ==> BuildScript(analysis.suggestedBuildCommands) == analysis.suggestedBuildCommands
    ensures |analysis.suggestedBuildCommands| == 0 ==> BuildScript(analysis.suggestedBuildCommands) == [NoBuildCommands]
  {
    var header := GitLabHeader(analysis);
    var build := GitLabBuildJob(analysis.suggestedBuildCommands);
    var test := GitLabTestJob(analysis.language);
    var docker := if analysis.hasDockerfile then GitLabPackageAndDeploy() else [];
    GitLabCiSplit(analysis);
    Assoc(build, test, docker);
    Assoc(header, build, test + docker);
    assert ("build_job" + ":")[0] == 'b';
    HeaderLacks(analysis, "build_job:");
    ReadJobBlock(header, "build_job", "build", BuildScript(analysis.suggestedBuildCommands), test + docker);
  }

  /** The test job runs the echo and then at most one command: the language's test command, if it has one. */
  lemma GitLabTestJobRead(analysis: RepoAnalysis)
    ensures ReadGitLabJob(GitLabCiLines(analysis), "test_job") == Some(Job("test", GitLabTestScript(analysis.language)))
    ensures var script := GitLabTestScript(analysis.language);
      && 1 <= |script| <= 2 && script[0] == RunningTests
      && (|script| == 2 <==> TestCommand(analysis.language).Some?)
      && (|script| == 2 ==> script[1] == TestCommand(analysis.language).value)
  {
    var header := GitLabHeader(analysis);
    var build := GitLabBuildJob(analysis.suggestedBuildCommands);
    var test := GitLabTestJob(analysis.language);
    var docker := if analysis.hasDockerfile then GitLabPackageAndDeploy() else [];
    GitLabCiSplit(analysis);
    Assoc(header, build + test, docker);
    Assoc(header, build, test);
    assert ("test_job" + ":")[0] == 't';
    assert ("build_job" + ":")[0] == 'b';
    HeaderLacks(analysis, "test_job:");
    JobLacksHeader("build_job", "build", BuildScript(analysis.suggestedBuildCommands), "test_job:");
    ReadJobBlock(header + build, "test_job", "test", GitLabTestScript(analysis.language), docker);
  }

  /** The lines before the package job: the header, the build job and the test job. */
  function GitLabCommonLines(analysis: RepoAnalysis): (lines: seq<string>)
  {
    GitLabHeader(analysis) + GitLabBuildJob(analysis.suggestedBuildCommands) + GitLabTestJob(analysis.language)
  }

  lemma GitLabCommonLacks(analysis: RepoAnalysis, name: string)
    requires name == "package_job" || name == "deploy_job"
    ensures name + ":" !in GitLabCommonLines(analysis)
    ensures GitLabCiLines(analysis) ==
      GitLabCommonLines(analysis) + (if analysis.hasDockerfile then GitLabPackageAndDeploy() else [])
  {
    var line := name + ":";
    assert line[0] == 'p' || line[0] == 'd';
    assert ("build_job" + ":")[0] == 'b';
    assert ("test_job" + ":")[0] == 't';
    HeaderLacks(analysis, line);
    JobLacksHeader("build_job", "build", BuildScript(analysis.suggestedBuildCommands), line);
    JobLacksHeader("test_job", "test", GitLabTestScript(analysis.language), line);
  }

  /** The package job appears exactly when there is a Dockerfile, with its fixed script. */
  lemma GitLabPackageJobRead(analysis: RepoAnalysis)
    ensures analysis.hasDockerfile ==>
      ReadGitLabJob(GitLabCiLines(analysis), "package_job") == Some(Job("package", GitLabPackageScript))
    ensures !analysis.hasDockerfile ==> ReadGitLabJob(GitLabCiLines(analysis), "package_job") == None
  {
    var before := GitLabCommonLines(analysis);
    GitLabCommonLacks(analysis, "package_job");
    if analysis.hasDockerfile {
      var deploy := GitLabJob("deploy_job", "deploy", GitLabDeployScript);
      assert GitLabCiLines(analysis) == before + GitLabJob("package_job", "package", GitLabPackageScript) + deploy;
      ReadJobBlock(before, "package_job", "package", GitLabPackageScript, deploy);
    } else {
      assert GitLabCiLines(analysis) == before;
    }
  }

  /** The deploy job appears exactly when there is a Dockerfile, with its fixed script. */
  lemma GitLabDeployJobRead(analysis: RepoAnalysis)
    ensures analysis.hasDockerfile ==>
      ReadGitLabJob(GitLabCiLines(analysis), "deploy_job") == Some(Job("deploy", GitLabDeployScript))
    ensures !analysis.hasDockerfile ==> ReadGitLabJob(GitLabCiLines(analysis), "deploy_job") == None
  {
    var before := GitLabCommonLines(analysis);
    GitLabCommonLacks(analysis, "deploy_job");
    if analysis.hasDockerfile {
      var package := GitLabJob("package_job", "package", GitLabPackageScript);
      var deploy := GitLabJob("deploy_job", "deploy", GitLabDeployScript);
      assert GitLabCiLines(analysis) == before + package + deploy + [];
      var header := "deploy_job" + ":";
      assert header[0] == 'd' && ("package_job" + ":")[0] == 'p';
      JobLacksHeader("package_job", "package", GitLabPackageScript, header);
      assert header !in before + package;
      ReadJobBlock(before + package, "deploy_job", "deploy", GitLabDeployScript, []);
    } else {
      assert GitLabCiLines(analysis) == before;
    }
  }

  /** build_job begins right after the header, and test_job right after build_job. */
  lemma GitLabCommonIndices(analysis: RepoAnalysis)
    ensures var lines := GitLabCiLines(analysis);
      var header := GitLabHeader(analysis);
      && LineIndex(lines, "build_job:") == |header|
      && LineIndex(lines, "test_job:") == |header| + |GitLabBuildJob(analysis.suggestedBuildCommands)|
  {
    var header := GitLabHeader(analysis);
    var build := GitLabBuildJob(analysis.suggestedBuildCommands);
    var test := GitLabTestJob(analysis.language);
    var docker := if analysis.hasDockerfile then GitLabPackageAndDeploy() else [];
    GitLabCiSplit(analysis);
    assert "build_job" + ":" == "build_job:" && "test_job" + ":" == "test_job:";
    assert "build_job:"[0] == 'b' && "test_job:"[0] == 't';
    HeaderLacks(analysis, "build_job:");
    HeaderLacks(analysis, "test_job:");
    JobLacksHeader("build_job", "build", BuildScript(analysis.suggestedBuildCommands), "test_job:");
    Assoc(build, test, docker);
    Assoc(header, build, test + docker);
    JobIndex(header, "build_job", "build", BuildScript(analysis.suggestedBuildCommands), test + docker);
    Assoc(header + build, test, docker);
    JobIndex(header + build, "test_job", "test", GitLabTestScript(analysis.language), docker);
  }

  /** With a Dockerfile, package_job begins right after test_job, and deploy_job right after package_job. */
  lemma GitLabDockerIndices(analysis: RepoAnalysis)
    requires analysis.hasDockerfile
    ensures var lines := GitLabCiLines(analysis);
      var common := GitLabCommonLines(analysis);
      && LineIndex(lines, "package_job:") == |common|
      && LineIndex(lines, "deploy_job:") == |common| + |GitLabJob("package_job", "package", GitLabPackageScript)|
  {
    var common := GitLabCommonLines(analysis);
    var package := GitLabJob("package_job", "package", GitLabPackageScript);
    var deploy := GitLabJob("deploy_job", "deploy", GitLabDeployScript);
    assert "package_job" + ":" == "package_job:" && "deploy_job" + ":" == "deploy_job:";
    GitLabCommonLacks(analysis, "package_job");
    GitLabCommonLacks(analysis, "deploy_job");
    assert GitLabCiLines(analysis) == common + package + deploy;
    JobIndex(common, "package_job", "package", GitLabPackageScript, deploy);
    var deployHeader := "deploy_job" + ":";
    assert deployHeader[0] == 'd' && ("package_job" + ":")[0] == 'p';
    JobLacksHeader("package_job", "package", GitLabPackageScript, deployHeader);
    assert deployHeader !in common + package;
    assert GitLabCiLines(analysis) == common + package + deploy + [];
    JobIndex(common + package, "deploy_job", "deploy", GitLabDeployScript, []);
  }

  /**
   * The jobs come in pipeline order: build_job, then test_job, then, with a
   * Dockerfile, package_job and deploy_job.
   */
  lemma GitLabJobsInOrder(analysis: RepoAnalysis)
    ensures var lines := GitLabCiLines(analysis);
      LineIndex(lines, "build_job:") < LineIndex(lines, "test_job:") < |lines|
    ensures var lines := GitLabCiLines(analysis);
      analysis.hasDockerfile ==>
        LineIndex(lines, "test_job:") < LineIndex(lines, "package_job:") < LineIndex(lines, "deploy_job:") < |lines|
  {
    GitLabCommonIndices(analysis);
    GitLabCiSplit(analysis);
    if analysis.hasDockerfile {
      GitLabDockerIndices(analysis);
    }
  }

  /** A top-level key line of a YAML file: not blank and not indented. */
  predicate IsKey(line: string)
  {
    |line| > 0 && line[0] != ' '
  }

  /** The top-level key lines of a YAML file, in order. */
  function TopLevel(lines: seq<string>): (keys: seq<string>)
    ensures forall k :: 0 <= k < |keys| ==> IsKey(keys[k])
  {
    Filter(IsKey, lines)
  }

  /** Lines that begin with a space-led indent are never top-level keys. */
  lemma IndentedNotKeys(indent: string, xs: seq<string>)
    requires |indent| > 0 && indent[0] == ' '
    ensures forall k :: 0 <= k < |xs| ==> !IsKey(PrefixEach(indent, xs)[k])
  {
    forall k | 0 <= k < |xs|
      ensures !IsKey(PrefixEach(indent, xs)[k])
    {
      assert (indent + xs[k])[0] == ' ';
    }
  }

  /** A job contributes exactly one top-level key: its own header. */
  lemma TopLevelJob(name: string, stage: string, script: seq<string>)
    requires IsKey(name + ":")
    ensures TopLevel(GitLabJob(name, stage, script)) == [name + ":"]
  {
    var entries := PrefixEach(GitLabEntry, script);
    var body := ["  stage: " + stage, "  script:"] + entries + [""];
    assert GitLabJob(name, stage, script) == [name + ":"] + body;
    IndentedNotKeys(GitLabEntry, script);
    forall k | 0 <= k < |body|
      ensures !IsKey(body[k])
    {
      if k == 0 {
        assert body[k][0] == ' ';
      } else if k == 1 {
        assert body[k] == "  script:";
      } else if k < 2 + |script| {
        assert body[k] == entries[k - 2];
      } else {
        assert body[k] == "";
      }
    }
    FilterHead(IsKey, name + ":", body);
  }

  /** The header's top-level keys are the image line and `stages:`. */
  lemma TopLevelHeader(analysis: RepoAnalysis)
    ensures TopLevel(GitLabHeader(analysis)) == ["image: " + GitLabImage(analysis.language), "stages:"]
  {
    var image := "image: " + GitLabImage(analysis.language);
    var entries := PrefixEach("  - ", GitLabStageNames(analysis.hasDockerfile));
    assert GitLabHeader(analysis) == [image] + [""] + ["stages:"] + entries + [""];
    assert image[0] == 'i' && "stages:"[0] == 's';
    IndentedNotKeys("  - ", GitLabStageNames(analysis.hasDockerfile));
    FilterNone(IsKey, entries);
    FilterNone(IsKey, [""]);
    FilterHead(IsKey, image, []);
    FilterHead(IsKey, "stages:", []);
    assert [image] + [] == [image] && ["stages:"] + [] == ["stages:"];
    FilterAppend(IsKey, [image] + [""] + ["stages:"] + entries, [""]);
    FilterAppend(IsKey, [image] + [""] + ["stages:"], entries);
    FilterAppend(IsKey, [image] + [""], ["stages:"]);
    FilterAppend(IsKey, [image], [""]);
  }

  /** The keys of the header, build_job and test_job, which every file has. */
  lemma TopLevelCommon(analysis: RepoAnalysis)
    ensures TopLevel(GitLabCommonLines(analysis)) ==
      ["image: " + GitLabImage(analysis.language), "stages:", "build_job:", "test_job:"]
  {
    var header := GitLabHeader(analysis);
    var build := GitLabBuildJob(analysis.suggestedBuildCommands);
    var test := GitLabTestJob(analysis.language);
    assert "build_job" + ":" == "build_job:" && "test_job" + ":" == "test_job:";
    TopLevelHeader(analysis);
    TopLevelJob("build_job", "build", BuildScript(analysis.suggestedBuildCommands));
    TopLevelJob("test_job", "test", GitLabTestScript(analysis.language));
    FilterAppend(IsKey, header + build, test);
    FilterAppend(IsKey, header, build);
  }

  /** The keys of the package and deploy jobs. */
  lemma TopLevelPackageAndDeploy()
    ensures TopLevel(GitLabPackageAndDeploy()) == ["package_job:", "deploy_job:"]
  {
    assert "package_job" + ":" == "package_job:" && "deploy_job" + ":" == "deploy_job:";
    TopLevelJob("package_job", "package", GitLabPackageScript);
    TopLevelJob("deploy_job", "deploy", GitLabDeployScript);
    FilterAppend(IsKey, GitLabJob("package_job", "package", GitLabPackageScript), GitLabJob("deploy_job", "deploy", GitLabDeployScript));
  }

  /**
   * The generated line list's top-level keys are exactly the image, the stage list, build_job
   * and test_job, and, with a Dockerfile, package_job and deploy_job: there is
   * no other job, and no key is repeated or out of order.
   */
  lemma GitLabTopLevelKeys(analysis: RepoAnalysis)
    ensures TopLevel(GitLabCiLines(analysis)) ==
      ["image: " + GitLabImage(analysis.language), "stages:", "build_job:", "test_job:"]
      + (if analysis.hasDockerfile then ["package_job:", "deploy_job:"] else [])
  {
    var docker := if analysis.hasDockerfile then GitLabPackageAndDeploy() else [];
    GitLabCommonLacks(analysis, "package_job");
    TopLevelCommon(analysis);
    FilterAppend(IsKey, GitLabCommonLines(analysis), docker);
    if analysis.hasDockerfile {
      TopLevelPackageAndDeploy();
    } else {
      FilterNone(IsKey, docker);
    }
  }

  // ---------------------------------------------------------------------------
  // Jenkinsfile
  // ---------------------------------------------------------------------------

  const StagePrefix := "        stage('"

  /** The steps of the stage called `name`. */
  function ReadJenkinsStage(lines: seq<string>, name: string): (steps: Option<seq<string>>)
  {
    match After(lines, StageHeader(name))
    case None => None
    case Some(rest) =>
      if |rest| >= 1 && rest[0] == "            steps {" then Some(Entries(rest[1..], StepIndent)) else None
  }

  datatype Agent = AnyAgent | DockerAgent(image: string)

  /** The agent declared on the lines after `pipeline {`: `agent any`, or a closed `agent { docker { image '…' } }` block. */
  function ReadJenkinsAgent(lines: seq<string>): (agent: Option<Agent>)
  {
    if |lines| >= 2 && lines[1] == "    agent any" then Some(AnyAgent)
    else if |lines| >= 4 && lines[1] == "    agent {" && |lines[2]| >= 27
            && lines[2][..24] == "        docker { image '" && lines[2][|lines[2]| - 3..] == "' }"
            && lines[3] == "    }"
    then Some(DockerAgent(lines[2][24..|lines[2]| - 3]))
    else None
  }

  /** No line of `lines` begins like a stage header. */
  predicate NoStageHeaders(lines: seq<string>)
  {
    forall k :: 0 <= k < |lines| ==> !StartsWith(lines[k], StagePrefix)
  }

  /** A line too short for a stage header, or without its `s` at column 8, is not one. */
  lemma NotStageLine(line: string)
    requires |line| < |StagePrefix| || line[8] != 's'
    ensures !StartsWith(line, StagePrefix)
  {
    if |line| >= |StagePrefix| {
      assert line[..|StagePrefix|][8] == line[8];
      assert StagePrefix[8] == 's';
    }
  }

  lemma NoStageHeadersLacks(lines: seq<string>, name: string)
    requires NoStageHeaders(lines)
    ensures StageHeader(name) !in lines
  {
    var header := StageHeader(name);
    assert header[..|StagePrefix|] == StagePrefix;
  }

  lemma StageHeaderInjective(a: string, b: string)
    ensures StageHeader(a) == StageHeader(b) ==> a == b
  {
    var ha, hb := StageHeader(a), StageHeader(b);
    assert ha[|StagePrefix|..|ha| - 4] == a;
    assert hb[|StagePrefix|..|hb| - 4] == b;
  }

  /** A stage reads back as written, whatever follows it, when no earlier line is its header. */
  lemma ReadStageBlock(before: seq<string>, name: string, steps: seq<string>, after: seq<string>)
    requires StageHeader(name) !in before
    ensures ReadJenkinsStage(before + JenkinsStage(name, steps) + after, name) == Some(steps)
  {
    var header := StageHeader(name);
    var body := ["            steps {"] + PrefixEach(StepIndent, steps) + ["            }", "        }", ""];
    assert JenkinsStage(name, steps) == [header] + body;
    Assoc(before, [header] + body, after);
    Assoc([header], body, after);
    Assoc(before, [header], body + after);
    ReadAfter(before, header, body + after);
    StageBodyRead(steps, after);
  }

  /** The lines under a stage's header give back its steps. */
  lemma StageBodyRead(steps: seq<string>, after: seq<string>)
    ensures var rest := ["            steps {"] + PrefixEach(StepIndent, steps) + ["            }", "        }", ""] + after;
      && |rest| >= 1 && rest[0] == "            steps {"
      && Entries(rest[1..], StepIndent) == steps
  {
    var entries := PrefixEach(StepIndent, steps);
    var closing := ["            }", "        }", ""];
    var rest := ["            steps {"] + entries + closing + after;
    assert rest[0] == "            steps {";
    assert rest[1..] == entries + (closing + after);
    EntriesOfPrefixed(StepIndent, steps, closing + after);
    assert |"            }"| < |StepIndent|;
    assert Entries(closing + after, StepIndent) == [];
    assert steps + [] == steps;
  }

  /** A stage's header is found where the stage begins when no earlier line is its header. */
  lemma StageIndex(before: seq<string>, name: string, steps: seq<string>, after: seq<string>)
    requires StageHeader(name) !in before
    ensures LineIndex(before + JenkinsStage(name, steps) + after, StageHeader(name)) == |before|
  {
    var header := StageHeader(name);
    var body := ["            steps {"] + PrefixEach(StepIndent, steps) + ["            }", "        }", ""];
    assert JenkinsStage(name, steps) == [header] + body;
    Assoc(before, [header] + body, after);
    Assoc([header], body, after);
    Assoc(before, [header], body + after);
    IndexOfFirst(before, header, body + after);
  }

  /** The lines of one stage, other than its header, never begin like a stage header. */
  lemma StageBodyHasNoHeaders(name: string, steps: seq<string>)
    ensures NoStageHeaders(JenkinsStage(name, steps)[1..])
  {
    var closing := ["            }", "        }", ""];
    var body := JenkinsStage(name, steps)[1..];
    assert body == ["            steps {"] + PrefixEach(StepIndent, steps) + closing;
    forall k | 0 <= k < |body|
      ensures !StartsWith(body[k], StagePrefix)
    {
      if k == 0 {
        assert body[k] == "            steps {";
      } else if k < 1 + |steps| {
        assert body[k] == StepIndent + steps[k - 1];
      } else {
        assert body[k] == closing[k - 1 - |steps|];
      }
      NotStageLine(body[k]);
    }
  }

  lemma OtherStageLacks(name: string, steps: seq<string>, other: string)
    requires other != name
    ensures StageHeader(other) !in JenkinsStage(name, steps)
  {
    StageBodyHasNoHeaders(name, steps);
    NoStageHeadersLacks(JenkinsStage(name, steps)[1..], other);
    StageHeaderInjective(name, other);
    assert JenkinsStage(name, steps) == [StageHeader(name)] + JenkinsStage(name, steps)[1..];
  }

  function JenkinsPreamble(language: Language): (lines: seq<string>)
  {
    ["pipeline {"] + JenkinsAgent(language) + ["", "    stages {"]
  }

  lemma PreambleHasNoHeaders(language: Language)
    ensures NoStageHeaders(JenkinsPreamble(language))
  {
    var lines := JenkinsPreamble(language);
    forall k | 0 <= k < |lines|
      ensures !StartsWith(lines[k], StagePrefix)
    {
      match KnownImage(language)
      case Some(image) =>
        assert image != "";
        assert lines == ["pipeline {", "    agent {", "        docker { image '" + image + "' }", "    }", "", "    stages {"];
        assert ("        docker { image '" + image + "' }")[8] == 'd';
        NotStageLine(lines[k]);
      case None =>
        assert lines == ["pipeline {", "    agent any", "", "    stages {"];
        NotStageLine(lines[k]);
    }
  }

  function JenkinsDockerStages(hasDockerfile: bool): (lines: seq<string>)
  {
    if hasDockerfile then JenkinsStage("Package", JenkinsPackageSteps) + JenkinsStage("Deploy", JenkinsDeploySteps) else []
  }

  const JenkinsClosing := ["    }", "}"]

  lemma JenkinsSplit(analysis: RepoAnalysis)
    ensures JenkinsfileLines(analysis) ==
      JenkinsPreamble(analysis.language)
      + JenkinsStage("Build", JenkinsBuildSteps(analysis.suggestedBuildCommands))
      + JenkinsStage("Test", [JenkinsTestStep(analysis.language)])
      + JenkinsDockerStages(analysis.hasDockerfile)
      + JenkinsClosing
  {
  }

  /** The Build stage runs one `sh '<command>'` step per suggested command, in order, or the placeholder echo. */
  lemma JenkinsBuildStageRead(analysis: RepoAnalysis)
    ensures ReadJenkinsStage(JenkinsfileLines(analysis), "Build") == Some(JenkinsBuildSteps(analysis.suggestedBuildCommands))
    ensures var commands := analysis.suggestedBuildCommands;
      var steps := JenkinsBuildSteps(commands);
      && (|commands| > 0 ==> |steps| == |commands| && forall k :: 0 <= k < |commands| ==> steps[k] == "sh '" + commands[k] + "'")
      && (|commands| == 0 ==> steps == [NoBuildCommands])
  {
    var preamble := JenkinsPreamble(analysis.language);
    var build := JenkinsStage("Build", JenkinsBuildSteps(analysis.suggestedBuildCommands));
    var test := JenkinsStage("Test", [JenkinsTestStep(analysis.language)]);
    var docker := JenkinsDockerStages(analysis.hasDockerfile);
    JenkinsSplit(analysis);
    Assoc(preamble + build, test, docker);
    Assoc(preamble + build, test + docker, JenkinsClosing);
    PreambleHasNoHeaders(analysis.language);
    NoStageHeadersLacks(preamble, "Build");
    ReadStageBlock(preamble, "Build", JenkinsBuildSteps(analysis.suggestedBuildCommands), test + docker + JenkinsClosing);
  }

  /** The Test stage has exactly one step: the language's test command run with sh, or the echo. */
  lemma JenkinsTestStageRead(analysis: RepoAnalysis)
    ensures ReadJenkinsStage(JenkinsfileLines(analysis), "Test") == Some([JenkinsTestStep(analysis.language)])
    ensures TestCommand(analysis.language).Some? ==> JenkinsTestStep(analysis.language) == "sh '" + TestCommand(analysis.language).value + "'"
    ensures TestCommand(analysis.language).None? ==> JenkinsTestStep(analysis.language) == RunningTests
  {
    var preamble := JenkinsPreamble(analysis.language);
    var build := JenkinsStage("Build", JenkinsBuildSteps(analysis.suggestedBuildCommands));
    var test := JenkinsStage("Test", [JenkinsTestStep(analysis.language)]);
    var docker := JenkinsDockerStages(analysis.hasDockerfile);
    JenkinsSplit(analysis);
    Assoc(preamble + build + test, docker, JenkinsClosing);
    PreambleHasNoHeaders(analysis.language);
    NoStageHeadersLacks(preamble, "Test");
    OtherStageLacks("Build", JenkinsBuildSteps(analysis.suggestedBuildCommands), "Test");
    ReadStageBlock(preamble + build, "Test", [JenkinsTestStep(analysis.language)], docker + JenkinsClosing);
  }

  /** The stages before the Package stage lack the Package and Deploy headers. */
  lemma JenkinsCommonLacks(analysis: RepoAnalysis, name: string)
    requires name == "Package" || name == "Deploy"
    ensures StageHeader(name) !in
      JenkinsPreamble(analysis.language)
      + JenkinsStage("Build", JenkinsBuildSteps(analysis.suggestedBuildCommands))
      + JenkinsStage("Test", [JenkinsTestStep(analysis.language)])
  {
    PreambleHasNoHeaders(analysis.language);
    NoStageHeadersLacks(JenkinsPreamble(analysis.language), name);
    OtherStageLacks("Build", JenkinsBuildSteps(analysis.suggestedBuildCommands), name);
    OtherStageLacks("Test", [JenkinsTestStep(analysis.language)], name);
  }

  /** The Package stage appears exactly when there is a Dockerfile. */
  lemma JenkinsPackageStageRead(analysis: RepoAnalysis)
    ensures analysis.hasDockerfile ==>
      ReadJenkinsStage(JenkinsfileLines(analysis), "Package") == Some(JenkinsPackageSteps)
    ensures !analysis.hasDockerfile ==> ReadJenkinsStage(JenkinsfileLines(analysis), "Package") == None
  {
    var before := JenkinsPreamble(analysis.language)
      + JenkinsStage("Build", JenkinsBuildSteps(analysis.suggestedBuildCommands))
      + JenkinsStage("Test", [JenkinsTestStep(analysis.language)]);
    JenkinsSplit(analysis);
    JenkinsCommonLacks(analysis, "Package");
    NoStageHeadersLacks(JenkinsClosing, "Package");
    if analysis.hasDockerfile {
      var package := JenkinsStage("Package", JenkinsPackageSteps);
      var deploy := JenkinsStage("Deploy", JenkinsDeploySteps);
      assert JenkinsfileLines(analysis) == before + package + (deploy + JenkinsClosing);
      ReadStageBlock(before, "Package", JenkinsPackageSteps, deploy + JenkinsClosing);
    } else {
      assert JenkinsfileLines(analysis) == before + JenkinsClosing;
    }
  }

  /** The Deploy stage appears exactly when there is a Dockerfile. */
  lemma JenkinsDeployStageRead(analysis: RepoAnalysis)
    ensures analysis.hasDockerfile ==>
      ReadJenkinsStage(JenkinsfileLines(analysis), "Deploy") == Some(JenkinsDeploySteps)
    ensures !analysis.hasDockerfile ==> ReadJenkinsStage(JenkinsfileLines(analysis), "Deploy") == None
  {
    var before := JenkinsPreamble(analysis.language)
      + JenkinsStage("Build", JenkinsBuildSteps(analysis.suggestedBuildCommands))
      + JenkinsStage("Test", [JenkinsTestStep(analysis.language)]);
    JenkinsSplit(analysis);
    JenkinsCommonLacks(analysis, "Deploy");
    NoStageHeadersLacks(JenkinsClosing, "Deploy");
    if analysis.hasDockerfile {
      var package := JenkinsStage("Package", JenkinsPackageSteps);
      var deploy := JenkinsStage("Deploy", JenkinsDeploySteps);
      OtherStageLacks("Package", JenkinsPackageSteps, "Deploy");
      assert JenkinsfileLines(analysis) == before + package + deploy + JenkinsClosing;
      ReadStageBlock(before + package, "Deploy", JenkinsDeploySteps, JenkinsClosing);
    } else {
      assert JenkinsfileLines(analysis) == before + JenkinsClosing;
    }
  }

  /**
   * The stages come in pipeline order: Build, then Test, then, with a
   * Dockerfile, Package and Deploy.
   */
  lemma JenkinsStagesInOrder(analysis: RepoAnalysis)
    ensures var lines := JenkinsfileLines(analysis);
      LineIndex(lines, StageHeader("Build")) < LineIndex(lines, StageHeader("Test")) < |lines|
    ensures var lines := JenkinsfileLines(analysis);
      analysis.hasDockerfile ==>
        LineIndex(lines, StageHeader("Test")) < LineIndex(lines, StageHeader("Package"))
        < LineIndex(lines, StageHeader("Deploy")) < |lines|
  {
    var preamble := JenkinsPreamble(analysis.language);
    var build := JenkinsStage("Build", JenkinsBuildSteps(analysis.suggestedBuildCommands));
    var test := JenkinsStage("Test", [JenkinsTestStep(analysis.language)]);
    var docker := JenkinsDockerStages(analysis.hasDockerfile);
    JenkinsSplit(analysis);
    PreambleHasNoHeaders(analysis.language);
    NoStageHeadersLacks(preamble, "Build");
    NoStageHeadersLacks(preamble, "Test");
    OtherStageLacks("Build", JenkinsBuildSteps(analysis.suggestedBuildCommands), "Test");
    Assoc(preamble + build, test, docker);
    Assoc(preamble + build, test + docker, JenkinsClosing);
    StageIndex(preamble, "Build", JenkinsBuildSteps(analysis.suggestedBuildCommands), test + docker + JenkinsClosing);
    Assoc(preamble + build + test, docker, JenkinsClosing);
    StageIndex(preamble + build, "Test", [JenkinsTestStep(analysis.language)], docker + JenkinsClosing);
    if analysis.hasDockerfile {
      var before := preamble + build + test;
      var package := JenkinsStage("Package", JenkinsPackageSteps);
      var deploy := JenkinsStage("Deploy", JenkinsDeploySteps);
      JenkinsCommonLacks(analysis, "Package");
      JenkinsCommonLacks(analysis, "Deploy");
      OtherStageLacks("Package", JenkinsPackageSteps, "Deploy");
      assert JenkinsfileLines(analysis) == before + package + (deploy + JenkinsClosing);
      StageIndex(before, "Package", JenkinsPackageSteps, deploy + JenkinsClosing);
      assert JenkinsfileLines(analysis) == before + package + deploy + JenkinsClosing;
      StageIndex(before + package, "Deploy", JenkinsDeploySteps, JenkinsClosing);
    }
  }

  predicate IsStageLine(line: string)
  {
    StartsWith(line, StagePrefix)
  }

  /** The lines that begin like a stage header, in order. */
  function StageLines(lines: seq<string>): (headers: seq<string>)
    ensures forall k :: 0 <= k < |headers| ==> StartsWith(headers[k], StagePrefix)
  {
    Filter(IsStageLine, lines)
  }

  /** A stage contributes exactly one stage line: its own header. */
  lemma StageLinesOfStage(name: string, steps: seq<string>)
    ensures StageLines(JenkinsStage(name, steps)) == [StageHeader(name)]
  {
    var stage := JenkinsStage(name, steps);
    StageBodyHasNoHeaders(name, steps);
    assert stage == [StageHeader(name)] + stage[1..];
    assert StageHeader(name)[..|StagePrefix|] == StagePrefix;
    FilterHead(IsStageLine, StageHeader(name), stage[1..]);
  }

  /**
   * The generated Jenkinsfile lines that open a stage are exactly the headers of Build and Test
   * and, with a Dockerfile, Package and Deploy: there is no other stage, and
   * none is repeated or out of order.
   */
  lemma JenkinsStageLines(analysis: RepoAnalysis)
    ensures StageLines(JenkinsfileLines(analysis)) ==
      [StageHeader("Build"), StageHeader("Test")]
      + (if analysis.hasDockerfile then [StageHeader("Package"), StageHeader("Deploy")] else [])
  {
    var preamble := JenkinsPreamble(analysis.language);
    var build := JenkinsStage("Build", JenkinsBuildSteps(analysis.suggestedBuildCommands));
    var test := JenkinsStage("Test", [JenkinsTestStep(analysis.language)]);
    var docker := JenkinsDockerStages(analysis.hasDockerfile);
    JenkinsSplit(analysis);
    PreambleHasNoHeaders(analysis.language);
    FilterNone(IsStageLine, preamble);
    NotStageLine("    }");
    NotStageLine("}");
    FilterNone(IsStageLine, JenkinsClosing);
    StageLinesOfStage("Build", JenkinsBuildSteps(analysis.suggestedBuildCommands));
    StageLinesOfStage("Test", [JenkinsTestStep(analysis.language)]);
    FilterAppend(IsStageLine, preamble + build + test + docker, JenkinsClosing);
    FilterAppend(IsStageLine, preamble + build + test, docker);
    FilterAppend(IsStageLine, preamble + build, test);
    FilterAppend(IsStageLine, preamble, build);
    if analysis.hasDockerfile {
      StageLinesOfStage("Package", JenkinsPackageSteps);
      StageLinesOfStage("Deploy", JenkinsDeploySteps);
      FilterAppend(IsStageLine, JenkinsStage("Package", JenkinsPackageSteps), JenkinsStage("Deploy", JenkinsDeploySteps));
    } else {
      FilterNone(IsStageLine, docker);
    }
  }

  /**
   * The agent is a docker agent with the same image the GitLab file uses for
   * the four known languages, and `agent any` for every other language.
   */
  lemma JenkinsAgentRead(analysis: RepoAnalysis)
    ensures KnownImage(analysis.language).Some? ==>
      ReadJenkinsAgent(JenkinsfileLines(analysis)) == Some(DockerAgent(KnownImage(analysis.language).value))
      && ReadGitLabImage(GitLabCiLines(analysis)) == Some(KnownImage(analysis.language).value)
    ensures KnownImage(analysis.language).None? ==>
      ReadJenkinsAgent(JenkinsfileLines(analysis)) == Some(AnyAgent)
  {
    GitLabImageRead(analysis);
    var lines := JenkinsfileLines(analysis);
    match KnownImage(analysis.language)
    case Some(image) =>
      var line := "        docker { image '" + image + "' }";
      assert lines[1] == "    agent {" && lines[2] == line && lines[3] == "    }";
      assert line[..24] == "        docker { image '";
      assert line[|line| - 3..] == "' }";
      assert line[24..|line| - 3] == image;
    case None =>
      assert lines[1] == "    agent any";
  }

  /** The Jenkinsfile text begins with the line `pipeline {` and ends with the lines `    }` and `}`. */
  lemma JenkinsfileFraming(analysis: RepoAnalysis)
    ensures var text := GenerateJenkinsfile(analysis);
      && |text| >= 19
      && text[..11] == "pipeline {\n"
      && text[|text| - 8..] == "    }\n}\n"
  {
    var lines := JenkinsfileLines(analysis);
    var middle := lines[1..|lines| - 2];
    assert lines == ["pipeline {"] + middle + ["    }", "}"];
    UnlinesAppend(["pipeline {"] + middle, ["    }", "}"]);
    UnlinesAppend(["pipeline {"], middle);
    assert Unlines(["pipeline {"]) == "pipeline {\n";
    assert Unlines(["    }", "}"]) == "    }\n}\n";
  }

  // ---------------------------------------------------------------------------
  // Analyzer and generators together
  // ---------------------------------------------------------------------------

  /**
   * The GitLab build job of an analyzed repository runs exactly the commands
   * the analyzer suggested, and the placeholder only when no marker was found.
   */
  lemma AnalyzedBuildJob(facts: RepoFacts)
    ensures var analysis := Analyze(facts);
      var noMarker := FirstMarker(Markers(facts)) == |Stacks|;
      && (!noMarker ==> ReadGitLabJob(GitLabCiLines(analysis), "build_job") == Some(Job("build", analysis.suggestedBuildCommands)))
      && (noMarker ==> ReadGitLabJob(GitLabCiLines(analysis), "build_job") == Some(Job("build", [NoBuildCommands])))
  {
    AnalyzeFollowsPriority(facts);
    GitLabBuildJobRead(Analyze(facts));
  }
}
