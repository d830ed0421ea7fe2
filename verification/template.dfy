/**
 * The template service: renders an analysis as a GitLab CI file and as a
 * Jenkinsfile. Each generator is given as the list of lines it appends; the
 * text is those lines, each terminated by "\n".
 */
module Template {
  import opened Wrappers
  import opened Text
  import opened Analyzer

  /** The container image both generators use for a language, when they have one. */
  function KnownImage(language: Language): (image: Option<string>)
  {
    match language
    case DotNet => Some("mcr.microsoft.com/dotnet/sdk:8.0")
    case NodeJs => Some("node:18-alpine")
    case Go => Some("golang:1.21")
    case Python => Some("python:3.10")
    case _ => None
  }

  /** The GitLab image: the language's image, or ubuntu:latest for every other language. */
  function GitLabImage(language: Language): (image: string)
  {
    match KnownImage(language)
    case Some(image) => image
    case None => "ubuntu:latest"
  }

  /** The language's own test command, when it has one. */
  function TestCommand(language: Language): (command: Option<string>)
  {
    match language
    case DotNet => Some("dotnet test")
    case NodeJs => Some("npm test")
    case Go => Some("go test ./...")
    case Python => Some("pytest")
    case _ => None
  }

  const NoBuildCommands := "echo 'No build commands detected'"
  const RunningTests := "echo 'Running tests...'"

  /** The build commands a pipeline runs: the suggested ones, or a placeholder echo when there are none. */
  function BuildScript(commands: seq<string>): (script: seq<string>)
  {
    if |commands| > 0 then commands else [NoBuildCommands]
  }

  // ---------------------------------------------------------------------------
  // GitLab CI
  // ---------------------------------------------------------------------------

  const GitLabEntry := "    - "

  /** The stages the file declares: build and test, then package and deploy when there is a Dockerfile. */
  function GitLabStageNames(hasDockerfile: bool): (names: seq<string>)
  {
    ["build", "test"] + (if hasDockerfile then ["package", "deploy"] else [])
  }

  /** The image line, a blank line, and the `stages:` list with one `  - ` entry per stage. */
  function GitLabHeader(analysis: RepoAnalysis): (lines: seq<string>)
  {
    ["image: " + GitLabImage(analysis.language), "", "stages:"]
    + PrefixEach("  - ", GitLabStageNames(analysis.hasDockerfile))
    + [""]
  }

  /** A job: its name line, its stage, and one `    - ` entry per script line, then a blank line. */
  function GitLabJob(name: string, stage: string, script: seq<string>): (lines: seq<string>)
  {
    [name + ":", "  stage: " + stage, "  script:"] + PrefixEach(GitLabEntry, script) + [""]
  }

  function GitLabBuildJob(commands: seq<string>): (lines: seq<string>)
  {
    GitLabJob("build_job", "build", BuildScript(commands))
  }

  /** The test job's script: the echo, then the language's test command if it has one. */
  function GitLabTestScript(language: Language): (script: seq<string>)
  {
    [RunningTests] + (match TestCommand(language) case Some(t) => [t] case None => [])
  }

  function GitLabTestJob(language: Language): (lines: seq<string>)
  {
    GitLabJob("test_job", "test", GitLabTestScript(language))
  }

  const GitLabPackageScript := ["docker build -t myapp:latest .", "echo 'Docker image built successfully'"]

  const GitLabDeployScript := [
    "echo 'Deploy: tagging and pushing image to registry (requires CI_REGISTRY and credentials)'",
    "if [ -n \"$CI_REGISTRY\" ] && [ -n \"$CI_REGISTRY_IMAGE\" ]; then docker tag myapp:latest $CI_REGISTRY_IMAGE:latest && docker push $CI_REGISTRY_IMAGE:latest; else echo 'CI registry variables not set, skipping push'; fi",
    "if [ -n \"$KUBE_CONFIG_BASE64\" ]; then echo $KUBE_CONFIG_BASE64 | base64 -d > kubeconfig && KUBECONFIG=kubeconfig kubectl apply -f k8s/ || echo 'no k8s manifests or KUBE_CONFIG_BASE64 not set'; fi"]

  function GitLabPackageAndDeploy(): (lines: seq<string>)
  {
    GitLabJob("package_job", "package", GitLabPackageScript) + GitLabJob("deploy_job", "deploy", GitLabDeployScript)
  }

  /** The lines GenerateGitLabCi appends. */
  function GitLabCiLines(analysis: RepoAnalysis): (lines: seq<string>)
  {
    GitLabHeader(analysis)
    + GitLabBuildJob(analysis.suggestedBuildCommands)
    + GitLabTestJob(analysis.language)
    + (if analysis.hasDockerfile then GitLabPackageAndDeploy() else [])
  }

  function GenerateGitLabCi(analysis: RepoAnalysis): (text: string)
  {
    Unlines(GitLabCiLines(analysis))
  }

  // ---------------------------------------------------------------------------
  // Jenkinsfile
  // ---------------------------------------------------------------------------

  /** The indentation of a step inside `steps { ... }`. */
  const StepIndent := "                "

  /** A shell step running `command`, inserted without escaping. */
  function Sh(command: string): (step: string)
  {
    "sh '" + command + "'"
  }

  /** One `sh` step per command, in order. */
  function ShSteps(commands: seq<string>): (steps: seq<string>)
    ensures |steps| == |commands|
    ensures forall k :: 0 <= k < |commands| ==> steps[k] == Sh(commands[k])
  {
    if |commands| == 0 then [] else [Sh(commands[0])] + ShSteps(commands[1..])
  }

  function JenkinsAgent(language: Language): (lines: seq<string>)
  {
    match KnownImage(language)
    case Some(image) =>
      if image != "" then ["    agent {", "        docker { image '" + image + "' }", "    }"]
      else ["    agent any"]
    case None => ["    agent any"]
  }

  function StageHeader(name: string): (line: string)
  {
    "        stage('" + name + "') {"
  }

  /** A stage: its header, then its steps inside `steps { ... }`, then a blank line. */
  function JenkinsStage(name: string, steps: seq<string>): (lines: seq<string>)
  {
    [StageHeader(name), "            steps {"] + PrefixEach(StepIndent, steps)
    + ["            }", "        }", ""]
  }

  /** The Build stage's steps: one `sh` per command, or the placeholder echo when there are none. */
  function JenkinsBuildSteps(commands: seq<string>): (steps: seq<string>)
  {
    if |commands| > 0 then ShSteps(commands) else [NoBuildCommands]
  }

  /** The Test stage's single step: the language's test command, or the echo. */
  function JenkinsTestStep(language: Language): (step: string)
  {
    match TestCommand(language)
    case Some(t) => Sh(t)
    case None => RunningTests
  }

  const JenkinsPackageSteps := ["sh 'docker build -t myapp:latest .' ", "echo 'Docker image built successfully'"]

  const JenkinsDeploySteps := [
    "sh \"if [ -n '$DOCKER_REGISTRY' ]; then docker tag myapp:latest $DOCKER_REGISTRY/myapp:latest && docker push $DOCKER_REGISTRY/myapp:latest; else echo 'DOCKER_REGISTRY not set, skipping push'; fi\"",
    "sh \"if [ -n '$KUBE_CONFIG_BASE64' ]; then echo $KUBE_CONFIG_BASE64 | base64 -d > kubeconfig && KUBECONFIG=kubeconfig kubectl apply -f k8s/; else echo 'KUBE_CONFIG_BASE64 not set, skipping k8s apply'; fi\""]

  /** The lines GenerateJenkinsfile appends. */
  function JenkinsfileLines(analysis: RepoAnalysis): (lines: seq<string>)
  {
    ["pipeline {"] + JenkinsAgent(analysis.language) + ["", "    stages {"]
    + JenkinsStage("Build", JenkinsBuildSteps(analysis.suggestedBuildCommands))
    + JenkinsStage("Test", [JenkinsTestStep(analysis.language)])
    + (if analysis.hasDockerfile
       then JenkinsStage("Package", JenkinsPackageSteps) + JenkinsStage("Deploy", JenkinsDeploySteps)
       else [])
    + ["    }", "}"]
  }

  function GenerateJenkinsfile(analysis: RepoAnalysis): (text: string)
  {
    Unlines(JenkinsfileLines(analysis))
  }
}
