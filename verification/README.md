# CI/CD pipeline services — a Dafny model

This project models the three pure layers of a small CI/CD helper service.

- **Execution** (`Execution` module, `execution.dfy`). `SplitCommand` breaks a command line on the space character. `Run` executes commands one after another on the host and stops at the first failure. `RunInContainer` probes for docker, then runs all commands as one `/bin/sh -c` script inside a container.
  - Processes are replaced by outcome oracles. `Run` takes one `Outcome` per command: exited with a code, or timed out, plus the lines each stream received. `RunInContainer` takes a `ProbeOutcome` and a `ContainerOutcome`.
  - Both return a `Report`. This is the service's `ExecutionResult` (exit code, stdout, stderr) together with the list of process starts attempted (program, argument string and working directory), so "no later command is started" can be stated.
- **Analysis** (`Analyzer` module, `analyzer.dfy`). `Analyze` maps the marker files a repository contains to a language, a framework name, a Dockerfile flag and suggested build commands. It works as a priority-ordered decision table. The file search and the package.json parse are represented by the booleans of `RepoFacts`.
- **Templates** (`Template` module, `template.dfy`). `GenerateGitLabCi` and `GenerateJenkinsfile` render an analysis as pipeline text. Each generator is given as the list of lines it appends (`GitLabCiLines`, `JenkinsfileLines`). The text is those lines, each ending in `"\n"` (`Text.Unlines`).
- **Template readers** (`TemplateReading` module, `template_reading.dfy`). These are the generators' partners. Small readers recover from a list of lines the image, the stage list, a named job's stage and script, a named Jenkins stage's steps, and the Jenkins agent. The lemmas state what each generated file declares in terms of what these readers find.
- `Text` (`text.dfy`) holds the line and string helpers with their round trips. `Wrappers` (`wrappers.dfy`) holds `Option`.

All paths below are under `Ci_Cd/Services/`.

## Model

| member | source | states |
|---|---|---|
| Execution.SplitCommand | Ci_Cd/Services/ExecutionService.cs:149-153 | every token is non-empty and free of spaces, and the tokens concatenated are the command with its spaces removed |
| Execution.SplitCommandJoin | Ci_Cd/Services/ExecutionService.cs:149-153 | tokens joined by single spaces split back into exactly the same tokens |
| Execution.SplitCommandAtSpace | Ci_Cd/Services/ExecutionService.cs:149-153 | every space is a token boundary: splitting at any one space gives the tokens of the part before it followed by those of the part after it |
| Execution.SplitCommandOneToken | Ci_Cd/Services/ExecutionService.cs:152 | a non-empty command with no space character is a single token, so tabs stay inside tokens |
| Execution.SplitCommandBlank | Ci_Cd/Services/ExecutionService.cs:16-17 | a command splits into nothing exactly when it consists of spaces only; such commands are skipped |
| Execution.InvocationKeepsTokens | Ci_Cd/Services/ExecutionService.cs:16-18 | the program started is the first token, and its argument string re-splits into the remaining tokens |
| Execution.RunStartsInDirectory | Ci_Cd/Services/ExecutionService.cs:18-25 | every process Run starts is given Run's working directory |
| Execution.FirstStop | Ci_Cd/Services/ExecutionService.cs:13-54 | locates the first non-blank command whose process times out or exits non-zero, or reports that there is none |
| Execution.RunStopsAtFirstFailure | Ci_Cd/Services/ExecutionService.cs:35-53 | at the first failing command, Run returns its exit code (-1 for a timeout) and the output of the commands started up to it; the processes started are exactly those up to and including it |
| Execution.RunCompletes | Ci_Cd/Services/ExecutionService.cs:13-58 | when every started command exits 0, Run returns 0; stdout and stderr are the captured lines of all started commands in order, each ending in a newline |
| Execution.RunCompletesLines | Ci_Cd/Services/ExecutionService.cs:28-58 | when no command fails, stdout and stderr read back line by line are exactly the captured lines of the started processes, in order |
| Execution.RunStopsLines | Ci_Cd/Services/ExecutionService.cs:28-53 | when the run stops at a command, stdout read back line by line is exactly the captured lines of the processes started up to and including it |
| Execution.RunSucceedsIff | Ci_Cd/Services/ExecutionService.cs:46-58 | Run's exit code is 0 exactly when no started command times out or exits non-zero |
| Execution.RunIgnoresLaterCommands | Ci_Cd/Services/ExecutionService.cs:46-53 | replacing everything after the first failing command, commands and outcomes alike, leaves the report unchanged |
| Execution.RunTimeoutDiagnostic | Ci_Cd/Services/ExecutionService.cs:36-44 | a timeout gives exit code -1, and stderr ends with the line `Command timed out: <cmd>` |
| Execution.RunBlankCommands | Ci_Cd/Services/ExecutionService.cs:13-58 | an empty or all-blank command list starts nothing and gives exit code 0 with empty stdout and stderr |
| Execution.EscapeQuotes | Ci_Cd/Services/ExecutionService.cs:64 | every double quote in the escaped command is immediately preceded by a backslash |
| Execution.UnescapeEscapeQuotes | Ci_Cd/Services/ExecutionService.cs:64 | undoing the quote escaping recovers the original command |
| Execution.ContainerScriptQuotesEscaped | Ci_Cd/Services/ExecutionService.cs:64 | every double quote in the container script is immediately preceded by a backslash |
| Execution.ContainerScriptRoundTrip | Ci_Cd/Services/ExecutionService.cs:64 | undoing the escaping in the script gives exactly the commands joined by ` && `, in order |
| Execution.ContainerProbeFailure | Ci_Cd/Services/ExecutionService.cs:77-104 | a probe that does not start, exits non-zero or throws gives -2 with empty stdout and the probe's message; only the probe is started, with no working directory of its own, whatever the run would have done |
| Execution.ContainerRunAfterProbe | Ci_Cd/Services/ExecutionService.cs:106-146 | after a good probe, one `docker run` is started, with no working directory of its own, mounting the directory at /work and running the script; a start failure gives -1 with the message, a timeout gives -1 with stderr ending in `Container command timed out`, and otherwise the exit code is returned verbatim |
| Text.LinesOfUnlines | Ci_Cd/Services/ExecutionService.cs:56-57 | text built by appending newline-free lines splits back into exactly those lines |
| Text.UnlinesLinesOf | Ci_Cd/Services/ExecutionService.cs:56-57 | text that is empty or ends in a newline is rebuilt exactly from its lines |
| Analyzer.FirstMarker | Ci_Cd/Services/AnalyzerService.cs:22-92 | gives the first marker present in priority order, or one past the last when none is present |
| Analyzer.AnalyzeFollowsPriority | Ci_Cd/Services/AnalyzerService.cs:12-94 | exactly one stack is chosen: that of the first marker present in the order .csproj, package.json, go.mod, Python files, pom.xml, Gradle files, always with at least one command; with no marker the defaults are kept and no commands are added |
| Analyzer.AnalyzeDockerfileIndependent | Ci_Cd/Services/AnalyzerService.cs:15-19 | HasDockerfile is true exactly when a Dockerfile* exists, and it affects no other field |
| Analyzer.AnalyzeDotNet | Ci_Cd/Services/AnalyzerService.cs:22-29 | a .csproj gives DotNet with exactly restore, build, test |
| Analyzer.AnalyzeNode | Ci_Cd/Services/AnalyzerService.cs:30-61 | Node.js always gets `npm install` first; `npm test` follows exactly when scripts is an object with a string test; an unreadable package.json gives `npm install` alone |
| Analyzer.AnalyzeGo | Ci_Cd/Services/AnalyzerService.cs:62-68 | go.mod gives Go with exactly `go build`, `go test ./...` |
| Analyzer.AnalyzePython | Ci_Cd/Services/AnalyzerService.cs:69-77 | Python is chosen exactly when one of its three marker files exists, with pip install and pytest |
| Analyzer.AnalyzeMavenOverGradle | Ci_Cd/Services/AnalyzerService.cs:78-92 | pom.xml wins over Gradle files with the mvn commands; Gradle is chosen only without pom.xml |
| Template.ShSteps | Ci_Cd/Services/TemplateService.cs:133-136 | one `sh '<cmd>'` step per command, unescaped and in order |
| TemplateReading.GitLabImageRead | Ci_Cd/Services/TemplateService.cs:13-22 | the GitLab file's first line names the language's image: mcr.microsoft.com/dotnet/sdk:8.0, node:18-alpine, golang:1.21 or python:3.10, and ubuntu:latest for an unknown language or Java |
| TemplateReading.GitLabStagesRead | Ci_Cd/Services/TemplateService.cs:26-35 | the stages read back are build and test, followed by package and deploy exactly when there is a Dockerfile |
| TemplateReading.GitLabBuildJobRead | Ci_Cd/Services/TemplateService.cs:38-53 | build_job reads back as stage build, with the suggested commands verbatim and in order, or only the placeholder echo when there are none |
| TemplateReading.GitLabTestJobRead | Ci_Cd/Services/TemplateService.cs:56-77 | test_job reads back as stage test: the echo first, then the language's test command if it has one, and nothing else |
| TemplateReading.GitLabPackageJobRead | Ci_Cd/Services/TemplateService.cs:79-86 | package_job is found exactly when there is a Dockerfile, with its fixed script |
| TemplateReading.GitLabDeployJobRead | Ci_Cd/Services/TemplateService.cs:88-95 | deploy_job is found exactly when there is a Dockerfile, with its fixed script |
| TemplateReading.GitLabJobsInOrder | Ci_Cd/Services/TemplateService.cs:38-95 | the job headers appear in pipeline order: build_job, then test_job, then package_job and deploy_job when there is a Dockerfile |
| TemplateReading.GitLabTopLevelKeys | Ci_Cd/Services/TemplateService.cs:9-97 | the generated line list's top-level keys are exactly `image: …`, `stages:`, build_job and test_job, then package_job and deploy_job when there is a Dockerfile; the list holds no other job |
| TemplateReading.JenkinsAgentRead | Ci_Cd/Services/TemplateService.cs:106-124 | the agent reads back as a closed `agent { docker { image '…' } }` block with the same image the GitLab file uses for the four known languages, and as `agent any` otherwise |
| TemplateReading.JenkinsBuildStageRead | Ci_Cd/Services/TemplateService.cs:129-144 | the Build stage's steps are one `sh '<cmd>'` per suggested command in order, or the placeholder echo |
| TemplateReading.JenkinsTestStageRead | Ci_Cd/Services/TemplateService.cs:146-170 | the Test stage has exactly one step: the language's test command under sh, or the echo |
| TemplateReading.JenkinsPackageStageRead | Ci_Cd/Services/TemplateService.cs:172-180 | the Package stage is found exactly when there is a Dockerfile |
| TemplateReading.JenkinsDeployStageRead | Ci_Cd/Services/TemplateService.cs:181-188 | the Deploy stage is found exactly when there is a Dockerfile |
| TemplateReading.JenkinsStagesInOrder | Ci_Cd/Services/TemplateService.cs:129-188 | the stage headers appear in pipeline order: Build, then Test, then Package and Deploy when there is a Dockerfile |
| TemplateReading.JenkinsStageLines | Ci_Cd/Services/TemplateService.cs:100-193 | in the generated line list, the lines that open a stage are exactly the headers of Build and Test, then of Package and Deploy when there is a Dockerfile; the list holds no other stage |
| TemplateReading.JenkinsfileFraming | Ci_Cd/Services/TemplateService.cs:102-193 | the Jenkinsfile text begins with the line `pipeline {` and ends with the lines `    }` and `}`, each newline-terminated |
| TemplateReading.AnalyzedBuildJob | Ci_Cd/Services/TemplateService.cs:42-52 | for an analyzed repository, build_job runs exactly the analyzer's suggested commands, and the placeholder only when no marker was found |

## Left out

- How the output handlers cut a stream into lines is not modelled. A captured line is taken to hold no newline (`Execution.Captured`); `Execution.RunCompletesLines` and `Execution.RunStopsLines` require this of the outcomes.
- Execution.RunCompletesLines: speaks of the lines each outcome says were captured, not of everything the process wrote. `WaitForExit` with a timeout (ExecutionService.cs:35, 132) returns without waiting for the redirected streams to reach their end, so a handler can still append a line after the builders are read (lines 41-42, 50-51, 56-57). Such a line can be lost, or land in a later command's output. The model gives each command's captured lines to the builders whole and in command order.
- Execution.RunStopsLines: the same holds; a line that arrives late can be missing from the stopped run's stdout or appear after the failing command's lines.
- Process spawning, `Task.Run`, `WaitForExit`, `Kill` and the asynchronous output handlers are not modelled. Each process is an outcome oracle that gives its exit code or timeout and the lines it wrote to each stream, so interleaving between the two streams is not modelled. This covers only part of the late-output gap above: lines arriving after `WaitForExit` returns can also cross from one command into the next.
- `Run` does not catch a failure of `p.Start()` (ExecutionService.cs:31). Such an exception leaves the service, so the model has no spawn-failure result for `Run`. `RunInContainer` does catch it, and that path is modelled.
- The docker probe call itself is an input (`ProbeOutcome`). A probe still running after its 2000 ms wait makes reading its exit code throw, and the model counts that case as `ProbeThrew`.
- The timeout is not modelled. Its conversion from `TimeSpan` to milliseconds is floating point, and whether a process times out is part of the oracle.
- The unused `containerCmd` string (ExecutionService.cs:65) is not modelled.
- Execution.InvocationKeepsTokens: the argument string is re-split with the service's own `SplitCommand`. How .NET turns the argument string into the process's argument list is not modelled; that parse honours quotes and backslashes and also breaks at tabs.
- Execution.ContainerScriptRoundTrip: the round trip is relative to undoing the quote escaping only. How .NET splits the argument string and how the shell then reads the script are not modelled.
- The filesystem search and the package.json parse in `Analyze` are not modelled. Their findings are the booleans and the `PackageJson` value of `RepoFacts`.
- `RepoAnalysisResult` is not part of this model. Its defaults are taken as: language `Unknown`, framework unset (`None`), HasDockerfile false, and an empty command list.
- Lines end in `"\n"`; the platform's `Environment.NewLine` is not modelled.
- The interfaces `ITemplateService` and `IExecutionService` are signatures only and are not modelled.
- TemplateReading.GitLabTopLevelKeys: holds for the generated line list, not for the text. A suggested command is written verbatim after `    - ` (TemplateService.cs:42-52), so a command containing a newline, such as `x\nevil_job:`, adds a top-level key to the text once it is joined. The claim carries to the text only when every suggested command is newline-free; then `Text.LinesOfUnlines` applies, and that lemma is not instantiated here for a whole file.
- TemplateReading.JenkinsStageLines: holds for the generated line list, not for the text. A suggested command is written verbatim inside `sh '…'` (TemplateService.cs:130-136), so a command containing a newline can add a `stage(` line to the text once it is joined. The claim carries to the text only when every suggested command is newline-free.
