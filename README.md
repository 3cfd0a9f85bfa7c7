# pipeliner in Dafny

A model of the core of *pipeliner*, a Jenkins-style pipeline
DSL written in Rust. The repository holds two code bases, and both are modelled:

- the single `src/` crate, *rustline*:
  - the pipeline definition with its validators;
  - the local, container, Docker and Podman executors;
  - the `sh` variable expansion;
  - the GitHub Actions and GitLab CI translators;
  - the `export`, `lint` and `doc` commands;
  - plugins, shared libraries, metrics and Jenkins paths;
- the `crates/` workspace, *pipeliner*:
  - the core pipeline model, including matrix expansion and validation;
  - the executor: the step interpreter over an execution context, the sequential and matrix strategies, and the local executor;
  - the worker's job queue and execution state;
  - the event types and the in-memory event and snapshot stores;
  - the infrastructure crate's shared types.

Each Rust source file of the core has its own module. Its `.dfy` file is named after it:

- `rustline_*` for `src/`;
- `core_*`, `exec_*`, `worker_*`, `events_*` and `infra_*` for the crates.

Files ending in `_props` hold the lemmas about a module. The shared modules are:

- `Wrappers`: `Option` and `Result`;
- `Strings`: the Rust string operations the code uses;
- `Assoc`: association lists standing for `HashMap`s;
- `TextLines`: texts built from whole lines;
- `Durations`, `JsonValues` and `Oracles`.

How the modules are built:

- Pure code becomes datatypes, functions and lemmas.
- Code that updates state in place becomes methods.
- An object updated through `&mut self` becomes a class: the execution context, the validation path, the job queue, the execution state, the registries and the event stores.
- Each method is proved against a specification function, either of the object's state or of the whole computation. The lemmas are stated about those functions.
- The renderers (GitHub, GitLab, export, lint, doc) append to a string. Each is specified by the list of lines it writes.
- The executors' loops are specified by functions named `…Run`.

The outside world enters the executors as an *oracle*: an answer function fixed in advance plus a log of every question asked. The oracles stand for:

- the shell and container processes;
- the Podman socket;
- the clock;
- the file system;
- whether a step met its deadline.

The executors' contracts therefore also state the exact sequence of processes started, requests sent and clock readings taken.

The code and the project's own description of it disagree in one place. The description says that in `crates/pipeliner-executor/src/runtime.rs` a `Retry(2)` around a failing shell command runs it three times. The code retries only when the inner step returns an `Err`, and a failing command returns `Ok` with a failure status. A `Retry` around a failing shell command therefore runs it once. The model follows the code: `ExecRuntime.ExecuteRetry` and `ExecRuntimeProps.RetrySemantics`.

Where the code does something its authors evidently did not intend (see "## Findings"), the operations follow the code as written. A corrected reference definition sits beside each, with the intended property proved about it and a lemma relating the two:

- the GitLab translator renders rules with `RuleAsWritten` and lists stages with `StageListAsWritten`; `Rule` and `StageList` are the corrected ones;
- `export` writes the Jenkinsfile as `JenkinsLinesAsWritten`; `JenkinsLines` is corrected;
- `lint`'s P002 check reports `TimeoutLineAsWritten`; `StageLine` is corrected;
- the matrix strategy counts cells with `CellsRun`; `CellsRunIntended` is corrected.

The one exception is the Podman reply split, where the code as written panics. Runs use the corrected `SplitResponse`, and "## Left out" says so.

## Model

| member | source | states |
|---|---|---|
| RustlineTypes.ExactlyOnePredicate | src/pipeline/types.rs:28-52 | exactly one of `is_success`, `is_failure`, `is_unstable`, `is_skipped` holds for every result, and `is_success` holds only for `Success` |
| RustlineTypes.Display | src/pipeline/types.rs:54-63 | the display text is the upper-case result name, at least seven characters long |
| RustlineTypes.DisplayInjective | src/pipeline/types.rs:54-63 | two results with the same display text are the same result |
| RustlineSteps.NewStep | src/pipeline/steps.rs:179-185 | `Step::new` keeps the kind and sets neither name nor timeout |
| RustlineSteps.WithName | src/pipeline/steps.rs:188-191 | `with_name` sets the name and leaves kind and timeout unchanged |
| RustlineSteps.WithTimeout | src/pipeline/steps.rs:194-197 | `with_timeout` sets the timeout and leaves kind and name unchanged |
| RustlineSteps.RetryStep | src/pipeline/steps.rs:91-96 | `retry(count, step)` wraps the step unchanged with its count |
| RustlineSteps.TimeoutStep | src/pipeline/steps.rs:99-104 | `timeout(duration, step)` wraps the step unchanged with its duration |
| RustlineSteps.InputType | src/pipeline/steps.rs:120-125 | an input step built by `input` has no default answer |
| RustlineSteps.InputWithDefaultType | src/pipeline/steps.rs:128-133 | `input_with_default` keeps the message and the default answer |
| RustlineSteps.StepDisplayNamed | src/pipeline/steps.rs:240-247 | a step's display starts with "Step(" exactly when the step has a name |
| RustlineSteps.TimeoutDisplaySeconds | src/pipeline/steps.rs:144-159 | a timeout of a whole number of seconds displays as "timeout(<n>s)" |
| RustlineAgent.ValidateDocker | src/pipeline/agent.rs:28-39 | a Docker config validates exactly when its image is non-empty |
| RustlineAgent.ValidateKubernetes | src/pipeline/agent.rs:72-83 | a Kubernetes config validates exactly when its image is non-empty |
| RustlineAgent.ValidatePodman | src/pipeline/agent.rs:136-152 | a Podman config fails on an empty image first, then on an empty socket path, and validates otherwise |
| RustlineAgent.Validate | src/pipeline/agent.rs:234-253 | an agent validates by its own config; `any` and `label` always validate |
| RustlineAgent.DockerAgent | src/pipeline/agent.rs:189-194 | `docker(image)` keeps the image and gives every other field its derived default |
| RustlineAgent.KubernetesAgent | src/pipeline/agent.rs:197-202 | `kubernetes(image)` keeps the image with empty namespace and container name |
| RustlineAgent.PodmanAgent | src/pipeline/agent.rs:206-211 | `podman(image)` keeps the image with empty socket path and API version |
| RustlineAgent.PodmanAgentInvalid | src/pipeline/agent.rs:206-211 | a Podman agent built by `podman(image)` never validates, whatever the image |
| RustlineAgent.ImageAgentsValid | src/pipeline/agent.rs:189-202 | a Docker or Kubernetes agent built from an image validates exactly when the image is non-empty |
| RustlineAgent.KubernetesAgentDisplay | src/pipeline/agent.rs:220-232 | a Kubernetes agent built by `kubernetes(image)` displays with an empty namespace |
| RustlinePost.Steps | src/pipeline/post.rs:73-81 | `steps()` returns the step list of every kind of post-condition |
| RustlinePost.ShouldExecuteRules | src/pipeline/post.rs:84-102 | always runs always; success only on Success; failure only on Failure; unstable on Unstable or Failure; changed when the result differs from the previous one |
| RustlinePost.SkippedTriggersOnlyAlwaysOrChanged | src/pipeline/post.rs:84-102 | a skipped stage triggers only `always` and `changed` post-conditions |
| RustlineOptions.Cron | src/pipeline/options.rs:45-50 | `Trigger::cron` keeps the expression and sets no timezone |
| RustlineOptions.CronWithTimezone | src/pipeline/options.rs:53-58 | `cron_with_timezone` keeps the expression and the timezone |
| RustlineOptions.UpstreamTrigger | src/pipeline/options.rs:70-75 | `upstream` keeps the projects and sets the threshold "SUCCESS" |
| RustlineOptions.ValidateTrigger | src/pipeline/options.rs:87-122 | a cron expression must be non-empty and have 5 or 6 space-separated fields; a poll interval must be positive; an upstream trigger must name a project; a manual trigger is always valid |
| RustlineOptions.CronValidIff | src/pipeline/options.rs:87-98 | a cron trigger is valid exactly when it is non-empty and holds four or five single spaces |
| RustlineOptions.NewBuildDiscarder | src/pipeline/options.rs:159-164 | `BuildDiscarder::new` keeps the build count and sets no day limit |
| RustlineOptions.WithDaysToKeep | src/pipeline/options.rs:169-172 | `with_days_to_keep` sets the day limit and keeps the build count |
| RustlineOptions.Minutes | src/pipeline/options.rs:182-184 | `minutes(m)` is a duration of 60·m seconds |
| RustlineOptions.Seconds | src/pipeline/options.rs:188-190 | `seconds(s)` is a duration of s seconds |
| RustlineOptions.WithTimeout | src/pipeline/options.rs:234-237 | `with_timeout` sets the timeout and changes no other option |
| RustlineOptions.WithRetry | src/pipeline/options.rs:241-244 | `with_retry` sets the retry count and changes no other option |
| RustlineOptions.WithSkipDefaultCheckout | src/pipeline/options.rs:248-251 | `with_skip_default_checkout` sets that flag and changes no other option |
| RustlineOptions.WithBuildDiscarder | src/pipeline/options.rs:255-258 | `with_build_discarder` sets the discarder and changes no other option |
| RustlineOptions.ValidateOptions | src/pipeline/options.rs:208-222 | a timeout under one whole second is `InvalidTimeout { 0 }`, checked first; then a retry count of 0 is `InvalidRetryCount { 0 }`; absent options pass |
| RustlineOptions.DefaultOptionsValid | src/pipeline/options.rs:127-143 | the default options validate |
| RustlineCore.Set | src/pipeline/mod.rs:50-53 | after `set`, the key maps to the new value and every other key is unchanged |
| RustlineCore.SetOverwrites | src/pipeline/mod.rs:50-59 | setting a key twice keeps only the second value |
| RustlineCore.ResolveStep | src/pipeline/mod.rs:67-90 | one round of the scan: it stops at no '$' or a final '$', skips a '$' not followed by '{', and otherwise goes on to the placeholder |
| RustlineCore.PlaceholderStep | src/pipeline/mod.rs:74-86 | the scan stops without a '}'; a defined variable replaces the text from the scan offset through the '}' and the offset moves past the value; an undefined one leaves the text and moves past the '}' |
| RustlineCore.ScanRound | src/pipeline/mod.rs:67-90 | the loop body computes exactly one round of the scan |
| RustlineCore.ScanPlaceholder | src/pipeline/mod.rs:73-87 | the placeholder half of the loop body computes exactly the placeholder step |
| RustlineCore.Resolve | src/pipeline/mod.rs:63-93 | the scanning loop returns the resolved text of its input |
| RustlineCore.ResolveNoDollar | src/pipeline/mod.rs:67 | text without '$' resolves to itself |
| RustlineCore.ResolveUndefinedKept | src/pipeline/mod.rs:82-84 | an undefined `${NAME}` stays in the text and the scan resumes after its '}' |
| RustlineCore.ResolveDropsPrefix | src/pipeline/mod.rs:79-80 | example, one input: as written, with X defined as "v", "a${X}b" resolves to "vb": the text between the scan offset and the '$' is dropped |
| RustlineCore.ResolveUnterminated | src/pipeline/mod.rs:74-86 | an unterminated `${` ends the scan and the text is returned as it is |
| RustlineCore.ResolveIntendedStep | src/pipeline/mod.rs:79-80 | one round of the corrected scan replaces a defined `${NAME}` from its own '$', keeping the text before it |
| RustlineCore.ResolveOnePlaceholder | src/pipeline/mod.rs:63-93 | as written, `prefix${NAME}rest` with NAME defined resolves to the value followed by `rest`, losing `prefix` |
| RustlineCore.ResolveIntendedOnePlaceholder | src/pipeline/mod.rs:63-93 | corrected, `prefix${NAME}rest` resolves to `prefix`, the value, then `rest` |
| RustlineCore.IntendedFirstRound | src/pipeline/mod.rs:67-90 | the first round of the corrected scan over `prefix${NAME}rest` replaces the placeholder and moves past the value |
| RustlineCore.StepAtFirstPlaceholder | src/pipeline/mod.rs:67-75 | with the first '$' opening a "${", the first round as written goes on to the placeholder with the scan offset 0 |
| RustlineCore.IntendedStepAtFirstPlaceholder | src/pipeline/mod.rs:67-75 | with the first '$' opening a "${", the intended first round goes on to the placeholder from the '$' |
| RustlineCore.PlaceholderReplaced | src/pipeline/mod.rs:76-80 | the round meeting a defined placeholder rewrites from the scan offset through the '}' and resumes after the value |
| RustlineCore.PlaceholderDropsPrefix | src/pipeline/mod.rs:77-80 | rewriting from offset 0, the round keeps only the value and the text after the '}' |
| RustlineCore.PlaceholderKeepsPrefix | src/pipeline/mod.rs:77-80 | in the corrected scan, which rewrites from the '$', the round keeps the text before the placeholder in front of the value |
| RustlineCore.RestUntouched | src/pipeline/mod.rs:67 | once the offset is past the last '$', both scans stop and keep the text |
| RustlineCore.AddBoolean | src/pipeline/mod.rs:126-129 | `boolean` adds one boolean parameter and changes nothing else |
| RustlineCore.AddString | src/pipeline/mod.rs:133-148 | `string` and `string_with_default` add one string parameter; the default is ignored |
| RustlineCore.AddChoice | src/pipeline/mod.rs:152-155 | `choice` adds one choice parameter and changes nothing else |
| RustlineCore.FirstInvalid | src/pipeline/mod.rs:164-192 | the first name that is not valid is returned, and every earlier name is valid |
| RustlineCore.ValidateParameters | src/pipeline/mod.rs:164-192 | boolean, then string, then choice names are checked; the first invalid one is reported, and the parameters pass exactly when all names are valid |
| RustlineCore.AddAxis | src/pipeline/mod.rs:229-235 | `add_axis` appends one axis |
| RustlineCore.AddExclude | src/pipeline/mod.rs:239-242 | `add_exclude` appends one exclusion rule |
| RustlineCore.WithValues | src/pipeline/mod.rs:256-260 | one combination extended by each value of the axis, in value order |
| RustlineCore.Extend | src/pipeline/mod.rs:253-262 | every current combination extended by every value of the axis, earlier combinations first; the size multiplies |
| RustlineCore.ExtendMembers | src/pipeline/mod.rs:253-262 | a combination is in the extension exactly when it is a current combination plus one value of the axis |
| RustlineCore.ProductMembers | src/pipeline/mod.rs:251-262 | the product holds exactly the combinations that pick one value per axis, in axis order |
| RustlineCore.ProductSize | src/pipeline/mod.rs:251-262 | the product has as many combinations as the product of the axis sizes |
| RustlineCore.Filter | src/pipeline/mod.rs:264-283 | the kept combinations are, in their original order, those no exclusion rule matches completely |
| RustlineCore.Keep | src/pipeline/mod.rs:267-281 | the filter closure keeps a combination exactly when no rule has all its conditions among the combination's pairs |
| RustlineCore.ExtendLoop | src/pipeline/mod.rs:253-262 | one round of the axis loop computes the extension by that axis |
| RustlineCore.FilterLoop | src/pipeline/mod.rs:264-283 | the exclusion pass computes the filter |
| RustlineCore.GenerateCombinations | src/pipeline/mod.rs:246-284 | no axes give no combinations; otherwise the result is the product of the axes without the excluded combinations |
| RustlineCore.CombinationsNoExcludes | src/pipeline/mod.rs:246-284 | without exclusions the combinations are exactly the one-value-per-axis picks, as many as the product of the axis sizes |
| RustlineCore.FilterNone | src/pipeline/mod.rs:264-283 | with no exclusion rules the filter keeps every combination |
| RustlineCore.CombinationsMembers | src/pipeline/mod.rs:246-284 | a combination is generated exactly when it picks one value per axis and no exclusion rule matches all its conditions |
| RustlineCore.EmptyExclusionRemovesAll | src/pipeline/mod.rs:267-281 | an exclusion rule without conditions removes every combination |
| RustlineCore.ValidateMatrix | src/pipeline/mod.rs:290-304 | the matrix passes exactly when every axis has a name and at least one value; an unnamed axis is `InvalidNameChars("")`, an axis without values `InvalidAgentType` |
| RustlineStage.ValidateWhen | src/pipeline/stage.rs:98-135 | a condition validates exactly when no leaf has an empty branch, tag, variable name or expression; an environment condition validates exactly when its name is non-empty; every error is `InvalidNameChars` |
| RustlineStage.ValidateWhenList | src/pipeline/stage.rs:120-131 | the children of `all_of`/`any_of` pass exactly when all are valid; an error is that of the first invalid child |
| RustlineStage.ValidateStage | src/pipeline/stage.rs:171-209 | a stage validates exactly when it is well formed; an empty name is `EmptyName`, a name over 100 bytes `NameTooLong`, no steps, branches or matrix `EmptyStage`, then the agent, the condition, the branch stages and the matrix in that order |
| RustlineStage.ValidateBranchStages | src/pipeline/stage.rs:198-201 | the branch loop passes exactly when every branch's stage is valid; branch names are not looked at |
| RustlineStage.ValidateBranch | src/pipeline/mod.rs:319-324 | an unnamed branch is `EmptyName`; otherwise the branch validates as its stage does |
| RustlineStage.UnnamedBranchAccepted | src/pipeline/stage.rs:198-201 | a stage whose only branch is unnamed validates, although that branch on its own does not |
| RustlineStage.NewStage | src/pipeline/stage.rs:214-224 | `Stage::new` keeps name and steps and leaves agent, branches, matrix, condition and post-conditions empty |
| RustlineStage.WithAgent | src/pipeline/stage.rs:227-230 | `with_agent` sets the agent and changes nothing else |
| RustlineStage.WithParallel | src/pipeline/stage.rs:233-236 | `with_parallel` replaces the branch list and changes nothing else |
| RustlineStage.WithMatrix | src/pipeline/stage.rs:239-242 | `with_matrix` sets the matrix and changes nothing else |
| RustlineStage.WithWhen | src/pipeline/stage.rs:245-248 | `with_when` sets the condition and changes nothing else |
| RustlineStage.WithPost | src/pipeline/stage.rs:251-254 | `with_post` appends one post-condition at the end |
| RustlineStage.DisplayShape | src/pipeline/stage.rs:257-261 | the display is "Stage(<name>): <n> steps" with the stage's step count |
| RustlineStage.BuilderNew | src/pipeline/stage.rs:270-274 | `StageBuilder::new` starts from the named stage without steps |
| RustlineStage.BuilderAgent | src/pipeline/stage.rs:277-280 | `agent` sets the agent and changes nothing else |
| RustlineStage.BuilderWhen | src/pipeline/stage.rs:283-286 | `when` sets the condition and changes nothing else |
| RustlineStage.BuilderStep | src/pipeline/stage.rs:289-292 | `step` appends one step at the end |
| RustlineStage.BuilderSteps | src/pipeline/stage.rs:295-298 | `steps` appends the whole list in order |
| RustlineStage.BuilderPost | src/pipeline/stage.rs:301-304 | `post` appends one post-condition at the end |
| RustlineStage.Build | src/pipeline/stage.rs:308-311 | `build` returns the stage unchanged when it validates and its first error otherwise |
| RustlineStage.BuildUnchecked | src/pipeline/stage.rs:315-317 | `build_unchecked` returns the stage as it stands |
| RustlineStage.StepByStepIsSteps | src/pipeline/stage.rs:289-298 | adding steps one at a time or as a list gives the same stage |
| RustlineStage.SimpleStageValid | src/pipeline/stage.rs:171-209 | a stage with a non-empty step list, a short non-empty name and nothing else validates |
| RustlineStage.EmptyStageRejected | src/pipeline/stage.rs:183-188 | a stage with neither steps, branches nor matrix is rejected as `EmptyStage` naming the stage |
| RustlinePipeline.ValidateStages | src/pipeline/pipeline_def.rs:60-62 | the stage loop passes exactly when every stage is valid, and otherwise returns the first stage's error |
| RustlinePipeline.ValidateTriggers | src/pipeline/pipeline_def.rs:65-67 | the trigger loop passes exactly when every trigger is valid, and otherwise returns the first trigger's error |
| RustlinePipeline.Validate | src/pipeline/pipeline_def.rs:51-73 | agent, then `EmptyPipeline` for no stages, then each stage, each trigger and the options; the first error is returned and the pipeline passes exactly when it is well formed |
| RustlinePipeline.StageCount | src/pipeline/pipeline_def.rs:88-90 | `stage_count` is the number of stages |
| RustlinePipeline.DisplayUnnamed | src/pipeline/pipeline_def.rs:93-102 | an unnamed pipeline displays as "Pipeline(unnamed): <n> stages" |
| RustlinePipeline.BuilderNew | src/pipeline/pipeline_def.rs:112-125 | a fresh builder has no name, agent `any`, no stages, triggers or post-conditions and default options |
| RustlinePipeline.BuilderName | src/pipeline/pipeline_def.rs:128-131 | `name` sets the name and changes nothing else |
| RustlinePipeline.BuilderAgent | src/pipeline/pipeline_def.rs:134-137 | `agent` sets the agent and changes nothing else |
| RustlinePipeline.BuilderStage | src/pipeline/pipeline_def.rs:140-143 | `stage` appends one stage at the end |
| RustlinePipeline.BuilderStages | src/pipeline/pipeline_def.rs:146-149 | `stages` appends the whole list in order |
| RustlinePipeline.BuilderEnvironment | src/pipeline/pipeline_def.rs:152-158 | `environment(f)` replaces the environment by `f` of the current one |
| RustlinePipeline.BuilderWithEnvironment | src/pipeline/pipeline_def.rs:162-165 | `with_environment` replaces the environment |
| RustlinePipeline.BuilderParameters | src/pipeline/pipeline_def.rs:168-174 | `parameters(f)` replaces the parameters by `f` of the current ones |
| RustlinePipeline.BuilderWithParameters | src/pipeline/pipeline_def.rs:178-181 | `with_parameters` replaces the parameters |
| RustlinePipeline.BuilderTrigger | src/pipeline/pipeline_def.rs:184-187 | `trigger` appends one trigger at the end |
| RustlinePipeline.BuilderOptions | src/pipeline/pipeline_def.rs:190-193 | `options` replaces the options |
| RustlinePipeline.BuilderPost | src/pipeline/pipeline_def.rs:196-199 | `post` appends one post-condition at the end |
| RustlinePipeline.BuilderPosts | src/pipeline/pipeline_def.rs:203-206 | `posts` appends the list in order |
| RustlinePipeline.Build | src/pipeline/pipeline_def.rs:210-213 | `build` returns the pipeline unchanged when it validates and the first error otherwise |
| RustlinePipeline.BuildUnchecked | src/pipeline/pipeline_def.rs:217-219 | `build_unchecked` returns the pipeline as it stands |
| RustlinePipeline.EmptyBuilderRejected | src/pipeline/pipeline_def.rs:56-58 | a fresh builder without stages fails to build with `EmptyPipeline` |
| RustlinePipeline.OneStageBuilds | src/pipeline/pipeline_def.rs:51-73 | one valid stage is enough for a fresh builder to build |
| RustlinePlugins.NewShellCustom | src/pipeline/plugins.rs:72-79 | `ShellCustomStep::new` keeps name and command and describes itself by the command |
| RustlinePlugins.WithDescription | src/pipeline/plugins.rs:83-86 | `with_description` sets the description and changes nothing else |
| RustlinePlugins.Description | src/pipeline/plugins.rs:121-123 | a shell step's description is its own; an echo step describes itself by its name; success and fail steps by fixed text |
| RustlinePlugins.Execute | src/pipeline/plugins.rs:90-115 | a shell step succeeds exactly when its command ran and exited successfully; echo and success steps succeed; a fail step fails with `CommandFailed(-1, message)`; a closure step returns its outcome |
| RustlinePlugins.CustomStepRegistry.Register | src/pipeline/plugins.rs:37-40 | `register` stores the step under its own name, replacing an earlier step of that name, and changes no other entry |
| RustlinePlugins.CustomStepRegistry.Get | src/pipeline/plugins.rs:44-46 | `get` returns the step stored under the name, or nothing |
| RustlinePlugins.CustomStepRegistry.Names | src/pipeline/plugins.rs:56-58 | `names` lists every registered name exactly once |
| RustlinePlugins.SharedRegistry.Register | src/pipeline/plugins.rs:175-178 | the shared registry registers in its inner registry |
| RustlinePlugins.SharedRegistry.Get | src/pipeline/plugins.rs:182-185 | the shared registry looks up in its inner registry |
| RustlineLibrary.NewLibraryStep | src/pipeline/shared_library.rs:21-28 | `LibraryStep::new` copies the step's kind and has no parameters |
| RustlineLibrary.WithParameters | src/pipeline/shared_library.rs:51-54 | `with_parameters` replaces the parameter list |
| RustlineLibrary.NewLibrary | src/pipeline/shared_library.rs:66-72 | `SharedLibrary::new` has version "0.1.0" and no steps |
| RustlineLibrary.WithVersion | src/pipeline/shared_library.rs:75-78 | `with_version` sets the version and changes nothing else |
| RustlineLibrary.FromCrates | src/pipeline/shared_library.rs:80-84 | `from_crates` always fails |
| RustlineLibrary.FromGit | src/pipeline/shared_library.rs:86-90 | `from_git` always fails |
| RustlineLibrary.RegisterStep | src/pipeline/shared_library.rs:93-96 | `register_step` stores the step under its name, replacing a step of the same name |
| RustlineLibrary.GetStep | src/pipeline/shared_library.rs:99-101 | `get_step` returns the step stored under the name, or nothing |
| RustlineLibrary.GetAfterRegister | src/pipeline/shared_library.rs:93-101 | after registering, `get_step` finds the step by its name and every other name is unaffected |
| RustlineLibrary.NewLibraryEmpty | src/pipeline/shared_library.rs:66-72 | a fresh library holds no step |
| RustlinePlugins.CustomStepRegistry.constructor | src/pipeline/plugins.rs:30-34 | a new registry holds no step |
| RustlinePlugins.SharedRegistry.constructor | src/pipeline/plugins.rs:168-172 | a new shared registry wraps a fresh, empty registry |
| RustlineContext.DefaultCapabilities | src/executor/traits.rs:53-65 | the default capabilities are shell, timeout and retry only |
| RustlineContext.OperationalIff | src/executor/traits.rs:89-91 | an executor is out of operation exactly when it is unhealthy |
| RustlineContext.PipelineContext.constructor | src/executor/traits.rs:113-120 | a new context holds the process environment, the current directory, the given id and no stage results |
| RustlineContext.PipelineContext.SetEnv | src/executor/traits.rs:123-125 | `set_env` makes `get_env(key)` the value, keeps every other key, and changes nothing else |
| RustlineContext.PipelineContext.SetCwd | src/executor/traits.rs:134-136 | `set_cwd` changes only the working directory |
| RustlineContext.PipelineContext.RecordStageResult | src/executor/traits.rs:139-147 | `record_stage_result` makes `get_stage_result(stage)` the result, keeps every other stage, and changes nothing else |
| RustlinePaths.PathJoin | src/executor/temp_files.rs:382-394 | joining an absolute path gives that path; otherwise the result starts with the base |
| RustlinePaths.NewResolver | src/executor/temp_files.rs:382-394 | the resolver's directories are `@tmp`, `@libs` and `@script@libs` under the workspace |
| RustlinePaths.JoinTwice | src/executor/temp_files.rs:418-443 | joining in two steps or one gives the same path when neither part is absolute |
| RustlinePaths.ResolvePrefixed | src/executor/temp_files.rs:418-443 | "@tmp/x", "@libs/x" and "@script@libs/x" resolve to x under the temporary, library and script-library directories |
| RustlinePaths.TmpUnderWorkspace | src/executor/temp_files.rs:418-443 | "@tmp/x" lands where joining it to the workspace does |
| RustlinePaths.LibsUnderWorkspace | src/executor/temp_files.rs:418-443 | "@libs/x" lands where joining it to the workspace does |
| RustlinePaths.ScriptLibsUnderWorkspace | src/executor/temp_files.rs:418-443 | "@script@libs/x" lands where joining it to the workspace does |
| RustlinePaths.PlainPathUnderWorkspace | src/executor/temp_files.rs:418-443 | a path not starting with '@' is joined to the workspace |
| RustlinePaths.JenkinsPathShape | src/executor/temp_files.rs:447-449 | every path `is_jenkins_path` accepts starts with '@', and every "@tmp/" or "@libs/" path is accepted |
| RustlineShell.NameRun | src/executor/shell.rs:412-429 | the longest prefix made of name characters, as the pattern's name part matches it |
| RustlineShell.PlaceholderAt | src/executor/shell.rs:412-429 | a match at the start is `${`, a name and `}`, and the captured name is that name |
| RustlineShell.PlaceholderAtToken | src/executor/shell.rs:412-429 | every `${NAME}` at the start of the text is matched with that name |
| RustlineShell.ExpandToken | src/executor/shell.rs:412-429 | a placeholder becomes its value, or stays when unknown, and the rest is expanded; the value is never scanned again |
| RustlineShell.ExpandIdentity | src/executor/shell.rs:412-429 | text in which the pattern matches nowhere comes back unchanged |
| RustlineShell.ExpandWithoutDollarBrace | src/executor/shell.rs:412-429 | text without "${", bare `$VAR` included, comes back unchanged |
| RustlineShell.ExpandEmptyEnv | src/executor/shell.rs:412-429 | with an empty environment the text comes back unchanged |
| RustlineShell.Placeholders | src/executor/shell.rs:432-451 | the names the pattern captures in the text, each a valid name |
| RustlineShell.CollectFacts | src/executor/shell.rs:440-448 | the collected list holds exactly the earlier entries and the visited names that are environment keys, each once |
| RustlineShell.ExpandWithInfo | src/executor/shell.rs:432-451 | the text is expanded as by `expand_variables`, and the list holds, once each and in order of first occurrence, the environment keys still present as placeholders in the expanded text |
| RustlineShell.JenkinsBaseEnv | src/executor/shell.rs:467-509 | the eight Jenkins variables with their values: WORKSPACE, WORKSPACE_TMP "@tmp", BUILD_NUMBER, BUILD_ID, JOB_NAME, NODE_NAME "local", STAGE_NAME and JENKINS_URL |
| RustlineShell.JenkinsShellConfig | src/executor/shell.rs:467-509 | the configuration holds the Jenkins variables with each extra entry over them, its directory is the final WORKSPACE value, the shell is "sh", captured, without timeout |
| RustlineShell.SuccessXorFailure | src/executor/shell.rs:108-116 | every result is exactly one of success and failure, and success means exit code 0 |
| RustlineShell.NewShellCommand | src/executor/shell.rs:129-134 | a new command has the configuration and no overrides |
| RustlineShell.WithEnv | src/executor/shell.rs:138-141 | `env` sets one override, replacing an earlier one for the key, and keeps the others |
| RustlineShell.MergedEnv | src/executor/shell.rs:152-176 | the child's environment holds the configuration's keys and the overrides, an override winning over the configuration |
| RustlineShell.Outcome | src/executor/shell.rs:179-219 | a spawn failure is `Io`; a non-zero exit code, or -1 without one, is `CommandFailed` with the standard error; only exit code 0 is a success |
| RustlineShell.Execute | src/executor/shell.rs:152-176 | the command is expanded against the configuration's environment only, run with the merged environment in the configured directory, and succeeds only with exit code 0 |
| RustlineLocal.NewExecutor | src/executor/local.rs:32-36 | `LocalExecutor::new` has the derived default configuration: empty directory, environment and shell |
| RustlineLocal.WithCwd | src/executor/local.rs:40-43 | `with_cwd` changes only the directory |
| RustlineLocal.WithEnv | src/executor/local.rs:47-50 | `with_env` inserts one variable, overwriting, and changes nothing else |
| RustlineLocal.WithShell | src/executor/local.rs:54-57 | `with_shell` changes only the shell |
| RustlineLocal.ShellName | src/executor/local.rs:468-472 | the main thread's shell is the configured one, or "sh" when none is set; never empty |
| RustlineLocal.Request | src/executor/local.rs:465-478 | the process started for a command runs its expansion against the context environment, with that environment, shell and directory |
| RustlineLocal.ShellStepResult | src/executor/local.rs:478-487 | a shell step succeeds exactly when the process finished with exit code 0; a spawn failure is `Io`; any other exit is `CommandFailed` |
| RustlineLocal.ShellRun | src/executor/local.rs:460-488 | one shell step asks the shell exactly one question, the request for its command, and always returns |
| RustlineLocal.ExecuteShell | src/executor/local.rs:460-488 | the method asks the shell as the specification says and returns its step result |
| RustlineLocal.ExecuteStep | src/executor/local.rs:413-457 | running a step asks the shell and the clock exactly what the step semantics says and returns its outcome, panic included |
| RustlineLocal.StepsRun | src/executor/local.rs:401-410 | the steps run in order until the first error or panic; a run that returns Ok returns Success |
| RustlineLocal.ExecuteSteps | src/executor/local.rs:401-410 | the step loop asks and returns what `StepsRun` says |
| RustlineLocal.StaticSite | src/executor/local.rs:368-398 | branch threads run commands with "sh" in the same environment and directory |
| RustlineLocal.StaticStepRun | src/executor/local.rs:368-398 | in a branch thread only shell steps run; every other kind, retry and timeout included, does nothing and succeeds; the clock is never asked |
| RustlineLocal.StaticStepsRun | src/executor/local.rs:357-365 | branch steps run in order until the first error; Ok means Success; the clock is never asked |
| RustlineLocal.StaticStageRun | src/executor/local.rs:299-313 | a branch stage runs its own branches (an error ends it), then its steps; Ok means Success |
| RustlineLocal.BranchResults | src/executor/local.rs:316-345 | every branch runs and pushes one result, and every Ok result is Success |
| RustlineLocal.Aggregate | src/executor/local.rs:287-295 | the aggregate is Success exactly when no branch result is an error, and otherwise the first error |
| RustlineLocal.StaticBranchesRun | src/executor/local.rs:316-354 | a branch set runs every branch and then aggregates; Ok means Success |
| RustlineLocal.ExecuteStageStatic | src/executor/local.rs:299-313 | the method asks and returns what `StaticStageRun` says |
| RustlineLocal.ExecuteBranchesStatic | src/executor/local.rs:316-354 | the method asks and returns what `StaticBranchesRun` says |
| RustlineLocal.ExecuteStepsStatic | src/executor/local.rs:357-365 | the method asks and returns what `StaticStepsRun` says |
| RustlineLocal.ExportStep | src/executor/local.rs:213 | the step of one matrix pair is the shell command "export k=v" |
| RustlineLocal.ExportSteps | src/executor/local.rs:212-214 | there is one export step per pair, in the reverse of the pair order, since each is inserted at index 0 |
| RustlineLocal.PairLabels | src/executor/local.rs:206-210 | the labels are "k_v" for each pair, in pair order |
| RustlineLocal.MatrixBranch | src/executor/local.rs:203-219 | a combination's branch and its stage are named by the labels joined with '-'; the stage's steps are the export steps followed by the stage's steps |
| RustlineLocal.MatrixBranches | src/executor/local.rs:200-219 | one branch per generated combination, in combination order |
| RustlineLocal.BuildMatrixBranches | src/executor/local.rs:203-219 | the branch construction loop builds exactly those branches |
| RustlineLocal.StageRun | src/executor/local.rs:193-253 | a matrix stage runs only its branches; otherwise the parallel branches, then the steps and the posts selected by their result; a stage that returns Ok returns Success |
| RustlineLocal.ExecutePosts | src/executor/local.rs:235-240 | the post loop runs the steps of each post-condition that `should_execute(result, None)` selects |
| RustlineLocal.ExecuteStage | src/executor/local.rs:193-253 | the method asks and returns what `StageRun` says |
| RustlineLocal.ExecuteStages | src/executor/local.rs:86-111 | the stage loop records each stage's result under its name, stops at an error or, without a retry option, at a failed stage, and leaves environment and directory unchanged |
| RustlineLocal.ExecutePipelinePosts | src/executor/local.rs:114-120 | each pipeline post-condition runs when a stage result is recorded and it selects the last one |
| RustlineLocal.Execute | src/executor/local.rs:67-123 | the pipeline's variables are inserted over the process environment, then the stage loop and the pipeline posts run as `ExecuteRun` says |
| RustlineLocalProps.RetryShellAllFail | src/executor/local.rs:425-447 | when every attempt fails, a retried shell command runs exactly `count` times and returns the last error; with no attempt the run panics |
| RustlineLocalProps.RetryZeroPanics | src/executor/local.rs:445-447 | `retry(0, …)` makes no attempt and the unwrap of the missing error panics |
| RustlineLocalProps.RetryShellFirstSuccess | src/executor/local.rs:428-433 | when attempt `j` is the first to succeed, within the count, the step succeeds after exactly `j + 1` runs |
| RustlineLocalProps.NoPanicWithoutEmptyRetry | src/executor/local.rs:413-457 | a step without an unprotected `retry(0, …)` always returns |
| RustlineLocalProps.RetryReturns | src/executor/local.rs:425-447 | the retry loop returns when its inner step cannot panic and an error is recorded before the attempts run out |
| RustlineLocalProps.TimeoutRules | src/executor/local.rs:491-513 | a timeout step never panics and asks the clock once; it gives the inner result when in time, and the timeout error of its duration otherwise or when the inner step panicked |
| RustlineLocalProps.UnimplementedStepsSucceed | src/executor/local.rs:452-454 | stash, unstash, input and dir steps do nothing and succeed |
| RustlineLocalProps.StepsAppend | src/executor/local.rs:401-410 | running `a + b` is running `a`, then `b` when `a` succeeded |
| RustlineLocalProps.StaticWithoutShellAsksNothing | src/executor/local.rs:368-398 | branch steps without a shell step ask nothing |
| RustlineLocalProps.RetryOptionIrrelevant | src/executor/local.rs:107-110 | a stage that returns returns Success, so the pipeline's retry option never changes the stage loop |
| RustlineLocalProps.StagesRecordSuccess | src/executor/local.rs:86-111 | after the stage loop every recorded result is Success, and a full run records every stage's name |
| RustlineLocalProps.InsertSuccess | src/executor/traits.rs:139-141 | recording Success keeps every recorded value Success and adds the stage |
| RustlineLocalProps.InsertValues | src/executor/traits.rs:139-141 | every entry after recording is the new one or an earlier one |
| RustlineLocalProps.OnlySuccessValues | src/executor/local.rs:114-120 | when every recorded value is Success, the last one read by the post loop is Success |
| RustlineLocalProps.NoRecordNoPosts | src/executor/local.rs:114-120 | with no stage result recorded, no pipeline post-condition runs |
| RustlineLocalProps.FailureHandlersSkipped | src/executor/local.rs:114-120 | after Success results, failure and unstable post-conditions never run |
| RustlineLocalProps.NoStagesNothingRuns | src/executor/local.rs:67-123 | a pipeline with no stages runs none of its post-conditions, asks nothing and returns Success |
| RustlineLocalProps.ExecuteOkIsSuccess | src/executor/local.rs:67-123 | a pipeline run that returns Ok returns Success |
| RustlineLocalProps.StoppedOkIsSuccess | src/executor/local.rs:86-111 | a stage loop that stops early on a returned result stops with Success |
| RustlineLocalProps.PostsOkIsSuccess | src/executor/local.rs:114-122 | the pipeline post loop returns Success when it returns Ok |
| RustlineLocalProps.MatrixIgnoresPostsAndBranches | src/executor/local.rs:199-223 | a matrix stage's posts and own parallel branches are never run |
| RustlineLocalProps.EmptyMatrixSucceeds | src/executor/local.rs:199-223 | a matrix without axes has no combinations, so the stage asks nothing and succeeds |
| RustlineContainer.RuntimeCommand | src/infrastructure/container.rs:72-77 | the runtime command is "docker" exactly for Docker and "podman" exactly for Podman |
| RustlineContainer.NewContainerExecutor | src/infrastructure/container.rs:41-46 | a new container executor uses Docker and the image "rust:latest" |
| RustlineContainer.WithPodman | src/infrastructure/container.rs:50-55 | `with_podman` uses Podman and the image "rust:latest" |
| RustlineContainer.NewDockerExecutor | src/infrastructure/docker.rs:20-24 | a new Docker executor uses the image "rust:latest" |
| RustlineContainer.WithDefaultImage | src/infrastructure/container.rs:59-62 | `with_default_image` (also docker.rs:28-31) changes only the default image |
| RustlineContainer.WithRuntime | src/infrastructure/container.rs:66-69 | `with_runtime` changes only the runtime |
| RustlineContainer.Program | src/infrastructure/container.rs:106-107 | docker.rs always starts "docker"; container.rs starts its runtime's command |
| RustlineContainer.StageImage | src/infrastructure/container.rs:262-266 | a stage runs in its Docker agent's image, and in the executor's default image for any other agent or none |
| RustlineContainer.EnvArgs | src/infrastructure/container.rs:113-115 | one "-e" "k=v" pair per context variable, in the context's order |
| RustlineContainer.ExtraArgs | src/infrastructure/container.rs:120-123 | docker.rs adds the bind mount "-v cwd:cwd"; Podman adds "--cgroup-manager=cgroupfs"; container.rs with Docker adds nothing |
| RustlineContainer.RunArgs | src/infrastructure/container.rs:106-125 | the command line is the program, "run --rm -e RUSTLINE_STAGE=<id>", the variable pairs, "-w <cwd>", the extra arguments, then "<image> sh -c <command>" |
| RustlineContainer.BuildRunArgs | src/infrastructure/container.rs:106-125 | the argument pushes build exactly that command line |
| RustlineContainer.EnvArgsSnoc | src/infrastructure/container.rs:113-115 | the pairs of a longer environment extend those of its prefix |
| RustlineContainer.RunResult | src/infrastructure/container.rs:127-146 | a run succeeds exactly when the process finished with code 0; a spawn failure is `Io`; another exit is `CommandFailed`, code -1 when killed |
| RustlineContainer.ShellRun | src/infrastructure/container.rs:297-300 | one shell step starts exactly one container process, with that command line |
| RustlineContainer.RunInContainer | src/infrastructure/container.rs:100-147 | the method starts the process the specification names and returns its result |
| RustlineContainer.ExecuteStep | src/infrastructure/container.rs:291-354 | running a step asks the runner and the clock exactly what the step semantics says and returns its outcome |
| RustlineContainer.StepsRun | src/infrastructure/container.rs:279-289 | steps run in order until the first error or panic; a run that returns Ok returns Success |
| RustlineContainer.ExecuteSteps | src/infrastructure/container.rs:279-289 | the step loop asks and returns what `StepsRun` says |
| RustlineContainer.StageRun | src/infrastructure/container.rs:257-277 | a stage runs its steps in its image, then the posts selected by their result; Ok means Success |
| RustlineContainer.ExecutePosts | src/infrastructure/container.rs:270-274 | the post loop runs each post-condition that `should_execute(result, None)` selects |
| RustlineContainer.ExecuteStage | src/infrastructure/container.rs:257-277 | the method asks and returns what `StageRun` says |
| RustlineContainer.ExecuteStages | src/infrastructure/container.rs:177-199 | the stage loop records each result under the stage's name and stops at an error or, without a retry option, a failed stage |
| RustlineContainer.Execute | src/infrastructure/container.rs:157-202 | the pipeline's variables, then `CONTAINER_RUNTIME` for container.rs, go over the process environment, and the stage loop runs as `ExecuteRun` says; no pipeline post-condition runs |
| RustlineContainerProps.EveryVariablePassed | src/infrastructure/container.rs:113-115 | every context variable reaches the container as "-e k=v", in order, right after the stage marker |
| RustlineContainerProps.DockerMountsWorkingDir | src/infrastructure/docker.rs:60-62 | docker.rs mounts the working directory on itself right before the image; container.rs never does |
| RustlineContainerProps.PodmanCgroupManager | src/infrastructure/container.rs:120-125 | Podman gets "--cgroup-manager=cgroupfs" right before the image |
| RustlineContainerProps.ContainerRuntimeVariable | src/infrastructure/container.rs:175 | container.rs exposes its runtime's name as `CONTAINER_RUNTIME`, whatever the pipeline sets |
| RustlineContainerProps.PipelineVariablesWin | src/infrastructure/container.rs:171-173 | a pipeline variable overrides the process environment, except `CONTAINER_RUNTIME` in container.rs |
| RustlineContainerProps.RetryShellAllFail | src/infrastructure/container.rs:304-321 | when every attempt fails, a retried shell step runs exactly `count` times and returns the last error |
| RustlineContainerProps.RetryShellFirstSuccess | src/infrastructure/container.rs:304-321 | when attempt `j` is the first to succeed, within the count, the step runs `j + 1` times and succeeds |
| RustlineContainerProps.TimeoutRules | src/infrastructure/container.rs:323-350 | a timeout step never panics; it gives the inner result when in time and `Timeout { duration }` otherwise |
| RustlineContainerProps.RetryOptionIrrelevant | src/infrastructure/container.rs:195-198 | a stage never returns a failed result, so the retry option never changes the stage loop |
| RustlineContainerProps.ErrorSkipsPosts | src/infrastructure/container.rs:268 | when the steps end with an error, that error is the stage's outcome and no post-condition runs |
| RustlinePodmanHttp.ErrorText | src/infrastructure/podman.rs:24-54 | each error displays as its fixed prefix followed by its message |
| RustlinePodmanHttp.AsU16 | src/infrastructure/podman.rs:400-402 | `as_u16` gives the code's number, one of the 23 known numbers |
| RustlinePodmanHttp.FromU16 | src/infrastructure/podman.rs:364-391 | `from_u16` accepts exactly the 23 known numbers, each as the status with that number |
| RustlinePodmanHttp.FromAsU16 | src/infrastructure/podman.rs:364-402 | reading back the number of a status gives the status |
| RustlinePodmanHttp.IsSuccess | src/infrastructure/podman.rs:393-398 | `is_success` holds for 200, 201, 202 and 204 only |
| RustlinePodmanHttp.SplitN | src/infrastructure/podman.rs:320 | `splitn(n, sep)` gives at most n pieces, none but the last holding the separator |
| RustlinePodmanHttp.SplitNJoin | src/infrastructure/podman.rs:320 | joining the pieces of `splitn` with the separator gives the text back |
| RustlinePodmanHttp.ParseStatusCode | src/infrastructure/podman.rs:319-334 | the status is the second space-separated field read as a `u16` and accepted by `from_u16`; a missing field, a non-number and an unknown code are errors |
| RustlinePodmanHttp.ParseU16Rendered | src/infrastructure/podman.rs:322-326 | a rendered number parses as a `u16` exactly when it is below 65536 |
| RustlinePodmanHttp.ParseStatusLine | src/infrastructure/podman.rs:319-334 | "<version> <code> <rest>" with a known code parses to that status, and otherwise to the error naming why (section 4 of RFC 9112) |
| RustlinePodmanHttp.StatusLineFields | src/infrastructure/podman.rs:320 | the fields of "<version> <digits> <rest>" are the version, the digits and the rest |
| RustlinePodmanHttp.PrefixedPath | src/infrastructure/podman.rs:130-134 | the request path starts with '/' and is the path with one added when it had none |
| RustlinePodmanHttp.TrimLeading | src/infrastructure/podman.rs:101 | `trim_start_matches(c)` gives the longest suffix not starting with `c` that follows only copies of `c` |
| RustlinePodmanHttp.ApiVersionHeader | src/infrastructure/podman.rs:98-104 | the `Api-Version` header is the configured version without its leading 'v's and '/'s |
| RustlinePodmanHttp.DefaultApiVersionHeader | src/infrastructure/podman.rs:74-80 | example, one input: the default version "v5.0.0" is sent as "5.0.0" |
| RustlinePodmanHttp.LinesSnoc | src/infrastructure/podman.rs:136-152 | adding one line adds it with its CRLF at the end of the text |
| RustlinePodmanHttp.BuildRequest | src/infrastructure/podman.rs:136-152 | the pushes write the header lines, a blank line and the body, if any |
| RustlinePodmanHttp.BuildHead | src/infrastructure/podman.rs:136-139 | the request line and the Host, Accept and Api-Version headers, each ended by CRLF |
| RustlinePodmanHttp.FirstBlankLine | src/infrastructure/podman.rs:179-182 | after plain header lines, the first "\r\n\r\n" is the one the last header line's CRLF starts, whatever follows |
| RustlinePodmanHttp.RequestFraming | src/infrastructure/podman.rs:136-152 | when method, path and version hold no carriage return, the request's first blank line ends its header and what follows is exactly the body |
| RustlinePodmanHttp.HeaderLinesPlain | src/infrastructure/podman.rs:136-143 | every header line is non-empty and free of carriage returns when its parts are |
| RustlinePodmanHttp.BodyStart | src/infrastructure/podman.rs:179-182 | the header block ends at the first "\r\n\r\n", or at the end of the text without one |
| RustlinePodmanHttp.SplitResponse | src/infrastructure/podman.rs:179-192 | corrected split: the header block's status and the text after the blank line, an empty body when there is none |
| RustlinePodmanHttp.SplitResponseAsWritten | src/infrastructure/podman.rs:179-192 | as written, no contract of its own: the slice after the blank line, a panic when the reply has none; NoBlankLinePanics states it |
| RustlinePodmanHttp.SplitAsWrittenAgrees | src/infrastructure/podman.rs:179-192 | the split as written and the corrected one agree exactly on responses with a blank line or an unparsable status; on the others the code as written panics |
| RustlinePodmanHttp.NoBlankLinePanics | src/infrastructure/podman.rs:183-190 | example, one input: the reply "HTTP/1.1 204 No Content\r\n" makes the slice as written panic, while the corrected split gives 204 and an empty body |
| RustlinePodmanHttp.StatusLineParses | src/infrastructure/podman.rs:319-334 | the status line "HTTP/1.1 <code> <reason>" of any known status, ended by a line end, parses back to that status |
| RustlinePodmanHttp.ResponseRoundTrip | src/infrastructure/podman.rs:179-192 | splitting a well-formed response (status line, plain headers, blank line, body) gives back its status and its body |
| RustlinePodmanHttp.HeaderBlockParses | src/infrastructure/podman.rs:185-188 | the header block of a well-formed response parses to its status |
| RustlinePodmanHttp.RequestOutcome | src/infrastructure/podman.rs:195-220 | a non-success status is an error naming the code and the body; an empty body of a success is null; any other body is decoded and a decoding failure is an error |
| RustlinePodmanHttp.ContainerId | src/infrastructure/podman.rs:264-275 | the container id is the string field "Id" of the reply object, and anything else is a creation error |
| RustlinePodmanHttp.AsI64 | src/infrastructure/podman.rs:288 | `as_i64` gives an integer exactly when it fits in 64 signed bits |
| RustlinePodmanHttp.ToI32 | src/infrastructure/podman.rs:288 | `as i32` gives the 32-bit value congruent to the input modulo 2^32, the input itself when it fits |
| RustlinePodmanHttp.ToI32Unique | src/infrastructure/podman.rs:288 | no other 32-bit value is congruent to the input, so the cast is the wrap-around |
| RustlinePodmanHttp.WaitExitCode | src/infrastructure/podman.rs:284-290 | the exit code is the reply's 64-bit integer, else 0, cast to 32 bits |
| RustlinePodmanHttp.EnvStrings | src/infrastructure/podman.rs:244-250 | one "k=v" string per environment entry, in the map's order |
| RustlinePodmanHttp.BuildEnvStrings | src/infrastructure/podman.rs:244-250 | the rendering loop builds exactly those strings |
| RustlinePodmanHttp.EnvStringRoundTrip | src/infrastructure/podman.rs:244-250 | a rendered pair whose key has no '=' splits back at its first '=' into key and value |
| RustlinePodmanHttp.CreateSpec | src/infrastructure/podman.rs:222-262 | the description holds `sh -c <command>`, the image, the working directory, the environment strings, the cgroup manager ("cgroupfs" unless one is given), no terminal and no stdin |
| RustlinePodman.DefaultClientConfig | src/infrastructure/podman.rs:74-80 | the default client uses the standard socket, five minutes and API "v5.0.0" |
| RustlinePodman.ClientConfigOf | src/infrastructure/podman.rs:515-520 | the client of a run uses the agent's socket and API version with a 300-second timeout |
| RustlinePodman.NewExecutor | src/infrastructure/podman.rs:412-416 | a new executor has the default client configuration |
| RustlinePodman.WithSocket | src/infrastructure/podman.rs:419-422 | `with_socket` changes only the socket |
| RustlinePodman.WithTimeout | src/infrastructure/podman.rs:425-428 | `with_timeout` changes only the timeout |
| RustlinePodman.Capabilities | src/infrastructure/podman.rs:470-480 | shell, Docker images, timeout and retry; no Kubernetes, parallelism or caching |
| RustlinePodman.DryRun | src/infrastructure/podman.rs:450-468 | a dry run gives Success exactly for a valid pipeline and the validation error otherwise |
| RustlinePodman.ConnectRun | src/infrastructure/podman.rs:90-110 | creating a client makes one connection attempt and fails with `ConnectionFailed` when it is refused |
| RustlinePodman.Connect | src/infrastructure/podman.rs:90-110 | the method makes the call and returns what `ConnectRun` says |
| RustlinePodman.SendRun | src/infrastructure/podman.rs:117-193 | the request text goes out in one call; I/O errors become connection, request or response errors; the reply is split by the corrected `SplitResponse`, so a reply without a blank line is not a panic |
| RustlinePodman.SendHttpRequest | src/infrastructure/podman.rs:117-193 | the method makes the call and returns what `SendRun` says, with the corrected split |
| RustlinePodman.RequestRun | src/infrastructure/podman.rs:195-220 | a request is the exchange followed by the status and body rules |
| RustlinePodman.Request | src/infrastructure/podman.rs:195-220 | the method makes the call and returns what `RequestRun` says |
| RustlinePodman.Done | src/infrastructure/podman.rs:278-282 | dropping the value keeps the error and turns a value into unit |
| RustlinePodman.PingRun | src/infrastructure/podman.rs:112-115 | `ping` is one GET of "/_ping" |
| RustlinePodman.Ping | src/infrastructure/podman.rs:112-115 | the method makes the call and returns what `PingRun` says |
| RustlinePodman.CreateRun | src/infrastructure/podman.rs:222-276 | creation POSTs the serialised description to "/containers/create" and needs a string "Id" in the reply |
| RustlinePodman.CreateContainer | src/infrastructure/podman.rs:222-276 | the method makes the call and returns what `CreateRun` says |
| RustlinePodman.StartRun | src/infrastructure/podman.rs:278-282 | start POSTs to "/containers/{id}/start" |
| RustlinePodman.StartContainer | src/infrastructure/podman.rs:278-282 | the method makes the call and returns what `StartRun` says |
| RustlinePodman.WaitRun | src/infrastructure/podman.rs:284-290 | wait POSTs to "/containers/{id}/wait" and gives the reply's integer, else 0, as an `i32` |
| RustlinePodman.WaitContainer | src/infrastructure/podman.rs:284-290 | the method makes the call and returns what `WaitRun` says |
| RustlinePodman.LogsRun | src/infrastructure/podman.rs:292-304 | logs GET "/containers/{id}/logs?stdout=true&stderr=true"; a response error counts as empty logs |
| RustlinePodman.Logs | src/infrastructure/podman.rs:292-304 | the method makes the call and returns what `LogsRun` says |
| RustlinePodman.RemoveRun | src/infrastructure/podman.rs:306-310 | removal DELETEs "/containers/{id}" |
| RustlinePodman.RemoveContainer | src/infrastructure/podman.rs:306-310 | the method makes the call and returns what `RemoveRun` says |
| RustlinePodman.PullImageRun | src/infrastructure/podman.rs:312-316 | pulling POSTs to "/images/pull?reference={image}" |
| RustlinePodman.PullImage | src/infrastructure/podman.rs:312-316 | the method makes the call and returns what `PullImageRun` says |
| RustlinePodman.WorkingDir | src/infrastructure/podman.rs:621-624 | the container's directory is the configured one, else the context's |
| RustlinePodman.BuildContainerEnv | src/infrastructure/podman.rs:626-631 | the collected environment is the stage configuration's overlaid by the context's |
| RustlinePodman.ContainerRun | src/infrastructure/podman.rs:614-648 | a shell step creates the container, then runs its life; each client error ends the step, wrapped with the call's name |
| RustlinePodman.LifeRun | src/infrastructure/podman.rs:650-685 | start, wait, logs, removal when configured (its result ignored), then `CommandFailed` when the exit code is not zero |
| RustlinePodman.RunInContainer | src/infrastructure/podman.rs:614-686 | the method makes the calls and returns what `ContainerRun` says |
| RustlinePodman.StepRun | src/infrastructure/podman.rs:592-612 | a shell step runs in a container; every other kind does nothing and succeeds |
| RustlinePodman.ExecuteStep | src/infrastructure/podman.rs:592-612 | the method makes the calls and returns what `StepRun` says |
| RustlinePodman.StageRun | src/infrastructure/podman.rs:564-590 | a stage needs a Podman agent, whose configuration every step uses; its steps run in order and it returns Success; branches, matrix and posts are ignored |
| RustlinePodman.ExecuteStage | src/infrastructure/podman.rs:564-590 | the method makes the calls and returns what `StageRun` says |
| RustlinePodman.StagesFrom | src/infrastructure/podman.rs:547-559 | the stage loop leaves at an error, records each result, and stops on a failed result without a retry option |
| RustlinePodman.ExecuteStages | src/infrastructure/podman.rs:547-561 | the method makes the calls, records in the context and returns what `StagesFrom` says |
| RustlinePodman.PipelineStages | src/infrastructure/podman.rs:541-561 | a run's stage loop starts from the context's environment and directory with nothing recorded |
| RustlinePodman.ExecuteRun | src/infrastructure/podman.rs:495-562 | the pipeline's agent must be Podman; its socket and API version give the client, which connects and pings; then the stages run; a refused connection or failed ping is an `AgentConfig` error |
| RustlinePodman.Execute | src/infrastructure/podman.rs:438-444 | the method makes the calls and returns what `ExecuteRun` says |
| RustlinePodman.ExecuteConnected | src/infrastructure/podman.rs:541-561 | after the ping: the context, its variables, then the stage loop |
| RustlinePodmanProps.ContainerEnvOverlay | src/infrastructure/podman.rs:626-631 | a context variable wins over the stage configuration's variable of the same name; every other configured variable is kept |
| RustlinePodmanProps.ContainerCallOrder | src/infrastructure/podman.rs:614-686 | a shell step that reached its exit code made create, start, wait, logs, then the removal exactly when configured, and its result depends on the exit code alone |
| RustlinePodmanProps.LifeCallOrder | src/infrastructure/podman.rs:650-685 | the calls and the result of a container's life that reached its exit code |
| RustlinePodmanProps.CreateComesFirst | src/infrastructure/podman.rs:635-646 | the first call of a shell step creates the container from the stage's image, the command and the environment |
| RustlinePodmanProps.ContainerLogGrows | src/infrastructure/podman.rs:614-686 | a shell step makes between one and five calls, after those already made |
| RustlinePodmanProps.LifeLogGrows | src/infrastructure/podman.rs:650-685 | a container's life makes between one and four calls, after those already made |
| RustlinePodmanProps.StepsLogGrows | src/infrastructure/podman.rs:584-587 | steps only add socket calls |
| RustlinePodmanProps.StagesLogGrows | src/infrastructure/podman.rs:547-559 | the stage loop only adds socket calls |
| RustlinePodmanProps.ConnectThenPing | src/infrastructure/podman.rs:506-539 | a run with a Podman agent first connects to the agent's socket and then pings; a run without one makes no call |
| RustlinePodmanProps.PodmanRunExtends | src/infrastructure/podman.rs:506-539 | the calls of a run with a Podman agent begin with the connection's and, once connected, the ping's |
| RustlinePodmanProps.RetryOptionIrrelevant | src/infrastructure/podman.rs:555-558 | a stage never returns a failed result, so the retry option never changes the stage loop |
| RustlinePodmanProps.CompletedRecordsAll | src/infrastructure/podman.rs:547-561 | a completed stage loop recorded every stage's name with Success |
| RustlinePodmanProps.UnusedStageSettings | src/infrastructure/podman.rs:614-686 | the stage configuration's socket, API version, extra arguments and network play no part in a shell step |
| RustlineGithub.SanitizeJobName | src/infrastructure/github_actions.rs:178-182 | letters and digits are kept and every other character becomes '_', the length unchanged |
| RustlineGithub.SanitizeJobNameSafe | src/infrastructure/github_actions.rs:178-182 | the result is a valid job name, a name of letters and digits is left alone, and sanitizing twice is sanitizing once |
| RustlineGithub.SanitizeJobNameSeparated | src/infrastructure/github_actions.rs:314-328 | two words of letters and digits joined by any other character, as "Build Stage" and "Test@Production", become the words joined by "_" |
| RustlineGithub.SanitizeJobNameAppend | src/infrastructure/github_actions.rs:178-182 | sanitizing maps each character on its own, so it distributes over concatenation |
| RustlineGithub.Parenthesized | src/infrastructure/github_actions.rs:131-134 | each child condition of `AllOf`/`AnyOf` translated and put in parentheses, one per child |
| RustlineGithub.WhenCompound | src/infrastructure/github_actions.rs:116-145 | one child gives the same text for `AllOf` and `AnyOf`; two children are joined by " && " or " \|\| " inside outer parentheses |
| RustlineGithub.TimeoutMinutes | src/infrastructure/github_actions.rs:161 | the least number of whole minutes covering the duration, and at least one |
| RustlineGithub.TimeoutMinutesExamples | src/infrastructure/github_actions.rs:333-346 | example, one input: 30 seconds give one minute and 300 seconds give five |
| RustlineGithub.StepLines | src/infrastructure/github_actions.rs:149-174 | a step gives at least one line and every line is indented as part of a job body |
| RustlineGithub.StepLinesExamples | src/infrastructure/github_actions.rs:229-254 | example, one input: a shell step is "      - run: <command>", an echo runs `echo '<message>'`, and a retry wraps its inner step in a block with `continue-on-error: true` |
| RustlineGithub.StepsBody | src/infrastructure/github_actions.rs:108-110 | every line of a list of steps is a body line |
| RustlineGithub.BranchNames | src/infrastructure/github_actions.rs:59-62 | one name per branch, the branch's own, in order |
| RustlineGithub.StageLines | src/infrastructure/github_actions.rs:49-112 | a job has at least its header line |
| RustlineGithub.AllBodyAppend | src/infrastructure/github_actions.rs:49-112 | body lines stay body lines when lists are joined |
| RustlineGithub.MatrixBody | src/infrastructure/github_actions.rs:55-64 | the matrix lines are body lines |
| RustlineGithub.RunsOnBody | src/infrastructure/github_actions.rs:67-79 | the runner lines are body lines |
| RustlineGithub.IfBody | src/infrastructure/github_actions.rs:82-85 | the condition line is a body line |
| RustlineGithub.JobSetupBody | src/infrastructure/github_actions.rs:54-103 | every line between a job's header and its `steps:` is a body line |
| RustlineGithub.PostsBody | src/infrastructure/github_actions.rs:88-103 | the post-condition lines are body lines |
| RustlineGithub.JobHeaderIsJobLine | src/infrastructure/github_actions.rs:52 | the header "  <sanitized name>:" is a job line |
| RustlineGithub.StageLinesShape | src/infrastructure/github_actions.rs:49-112 | a job is its header, then body lines only, ending with `    steps:` and the lines of the stage's own steps |
| RustlineGithub.MatrixExample | src/infrastructure/github_actions.rs:364-393 | example, one input: the branches "Linux" and "Mac" give `strategy:`, `matrix:` and "        os: [Linux, Mac]" |
| RustlineGithub.PushMatrix | src/infrastructure/github_actions.rs:55-64 | the matrix lines are written only when there are branches, the names gathered in order and joined by ", " |
| RustlineGithub.PushRunsOn | src/infrastructure/github_actions.rs:67-79 | a label names the runner; a Docker agent runs on ubuntu-latest in the fixed container image; anything else runs on ubuntu-latest |
| RustlineGithub.PushPost | src/infrastructure/github_actions.rs:89-102 | an `always` post writes its steps, a `failure` post writes `    if: failure()` and then its steps, and any other post writes nothing |
| RustlineGithub.PushPosts | src/infrastructure/github_actions.rs:88-103 | the post conditions are written one after the other, in order |
| RustlineGithub.PushSetup | src/infrastructure/github_actions.rs:54-103 | matrix, runner, condition and posts written in that order |
| RustlineGithub.TranslateStage | src/infrastructure/github_actions.rs:49-112 | the job text is the lines of `StageLines`, each ended by a newline |
| RustlineGithub.VarLines | src/infrastructure/github_actions.rs:32-34 | one `  key: value` line per environment variable |
| RustlineGithub.PushEnv | src/infrastructure/github_actions.rs:30-36 | `env:`, the variable lines and a blank line, written only when there are variables |
| RustlineGithub.PushVars | src/infrastructure/github_actions.rs:32-34 | the loop writes the variable lines in the map's order |
| RustlineGithub.PushJobs | src/infrastructure/github_actions.rs:40-42 | each stage's job is written in turn |
| RustlineGithub.Translate | src/infrastructure/github_actions.rs:23-45 | the workflow is the header, the environment block and the jobs, and it is always returned successfully |
| RustlineGithub.WorkflowStart | src/infrastructure/github_actions.rs:23-38 | every workflow begins "name: CI" and a blank line; `env:` follows exactly when there are variables, with one line each; otherwise `jobs:` follows at once |
| RustlineGithub.JobsInOrder | src/infrastructure/github_actions.rs:38-42 | a line of the jobs is a job header exactly when some stage's job begins there, and stage i's job begins with its sanitized header, so there is one job per stage in stage order |
| RustlineGitlab.SanitizeWith | src/infrastructure/gitlab_ci.rs:206-229 | both sanitizers keep letters, digits, '-' and '_' and replace every other character by their fill character, the length unchanged |
| RustlineGitlab.SanitizeNames | src/infrastructure/gitlab_ci.rs:206-229 | both give clean names, leave clean names alone and are idempotent; at each position the stage name has '-' where the job name has '_', and both otherwise keep the character |
| RustlineGitlab.SanitizeAppend | src/infrastructure/gitlab_ci.rs:206-229 | sanitizing distributes over concatenation |
| RustlineGitlab.SanitizeSeparator | src/infrastructure/gitlab_ci.rs:242-252 | one other character between two clean words becomes '-' in a stage name and '_' in a job name |
| RustlineGitlab.SeparatorFilled | src/infrastructure/gitlab_ci.rs:206-229 | one other character between two clean words becomes the fill character |
| RustlineGitlab.RuleConditions | src/infrastructure/gitlab_ci.rs:167-180 | the children of a compound condition, each translated, one per child |
| RustlineGitlab.RuleCondition | src/infrastructure/gitlab_ci.rs:152-181 | specification function, no contract of its own: the condition text of both renderings, a branch, tag or variable comparison, an expression verbatim, compound children joined by " && " or " \|\| "; RulePair and PairCondition state it |
| RustlineGitlab.Rule | src/infrastructure/gitlab_ci.rs:152-183 | corrected rendering, no contract of its own: one "if: " before the condition; RuleSingle and RulePair state it |
| RustlineGitlab.RuleAsWritten | src/infrastructure/gitlab_ci.rs:152-183 | as written, no contract of its own: compound children are rendered by the whole function, each with its own "if: "; RuleSimple, RulesAsWritten, RuleAsWrittenDoubled and RuleAsWrittenBranch state it |
| RustlineGitlab.RulesLines | src/infrastructure/gitlab_ci.rs:123-126 | as written, no contract of its own: "  rules:" and "  - " with the rule as written, only for a stage with a condition; PushRules writes it |
| RustlineGitlab.RulesAsWritten | src/infrastructure/gitlab_ci.rs:167-180 | as written, each child is translated by the whole function, its own "if: " included |
| RustlineGitlab.RuleSimple | src/infrastructure/gitlab_ci.rs:152-166 | on branch, tag, environment and expression conditions the translation as written and the corrected one agree |
| RustlineGitlab.RuleAsWrittenDoubled | src/infrastructure/gitlab_ci.rs:167-181 | as written, a compound of one child is "if: " followed by the child's own rule, so it differs from that rule |
| RustlineGitlab.RuleAsWrittenBranch | src/infrastructure/gitlab_ci.rs:167-174 | example, one input: as written, a branch condition inside `AllOf` renders as "if: if: $CI_COMMIT_BRANCH == ..." |
| RustlineGitlab.RuleSingle | src/infrastructure/gitlab_ci.rs:152-183 | corrected, a compound of one child is that child's rule |
| RustlineGitlab.RulePair | src/infrastructure/gitlab_ci.rs:167-181 | corrected, two children are joined by " && " or " \|\| " under a single "if: " |
| RustlineGitlab.PairCondition | src/infrastructure/gitlab_ci.rs:167-181 | the condition of a pair is the two conditions joined by the operator |
| RustlineGitlab.RuleBranchExample | src/infrastructure/gitlab_ci.rs:413-428 | example, one input: the branch "main" gives 'if: $CI_COMMIT_BRANCH == "main"' |
| RustlineGitlab.ScriptLinesEach | src/infrastructure/gitlab_ci.rs:143-145 | one script line per step, in step order |
| RustlineGitlab.ScriptLineExamples | src/infrastructure/gitlab_ci.rs:186-196 | example, one input: a shell step is "    - <command>" and an echo "    - echo '<message>'" |
| RustlineGitlab.ScriptBody | src/infrastructure/gitlab_ci.rs:141-145 | script lines are indented as part of the job |
| RustlineGitlab.FirstTimeout | src/infrastructure/gitlab_ci.rs:114-120 | the duration of the first timeout step, and none exactly when no step is a timeout |
| RustlineGitlab.TimeoutMinutes | src/infrastructure/gitlab_ci.rs:116-117 | whole minutes rounded down and at least one: one below two minutes, otherwise the minutes contained in the duration |
| RustlineGitlab.TimeoutMinutesExamples | src/infrastructure/gitlab_ci.rs:430-444 | example, one input: 300 seconds give 5 minutes, 90 and 30 seconds give 1 |
| RustlineGitlab.TimeoutLinesCount | src/infrastructure/gitlab_ci.rs:114-120 | a job has at most one `timeout:` line, one exactly when some step is a timeout, from the first such step |
| RustlineGitlab.HeaderIsJobLine | src/infrastructure/gitlab_ci.rs:97 | a sanitized job header is a job line |
| RustlineGitlab.SetupBody | src/infrastructure/gitlab_ci.rs:98-139 | the lines between a job's header and its `script:` are indented |
| RustlineGitlab.PostsBody | src/infrastructure/gitlab_ci.rs:129-139 | the `after_script:` lines are indented |
| RustlineGitlab.SingleJobShape | src/infrastructure/gitlab_ci.rs:95-148 | a stage's own job is its sanitized header followed by indented lines |
| RustlineGitlab.BranchJobShape | src/infrastructure/gitlab_ci.rs:66-90 | a branch job is the header "<stage>_<branch>" sanitized, followed by indented lines |
| RustlineGitlab.BranchJobsInOrder | src/infrastructure/gitlab_ci.rs:64-93 | with branches, a line is a job header exactly where a branch's job begins, and that header names the stage and the branch, in branch order |
| RustlineGitlab.ParallelIgnoresOwnSteps | src/infrastructure/gitlab_ci.rs:64-93 | with branches, the stage's own steps and post conditions change nothing in the output |
| RustlineGitlab.SingleJobTimeout | src/infrastructure/gitlab_ci.rs:113-120 | without branches, the job's `timeout:` line comes from the first timeout step |
| RustlineGitlab.StageListMembers | src/infrastructure/gitlab_ci.rs:33-45 | corrected, the list holds exactly the sanitized stage names not already seen |
| RustlineGitlab.StageListDistinct | src/infrastructure/gitlab_ci.rs:34-39 | corrected, no name is listed twice |
| RustlineGitlab.StageListAppend | src/infrastructure/gitlab_ci.rs:35-45 | the list of two parts is the first part's list, then the second's without the names the first part holds |
| RustlineGitlab.JobStagesListed | src/infrastructure/gitlab_ci.rs:35-39 | corrected, the stage name of every job is listed |
| RustlineGitlab.NamesMember | src/infrastructure/gitlab_ci.rs:36 | every stage's sanitized name is among the stage names |
| RustlineGitlab.StageList | src/infrastructure/gitlab_ci.rs:32-45 | corrected list, no contract of its own: each sanitized stage name once where it first occurs; StageListMembers, StageListDistinct and JobStagesListed state it |
| RustlineGitlab.StageListAsWritten | src/infrastructure/gitlab_ci.rs:32-45 | as written, no contract of its own: branch names are marked as seen without being listed; StageListAsWrittenSound, StageListAsWrittenDistinct, StageListAsWrittenListed, StageListAsWrittenOrder and StageListAsWrittenMisses state it |
| RustlineGitlab.StageListAsWrittenSound | src/infrastructure/gitlab_ci.rs:32-45 | as written, every entry is the sanitized name of a stage and was not already seen |
| RustlineGitlab.StageListAsWrittenDistinct | src/infrastructure/gitlab_ci.rs:34-39 | as written, no entry is listed twice |
| RustlineGitlab.StageListAsWrittenListed | src/infrastructure/gitlab_ci.rs:32-45 | as written, a stage is listed when no earlier stage took its sanitized name as its own or as a "<stage>_<branch>" name |
| RustlineGitlab.StageListAsWrittenOrder | src/infrastructure/gitlab_ci.rs:32-45 | as written, the entries come in declaration order: entry k is the sanitized name of stage `ListedStages(..)[k]`, and those stage positions strictly increase |
| RustlineGitlab.StageListAsWrittenMisses | src/infrastructure/gitlab_ci.rs:40-44 | as written, a stage named like an earlier stage's "<stage>_<branch>" is not listed though its job declares it; corrected, both names are listed |
| RustlineGitlab.StageListAsWrittenExample | src/infrastructure/gitlab_ci.rs:40-44 | example, one input: the stages "a" with a branch "b" and "a_b" meet that condition |
| RustlineGitlab.VarLines | src/infrastructure/gitlab_ci.rs:26-28 | one '  key: "value"' line per variable, in the map's order |
| RustlineGitlab.ConfigLines | src/infrastructure/gitlab_ci.rs:20-54 | as written, no contract of its own: the variables block, `stages:` with the list as written, a blank line, then every stage's jobs with rules as written; ConfigStart and ConfigStagesListed state it |
| RustlineGitlab.ConfigStart | src/infrastructure/gitlab_ci.rs:23-33 | without variables the configuration starts with `stages:`; with variables it starts with `variables:`, one quoted line each and a blank line, then `stages:` |
| RustlineGitlab.ConfigStagesListed | src/infrastructure/gitlab_ci.rs:32-45 | as written, every entry under `stages:` is a stage's sanitized name, none twice, in the order the stages are declared, and a stage is listed when no earlier stage took its name as its own or as a "<stage>_<branch>" name; a stage whose name was taken that way is missing (StageListAsWrittenMisses) |
| RustlineGitlab.PushTimeout | src/infrastructure/gitlab_ci.rs:114-120 | the loop writes the line of the first timeout step and stops |
| RustlineGitlab.PushAfterScript | src/infrastructure/gitlab_ci.rs:130-138 | an `always` post writes `after_script:` and its steps; the others write nothing |
| RustlineGitlab.PushPosts | src/infrastructure/gitlab_ci.rs:129-139 | the posts are written in order |
| RustlineGitlab.PushRules | src/infrastructure/gitlab_ci.rs:123-126 | `rules:` and the condition rendered as written, only for a stage with a condition |
| RustlineGitlab.PushImage | src/infrastructure/gitlab_ci.rs:101-111 | a Docker agent writes its image, a label its tags, any other agent nothing |
| RustlineGitlab.PushBranchImage | src/infrastructure/gitlab_ci.rs:72-79 | for a branch job only a Docker agent writes a line, its image |
| RustlineGitlab.PushSetup | src/infrastructure/gitlab_ci.rs:97-139 | header, stage, image, timeout, rules as written and posts, in that order |
| RustlineGitlab.PushBranchJob | src/infrastructure/gitlab_ci.rs:67-90 | header, stage, image, rules as written, `script:` and the branch's own steps |
| RustlineGitlab.PushBranchJobs | src/infrastructure/gitlab_ci.rs:66-91 | one job per branch, in order, each with the rules as written |
| RustlineGitlab.TranslateStage | src/infrastructure/gitlab_ci.rs:58-148 | the text is the lines of the branch jobs when there are branches, otherwise those of the stage's own job, rules rendered as written |
| RustlineGitlab.PushVariables | src/infrastructure/gitlab_ci.rs:24-30 | `variables:`, the variable lines and a blank line, only when there are variables |
| RustlineGitlab.PushVarLines | src/infrastructure/gitlab_ci.rs:26-28 | the loop writes the variable lines in the map's order |
| RustlineGitlab.PushStageList | src/infrastructure/gitlab_ci.rs:33-45 | the loop as written: each sanitized stage name not yet seen is written once, in order; a stage's "<stage>_<branch>" names are marked as seen and never written |
| RustlineGitlab.StageListStep | src/infrastructure/gitlab_ci.rs:35-39 | one round as written: the stage's name is listed if it was not seen; then it and the stage's "<stage>_<branch>" names are seen |
| RustlineGitlab.PushStageTurn | src/infrastructure/gitlab_ci.rs:35-44 | one round of the `stages:` loop keeps the list written so far plus the list of the remaining stages equal to the whole list as written |
| RustlineGitlab.InsertBranchNames | src/infrastructure/gitlab_ci.rs:41-43 | the inner loop adds every "<stage>_<branch>" name to the set |
| RustlineGitlab.PushStageName | src/infrastructure/gitlab_ci.rs:36-39 | `insert` adds the name to the set and the line is written only when the name was new; then the branch names are added |
| RustlineGitlab.PushJobs | src/infrastructure/gitlab_ci.rs:49-51 | each stage's jobs are written in turn, rules as written |
| RustlineGitlab.Translate | src/infrastructure/gitlab_ci.rs:20-54 | the configuration as written: the variables, the `stages:` list as written and the jobs with rules as written; it is always returned successfully |
| RustlineMetrics.Recorded | src/infrastructure/metrics.rs:45-48 | recording keeps every entry filed under its own pipeline name and adds the recorded name to the names |
| RustlineMetrics.Lookup | src/infrastructure/metrics.rs:53-56 | `get` finds an entry exactly when the name was recorded, and it is the stored one |
| RustlineMetrics.RecordThenGet | src/infrastructure/metrics.rs:45-56 | after a recording `get` returns it for its name, other names are untouched, and the later of two recordings of a name wins |
| RustlineMetrics.RecordAllKeys | src/infrastructure/metrics.rs:45-48 | after recording a list, the names are the earlier ones and those of the list |
| RustlineMetrics.RecordAllLast | src/infrastructure/metrics.rs:45-48 | after recording a list, each name holds its last recording in the list |
| RustlineMetrics.NotRecordedKeeps | src/infrastructure/metrics.rs:45-48 | a name no recording of the list carries keeps its entry |
| RustlineMetrics.MetricsCollector.constructor | src/infrastructure/metrics.rs:37-41 | a new collector holds no metrics |
| RustlineMetrics.MetricsCollector.Record | src/infrastructure/metrics.rs:45-48 | `record` files the metrics under their pipeline name, replacing any earlier entry |
| RustlineMetrics.MetricsCollector.Get | src/infrastructure/metrics.rs:53-56 | `get` reads the entry of the name from the collector's map |
| RustlineMetrics.MetricsCollector.GetAll | src/infrastructure/metrics.rs:61-64 | `get_all` returns every stored entry exactly once and nothing else, in an unspecified order |
| RustlineExport.ExtractAgent | src/cli/export.rs:97-133 | an agent is found exactly when `agent_any!()` appears or one of the docker, kubernetes and label macros is captured, and its image or label matches its type |
| RustlineExport.ExtractSteps | src/cli/export.rs:178-188 | whatever the script says, one shell step running "echo step" |
| RustlineExport.ExtractStages | src/cli/export.rs:149-176 | one stage per captured name, in order, each with the one echo step and no condition; the first needs nothing and every other needs the stage before it |
| RustlineExport.ParsePipeline | src/cli/export.rs:74-86 | one stage per captured stage name, and a well-shaped agent |
| RustlineExport.SeparatorMap | src/cli/export.rs:192 | every character that is not a letter or digit becomes the separator, the length unchanged |
| RustlineExport.KebabAll | src/cli/export.rs:223-228 | the needs converted to kebab case, one by one |
| RustlineExport.PushGithubNeeds | src/cli/export.rs:220-230 | a `needs:` line only when the stage has needs, listing them in kebab case |
| RustlineExport.PushGithubJob | src/cli/export.rs:218-241 | header, needs, runner, `steps:`, the checkout step and a name and run line per shell step |
| RustlineExport.GithubJobsStep | src/cli/export.rs:217-246 | one more turn of the jobs loop adds that turn's lines at the end |
| RustlineExport.PushGithubTurn | src/cli/export.rs:218-245 | a turn writes the job, then a blank line unless it is the last |
| RustlineExport.PushGithubJobs | src/cli/export.rs:217-246 | the jobs, separated by blank lines |
| RustlineExport.ExportGithubActions | src/cli/export.rs:202-249 | the workflow is the fixed head named after the configuration, the environment lines, `jobs:` and the jobs |
| RustlineExport.PushGitlabAgent | src/cli/export.rs:263-274 | a docker agent writes its image when it has one; any other agent writes the "rust" tag; no agent writes nothing |
| RustlineExport.PushGitlabJob | src/cli/export.rs:261-284 | name, agent lines, `script:`, one line per shell step and a blank line |
| RustlineExport.PushGitlabJobs | src/cli/export.rs:260-285 | each stage's job in turn |
| RustlineExport.ExportGitlabCi | src/cli/export.rs:251-288 | the stage list, a blank line and the jobs; the configuration's name is not used |
| RustlineExport.PushJenkinsStage | src/cli/export.rs:324-339 | the stage header, its condition if any, the steps block with one `sh` line per shell step, and the closing lines |
| RustlineExport.PushJenkinsStages | src/cli/export.rs:323-340 | each stage in turn |
| RustlineExport.ExportJenkinsfile | src/cli/export.rs:290-346 | as written: the agent variable lines first, then the pipeline block with its agent, environment, stages and closing lines |
| RustlineExport.JenkinsLines | src/cli/export.rs:290-346 | corrected, no contract of its own: the agent variable as the first line of the environment block; JenkinsShape states it |
| RustlineExport.JenkinsLinesAsWritten | src/cli/export.rs:290-346 | as written, no contract of its own: the agent variable before "pipeline {"; JenkinsAsWrittenShape, JenkinsAsWrittenOutside and JenkinsAsWrittenAgrees state it |
| RustlineExport.ExportPipeline | src/cli/export.rs:61-72 | the script is parsed, then exported in the chosen format, the Jenkinsfile as written; it never fails |
| RustlineExportProps.AgentPriority | src/cli/export.rs:97-133 | `agent_any!()` wins; a docker agent only without it, kubernetes only without those two, label only without the other three; the captured argument is kept |
| RustlineExportProps.ParsedStages | src/cli/export.rs:149-176 | stage i has the i-th captured name, the one echo step, and needs the stage before it unless it is the first |
| RustlineExportProps.AlnumsAppend | src/cli/export.rs:190-200 | the letters and digits of a concatenation are those of each part |
| RustlineExportProps.ReplaceChars | src/cli/export.rs:193 | every character after a replacement comes from the text or from the replacement |
| RustlineExportProps.ReplaceShrinks | src/cli/export.rs:193 | replacing a pattern by something no longer never lengthens the text |
| RustlineExportProps.ReplaceKeepsAlnums | src/cli/export.rs:193 | collapsing a doubled separator loses no letter or digit |
| RustlineExportProps.CaseChars | src/cli/export.rs:190-200 | the conversions never lengthen the text; they keep its letters and digits in order, lower-cased, and every other character is the separator |
| RustlineExportProps.SeparatorMapAlnums | src/cli/export.rs:192 | mapping to the separator keeps the letters and digits |
| RustlineExportProps.CaseWord | src/cli/export.rs:190-200 | a word of letters and digits is only lower-cased |
| RustlineExportProps.CaseExamples | src/cli/export.rs:190-200 | example, one input: "Build" becomes "build" in both cases |
| RustlineExportProps.ReplaceCleanPrefix | src/cli/export.rs:193 | a prefix without the separator passes through unchanged |
| RustlineExportProps.ReplaceRun | src/cli/export.rs:193 | a run of n separators before a text without one becomes (n + 1) / 2 separators |
| RustlineExportProps.ReplaceSingle | src/cli/export.rs:193 | one separator before a text without one is left alone |
| RustlineExportProps.ReplaceAbsentChar | src/cli/export.rs:193 | a text without the separator is left alone |
| RustlineExportProps.CaseRun | src/cli/export.rs:190-200 | two words joined by a run of n other characters come out joined by (n + 1) / 2 separators: the single pass halves a run instead of collapsing it |
| RustlineExportProps.ReplaceBetween | src/cli/export.rs:193 | a run of separators between two texts without one is halved and nothing else changes |
| RustlineExportProps.RunMapped | src/cli/export.rs:191-192 | before the collapsing pass, a run of n other characters is n separators between the lower-cased words |
| RustlineExportProps.LowerNoSeparator | src/cli/export.rs:191 | a lower-cased word holds no separator |
| RustlineExportProps.ShellSteps | src/cli/export.rs:236-240 | the shell steps are steps of the list, in order, and of the shell type |
| RustlineExportProps.FlattenShell | src/cli/export.rs:236-240 | a renderer that skips every step but the shell ones renders only the shell steps |
| RustlineExportProps.ShellOnly | src/cli/export.rs:236-240 | all three exporters skip every step that is not a shell step |
| RustlineExportProps.GithubJobShape | src/cli/export.rs:218-241 | a job is its header, a needs line exactly when the stage has needs, `runs-on: ubuntu-latest`, `steps:`, the checkout step and its shell steps |
| RustlineExportProps.GithubNeedsChain | src/cli/export.rs:169-173 | in an exported pipeline every job but the first needs the job before it, in kebab case |
| RustlineExportProps.GithubJobNoBlank | src/cli/export.rs:218-241 | no line of a job is blank |
| RustlineExportProps.GithubJobsHeaders | src/cli/export.rs:217-246 | every job begins with its header where it starts, and the jobs do not end with a blank line |
| RustlineExportProps.GitlabStagesListed | src/cli/export.rs:254-258 | the configuration starts with `stages:`, one snake-case entry per stage in order, then a blank line |
| RustlineExportProps.GitlabJobsInOrder | src/cli/export.rs:260-285 | after the list come the jobs, one per stage in order, each beginning with its snake-case name |
| RustlineExportProps.GitlabJobShape | src/cli/export.rs:261-284 | a job is its name, the agent's lines, `script:`, its shell steps and a blank line |
| RustlineExportProps.GitlabAgentFromScript | src/cli/export.rs:97-133 | the image of `agent_docker!` without `agent_any!()`; the "rust" tag for `agent_any!()` or for a kubernetes or label agent without a docker one; nothing without an agent macro |
| RustlineExportProps.GitlabOneStage | src/cli/export.rs:251-288 | a one-stage pipeline is `stages:`, its entry, a blank line and its job |
| RustlineExportProps.EchoScriptLine | src/cli/export.rs:278-282 | example, one input: the echo step renders as "    - echo step" |
| RustlineExportProps.GitlabBuildJob | src/cli/export.rs:419-445 | example, one input: a docker image and one "Build" stage give the "build" job with that image and the echo script |
| RustlineExportProps.GitlabExportExample | src/cli/export.rs:419-445 | example, one input: the same pipeline gives eight lines: the stage list with "build", then the "build" job with its image |
| RustlineExportProps.BuildEntry | src/cli/export.rs:256 | example, one input: "Build" is listed as "  - build" |
| RustlineExportProps.JenkinsShape | src/cli/export.rs:290-346 | corrected, the Jenkinsfile opens with "pipeline {" and the agent directive, defines the agent's variable first in the environment block, and ends with "}" |
| RustlineExportProps.JenkinsAsWrittenShape | src/cli/export.rs:290-346 | as written, the Jenkinsfile is the agent variable lines, then "pipeline {", the agent directive, an environment block, and it ends with "}" |
| RustlineExportProps.JenkinsAgentVarLine | src/cli/export.rs:293-306 | a docker or label agent defines one variable, on an indented line |
| RustlineExportProps.JenkinsAsWrittenOutside | src/cli/export.rs:293-315 | as written, a docker or label agent puts its variable definition before "pipeline {", outside the block; corrected, the file starts with "pipeline {" |
| RustlineExportProps.JenkinsAsWrittenAgrees | src/cli/export.rs:293-315 | with no variable to define, the file as written and the corrected one are the same |
| RustlineLint.Rank | src/cli/lint.rs:76-88 | the severity order used by the filter: info lowest at 0, error highest at 2 |
| RustlineLint.CheckMissingAgent | src/cli/lint.rs:93-124 | at most one message, and only the P001 warning |
| RustlineLint.StageBlock | src/cli/lint.rs:135 | the block is the text from the match on, cut at 500 characters: a prefix of the rest, shorter only at the end of the text |
| RustlineLint.StageLine | src/cli/lint.rs:144 | corrected: the 1-based number of the line the match starts on |
| RustlineLint.TimeoutLineAsWritten | src/cli/lint.rs:144 | as written, no contract of its own: the number of lines of the text before the match; TimeoutLineInside, TimeoutLineAtLineStart and TimeoutLineZero state it |
| RustlineLint.TimeoutFor | src/cli/lint.rs:133-150 | no contract of its own: the P002 note, at the line as written, when the block has `sh!` and no `timeout!`; TimeoutReports states it |
| RustlineLint.TimeoutStage | src/cli/lint.rs:133-150 | one round of the stage loop returns what `TimeoutFor` says |
| RustlineLint.TimeoutMessages | src/cli/lint.rs:131-151 | at most one message per stage, each the P002 note |
| RustlineLint.CheckTimeouts | src/cli/lint.rs:126-154 | the loop returns the P002 messages of the stages, in order, each at the line as written |
| RustlineLint.PerLineStep | src/cli/lint.rs:169-184 | one more line adds its messages after those of the lines before it |
| RustlineLint.FirstMatch | src/cli/lint.rs:171-182 | the first unreliable pattern the line contains, and none only when it contains none |
| RustlineLint.RetryForFirst | src/cli/lint.rs:170-181 | a shell line without `retry!` is reported once, naming the first pattern it contains |
| RustlineLint.RetryLine | src/cli/lint.rs:170-183 | one line: the inner pattern loop returns the message naming the first unreliable pattern, or none |
| RustlineLint.CheckRetry | src/cli/lint.rs:156-187 | the line loop returns the P003 messages line by line: for each shell line without `retry!`, one naming its first unreliable pattern |
| RustlineLint.CheckEmptyStages | src/cli/lint.rs:189-205 | one P004 error per captured empty stage, in order, naming the stage |
| RustlineLint.EmptyStageMessages | src/cli/lint.rs:194-202 | one message per empty stage |
| RustlineLint.CheckHardcodedSecrets | src/cli/lint.rs:207-223 | the line loop returns the P005 messages line by line |
| RustlineLint.CheckPostConditions | src/cli/lint.rs:225-242 | at most one message, and only the P007 note |
| RustlineLint.KeepAtLeast | src/cli/lint.rs:76-88 | the filter never adds messages |
| RustlineLint.KeepStep | src/cli/lint.rs:76-88 | one more message is kept exactly when its severity ranks at least the minimum |
| RustlineLint.LintPipeline | src/cli/lint.rs:63-91 | the six checks' messages in order, then the severity filter |
| RustlineLint.Retain | src/cli/lint.rs:76-88 | `retain` keeps the messages whose severity ranks at least the minimum |
| RustlineLint.FormatText | src/cli/lint.rs:244-263 | no messages give "No lint issues found."; otherwise two lines per message |
| RustlineLintProps.KeepAtLeastMembers | src/cli/lint.rs:76-88 | a message is kept exactly when it was there and its severity ranks at least the minimum |
| RustlineLintProps.KeepAtLeastAppend | src/cli/lint.rs:76-88 | filtering distributes over concatenation, so the order is kept |
| RustlineLintProps.KeepAtLeastInfo | src/cli/lint.rs:48-50 | with the default minimum, info, nothing is filtered out |
| RustlineLintProps.LintKeeps | src/cli/lint.rs:63-91 | a message is reported exactly when some check gives it and its severity ranks at least the minimum |
| RustlineLintProps.WithCodeAppend | src/cli/lint.rs:67-74 | picking one code distributes over concatenation |
| RustlineLintProps.WithCodeAll | src/cli/lint.rs:67-74 | picking a code that every message has keeps them all |
| RustlineLintProps.WithCodeNone | src/cli/lint.rs:67-74 | picking a code when every message has another keeps none |
| RustlineLintProps.WithCodeParts | src/cli/lint.rs:67-74 | the messages of one code are those of the one check that gives that code |
| RustlineLintProps.WithCodeOf | src/cli/lint.rs:67-74 | a list of one code contributes all of itself to that code and nothing to any other |
| RustlineLintProps.WithCodeSix | src/cli/lint.rs:67-74 | the messages of a code in six lists of one code each are the lists whose code it is, in order |
| RustlineLintProps.PartsCoded | src/cli/lint.rs:93-242 | each check gives only its own code: P001, P002, P003, P004, P005 and P007 |
| RustlineLintProps.PerLineCode | src/cli/lint.rs:169-184 | a line check whose messages all have one code gives only that code |
| RustlineLintProps.RetryCode | src/cli/lint.rs:174 | the retry check gives only P003 |
| RustlineLintProps.SecretCode | src/cli/lint.rs:213 | the secrets check gives only P005 |
| RustlineLintProps.MissingAgentReport | src/cli/lint.rs:93-124 | P001 is reported, once, exactly when the text has `pipeline!`, no agent macro and at least one stage |
| RustlineLintProps.PostConditionsReport | src/cli/lint.rs:225-242 | P007 is reported, once, exactly when the text has `pipeline!` and no `post!` |
| RustlineLintProps.EmptyStagesReport | src/cli/lint.rs:189-205 | the P004 messages are exactly those of the empty stages, in order |
| RustlineLintProps.EmptyStageAlwaysReported | src/cli/lint.rs:76-88 | an empty stage's error survives every minimum severity |
| RustlineLintProps.EmptyStageExample | src/cli/lint.rs:189-205 | example, one input: an empty stage named "Empty" is reported as P004 under the default configuration |
| RustlineLintProps.PerLineOrdered | src/cli/lint.rs:169-184 | a line check with at most one message per line, numbered by the line, gives line numbers within the text and strictly increasing |
| RustlineLintProps.PerLineComplete | src/cli/lint.rs:169-184 | every line with a message has it reported at its number |
| RustlineLintProps.RetryOneAtLine | src/cli/lint.rs:169-184 | the retry check gives at most one message per line, numbered by the line |
| RustlineLintProps.RetryForGiven | src/cli/lint.rs:170-181 | a retry message comes from a shell line without `retry!` and names its first unreliable pattern |
| RustlineLintProps.RetryForTaken | src/cli/lint.rs:170-181 | a shell line without `retry!` containing an unreliable pattern is reported |
| RustlineLintProps.RetryOnePerLine | src/cli/lint.rs:169-184 | retry messages have strictly increasing line numbers |
| RustlineLintProps.RetrySound | src/cli/lint.rs:169-184 | every retry message is at a shell line without `retry!`, names that line's first unreliable pattern and carries its number |
| RustlineLintProps.RetryComplete | src/cli/lint.rs:169-184 | every such line is reported |
| RustlineLintProps.SecretOneAtLine | src/cli/lint.rs:210-220 | the secrets check gives at most one message per line, numbered by the line |
| RustlineLintProps.SecretForGiven | src/cli/lint.rs:211-219 | a secret message comes from a line with "password", a quote and more than 20 bytes |
| RustlineLintProps.SecretForTaken | src/cli/lint.rs:211-219 | every such line is reported |
| RustlineLintProps.SecretOnePerLine | src/cli/lint.rs:210-220 | secret messages have strictly increasing line numbers |
| RustlineLintProps.SecretSound | src/cli/lint.rs:210-220 | every secret message is at such a line and carries its number |
| RustlineLintProps.SecretComplete | src/cli/lint.rs:210-220 | every such line is reported at its number |
| RustlineLintProps.TimeoutReports | src/cli/lint.rs:131-151 | a stage is reported exactly when its block has `sh!` and no `timeout!`, with its name and the line as written |
| RustlineLintProps.StageLineOfMatch | src/cli/lint.rs:144 | corrected, the line of a match that does not start a line is the number of lines up to and including its first character |
| RustlineLintProps.TimeoutLineInside | src/cli/lint.rs:144 | when the match does not start a line, the line as written is the right one |
| RustlineLintProps.TimeoutLineAtLineStart | src/cli/lint.rs:144 | when the match starts a line, the line as written is one too small |
| RustlineLintProps.TimeoutLineZero | src/cli/lint.rs:144 | a match at the very start is reported at line 0, though it is on line 1 |
| RustlineLintProps.ReportLayout | src/cli/lint.rs:251-260 | each message gives "code: message (line n) [severity]" and its indented suggestion, empty when there is none |
| RustlineDoc.ParseTags | src/cli/doc.rs:66-70 | one tag per comma-separated piece, at least one, none holding a comma |
| RustlineDoc.ExtractStages | src/cli/doc.rs:84-118 | one stage document per captured stage, in order |
| RustlineDoc.ParsePipelineDoc | src/cli/doc.rs:59-77 | title, description and author as captured; tags split from the captured list, or none; stages, parameters and environment from the captures |
| RustlineDoc.PushStepLine | src/cli/doc.rs:179-185 | a step line "- `<type>`", then ": <description>" when there is one |
| RustlineDoc.PushStage | src/cli/doc.rs:174-188 | the stage heading and a blank line; a `#### Steps` block only when the stage has steps |
| RustlineDoc.PushMetadata | src/cli/doc.rs:160-169 | the metadata block, present only with an author or tags, the tags joined by ", " |
| RustlineDoc.PushStages | src/cli/doc.rs:171-189 | the `## Stages` block, present only when there are stages, each stage in turn |
| RustlineDoc.PushEnvironment | src/cli/doc.rs:191-197 | the environment block, present only with variables, one line each |
| RustlineDoc.RenderMarkdown | src/cli/doc.rs:147-200 | the document is the lines of the title, description, metadata, stages and environment, each ended by a newline |
| RustlineDoc.HtmlLines | src/cli/doc.rs:210-222 | one HTML line per Markdown line |
| RustlineDoc.RenderHtml | src/cli/doc.rs:206-225 | the HTML is the Markdown rendered and converted line by line |
| RustlineDoc.GenerateDoc | src/cli/doc.rs:46-57 | Markdown and HTML are rendered from the parsed document; JSON is not produced by this model |
| RustlineDocProps.TagsTrimmed | src/cli/doc.rs:69 | every tag is trimmed and holds no comma |
| RustlineDocProps.TrimOfTrimmed | src/cli/doc.rs:69 | trimming a trimmed text changes nothing |
| RustlineDocProps.TrimSpaced | src/cli/doc.rs:69 | trimming a space before a trimmed text gives the text |
| RustlineDocProps.Spaced | src/cli/doc.rs:166 | one tag per tag, each but the first behind a space |
| RustlineDocProps.JoinSpaced | src/cli/doc.rs:166 | joining by ", " is joining the spaced tags by "," |
| RustlineDocProps.JoinShift | src/cli/doc.rs:166 | joining space-prefixed texts by "," is a space and the texts joined by ", "; a join by ", " is the first text and the rest |
| RustlineDocProps.TagsRoundTrip | src/cli/doc.rs:66-70 | tags rendered joined by ", " parse back to the same tags, when each is trimmed and holds no comma |
| RustlineDocProps.SplitOfJoinedTags | src/cli/doc.rs:69 | splitting tags joined by ", " at the commas gives the spaced tags |
| RustlineDocProps.MarkdownTitle | src/cli/doc.rs:150-154 | the document starts with "# " and the title, or the default title, then a blank line |
| RustlineDocProps.MetadataIff | src/cli/doc.rs:160-169 | the `## Metadata` heading follows title and description exactly when there is an author or a tag |
| RustlineDocProps.StageShape | src/cli/doc.rs:174-188 | a stage is its heading and a blank line; with steps, `#### Steps`, a blank line, one line per step and a blank line; without, nothing more |
| RustlineDocProps.StepLineStart | src/cli/doc.rs:180 | every step line starts with "- `" |
| RustlineDocProps.StageBodyNoHeading | src/cli/doc.rs:174-188 | no line of a stage after its heading is a stage heading |
| RustlineDocProps.StageHeadingsAt | src/cli/doc.rs:171-189 | every stage's heading appears where that stage begins |
| RustlineDocProps.StageHeadingAt | src/cli/doc.rs:175 | stage i's heading "### <name>" is the first line of its block |
| RustlineDocProps.StageHeadingsOnly | src/cli/doc.rs:171-189 | a line of the stages block is a stage heading only where a stage begins |
| RustlineDocProps.LinesNoBreakAppend | src/cli/doc.rs:147-200 | two lists of lines without line breaks give a list without |
| RustlineDocProps.NoBreakJoin | src/cli/doc.rs:166 | joining texts without line breaks by a separator without one gives a text without |
| RustlineDocProps.StepLineNoBreak | src/cli/doc.rs:179-185 | a step without line breaks gives lines without |
| RustlineDocProps.StageLinesNoBreak | src/cli/doc.rs:174-188 | a stage without line breaks gives lines without |
| RustlineDocProps.MetadataLinesNoBreak | src/cli/doc.rs:160-169 | an author and tags without line breaks give metadata lines without |
| RustlineDocProps.HeadLinesNoBreak | src/cli/doc.rs:150-169 | title, description and metadata lines carry no line break when the document's texts carry none |
| RustlineDocProps.StagesLinesNoBreak | src/cli/doc.rs:171-189 | the stages block carries no line break when the stages carry none |
| RustlineDocProps.EnvironmentLinesNoBreak | src/cli/doc.rs:191-197 | the environment block carries no line break when the names carry none |
| RustlineDocProps.TailLinesNoBreak | src/cli/doc.rs:171-197 | stages and environment blocks carry no line break |
| RustlineDocProps.MarkdownNoBreaks | src/cli/doc.rs:147-200 | a document whose texts carry no line break renders to lines that carry none, so reading the text back gives the same lines |
| RustlineDocProps.HtmlPerMarkdownLine | src/cli/doc.rs:206-225 | for such a document, the i-th HTML line is the conversion of the i-th Markdown line |
| RustlineDocProps.HtmlHeadings | src/cli/doc.rs:211-218 | "# ", "## " and "### " headings become h1, h2 and h3 around the rest of the line, and an empty line becomes "<br/>" |
| RustlineDocProps.HtmlTitle | src/cli/doc.rs:206-225 | the HTML starts with the title as h1, then "<br/>" |
| ExecLib.ErrorMessage | crates/pipeliner-executor/src/lib.rs:54-75 | each error displays as its fixed text with the reason, the I/O message or the attempt count |
| ExecLib.DefaultStatus | crates/pipeliner-executor/src/lib.rs:102-106 | the default status is Pending |
| ExecLib.StatusName | crates/pipeliner-executor/src/lib.rs:85-100 | every status has a non-empty printed name |
| ExecLib.StatusNameInjective | crates/pipeliner-executor/src/lib.rs:85-100 | distinct statuses print distinctly |
| ExecLib.StatusClassification | crates/pipeliner-executor/src/lib.rs:108-123 | `is_success` holds for Success alone; `is_failure` for Failure, Timeout and Aborted; Pending, Running and Unstable are neither; none is both |
| ExecLib.DefaultResult | crates/pipeliner-executor/src/lib.rs:140-150 | the default result is pending, with zero duration and counts and no error |
| ExecLib.SuccessResult | crates/pipeliner-executor/src/lib.rs:155-163 | `success` gives a successful result with the given counts and duration and no error |
| ExecLib.FailureResult | crates/pipeliner-executor/src/lib.rs:167-180 | `failure` gives a failed result with the given counts, duration and error |
| ExecLib.ResultPredicatesAgree | crates/pipeliner-executor/src/lib.rs:184-192 | a result's `is_success` is its status's, but its `is_failure` is narrower: a Timeout or Aborted result is a failing status and not a failed result |
| ExecLib.DefaultConfig | crates/pipeliner-executor/src/context.rs:40-55 | the current directory or ".", an empty environment, no global timeout or output file, no retries with a one-second delay, cleanup on, not quiet, colours exactly when standard output is a terminal |
| ExecContext.NewCtx | crates/pipeliner-executor/src/context.rs:95-110 | a new context starts in the current directory or ".", with nothing stashed, stacked, recorded, set or marked |
| ExecContext.PushDirOf | crates/pipeliner-executor/src/context.rs:121-124 | the old directory goes on top of the stack and the path becomes the directory verbatim; nothing else changes |
| ExecContext.PopDirOf | crates/pipeliner-executor/src/context.rs:127-134 | on an empty stack nothing changes and None is returned; otherwise the top is removed, becomes the directory and is returned; nothing else changes |
| ExecContext.PopAfterPush | crates/pipeliner-executor/src/context.rs:121-134 | `pop_dir` after `push_dir` returns the old directory and restores the context |
| ExecContext.StashOf | crates/pipeliner-executor/src/context.rs:143-146 | after `stash` the name is stashed; nothing else changes |
| ExecContext.UnstashOf | crates/pipeliner-executor/src/context.rs:149-152 | `unstash` returns a path exactly when the name was stashed, and removes the name; nothing else changes |
| ExecContext.StashThenUnstashTwice | crates/pipeliner-executor/src/context.rs:143-159 | after `stash(n, p)` `has_stash(n)` holds and `unstash(n)` gives p; a second `unstash(n)` gives None |
| ExecContext.StashOverwrites | crates/pipeliner-executor/src/context.rs:143-146 | a second stash of a name replaces its path; other names are unaffected |
| ExecContext.RecordStageResultOf | crates/pipeliner-executor/src/context.rs:162-165 | the stage result is appended at the end, earlier entries and everything else kept |
| ExecContext.RecordStepResultOf | crates/pipeliner-executor/src/context.rs:168-171 | the step result is appended at the end, earlier entries and everything else kept |
| ExecContext.SetParameterOf | crates/pipeliner-executor/src/context.rs:174-176 | the parameter then reads back as the value; only the parameters change |
| ExecContext.ParameterRoundTrip | crates/pipeliner-executor/src/context.rs:174-182 | `set_parameter` then `get_parameter` gives the value, other names keep theirs, and a fresh context has none |
| ExecContext.SetMetadataOf | crates/pipeliner-executor/src/context.rs:185-187 | the metadata then reads back as the value; only the metadata change |
| ExecContext.MetadataOtherKeys | crates/pipeliner-executor/src/context.rs:185-193 | setting one key leaves every other key as it was |
| ExecContext.ResolveOf | crates/pipeliner-executor/src/context.rs:216-225 | a parameter of the name wins; otherwise the environment's resolution; a value exists exactly when either has the name |
| ExecContext.ParameterShadowsEnvironment | crates/pipeliner-executor/src/context.rs:216-225 | a parameter shadows an environment variable of the same name |
| ExecContext.CtxWithVariable | crates/pipeliner-executor/src/context.rs:216-225 | adding a variable changes only the environment |
| ExecContext.ResolveFallsBack | crates/pipeliner-executor/src/context.rs:216-225 | a plain environment variable resolves to its value when no parameter has the name |
| ExecContext.ExecutionContext.constructor | crates/pipeliner-executor/src/context.rs:95-110 | the object starts in the state `NewCtx` describes, with its id and start time |
| ExecContext.ExecutionContext.WithWorkingDir | crates/pipeliner-executor/src/context.rs:114-118 | the same, but in the given directory |
| ExecContext.ExecutionContext.Cwd | crates/pipeliner-executor/src/context.rs:138-140 | `cwd` is the current directory |
| ExecContext.ExecutionContext.PushDir | crates/pipeliner-executor/src/context.rs:121-124 | the object's new state is `PushDirOf` of the old one |
| ExecContext.ExecutionContext.PopDir | crates/pipeliner-executor/src/context.rs:127-134 | the result and the new state are those of `PopDirOf` |
| ExecContext.ExecutionContext.Stash | crates/pipeliner-executor/src/context.rs:143-146 | the new state is `StashOf` of the old one |
| ExecContext.ExecutionContext.Unstash | crates/pipeliner-executor/src/context.rs:149-152 | the result and the new state are those of `UnstashOf` |
| ExecContext.ExecutionContext.RecordStageResult | crates/pipeliner-executor/src/context.rs:162-165 | the new state is `RecordStageResultOf` of the old one |
| ExecContext.ExecutionContext.RecordStepResult | crates/pipeliner-executor/src/context.rs:168-171 | the new state is `RecordStepResultOf` of the old one |
| ExecContext.ExecutionContext.SetParameter | crates/pipeliner-executor/src/context.rs:174-176 | the new state is `SetParameterOf` of the old one |
| ExecContext.ExecutionContext.SetMetadata | crates/pipeliner-executor/src/context.rs:185-187 | the new state is `SetMetadataOf` of the old one |
| ExecContext.ExecutionContext.SetCurrentStage | crates/pipeliner-executor/src/context.rs:196-198 | only the stage marker changes, to the name |
| ExecContext.ExecutionContext.SetCurrentStep | crates/pipeliner-executor/src/context.rs:201-203 | only the step marker changes, to the name |
| ExecContext.ExecutionContext.ClearCurrentStage | crates/pipeliner-executor/src/context.rs:206-208 | only the stage marker changes, to None |
| ExecContext.ExecutionContext.ClearCurrentStep | crates/pipeliner-executor/src/context.rs:211-213 | only the step marker changes, to None |
| ExecContext.PushPopDir | crates/pipeliner-executor/src/context.rs:121-134 | on the object, `push_dir` then `pop_dir` returns the old directory and leaves every field as it was |
| ExecRuntime.Placeholder | crates/pipeliner-executor/src/runtime.rs:366 | the placeholder of a key is "${", the key and "}" |
| ExecRuntime.EnvStrings | crates/pipeliner-executor/src/runtime.rs:336-338 | a process gets one variable per environment entry, its value displayed |
| ExecRuntime.CommandRun | crates/pipeliner-executor/src/runtime.rs:304-361 | running a command starts at most one process; when none starts, the result is a StepFailed error; the file system and the clock are not asked |
| ExecRuntime.RunCommand | crates/pipeliner-executor/src/runtime.rs:304-361 | the method makes the calls and returns what `CommandRun` says |
| ExecRuntime.FsRun | crates/pipeliner-executor/src/runtime.rs:374-417 | one file-system call is logged and answered by the world |
| ExecRuntime.CopyEachRun | crates/pipeliner-executor/src/runtime.rs:191-195 | when no copy fails, one copy per pattern in order; no process is started and the clock is not asked |
| ExecRuntime.CopyEach | crates/pipeliner-executor/src/runtime.rs:191-195 | the copy loop makes the calls `CopyEachRun` describes |
| ExecRuntime.StepName | crates/pipeliner-executor/src/runtime.rs:48-49 | the current-step marker is the step's name, or "unnamed" |
| ExecRuntime.ExitStatus | crates/pipeliner-executor/src/runtime.rs:110-116 | a successful exit is Success and any other exit Failure |
| ExecRuntime.StepRun | crates/pipeliner-executor/src/runtime.rs:43-94 | whatever the outcome, no current step is marked afterwards |
| ExecRuntime.ShellRun | crates/pipeliner-executor/src/runtime.rs:98-117 | a shell step leaves the context as it was |
| ExecRuntime.StashRun | crates/pipeliner-executor/src/runtime.rs:181-198 | on success the stash is recorded under `<cwd>/.pipeliner/stashes/<name>` and the result is Success; on an error the context is unchanged |
| ExecRuntime.UnstashRun | crates/pipeliner-executor/src/runtime.rs:200-213 | the name is taken out of the stash map; an unknown name is Ok(Failure) without any call; a known one ends in an error or Success |
| ExecRuntime.ScriptRun | crates/pipeliner-executor/src/runtime.rs:240-258 | a script step leaves the context as it was |
| ExecRuntime.TimeoutRun | crates/pipeliner-executor/src/runtime.rs:162-179 | no contract of its own: the inner step runs to its end, then the deadline is asked; in time its result passes on, late the result is Ok(Timeout) with the inner step's effects kept; TimeoutRules states it |
| ExecRuntime.ArchiveRun | crates/pipeliner-executor/src/runtime.rs:260-276 | an archive step leaves the context as it was and succeeds unless a copy fails |
| ExecRuntime.Execute | crates/pipeliner-executor/src/runtime.rs:43-94 | the method makes the calls and returns what `StepRun` says |
| ExecRuntime.Dispatch | crates/pipeliner-executor/src/runtime.rs:51-90 | the dispatch makes the calls and returns what `DispatchRun` says for the nested steps, Retry, Timeout and Dir |
| ExecRuntime.DispatchFlat | crates/pipeliner-executor/src/runtime.rs:51-90 | the dispatch of every other step makes the calls and returns what `DispatchRun` says |
| ExecRuntime.ExecuteShell | crates/pipeliner-executor/src/runtime.rs:98-117 | the method makes the calls and returns what `ShellRun` says |
| ExecRuntime.ExecuteRetry | crates/pipeliner-executor/src/runtime.rs:130-160 | the retry loop makes the calls and returns what `RetryRun` says for count + 1 attempts |
| ExecRuntime.ExecuteTimeout | crates/pipeliner-executor/src/runtime.rs:162-179 | the method makes the calls and returns what `TimeoutRun` says |
| ExecRuntime.ExecuteStash | crates/pipeliner-executor/src/runtime.rs:181-198 | the method makes the calls and returns what `StashRun` says |
| ExecRuntime.ExecuteUnstash | crates/pipeliner-executor/src/runtime.rs:200-213 | the method makes the calls and returns what `UnstashRun` says |
| ExecRuntime.ExecuteDir | crates/pipeliner-executor/src/runtime.rs:225-238 | the method makes the calls and returns what `DirRun` says |
| ExecRuntime.ExecuteSteps | crates/pipeliner-executor/src/runtime.rs:289-302 | the loop makes the calls and returns what `StepsRun` says |
| ExecRuntime.ExecuteScript | crates/pipeliner-executor/src/runtime.rs:240-258 | the method makes the calls and returns what `ScriptRun` says |
| ExecRuntime.ExecuteArchive | crates/pipeliner-executor/src/runtime.rs:260-276 | the method makes the calls and returns what `ArchiveRun` says |
| ExecRuntimeProps.Attempts | crates/pipeliner-executor/src/runtime.rs:137-159 | at most `left` attempts; the first runs the inner step from the start; each further attempt follows an error and starts where the previous one left off |
| ExecRuntimeProps.RetryIsLastAttempt | crates/pipeliner-executor/src/runtime.rs:137-159 | the loop ends as its last attempt did, and stops early only on an Ok result |
| ExecRuntimeProps.RetrySemantics | crates/pipeliner-executor/src/runtime.rs:130-160 | `Retry(count, inner)` makes between 1 and count + 1 attempts, all but the last ending in an error; it makes fewer than count + 1 only after an Ok result of any status; it returns what the last attempt returned |
| ExecRuntimeProps.TimeoutRules | crates/pipeliner-executor/src/runtime.rs:162-179 | the deadline is asked once, after the inner step; in time the inner result passes on, errors included; late the result is Ok(Timeout); an error comes only from an inner step that finished in time |
| ExecRuntimeProps.StepKeepsContext | crates/pipeliner-executor/src/runtime.rs:43-94 | every step leaves the context as it found it except the stash map, and leaves no current step; a late inner step of a timeout is modelled as completed |
| ExecRuntimeProps.DispatchKeepsContext | crates/pipeliner-executor/src/runtime.rs:51-90 | the dispatch changes at most the stash map and the step marker |
| ExecRuntimeProps.RetryKeepsContext | crates/pipeliner-executor/src/runtime.rs:130-160 | the retry loop changes at most the stash map and the step marker |
| ExecRuntimeProps.StepsKeepContext | crates/pipeliner-executor/src/runtime.rs:289-302 | a sequence of steps changes at most the stash map and the step marker |
| ExecRuntimeProps.DirRestoresDirectory | crates/pipeliner-executor/src/runtime.rs:225-238 | a `Dir` step gives back the directory and the stack it found, whatever the inner result; inside a timeout this holds because a late step is modelled as completed |
| ExecRuntimeProps.InertStepsSucceed | crates/pipeliner-executor/src/runtime.rs:119-128 | Echo, Input and Custom steps succeed without any call and change only the step marker |
| ExecRuntimeProps.UnstashMissingFails | crates/pipeliner-executor/src/runtime.rs:200-205 | unstashing a name never stashed is Ok(Failure) without any call |
| ExecRuntimeProps.ShellStatus | crates/pipeliner-executor/src/runtime.rs:98-117 | a command line that splits into words starts exactly one process, and the step is Success exactly when it exited successfully and Failure exactly when it did not |
| ExecRuntimeProps.StashThenUnstash | crates/pipeliner-executor/src/runtime.rs:181-213 | after a successful stash the name is stashed and a successful unstash gives Success; after the unstash no stash of the name remains |
| ExecRuntimeProps.StepsAppend | crates/pipeliner-executor/src/runtime.rs:289-302 | running a + b is running a and, only if it ended in Ok(Success), b from where a left off; otherwise later steps never run |
| ExecRuntimeProps.StepsSingle | crates/pipeliner-executor/src/runtime.rs:289-302 | a single step run as a sequence gives that step's result |
| ExecRuntimeProps.StepsEmpty | crates/pipeliner-executor/src/runtime.rs:289-302 | the empty sequence succeeds without any call |
| ExecRuntimeProps.ResolveUntouched | crates/pipeliner-executor/src/runtime.rs:363-372 | text in which no key's placeholder occurs is returned unchanged, unknown placeholders included |
| ExecRuntimeProps.ResolveWithoutPlaceholders | crates/pipeliner-executor/src/runtime.rs:363-372 | text without "${" is never changed |
| ExecRuntimeProps.ResolveExamples | crates/pipeliner-executor/src/runtime.rs:363-372 | example, one input: "${FOO}" with FOO set to "bar" gives "bar", and a masked secret is substituted as "***" |
| ExecStrategy.CellSetup | crates/pipeliner-executor/src/strategy.rs:233-237 | a cell's setup marks its name as the `matrix_cell` metadata |
| ExecStrategy.CellTurn | crates/pipeliner-executor/src/strategy.rs:229-243 | one cell as written: the sequential run from the cell's setup, counted as executed when it returned Ok and as failed otherwise |
| ExecStrategy.CellsDone | crates/pipeliner-executor/src/strategy.rs:245-260 | after the last cell: a failure naming the number of failed cells when any failed, otherwise a success; the clock is read once |
| ExecStrategy.ContinueTurn | crates/pipeliner-executor/src/strategy.rs:53-89 | a stage ending in Success or Unstable is counted with its declared steps, its marker cleared, and the loop goes on |
| ExecStrategy.StopTurn | crates/pipeliner-executor/src/strategy.rs:53-85 | any other status or an error ends the run with a failure naming the stage, counting it, with its marker left set |
| ExecStrategy.ExecuteStage | crates/pipeliner-executor/src/strategy.rs:265-282 | `execute_stage` runs the stage's steps as a sequence and returns what `StepsRun` says |
| ExecStrategy.FinishCells | crates/pipeliner-executor/src/strategy.rs:245-260 | the method reads the clock and returns what `CellsRun` says for no cells left |
| ExecStrategy.FinishStages | crates/pipeliner-executor/src/strategy.rs:91-96 | the method reads the clock and returns what `StagesRun` says for no stages left |
| ExecStrategy.Matrix | crates/pipeliner-executor/src/strategy.rs:209-261 | the matrix strategy as written makes the calls and returns what `MatrixRun` says, None standing for the panic on a zero step |
| ExecStrategy.MatrixRun | crates/pipeliner-executor/src/strategy.rs:209-261 | no matrix runs the sequential strategy; otherwise None, the panic, exactly when an axis has a zero step, and else the cell loop as written |
| ExecStrategy.CellsRun | crates/pipeliner-executor/src/strategy.rs:226-260 | as written, no contract of its own: a cell counts as failed only when its run returns Err; AsWrittenNeverCountsFailure states it |
| ExecStrategy.CellsRunIntended | crates/pipeliner-executor/src/strategy.rs:226-260 | corrected, no contract of its own: a cell counts as executed exactly when its run succeeded; CellsRunCounts states it |
| ExecStrategy.CellSucceeded | crates/pipeliner-executor/src/strategy.rs:239-242 | corrected, no contract of its own: a cell succeeded when its run returned Ok with a successful result |
| ExecStrategy.RunCell | crates/pipeliner-executor/src/strategy.rs:229-243 | one round of the cell loop as written makes the calls `CellsRun` describes for that cell |
| ExecStrategy.Sequential | crates/pipeliner-executor/src/strategy.rs:39-97 | the sequential strategy makes the calls and returns what `SequentialRun` says |
| ExecStrategy.SequentialRun | crates/pipeliner-executor/src/strategy.rs:39-97 | the sequential strategy reads the clock at least twice |
| ExecStrategy.SequentialTurn | crates/pipeliner-executor/src/strategy.rs:53-89 | one round of the stage loop makes the calls `StagesRun` describes for that stage |
| ExecStrategy.SetParameters | crates/pipeliner-executor/src/strategy.rs:235-237 | each value of the cell is set as a parameter; nothing else changes |
| ExecStrategy.StageTurn | crates/pipeliner-executor/src/strategy.rs:54-56 | a stage runs its steps with the stage marked, and the marker is cleared only when the loop goes on |
| ExecStrategy.StagesRun | crates/pipeliner-executor/src/strategy.rs:53-96 | the stage loop reads the clock at least once |
| ExecStrategyProps.AllContinueCons | crates/pipeliner-executor/src/strategy.rs:61-67 | a list of stage results all continue exactly when the first does and the rest do |
| ExecStrategyProps.AsWrittenNeverCountsFailure | crates/pipeliner-executor/src/strategy.rs:239-242 | as written, every cell counts as executed and none as failed, whatever its pipeline did, so the result is a success |
| ExecStrategyProps.CellSetupParameters | crates/pipeliner-executor/src/strategy.rs:233-237 | after a cell's setup each key of the cell reads as the cell's value and every other parameter is unchanged |
| ExecStrategyProps.CellsRunCounts | crates/pipeliner-executor/src/strategy.rs:226-260 | corrected, each cell is counted once, as executed or failed; the run succeeds exactly when none failed, and otherwise names the number failed |
| ExecStrategyProps.DeclaredStepsPrefix | crates/pipeliner-executor/src/strategy.rs:59 | the steps counted for the first k stages are the first stage's and those of the next k - 1 |
| ExecStrategyProps.EmptyPipelineSucceeds | crates/pipeliner-executor/src/strategy.rs:39-97 | a pipeline without stages succeeds with zero counts, the clock read twice, nothing else asked |
| ExecStrategyProps.FailedCellReportedAsSuccess | crates/pipeliner-executor/src/strategy.rs:239-242 | example, one input: a cell whose pipeline fails (an unstash of a missing name) is reported as a success as written, and as one failed cell by the corrected loop |
| ExecStrategyProps.FailedCellRun | crates/pipeliner-executor/src/strategy.rs:39-97 | example, one input: such a pipeline's sequential run is a failure |
| ExecStrategyProps.MatrixCountsEveryCell | crates/pipeliner-executor/src/strategy.rs:221-260 | as written, with a matrix that has no zero step, the result is a success counting every generated cell as executed and none as failed |
| ExecStrategyProps.OneCellFailedText | crates/pipeliner-executor/src/strategy.rs:252 | example, one input: one failed cell gives the text "1 matrix cells failed" |
| ExecStrategyProps.SequentialNeverFails | crates/pipeliner-executor/src/strategy.rs:39-97 | the sequential strategy always returns a result, never an error |
| ExecStrategyProps.StageRuns | crates/pipeliner-executor/src/strategy.rs:53-89 | the stage loop runs at most one stage per declared stage |
| ExecStrategyProps.StagesRunCounts | crates/pipeliner-executor/src/strategy.rs:53-96 | the stages counted are those run; the steps counted are the declared steps of those stages, not those executed; the duration is from the start to the last clock reading |
| ExecStrategyProps.StagesRunStatus | crates/pipeliner-executor/src/strategy.rs:53-96 | the result is a success exactly when every stage ended in Success or Unstable, in which case all ran; otherwise the failing stage stays marked as current |
| ExecLocal.Execute | crates/pipeliner-executor/src/local.rs:136-181 | the method makes the calls and returns what `ExecuteRun` says |
| ExecLocal.ExecuteRetry | crates/pipeliner-executor/src/local.rs:91-108 | the retry loop makes the calls and returns what `RetryRun` says |
| ExecLocal.ExecuteStep | crates/pipeliner-executor/src/local.rs:39-133 | the method makes the calls and returns what `StepRun` says |
| ExecLocalProps.Attempts | crates/pipeliner-executor/src/local.rs:93-101 | at most `count` attempts |
| ExecLocalProps.EchoStep | crates/pipeliner-executor/src/local.rs:82-90 | an echo succeeds with its message as output, without any call |
| ExecLocalProps.ExecuteIsFlat | crates/pipeliner-executor/src/local.rs:146-166 | running the stages is running all their steps as one sequence |
| ExecLocalProps.ExecuteShape | crates/pipeliner-executor/src/local.rs:136-181 | at most one result per step; every result but the last succeeded; fewer results than steps only after a failure; each result is named after its step; no stages give no results |
| ExecLocalProps.FlatRunNamed | crates/pipeliner-executor/src/local.rs:155-163 | the k-th result is named after the k-th step |
| ExecLocalProps.FlatRunStops | crates/pipeliner-executor/src/local.rs:155-163 | the loop stops right after the first failing step and runs every step otherwise |
| ExecLocalProps.OtherStepSucceeds | crates/pipeliner-executor/src/local.rs:126-131 | any other step kind succeeds, named after the step, with the "not implemented" output |
| ExecLocalProps.PlainStepNamed | crates/pipeliner-executor/src/local.rs:41 | a step other than retry and timeout is named after itself, or "unnamed" |
| ExecLocalProps.RetryByAttempts | crates/pipeliner-executor/src/local.rs:91-108 | attempts continue only after failures; the retry succeeds exactly when the last attempt did, returning it unchanged; otherwise all attempts ran and the output names the count and the last error |
| ExecLocalProps.RetryRunNamed | crates/pipeliner-executor/src/local.rs:91-108 | a retry's result is named after the retry or after its inner step |
| ExecLocalProps.RetryStep | crates/pipeliner-executor/src/local.rs:91-108 | `Retry(count, inner)` runs inner at most count times, stopping at the first success, which it returns; otherwise it fails, named after itself |
| ExecLocalProps.RetryZeroFails | crates/pipeliner-executor/src/local.rs:91-108 | a retry with count 0 runs nothing and fails with "Retry failed after 0 attempts: " |
| ExecLocalProps.RunFromIsFlat | crates/pipeliner-executor/src/local.rs:146-166 | the nested stage and step loops are one loop over the flattened steps |
| ExecLocalProps.ShellStep | crates/pipeliner-executor/src/local.rs:44-81 | one shell call; success exactly when it finished with a successful exit; the output is stdout when non-empty, else stderr, or the spawn error's message |
| ExecLocalProps.StepRunNamed | crates/pipeliner-executor/src/local.rs:39-133 | every result is named after its step or a step inside it |
| ExecLocalProps.TimeoutStep | crates/pipeliner-executor/src/local.rs:109-125 | in time the inner result passes on; late the step fails, named after itself, with "Timeout after <n> seconds" |
| CoreMatrix.ValidateAxis | crates/pipeliner-core/src/matrix.rs:138-165 | an axis fails exactly when it is a Values axis with no values or a Range axis whose step is not positive or whose start exceeds its end; a non-positive step is reported as such before the bounds |
| CoreMatrix.Validate | crates/pipeliner-core/src/matrix.rs:131-169 | a matrix validates exactly when it has an axis and every axis passes; without axes the error is "matrix must have at least one axis" |
| CoreMatrix.FileAndExpressionAxesPass | crates/pipeliner-core/src/matrix.rs:164 | a non-empty matrix of File and Expression axes always validates |
| CoreMatrix.Stride | crates/pipeliner-core/src/matrix.rs:189 | the `as usize` cast keeps a positive step and turns a negative i64 step into a stride of at least 2^63 |
| CoreMatrix.RangeValues | crates/pipeliner-core/src/matrix.rs:188-191 | an inclusive range is empty exactly when start exceeds end, and otherwise begins with the start rendered in decimal |
| CoreMatrix.RangeOneToThree | crates/pipeliner-core/src/matrix.rs:188-191 | example, one input: the range 1..=3 with step 1 yields "1", "2", "3" |
| CoreMatrix.RangeCount | crates/pipeliner-core/src/matrix.rs:188-191 | a non-empty range yields n values where (n-1) strides fit between start and end and n strides do not |
| CoreMatrix.NegativeStepGivesStart | crates/pipeliner-core/src/matrix.rs:153-157 | a negative step, which validation rejects, makes generation yield only the start value when the range spans less than 2^63 |
| CoreMatrix.AxisValues | crates/pipeliner-core/src/matrix.rs:177-196 | at most one entry per axis, and no entry at all exactly when every axis is a File or Expression axis |
| CoreMatrix.FindExclusion | crates/pipeliner-core/src/matrix.rs:235-249 | `Some(true)` exactly when some exclusion has all its pairs in the combination; never `Some(false)` |
| CoreMatrix.EmptyExclusionMatchesAll | crates/pipeliner-core/src/matrix.rs:236-246 | an exclusion with no pairs matches every combination |
| CoreMatrix.CartesianProduct | crates/pipeliner-core/src/matrix.rs:208-232 | the recursion appends the product of the remaining axes to the results and hands back the working map |
| CoreMatrix.ProductCount | crates/pipeliner-core/src/matrix.rs:208-232 | without exclusions the product has as many combinations as the product of the axis sizes |
| CoreMatrix.ProductLoopCount | crates/pipeliner-core/src/matrix.rs:226-231 | the loop over an axis's values produces that many values times the size of the product of the later axes |
| CoreMatrix.ProductAllExcluded | crates/pipeliner-core/src/matrix.rs:215-222 | an exclusion with no pairs leaves the product empty |
| CoreMatrix.ProductLoopAllExcluded | crates/pipeliner-core/src/matrix.rs:226-231 | an exclusion with no pairs leaves the loop over any values empty |
| CoreMatrix.Kept | crates/pipeliner-core/src/matrix.rs:217-222 | a combination is kept exactly when it is one of the candidates and no exclusion matches it |
| CoreMatrix.KeptAppend | crates/pipeliner-core/src/matrix.rs:217-222 | filtering out excluded combinations distributes over concatenation |
| CoreMatrix.InsertRemoveFresh | crates/pipeliner-core/src/matrix.rs:228-230 | inserting an absent axis name appends its pair, and removing it restores the map |
| CoreMatrix.ProductIsExpand | crates/pipeliner-core/src/matrix.rs:208-232 | with distinct axis names absent from the map, the product is the textbook cartesian product (later axes varying fastest) minus excluded combinations, and the map is handed back unchanged |
| CoreMatrix.ProductLoopIsExpandEach | crates/pipeliner-core/src/matrix.rs:226-231 | the loop over one axis's values is the textbook expansion of each value in order, minus excluded combinations, with the map handed back |
| CoreMatrix.Combinations | crates/pipeliner-core/src/matrix.rs:172-205 | generation has no result (it panics) exactly when some range has step 0 |
| CoreMatrix.GenerateCombinations | crates/pipeliner-core/src/matrix.rs:172-205 | running the recursion yields the combinations of the specification |
| CoreMatrix.OnlyFileOrExpressionIsEmpty | crates/pipeliner-core/src/matrix.rs:173-200 | with only File and Expression axes, or none, there are no combinations |
| CoreMatrix.CombinationCount | crates/pipeliner-core/src/matrix.rs:172-205 | without exclusions the combinations are the full product, as many as the product of the axis sizes |
| CoreMatrix.EmptyExclusionNoCombinations | crates/pipeliner-core/src/matrix.rs:172-205 | an exclusion with no pairs leaves no combination |
| CoreMatrix.Parts | crates/pipeliner-core/src/matrix.rs:259 | one "k=v" part per pair, in the map's iteration order |
| CoreMatrix.TemplatedNameHasNoBraces | crates/pipeliner-core/src/matrix.rs:253-257 | a templated cell name contains no brace |
| CoreMatrix.BracelessTemplateIsName | crates/pipeliner-core/src/matrix.rs:253-257 | a template without braces is used verbatim as every cell's name |
| CoreMatrix.UntemplatedEmptyName | crates/pipeliner-core/src/matrix.rs:258-262 | without a template an empty combination is named "cell-" followed by its index |
| CoreMatrix.Cell | crates/pipeliner-core/src/matrix.rs:113-118 | a cell carries its index and its combination |
| CoreMatrix.CellsOf | crates/pipeliner-core/src/matrix.rs:112-119 | one cell per combination, the i-th built from the i-th combination with index i |
| CoreMatrix.GenerateCells | crates/pipeliner-core/src/matrix.rs:108-122 | the loop yields one cell per combination in order, and panics exactly when generation does |
| CoreMatrix.CellCount | crates/pipeliner-core/src/matrix.rs:126-128 | the count equals the number of cells generated, and is absent exactly when generation panics |
| CoreMatrix.MatrixIterator.constructor | crates/pipeliner-core/src/matrix.rs:273-280 | the iterator holds the configuration and its generated combinations, positioned at 0 |
| CoreMatrix.MatrixIterator.Next | crates/pipeliner-core/src/matrix.rs:286-301 | past the end it yields None and stays; otherwise it yields the cell at the position and advances by one |
| CoreMatrix.MatrixIterator.SizeHint | crates/pipeliner-core/src/matrix.rs:303-306 | both bounds equal the remaining cells, saturating at zero past the end |
| CoreMatrix.Drain | crates/pipeliner-core/src/matrix.rs:269-307 | iterating a fresh iterator to the end yields exactly the cells of `generate_cells`, as many as the first size hint announced |
| CorePipeline.DefaultComparator | crates/pipeliner-core/src/pipeline/mod.rs:184-186 | a branch or tag condition without a comparator compares with "GLOB" |
| CorePipeline.DefaultStep | crates/pipeliner-core/src/pipeline/mod.rs:392-403 | the default step echoes the empty message and has no name, timeout or retry |
| CorePipeline.NewPipeline | crates/pipeliner-core/src/pipeline/mod.rs:405-410 | a new pipeline has no optional setting, no variables and no stages |
| CorePipeline.WithName | crates/pipeliner-core/src/pipeline/mod.rs:414-417 | the builder sets the name and leaves every other field as it was |
| CorePipeline.WithDescription | crates/pipeliner-core/src/pipeline/mod.rs:421-424 | the builder sets the description and leaves every other field as it was |
| CorePipeline.WithAgent | crates/pipeliner-core/src/pipeline/mod.rs:428-431 | the builder sets the agent and leaves every other field as it was |
| CorePipeline.WithEnvironment | crates/pipeliner-core/src/pipeline/mod.rs:435-438 | the builder replaces the variables and leaves every other field as it was |
| CorePipeline.WithParameters | crates/pipeliner-core/src/pipeline/mod.rs:442-445 | the builder sets the parameters and leaves every other field as it was |
| CorePipeline.WithOptions | crates/pipeliner-core/src/pipeline/mod.rs:449-452 | the builder sets the options and leaves every other field as it was |
| CorePipeline.WithStage | crates/pipeliner-core/src/pipeline/mod.rs:456-459 | the builder appends the stage after the earlier stages, in order, and changes nothing else |
| CorePipeline.WithMatrix | crates/pipeliner-core/src/pipeline/mod.rs:463-466 | the builder sets the matrix and leaves every other field as it was |
| CorePipeline.ValidateStage | crates/pipeliner-core/src/pipeline/mod.rs:509-525 | a stage is valid exactly when it has a name and a step; an empty name is reported first, then missing steps with the stage's name |
| CorePipeline.ValidatePipeline | crates/pipeliner-core/src/pipeline/mod.rs:485-507 | no stages is `EmptyStages`; otherwise the pipeline is valid exactly when every stage, the matrix if any and the parameters if any are valid, and the first failing stage's error wins |
| CorePipeline.ValidationIgnoresSettings | crates/pipeliner-core/src/pipeline/mod.rs:488-506 | name, agent, options and variables never change the verdict |
| CorePipeline.OneStagePipelineValid | crates/pipeliner-core/src/pipeline/mod.rs:488-524 | a default pipeline with one named stage holding a step is valid |
| CoreValidation.ValidateOption | crates/pipeliner-core/src/validation.rs:139-148 | an absent value is valid; a present one is validated |
| CoreValidation.ValidateResult | crates/pipeliner-core/src/validation.rs:124-137 | an error value counts as valid; an Ok value is validated |
| CoreValidation.ValidateAll | crates/pipeliner-core/src/validation.rs:150-159 | a vector is valid exactly when every item is, and otherwise its error is that of one of its items |
| CoreValidation.ValidateAllAppend | crates/pipeliner-core/src/validation.rs:153-158 | validating a concatenation returns the first part's error if any, else the second part's verdict |
| CoreValidation.ValidationContext.constructor | crates/pipeliner-core/src/validation.rs:171-173 | a new context has an empty path |
| CoreValidation.ValidationContext.Push | crates/pipeliner-core/src/validation.rs:176-178 | push appends the component, and the path string gains "." and the component (or is the component at the root) |
| CoreValidation.ValidationContext.Pop | crates/pipeliner-core/src/validation.rs:181-183 | pop drops the last component, and does nothing at the root |
| CoreValidation.ValidationContext.PathString | crates/pipeliner-core/src/validation.rs:187-189 | the path string is empty at the root and the single component one level down |
| CoreValidation.ValidationContext.Wrap | crates/pipeliner-core/src/validation.rs:192-204 | the error is returned unchanged exactly at the root; deeper, it is wrapped with the current path |
| CoreValidation.PushPopRestores | crates/pipeliner-core/src/validation.rs:176-183 | a push followed by a pop restores the path and its string |
| CoreValidation.ValidateName | crates/pipeliner-core/src/validation.rs:212-218 | a name is rejected with `EmptyName` exactly when every character is white space |
| CoreValidation.ValidateTimeout | crates/pipeliner-core/src/validation.rs:221-233 | a timeout is valid exactly when it is between 1 and 604800 seconds, with distinct messages for zero and for over seven days |
| CoreValidation.ValidateRetry | crates/pipeliner-core/src/validation.rs:236-243 | a retry count is valid exactly when it is at most 10 |
| CoreValidation.FirstRepeatFrom | crates/pipeliner-core/src/validation.rs:246-256 | the position found repeats an earlier name, and when none is found no later name does |
| CoreValidation.FirstRepeat | crates/pipeliner-core/src/validation.rs:246-256 | there is no repeated position exactly when the names are pairwise different |
| CoreValidation.ValidateUniqueStages | crates/pipeliner-core/src/validation.rs:246-256 | the set-based scan succeeds when no name repeats, and otherwise reports the first name that repeats an earlier one |
| CoreAgent.DefaultNamespace | crates/pipeliner-core/src/agent.rs:88-90 | a Kubernetes agent without a namespace uses "default" |
| CoreAgent.AnyAgent | crates/pipeliner-core/src/agent.rs:292-294 | `any` builds the Any agent |
| CoreAgent.LabelAgent | crates/pipeliner-core/src/agent.rs:298-302 | `label` builds a label agent carrying exactly the given label |
| CoreAgent.DockerAgent | crates/pipeliner-core/src/agent.rs:306-315 | `docker` builds a Docker agent with the image and no registry, credentials, working directory or variables, and no forced pull |
| CoreAgent.KubernetesAgent | crates/pipeliner-core/src/agent.rs:319-327 | `kubernetes` builds an agent in namespace "default" with no pod template, image, service account or node selector |
| CoreOptions.DefaultThreshold | crates/pipeliner-core/src/options.rs:157-159 | an upstream trigger without a threshold uses "SUCCESS" |
| CoreOptions.NewOptions | crates/pipeliner-core/src/options.rs:213-215 | new options set nothing and raise no flag |
| CoreOptions.WithTimeout | crates/pipeliner-core/src/options.rs:219-222 | the builder sets the timeout and leaves every other option as it was |
| CoreOptions.WithRetry | crates/pipeliner-core/src/options.rs:226-229 | the builder sets the retry and leaves every other option as it was |
| CoreOptions.WithDiscarder | crates/pipeliner-core/src/options.rs:233-236 | the builder sets the build discarder and leaves every other option as it was |
| CoreOptions.BlockDownstream | crates/pipeliner-core/src/options.rs:240-243 | the builder raises the block-downstream flag and leaves every other option as it was |
| CoreOptions.BlockUpstream | crates/pipeliner-core/src/options.rs:247-250 | the builder raises the block-upstream flag and leaves every other option as it was |
| CoreOptions.TimeoutSeconds | crates/pipeliner-core/src/options.rs:256-260 | an overall timeout whose duration is the given number of whole seconds |
| CoreOptions.ActivitySeconds | crates/pipeliner-core/src/options.rs:264-268 | an inactivity timeout whose duration is the given number of whole seconds |
| CoreOptions.DurationValue | crates/pipeliner-core/src/options.rs:272-277 | both kinds of timeout report their stored duration |
| CoreOptions.RetryCount | crates/pipeliner-core/src/options.rs:283-285 | a plain retry of the given count |
| CoreOptions.RetryCountWithDelay | crates/pipeliner-core/src/options.rs:289-294 | a retry of the given count with a delay of the given whole seconds |
| CoreOptions.Attempts | crates/pipeliner-core/src/options.rs:298-303 | the attempts are one more than the retries, hence at least one, for both kinds |
| CoreOptions.AttemptsIgnoresDelay | crates/pipeliner-core/src/options.rs:298-303 | a delay never changes the number of attempts, which is the count plus one |
| CoreParameters.Name | crates/pipeliner-core/src/parameters.rs:176-186 | every kind of parameter reports its own name |
| CoreParameters.Description | crates/pipeliner-core/src/parameters.rs:190-200 | every kind of parameter reports its own description |
| CoreParameters.TypeOf | crates/pipeliner-core/src/parameters.rs:204-214 | each type tag is reported exactly for its own kind of parameter |
| CoreParameters.Push | crates/pipeliner-core/src/parameters.rs:28-30 | push appends the parameter after the earlier ones, in order |
| CoreParameters.Get | crates/pipeliner-core/src/parameters.rs:34-36 | lookup finds nothing exactly when no parameter has the name, and otherwise returns one of the parameters with that name |
| CoreParameters.GetAfterPush | crates/pipeliner-core/src/parameters.rs:28-36 | a pushed parameter is found by its name unless an earlier parameter already has that name |
| CoreParameters.Names | crates/pipeliner-core/src/parameters.rs:256-267 | one name per parameter, in declaration order |
| CoreParameters.ValidateParametersIff | crates/pipeliner-core/src/parameters.rs:256-267 | validation succeeds exactly when the names are pairwise different, and otherwise reports a duplicated name |
| CoreParameters.Validate | crates/pipeliner-core/src/parameters.rs:256-267 | the set-based loop returns the verdict of the specification |
| CoreParameters.ParameterValues.constructor | crates/pipeliner-core/src/parameters.rs:225-233 | the values are exactly the given map |
| CoreParameters.ParameterValues.GetString | crates/pipeliner-core/src/parameters.rs:237-239 | a string is returned exactly when the name is present with a JSON string, and it is that string |
| CoreParameters.ParameterValues.GetBool | crates/pipeliner-core/src/parameters.rs:243-245 | a boolean is returned exactly when the name is present with a JSON boolean, and it is that boolean |
| CoreParameters.ParameterValues.Set | crates/pipeliner-core/src/parameters.rs:248-250 | set inserts or overwrites the name, leaving every other name's value unchanged |
| CoreParameters.SetThenGet | crates/pipeliner-core/src/parameters.rs:237-250 | after setting a string, it is read back as that string and not as a boolean |
| CoreEnvironment.NewEnvironment | crates/pipeliner-core/src/environment.rs:18-20 | a new environment is empty and has no variable |
| CoreEnvironment.WrapValues | crates/pipeliner-core/src/environment.rs:24-30 | every string becomes a plain value under the same key, in the same order |
| CoreEnvironment.FromMap | crates/pipeliner-core/src/environment.rs:24-30 | the environment has the map's keys and as many entries |
| CoreEnvironment.FromMapGet | crates/pipeliner-core/src/environment.rs:24-30 | a key has a value in the environment exactly when it has one in the map, and it is that value wrapped as plain |
| CoreEnvironment.InsertGet | crates/pipeliner-core/src/environment.rs:33-35 | after an insert the key reads back the plain value, other keys are unaffected, and keys stay distinct |
| CoreEnvironment.InsertSecretGet | crates/pipeliner-core/src/environment.rs:38-46 | after inserting a secret the key reads back the masked secret, other keys unaffected |
| CoreEnvironment.InsertCredentialsGet | crates/pipeliner-core/src/environment.rs:49-62 | after inserting credentials the key reads back the reference, other keys unaffected |
| CoreEnvironment.InsertLen | crates/pipeliner-core/src/environment.rs:33-35 | inserting a new key adds one entry and overwriting adds none; the result is never empty |
| CoreEnvironment.MaskedSecretHidden | crates/pipeliner-core/src/environment.rs:171-189 | every masked secret displays as "***", whatever its value |
| CoreEnvironment.DisplayEnvironment | crates/pipeliner-core/src/environment.rs:88-101 | the display is wrapped in braces and is "{}" exactly for the empty environment |
| CoreEnvironment.Resolve | crates/pipeliner-core/src/environment.rs:159-163 | a name resolves exactly when it is set, to the displayed form of its value |
| CoreEnvironment.ResolvePlain | crates/pipeliner-core/src/environment.rs:165-169 | a plain map resolves a name to its stored string |
| CoreEnvironment.ResolveFromMap | crates/pipeliner-core/src/environment.rs:24-30 | a plain map and the environment built from it resolve every name alike |
| CoreEnvironment.ResolveInserted | crates/pipeliner-core/src/environment.rs:33-46 | an inserted plain value resolves to itself and a masked secret to "***" |
| WorkerQueue.Rank | crates/pipeliner-worker/src/queue.rs:267-278 | each priority has a discriminant from 0 to 4 |
| WorkerQueue.PriorityOrder | crates/pipeliner-worker/src/queue.rs:267-278 | Critical, High, Normal, Low and Background are strictly ordered by discriminant, and the discriminant determines the priority |
| WorkerQueue.DefaultJob | crates/pipeliner-worker/src/queue.rs:179-195 | a default job has the fresh id and creation time, no pipeline, Normal priority, Pending status, no retries out of a budget of 3, and no timestamps, error or metadata |
| WorkerQueue.FromPipeline | crates/pipeliner-worker/src/queue.rs:206-213 | a job built from a pipeline is the default job carrying that pipeline |
| WorkerQueue.JobTransitions | crates/pipeliner-worker/src/queue.rs:230-252 | start sets Running and the start time; complete, fail and cancel set their status and the completion time, fail also the error; nothing else changes |
| WorkerQueue.Retry | crates/pipeliner-worker/src/queue.rs:256-262 | a retry is granted exactly when the budget is not spent, and then counts one more retry; a refusal changes nothing |
| WorkerQueue.RetryTimesCount | crates/pipeliner-worker/src/queue.rs:256-262 | n retries from within the budget reach the smaller of retries plus n and the budget, changing nothing else |
| WorkerQueue.BeforeOrder | crates/pipeliner-worker/src/queue.rs:136-150 | the heap order (better priority first, then earlier creation) is irreflexive, asymmetric and transitive, and incomparable entries tie on priority and creation time |
| WorkerQueue.FirstIndex | crates/pipeliner-worker/src/queue.rs:57 | the heap pop selects an entry that no other entry comes before |
| WorkerQueue.GetOf | crates/pipeliner-worker/src/queue.rs:69-80 | a job is found exactly when its id is processing, completed or cancelled |
| WorkerQueue.EnqueueGrows | crates/pipeliner-worker/src/queue.rs:44-52 | enqueue adds exactly the job's entry to the pending heap |
| WorkerQueue.DequeueTakesOne | crates/pipeliner-worker/src/queue.rs:55-66 | dequeue removes exactly the popped entry and makes the filed job gettable under the popped id |
| WorkerQueue.CompleteMoves | crates/pipeliner-worker/src/queue.rs:83-94 | complete (cancel) of a processing job moves it into completed (cancelled) under the job's own id, leaving pending alone; of any other id it changes nothing |
| WorkerQueue.CompletedUnderFreshId | crates/pipeliner-worker/src/queue.rs:55-87 | the job dequeue files carries a fresh id, so after completing the popped id that id is no longer found while the job is filed under its fresh id |
| WorkerQueue.JobQueue.constructor | crates/pipeliner-worker/src/queue.rs:32-41 | a new queue is empty |
| WorkerQueue.JobQueue.Enqueue | crates/pipeliner-worker/src/queue.rs:44-52 | the object's state becomes that of enqueueing the job |
| WorkerQueue.JobQueue.Dequeue | crates/pipeliner-worker/src/queue.rs:55-66 | an empty queue yields None and is unchanged; otherwise an entry nothing comes before is popped and a fresh default job is filed under its id and returned |
| WorkerQueue.JobQueue.Get | crates/pipeliner-worker/src/queue.rs:69-80 | lookup agrees with the queue's specification: processing, then completed, then cancelled |
| WorkerQueue.JobQueue.CompleteJob | crates/pipeliner-worker/src/queue.rs:83-87 | the object's state becomes that of completing the id |
| WorkerQueue.JobQueue.CancelJob | crates/pipeliner-worker/src/queue.rs:90-94 | the object's state becomes that of cancelling the id |
| WorkerQueue.JobQueue.Len | crates/pipeliner-worker/src/queue.rs:98-101 | the length counts the pending entries only |
| WorkerQueue.JobQueue.IsEmpty | crates/pipeliner-worker/src/queue.rs:105-107 | the queue is empty exactly when nothing is pending |
| WorkerState.StatsOf | crates/pipeliner-worker/src/state.rs:126-134 | the statistics give the sizes of the active, completed and failed maps and the two counters |
| WorkerState.DefaultStats | crates/pipeliner-worker/src/state.rs:152-162 | the default statistics are all zero and equal those of a new state |
| WorkerState.AddJobThenGet | crates/pipeliner-worker/src/state.rs:49-58 | an added job is found under its id and becomes the last job; other ids are unaffected |
| WorkerState.MarkEffects | crates/pipeliner-worker/src/state.rs:61-79 | marking completed (failed) removes the id from active, files it and bumps the processed (failed) counter, leaving the other map alone; marking active files it as active |
| WorkerState.CompleteAllCounts | crates/pipeliner-worker/src/state.rs:66-71 | completing a list of ids adds its length to the processed counter but exactly its distinct ids to the completed map |
| WorkerState.CompletedTwice | crates/pipeliner-worker/src/state.rs:66-71 | completing one id twice counts two processed jobs and one completed id |
| WorkerState.ExecutionState.constructor | crates/pipeliner-worker/src/state.rs:36-46 | a new execution state is the empty state |
| WorkerState.ExecutionState.AddJob | crates/pipeliner-worker/src/state.rs:49-52 | the object's state becomes that of adding the job |
| WorkerState.ExecutionState.GetJob | crates/pipeliner-worker/src/state.rs:56-58 | a job is found exactly when its id was added |
| WorkerState.ExecutionState.MarkActive | crates/pipeliner-worker/src/state.rs:61-63 | the object's state becomes that of marking the id active |
| WorkerState.ExecutionState.MarkCompleted | crates/pipeliner-worker/src/state.rs:66-71 | the object's state becomes that of marking the id completed |
| WorkerState.ExecutionState.MarkFailed | crates/pipeliner-worker/src/state.rs:74-79 | the object's state becomes that of marking the id failed |
| WorkerState.ExecutionState.Stats | crates/pipeliner-worker/src/state.rs:126-134 | the object's statistics are those of its state |
| WorkerState.ExecutionState.ActiveJobs | crates/pipeliner-worker/src/state.rs:120-122 | every active id exactly once |
| EventTypes.DefaultMetadata | crates/pipeliner-events/src/types/base.rs:20-30 | default metadata comes from source "pipeliner" and has no correlation or causation id |
| EventTypes.NewMetadata | crates/pipeliner-events/src/types/base.rs:33-41 | new metadata carries the fresh id, the clock reading and the given source, with no correlation or causation id |
| EventTypes.MetadataBuilders | crates/pipeliner-events/src/types/base.rs:43-51 | each builder sets its own id and no other field, so the two commute |
| EventTypes.PipelineAggregateId | crates/pipeliner-events/src/types/base.rs:162-174 | every pipeline event belongs to its own pipeline |
| EventTypes.PipelineEventTypePrefix | crates/pipeliner-events/src/types/base.rs:148-160 | a pipeline event's type name starts with "Pipeline" exactly for the lifecycle events |
| EventTypes.PipelineEventTypeInjective | crates/pipeliner-events/src/types/base.rs:148-160 | two pipeline events share a type name only when they are the same variant |
| EventTypes.WorkerEventTypeInjective | crates/pipeliner-events/src/types/base.rs:211-221 | two worker events share a type name only when they are the same variant |
| EventTypes.EventType | crates/pipeliner-events/src/types/base.rs:64-70 | an event's type name is that of the inner pipeline, worker or infrastructure event |
| EventTypes.AggregateId | crates/pipeliner-events/src/types/base.rs:72-78 | an event has an aggregate exactly when it is a pipeline event, and it is that event's pipeline |
| EventTypes.EventTypeTellsKind | crates/pipeliner-events/src/types/base.rs:64-70 | events with the same type name are of the same kind |
| EventTypes.TypeInitial | crates/pipeliner-events/src/types/base.rs:148-264 | type names are non-empty and their first letter tells pipeline, worker and infrastructure events apart |
| EventStore.Append | crates/pipeliner-events/src/event_store/in_memory.rs:46-54 | appending lists the aggregate, creating its entry when missing, and no other |
| EventStore.AppendThenGet | crates/pipeliner-events/src/event_store/in_memory.rs:46-62 | appended events follow the aggregate's earlier ones, and other aggregates are unaffected |
| EventStore.ReplayEvents | crates/pipeliner-events/src/event_store/in_memory.rs:46-62 | after any sequence of appends an aggregate's events are all those appended under it, in order, and it is listed exactly when it was appended to |
| EventStore.InMemoryEventStore.constructor | crates/pipeliner-events/src/event_store/in_memory.rs:35-39 | a new store holds no aggregate |
| EventStore.InMemoryEventStore.AppendEvents | crates/pipeliner-events/src/event_store/in_memory.rs:46-54 | the store's map becomes that of the append |
| EventStore.InMemoryEventStore.GetEvents | crates/pipeliner-events/src/event_store/in_memory.rs:56-62 | the aggregate's events, or none when it is unknown |
| EventStore.InMemoryEventStore.ListAggregates | crates/pipeliner-events/src/event_store/in_memory.rs:64-66 | every stored aggregate exactly once |
| EventStore.Load | crates/pipeliner-events/src/event_store/in_memory.rs:126-128 | a snapshot is loaded exactly when one was saved for the aggregate |
| EventStore.SaveThenLoad | crates/pipeliner-events/src/event_store/in_memory.rs:120-128 | a saved snapshot is loaded back, other aggregates are unaffected, and a later save of the same aggregate wins |
| EventStore.LoadUnknown | crates/pipeliner-events/src/event_store/in_memory.rs:109-113 | an empty snapshot store loads nothing |
| EventStore.InMemorySnapshotStore.constructor | crates/pipeliner-events/src/event_store/in_memory.rs:109-113 | a new snapshot store is empty |
| EventStore.InMemorySnapshotStore.SaveSnapshot | crates/pipeliner-events/src/event_store/in_memory.rs:120-124 | the store's map becomes that of the save |
| EventStore.InMemorySnapshotStore.LoadSnapshot | crates/pipeliner-events/src/event_store/in_memory.rs:126-128 | loading agrees with the specification's lookup |
| InfraLib.DefaultStatus | crates/pipeliner-infrastructure/src/lib.rs:44-50 | a container status defaults to Created |
| InfraLib.FromIoError | crates/pipeliner-infrastructure/src/lib.rs:32-41 | an I/O error becomes a connection failure whose message is "connection failed: " and the error's text |
| InfraLib.NewConfig | crates/pipeliner-infrastructure/src/lib.rs:89-91 | a new container configuration has every field empty and auto-remove off |
| InfraLib.FullImage | crates/pipeliner-infrastructure/src/lib.rs:107-112 | the full image is the image, behind its registry and "/" when there is one |
| InfraLib.WithImageSplits | crates/pipeliner-infrastructure/src/lib.rs:94-104 | with a ':' the reference splits at its last ':' into image and tag, which rejoin to it; without one the image is the reference and the tag "latest"; nothing else changes |
| InfraLib.WithImageVersion | crates/pipeliner-infrastructure/src/lib.rs:94-104 | example, one input: "rust:1.75" gives image "rust" and tag "1.75" |
| InfraLib.WithImageRegistryPort | crates/pipeliner-infrastructure/src/lib.rs:94-104 | example, one input: the split takes the last ':', even a registry port's, so "host:5000/img" gives image "host" and tag "5000/img" |
| InfraLib.FullImageOfPlainReference | crates/pipeliner-infrastructure/src/lib.rs:94-112 | without a registry, a reference with no ':' is its own full image |

## Left out

- Processes, containers, the Podman Unix socket, the clock, UUIDs and the file system are not modelled. They are oracles or opaque inputs, and the contracts are stated for every possible answer. This covers:
  - `run_command` and `ShellCommand::execute_*`;
  - `Command::output` in container.rs, docker.rs and plugins.rs;
  - `send_http_request`'s read loop;
  - `copy_files`/`copy_all` and glob matching in runtime.rs, which enter as the oracle's answer;
  - all `health_check` and availability probes.
- `src/infrastructure/kubernetes.rs` is not part of this model: it only shells out to `kubectl`, and its `execute` is a stub.
- Threads are not modelled.
  - The parallel branches of `src/executor/local.rs`, container.rs and docker.rs run one after the other, in declaration order.
  - A thread-based or `tokio` timeout becomes the oracle's "finished in time" answer.
- `ParallelStrategy` (crates/pipeliner-executor/src/strategy.rs:117-189) is not modelled: it is a semaphore and `tokio::spawn` fan-out.
- Other concurrent code is not modelled:
  - the worker pool and scheduler;
  - the event bus;
  - `crates/pipeliner-executor/src/listener.rs`.
- `MatrixStrategy::execute_pipeline_for_cell` (strategy.rs:285-309) is never called and is not modelled.
- `Executor::run` is `todo!()` and is not modelled.
- `HashMap` and `HashSet` iteration order is unspecified in Rust. The model fixes it as the order of an association list: insertion order, with an overwrite keeping its place. This affects cell names, environment sections in the renderers and the "last" stage result in `src/executor/local.rs`. Each contract holds for that one order, not for every order.
- Unicode is not modelled. `char::is_alphanumeric` and `to_lowercase` are modelled on ASCII. `trim` uses the Unicode White_Space list.
- Regular expressions are not modelled. In `export`, `lint` and `doc`, what the expressions capture is an input. The `${NAME}` pattern of `expand_variables` is a hand-written scanner.
- RustlineLint.StageBlock: takes the 500 characters after a stage, where the source takes 500 bytes; the two agree on ASCII text.
- The JSON output formats are left out, because they are `serde_json` derives with no logic of their own:
  - `lint --format json`;
  - `doc`'s `render_json`, for which RustlineDoc.GenerateDoc returns `None`.
- `doc` step-text extraction is left out, because it is regex captures only.
- `ParameterDoc` is not modelled, because it is never rendered.
- Writing files to disk is not modelled: `save_export` and `save_doc`.
- `lint`'s `show_suggestions` flag is modelled as a field only, because it is never read.
- Error enums whose only logic is a `thiserror` message are modelled as plain datatypes; their messages are not.
- The macro DSL, the CLI front ends, `crates/pipeliner-api` and the configuration and logging modules are not part of this model.
- `update_build_number` in `src/executor/shell.rs` is compiled for tests only and is not modelled.
- `TempFileManager` in `src/executor/temp_files.rs` is not modelled: directory creation and cleanup are file system work.
- RustlinePodman.SendRun: a reply without a blank line after its headers makes the source panic at the slice `response[header_end..]` (src/infrastructure/podman.rs:183-190). The model splits it with the corrected `SplitResponse`, giving the status and an empty body. RustlinePodmanHttp.SplitResponseAsWritten and NoBlankLinePanics show the panic on their own; no Podman run reaches it.
- RustlinePodman.SendHttpRequest: returns what `SendRun` says, so it carries the same corrected split and never panics.
- ExecRuntime.ExecuteTimeout: `tokio::time::timeout` drops the inner step at the deadline (crates/pipeliner-executor/src/runtime.rs:169). The model runs the inner step to its end, keeps its calls, its stash changes and its directory pops, and only then reports Ok(Timeout). A step cut off half-way is not modelled.
- ExecRuntime.TimeoutRun: the same: a late inner step is modelled as completed.
- ExecRuntimeProps.StepKeepsContext: holds of the model, where a late step inside a timeout completes. In the source a `dir` step cut off by a timeout leaves its directory pushed.
- ExecRuntimeProps.DirRestoresDirectory: the same restriction: inside a timeout that fires, the source may never pop the directory.
- CoreMatrix.MatrixIterator.constructor: requires that no axis has a zero step. `into_iter` panics on one (crates/pipeliner-core/src/matrix.rs:273-280), and the constructor does not model that panic. CoreMatrix.GenerateCells and ExecStrategy.Matrix do model it, as None.
- Integers are unbounded. The one place where the width of a source integer matters is `step_by(step as usize)` with a negative step, and CoreMatrix.Stride models that cast explicitly.

## Findings

| source | as written | input that shows it | evidently intended | confidence | as-written member | corrected member |
|---|---|---|---|---|---|---|
| src/pipeline/mod.rs:77-80 | `Environment::resolve` writes the value over the text from the scan offset, so everything before a substituted `${NAME}` is lost | variables `X=v`, text `a${X}b` gives `vb` | only the placeholder is replaced, giving `avb` | high (not executed) | RustlineCore.ResolveDropsPrefix | RustlineCore.ResolveIntendedOnePlaceholder |
| src/infrastructure/podman.rs:183-190 | the response is split at the blank line with a slice that panics when the reply has none | `HTTP/1.1 204 No Content\r\n` (no blank line) | a reply without a blank line is a status with an empty body | high (not executed) | RustlinePodmanHttp.NoBlankLinePanics | RustlinePodmanHttp.ResponseRoundTrip |
| crates/pipeliner-executor/src/strategy.rs:239-242 | a cell is counted as failed only when the sequential strategy returns `Err`, which it never does, so a failed cell counts as executed and the matrix reports success | one cell whose only stage unstashes a missing stash | a cell whose run did not succeed is counted as failed and the matrix reports "1 matrix cells failed" | high (not executed) | ExecStrategyProps.FailedCellReportedAsSuccess | ExecStrategyProps.CellsRunCounts |
| src/infrastructure/gitlab_ci.rs:167-181 | each nested condition is already rendered with its own `if: `, and `AllOf`/`AnyOf` add another | `AllOf([Branch("main")])` gives `if: if: $CI_COMMIT_BRANCH == "main"` | one `if: ` before the joined conditions | high (not executed) | RustlineGitlab.RuleAsWrittenBranch | RustlineGitlab.RulePair |
| src/infrastructure/gitlab_ci.rs:40-44 | parallel branch names go into the seen set but are never listed under `stages:`, so a later stage with the same sanitized name is left out of the list its job refers to | stage `a` with branch `b`, then stage `a_b` | every stage a job refers to is listed once | medium (not executed) | RustlineGitlab.StageListAsWrittenMisses | RustlineGitlab.JobStagesListed |
| src/cli/export.rs:293-315 | the agent variable line of a Jenkinsfile is written before `pipeline {`, outside the block | an agent built with `agent_docker!("rust:1.70")` | the variable inside the pipeline's `environment` block | medium (not executed) | RustlineExportProps.JenkinsAsWrittenOutside | RustlineExportProps.JenkinsShape |
| src/cli/lint.rs:144 | the P002 line number counts the lines before the match, one too few when the match starts a line and 0 at offset 0 | a `timeout` stage match at offset 0 gets line 0 | the 1-based line holding the match | high (not executed) | RustlineLintProps.TimeoutLineAtLineStart | RustlineLintProps.StageLineOfMatch |
