# Flo pipeline composition, modelled in Dafny

Flo builds chain-of-responsibility pipelines. A builder keeps an append-only
list of steps. Each step receives an input and `next`, the rest of the
pipeline. `Build` folds the list from the last step to the first around a
terminal handler. Registration forms:

- `Add` takes a raw step, a handler instance, a handler factory, or a handler
  type resolved through the service provider.
- `Final` registers a step that never calls `next`.
- `When` and `Fork` register branch steps. When the predicate holds, a branch
  step creates a fresh child builder, configures it, builds it and hands the
  child pipeline to a combinator.

There are two flavours:

- `PipelineBuilder<T>`: the terminal handler is the identity, and `When`
  passes the child's output on to the rest of the parent pipeline.
- `OutputPipelineBuilder<TIn, TOut>`: the terminal handler returns
  `default(TOut)`. `When` gives the child first refusal: the parent continues
  on the original input only when the child's result satisfies `continueIf`,
  whose default is `output == null`.

Files:

- `composition.dfy` (module `Composition`): a step is a function from an
  input to an `Action`, which either returns a value (`Done`) or calls
  `next(arg)` and post-processes its result (`CallNext`). Each registration
  form has the step it wraps into. `Compose` is the right fold `Build`
  performs, and the laws of the fold are proved here. Pipelines are Dafny
  functions, so every equation between pipelines is stated pointwise.
- `builder.dfy` (module `Builder`): the class `Builder` has the step list as
  a `seq` field. Its registration methods append exactly one step, or return
  `ArgumentNull(paramName)` and leave the list alone. `Build` is the
  descending loop, proved equal to `Compose` at every input. `InvokeBranch`
  is what a branch step does when invoked: create, configure, build, combine.
- `pipeline_builder.dfy` and `output_pipeline_builder.dfy`: the two flavours'
  terminal handlers, combinators and `When`, with their equations.
- `scenarios.dfy`: the repository's test cases replayed on the model.
- `wrappers.dfy`: `Option` (a nullable reference) and `Result`.

## Model

| member | source | states |
|---|---|---|
| Builder.Builder.constructor | src/Flo/Builder.cs:19-25 | a new builder has no steps and the given terminal handler; a null service provider is replaced by the default one |
| Builder.Builder.Create | src/Flo/Builder.cs:19-21 | a null `innerHandler` is rejected with `ArgumentNull("innerHandler")`; otherwise a fresh, empty builder |
| Builder.Builder.AddStep | src/Flo/Builder.cs:116-121 | null is rejected with `ArgumentNull("handler")` and the list is unchanged; otherwise exactly this step is appended at the end and the same builder is returned |
| Builder.Builder.AddHandler | src/Flo/Builder.cs:110-114 | null is rejected and the list is unchanged; otherwise one step that behaves as the instance's `HandleAsync` is appended |
| Builder.Builder.AddFactory | src/Flo/Builder.cs:93-108 | null is rejected with `ArgumentNull("handlerFactory")`; otherwise the factory step is appended and the factory is not called |
| Builder.Builder.AddByType | src/Flo/Builder.cs:87-91 | always succeeds and appends a factory step that asks this builder's service provider for the type |
| Builder.Builder.Final | src/Flo/Builder.cs:81-85 | null is rejected with `ArgumentNull("handler")`; otherwise a step that ignores `next` is appended |
| Builder.Builder.When | src/Flo/Builder.cs:34-77 | the predicate, the combinator and the configure callback are checked for null in that order, each failure naming its parameter and leaving the list unchanged; otherwise one branch step is appended |
| Builder.Builder.Fork | src/Flo/Builder.cs:27-32 | `When` with the committing combinator; the null checks of `When` |
| Builder.Builder.CreateBuilder | src/Flo/Builder.cs:79 | the child builder a branch creates is fresh, has no steps, and has the parent's terminal handler and service provider, as both flavours' overrides do |
| Builder.Builder.Configure | src/Flo/Builder.cs:47-48 | the configure callback registers its steps on the child one after the other, so the child's list is exactly those steps |
| Builder.Builder.Build | src/Flo/Builder.cs:123-134 | the built pipeline equals the right fold `Compose` of the list at every input; with no steps it is the terminal handler itself |
| Builder.Builder.InvokeBranch | src/Flo/Builder.cs:43-53 | a false predicate yields `next(input)`; a true one yields the combinator applied to the freshly built child pipeline's result; either way this equals invoking the branch step |
| Composition.Id | src/Flo/PipelineBuilder.cs:9-11 | definition: the identity, the terminal handler of `PipelineBuilder<T>` and the post-processing of a handler that returns what `next` returns |
| Composition.Compose | src/Flo/Builder.cs:125-131 | definition: the pipeline `Build` produces, the terminal for no steps, otherwise the first step invoked with the pipeline of the remaining steps as `next` |
| Composition.FinalStep | src/Flo/Builder.cs:84 | definition: the step `Final(handler)` registers, which returns `handler(input)` and never calls `next` |
| Composition.FactoryStep | src/Flo/Builder.cs:97-107 | definition: the step `Add(handlerFactory)` registers, which calls the factory on each invocation and runs the handler it yields, or calls `next(input)` when it yields null |
| Composition.ResolveFactory | src/Flo/Builder.cs:89 | definition: the factory `Add<THandler>()` builds, which asks the service provider for the handler type each time it is called |
| Composition.BranchStep | src/Flo/Builder.cs:43-53 | definition: the step both `When` primitives register; with a true predicate it runs the child pipeline (the child's steps around the same terminal) and hands its result to the combinator, otherwise it calls `next(input)` |
| Composition.ForkCombinator | src/Flo/Builder.cs:31 | definition: the combinator of `Fork`, whose action is to return the child's result without calling `next` |
| Composition.ComposeAppend | src/Flo/Builder.cs:123-134 | the pipeline of `s + t` is the pipeline of `s` whose terminal is the pipeline of `t`, so steps run in registration order |
| Composition.ComposeRespects | src/Flo/Builder.cs:128-130 | pipelines built around pointwise-equal terminals agree at every input |
| Composition.FinalCuts | src/Flo/Builder.cs:81-85 | with `Final(f)` after prefix `s`, the pipeline equals `s` folded around `f`; nothing after `Final` runs |
| Composition.ForwardingStepsReachInner | src/Flo/Builder.cs:123-134 | if every step hands its input to `next` unchanged, the pipeline is the terminal handler |
| Composition.ForwardingStepRemovable | src/Flo/Builder.cs:116-121 | removing a step that always hands its input to `next` unchanged does not change the pipeline |
| Composition.FactoryStepBehaviour | src/Flo/Builder.cs:97-107 | a factory step that gets null from its factory returns `next(input)`; otherwise it behaves as the handler the factory returned |
| Composition.NullFactoryRemovable | src/Flo/Builder.cs:101-106 | a factory step whose factory yields null can be removed without changing the pipeline |
| Composition.NeverTakenBranchRemovable | src/Flo/Builder.cs:45-52 | a branch whose predicate is always false can be removed without changing the pipeline |
| Composition.ForkCommits | src/Flo/Builder.cs:27-32 | a taken `Fork` returns the child pipeline's result, whatever follows it in the parent; the child starts from no steps |
| Composition.ForkSkipped | src/Flo/Builder.cs:27-32 | a `Fork` whose predicate is false is as if absent: the rest of the parent pipeline runs on the input |
| PipelineBuilder.ThreadCombinator | src/Flo/PipelineBuilder.cs:18-23 | definition: the combinator of both `When` overloads, whose action is to call `next` on the child's output |
| PipelineBuilder.WhenStep | src/Flo/PipelineBuilder.cs:14-24 | definition: the step `When(predicate, configurePipeline)` registers, the branch step with `ThreadCombinator` around the identity terminal |
| PipelineBuilder.New | src/Flo/PipelineBuilder.cs:8-12 | a fresh builder with no steps and the identity terminal handler; a null service provider becomes the default |
| PipelineBuilder.CreateBuilder | src/Flo/PipelineBuilder.cs:38 | the child is a fresh, empty builder of the same flavour (identity terminal) sharing the parent's service provider |
| PipelineBuilder.When | src/Flo/PipelineBuilder.cs:14-36 | the null checks of `When`; otherwise appends the branch with the threading combinator (the synchronous and asynchronous overloads coincide) |
| PipelineBuilder.ForwardingPipelineIsIdentity | src/Flo/PipelineBuilder.cs:8-12 | with no steps, or only steps that call `next` on their input, the pipeline returns its input |
| PipelineBuilder.WhenThreads | src/Flo/PipelineBuilder.cs:14-24 | `When` always continues the parent: with the child's output when the predicate holds, with the input otherwise |
| PipelineBuilder.WhenChildFinal | src/Flo/PipelineBuilder.cs:18-23 | a child ending in `Final` never reaches its own terminal, yet the parent continues with what that `Final` returned |
| OutputPipelineBuilder.DefaultOutput | src/Flo/OutputPipelineBuilder.cs:12 | definition: the terminal handler, which returns `default(TOut)` whatever the input |
| OutputPipelineBuilder.DefaultContinuation | src/Flo/OutputPipelineBuilder.cs:9 | definition: `output == null`, true only when `TOut` is nullable and the output is its default |
| OutputPipelineBuilder.Continuation | src/Flo/OutputPipelineBuilder.cs:26 | definition: `continueIf ?? _defaultContinuation`, the supplied predicate when there is one |
| OutputPipelineBuilder.FallthroughCombinator | src/Flo/OutputPipelineBuilder.cs:21-30 | definition: the combinator of both `When` overloads, which calls `next` on the original input when the child's result satisfies the continuation and otherwise returns that result |
| OutputPipelineBuilder.WhenStep | src/Flo/OutputPipelineBuilder.cs:16-32 | definition: the step `When(predicate, configurePipeline, continueIf)` registers, the branch step with `FallthroughCombinator(continueIf, ty)` around `DefaultOutput(ty)` |
| OutputPipelineBuilder.New | src/Flo/OutputPipelineBuilder.cs:11-14 | a fresh builder with no steps whose terminal handler returns `default(TOut)` |
| OutputPipelineBuilder.CreateBuilder | src/Flo/OutputPipelineBuilder.cs:52 | the child is a fresh, empty builder of the same flavour (`default(TOut)` terminal) sharing the parent's service provider |
| OutputPipelineBuilder.When | src/Flo/OutputPipelineBuilder.cs:16-50 | the null checks of `When` (a null `continueIf` is allowed); otherwise appends the branch with the fallthrough combinator |
| OutputPipelineBuilder.ForwardingPipelineReturnsDefault | src/Flo/OutputPipelineBuilder.cs:11-14 | with no steps, or only steps that call `next` on their input, the pipeline returns `default(TOut)` |
| OutputPipelineBuilder.WhenSkipped | src/Flo/OutputPipelineBuilder.cs:16-32 | a `When` whose predicate is false is as if absent |
| OutputPipelineBuilder.WhenFallsThrough | src/Flo/OutputPipelineBuilder.cs:23-27 | a taken `When` whose child result satisfies the continuation predicate continues the parent on the original input |
| OutputPipelineBuilder.WhenCommits | src/Flo/OutputPipelineBuilder.cs:23-29 | a taken `When` whose child result fails the continuation predicate returns exactly that result |
| OutputPipelineBuilder.NonNullableWhenIsFinal | src/Flo/OutputPipelineBuilder.cs:9 | with the default `output == null` and a non-nullable `TOut`, a taken `When` is always final, even for a `default(TOut)` result |
| OutputPipelineBuilder.NullChildResultFallsThrough | src/Flo/OutputPipelineBuilder.cs:26-27 | with the default continuation and a nullable `TOut`, a null child result lets the parent continue on the original input |
| Scenarios.MultipleHandlersRunInOrder | test/Flo.Tests/PipelineBuilderTests.cs:25-43 | two handlers run in registration order: the context gets Item1 then Item2 |
| Scenarios.StepsAfterFinalDoNotRun | test/Flo.Tests/PipelineBuilderTests.cs:67-89 | the handler after `Final` adds nothing |
| Scenarios.ForkNotTaken | test/Flo.Tests/PipelineBuilderForkTests.cs:9-37 | a skipped `Fork` leaves the parent's `Final` to run |
| Scenarios.ForkTaken | test/Flo.Tests/PipelineBuilderForkTests.cs:40-69 | a taken `Fork` ends the pipeline with the child's `Final` |
| Scenarios.WhenNotTaken | test/Flo.Tests/PipelineBuilderWhenTests.cs:9-36 | a skipped `When` leaves the parent's `Final` to run |
| Scenarios.WhenTakenContinuesParent | test/Flo.Tests/PipelineBuilderWhenTests.cs:129-164 | after a taken `When` the parent continues: all four items are added, in order |
| Scenarios.ForwardingOnlyReturnsDefault | test/Flo.Tests/OutputPipelineBuilderTests.cs:41-49 | a pipeline whose only handler forwards (written with its own lambda) returns `default(int)` |
| Scenarios.OutputHandlersRunInOrder | test/Flo.Tests/OutputPipelineBuilderTests.cs:22-38 | "" becomes "hello world", whose length 11 is the result |
| Scenarios.OutputWhenOnHelloWorld | test/Flo.Tests/OutputPipelineBuilderWhenTests.cs:9-54 | "hello" skips the branch and yields `default(int)`; "hello world" yields 11 |
| Scenarios.NullChildFallsThroughToFinal | test/Flo.Tests/OutputPipelineBuilderWhenTests.cs:70-84 | a child returning null lets the parent's `Final` add "Test" |
| Scenarios.ContextChildIsFinal | test/Flo.Tests/OutputPipelineBuilderWhenTests.cs:104-121 | a child returning the context ends the pipeline; "Test" is never added |
| Scenarios.OutputForkSkipsFinal | test/Flo.Tests/OutputPipelineBuilderForkTests.cs:25-42 | a taken `Fork` on the output flavour skips the parent's `Final` |
| Scenarios.FinalThroughBuilder | test/Flo.Tests/PipelineBuilderTests.cs:67-89 | the same pipeline, registered through the builder's methods and built by `Build`, yields Item1 and Item2 only |
| Scenarios.CustomServiceProvider | test/Flo.Tests/HandlerTests.cs:59-67 | `Add<THandler>()` with a custom service provider runs the handler that provider returns; `TOut` is a nullable string |
| Scenarios.BuildSnapshotsSteps | src/Flo/Builder.cs:123-134 | a pipeline built earlier keeps the steps it was built from; a later `Build` sees the longer list |

## Left out

- `ValueTask`, `async` and `await` are modelled as plain values. So the asynchronous-predicate `When` overloads (src/Flo/Builder.cs:56-77, src/Flo/PipelineBuilder.cs:26-36, src/Flo/OutputPipelineBuilder.cs:34-50) are the same members as the synchronous ones.
- Handlers are modelled first-order: each step either returns a value or calls `next` once and post-processes its result. Handlers that call `next` several times, or decide after seeing `next`'s result whether to call it again, are not represented.
- Combinators are modelled as functions of the input and the child pipeline's result. All combinators in the source run the child exactly once on the original input first; a combinator that did otherwise is not representable.
- Builder.Builder.When, Builder.Builder.InvokeBranch: `configurePipeline` is the sequence of steps the callback registers on the fresh child. A callback with other effects, or one that registers different steps on different calls, is not modelled. A self-referential callback (one that registers a `When` configured by itself, which the source allows because the child is configured only when the branch runs, src/Flo/Builder.cs:47-48) cannot be written as a finite step sequence and is not representable.
- Composition.FactoryStepBehaviour: the model is pure. It does not count how often a factory or configure callback is called, and it does not model their side effects. So the laziness the handler tests observe (test/Flo.Tests/HandlerTests.cs:34-45) is visible only in that `AddFactory` stores the factory without calling it.
- The default service provider's reflection (`Activator.CreateInstance`, src/Flo/Builder.cs:136) is a parameter `reflective` supplied by the host. The `as THandler` cast is folded into the resolver's `Option` result.
- Exceptions thrown inside handlers, predicates or factories are not modelled. Only the `ArgumentNullException` checks are, as `Failure(ArgumentNull(paramName))`.
- `TBuilder` self-typing and the protected `InnerHandler`/`ServiceProvider` setters: the terminal handler and service provider are fixed at construction. The `PipelineBuilder<T>` constructor sets the identity terminal handler twice, which is one assignment here.
- `default(TOut)` and `output == null` are abstracted as `OutType(defaultValue, nullable)`. This does not model C# nullability rules beyond that.
- src/Flo/IHandler.cs is represented by the step type `Handler`.
- The `Pipeline.Build` static façade the tests call is not part of this model. The scenarios register the same steps directly.
- The tests' `TestContext` is a dictionary mutated in place. Here it is a list of entries passed along by value, and key membership stands in for `Assert.Contains`.
