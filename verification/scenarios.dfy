/** The repository's test cases (test/Flo.Tests/), replayed on the model.
    `TestContext` is a dictionary that handlers fill in place; here it is the
    list of its entries in insertion order, and a handler that adds an entry
    hands the extended list on. */
module Scenarios {
  import opened Wrappers
  import opened Composition
  import opened Builder
  import PipelineBuilder
  import OutputPipelineBuilder

  type Context = seq<(string, string)>

  /** `ctx.Add(key, value); return next.Invoke(ctx);` */
  function AddThenNext(key: string, value: string): Step<Context, Context> {
    ctx => CallNext(ctx + [(key, value)], Id())
  }

  /** `ctx.Add(key, value); return ValueTask.FromResult(ctx);` */
  function AddEntry(key: string, value: string): Context -> Context {
    ctx => ctx + [(key, value)]
  }

  function HasKey(key: string): Context -> bool {
    (ctx: Context) => exists i :: 0 <= i < |ctx| && ctx[i].0 == key
  }

  const I1 := ("Item1", "Item1Value")
  const I2 := ("Item2", "Item2Value")
  const I3 := ("Item3", "Item3Value")
  const I4 := ("Item4", "Item4Value")

  // ---------------------------------------------------------------------
  // PipelineBuilder<TestContext>

  /** Two handlers run in registration order (PipelineBuilderTests 25-43);
      the second is a raw step that ignores `next`, which is `FinalStep` of
      its body. */
  lemma MultipleHandlersRunInOrder()
    ensures Compose([AddThenNext("Item1", "Item1Value"), FinalStep(AddEntry("Item2", "Item2Value"))],
                    Id())([]) == [I1, I2]
  {
  }

  /** A handler registered after `Final` does not run (PipelineBuilderTests 67-89). */
  lemma StepsAfterFinalDoNotRun()
    ensures Compose([AddThenNext("Item1", "Item1Value"), FinalStep(AddEntry("Item2", "Item2Value")),
                     AddThenNext("Item3", "Item3Value")], Id())([]) == [I1, I2]
  {
    FinalCuts([AddThenNext("Item1", "Item1Value")], AddEntry("Item2", "Item2Value"),
              [AddThenNext("Item3", "Item3Value")], Id(), []);
    assert [AddThenNext("Item1", "Item1Value")] + [FinalStep(AddEntry("Item2", "Item2Value"))]
           + [AddThenNext("Item3", "Item3Value")]
           == [AddThenNext("Item1", "Item1Value"), FinalStep(AddEntry("Item2", "Item2Value")),
               AddThenNext("Item3", "Item3Value")];
  }

  /** A `Fork` whose predicate is false is passed over, and the parent's
      `Final` runs (PipelineBuilderForkTests 9-37). */
  lemma ForkNotTaken()
    ensures Compose([AddThenNext("Item1", "Item1Value"),
                     BranchStep(HasKey("Item2"), ForkCombinator(), [AddThenNext("Item3", "Item3Value")],
                                Id()),
                     FinalStep(AddEntry("Item4", "Item4Value"))], Id())([])
            == [I1, I4]
  {
    assert !HasKey("Item2")([I1]);
  }

  /** A `Fork` whose predicate is true runs the child's `Final` and not the
      parent's later handler (PipelineBuilderForkTests 40-69). */
  lemma ForkTaken()
    ensures Compose([AddThenNext("Item1", "Item1Value"),
                     BranchStep(HasKey("Item1"), ForkCombinator(), [FinalStep(AddEntry("Item2", "Item2Value"))],
                                Id()),
                     AddThenNext("Item3", "Item3Value")], Id())([])
            == [I1, I2]
  {
    var child := [FinalStep(AddEntry("Item2", "Item2Value"))];
    var fork := BranchStep(HasKey("Item1"), ForkCombinator(), child, Id());
    var s := [AddThenNext("Item1", "Item1Value"), fork, AddThenNext("Item3", "Item3Value")];
    ComposeUnfold(s, Id(), []);
    assert s[1..] == [fork] + [AddThenNext("Item3", "Item3Value")];
    assert [I1][0].0 == "Item1";
    var empty: Context := [];
    assert empty + [I1] == [I1];
    ForkCommits(HasKey("Item1"), child, [AddThenNext("Item3", "Item3Value")], Id(), [I1]);
    assert Compose(s[1..], Id())([I1]) == Compose(child, Id())([I1]);
    ComposeUnfold(child, Id(), [I1]);
    assert Compose(child, Id())([I1]) == [I1, I2];
  }

  /** A `When` whose predicate is false is passed over (PipelineBuilderWhenTests 9-36). */
  lemma WhenNotTaken()
    ensures Compose([AddThenNext("Item1", "Item1Value"),
                     PipelineBuilder.WhenStep(HasKey("Item2"), [AddThenNext("Item3", "Item3Value")]),
                     FinalStep(AddEntry("Item4", "Item4Value"))], Id())([])
            == [I1, I4]
  {
    assert !HasKey("Item2")([I1]);
  }

  function HasOneEntry(): Context -> bool {
    ctx => |ctx| == 1
  }

  /** After a taken `When` whose child ends in a step that ignores `next`,
      the parent pipeline continues with what that step returned
      (PipelineBuilderWhenTests 129-164). A raw step `(ctx, _) => ...` that
      ignores `next` is exactly `FinalStep` of its body. */
  lemma WhenTakenContinuesParent()
    ensures Compose([AddThenNext("Item1", "Item1Value"),
                     PipelineBuilder.WhenStep(HasOneEntry(),
                                              [AddThenNext("Item2", "Item2Value"),
                                               FinalStep(AddEntry("Item3", "Item3Value"))]),
                     FinalStep(AddEntry("Item4", "Item4Value"))], Id())([])
            == [I1, I2, I3, I4]
  {
    var a2 := AddThenNext("Item2", "Item2Value");
    var f3 := AddEntry("Item3", "Item3Value");
    var when := PipelineBuilder.WhenStep(HasOneEntry(), [a2, FinalStep(f3)]);
    var last := FinalStep(AddEntry("Item4", "Item4Value"));
    var s := [AddThenNext("Item1", "Item1Value"), when, last];
    ComposeUnfold(s, Id(), []);
    assert s[1..] == [when] + [last];
    assert [a2, FinalStep(f3)] == [a2] + [FinalStep(f3)] + [];
    PipelineBuilder.WhenChildFinal(HasOneEntry(), [a2], f3, [], [last], [I1]);
    ComposeUnfold([a2], f3, [I1]);
    ComposeUnfold([last], Id(), [I1, I2, I3]);
  }

  // ---------------------------------------------------------------------
  // OutputPipelineBuilder<string, int>: default(int) is 0 and never null

  const IntType := OutputPipelineBuilder.OutType(0, false)

  function Length(): Step<string, int> {
    s => Done(|s|)
  }

  /** `(input, next) => next.Invoke(input)`, written with its own lambda. */
  function Forward(): Step<string, int> {
    s => CallNext(s, o => o)
  }

  /** A pipeline with only a forwarding handler returns `default(int)`
      (OutputPipelineBuilderTests 41-49). */
  lemma ForwardingOnlyReturnsDefault()
    ensures Compose([Forward()], OutputPipelineBuilder.DefaultOutput(IntType))("hello world") == 0
  {
    OutputPipelineBuilder.ForwardingPipelineReturnsDefault(IntType, [Forward()], "hello world");
  }

  /** Three handlers, the last one final (OutputPipelineBuilderTests 22-38). */
  lemma OutputHandlersRunInOrder()
    ensures Compose([s => CallNext(s + "hello", Id()), s => CallNext(s + " world", Id()), Length()],
                    OutputPipelineBuilder.DefaultOutput(IntType))("") == 11
  {
  }

  function IsHelloWorld(): string -> bool {
    s => s == "hello world"
  }

  /** A skipped `When` leaves `default(int)`, a taken one returns the child's
      result (OutputPipelineBuilderWhenTests 9-22 and 41-54). */
  lemma OutputWhenOnHelloWorld()
    ensures Compose([OutputPipelineBuilder.WhenStep(IsHelloWorld(), [Length()], None, IntType)],
                    OutputPipelineBuilder.DefaultOutput(IntType))("hello") == 0
    ensures Compose([OutputPipelineBuilder.WhenStep(IsHelloWorld(), [Length()], None, IntType)],
                    OutputPipelineBuilder.DefaultOutput(IntType))("hello world") == 11
  {
    var when := OutputPipelineBuilder.WhenStep(IsHelloWorld(), [Length()], None, IntType);
    assert [when] == [when] + [];
    OutputPipelineBuilder.WhenSkipped(IntType, IsHelloWorld(), [Length()], None, [], "hello");
    OutputPipelineBuilder.NonNullableWhenIsFinal(IntType, IsHelloWorld(), [Length()], [], "hello world");
    ComposeUnfold([Length()], OutputPipelineBuilder.DefaultOutput(IntType), "hello world");
  }

  // ---------------------------------------------------------------------
  // OutputPipelineBuilder<TestContext, TestContext>: the output may be null

  type MaybeContext = Option<Context>

  const ContextType: OutputPipelineBuilder.OutType<MaybeContext> := OutputPipelineBuilder.OutType(None, true)

  function AddTest(): Context -> MaybeContext {
    ctx => Some(ctx + [("Test", "TestValue")])
  }

  function Always(): Context -> bool {
    _ => true
  }

  function ReturnNull(): Step<Context, MaybeContext> {
    _ => Done(None)
  }

  function ReturnContext(): Step<Context, MaybeContext> {
    ctx => Done(Some(ctx))
  }

  /** A child that returns null lets the parent's `Final` run
      (OutputPipelineBuilderWhenTests 70-84). */
  lemma NullChildFallsThroughToFinal()
    ensures Compose([OutputPipelineBuilder.WhenStep(Always(), [ReturnNull()], None, ContextType),
                     FinalStep(AddTest())], OutputPipelineBuilder.DefaultOutput(ContextType))([])
            == Some([("Test", "TestValue")])
  {
    var when := OutputPipelineBuilder.WhenStep(Always(), [ReturnNull()], None, ContextType);
    assert [when, FinalStep(AddTest())] == [when] + [FinalStep(AddTest())];
    ComposeUnfold([ReturnNull()], OutputPipelineBuilder.DefaultOutput(ContextType), []);
    assert Compose([ReturnNull()], OutputPipelineBuilder.DefaultOutput(ContextType))([]) == None;
    OutputPipelineBuilder.NullChildResultFallsThrough(ContextType, Always(), [ReturnNull()],
                                                      [FinalStep(AddTest())], []);
    assert Compose([when, FinalStep(AddTest())], OutputPipelineBuilder.DefaultOutput(ContextType))([])
           == Compose([FinalStep(AddTest())], OutputPipelineBuilder.DefaultOutput(ContextType))([]);
    ComposeUnfold([FinalStep(AddTest())], OutputPipelineBuilder.DefaultOutput(ContextType), []);
    var empty: Context := [];
    assert empty + [("Test", "TestValue")] == [("Test", "TestValue")];
  }

  /** A child that returns the context ends the pipeline there
      (OutputPipelineBuilderWhenTests 104-121). */
  lemma ContextChildIsFinal()
    ensures Compose([OutputPipelineBuilder.WhenStep(Always(), [ReturnContext()], None, ContextType),
                     FinalStep(AddTest())], OutputPipelineBuilder.DefaultOutput(ContextType))([])
            == Some([])
  {
    var when := OutputPipelineBuilder.WhenStep(Always(), [ReturnContext()], None, ContextType);
    assert [when, FinalStep(AddTest())] == [when] + [FinalStep(AddTest())];
    ComposeUnfold([ReturnContext()], OutputPipelineBuilder.DefaultOutput(ContextType), []);
    OutputPipelineBuilder.WhenCommits(ContextType, Always(), [ReturnContext()], None, [FinalStep(AddTest())], []);
  }

  /** The inherited `Fork` commits to the child's result and skips the
      parent's `Final` (OutputPipelineBuilderForkTests 25-42). */
  lemma OutputForkSkipsFinal()
    ensures Compose([BranchStep(Always(), ForkCombinator(), [ReturnContext()],
                                OutputPipelineBuilder.DefaultOutput(ContextType)),
                     FinalStep(AddTest())], OutputPipelineBuilder.DefaultOutput(ContextType))([])
            == Some([])
  {
    var fork := BranchStep(Always(), ForkCombinator(), [ReturnContext()], OutputPipelineBuilder.DefaultOutput(ContextType));
    assert [fork, FinalStep(AddTest())] == [fork] + [FinalStep(AddTest())];
    ForkCommits(Always(), [ReturnContext()], [FinalStep(AddTest())], OutputPipelineBuilder.DefaultOutput(ContextType), []);
    ComposeUnfold([ReturnContext()], OutputPipelineBuilder.DefaultOutput(ContextType), []);
  }

  // ---------------------------------------------------------------------
  // The same scenarios driven through the builder's own methods

  /** `Add(...).Final(...).Add(...)`, built and invoked on an empty context
      (PipelineBuilderTests 67-89). */
  method FinalThroughBuilder(reflective: Resolver<Context, Context>) returns (output: Context)
    ensures output == [I1, I2]
  {
    var a1, f2, a3 := AddThenNext("Item1", "Item1Value"), AddEntry("Item2", "Item2Value"),
                      AddThenNext("Item3", "Item3Value");
    var b := PipelineBuilder.New(None, reflective);
    var _ := b.AddStep(Some(a1));
    var _ := b.Final(Some(f2));
    var _ := b.AddStep(Some(a3));
    assert b.handlers == [a1, FinalStep(f2), a3];
    var pipeline := b.Build();
    output := pipeline([]);
    StepsAfterFinalDoNotRun();
  }

  /** `Add<OverridingHandler>()` with a custom service provider that always
      returns an overriding handler (HandlerTests 58-67). `string` is a
      reference type, so `TOut` is a nullable string whose default is null. */
  method CustomServiceProvider(reflective: Resolver<string, Option<string>>) returns (output: Option<string>)
    ensures output == Some("Override")
  {
    var provider: Resolver<string, Option<string>> := _ => Some(_ => Done(Some("Override")));
    var b := OutputPipelineBuilder.New(OutputPipelineBuilder.OutType(None, true), Some(provider), reflective);
    var _ := b.AddByType("OverridingHandler");
    var pipeline := b.Build();
    output := pipeline("hello world");
  }

  /** A pipeline built before further registrations keeps the steps it was
      built from, and a second `Build` sees the longer list. */
  method BuildSnapshotsSteps(reflective: Resolver<Context, Context>) returns (first: Context, second: Context)
    ensures first == [I1] && second == [I1, I2]
  {
    var a1, a2 := AddThenNext("Item1", "Item1Value"), AddThenNext("Item2", "Item2Value");
    var b := PipelineBuilder.New(None, reflective);
    var _ := b.AddStep(Some(a1));
    assert b.handlers == [a1];
    var p1 := b.Build();
    var _ := b.AddStep(Some(a2));
    assert b.handlers == [a1, a2];
    var p2 := b.Build();
    first := p1([]);
    second := p2([]);
    ComposeUnfold([a1], Id(), []);
    ComposeUnfold([a1, a2], Id(), []);
    assert [a1, a2][1..] == [a2];
    ComposeUnfold([a2], Id(), [I1]);
  }
}
