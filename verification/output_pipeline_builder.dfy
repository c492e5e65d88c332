/** `OutputPipelineBuilder<TIn, TOut>` (src/Flo/OutputPipelineBuilder.cs): the
    flavour whose output type differs from its input type. Its terminal
    handler returns `default(TOut)`, and its `When` gives the child pipeline
    first refusal: when the child's result satisfies `continueIf` (by default
    `output == null`) the rest of the parent pipeline runs on the original
    input, otherwise the child's result is final. */
module OutputPipelineBuilder {
  import opened Wrappers
  import opened Composition
  import opened Builder

  /** What the code knows about `TOut`: its `default(TOut)`, and whether
      `output == null` can hold for it (reference and `Nullable<T>` types,
      whose default is null) or never does (other value types such as `int`). */
  datatype OutType<Out> = OutType(defaultValue: Out, nullable: bool)

  /** The terminal handler: `_ => ValueTask.FromResult(default(TOut))`. */
  function DefaultOutput<In, Out>(ty: OutType<Out>): In -> Out {
    _ => ty.defaultValue
  }

  /** `_defaultContinuation`: `output => output == null`. */
  function DefaultContinuation<Out(==)>(ty: OutType<Out>): Out -> bool {
    output => ty.nullable && output == ty.defaultValue
  }

  /** `continueIf ?? _defaultContinuation`. */
  function Continuation<Out(==)>(continueIf: Option<Out -> bool>, ty: OutType<Out>): Out -> bool {
    continueIf.GetOr(DefaultContinuation(ty))
  }

  /** The combinator of both `When` overloads: run the child on the input; if
      its result satisfies the continuation predicate, call `next` on the
      original input, otherwise return the child's result. */
  function FallthroughCombinator<In, Out(==)>(continueIf: Option<Out -> bool>, ty: OutType<Out>): Combinator<In, Out> {
    (input, result) => if Continuation(continueIf, ty)(result) then CallNext(input, Id()) else Done(result)
  }

  /** The step `When(predicate, configurePipeline, continueIf)` registers. */
  function WhenStep<In, Out(==)>(pred: In -> bool, child: seq<Step<In, Out>>, continueIf: Option<Out -> bool>,
                                 ty: OutType<Out>): Step<In, Out> {
    BranchStep(pred, FallthroughCombinator(continueIf, ty), child, DefaultOutput(ty))
  }

  /** `new OutputPipelineBuilder<TIn, TOut>(serviceProvider)`. */
  method New<In, Out>(ty: OutType<Out>, serviceProvider: Option<Resolver<In, Out>>, reflective: Resolver<In, Out>)
    returns (b: Builder<In, Out>)
    ensures fresh(b)
    ensures b.handlers == [] && b.inner == DefaultOutput(ty)
    ensures b.serviceProvider == serviceProvider.GetOr(reflective)
  {
    b := new Builder(DefaultOutput(ty), serviceProvider, reflective);
  }

  /** `CreateBuilder()`: a new `OutputPipelineBuilder<TIn, TOut>` given this
      builder's service provider, which is never null at that point. A branch
      step reaches it through `Builder.CreateBuilder`, which stands for both
      flavours' overrides; this method states what the override gives. */
  method CreateBuilder<In, Out>(b: Builder<In, Out>, ty: OutType<Out>) returns (child: Builder<In, Out>)
    requires b.inner == DefaultOutput(ty)  // b is an OutputPipelineBuilder<TIn, TOut>
    ensures fresh(child)
    ensures child.handlers == [] && child.inner == DefaultOutput(ty)
    ensures child.serviceProvider == b.serviceProvider
  {
    child := New(ty, Some(b.serviceProvider), b.serviceProvider);
  }

  /** `When(predicate, configurePipeline, continueIf)`, with a synchronous or
      an asynchronous predicate; a null `continueIf` is not an error. */
  method When<In, Out(==)>(b: Builder<In, Out>, ty: OutType<Out>, pred: Option<In -> bool>,
                           configurePipeline: Option<seq<Step<In, Out>>>, continueIf: Option<Out -> bool>)
    returns (r: Result<Builder<In, Out>, Error>)
    requires b.inner == DefaultOutput(ty)  // b is an OutputPipelineBuilder<TIn, TOut>
    modifies b
    ensures pred.None? ==> r == Failure(ArgumentNull("predicate")) && b.handlers == old(b.handlers)
    ensures pred.Some? && configurePipeline.None? ==>
              r == Failure(ArgumentNull("configurePipeline")) && b.handlers == old(b.handlers)
    ensures pred.Some? && configurePipeline.Some? ==>
              && r == Success(b)
              && b.handlers == old(b.handlers) + [WhenStep(pred.value, configurePipeline.value, continueIf, ty)]
  {
    r := b.When(pred, Some(FallthroughCombinator(continueIf, ty)), configurePipeline);
  }

  /** With no steps, or with steps that all hand their input on unchanged,
      the pipeline returns `default(TOut)`. */
  lemma ForwardingPipelineReturnsDefault<In, Out>(ty: OutType<Out>, steps: seq<Step<In, Out>>, input: In)
    requires forall i, y, o :: 0 <= i < |steps| ==> ForwardsAt(steps[i], y, o)
    ensures Compose(steps, DefaultOutput(ty))(input) == ty.defaultValue
  {
    ForwardingStepsReachInner(steps, DefaultOutput(ty), input);
  }

  /** A `When` whose predicate is false is skipped: the rest of the pipeline
      runs on the input. */
  lemma WhenSkipped<In, Out>(ty: OutType<Out>, pred: In -> bool, child: seq<Step<In, Out>>,
                             continueIf: Option<Out -> bool>, t: seq<Step<In, Out>>, input: In)
    requires !pred(input)
    ensures Compose([WhenStep(pred, child, continueIf, ty)] + t, DefaultOutput(ty))(input)
            == Compose(t, DefaultOutput(ty))(input)
  {
    var s := [WhenStep(pred, child, continueIf, ty)] + t;
    assert s[0] == WhenStep(pred, child, continueIf, ty) && s[1..] == t;
  }

  /** A taken `When` whose child result satisfies the continuation predicate
      falls through: the rest of the pipeline runs on the ORIGINAL input. */
  lemma WhenFallsThrough<In, Out>(ty: OutType<Out>, pred: In -> bool, child: seq<Step<In, Out>>,
                                  continueIf: Option<Out -> bool>, t: seq<Step<In, Out>>, input: In)
    requires pred(input)
    requires Continuation(continueIf, ty)(Compose(child, DefaultOutput(ty))(input))
    ensures Compose([WhenStep(pred, child, continueIf, ty)] + t, DefaultOutput(ty))(input)
            == Compose(t, DefaultOutput(ty))(input)
  {
    var s := [WhenStep(pred, child, continueIf, ty)] + t;
    assert s[0] == WhenStep(pred, child, continueIf, ty) && s[1..] == t;
  }

  /** A taken `When` whose child result does not satisfy the continuation
      predicate returns exactly that result, whatever is registered after it. */
  lemma WhenCommits<In, Out>(ty: OutType<Out>, pred: In -> bool, child: seq<Step<In, Out>>,
                             continueIf: Option<Out -> bool>, t: seq<Step<In, Out>>, input: In)
    requires pred(input)
    requires !Continuation(continueIf, ty)(Compose(child, DefaultOutput(ty))(input))
    ensures Compose([WhenStep(pred, child, continueIf, ty)] + t, DefaultOutput(ty))(input)
            == Compose(child, DefaultOutput(ty))(input)
  {
    var s := [WhenStep(pred, child, continueIf, ty)] + t;
    assert s[0] == WhenStep(pred, child, continueIf, ty) && s[1..] == t;
  }

  /** With the default continuation and a `TOut` that cannot be null (such as
      `int`), a taken `When` is always final, even when the child returns
      `default(TOut)`. */
  lemma NonNullableWhenIsFinal<In, Out>(ty: OutType<Out>, pred: In -> bool, child: seq<Step<In, Out>>,
                                        t: seq<Step<In, Out>>, input: In)
    requires !ty.nullable && pred(input)
    ensures Compose([WhenStep(pred, child, None, ty)] + t, DefaultOutput(ty))(input)
            == Compose(child, DefaultOutput(ty))(input)
  {
    WhenCommits(ty, pred, child, None, t, input);
  }

  /** With the default continuation and a nullable `TOut`, a child that
      returns null lets the rest of the pipeline run on the original input. */
  lemma NullChildResultFallsThrough<In, Out>(ty: OutType<Out>, pred: In -> bool, child: seq<Step<In, Out>>,
                                             t: seq<Step<In, Out>>, input: In)
    requires ty.nullable && pred(input)
    requires Compose(child, DefaultOutput(ty))(input) == ty.defaultValue
    ensures Compose([WhenStep(pred, child, None, ty)] + t, DefaultOutput(ty))(input)
            == Compose(t, DefaultOutput(ty))(input)
  {
    WhenFallsThrough(ty, pred, child, None, t, input);
  }
}
