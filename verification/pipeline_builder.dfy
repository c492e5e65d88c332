/** `PipelineBuilder<T>` (src/Flo/PipelineBuilder.cs): the flavour whose input
    and output share one type. Its terminal handler returns the input (it is
    `Composition.Id`), and its
    `When` hands the child pipeline's output on to the rest of the parent
    pipeline whether or not the branch was taken. */
module PipelineBuilder {
  import opened Wrappers
  import opened Composition
  import opened Builder

  /** The combinator of both `When` overloads: run the child on the input,
      then continue the parent pipeline with the child's output. */
  function ThreadCombinator<T>(): Combinator<T, T> {
    (input, result) => CallNext(result, Id())
  }

  /** The step `When(predicate, configurePipeline)` registers. */
  function WhenStep<T>(pred: T -> bool, child: seq<Step<T, T>>): Step<T, T> {
    BranchStep(pred, ThreadCombinator(), child, Id())
  }

  /** `new PipelineBuilder<T>(serviceProvider)`. */
  method New<T>(serviceProvider: Option<Resolver<T, T>>, reflective: Resolver<T, T>) returns (b: Builder<T, T>)
    ensures fresh(b)
    ensures b.handlers == [] && b.inner == Id()
    ensures b.serviceProvider == serviceProvider.GetOr(reflective)
  {
    b := new Builder(Id(), serviceProvider, reflective);
  }

  /** `CreateBuilder()`: a new `PipelineBuilder<T>` given this builder's
      service provider, which is never null at that point. A branch step
      reaches it through `Builder.CreateBuilder`, which stands for both
      flavours' overrides; this method states what the override gives. */
  method CreateBuilder<T>(b: Builder<T, T>) returns (child: Builder<T, T>)
    requires b.inner == Id()  // b is a PipelineBuilder<T>
    ensures fresh(child)
    ensures child.handlers == [] && child.inner == Id()
    ensures child.serviceProvider == b.serviceProvider
  {
    child := New(Some(b.serviceProvider), b.serviceProvider);
  }

  /** `When(predicate, configurePipeline)`, with a synchronous or an
      asynchronous predicate: the generic `When` with the threading combinator. */
  method When<T>(b: Builder<T, T>, pred: Option<T -> bool>, configurePipeline: Option<seq<Step<T, T>>>)
    returns (r: Result<Builder<T, T>, Error>)
    requires b.inner == Id()  // b is a PipelineBuilder<T>
    modifies b
    ensures pred.None? ==> r == Failure(ArgumentNull("predicate")) && b.handlers == old(b.handlers)
    ensures pred.Some? && configurePipeline.None? ==>
              r == Failure(ArgumentNull("configurePipeline")) && b.handlers == old(b.handlers)
    ensures pred.Some? && configurePipeline.Some? ==>
              r == Success(b) && b.handlers == old(b.handlers) + [WhenStep(pred.value, configurePipeline.value)]
  {
    r := b.When(pred, Some(ThreadCombinator()), configurePipeline);
  }

  /** With no steps, or with steps that all hand their input on unchanged,
      the pipeline returns its input. */
  lemma ForwardingPipelineIsIdentity<T>(steps: seq<Step<T, T>>, input: T)
    requires forall i, y, o :: 0 <= i < |steps| ==> ForwardsAt(steps[i], y, o)
    ensures Compose(steps, Id())(input) == input
  {
    ForwardingStepsReachInner(steps, Id(), input);
  }

  /** `When` always continues the parent pipeline: with the child's output
      when the predicate holds, with the unchanged input when it does not. */
  lemma WhenThreads<T>(pred: T -> bool, child: seq<Step<T, T>>, t: seq<Step<T, T>>, input: T)
    ensures Compose([WhenStep(pred, child)] + t, Id())(input)
            == Compose(t, Id())(if pred(input) then Compose(child, Id())(input) else input)
  {
    var s := [WhenStep(pred, child)] + t;
    assert s[0] == WhenStep(pred, child) && s[1..] == t;
  }

  /** A child pipeline that ends in `Final` never reaches its own terminal
      handler, yet the parent still continues after the branch with what the
      child's `Final` returned. */
  lemma WhenChildFinal<T>(pred: T -> bool, c: seq<Step<T, T>>, f: T -> T, d: seq<Step<T, T>>,
                          t: seq<Step<T, T>>, input: T)
    requires pred(input)
    ensures Compose([WhenStep(pred, c + [FinalStep(f)] + d)] + t, Id())(input)
            == Compose(t, Id())(Compose(c, f)(input))
  {
    WhenThreads(pred, c + [FinalStep(f)] + d, t, input);
    FinalCuts(c, f, d, Id(), input);
  }
}
