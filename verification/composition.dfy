/** The closures that `Builder<TIn, TOut, TBuilder>` (src/Flo/Builder.cs) builds:
    the handler contract, the step each registration form wraps into, and the
    right fold that `Build` performs, together with the laws they obey.

    A handler receives an input and a continuation `next` (the rest of the
    pipeline). The source's handlers either return a value of their own or
    return what `next` produces for some argument, possibly transforming it.
    An `Action` records that choice first-order, so that `Invoke` is the only
    place where `next` is ever called. */
module Composition {
  import opened Wrappers

  /** What a handler does on one input: return `value` without calling `next`,
      or call `next(arg)` and return `post` of its result. */
  datatype Action<In, !Out> = Done(value: Out) | CallNext(arg: In, post: Out -> Out)

  /** A registered step, `Func<TIn, Func<TIn, ValueTask<TOut>>, ValueTask<TOut>>`. */
  type Step<!In, !Out> = In -> Action<In, Out>

  /** An `IHandler<TIn, TOut>` instance, represented by its `HandleAsync` behaviour. */
  type Handler<!In, !Out> = Step<In, Out>

  /** A branch combinator `(input, childPipeline, next) -> output`. Every
      combinator in the source runs the child pipeline once on the original
      input before anything else, so it is given the child's result. */
  type Combinator<!In, !Out> = (In, Out) -> Action<In, Out>

  /** The `Type` handed to the service provider. */
  type TypeId = string

  /** `Func<Type, object>` followed by `as THandler`: None stands for null and
      for an object of the wrong type. */
  type Resolver<!In, !Out> = TypeId -> Option<Handler<In, Out>>

  /** The identity: the post-processing of a step that returns what `next`
      returns, and the terminal handler of `PipelineBuilder<T>`. */
  function Id<T>(): T -> T { o => o }

  /** Completes an action with the continuation `next`. */
  function Resume<In, Out>(a: Action<In, Out>, next: In -> Out): Out {
    match a
    case Done(v) => v
    case CallNext(y, post) => post(next(y))
  }

  /** `step(input, next)`: runs one step with the given continuation. */
  function Invoke<In, Out>(step: Step<In, Out>, input: In, next: In -> Out): Out {
    Resume(step(input), next)
  }

  /** The pipeline `Build` produces: the steps folded right to left around
      the terminal `inner`, so the first registered step runs first and its
      continuation is the pipeline of the remaining steps. */
  function Compose<In, Out>(steps: seq<Step<In, Out>>, inner: In -> Out): In -> Out
    decreases |steps|
  {
    if |steps| == 0 then inner
    else input => Invoke(steps[0], input, Compose(steps[1..], inner))
  }

  /** The step `Final(handler)` registers: whatever `next` is, the result is
      `handler(input)`. */
  function FinalStep<In, Out>(handler: In -> Out): Step<In, Out> {
    input => Done(handler(input))
  }

  /** The step `Add(handlerFactory)` registers: call the factory on every
      invocation; a null handler passes the input on to `next` unchanged. */
  function FactoryStep<In, Out>(handlerFactory: () -> Option<Handler<In, Out>>): Step<In, Out> {
    input =>
      match handlerFactory()
      case Some(handler) => handler(input)
      case None => CallNext(input, Id())
  }

  /** The factory `Add<THandler>()` builds: ask the service provider for the type. */
  function ResolveFactory<In, Out>(serviceProvider: Resolver<In, Out>, t: TypeId): () -> Option<Handler<In, Out>> {
    () => serviceProvider(t)
  }

  /** The step the generic `When` registers. On each invocation whose
      predicate holds it builds a fresh child pipeline from the empty builder
      configured with `child`, around the same terminal handler, and lets the
      combinator relate the child's result to `next`; otherwise it calls
      `next(input)`. */
  function BranchStep<In, Out>(pred: In -> bool, handler: Combinator<In, Out>,
                               child: seq<Step<In, Out>>, inner: In -> Out): Step<In, Out> {
    input =>
      if pred(input) then handler(input, Compose(child, inner)(input))
      else CallNext(input, Id())
  }

  /** The combinator `Fork` passes to `When`: the child's result is final,
      and `next` is never consulted. */
  function ForkCombinator<In, Out>(): Combinator<In, Out> {
    (input, result) => Done(result)
  }

  /** On `y`, the step hands `y` itself to `next` and, when `next` returns
      `o`, returns `o` untouched. A step that does so for every `y` and `o`
      is the source's `(input, next) => next.Invoke(input)`, however its
      post-processing is written. */
  ghost predicate ForwardsAt<In, Out>(step: Step<In, Out>, y: In, o: Out) {
    step(y).CallNext? && step(y).arg == y && step(y).post(o) == o
  }

  // ---------------------------------------------------------------------
  // Laws of the fold

  /** A step observes its continuation only through the values it returns. */
  lemma InvokeRespects<In, Out>(step: Step<In, Out>, input: In, g: In -> Out, h: In -> Out)
    requires forall y :: g(y) == h(y)
    ensures Invoke(step, input, g) == Invoke(step, input, h)
  {
    match step(input)
    case Done(_) =>
    case CallNext(y, _) => assert g(y) == h(y);
  }

  /** A pipeline observes its terminal handler only through the values it returns. */
  lemma {:induction false} ComposeRespects<In, Out>(steps: seq<Step<In, Out>>, g: In -> Out, h: In -> Out, input: In)
    requires forall y :: g(y) == h(y)
    ensures Compose(steps, g)(input) == Compose(steps, h)(input)
    decreases |steps|
  {
    if |steps| > 0 {
      forall y ensures Compose(steps[1..], g)(y) == Compose(steps[1..], h)(y) {
        ComposeRespects(steps[1..], g, h, y);
      }
      InvokeRespects(steps[0], input, Compose(steps[1..], g), Compose(steps[1..], h));
    }
  }

  /** Helper: one unfolding of `Compose`, for proofs about concrete pipelines. */
  lemma ComposeUnfold<In, Out>(steps: seq<Step<In, Out>>, inner: In -> Out, input: In)
    requires |steps| > 0
    ensures Compose(steps, inner)(input) == Invoke(steps[0], input, Compose(steps[1..], inner))
  {
  }

  /** Registration order is execution order: the steps registered first run
      first, with the pipeline of the later steps as their continuation. */
  lemma {:induction false} ComposeAppend<In, Out>(s: seq<Step<In, Out>>, t: seq<Step<In, Out>>, inner: In -> Out, input: In)
    ensures Compose(s + t, inner)(input) == Compose(s, Compose(t, inner))(input)
    decreases |s|
  {
    if |s| == 0 {
      assert s + t == t;
    } else {
      assert (s + t)[0] == s[0];
      assert (s + t)[1..] == s[1..] + t;
      forall y ensures Compose(s[1..] + t, inner)(y) == Compose(s[1..], Compose(t, inner))(y) {
        ComposeAppend(s[1..], t, inner, y);
      }
      InvokeRespects(s[0], input, Compose(s[1..] + t, inner), Compose(s[1..], Compose(t, inner)));
    }
  }

  /** `Final(f)` ends the chain: whatever is registered after it is never
      reached, and the steps before it see `f` as the end of the pipeline. */
  lemma FinalCuts<In, Out>(s: seq<Step<In, Out>>, f: In -> Out, t: seq<Step<In, Out>>, inner: In -> Out, input: In)
    ensures Compose(s + [FinalStep(f)] + t, inner)(input) == Compose(s, f)(input)
  {
    assert s + [FinalStep(f)] + t == s + ([FinalStep(f)] + t);
    ComposeAppend(s, [FinalStep(f)] + t, inner, input);
    forall y ensures Compose([FinalStep(f)] + t, inner)(y) == f(y) {
      assert ([FinalStep(f)] + t)[0] == FinalStep(f);
    }
    ComposeRespects(s, Compose([FinalStep(f)] + t, inner), f, input);
  }

  /** A pipeline whose steps all hand their input on unchanged returns what
      the terminal handler returns for the original input. */
  lemma {:induction false} ForwardingStepsReachInner<In, Out>(steps: seq<Step<In, Out>>, inner: In -> Out, input: In)
    requires forall i, y, o :: 0 <= i < |steps| ==> ForwardsAt(steps[i], y, o)
    ensures Compose(steps, inner)(input) == inner(input)
    decreases |steps|
  {
    if |steps| > 0 {
      ForwardingStepsReachInner(steps[1..], inner, input);
      assert ForwardsAt(steps[0], input, Compose(steps[1..], inner)(input));
    }
  }

  /** A step that always forwards can be removed from any position without
      changing what the pipeline returns. */
  lemma ForwardingStepRemovable<In, Out>(s: seq<Step<In, Out>>, step: Step<In, Out>, t: seq<Step<In, Out>>,
                                         inner: In -> Out, input: In)
    requires forall y, o :: ForwardsAt(step, y, o)
    ensures Compose(s + [step] + t, inner)(input) == Compose(s + t, inner)(input)
  {
    assert s + [step] + t == s + ([step] + t);
    ComposeAppend(s, [step] + t, inner, input);
    ComposeAppend(s, t, inner, input);
    forall y ensures Compose([step] + t, inner)(y) == Compose(t, inner)(y) {
      assert ([step] + t)[0] == step && ([step] + t)[1..] == t;
      assert ForwardsAt(step, y, Compose(t, inner)(y));
    }
    ComposeRespects(s, Compose([step] + t, inner), Compose(t, inner), input);
  }

  /** A factory step hands its input on to `next` exactly when the factory
      yields null, and otherwise behaves as the handler it yields. */
  lemma FactoryStepBehaviour<In, Out>(handlerFactory: () -> Option<Handler<In, Out>>, input: In, next: In -> Out)
    ensures handlerFactory().None? ==> Invoke(FactoryStep(handlerFactory), input, next) == next(input)
    ensures handlerFactory().Some? ==>
              Invoke(FactoryStep(handlerFactory), input, next) == Invoke(handlerFactory().value, input, next)
  {
    if handlerFactory().None? {
      assert FactoryStep(handlerFactory)(input) == CallNext(input, Id());
    }
  }

  /** A factory that yields null makes its step removable. */
  lemma NullFactoryRemovable<In, Out>(s: seq<Step<In, Out>>, handlerFactory: () -> Option<Handler<In, Out>>,
                                      t: seq<Step<In, Out>>, inner: In -> Out, input: In)
    requires handlerFactory().None?
    ensures Compose(s + [FactoryStep(handlerFactory)] + t, inner)(input) == Compose(s + t, inner)(input)
  {
    forall y, o ensures ForwardsAt(FactoryStep(handlerFactory), y, o) {
      assert FactoryStep(handlerFactory)(y) == CallNext(y, Id());
    }
    ForwardingStepRemovable(s, FactoryStep(handlerFactory), t, inner, input);
  }

  /** A branch whose predicate never holds can be removed from any position. */
  lemma NeverTakenBranchRemovable<In, Out>(s: seq<Step<In, Out>>, pred: In -> bool, handler: Combinator<In, Out>,
                                           child: seq<Step<In, Out>>, t: seq<Step<In, Out>>, inner: In -> Out, input: In)
    requires forall y :: !pred(y)
    ensures Compose(s + [BranchStep(pred, handler, child, inner)] + t, inner)(input) == Compose(s + t, inner)(input)
  {
    ForwardingStepRemovable(s, BranchStep(pred, handler, child, inner), t, inner, input);
  }

  /** `Fork` with a true predicate returns the child pipeline's result and
      never calls `next`: the steps registered after it do not run. */
  lemma ForkCommits<In, Out>(pred: In -> bool, child: seq<Step<In, Out>>, t: seq<Step<In, Out>>,
                             inner: In -> Out, input: In)
    requires pred(input)
    ensures Compose([BranchStep(pred, ForkCombinator(), child, inner)] + t, inner)(input)
            == Compose(child, inner)(input)
  {
    assert ([BranchStep(pred, ForkCombinator(), child, inner)] + t)[0] == BranchStep(pred, ForkCombinator(), child, inner);
  }

  /** `Fork` with a false predicate is the pipeline without it. */
  lemma ForkSkipped<In, Out>(pred: In -> bool, child: seq<Step<In, Out>>, t: seq<Step<In, Out>>,
                             inner: In -> Out, input: In)
    requires !pred(input)
    ensures Compose([BranchStep(pred, ForkCombinator(), child, inner)] + t, inner)(input)
            == Compose(t, inner)(input)
  {
    var s := [BranchStep(pred, ForkCombinator(), child, inner)] + t;
    assert s[0] == BranchStep(pred, ForkCombinator(), child, inner) && s[1..] == t;
  }
}
