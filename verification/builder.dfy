/** The mutable part of `Builder<TIn, TOut, TBuilder>` (src/Flo/Builder.cs):
    the append-only list of registered steps, the terminal handler and the
    service provider, the registration methods that append to the list (or
    throw `ArgumentNullException` and leave it alone), and `Build`, which
    folds the list from the last step to the first.

    Both flavours share this class: a `PipelineBuilder<T>` is a
    `Builder<T, T>` whose terminal handler is the identity, an
    `OutputPipelineBuilder<TIn, TOut>` one whose terminal handler returns
    `default(TOut)`. A nullable C# argument is an `Option`. */
module Builder {
  import opened Wrappers
  import opened Composition

  /** The exception a registration method throws. */
  datatype Error = ArgumentNull(paramName: string)

  class Builder<In, Out> {
    /** `_handlers`: the registered steps, in registration order. */
    var handlers: seq<Step<In, Out>>
    /** `InnerHandler`: the end of every pipeline this builder builds. */
    const inner: In -> Out
    /** `ServiceProvider`: resolves the handler types registered with `Add<THandler>()`. */
    const serviceProvider: Resolver<In, Out>

    /** The protected constructor once its `innerHandler` is known not to be
        null. A null service provider is replaced by the default one, the
        host's reflective constructor `reflective`. */
    constructor (innerHandler: In -> Out, serviceProvider: Option<Resolver<In, Out>>, reflective: Resolver<In, Out>)
      ensures handlers == []
      ensures inner == innerHandler
      ensures this.serviceProvider == (if serviceProvider.Some? then serviceProvider.value else reflective)
    {
      handlers := [];
      inner := innerHandler;
      this.serviceProvider := serviceProvider.GetOr(reflective);
    }

    /** The constructor with its null check on `innerHandler`. */
    static method Create(innerHandler: Option<In -> Out>, serviceProvider: Option<Resolver<In, Out>>,
                         reflective: Resolver<In, Out>)
      returns (r: Result<Builder<In, Out>, Error>)
      ensures innerHandler.None? ==> r == Failure(ArgumentNull("innerHandler"))
      ensures innerHandler.Some? ==>
                && r.Success? && fresh(r.value)
                && r.value.handlers == [] && r.value.inner == innerHandler.value
                && r.value.serviceProvider == serviceProvider.GetOr(reflective)
    {
      if innerHandler.None? {
        return Failure(ArgumentNull("innerHandler"));
      }
      var b := new Builder(innerHandler.value, serviceProvider, reflective);
      r := Success(b);
    }

    /** `Add(Func<TIn, Func<TIn, ValueTask<TOut>>, ValueTask<TOut>> handler)`:
        appends exactly one step and returns this builder. */
    method AddStep(handler: Option<Step<In, Out>>) returns (r: Result<Builder<In, Out>, Error>)
      modifies this
      ensures handler.None? ==> r == Failure(ArgumentNull("handler")) && handlers == old(handlers)
      ensures handler.Some? ==> r == Success(this) && handlers == old(handlers) + [handler.value]
    {
      if handler.None? {
        return Failure(ArgumentNull("handler"));
      }
      handlers := handlers + [handler.value];
      r := Success(this);
    }

    /** `Add(IHandler<TIn, TOut> handler)`: the step calls the instance's `HandleAsync`. */
    method AddHandler(handler: Option<Handler<In, Out>>) returns (r: Result<Builder<In, Out>, Error>)
      modifies this
      ensures handler.None? ==> r == Failure(ArgumentNull("handler")) && handlers == old(handlers)
      ensures handler.Some? ==> r == Success(this) && handlers == old(handlers) + [handler.value]
    {
      if handler.None? {
        return Failure(ArgumentNull("handler"));
      }
      r := AddStep(Some(handler.value));
    }

    /** `Add(Func<IHandler<TIn, TOut>> handlerFactory)`: the factory is stored,
        not called; the step calls it each time it runs. */
    method AddFactory(handlerFactory: Option<() -> Option<Handler<In, Out>>>) returns (r: Result<Builder<In, Out>, Error>)
      modifies this
      ensures handlerFactory.None? ==> r == Failure(ArgumentNull("handlerFactory")) && handlers == old(handlers)
      ensures handlerFactory.Some? ==>
                r == Success(this) && handlers == old(handlers) + [FactoryStep(handlerFactory.value)]
    {
      if handlerFactory.None? {
        return Failure(ArgumentNull("handlerFactory"));
      }
      r := AddStep(Some(FactoryStep(handlerFactory.value)));
    }

    /** `Add<THandler>()`: a factory step that asks this builder's service
        provider for `t` each time it runs. */
    method AddByType(t: TypeId) returns (r: Result<Builder<In, Out>, Error>)
      modifies this
      ensures r == Success(this)
      ensures handlers == old(handlers) + [FactoryStep(ResolveFactory(serviceProvider, t))]
    {
      r := AddFactory(Some(ResolveFactory(serviceProvider, t)));
    }

    /** `Final(handler)`: a step that never calls its continuation. */
    method Final(handler: Option<In -> Out>) returns (r: Result<Builder<In, Out>, Error>)
      modifies this
      ensures handler.None? ==> r == Failure(ArgumentNull("handler")) && handlers == old(handlers)
      ensures handler.Some? ==> r == Success(this) && handlers == old(handlers) + [FinalStep(handler.value)]
    {
      if handler.None? {
        return Failure(ArgumentNull("handler"));
      }
      r := AddStep(Some(FinalStep(handler.value)));
    }

    /** The protected `When(predicate, handler, configurePipeline)`, in both
        its synchronous- and asynchronous-predicate forms: the arguments are
        checked in order, then one branch step is appended. */
    method When(pred: Option<In -> bool>, handler: Option<Combinator<In, Out>>,
                configurePipeline: Option<seq<Step<In, Out>>>)
      returns (r: Result<Builder<In, Out>, Error>)
      modifies this
      ensures pred.None? ==> r == Failure(ArgumentNull("predicate")) && handlers == old(handlers)
      ensures pred.Some? && handler.None? ==> r == Failure(ArgumentNull("handler")) && handlers == old(handlers)
      ensures pred.Some? && handler.Some? && configurePipeline.None? ==>
                r == Failure(ArgumentNull("configurePipeline")) && handlers == old(handlers)
      ensures pred.Some? && handler.Some? && configurePipeline.Some? ==>
                && r == Success(this)
                && handlers == old(handlers) + [BranchStep(pred.value, handler.value, configurePipeline.value, inner)]
    {
      if pred.None? {
        return Failure(ArgumentNull("predicate"));
      }
      if handler.None? {
        return Failure(ArgumentNull("handler"));
      }
      if configurePipeline.None? {
        return Failure(ArgumentNull("configurePipeline"));
      }
      r := AddStep(Some(BranchStep(pred.value, handler.value, configurePipeline.value, inner)));
    }

    /** `Fork(predicate, configurePipeline)`: `When` with the committing combinator. */
    method Fork(pred: Option<In -> bool>, configurePipeline: Option<seq<Step<In, Out>>>)
      returns (r: Result<Builder<In, Out>, Error>)
      modifies this
      ensures pred.None? ==> r == Failure(ArgumentNull("predicate")) && handlers == old(handlers)
      ensures pred.Some? && configurePipeline.None? ==>
                r == Failure(ArgumentNull("configurePipeline")) && handlers == old(handlers)
      ensures pred.Some? && configurePipeline.Some? ==>
                && r == Success(this)
                && handlers == old(handlers) + [BranchStep(pred.value, ForkCombinator(), configurePipeline.value, inner)]
    {
      r := When(pred, Some(ForkCombinator()), configurePipeline);
    }

    /** `CreateBuilder()`, as both flavours override it: a new builder of the
        same flavour (so with the same terminal handler) that shares this
        builder's service provider and starts with no steps. */
    method CreateBuilder() returns (child: Builder<In, Out>)
      ensures fresh(child)
      ensures child.handlers == []
      ensures child.inner == inner && child.serviceProvider == serviceProvider
    {
      child := new Builder(inner, Some(serviceProvider), serviceProvider);
    }

    /** `configurePipeline(builder)`: the callback registers `steps` on the
        child, one registration call after the other. */
    static method Configure(builder: Builder<In, Out>, steps: seq<Step<In, Out>>)
      modifies builder
      ensures builder.handlers == old(builder.handlers) + steps
    {
      var k := 0;
      while k < |steps|
        invariant 0 <= k <= |steps|
        invariant builder.handlers == old(builder.handlers) + steps[..k]
      {
        var _ := builder.AddStep(Some(steps[k]));
        assert steps[..k + 1] == steps[..k] + [steps[k]];
        k := k + 1;
      }
      assert steps[..k] == steps;
    }

    /** `Build()`: folds the steps from the last registered to the first
        around `InnerHandler`; with no steps the result is `InnerHandler`
        itself. The result captures the current list, so steps added later do
        not change a pipeline already built. */
    method Build() returns (pipeline: In -> Out)
      ensures forall x :: pipeline(x) == Compose(handlers, inner)(x)
      ensures handlers == [] ==> pipeline == inner
    {
      pipeline := inner;
      var i := |handlers| - 1;
      while i >= 0
        invariant -1 <= i < |handlers|
        invariant forall x :: pipeline(x) == Compose(handlers[i + 1..], inner)(x)
        invariant handlers == [] ==> pipeline == inner
      {
        var handler := handlers[i];
        var prev := pipeline;
        pipeline := input => Invoke(handler, input, prev);
        assert handlers[i..][0] == handler && handlers[i..][1..] == handlers[i + 1..];
        forall x ensures pipeline(x) == Compose(handlers[i..], inner)(x) {
          InvokeRespects(handler, x, prev, Compose(handlers[i + 1..], inner));
        }
        i := i - 1;
      }
      assert handlers[0..] == handlers;
    }

    /** What the step registered by `When` does each time it runs: when the
        predicate holds, create a child builder, configure it, build it and
        hand its pipeline to the combinator; otherwise call `next(input)`.
        The result is the branch step's. */
    method InvokeBranch(pred: In -> bool, handler: Combinator<In, Out>, configurePipeline: seq<Step<In, Out>>,
                        input: In, next: In -> Out)
      returns (output: Out)
      ensures !pred(input) ==> output == next(input)
      ensures pred(input) ==> output == Resume(handler(input, Compose(configurePipeline, inner)(input)), next)
      ensures output == Invoke(BranchStep(pred, handler, configurePipeline, inner), input, next)
    {
      if pred(input) {
        var builder := CreateBuilder();
        Configure(builder, configurePipeline);
        assert builder.handlers == configurePipeline;
        var childPipeline := builder.Build();
        output := Resume(handler(input, childPipeline(input)), next);
      } else {
        output := next(input);
      }
    }
  }
}
