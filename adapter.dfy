/** The adapter handle returned by `makeAdapter`: it owns the attachment
    registry, the executor and the metadata; its setters rebind the registry
    in place and return the handle itself, and `exec`/`promise` start a new
    run against the registry as it is at the moment of the call. */
module Adapters {
  import opened JsValues
  import opened Registry
  import opened Pipeline

  /** Descriptive data given at construction; never read by a run. */
  datatype Meta = Meta(description: Option<string>, inputs: Option<map<string, string>>)

  /** The arguments one executor invocation received. */
  datatype Invocation = Invocation(input: InputHandler, output: OutputHandler)

  class Adapter {
    const executor: Executor
    /** `None` stands for `null`, the value when no metadata is given. */
    const meta: Option<Meta>

    var onThen: ThenHandler
    var onCatch: CatchHandler
    var onOutput: OutputHandler
    var onInput: InputHandler

    /** Every executor invocation so far, oldest first. */
    ghost var invocations: seq<Invocation>

    /** The registry as it stands now. */
    function Current(): Attachments
      reads this
    {
      Attachments(onThen, onCatch, onOutput, onInput)
    }

    /** `makeAdapter(executor, meta)`: installs the defaults and does not
        invoke the executor. */
    constructor (executor: Executor, meta: Option<Meta> := None)
      ensures this.executor == executor && this.meta == meta
      ensures Current() == Defaults()
      ensures invocations == []
    {
      this.executor := executor;
      this.meta := meta;
      var defaults := Defaults();
      onThen := defaults.onThen;
      onCatch := defaults.onCatch;
      onOutput := defaults.onOutput;
      onInput := defaults.onInput;
      invocations := [];
    }

    method Then(h: ThenHandler) returns (r: Adapter)
      modifies this`onThen
      ensures r == this
      ensures Current() == Apply(old(Current()), SetThen(h))
    {
      onThen := h;
      r := this;
    }

    method Catch(h: CatchHandler) returns (r: Adapter)
      modifies this`onCatch
      ensures r == this
      ensures Current() == Apply(old(Current()), SetCatch(h))
    {
      onCatch := h;
      r := this;
    }

    method Output(h: OutputHandler) returns (r: Adapter)
      modifies this`onOutput
      ensures r == this
      ensures Current() == Apply(old(Current()), SetOutput(h))
    {
      onOutput := h;
      r := this;
    }

    /** A handler is installed as given; a plain mapping is wrapped first. */
    method Input(source: InputSource) returns (r: Adapter)
      modifies this`onInput
      ensures r == this
      ensures Current() == Apply(old(Current()), SetInput(source))
    {
      onInput := InputHandlerOf(source);
      r := this;
    }

    /** Writes each slot present in `p`, in place. */
    method Attach(p: Partial) returns (r: Adapter)
      modifies this`onThen, this`onCatch, this`onOutput, this`onInput
      ensures r == this
      ensures Current() == Apply(old(Current()), SetPartial(p))
    {
      var merged := Merge(Current(), p);
      onThen, onCatch, onOutput, onInput := merged.onThen, merged.onCatch, merged.onOutput, merged.onInput;
      r := this;
    }

    /** Invokes the executor once with the current input and output handlers
        and routes its outcome through the `then` and `catch` current at the
        call. */
    method Exec() returns (r: Settled)
      modifies this`invocations
      ensures r == Run(executor, Current())
      ensures invocations == old(invocations) + [Invocation(onInput, onOutput)]
    {
      invocations := invocations + [Invocation(onInput, onOutput)];
      r := CatchStage(ThenStage(executor(onInput, onOutput), onThen), onCatch);
    }

    /** The same operation as `Exec`. */
    method Promise() returns (r: Settled)
      modifies this`invocations
      ensures r == Run(executor, Current())
      ensures invocations == old(invocations) + [Invocation(onInput, onOutput)]
    {
      r := Exec();
    }
  }

  /** A fresh handle's run settles exactly as the executor's promise does. */
  method FreshHandlePassesThrough(executor: Executor) returns (r: Settled)
    ensures r == executor(Defaults().onInput, Defaults().onOutput)
  {
    var adapter := new Adapter(executor);
    r := adapter.Exec();
    DefaultsPassThrough(executor);
  }

  /** An `input` call between two runs is seen by the second run only. */
  method ReconfiguredBetweenRuns(executor: Executor, h: InputHandler)
    returns (first: Settled, second: Settled)
    ensures first == Run(executor, Defaults())
    ensures second == Run(executor, Defaults().(onInput := h))
  {
    var adapter := new Adapter(executor);
    first := adapter.Exec();
    var same := adapter.Input(Function(h));
    second := same.Exec();
    assert adapter.invocations == [Invocation(Defaults().onInput, Defaults().onOutput), Invocation(h, Defaults().onOutput)];
  }

  /** An executor that asks for the key "password" and resolves with the answer. */
  function AskPassword(input: InputHandler, output: OutputHandler): Settled
  {
    input("password", "password", Undefined)
  }

  /** Without an input handler, the request fails with the unsupplied-input
      message, and the default `catch` passes that failure on. */
  method PasswordNotSupplied() returns (r: Settled)
    ensures r == Rejected(Error("Input \"password\" must be supplied"))
  {
    var adapter := new Adapter(AskPassword);
    r := adapter.Exec();
    assert MissingInputMessage("password") == "Input \"password\" must be supplied";
  }

  /** A headless mapping answers the request whatever its type and options. */
  method PasswordHeadless() returns (r: Settled)
    ensures r == Fulfilled(Str("pa$$word"))
  {
    var adapter := new Adapter(AskPassword);
    var same := adapter.Input(Headless(map["password" := Str("pa$$word")]));
    r := same.Exec();
  }
}
