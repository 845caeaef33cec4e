/** The run behind `exec` and `promise`: one invocation of the executor with
    the current input and output handlers, its outcome piped through the
    current `then` handler and then through the current `catch` handler. */
module Pipeline {
  import opened JsValues
  import opened Registry

  /** The wrapped computation: given the input and output handlers, the
      promise it returns settles as the result. */
  type Executor = (InputHandler, OutputHandler) -> Settled

  /** `promise.then(onThen)` on a settled promise: a fulfilment goes through
      the handler, a rejection passes by. */
  function ThenStage(p: Settled, onThen: ThenHandler): Settled
  {
    match p
    case Fulfilled(v) => onThen(v)
    case Rejected(_) => p
  }

  /** `promise.catch(onCatch)` on a settled promise: a rejection goes through
      the handler, a fulfilment passes by. */
  function CatchStage(p: Settled, onCatch: CatchHandler): Settled
  {
    match p
    case Fulfilled(_) => p
    case Rejected(e) => onCatch(e)
  }

  /** One run against the registry `a`: success goes through `then`; a
      failure of the executor or of `then` goes through `catch`, whose answer
      is final. */
  function Run(executor: Executor, a: Attachments): (r: Settled)
    ensures forall v ::
      executor(a.onInput, a.onOutput) == Fulfilled(v) && a.onThen(v).Fulfilled? ==>
        r == a.onThen(v)
    ensures forall v, e ::
      executor(a.onInput, a.onOutput) == Fulfilled(v) && a.onThen(v) == Rejected(e) ==>
        r == a.onCatch(e)
    ensures forall e ::
      executor(a.onInput, a.onOutput) == Rejected(e) ==> r == a.onCatch(e)
  {
    CatchStage(ThenStage(executor(a.onInput, a.onOutput), a.onThen), a.onCatch)
  }

  /** With `then` and `catch` behaving as the defaults do, a run settles
      exactly as the executor's own promise does. */
  lemma DefaultThenCatchPassThrough(executor: Executor, a: Attachments)
    requires forall v :: a.onThen(v) == Fulfilled(v)
    requires forall e :: a.onCatch(e) == Rejected(e)
    ensures Run(executor, a) == executor(a.onInput, a.onOutput)
  {
  }

  /** A fresh registry passes the executor's outcome through unchanged. */
  lemma DefaultsPassThrough(executor: Executor)
    ensures Run(executor, Defaults()) == executor(Defaults().onInput, Defaults().onOutput)
  {
    DefaultThenCatchPassThrough(executor, Defaults());
  }
}
