/** The attachment registry of one adapter: the four rebindable handlers,
    their defaults, the headless input wrapper, and the effect of each
    setter call (and of a fluent chain of them) on the registry. */
module Registry {
  import opened JsValues

  /** Receives the executor's result; returns the new result or throws. */
  type ThenHandler = Value -> Settled
  /** Receives a failure reason; returns a recovered result or throws. */
  type CatchHandler = Value -> Settled
  /** Receives one progress event from the executor. */
  type OutputHandler = Value -> Settled
  /** Answers the executor's request `(key, type, options)`. */
  type InputHandler = (string, string, Value) -> Settled

  datatype Attachments = Attachments(
    onThen: ThenHandler,
    onCatch: CatchHandler,
    onOutput: OutputHandler,
    onInput: InputHandler)

  const MissingInputPrefix: string := "Input \""
  const MissingInputSuffix: string := "\" must be supplied"

  /** The message of the default input handler's failure for `key`. */
  function MissingInputMessage(key: string): string
  {
    MissingInputPrefix + key + MissingInputSuffix
  }

  /** The message names exactly the key that was requested. */
  lemma MissingInputMessageNamesKey(k1: string, k2: string)
    requires MissingInputMessage(k1) == MissingInputMessage(k2)
    ensures k1 == k2
  {
    var m := MissingInputMessage(k1);
    var p := |MissingInputPrefix|;
    assert |k1| == |k2|;
    assert m[p..p + |k1|] == k1;
    assert MissingInputMessage(k2)[p..p + |k2|] == k2;
  }

  /** The registry every new adapter starts with. */
  function Defaults(): (a: Attachments)
    ensures forall v :: a.onThen(v) == Fulfilled(v)
    ensures forall e :: a.onCatch(e) == Rejected(e)
    ensures forall o :: a.onOutput(o) == Fulfilled(Undefined)
    ensures forall key, kind, options ::
      a.onInput(key, kind, options) == Rejected(Error(MissingInputMessage(key)))
  {
    Attachments(
      v => Fulfilled(v),
      e => Rejected(e),
      o => Fulfilled(Undefined),
      (key, kind, options) => Rejected(Error(MissingInputMessage(key))))
  }

  /** The handler that answers input requests from a fixed mapping. */
  function HeadlessInput(data: map<string, Value>): (h: InputHandler)
    ensures forall key, kind, options :: key in data ==>
      h(key, kind, options) == Fulfilled(data[key])
    ensures forall key, kind, options :: key !in data ==>
      h(key, kind, options) == Fulfilled(Undefined)
  {
    (key, kind, options) => Fulfilled(if key in data then data[key] else Undefined)
  }

  /** A headless handler never fails, and its answer depends on the key only. */
  lemma HeadlessIgnoresKindAndOptions(data: map<string, Value>, key: string,
                                      kind1: string, options1: Value,
                                      kind2: string, options2: Value)
    ensures HeadlessInput(data)(key, kind1, options1).Fulfilled?
    ensures HeadlessInput(data)(key, kind1, options1) == HeadlessInput(data)(key, kind2, options2)
  {
  }

  /** What the `input` setter accepts: a handler, or a plain mapping. */
  datatype InputSource = Function(handler: InputHandler) | Headless(data: map<string, Value>)

  /** The handler the `input` setter installs for `source`. */
  function InputHandlerOf(source: InputSource): InputHandler
  {
    match source
    case Function(h) => h
    case Headless(data) => HeadlessInput(data)
  }

  /** The argument of `attach`: the slots present are the ones it writes. */
  datatype Partial = Partial(
    onThen: Option<ThenHandler>,
    onCatch: Option<CatchHandler>,
    onOutput: Option<OutputHandler>,
    onInput: Option<InputHandler>)

  /** `attach`: copies every present slot of `p` over `a`. */
  function Merge(a: Attachments, p: Partial): Attachments
  {
    Attachments(
      if p.onThen.Some? then p.onThen.value else a.onThen,
      if p.onCatch.Some? then p.onCatch.value else a.onCatch,
      if p.onOutput.Some? then p.onOutput.value else a.onOutput,
      if p.onInput.Some? then p.onInput.value else a.onInput)
  }

  /** One setter call on the adapter handle. */
  datatype Call =
    | SetThen(onThen: ThenHandler)
    | SetCatch(onCatch: CatchHandler)
    | SetOutput(onOutput: OutputHandler)
    | SetInput(source: InputSource)
    | SetPartial(partial: Partial)

  /** The registry after one setter call. */
  function Apply(a: Attachments, c: Call): (r: Attachments)
    ensures forall s :: Get(r, s) == if Writes(c, s).Some? then Writes(c, s).value else Get(a, s)
  {
    match c
    case SetThen(h) => a.(onThen := h)
    case SetCatch(h) => a.(onCatch := h)
    case SetOutput(h) => a.(onOutput := h)
    case SetInput(source) => a.(onInput := InputHandlerOf(source))
    case SetPartial(p) => Merge(a, p)
  }

  /** The registry after a fluent chain of setter calls, first call first. */
  function ApplyChain(a: Attachments, calls: seq<Call>): Attachments
    decreases |calls|
  {
    if calls == [] then a else ApplyChain(Apply(a, calls[0]), calls[1..])
  }

  // Slot-wise view of the registry, used to state what setters change.

  datatype Slot = ThenSlot | CatchSlot | OutputSlot | InputSlot

  datatype Handler =
    | OnThen(t: ThenHandler)
    | OnCatch(c: CatchHandler)
    | OnOutput(o: OutputHandler)
    | OnInput(i: InputHandler)

  ghost function Get(a: Attachments, s: Slot): Handler
  {
    match s
    case ThenSlot => OnThen(a.onThen)
    case CatchSlot => OnCatch(a.onCatch)
    case OutputSlot => OnOutput(a.onOutput)
    case InputSlot => OnInput(a.onInput)
  }

  ghost function OptionMap<T>(o: Option<T>, f: T -> Handler): Option<Handler>
  {
    match o
    case None => None
    case Some(x) => Some(f(x))
  }

  /** The handler a call installs into slot `s`, if it writes `s` at all. */
  ghost function Writes(c: Call, s: Slot): Option<Handler>
  {
    match (c, s)
    case (SetThen(h), ThenSlot) => Some(OnThen(h))
    case (SetCatch(h), CatchSlot) => Some(OnCatch(h))
    case (SetOutput(h), OutputSlot) => Some(OnOutput(h))
    case (SetInput(source), InputSlot) => Some(OnInput(InputHandlerOf(source)))
    case (SetPartial(p), ThenSlot) => OptionMap(p.onThen, h => OnThen(h))
    case (SetPartial(p), CatchSlot) => OptionMap(p.onCatch, h => OnCatch(h))
    case (SetPartial(p), OutputSlot) => OptionMap(p.onOutput, h => OnOutput(h))
    case (SetPartial(p), InputSlot) => OptionMap(p.onInput, h => OnInput(h))
    case _ => None
  }

  /** The handler the last call of the chain that writes `s` installs there. */
  ghost function LastWrite(calls: seq<Call>, s: Slot): Option<Handler>
  {
    if calls == [] then None
    else match Writes(calls[|calls| - 1], s)
      case Some(h) => Some(h)
      case None => LastWrite(calls[..|calls| - 1], s)
  }

  ghost function OrElse(first: Option<Handler>, second: Option<Handler>): Option<Handler>
  {
    if first.Some? then first else second
  }

  /** Reading the last write from the front: a later write hides the first call's. */
  lemma {:induction false} LastWriteFromFront(calls: seq<Call>, s: Slot)
    requires |calls| > 0
    ensures LastWrite(calls, s) == OrElse(LastWrite(calls[1..], s), Writes(calls[0], s))
    decreases |calls|
  {
    var n := |calls|;
    if n == 1 {
      assert calls[1..] == [];
      assert calls[..0] == [];
    } else {
      var init := calls[..n - 1];
      LastWriteFromFront(init, s);
      assert init[0] == calls[0];
      assert init[1..] == calls[1..][..n - 2];
      assert calls[1..][n - 2] == calls[n - 1];
    }
  }

  /** Last write wins: after a chain of setter calls each slot holds what the
      last call naming it installed, and its previous handler otherwise. */
  lemma {:induction false} ChainLastWriteWins(a: Attachments, calls: seq<Call>, s: Slot)
    ensures Get(ApplyChain(a, calls), s) ==
      match LastWrite(calls, s)
      case Some(h) => h
      case None => Get(a, s)
    decreases |calls|
  {
    if calls != [] {
      ChainLastWriteWins(Apply(a, calls[0]), calls[1..], s);
      LastWriteFromFront(calls, s);
    }
  }

  /** Two registries that agree on every slot are the same registry. */
  lemma SlotsDetermineRegistry(x: Attachments, y: Attachments)
    requires forall s :: Get(x, s) == Get(y, s)
    ensures x == y
  {
    assert Get(x, ThenSlot) == Get(y, ThenSlot);
    assert Get(x, CatchSlot) == Get(y, CatchSlot);
    assert Get(x, OutputSlot) == Get(y, OutputSlot);
    assert Get(x, InputSlot) == Get(y, InputSlot);
  }

  ghost predicate Covers(later: Call, earlier: Call)
  {
    forall s :: Writes(earlier, s).Some? ==> Writes(later, s).Some?
  }

  ghost predicate Disjoint(c1: Call, c2: Call)
  {
    forall s :: !(Writes(c1, s).Some? && Writes(c2, s).Some?)
  }

  /** A later call that writes every slot an earlier one wrote erases it. */
  lemma LaterCallOverwrites(a: Attachments, earlier: Call, later: Call)
    requires Covers(later, earlier)
    ensures Apply(Apply(a, earlier), later) == Apply(a, later)
  {
    SlotsDetermineRegistry(Apply(Apply(a, earlier), later), Apply(a, later));
  }

  /** Repeating a setter call changes nothing more. */
  lemma SetterIdempotent(a: Attachments, c: Call)
    ensures Apply(Apply(a, c), c) == Apply(a, c)
  {
    LaterCallOverwrites(a, c, c);
  }

  /** Setter calls on different slots can be made in either order. */
  lemma DisjointCallsCommute(a: Attachments, c1: Call, c2: Call)
    requires Disjoint(c1, c2)
    ensures Apply(Apply(a, c1), c2) == Apply(Apply(a, c2), c1)
  {
    SlotsDetermineRegistry(Apply(Apply(a, c1), c2), Apply(Apply(a, c2), c1));
  }
}
