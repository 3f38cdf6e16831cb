/**
 * The message protocol of the DrinkingBuddy mixin: every participating
 * application answers `receive`, and `send` is an alias of it with an
 * optional side hook.  A message is a (key, value) pair; the reply is a pair
 * with the same key, or whatever a protocol hook answers.
 */
module Messages {
  import opened Wrappers

  /** An application object, by identity. */
  type AppId = nat

  /** The arguments of a URL request: an endpoint and its keyword values (`_anchor` among them). */
  datatype UrlArgs = UrlArgs(endpoint: string, values: map<string, string>)

  /** The value half of a message or reply; `Nil` is Python's `None`. */
  datatype Value = Nil | Text(text: string) | Args(args: UrlArgs)

  /** A message or a reply: the (key, value) pair of the protocol. */
  datatype Message = Message(key: string, value: Value)

  /** What a receive hook hands back: a pair, or Python's `None` when the hook falls through. */
  type Reply = Option<Message>

  /** The exceptions the modelled code raises. */
  datatype Fault =
    | BuildError        // the URL cannot be built by the application itself
    | BadArgs           // a 'url' message whose value is not an (endpoint, values) pair
    | NotSubscriptable  // `reply[1]` on a reply that is None
    | UnboundLocal      // `return rv` when `rv` was never assigned
    | NoneConcat        // `rv += ...` when `rv` is None

  /** The liveness probe of the protocol and its fixed answer. */
  const Ping := Message("ping", Nil)
  const Pong := Message("pong", Nil)

  /** An `on_receive` hook, bound to its application: (sender, message) to reply, or a raise. */
  type ReceiveHook = (AppId, Message) -> Result<Reply, Fault>

  /** An `on_send` hook: run for its effect only; `Some(f)` means it raised `f`. */
  type SendHook = (AppId, Message) -> Option<Fault>

  /** `DrinkingBuddy.receive`: ping is answered by the mixin itself, anything else by the hook if there is one. */
  function Receive(sender: AppId, m: Message, onReceive: Option<ReceiveHook>): (r: Result<Reply, Fault>)
    ensures m == Ping ==> r == Ok(Some(Pong))
    ensures m != Ping && onReceive.Some? ==> r == onReceive.value(sender, m)
    ensures m != Ping && onReceive.None? ==> r.Ok? && r.value.Some? && r.value.value.key == m.key && r.value.value.value == Nil
  {
    if m == Ping then Ok(Some(Pong))
    else if onReceive.Some? then onReceive.value(sender, m)
    else Ok(Some(Message(m.key, Nil)))
  }

  /** `DrinkingBuddy.send`: runs the `on_send` hook, if any, then answers exactly as `receive` does. */
  function Send(sender: AppId, m: Message, onSend: Option<SendHook>, onReceive: Option<ReceiveHook>): (r: Result<Reply, Fault>)
    ensures onSend.Some? && onSend.value(sender, m).Some? ==> r == Err(onSend.value(sender, m).value)
    ensures onSend.None? || onSend.value(sender, m).None? ==> r == Receive(sender, m, onReceive)
  {
    if onSend.Some? && onSend.value(sender, m).Some? then Err(onSend.value(sender, m).value)
    else Receive(sender, m, onReceive)
  }

  /** Ping is answered with pong whatever hooks the receiver has. */
  lemma PingPong(sender: AppId, onSend: Option<SendHook>, onReceive: Option<ReceiveHook>)
    requires onSend.None? || onSend.value(sender, Ping).None?
    ensures Send(sender, Ping, onSend, onReceive) == Ok(Some(Pong))
  {
  }

  /** Without hooks the reply to any message but ping carries the message's own key (ping's reply is keyed "pong"). */
  lemma KeySymmetry(sender: AppId, m: Message)
    requires m != Ping
    ensures Send(sender, m, None, None).Ok?
    ensures Send(sender, m, None, None).value.Some?
    ensures Send(sender, m, None, None).value.value.key == m.key
  {
  }
}
