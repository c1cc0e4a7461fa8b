/**
 * The lowered contract the emitter consumes: a name, a state, one
 * deploy handler and the ordered list of messages.
 */
module Hir {
  import opened Ast

  datatype Signature = Signature(ident: Ident, decl: FnDecl)

  /** A callable message: attributes, signature and body. */
  datatype Message = Message(attrs: seq<Attribute>, sig: Signature, block: Block)

  /** The deploy handler: a message without a name of its own. */
  datatype OnDeployHandler = OnDeployHandler(attrs: seq<Attribute>, decl: FnDecl, block: Block)

  /** The contract state: its attributes and its named fields. */
  datatype State = State(attrs: seq<Attribute>, fields: seq<Field>)

  datatype Contract = Contract(
    name: Ident,
    state: State,
    onDeploy: OnDeployHandler,
    messages: seq<Message>)

  /** The name the deploy handler gets once it is treated as a message. */
  const OnDeployIdent: Ident := "on_deploy"

  /** The deploy handler seen as a message named `on_deploy`. */
  function IntoMessage(h: OnDeployHandler): Message
  {
    Message(h.attrs, Signature(OnDeployIdent, h.decl), h.block)
  }

  /** A handler whose input list is not empty: its first input fills the receiver slot. */
  predicate HasInputs(m: Message)
  {
    |m.sig.decl.inputs| > 0
  }

  /**
   * What the emitter needs of its input: every handler, the deploy
   * handler included, has at least one input.
   */
  predicate HandlersHaveInputs(c: Contract)
  {
    && |c.onDeploy.decl.inputs| > 0
    && forall i :: 0 <= i < |c.messages| ==> HasInputs(c.messages[i])
  }

  /**
   * What lowering guarantees on top of that: every handler's first input
   * is `&self` or `&mut self`.
   */
  predicate StartsWithSelfRef(inputs: seq<FnArg>)
  {
    |inputs| > 0 && inputs[0].SelfRef?
  }
}
