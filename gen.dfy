/**
 * The contract code emitter: from a lowered contract it appends, in a
 * fixed order, five fragments to one token buffer — the state
 * declaration, the message registry, the handler implementations, the
 * `instantiate` wiring function and the two entry points.
 *
 * Fragments are abstract values standing for the tokens `quote!` would
 * produce. The first half of the module is the specification (what each
 * fragment is, as a function of the contract); the second half is the
 * emitter itself, as methods that build the fragments with loops and
 * append them to a `TokenBuffer`, each proved against the specification.
 */
module Gen {
  import opened Ast
  import opened Hir
  import CamelCase

  // ---------------------------------------------------------------------
  // Emitted fragments

  /** One registry line `id => Name(args) output;`. */
  datatype RegistryEntry = RegistryEntry(
    attrs: seq<Attribute>,
    id: nat,
    name: Ident,
    args: seq<FnArg>,
    output: ReturnType)

  /** One `pub fn ident(inputs) output block` inside `impl State { .. }`. */
  datatype MethodImpl = MethodImpl(
    attrs: seq<Attribute>,
    ident: Ident,
    inputs: seq<FnArg>,
    output: ReturnType,
    block: Block)

  /**
   * `.on_deploy(|env, params| { let (handler, state) = env.split_mut();
   * state.on_deploy(handler, callArgs) })`.
   */
  datatype DeployHandler = DeployHandler(params: seq<FnArg>, callArgs: seq<Pat>)

  /** What an entry point does with the instantiated contract. */
  datatype ContractAction = Deploy | Dispatch

  /** `#[no_mangle] fn ident() { instantiate().action() }`. */
  datatype EntryPoint = EntryPoint(ident: Ident, action: ContractAction)

  datatype Fragment =
      /** `pdsl_model::state! { attrs struct name fields }` */
    | StateDecl(attrs: seq<Attribute>, name: Ident, fields: seq<Field>)
      /** `use pdsl_model::messages; pdsl_model::messages! { registry }` */
    | MessagesDecl(registry: seq<RegistryEntry>)
      /** `impl stateName { messageImpls methodImpls }` */
    | ImplBlock(stateName: Ident, messageImpls: seq<MethodImpl>, methodImpls: seq<MethodImpl>)
      /** `fn instantiate() { ContractDecl::using::<stateName>() onDeploy messageWiring .instantiate() }` */
    | InstantiateFn(stateName: Ident, onDeploy: DeployHandler, messageWiring: seq<Token>)
      /** the `deploy` and `call` functions */
    | EntryPoints(entryFns: seq<EntryPoint>)

  // ---------------------------------------------------------------------
  // Specification

  /** `inputs.iter().skip(1)`: the inputs without the receiver slot. */
  function WithoutReceiver(inputs: seq<FnArg>): seq<FnArg>
  {
    if |inputs| == 0 then [] else inputs[1..]
  }

  /** The parsed form of `env: &T` / `env: &mut T` before it becomes an argument. */
  datatype CustomArgCaptured = CustomArgCaptured(pat: Pat, ty: Ty)

  const EnvHandlerTy: Ty := Path("pdsl_model::EnvHandler")

  /** `env: &mut pdsl_model::EnvHandler` when `mutable`, `env: &pdsl_model::EnvHandler` otherwise. */
  function EnvParam(mutable: bool): CustomArgCaptured
  {
    CustomArgCaptured(PatIdent("env"), Reference(mutable, EnvHandlerTy))
  }

  /** Turns the parsed `pat: ty` into a captured function argument, moving both parts. */
  function IntoArgCaptured(c: CustomArgCaptured): FnArg
  {
    Captured(c.pat, c.ty)
  }

  /** Whether the receiver is a `&mut self`: the only case with an exclusive env handle. */
  predicate IsMutSelfRef(a: FnArg)
  {
    a.SelfRef? && a.mutable
  }

  /** The environment parameter inserted after the receiver `selfArg`. */
  function EnvArgFor(selfArg: FnArg): FnArg
  {
    IntoArgCaptured(EnvParam(IsMutSelfRef(selfArg)))
  }

  /** The inputs of an implementation: receiver, env parameter, then the other inputs. */
  function WithEnv(inputs: seq<FnArg>): seq<FnArg>
    requires |inputs| > 0
  {
    [inputs[0], EnvArgFor(inputs[0])] + inputs[1..]
  }

  /** The implementation of one handler. */
  function ImplOf(m: Message): MethodImpl
    requires HasInputs(m)
  {
    MethodImpl(m.attrs, m.sig.ident, WithEnv(m.sig.decl.inputs), m.sig.decl.output, m.block)
  }

  /** The handlers in implementation order: the deploy handler, then every message. */
  function ImplHandlers(c: Contract): seq<Message>
  {
    [IntoMessage(c.onDeploy)] + c.messages
  }

  function ImplsOf(handlers: seq<Message>): seq<MethodImpl>
    requires forall i :: 0 <= i < |handlers| ==> HasInputs(handlers[i])
  {
    seq(|handlers|, i requires 0 <= i < |handlers| => ImplOf(handlers[i]))
  }

  /** The registry entry of message `m` declared at position `n`. */
  function EntryOf(m: Message, n: nat): RegistryEntry
  {
    RegistryEntry(m.attrs, n, CamelCase.ToCamelCase(m.sig.ident),
                  WithoutReceiver(m.sig.decl.inputs), m.sig.decl.output)
  }

  /** The registry: every message, numbered by its position. */
  function Registry(messages: seq<Message>): seq<RegistryEntry>
  {
    seq(|messages|, n requires 0 <= n < |messages| => EntryOf(messages[n], n))
  }

  /** The patterns of the captured arguments of `args`, in order; receivers are dropped. */
  function CapturedPats(args: seq<FnArg>): seq<Pat>
  {
    if |args| == 0 then []
    else
      var last := args[|args| - 1];
      CapturedPats(args[..|args| - 1]) + (if last.Captured? then [last.pat] else [])
  }

  /** The deploy handler closure: its parameters and the arguments it forwards. */
  function DeployHandlerOf(h: OnDeployHandler): DeployHandler
  {
    var params := WithoutReceiver(h.decl.inputs);
    DeployHandler(params, CapturedPats(params))
  }

  function StateFragment(c: Contract): Fragment
  {
    StateDecl(c.state.attrs, c.name, c.state.fields)
  }

  function MessagesFragment(c: Contract): Fragment
  {
    MessagesDecl(Registry(c.messages))
  }

  function MethodsFragment(c: Contract): Fragment
    requires HandlersHaveInputs(c)
  {
    ImplBlock(c.name, ImplsOf(ImplHandlers(c)), [])
  }

  function InstantiateFragment(c: Contract): Fragment
  {
    InstantiateFn(c.name, DeployHandlerOf(c.onDeploy), [])
  }

  function EntryPointsFragment(): Fragment
  {
    EntryPoints([EntryPoint("deploy", Deploy), EntryPoint("call", Dispatch)])
  }

  /** Everything the emitter produces, in the order it produces it. */
  function Emit(c: Contract): seq<Fragment>
    requires HandlersHaveInputs(c)
  {
    [StateFragment(c), MessagesFragment(c), MethodsFragment(c),
     InstantiateFragment(c), EntryPointsFragment()]
  }

  // ---------------------------------------------------------------------
  // The emitter

  /** The token stream that the `codegen_for_*` steps extend. */
  class TokenBuffer {
    var fragments: seq<Fragment>

    constructor ()
      ensures fragments == []
    {
      fragments := [];
    }

    method Extend(f: Fragment)
      modifies this
      ensures fragments == old(fragments) + [f]
    {
      fragments := fragments + [f];
    }
  }

  /** Writes a list of attributes to a fresh token stream, one after the other. */
  method AttrTokens(attrs: seq<Attribute>) returns (content: seq<Attribute>)
    ensures content == attrs
  {
    content := [];
    for i := 0 to |attrs|
      invariant content == attrs[..i]
    {
      content := content + [attrs[i]];
    }
  }

  /** Pushes every input but the first into a new argument list. */
  method ArgsWithoutSelf(inputs: seq<FnArg>) returns (args: seq<FnArg>)
    ensures args == WithoutReceiver(inputs)
  {
    args := [];
    var i := 1;
    while i < |inputs|
      invariant 1 <= i <= |inputs| || (|inputs| == 0 && i == 1)
      invariant |inputs| > 0 ==> args == inputs[1..i]
      invariant |inputs| == 0 ==> args == []
    {
      args := args + [inputs[i]];
      i := i + 1;
    }
  }

  /**
   * Builds the inputs of one implementation: the receiver, then the env
   * parameter (exclusive exactly for `&mut self`), then the remaining inputs.
   */
  method InputsWithEnv(inputs: seq<FnArg>) returns (r: seq<FnArg>)
    requires |inputs| > 0
    ensures r == WithEnv(inputs)
  {
    var selfArg := inputs[0];
    r := [selfArg];
    var custom: CustomArgCaptured;
    if selfArg.SelfRef? && selfArg.mutable {
      custom := EnvParam(true);
    } else {
      custom := EnvParam(false);
    }
    r := r + [IntoArgCaptured(custom)];
    var i := 1;
    while i < |inputs|
      invariant 1 <= i <= |inputs|
      invariant r == [selfArg, IntoArgCaptured(custom)] + inputs[1..i]
    {
      r := r + [inputs[i]];
      i := i + 1;
    }
  }

  /** Pushes the pattern of every captured argument, skipping the others. */
  method DeployCallArgs(fnArgs: seq<FnArg>) returns (pats: seq<Pat>)
    ensures pats == CapturedPats(fnArgs)
  {
    pats := [];
    for i := 0 to |fnArgs|
      invariant pats == CapturedPats(fnArgs[..i])
    {
      assert fnArgs[..i + 1][..i] == fnArgs[..i];
      if fnArgs[i].Captured? {
        pats := pats + [fnArgs[i].pat];
      }
    }
    assert fnArgs[..|fnArgs|] == fnArgs;
  }

  /** The registry lines, one per message, numbered from 0 in declaration order. */
  method MessagesContent(messages: seq<Message>) returns (content: seq<RegistryEntry>)
    ensures content == Registry(messages)
  {
    content := [];
    for n := 0 to |messages|
      invariant |content| == n
      invariant forall k :: 0 <= k < n ==> content[k] == EntryOf(messages[k], k)
    {
      var message := messages[n];
      var attrs := AttrTokens(message.attrs);
      var name := CamelCase.ToCamelCase(message.sig.ident);
      var args := ArgsWithoutSelf(message.sig.decl.inputs);
      content := content + [RegistryEntry(attrs, n, name, args, message.sig.decl.output)];
    }
  }

  /** The implementations of the deploy handler and of every message, in that order. */
  method MessageImpls(contract: Contract) returns (content: seq<MethodImpl>)
    requires HandlersHaveInputs(contract)
    ensures content == ImplsOf(ImplHandlers(contract))
  {
    var handlers := [IntoMessage(contract.onDeploy)] + contract.messages;
    assert forall i :: 0 <= i < |handlers| ==> HasInputs(handlers[i]) by {
      forall i | 0 <= i < |handlers| ensures HasInputs(handlers[i]) {
        if i > 0 { assert handlers[i] == contract.messages[i - 1]; }
      }
    }
    content := [];
    for i := 0 to |handlers|
      invariant |content| == i
      invariant forall k :: 0 <= k < i ==> content[k] == ImplOf(handlers[k])
    {
      var message := handlers[i];
      var attrs := AttrTokens(message.attrs);
      var inputs := InputsWithEnv(message.sig.decl.inputs);
      content := content + [MethodImpl(attrs, message.sig.ident, inputs,
                                       message.sig.decl.output, message.block)];
    }
  }

  method CodegenForState(tokens: TokenBuffer, contract: Contract)
    modifies tokens
    ensures tokens.fragments == old(tokens.fragments) + [StateFragment(contract)]
  {
    var attrs := AttrTokens(contract.state.attrs);
    tokens.Extend(StateDecl(attrs, contract.name, contract.state.fields));
  }

  method CodegenForMessages(tokens: TokenBuffer, contract: Contract)
    modifies tokens
    ensures tokens.fragments == old(tokens.fragments) + [MessagesFragment(contract)]
  {
    var content := MessagesContent(contract.messages);
    tokens.Extend(MessagesDecl(content));
  }

  method CodegenForMethods(tokens: TokenBuffer, contract: Contract)
    requires HandlersHaveInputs(contract)
    modifies tokens
    ensures tokens.fragments == old(tokens.fragments) + [MethodsFragment(contract)]
  {
    var messageImpls := MessageImpls(contract);
    // The plain (non-message) methods are not generated yet.
    var methodImpls := [];
    tokens.Extend(ImplBlock(contract.name, messageImpls, methodImpls));
  }

  method CodegenForInstantiate(tokens: TokenBuffer, contract: Contract)
    modifies tokens
    ensures tokens.fragments == old(tokens.fragments) + [InstantiateFragment(contract)]
  {
    var deployFnArgs := ArgsWithoutSelf(contract.onDeploy.decl.inputs);
    var deployCallArgs := DeployCallArgs(deployFnArgs);
    // Messages are not attached to the contract declaration yet.
    var messagesToks := [];
    tokens.Extend(InstantiateFn(contract.name, DeployHandler(deployFnArgs, deployCallArgs), messagesToks));
  }

  method CodegenForEntryPoints(tokens: TokenBuffer)
    modifies tokens
    ensures tokens.fragments == old(tokens.fragments) + [EntryPointsFragment()]
  {
    tokens.Extend(EntryPoints([EntryPoint("deploy", Deploy), EntryPoint("call", Dispatch)]));
  }

  /** Emits the whole contract into a new token buffer. */
  method Codegen(contract: Contract) returns (tokens: TokenBuffer)
    requires HandlersHaveInputs(contract)
    ensures fresh(tokens)
    ensures tokens.fragments == Emit(contract)
  {
    tokens := new TokenBuffer();
    CodegenForState(tokens, contract);
    CodegenForMessages(tokens, contract);
    CodegenForMethods(tokens, contract);
    CodegenForInstantiate(tokens, contract);
    CodegenForEntryPoints(tokens);
  }
}
