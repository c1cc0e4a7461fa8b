# Contract code emitter — a Dafny model

This project models the emitter of the contract language's code
generator (`lang/src/gen.rs`). It takes a lowered contract and appends
five fragments to one token buffer. The contract has a state type, one
deploy handler and an ordered list of messages. The fragments are:

1. the state declaration (`pdsl_model::state!`), with the state's attributes and fields copied;
2. the message registry (`pdsl_model::messages!`), one line `n => Name(args) -> ret;` per message;
3. the `impl State { .. }` block with one method per handler, the deploy handler first;
4. the `instantiate` wiring function with its deploy closure;
5. the two entry points `deploy` and `call`.

Each fragment is an abstract value (`Gen.Fragment`), not a token stream.
The token buffer is a class (`Gen.TokenBuffer`) whose field `fragments`
the `CodegenFor*` methods extend. The lists the Rust code builds with
`for` and `while let` loops are built by Dafny methods with loops, each
proved equal to a specification function. Those specification functions
are collected in the first half of `gen.dfy`. `gen_properties.dfy`
proves what the emitter promises about them:

- the fragment order;
- the registry numbering, and that the deploy handler stays out of it;
- the receiver and env-handle rewrite of every signature, and its inverse;
- the forwarding of the captured deploy parameters;
- that the entry points do not depend on the contract;
- a complete end-to-end example.

Files:

- `ast.dfy` (module `Ast`): the syntax pieces. `FnArg` is `SelfRef`, `SelfValue` or `Captured(pat, ty)`.
- `hir.dfy` (module `Hir`): the lowered contract, the deploy handler seen as a message (`IntoMessage`), and the input requirement of the emitter.
- `camel_case.dfy` (module `CamelCase`): the conversion of message names to registry names.
- `gen.dfy` (module `Gen`): the fragments, their specification, and the emitter methods.
- `gen_properties.dfy` (module `GenProperties`): the lemmas.

The emitter requires only that every handler has at least one input
(`Hir.HandlersHaveInputs`). That is what the `unwrap()` at
`lang/src/gen.rs:111` needs. The env-handle choice at lines 114-123
handles any first argument: only `&mut self` gets `&mut EnvHandler`,
and every other first argument gets `&EnvHandler`, including a `mut self`
taken by value (`GenProperties.EnvHandleMutability`). With a `&self` or
`&mut self` receiver, which lowering guarantees, a shared receiver gets a
shared handle and an exclusive one an exclusive handle
(`GenProperties.EnvHandleFollowsReceiver`).

The deploy handler's implementation is named `on_deploy`, the method the
deploy closure calls at line 71.

## Model

| member | source | states |
|---|---|---|
| `Gen.Codegen` | lang/src/gen.rs:20-28 | starting from an empty buffer, the result holds exactly the five fragments of `Emit(contract)`: state, registry, impls, instantiate, entry points, in that order |
| `Gen.TokenBuffer.constructor` | lang/src/gen.rs:21 | a new token stream is empty |
| `Gen.TokenBuffer.Extend` | lang/src/gen.rs:188 | extending appends the fragment at the end and leaves everything already in the buffer unchanged |
| `Gen.CodegenForState` | lang/src/gen.rs:178-195 | appends exactly the state fragment (attributes, name, fields) after what the buffer held |
| `Gen.CodegenForMessages` | lang/src/gen.rs:197-245 | appends exactly the registry fragment after what the buffer held |
| `Gen.CodegenForMethods` | lang/src/gen.rs:91-147 | appends exactly the impl block (handler impls, then the empty method list) after what the buffer held |
| `Gen.CodegenForInstantiate` | lang/src/gen.rs:44-89 | appends exactly the wiring function (state name, deploy closure, empty message wiring) after what the buffer held |
| `Gen.CodegenForEntryPoints` | lang/src/gen.rs:30-42 | appends exactly the fixed `deploy`/`call` pair after what the buffer held |
| `Gen.AttrTokens` | lang/src/gen.rs:181-183 | the attributes come out verbatim and in order (the same loop is at lines 99-101 and 201-203) |
| `Gen.ArgsWithoutSelf` | lang/src/gen.rs:217-229 | the argument list is the inputs without the first element, in order, and empty for empty inputs (`skip(1)`, also used for the deploy closure at lines 48-54) |
| `Gen.InputsWithEnv` | lang/src/gen.rs:107-131 | the new inputs are the receiver, then the env parameter (`env: &mut EnvHandler` for `&mut self`, `env: &EnvHandler` otherwise, moved into a captured argument as at lines 169-175), then the remaining inputs (`WithEnv`) |
| `Gen.DeployCallArgs` | lang/src/gen.rs:55-67 | the forwarded call arguments are `CapturedPats` of the closure parameters |
| `Gen.MessagesContent` | lang/src/gen.rs:198-236 | the registry content is `Registry(messages)`: entry `n` comes from message `n` with id `n` |
| `Gen.MessageImpls` | lang/src/gen.rs:94-138 | the implementations are `ImplOf` of the deploy handler (as a message) followed by those of the messages |
| `CamelCase.ToCamelCase` | lang/src/gen.rs:210-213 | the registry name contains no `_` |
| `CamelCase.AlreadyCamelCase` | lang/src/gen.rs:210-213 | a name already made of capitalised ASCII words (upper-case initial, letters only, no two upper-case letters in a row, as `OnTransfer`) is left unchanged |
| `CamelCase.SnakeCaseExample` | lang/src/gen.rs:210-213 | `on_transfer` becomes `OnTransfer` |
| `CamelCase.SingleWordExample` | lang/src/gen.rs:210-213 | `mint` becomes `Mint` |
| `CamelCase.NamesCanCollide` | lang/src/gen.rs:210-213 | the distinct names `get_value` and `getValue` both become `GetValue`; nothing in the registry code detects this |
| `GenProperties.EmitLayout` | lang/src/gen.rs:20-28 | exactly five fragments of the five kinds in the fixed order; the impl block and the wiring function name the type the state fragment declares |
| `GenProperties.StateCopied` | lang/src/gen.rs:178-195 | the state fragment carries the contract name, the state attributes and the fields unchanged |
| `GenProperties.EntryPointsIndependent` | lang/src/gen.rs:30-42 | the entry-point fragment is the same for any two contracts: `deploy` deploying, `call` dispatching |
| `GenProperties.RegistryShape` | lang/src/gen.rs:200-232 | one entry per message; entry `n` has id `n`, the message's attributes, the camel-cased name, the unchanged return type and the inputs after the receiver in order (one fewer than declared) |
| `GenProperties.RegistryIdsArePositions` | lang/src/gen.rs:200-206 | every id is below the number of messages and no two entries share an id |
| `GenProperties.RegistryAppend` | lang/src/gen.rs:200-206 | appending a message keeps every earlier entry and gives the new one the next id |
| `GenProperties.RegistryInsertShifts` | lang/src/gen.rs:200-206 | inserting a message at position `p` keeps the entries before `p` and moves every later entry up by one id, all else equal |
| `GenProperties.RegistryIgnoresOnDeploy` | lang/src/gen.rs:200 | the registry does not depend on the deploy handler |
| `GenProperties.RegistryArgsAreImplInputsTail` | lang/src/gen.rs:217-229 | a registry entry's arguments are its implementation's inputs without the first two (receiver and env handle) |
| `GenProperties.WithEnvShape` | lang/src/gen.rs:110-130 | the impl inputs are one longer than declared: receiver first, second the captured argument `env` of type `&mut EnvHandler` or `&EnvHandler` (its pattern and type moved unchanged by `into_arg_captured`, lines 169-175), then input `k` at position `k + 1` |
| `GenProperties.EnvHandleFollowsReceiver` | lang/src/gen.rs:114-123 | for a `&self` or `&mut self` receiver, the env parameter is `env` with a reference to `EnvHandler` of exactly the receiver's mutability |
| `GenProperties.EnvHandleMutability` | lang/src/gen.rs:114-123 | the env parameter has type `&mut EnvHandler` exactly when the receiver is `&mut self`, and `&EnvHandler` exactly otherwise |
| `GenProperties.DropEnvInverse` | lang/src/gen.rs:108-130 | removing the second parameter of the rewritten inputs gives back the declared inputs |
| `GenProperties.ImplCopies` | lang/src/gen.rs:99-135 | an implementation keeps the handler's name, attributes, return type and body, and its inputs are `WithEnv` of the declared ones |
| `GenProperties.ImplsShape` | lang/src/gen.rs:96-97 | the impl block holds one method more than there are messages: first the deploy handler, named `on_deploy`, then message `k` at position `k + 1`; the extra method list is empty (line 140) |
| `GenProperties.CapturedPatsAppend` | lang/src/gen.rs:57-65 | the patterns forwarded for `a + b` are those for `a` followed by those for `b` |
| `GenProperties.CapturedPatsBound` | lang/src/gen.rs:57-65 | no more call arguments than closure parameters, and as many exactly when every parameter is captured |
| `GenProperties.CapturedPatsExactly` | lang/src/gen.rs:57-65 | the call arguments are the patterns of exactly the captured parameters: an increasing list of positions covers every captured parameter and nothing else |
| `GenProperties.AllCapturedForwarded` | lang/src/gen.rs:57-65 | when every closure parameter is captured, call argument `i` is the pattern of parameter `i` |
| `GenProperties.InstantiateShape` | lang/src/gen.rs:44-89 | the wiring names the state type; the deploy closure takes the deploy inputs after the receiver and forwards their captured patterns (no more than there are parameters); the message wiring is empty |
| `GenProperties.EndToEndExample` | lang/src/gen.rs:20-28 | for a counter contract with the deploy handler `(&mut self, start: Integer)` and the message `get(&self) -> Integer`, the five emitted fragments are exactly the expected ones |

## Left out

- Token rendering: the code emits tokens through `quote!`, `TokenStream`, `Span`, `ToTokens` and `paren_tok.surround`. The model emits abstract fragment values instead. Fixed tokens such as `pub`, `fn`, parentheses, commas, `=>`, `;`, `#[no_mangle]` and the `use pdsl_model::messages;` line are not represented.
- CamelCase.ToCamelCase: this is a simplified stand-in for the `heck` crate's `to_camel_case` and for `to_owned_string`. It splits only at `_`, and only raises the first letter of each word. Unlike `heck`, it does not split at lower-to-upper case changes, does not lower-case the rest of a word, and does not treat `-` or spaces as separators. The registry lemmas use only "the name is `ToCamelCase` of the identifier".
- Parsing `env: &mut pdsl_model::EnvHandler` with `CustomArgCaptured::parse` and `parse_quote!` is done by an external parser. The model states its result directly as `Gen.EnvParam`. The colon token of `CustomArgCaptured` is not represented.
- The lowering stage (ast to hir) and its rejection of malformed handlers are not part of this model. The emitter's own demand, that every handler has an input, is the precondition `Hir.HandlersHaveInputs`. An empty input list would make the `unwrap()` at line 111 panic.
- CamelCase.CamelFromInsideWord, CamelCase.WordThenRest and CamelCase.TwoWords: helper lemmas about the stand-in only, used to compute the examples. They make no claim about `heck`, which for instance lower-cases `AB` to `Ab` where the stand-in leaves it as it is.
- The hir definitions are not part of this model. `Hir.Contract`, `Hir.Message` and `Hir.OnDeployHandler` carry only the fields the emitter reads. `Hir.IntoMessage` names the handler `on_deploy`, which matches the call at line 71.
- The optional lifetime of `&'a self` is not represented.
- The message wiring in `instantiate` (lines 76-79) and the plain method impls (lines 139-140) are empty placeholders in the code. They are modelled as empty lists.
- Gen.MessagesContent: the panic of `Ident::new` at line 210, for a converted name that is empty or starts with a digit, is not modelled. `heck` turns the legal message names `__` and `_1` into the empty name and `1`, so the code panics on them, while the model emits registry entries with those names.
- Registry ids are `n as u64`. The model uses `nat`, since no contract has 2^64 messages.
- Registry name collisions are not detected by the code. `CamelCase.NamesCanCollide` shows that two messages can get the same name.
