/**
 * What the emitter promises about the fragments it produces: their
 * order, the numbering and shape of the registry, the signature rewrite
 * of the implementations, the forwarding in the deploy handler, and the
 * parts that do not depend on the contract at all.
 */
module GenProperties {
  import opened Ast
  import opened Hir
  import opened Gen
  import CamelCase

  // ---------------------------------------------------------------------
  // The five fragments

  /**
   * Exactly five fragments, of the five kinds in the fixed order; the
   * type the first one declares is the one the impl block and the wiring
   * function refer to.
   */
  lemma EmitLayout(c: Contract)
    requires HandlersHaveInputs(c)
    ensures |Emit(c)| == 5
    ensures Emit(c)[0].StateDecl? && Emit(c)[1].MessagesDecl? && Emit(c)[2].ImplBlock?
         && Emit(c)[3].InstantiateFn? && Emit(c)[4].EntryPoints?
    ensures Emit(c)[2].stateName == Emit(c)[0].name && Emit(c)[3].stateName == Emit(c)[0].name
  {
  }

  /** The state fragment carries the contract's name, attributes and fields unchanged. */
  lemma StateCopied(c: Contract)
    ensures StateFragment(c).StateDecl?
    ensures StateFragment(c).attrs == c.state.attrs
    ensures StateFragment(c).name == c.name
    ensures StateFragment(c).fields == c.state.fields
  {
  }

  /** The entry points are the fixed pair `deploy`/`call`, whatever the contract. */
  lemma EntryPointsIndependent(c1: Contract, c2: Contract)
    requires HandlersHaveInputs(c1) && HandlersHaveInputs(c2)
    ensures Emit(c1)[4] == Emit(c2)[4]
    ensures Emit(c1)[4].entryFns == [EntryPoint("deploy", Deploy), EntryPoint("call", Dispatch)]
  {
  }

  // ---------------------------------------------------------------------
  // The registry

  /**
   * One entry per message, in declaration order: entry `n` is message
   * `n`'s attributes, id `n`, the camel-cased name, the inputs after the
   * receiver and the unchanged return type.
   */
  lemma RegistryShape(ms: seq<Message>)
    ensures |Registry(ms)| == |ms|
    ensures forall n :: 0 <= n < |ms| ==>
      && Registry(ms)[n].id == n
      && Registry(ms)[n].attrs == ms[n].attrs
      && Registry(ms)[n].name == CamelCase.ToCamelCase(ms[n].sig.ident)
      && Registry(ms)[n].output == ms[n].sig.decl.output
    ensures forall n :: 0 <= n < |ms| && HasInputs(ms[n]) ==>
      && |Registry(ms)[n].args| == |ms[n].sig.decl.inputs| - 1
      && forall k :: 0 <= k < |Registry(ms)[n].args| ==>
           Registry(ms)[n].args[k] == ms[n].sig.decl.inputs[k + 1]
  {
  }

  /** Every id is a position in the message list, and no two entries share one. */
  lemma RegistryIdsArePositions(ms: seq<Message>)
    ensures forall e :: e in Registry(ms) ==> e.id < |ms|
    ensures forall i, j :: 0 <= i < j < |Registry(ms)| ==> Registry(ms)[i].id != Registry(ms)[j].id
  {
  }

  /** Appending a message keeps every existing id and gives the new one the next id. */
  lemma RegistryAppend(ms: seq<Message>, m: Message)
    ensures Registry(ms + [m]) == Registry(ms) + [EntryOf(m, |ms|)]
  {
  }

  /**
   * Inserting a message at position `p` leaves the entries before it
   * alone and moves every later entry up by one id.
   */
  lemma RegistryInsertShifts(ms: seq<Message>, p: nat, m: Message)
    requires p <= |ms|
    ensures var r := Registry(ms[..p] + [m] + ms[p..]);
      && |r| == |ms| + 1
      && r[..p] == Registry(ms)[..p]
      && r[p] == EntryOf(m, p)
      && forall k :: p <= k < |ms| ==> r[k + 1] == Registry(ms)[k].(id := k + 1)
  {
  }

  /** The deploy handler never reaches the registry. */
  lemma RegistryIgnoresOnDeploy(c: Contract, h: OnDeployHandler)
    ensures MessagesFragment(c.(onDeploy := h)) == MessagesFragment(c)
  {
  }

  // ---------------------------------------------------------------------
  // The signature rewrite of the implementations

  /**
   * The implementation inputs are the receiver, the env parameter and the
   * remaining inputs in their order: one more than declared.
   */
  lemma WithEnvShape(inputs: seq<FnArg>)
    requires |inputs| > 0
    ensures |WithEnv(inputs)| == |inputs| + 1
    ensures WithEnv(inputs)[0] == inputs[0]
    ensures WithEnv(inputs)[1] == Captured(PatIdent("env"), Reference(IsMutSelfRef(inputs[0]), EnvHandlerTy))
    ensures forall k :: 1 <= k < |inputs| ==> WithEnv(inputs)[k + 1] == inputs[k]
  {
  }

  /**
   * The env handle is `&mut EnvHandler` exactly when the receiver is
   * `&mut self`, and `&EnvHandler` for every other receiver.
   */
  lemma EnvHandleMutability(inputs: seq<FnArg>)
    requires |inputs| > 0
    ensures WithEnv(inputs)[1].Captured?
    ensures WithEnv(inputs)[1].ty == Reference(true, EnvHandlerTy) <==> inputs[0] == SelfRef(true)
    ensures WithEnv(inputs)[1].ty == Reference(false, EnvHandlerTy) <==> inputs[0] != SelfRef(true)
  {
  }

  /**
   * With the receiver lowering guarantees (`&self` or `&mut self`), the
   * env handle has exactly the receiver's mutability.
   */
  lemma EnvHandleFollowsReceiver(inputs: seq<FnArg>)
    requires StartsWithSelfRef(inputs)
    ensures WithEnv(inputs)[1] == Captured(PatIdent("env"), Reference(inputs[0].mutable, EnvHandlerTy))
  {
  }

  /** Removes the parameter inserted after the receiver. */
  function DropEnv(inputs: seq<FnArg>): seq<FnArg>
    requires |inputs| >= 2
  {
    [inputs[0]] + inputs[2..]
  }

  /** Removing the env parameter again gives back the declared inputs. */
  lemma DropEnvInverse(inputs: seq<FnArg>)
    requires |inputs| > 0
    ensures DropEnv(WithEnv(inputs)) == inputs
  {
  }

  /**
   * The registry's callable shape is the implementation shape without its
   * first two parameters (receiver and env handle).
   */
  lemma RegistryArgsAreImplInputsTail(m: Message, n: nat)
    requires HasInputs(m)
    ensures EntryOf(m, n).args == ImplOf(m).inputs[2..]
  {
  }

  /** An implementation keeps the handler's name, attributes, output and body. */
  lemma ImplCopies(m: Message)
    requires HasInputs(m)
    ensures ImplOf(m).ident == m.sig.ident
    ensures ImplOf(m).attrs == m.attrs
    ensures ImplOf(m).inputs == WithEnv(m.sig.decl.inputs)
    ensures ImplOf(m).output == m.sig.decl.output
    ensures ImplOf(m).block == m.block
  {
  }

  /**
   * The impl block holds the deploy handler (as `on_deploy`) followed by
   * every message in declaration order; the extra method list is empty.
   */
  lemma ImplsShape(c: Contract)
    requires HandlersHaveInputs(c)
    ensures |MethodsFragment(c).messageImpls| == 1 + |c.messages|
    ensures MethodsFragment(c).messageImpls[0] == ImplOf(IntoMessage(c.onDeploy))
    ensures MethodsFragment(c).messageImpls[0].ident == OnDeployIdent
    ensures forall k :: 0 <= k < |c.messages| ==>
      MethodsFragment(c).messageImpls[k + 1] == ImplOf(c.messages[k])
    ensures MethodsFragment(c).methodImpls == []
  {
    var hs := ImplHandlers(c);
    var impls := MethodsFragment(c).messageImpls;
    assert impls == ImplsOf(hs);
    assert |impls| == |hs| == 1 + |c.messages|;
    assert impls[0] == ImplOf(hs[0]);
    forall k | 0 <= k < |c.messages| ensures impls[k + 1] == ImplOf(c.messages[k]) {
      assert hs[k + 1] == c.messages[k];
    }
  }

  // ---------------------------------------------------------------------
  // Forwarding in the deploy handler

  lemma {:induction false} CapturedPatsAppend(a: seq<FnArg>, b: seq<FnArg>)
    ensures CapturedPats(a + b) == CapturedPats(a) + CapturedPats(b)
  {
    if |b| == 0 {
      assert a + b == a;
    } else {
      var b' := b[..|b| - 1];
      assert (a + b)[..|a + b| - 1] == a + b';
      CapturedPatsAppend(a, b');
    }
  }

  /** At most one forwarded argument per closure parameter; as many exactly when all are captured. */
  lemma {:induction false} CapturedPatsBound(args: seq<FnArg>)
    ensures |CapturedPats(args)| <= |args|
    ensures |CapturedPats(args)| == |args| <==> forall i :: 0 <= i < |args| ==> args[i].Captured?
  {
    if |args| > 0 {
      var init := args[..|args| - 1];
      CapturedPatsBound(init);
      if forall i :: 0 <= i < |args| ==> args[i].Captured? {
        assert forall i :: 0 <= i < |init| ==> init[i].Captured? by {
          forall i | 0 <= i < |init| ensures init[i].Captured? { assert init[i] == args[i]; }
        }
      } else if args[|args| - 1].Captured? {
        var i :| 0 <= i < |args| && !args[i].Captured?;
        assert init[i] == args[i];
      }
    }
  }

  /** The positions of the captured arguments, in increasing order. */
  function CapturedIndices(args: seq<FnArg>): seq<nat>
  {
    if |args| == 0 then []
    else
      CapturedIndices(args[..|args| - 1]) + (if args[|args| - 1].Captured? then [|args| - 1] else [])
  }

  /**
   * The forwarded arguments are the patterns of exactly the captured
   * parameters, in order: there is an increasing list of positions that
   * hits every captured parameter once and nothing else.
   */
  lemma {:induction false} CapturedPatsExactly(args: seq<FnArg>)
    ensures var idx, pats := CapturedIndices(args), CapturedPats(args);
      && |idx| == |pats|
      && (forall k :: 0 <= k < |idx| ==>
            idx[k] < |args| && args[idx[k]].Captured? && pats[k] == args[idx[k]].pat)
      && (forall k, l :: 0 <= k < l < |idx| ==> idx[k] < idx[l])
      && (forall i :: 0 <= i < |args| && args[i].Captured? ==> i in idx)
  {
    if |args| > 0 {
      var init := args[..|args| - 1];
      CapturedPatsExactly(init);
      var idx0 := CapturedIndices(init);
      assert forall k :: 0 <= k < |idx0| ==> idx0[k] < |init| && init[idx0[k]] == args[idx0[k]];
      forall i | 0 <= i < |args| && args[i].Captured? ensures i in CapturedIndices(args) {
        if i < |init| { assert init[i] == args[i]; }
      }
    }
  }

  /** With only captured parameters, every parameter's pattern is forwarded at its own position. */
  lemma AllCapturedForwarded(args: seq<FnArg>)
    requires forall i :: 0 <= i < |args| ==> args[i].Captured?
    ensures |CapturedPats(args)| == |args|
    ensures forall i :: 0 <= i < |args| ==> CapturedPats(args)[i] == args[i].pat
  {
  }

  /**
   * The deploy closure takes the deploy handler's inputs after the
   * receiver and forwards the patterns of the captured ones; the wiring
   * function names the state type and attaches no messages.
   */
  lemma InstantiateShape(c: Contract)
    ensures var f := InstantiateFragment(c);
      && f.stateName == c.name
      && f.onDeploy.params == WithoutReceiver(c.onDeploy.decl.inputs)
      && f.onDeploy.callArgs == CapturedPats(f.onDeploy.params)
      && |f.onDeploy.callArgs| <= |f.onDeploy.params|
      && f.messageWiring == []
  {
    CapturedPatsBound(WithoutReceiver(c.onDeploy.decl.inputs));
  }

  // ---------------------------------------------------------------------
  // A whole contract

  /**
   * A counter: state `{ value: Integer }`, a deploy handler
   * `(&mut self, start: Integer)` and one message `get(&self) -> Integer`.
   */
  lemma EndToEndExample(initBody: Block, getBody: Block)
    ensures
      var integer := Path("Integer");
      var start := Captured(PatIdent("start"), integer);
      var c := Contract(
        "Counter",
        State([], [Field("value", integer)]),
        OnDeployHandler([], FnDecl([SelfRef(true), start], DefaultReturn), initBody),
        [Message([], Signature("get", FnDecl([SelfRef(false)], Returns(integer))), getBody)]);
      && HandlersHaveInputs(c)
      && Emit(c) == [
           StateDecl([], "Counter", [Field("value", integer)]),
           MessagesDecl([RegistryEntry([], 0, "Get", [], Returns(integer))]),
           ImplBlock("Counter", [
             MethodImpl([], "on_deploy",
               [SelfRef(true), Captured(PatIdent("env"), Reference(true, EnvHandlerTy)), start],
               DefaultReturn, initBody),
             MethodImpl([], "get",
               [SelfRef(false), Captured(PatIdent("env"), Reference(false, EnvHandlerTy))],
               Returns(integer), getBody)], []),
           InstantiateFn("Counter", DeployHandler([start], [PatIdent("start")]), []),
           EntryPoints([EntryPoint("deploy", Deploy), EntryPoint("call", Dispatch)])]
  {
    CamelCase.WordThenRest("get", "", true);
    assert "get" + "" == "get";
    assert CamelCase.ToCamelCase("get") == "Get";
    var integer := Path("Integer");
    var start := Captured(PatIdent("start"), integer);
    assert [start][..0] == [];
    assert CapturedPats([start]) == [PatIdent("start")];
    var c := Contract(
      "Counter",
      State([], [Field("value", integer)]),
      OnDeployHandler([], FnDecl([SelfRef(true), start], DefaultReturn), initBody),
      [Message([], Signature("get", FnDecl([SelfRef(false)], Returns(integer))), getBody)]);
    assert EntryOf(c.messages[0], 0) == RegistryEntry([], 0, "Get", [], Returns(integer));
    assert Registry(c.messages) == [RegistryEntry([], 0, "Get", [], Returns(integer))];
    assert ImplHandlers(c)[0].sig.decl.inputs[1..] == [start];
    assert ImplsOf(ImplHandlers(c))[0].inputs
        == [SelfRef(true), Captured(PatIdent("env"), Reference(true, EnvHandlerTy)), start];
    assert ImplsOf(ImplHandlers(c))[1].inputs
        == [SelfRef(false), Captured(PatIdent("env"), Reference(false, EnvHandlerTy))];
    assert DeployHandlerOf(c.onDeploy) == DeployHandler([start], [PatIdent("start")]);
    assert ImplsOf(ImplHandlers(c)) == [
      MethodImpl([], "on_deploy",
        [SelfRef(true), Captured(PatIdent("env"), Reference(true, EnvHandlerTy)), start],
        DefaultReturn, initBody),
      MethodImpl([], "get",
        [SelfRef(false), Captured(PatIdent("env"), Reference(false, EnvHandlerTy))],
        Returns(integer), getBody)];
  }
}
