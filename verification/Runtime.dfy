/**
 * What the runtime lets an engine do during a cross-program call. Every engine but the modelled
 * constant-product one is adversarial: it writes what it likes through the accounts it was lent,
 * calls other programs with them, and leaves whatever return data it likes.
 */
module Runtime {
  import opened Base
  import opened Bindings
  import opened Keys
  import opened Ledger
  import opened Errors
  import opened Capabilities
  import opened PlanEngine

  /** A call that an adversarial engine makes into the constant-product engine. */
  datatype NestedCall =
    | NestedPhase(call: PhaseCall, around: Surroundings)
    | NestedSetMode(state: Key, authority: Key, mode: byte)

  /** An engine's whole behaviour in one call; `around` is what the constant-product engine meets. */
  datatype EngineOutcome = EngineOutcome(
    fails: bool, writes: Store, nested: seq<NestedCall>, returned: Option<ReturnData>, around: Surroundings)

  predicate FreshToken(w: Store, a: Account) {
    && a.owner == TOKEN_PROGRAM && a.data.TokenData?
    && a.data.token.amount == 0 && a.data.token.delegate == None && a.data.token.delegatedAmount == 0
    && IsMint(w, a.data.token.mint)
  }

  /** A state as initialized, but for the probe mode its authority may have set since. */
  predicate FreshEngineState(a: Account) {
    a.owner == PLAN_ENGINE && a.data.EngineData? && InitialState(a.data.state.(mode := MODE_ACCEPT))
  }

  /**
   * A write another program may cause: executables and states of the constant-product engine are out
   * of reach, an account appears only at an address somebody can sign for, and an account newly
   * assigned to a program holds only what that program would have initialized it to.
   */
  predicate LegalWrite(w: Store, k: Key, a: Account) {
    && !Executable(w, k) && !a.executable && OwnerOf(w, k) != PLAN_ENGINE && (k in w || k.Plain?)
    && (a.owner == CORE ==> OwnerOf(w, k) == CORE || a.data.OpaqueData?)
    && (a.owner == TOKEN_PROGRAM ==> OwnerOf(w, k) == TOKEN_PROGRAM || a.data.OpaqueData? || FreshToken(w, a))
    && (a.owner == PLAN_ENGINE ==> a.data.OpaqueData? || FreshEngineState(a))
  }

  predicate LegalWrites(w: Store, metas: seq<AccountMeta>, writes: Store) {
    forall k :: k in writes ==> WritableIn(metas, k) && LegalWrite(w, k, writes[k])
  }

  /** A signature a program can add for itself, or one it was lent. */
  predicate MaySign(metas: seq<AccountMeta>, k: Key) {
    k.Plain? || SignerIn(metas, k)
  }

  /** No nested account gains a privilege over the caller's. */
  predicate Delegable(metas: seq<AccountMeta>, nested: seq<AccountMeta>) {
    forall i :: 0 <= i < |nested| ==>
      && (nested[i].isWritable ==> WritableIn(metas, nested[i].key))
      && (nested[i].isSigner ==> MaySign(metas, nested[i].key))
  }

  function NestedEffect(w: Store, metas: seq<AccountMeta>, n: NestedCall): Result<Store, EngineError> {
    match n
    case NestedPhase(call, around) =>
      if !Delegable(metas, CallMetas(call)) then Err(Refused) else
      var done :- Evaluated(w, call, around);
      Ok(done.store)
    case NestedSetMode(state, authority, mode) =>
      if !WritableIn(metas, state) || !MaySign(metas, authority) then Err(Refused)
      else ModeSet(w, state, authority, mode)
  }

  function RunNested(w: Store, metas: seq<AccountMeta>, nested: seq<NestedCall>): Result<Store, EngineError>
    decreases |nested|
  {
    hide Evaluated;
    if nested == [] then Ok(w) else
    var w' :- NestedEffect(w, metas, nested[0]);
    RunNested(w', metas, nested[1..])
  }

  /** One engine CPI: the modelled engine's evaluator, or anything legal at all. */
  function InvokeEngine(w: Store, program: Key, call: PhaseCall, outcome: EngineOutcome)
    : Result<PhaseResult, EngineError>
  {
    if program == PLAN_ENGINE then Evaluated(w, call, outcome.around)
    else if outcome.fails || !LegalWrites(w, CallMetas(call), outcome.writes) then Err(Refused)
    else
      var w' :- RunNested(w + outcome.writes, CallMetas(call), outcome.nested);
      Ok(PhaseResult(w', outcome.returned))
  }

  /** An engine is free within that: any content it likes in any account it was lent, and any return data at all. */
  lemma EngineUnrestrained(w: Store, program: Key, call: PhaseCall, k: Key, owner: Key, data: Data,
                           returned: Option<ReturnData>, around: Surroundings)
    requires program != PLAN_ENGINE && WritableIn(CallMetas(call), k) && k in w && !w[k].executable
    requires w[k].owner != PLAN_ENGINE && owner !in {CORE, TOKEN_PROGRAM, PLAN_ENGINE}
    ensures InvokeEngine(w, program, call,
                         EngineOutcome(false, map[k := Account(owner, false, data)], [], returned, around))
            == Result.Ok(PhaseResult(w[k := Account(owner, false, data)], returned))
  {
    var writes := map[k := Account(owner, false, data)];
    assert w + writes == w[k := Account(owner, false, data)];
    assert RunNested(w + writes, CallMetas(call), []) == Result.Ok(w + writes);
  }

  // ---- Frames ----

  /** The account changed in nothing but the engine's probe mode. */
  predicate OnlyModeChanged(w: Store, w': Store, k: Key) {
    && IsPlanState(w, k) && IsPlanState(w', k)
    && w'[k] == PlanEntry(PlanStateAt(w, k).(mode := PlanStateAt(w', k).mode))
    && !w[k].executable
  }

  /** What may have become of one account across an engine call on `state`. */
  predicate Reached(w: Store, w': Store, program: Key, state: Key, k: Key) {
    || SameAt(w, w', k)
    || (k in w' && LegalWrite(w, k, w'[k]))
    || (program != PLAN_ENGINE && OnlyModeChanged(w, w', k))
    || (program == PLAN_ENGINE && k == state && IsPlanState(w, k) && IsPlanState(w', k) && !w'[k].executable)
  }

  /** The callback signer is the only signer of a call, and it belongs to `program`. */
  ghost predicate SignedBy(program: Key, call: PhaseCall) {
    && call.callback.key.CallbackPda? && call.callback.key.engineProgram == program
    && forall k :: SignerIn(CallMetas(call), k) ==> k == call.callback.key
  }

  /** No engine can drive the constant-product engine under another engine's callback. */
  lemma ForeignPhaseFails(w: Store, metas: seq<AccountMeta>, call: PhaseCall, around: Surroundings)
    requires forall k :: SignerIn(metas, k) ==> !k.CallbackPda? || k.engineProgram != PLAN_ENGINE
    ensures NestedEffect(w, metas, NestedPhase(call, around)).Err?
  {
    hide Authenticated, PricedOutput, AfterHelper;
    if Delegable(metas, CallMetas(call)) && Evaluated(w, call, around).Ok? {
      AuthenticatedCall(w, call);
    }
  }

  lemma {:induction false} NestedReach(w: Store, metas: seq<AccountMeta>, nested: seq<NestedCall>)
    requires forall k :: SignerIn(metas, k) ==> !k.CallbackPda? || k.engineProgram != PLAN_ENGINE
    requires RunNested(w, metas, nested).Ok?
    requires forall k :: IsPlanState(w, k) ==> !w[k].executable
    ensures var w' := RunNested(w, metas, nested).value;
            forall k :: SameAt(w, w', k) || (WritableIn(metas, k) && OnlyModeChanged(w, w', k))
  {
    hide Evaluated, Delegable;
    if nested != [] {
      if nested[0].NestedPhase? {
        ForeignPhaseFails(w, metas, nested[0].call, nested[0].around);
      }
      var mid := NestedEffect(w, metas, nested[0]).value;
      NestedReach(mid, metas, nested[1..]);
      var w' := RunNested(mid, metas, nested[1..]).value;
      forall k ensures SameAt(w, w', k) || (WritableIn(metas, k) && OnlyModeChanged(w, w', k)) {
        assert SameAt(mid, w', k) || (WritableIn(metas, k) && OnlyModeChanged(mid, w', k));
      }
    }
  }

  /** Whatever the engine, a call reaches only the accounts it was lent writable, and those only lawfully. */
  lemma EngineReach(w: Store, program: Key, call: PhaseCall, outcome: EngineOutcome)
    requires InvokeEngine(w, program, call, outcome).Ok? && SignedBy(program, call)
    requires forall k :: IsPlanState(w, k) ==> !w[k].executable
    ensures var w' := InvokeEngine(w, program, call, outcome).value.store;
            forall k ::
              SameAt(w, w', k) || (WritableIn(CallMetas(call), k) && Reached(w, w', program, call.state.key, k))
  {
    hide Evaluated, RunNested;
    var metas := CallMetas(call);
    var w' := InvokeEngine(w, program, call, outcome).value.store;
    if program == PLAN_ENGINE {
      PlanReach(w, call, outcome.around);
    } else {
      var mid := w + outcome.writes;
      forall k | IsPlanState(mid, k) ensures !mid[k].executable {
      }
      NestedReach(mid, metas, outcome.nested);
      forall k ensures SameAt(w, w', k) || (WritableIn(metas, k) && Reached(w, w', program, call.state.key, k)) {
        assert SameAt(mid, w', k) || (WritableIn(metas, k) && OnlyModeChanged(mid, w', k));
        if k !in outcome.writes {
          assert SameAt(w, mid, k);
        } else {
          assert LegalWrite(w, k, mid[k]);
        }
      }
    }
  }

  lemma PlanReach(w: Store, call: PhaseCall, around: Surroundings)
    requires Evaluated(w, call, around).Ok?
    ensures var w' := Evaluated(w, call, around).value.store;
            forall k ::
              SameAt(w, w', k) || (WritableIn(CallMetas(call), k) && Reached(w, w', PLAN_ENGINE, call.state.key, k))
  {
    hide Authenticated, PricedOutput, AfterHelper, Emitted;
    AuthenticatedCall(w, call);
    if call.entry != PHASE_PREPARE {
      HelperEffect(w, CallMetas(call), call.request.binding, around.helper);
    }
  }

  lemma SameStore(w: Store, w': Store)
    requires forall k :: SameAt(w, w', k)
    ensures w == w'
  {
    forall k ensures (k in w <==> k in w') && (k in w ==> w[k] == w'[k]) {
      assert SameAt(w, w', k);
    }
    assert w.Keys == w'.Keys;
  }

  /** A call that lends nothing writable changes nothing, whatever the engine. */
  lemma ReadOnlyCall(w: Store, program: Key, call: PhaseCall, outcome: EngineOutcome)
    requires InvokeEngine(w, program, call, outcome).Ok? && SignedBy(program, call)
    requires forall k :: IsPlanState(w, k) ==> !w[k].executable
    requires forall k :: !WritableIn(CallMetas(call), k)
    ensures InvokeEngine(w, program, call, outcome).value.store == w
  {
    hide InvokeEngine, Reached;
    EngineReach(w, program, call, outcome);
    var w' := InvokeEngine(w, program, call, outcome).value.store;
    SameStore(w, w');
  }
}
