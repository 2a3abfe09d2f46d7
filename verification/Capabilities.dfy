/**
 * Effective privileges over account lists with duplicate keys, as the settlement program, the
 * router and the engine each compute them: the three must agree or honest executions would fail.
 */
module Capabilities {
  import opened Base
  import opened Bindings
  import opened Keys
  import opened Ledger
  import opened Errors

  datatype AccountMeta = AccountMeta(key: Key, isSigner: bool, isWritable: bool)

  datatype AccountInfo = AccountInfo(key: Key, isSigner: bool, isWritable: bool, owner: Key, executable: bool)

  predicate SignerIn(metas: seq<AccountMeta>, k: Key) {
    exists i :: 0 <= i < |metas| && metas[i].key == k && metas[i].isSigner
  }

  predicate WritableIn(metas: seq<AccountMeta>, k: Key) {
    exists i :: 0 <= i < |metas| && metas[i].key == k && metas[i].isWritable
  }

  function InfoOf(w: Store, m: AccountMeta): AccountInfo {
    AccountInfo(m.key, m.isSigner, m.isWritable, OwnerOf(w, m.key), Executable(w, m.key))
  }

  /** The infos of an account list, each position keeping its own flags. */
  function Loaded(w: Store, metas: seq<AccountMeta>): (infos: seq<AccountInfo>)
    ensures |infos| == |metas| && forall i :: 0 <= i < |metas| ==> infos[i] == InfoOf(w, metas[i])
  {
    seq(|metas|, i requires 0 <= i < |metas| => InfoOf(w, metas[i]))
  }

  // ---- Duplicate roles ----

  predicate NoDuplicates(keys: seq<Key>) {
    forall i, j :: 0 <= i < j < |keys| ==> keys[i] != keys[j]
  }

  method EnsureDistinctRoles(keys: seq<Key>) returns (r: Result<(), CoreError>)
    ensures r == if NoDuplicates(keys) then Ok(()) else Err(DuplicateAccountRole)
  {
    for index := 0 to |keys|
      invariant forall i, j :: 0 <= i < index && i < j < |keys| ==> keys[i] != keys[j]
    {
      for later := index + 1 to |keys|
        invariant forall j :: index < j < later ==> keys[index] != keys[j]
      {
        if keys[later] == keys[index] {
          return Err(DuplicateAccountRole);
        }
      }
    }
    return Ok(());
  }

  // ---- The closure as the settlement program validates it ----

  predicate AnySigner(infos: seq<AccountInfo>, k: Key) {
    exists i :: 0 <= i < |infos| && infos[i].key == k && infos[i].isSigner
  }

  predicate AnyWritable(infos: seq<AccountInfo>, k: Key) {
    exists i :: 0 <= i < |infos| && infos[i].key == k && infos[i].isWritable
  }

  /** One position's verdict, with privileges united over every position of the same key. */
  function OpaqueVerdict(infos: seq<AccountInfo>, fixedKeys: seq<Key>, i: nat): Result<Descriptor, CoreError>
    requires i < |infos|
  {
    var a := infos[i];
    var writable := AnyWritable(infos, a.key);
    if AnySigner(infos, a.key) then Err(OpaqueSignerForbidden)
    else if a.key in fixedKeys then Err(OpaqueFixedRoleAlias)
    else if a.owner == CORE then Err(OpaqueCoreOwnedAccount)
    else if a.executable && writable then Err(OpaqueExecutableWritable)
    else if writable && (a.owner == TOKEN_PROGRAM || a.owner == TOKEN_2022_PROGRAM) then
      Err(OpaqueProtectedTokenAccountWritable)
    else Ok(CapabilityDescriptor(a.key, a.owner, writable, false, a.executable))
  }

  /** The first `n` verdicts: the first failure, or all the descriptors. */
  function OpaqueScan(infos: seq<AccountInfo>, fixedKeys: seq<Key>, n: nat): Result<seq<Descriptor>, CoreError>
    requires n <= |infos|
  {
    if n == 0 then Ok([]) else
    var before :- OpaqueScan(infos, fixedKeys, n - 1);
    var d :- OpaqueVerdict(infos, fixedKeys, n - 1);
    Ok(before + [d])
  }

  function OpaqueDescriptors(infos: seq<AccountInfo>, fixedKeys: seq<Key>): Result<seq<Descriptor>, CoreError> {
    if |infos| > MAX_OPAQUE_ACCOUNTS then Err(TooManyOpaqueAccounts)
    else OpaqueScan(infos, fixedKeys, |infos|)
  }

  method ValidateOpaqueCapabilities(infos: seq<AccountInfo>, fixedKeys: seq<Key>)
    returns (r: Result<seq<Descriptor>, CoreError>)
    ensures r == OpaqueDescriptors(infos, fixedKeys)
  {
    if |infos| > MAX_OPAQUE_ACCOUNTS {
      return Err(TooManyOpaqueAccounts);
    }
    var descriptors: seq<Descriptor> := [];
    for index := 0 to |infos|
      invariant OpaqueScan(infos, fixedKeys, index) == Ok(descriptors)
    {
      var account := infos[index];
      var signer, writable := false, false;
      for other := 0 to |infos|
        invariant signer <==> exists i :: 0 <= i < other && infos[i].key == account.key && infos[i].isSigner
        invariant writable <==> exists i :: 0 <= i < other && infos[i].key == account.key && infos[i].isWritable
      {
        if infos[other].key == account.key {
          signer := signer || infos[other].isSigner;
          writable := writable || infos[other].isWritable;
        }
      }
      ScanStops(infos, fixedKeys, index);
      :- Need(!signer, OpaqueSignerForbidden);
      :- Need(account.key !in fixedKeys, OpaqueFixedRoleAlias);
      :- Need(account.owner != CORE, OpaqueCoreOwnedAccount);
      :- Need(!(account.executable && writable), OpaqueExecutableWritable);
      :- Need(!(writable && (account.owner == TOKEN_PROGRAM || account.owner == TOKEN_2022_PROGRAM)),
              OpaqueProtectedTokenAccountWritable);
      descriptors := descriptors
          + [CapabilityDescriptor(account.key, account.owner, writable, signer, account.executable)];
    }
    return Ok(descriptors);
  }

  /** A failing verdict is the verdict of the whole list. */
  lemma ScanStops(infos: seq<AccountInfo>, fixedKeys: seq<Key>, i: nat)
    requires i < |infos| && OpaqueScan(infos, fixedKeys, i).Ok?
    ensures OpaqueVerdict(infos, fixedKeys, i).Err? ==>
              OpaqueScan(infos, fixedKeys, |infos|) == Err(OpaqueVerdict(infos, fixedKeys, i).error)
  {
    if OpaqueVerdict(infos, fixedKeys, i).Err? {
      for n := i + 1 to |infos|
        invariant OpaqueScan(infos, fixedKeys, n) == Err(OpaqueVerdict(infos, fixedKeys, i).error)
      {
      }
    }
  }

  lemma {:induction false} ScanAccepts(infos: seq<AccountInfo>, fixedKeys: seq<Key>, n: nat)
    requires n <= |infos|
    ensures OpaqueScan(infos, fixedKeys, n).Ok? <==> forall i :: 0 <= i < n ==> OpaqueVerdict(infos, fixedKeys, i).Ok?
    ensures OpaqueScan(infos, fixedKeys, n).Ok? ==>
              && |OpaqueScan(infos, fixedKeys, n).value| == n
              && forall i :: 0 <= i < n ==>
                  OpaqueScan(infos, fixedKeys, n).value[i] == OpaqueVerdict(infos, fixedKeys, i).value
  {
    if n > 0 {
      ScanAccepts(infos, fixedKeys, n - 1);
    }
  }

  /** What an accepted list guarantees about every writable position. */
  lemma AcceptedClosure(w: Store, closure: seq<AccountMeta>, fixedKeys: seq<Key>)
    requires OpaqueDescriptors(Loaded(w, closure), fixedKeys).Ok?
    ensures |closure| <= MAX_OPAQUE_ACCOUNTS
    ensures var ds := OpaqueDescriptors(Loaded(w, closure), fixedKeys).value;
            && |ds| == |closure|
            && forall i :: 0 <= i < |ds| ==>
                 && ds[i].key == closure[i].key && ds[i].key !in fixedKeys
                 && ds[i].owner == OwnerOf(w, ds[i].key) && ds[i].owner != CORE
                 && ds[i].isExecutable == Executable(w, ds[i].key) && !ds[i].isSigner
                 && ds[i].isWritable == WritableIn(closure, ds[i].key)
                 && (ds[i].isWritable ==>
                       ds[i].owner != TOKEN_PROGRAM && ds[i].owner != TOKEN_2022_PROGRAM && !ds[i].isExecutable)
    ensures forall i :: 0 <= i < |closure| ==> !closure[i].isSigner
  {
    var infos := Loaded(w, closure);
    ScanAccepts(infos, fixedKeys, |infos|);
    forall k ensures AnyWritable(infos, k) == WritableIn(closure, k) && AnySigner(infos, k) == SignerIn(closure, k) {
      LoadedFlags(w, closure, k);
    }
    forall i | 0 <= i < |closure| ensures !closure[i].isSigner {
      assert OpaqueVerdict(infos, fixedKeys, i).Ok?;
      assert !AnySigner(infos, infos[i].key);
    }
    forall i | 0 <= i < |closure| ensures OpaqueVerdict(infos, fixedKeys, i).Ok? && infos[i] == InfoOf(w, closure[i]) {
    }
  }

  lemma LoadedFlags(w: Store, metas: seq<AccountMeta>, k: Key)
    ensures AnyWritable(Loaded(w, metas), k) == WritableIn(metas, k)
    ensures AnySigner(Loaded(w, metas), k) == SignerIn(metas, k)
  {
    var infos := Loaded(w, metas);
    assert forall i :: 0 <= i < |metas| ==> infos[i].key == metas[i].key && infos[i].isWritable == metas[i].isWritable;
    if i :| 0 <= i < |metas| && metas[i].key == k && metas[i].isWritable {
      assert infos[i].key == k && infos[i].isWritable;
    }
    if i :| 0 <= i < |metas| && metas[i].key == k && metas[i].isSigner {
      assert infos[i].key == k && infos[i].isSigner;
    }
  }

  // ---- The phase's descriptors and the CPI that carries them ----

  function ReadOnly(d: Descriptor): Descriptor {
    d.(isWritable := false, isSigner := false)
  }

  /** `capability_descriptors`: the engine state, then the closure list with the phase's privileges. */
  function PhaseDescriptors(state: Key, stateOwner: Key, closure: seq<Descriptor>,
                            authorized: bool): (ds: seq<Descriptor>)
    ensures |ds| == 1 + |closure|
  {
    [CapabilityDescriptor(state, stateOwner, authorized, false, false)]
    + seq(|closure|, i requires 0 <= i < |closure| => if authorized then closure[i] else ReadOnly(closure[i]))
  }

  method CapabilityDescriptors(state: Key, stateOwner: Key, closure: seq<Descriptor>, authorized: bool)
    returns (ds: seq<Descriptor>)
    ensures ds == PhaseDescriptors(state, stateOwner, closure, authorized)
  {
    ds := [CapabilityDescriptor(state, stateOwner, authorized, false, false)];
    for index := 0 to |closure|
      invariant ds == PhaseDescriptors(state, stateOwner, closure, authorized)[..1 + index]
    {
      var normalized := closure[index];
      if !authorized {
        normalized := normalized.(isWritable := false, isSigner := false);
      }
      ds := ds + [normalized];
    }
  }

  /** The metas of the engine CPI: state, signing callback, then the closure positions. */
  function PhaseMetas(state: Key, callback: Key, closure: seq<Descriptor>,
                      stateWritable: bool): (metas: seq<AccountMeta>)
    ensures |metas| == 2 + |closure|
  {
    [AccountMeta(state, false, stateWritable), AccountMeta(callback, true, false)]
    + seq(|closure|, i requires 0 <= i < |closure| => AccountMeta(closure[i].key, false, closure[i].isWritable))
  }

  predicate Provides(info: AccountInfo, d: Descriptor) {
    && info.key == d.key && info.owner == d.owner && info.executable == d.isExecutable
    && (d.isWritable ==> info.isWritable) && (d.isSigner ==> info.isSigner)
  }

  predicate Provided(infos: seq<AccountInfo>, d: Descriptor) {
    exists i :: 0 <= i < |infos| && Provides(infos[i], d)
  }

  /** Provision, exactly: one supplied account has the descriptor's key, owner and executability, and its privileges. */
  lemma ProvidedExactly(infos: seq<AccountInfo>, d: Descriptor)
    ensures Provided(infos, d) <==>
              exists i ::
                && 0 <= i < |infos| && infos[i].key == d.key && infos[i].owner == d.owner
                && infos[i].executable == d.isExecutable
                && (d.isWritable ==> infos[i].isWritable) && (d.isSigner ==> infos[i].isSigner)
  {
    if i :| 0 <= i < |infos| && Provides(infos[i], d) {
      assert infos[i].key == d.key;
    }
    if i :|
      && 0 <= i < |infos| && infos[i].key == d.key && infos[i].owner == d.owner
      && infos[i].executable == d.isExecutable
      && (d.isWritable ==> infos[i].isWritable) && (d.isSigner ==> infos[i].isSigner)
    {
      assert Provides(infos[i], d);
    }
  }

  /** The account-list half of `invoke_engine_phase`. */
  method BuildPhaseMetas(state: Key, callback: Key, infos: seq<AccountInfo>, closure: seq<Descriptor>,
                         stateWritable: bool)
    returns (r: Result<seq<AccountMeta>, CoreError>)
    ensures r == if |closure| != |infos| then Err(InvalidWireEncoding)
                 else if exists i :: 0 <= i < |closure| && !Provided(infos, closure[i]) then
                   Err(OpaqueNormalizedPrivilegeUnavailable)
                 else Ok(PhaseMetas(state, callback, closure, stateWritable))
    ensures r.Ok? ==>
              && |r.value| == 2 + |closure|
              && r.value[0] == AccountMeta(state, false, stateWritable)
              && r.value[1] == AccountMeta(callback, true, false)
              && forall i :: 0 <= i < |closure| ==>
                   r.value[2 + i] == AccountMeta(closure[i].key, false, closure[i].isWritable)
  {
    if |closure| != |infos| {
      return Err(InvalidWireEncoding);
    }
    var metas := [AccountMeta(state, false, stateWritable)];
    metas := metas + [AccountMeta(callback, true, false)];
    for index := 0 to |closure|
      invariant metas == PhaseMetas(state, callback, closure, stateWritable)[..2 + index]
    {
      metas := metas + [AccountMeta(closure[index].key, false, closure[index].isWritable)];
    }
    assert metas == PhaseMetas(state, callback, closure, stateWritable);
    for index := 0 to |closure|
      invariant forall i :: 0 <= i < index ==> Provided(infos, closure[i])
    {
      var found := false;
      for candidate := 0 to |infos|
        invariant found <==> exists j :: 0 <= j < candidate && Provides(infos[j], closure[index])
      {
        if Provides(infos[candidate], closure[index]) {
          found := true;
        }
      }
      assert found <==> Provided(infos, closure[index]);
      if !found {
        return Err(OpaqueNormalizedPrivilegeUnavailable);
      }
    }
    return Ok(metas);
  }

  /** What a callee observes: at every position, the union of its key's privileges over the whole list. */
  function Presented(w: Store, metas: seq<AccountMeta>): (infos: seq<AccountInfo>)
    ensures |infos| == |metas|
  {
    seq(|metas|, i requires 0 <= i < |metas| =>
      InfoOf(w, AccountMeta(metas[i].key, SignerIn(metas, metas[i].key), WritableIn(metas, metas[i].key))))
  }

  /** The engine's recomputation: state first, callback skipped, then every closure position. */
  function ObservedDescriptors(infos: seq<AccountInfo>): seq<Descriptor>
    requires |infos| >= 2
  {
    [Observed(infos[0])] + seq(|infos| - 2, i requires 0 <= i < |infos| - 2 => Observed(infos[2 + i]))
  }

  function Observed(a: AccountInfo): Descriptor {
    CapabilityDescriptor(a.key, a.owner, a.isWritable, a.isSigner, a.executable)
  }

  /**
   * Whatever list the settlement program accepts, duplicates included: a provider is found for every
   * descriptor of every phase, and the engine rebuilds exactly the phase's descriptor list.
   */
  lemma CapabilityAgreement(w: Store, closure: seq<AccountMeta>, fixedKeys: seq<Key>, state: Key, callback: Key,
                            authorized: bool)
    requires OpaqueDescriptors(Loaded(w, closure), fixedKeys).Ok?
    requires state in fixedKeys && callback in fixedKeys && state != callback && !Executable(w, state)
    ensures var ds := PhaseDescriptors(state, OwnerOf(w, state),
                                       OpaqueDescriptors(Loaded(w, closure), fixedKeys).value, authorized);
            && ObservedDescriptors(Presented(w, PhaseMetas(state, callback, ds[1..], authorized))) == ds
            && forall i :: 1 <= i < |ds| ==> Provided(Loaded(w, closure), ds[i])
  {
    AcceptedClosure(w, closure, fixedKeys);
    var accepted := OpaqueDescriptors(Loaded(w, closure), fixedKeys).value;
    var ds := PhaseDescriptors(state, OwnerOf(w, state), accepted, authorized);
    hide OpaqueDescriptors;
    forall i | 1 <= i < |ds|
      ensures ds[i] == if authorized then accepted[i - 1] else ReadOnly(accepted[i - 1])
      ensures Provided(Loaded(w, closure), ds[i])
    {
      ProviderExists(w, closure, fixedKeys, i - 1);
    }
    ObservedIsIssued(w, ds, state, callback, authorized);
  }

  /** A descriptor list that agrees on equal keys survives the runtime's union over duplicates. */
  lemma ObservedIsIssued(w: Store, ds: seq<Descriptor>, state: Key, callback: Key, authorized: bool)
    requires |ds| >= 1 && state != callback && !Executable(w, state)
    requires ds[0] == CapabilityDescriptor(state, OwnerOf(w, state), authorized, false, false)
    requires forall i :: 1 <= i < |ds| ==>
               && ds[i].key != state && ds[i].key != callback && !ds[i].isSigner
               && ds[i].owner == OwnerOf(w, ds[i].key) && ds[i].isExecutable == Executable(w, ds[i].key)
    requires forall i, j :: 1 <= i < |ds| && 1 <= j < |ds| && ds[i].key == ds[j].key ==>
              ds[i].isWritable == ds[j].isWritable
    ensures ObservedDescriptors(Presented(w, PhaseMetas(state, callback, ds[1..], authorized))) == ds
  {
    var metas := PhaseMetas(state, callback, ds[1..], authorized);
    assert forall i :: 2 <= i < |metas| ==> metas[i] == AccountMeta(ds[i - 1].key, false, ds[i - 1].isWritable);
    var infos := Presented(w, metas);
    forall i | 0 <= i < |metas| && i != 1
      ensures !SignerIn(metas, metas[i].key) && WritableIn(metas, metas[i].key) == metas[i].isWritable
    {
      forall j | 0 <= j < |metas| && metas[j].key == metas[i].key
        ensures !metas[j].isSigner && metas[j].isWritable == metas[i].isWritable
      {
        if i == 0 {
          assert j == 0;
        } else {
          assert j >= 2;
        }
      }
    }
    assert Observed(infos[0]) == ds[0];
    forall i | 2 <= i < |metas| ensures Observed(infos[i]) == ds[i - 1] {
    }
    assert ObservedDescriptors(infos) == ds;
  }

  lemma ProviderExists(w: Store, closure: seq<AccountMeta>, fixedKeys: seq<Key>, i: nat)
    requires OpaqueDescriptors(Loaded(w, closure), fixedKeys).Ok? && i < |closure|
    ensures |OpaqueDescriptors(Loaded(w, closure), fixedKeys).value| == |closure|
    ensures Provided(Loaded(w, closure), OpaqueDescriptors(Loaded(w, closure), fixedKeys).value[i])
    ensures Provided(Loaded(w, closure), ReadOnly(OpaqueDescriptors(Loaded(w, closure), fixedKeys).value[i]))
  {
    AcceptedClosure(w, closure, fixedKeys);
    var d := OpaqueDescriptors(Loaded(w, closure), fixedKeys).value[i];
    var j := i;
    if d.isWritable {
      j :| 0 <= j < |closure| && closure[j].key == d.key && closure[j].isWritable;
    }
    var info := Loaded(w, closure)[j];
    assert Provides(info, d) && Provides(info, ReadOnly(d));
  }

  // ---- The router ----

  /** `normalized_meta`: the fold of one key's flags over the whole list. */
  function FoldedFlags(metas: seq<AccountMeta>, k: Key): (bool, bool) {
    if metas == [] then (false, false) else
    var (writable, signer) := FoldedFlags(metas[..|metas| - 1], k);
    var candidate := metas[|metas| - 1];
    if candidate.key == k then (writable || candidate.isWritable, signer || candidate.isSigner) else (writable, signer)
  }

  /** `normalized_metas`. */
  function NormalizedMetas(metas: seq<AccountMeta>): (normalized: seq<AccountMeta>)
    ensures |normalized| == |metas|
  {
    seq(|metas|, i requires 0 <= i < |metas| =>
      var (writable, signer) := FoldedFlags(metas, metas[i].key); AccountMeta(metas[i].key, signer, writable))
  }

  lemma {:induction false} FoldIsUnion(metas: seq<AccountMeta>, k: Key)
    ensures FoldedFlags(metas, k) == (WritableIn(metas, k), SignerIn(metas, k))
  {
    if metas != [] {
      var n := |metas| - 1;
      var init := metas[..n];
      FoldIsUnion(init, k);
      assert forall i :: 0 <= i < n ==> init[i] == metas[i];
      assert WritableIn(init, k) ==> WritableIn(metas, k);
      assert SignerIn(init, k) ==> SignerIn(metas, k);
      if WritableIn(metas, k) && !(metas[n].key == k && metas[n].isWritable) {
        var i :| 0 <= i < |metas| && metas[i].key == k && metas[i].isWritable;
        assert init[i].key == k && init[i].isWritable;
      }
      if SignerIn(metas, k) && !(metas[n].key == k && metas[n].isSigner) {
        var i :| 0 <= i < |metas| && metas[i].key == k && metas[i].isSigner;
        assert init[i].key == k && init[i].isSigner;
      }
    }
  }

  lemma NormalizedAt(metas: seq<AccountMeta>, i: nat)
    requires i < |metas|
    ensures NormalizedMetas(metas)[i]
         == AccountMeta(metas[i].key, SignerIn(metas, metas[i].key), WritableIn(metas, metas[i].key))
  {
    FoldIsUnion(metas, metas[i].key);
  }

  /** Normalizing grants no key a privilege that none of its positions had, and loses none. */
  lemma NormalizedFlags(metas: seq<AccountMeta>, k: Key)
    ensures WritableIn(NormalizedMetas(metas), k) == WritableIn(metas, k)
    ensures SignerIn(NormalizedMetas(metas), k) == SignerIn(metas, k)
  {
    var normalized := NormalizedMetas(metas);
    forall i | 0 <= i < |metas|
      ensures normalized[i] == AccountMeta(metas[i].key, SignerIn(metas, metas[i].key), WritableIn(metas, metas[i].key))
    {
      NormalizedAt(metas, i);
    }
    if i :| 0 <= i < |metas| && metas[i].key == k && metas[i].isWritable {
      assert normalized[i].key == k && normalized[i].isWritable;
    }
    if i :| 0 <= i < |metas| && metas[i].key == k && metas[i].isSigner {
      assert normalized[i].key == k && normalized[i].isSigner;
    }
  }

  /** The router's normalization is a fixpoint. */
  lemma NormalizingTwice(metas: seq<AccountMeta>)
    ensures NormalizedMetas(NormalizedMetas(metas)) == NormalizedMetas(metas)
  {
    var once := NormalizedMetas(metas);
    forall i | 0 <= i < |metas| ensures NormalizedMetas(once)[i] == once[i] {
      NormalizedAt(metas, i);
      NormalizedAt(once, i);
      NormalizedFlags(metas, metas[i].key);
    }
  }

  /**
   * Over an envelope of distinct keys that the closure does not alias, the router's fold over the
   * whole account list leaves the envelope alone and is the closure's own normalization.
   */
  lemma NormalizingRestricts(envelope: seq<AccountMeta>, closure: seq<AccountMeta>)
    requires forall i, j :: 0 <= i < j < |envelope| ==> envelope[i].key != envelope[j].key
    requires forall i, j :: 0 <= i < |envelope| && 0 <= j < |closure| ==> envelope[i].key != closure[j].key
    ensures NormalizedMetas(envelope + closure) == envelope + NormalizedMetas(closure)
  {
    var all := envelope + closure;
    forall i | 0 <= i < |all| ensures NormalizedMetas(all)[i] == (envelope + NormalizedMetas(closure))[i] {
      NormalizedAt(all, i);
      var k := all[i].key;
      if i < |envelope| {
        assert forall j :: 0 <= j < |all| && all[j].key == k ==> j == i;
      } else {
        NormalizedAt(closure, i - |envelope|);
        assert all[i] == closure[i - |envelope|];
        UnionRestricts(envelope, closure, k);
      }
    }
  }

  lemma UnionRestricts(envelope: seq<AccountMeta>, closure: seq<AccountMeta>, k: Key)
    requires forall i :: 0 <= i < |envelope| ==> envelope[i].key != k
    ensures WritableIn(envelope + closure, k) == WritableIn(closure, k)
    ensures SignerIn(envelope + closure, k) == SignerIn(closure, k)
  {
    var all, n := envelope + closure, |envelope|;
    if i :| 0 <= i < |closure| && closure[i].key == k && closure[i].isWritable {
      assert all[n + i].key == k && all[n + i].isWritable;
    }
    if i :| 0 <= i < |closure| && closure[i].key == k && closure[i].isSigner {
      assert all[n + i].key == k && all[n + i].isSigner;
    }
    if i :| 0 <= i < |all| && all[i].key == k && all[i].isWritable {
      assert closure[i - n].key == k && closure[i - n].isWritable;
    }
    if i :| 0 <= i < |all| && all[i].key == k && all[i].isSigner {
      assert closure[i - n].key == k && closure[i - n].isSigner;
    }
  }

  /** The settlement program's verdict on a closure, error or descriptors, is blind to the router's normalization. */
  lemma {:induction false} RoutedClosureSame(w: Store, closure: seq<AccountMeta>, fixedKeys: seq<Key>)
    ensures OpaqueDescriptors(Loaded(w, NormalizedMetas(closure)), fixedKeys)
         == OpaqueDescriptors(Loaded(w, closure), fixedKeys)
  {
    RoutedScanSame(w, closure, fixedKeys, |closure|);
  }

  lemma {:induction false} RoutedScanSame(w: Store, closure: seq<AccountMeta>, fixedKeys: seq<Key>, n: nat)
    requires n <= |closure|
    ensures OpaqueScan(Loaded(w, NormalizedMetas(closure)), fixedKeys, n)
         == OpaqueScan(Loaded(w, closure), fixedKeys, n)
  {
    if n > 0 {
      RoutedScanSame(w, closure, fixedKeys, n - 1);
      var routed, direct := Loaded(w, NormalizedMetas(closure)), Loaded(w, closure);
      var k := closure[n - 1].key;
      NormalizedAt(closure, n - 1);
      LoadedFlags(w, NormalizedMetas(closure), k);
      LoadedFlags(w, closure, k);
      NormalizedFlags(closure, k);
      assert OpaqueVerdict(routed, fixedKeys, n - 1) == OpaqueVerdict(direct, fixedKeys, n - 1);
    }
  }
}
