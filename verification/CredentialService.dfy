/**
 The store object and the service operations that change it, with their rollbacks
 (apps/cliproxy-control/src/store.ts, apps/cliproxy-control/src/service.ts). Whether a file write or a call of
 the management API succeeds is a parameter.
 */
module CredentialService {
  import opened Prelude
  import opened CredentialStore
  import opened CredentialRepair

  class Store {
    const order: Order
    var credentials: seq<Credential>

    ghost predicate Valid()
      reads this
    {
      Total(order) && StoreOk(order, credentials)
    }

    constructor (order: Order)
      requires Total(order)
      ensures Valid() && credentials == [] && this.order == order
    {
      this.order := order;
      credentials := [];
    }

    /** Writes the file first, then takes over the new list. */
    method Replace(list: seq<Credential>, writes: bool) returns (written: bool)
      modifies this`credentials
      ensures written == writes && credentials == if writes then list else old(credentials)
    {
      if !writes { return false; }
      credentials := list;
      return true;
    }

    method Get(providerId: string) returns (found: Option<Credential>)
      requires Valid()
      ensures found == Find(credentials, providerId)
    {
      var value := Find(credentials, providerId);
      return if value.Some? then Some(Clone(value.value)) else None;
    }

    method Upsert(input: Input, newRef: string, now: string, writes: bool) returns (r: Result<Credential, StoreError>)
      requires Valid()
      modifies this`credentials
      ensures Valid()
      ensures r == if writes then Ok(Merged(old(credentials), input, newRef, now)) else Err(WriteFailed)
      ensures credentials == if writes then Put(order, old(credentials), r.value) else old(credentials)
    {
      var value := Merged(credentials, input, newRef, now);
      SortedIsStrict(order, credentials, value);
      var written := Replace(Put(order, credentials, value), writes);
      return if written then Ok(Clone(value)) else Err(WriteFailed);
    }

    method Delete(providerId: string, writes: bool) returns (r: Result<Option<Credential>, StoreError>)
      requires Valid()
      modifies this`credentials
      ensures Valid()
      ensures Find(old(credentials), providerId).None? ==> r == Ok(None) && credentials == old(credentials)
      ensures Find(old(credentials), providerId).Some? ==>
        && r == (if writes then Ok(Find(old(credentials), providerId)) else Err(WriteFailed))
        && credentials == if writes then Without(old(credentials), providerId) else old(credentials)
    {
      var existing := Find(credentials, providerId);
      if existing.None? { return Ok(None); }
      WithoutKeepsOrder(order, credentials, providerId);
      var written := Replace(Without(credentials, providerId), writes);
      return if written then Ok(Some(Clone(existing.value))) else Err(WriteFailed);
    }

    method Restore(value: Credential, writes: bool) returns (written: bool)
      requires Valid() && Clone(value) == value
      modifies this`credentials
      ensures Valid() && written == writes
      ensures credentials == if writes then Put(order, old(credentials), value) else old(credentials)
    {
      SortedIsStrict(order, credentials, value);
      written := Replace(Put(order, credentials, Clone(value)), writes);
    }

    /**
     Strips prefixes everywhere or nowhere: it takes effect exactly when every repaired credential is sound and
     the write, if one is needed, succeeds. The count is zero exactly when nothing had to change.
     */
    method RepairOAuthModelPrefixes(writes: bool) returns (r: Result<nat, StoreError>)
      requires Valid()
      modifies this`credentials
      ensures Valid()
      ensures var sound := forall c :: c in old(credentials) ==> Repaired(Stripped(c));
        && (r.Ok? <==> sound && (writes || AllStripped(old(credentials)) == old(credentials)))
        && credentials == if r.Ok? then AllStripped(old(credentials)) else old(credentials)
      ensures r.Ok? ==> (r.value == 0 <==> credentials == old(credentials))
    {
      StrippedKeepsStore(order, credentials);
      var list, repaired := RepairList(credentials);
      if list.None? { return Err(StoreInvalid); }
      if repaired > 0 {
        var written := Replace(list.value, writes);
        if !written { return Err(WriteFailed); }
      }
      return Ok(repaired);
    }
  }

  /** How reconciling with the management API and probing a credential ends. */
  datatype Probe = Healthy | Unready | Fails

  datatype ServiceError = StoreFailed | ApiFailed | Conflict

  /** The credential has no file with the management API, or it has been deleted. */
  predicate FileGone(c: Credential, fileDeleted: bool) {
    c.authMethod.ApiKey? || c.authFileName.None? || c.authFileName.value == "" || fileDeleted
  }

  class CliProxyControl {
    const store: Store
    var ready: bool

    constructor (store: Store)
      ensures this.store == store && !ready
    {
      this.store := store;
      ready := false;
    }

    /** Sets readiness from the probe; false when it throws. */
    method ReconcileAndProbe(probe: Probe) returns (ok: bool)
      modifies this`ready
      ensures ok == !probe.Fails? && ready == probe.Healthy?
    {
      ready := probe.Healthy?;
      return !probe.Fails?;
    }

    /**
     Stores a credential and probes it. A failed call leaves the whole list as it was, in order and in every
     field, whether or not the provider existed; the one exception is a rollback whose own write fails.
     */
    method PutCredential(input: Input, newRef: string, now: string, writes: bool, probe: Probe, rollbackWrites: bool)
      returns (r: Result<Credential, ServiceError>)
      requires store.Valid()
      modifies this`ready, store`credentials
      ensures store.Valid()
      ensures r.Ok? <==> writes && !probe.Fails?
      ensures r.Ok? ==>
        && r.value == Merged(old(store.credentials), input, newRef, now)
        && store.credentials == Put(store.order, old(store.credentials), r.value)
        && ready == probe.Healthy?
      ensures r.Err? ==>
        (store.credentials ==
          if writes && !rollbackWrites
          then Put(store.order, old(store.credentials), Merged(old(store.credentials), input, newRef, now))
          else old(store.credentials))
      ensures r.Err? ==> ready == if writes then false else old(ready)
    {
      ghost var before := store.credentials;
      var previous := store.Get(input.providerId);
      var value := store.Upsert(input, newRef, now, writes);
      if value.Err? { return Err(StoreFailed); }
      var ok := ReconcileAndProbe(probe);
      if ok { return Ok(value.value); }
      RollbackUndoesPut(store.order, before, value.value);
      PutIsMapUpdate(store.order, before, value.value, input.providerId);
      if previous.Some? {
        var restored := store.Restore(previous.value, rollbackWrites);
        if !restored { return Err(StoreFailed); }
      } else {
        var deleted := store.Delete(input.providerId, rollbackWrites);
        if deleted.Err? { return Err(StoreFailed); }
      }
      ready := false;
      return Err(ApiFailed);
    }

    /**
     Removes a credential. When reconciling fails the very same list is put back, unless that write fails; and
     then readiness is left as it was.
     */
    method DeleteCredential(providerId: string, fileDeleted: bool, writes: bool, reconciled: bool, rollbackWrites: bool)
      returns (r: Result<bool, ServiceError>)
      requires store.Valid()
      modifies this`ready, store`credentials
      ensures store.Valid()
      ensures var found := Find(old(store.credentials), providerId);
        && (found.None? ==> r == Ok(false) && store.credentials == old(store.credentials) && ready == old(ready))
        && (found.Some? ==>
              var removed := FileGone(found.value, fileDeleted) && writes;
              && (r == Ok(true) <==> removed && reconciled)
              && (r.Err? <==> !(removed && reconciled))
              && store.credentials == (if removed && (reconciled || !rollbackWrites)
                                       then Without(old(store.credentials), providerId)
                                       else old(store.credentials))
              && ready == (if removed && reconciled then true
                           else if removed && rollbackWrites then false
                           else old(ready)))
      ensures var found := Find(old(store.credentials), providerId); found.Some? ==>
        && (found.value.authMethod.ApiKey? && writes && reconciled ==> r == Ok(true))
        && (!found.value.authMethod.ApiKey? && found.value.authFileName.Some? && found.value.authFileName.value != ""
            && !fileDeleted ==>
              r == Err(ApiFailed) && store.credentials == old(store.credentials))
    {
      ghost var before := store.credentials;
      var current := store.Get(providerId);
      if current.Some? && !FileGone(current.value, fileDeleted) {
        return Err(ApiFailed);
      }
      var previous := store.Delete(providerId, writes);
      if previous.Err? { return Err(StoreFailed); }
      if previous.value.None? { return Ok(false); }
      if reconciled {
        ready := true;
        return Ok(true);
      }
      RestoreUndoesDelete(store.order, before, providerId);
      var restored := store.Restore(previous.value.value, rollbackWrites);
      if !restored { return Err(StoreFailed); }
      ready := false;
      return Err(ApiFailed);
    }

    /** Imports a credential for a provider that has none; a failed import leaves the list as it was. */
    method ImportCredential(input: Input, newRef: string, now: string, imported: bool, writes: bool,
            probe: Probe, rollbackWrites: bool)
      returns (r: Result<Credential, ServiceError>)
      requires store.Valid()
      modifies this`ready, store`credentials
      ensures store.Valid()
      ensures r.Ok? <==> Find(old(store.credentials), input.providerId).None? && imported && writes && !probe.Fails?
      ensures r.Ok? ==>
        && r.value == Merged(old(store.credentials), input, newRef, now)
        && store.credentials == Put(store.order, old(store.credentials), r.value)
        && ready == probe.Healthy?
      ensures r.Err? ==>
        ready == if Find(old(store.credentials), input.providerId).None? && imported then false else old(ready)
      ensures r.Err? ==>
        (store.credentials ==
          if Find(old(store.credentials), input.providerId).None? && imported && writes && !rollbackWrites
          then Put(store.order, old(store.credentials), Merged(old(store.credentials), input, newRef, now))
          else old(store.credentials))
    {
      ghost var before := store.credentials;
      var existing := store.Get(input.providerId);
      if existing.Some? { return Err(Conflict); }
      if !imported { return Err(ApiFailed); }
      var value := store.Upsert(input, newRef, now, writes);
      var ok := false;
      if value.Ok? {
        ok := ReconcileAndProbe(probe);
        RollbackUndoesPut(store.order, before, value.value);
        PutIsMapUpdate(store.order, before, value.value, input.providerId);
      }
      if ok { return Ok(value.value); }
      var deleted := store.Delete(input.providerId, rollbackWrites);
      ready := false;
      return Err(if value.Err? then StoreFailed else ApiFailed);
    }
  }
}
