/** What is found for a provider after any upserts and deletes, said in terms of those calls alone. */
module CredentialHistory {
  import opened Prelude
  import opened CredentialStore

  datatype Op = Upsert(input: Input, newRef: string, now: string) | Delete(providerId: string)

  function Step(order: Order, list: seq<Credential>, op: Op): seq<Credential> {
    match op
    case Upsert(input, newRef, now) => Put(order, list, Merged(list, input, newRef, now))
    case Delete(id) => Without(list, id)
  }

  function Run(order: Order, ops: seq<Op>): seq<Credential>
    decreases |ops|
  {
    if ops == [] then [] else Step(order, Run(order, ops[..|ops| - 1]), ops[|ops| - 1])
  }

  /** The upserts for the provider since it was last deleted. */
  function Upserts(ops: seq<Op>, id: string): (us: seq<Op>)
    ensures forall u :: u in us ==> u.Upsert? && u.input.providerId == id
    decreases |ops|
  {
    if ops == [] then []
    else
      var before, op := Upserts(ops[..|ops| - 1], id), ops[|ops| - 1];
      match op
      case Upsert(input, _, _) => if input.providerId == id then before + [op] else before
      case Delete(deleted) => if deleted == id then [] else before
  }

  /** The last ref that was given, or else the one drawn by the first upsert. */
  function RefOf(us: seq<Op>): string
    requires us != [] && forall u :: u in us ==> u.Upsert?
    decreases |us|
  {
    var n := |us| - 1;
    if us[n].input.ref.Some? then us[n].input.ref.value else if n == 0 then us[0].newRef else RefOf(us[..n])
  }

  /**
   The credential these upserts leave behind: created with the first of them, and in everything else as the last one
   says; an empty base URL is dropped.
   */
  ghost predicate LeftBy(us: seq<Op>, c: Credential)
    requires us != [] && forall u :: u in us ==> u.Upsert?
  {
    var last := us[|us| - 1];
    && c.ref == RefOf(us) && c.createdAt == us[0].now && c.updatedAt == last.now
    && c.providerId == last.input.providerId && c.kind == last.input.kind && c.authMethod == last.input.authMethod
    && c.apiKey == last.input.apiKey && c.authFileName == last.input.authFileName
    && c.config.models == last.input.config.models
    && c.config.baseUrl == if last.input.config.baseUrl == Some("") then None else last.input.config.baseUrl
  }

  lemma {:induction false} RunKeepsStore(order: Order, ops: seq<Op>)
    requires Total(order)
    ensures StoreOk(order, Run(order, ops))
    decreases |ops|
  {
    if ops != [] {
      var before := ops[..|ops| - 1];
      RunKeepsStore(order, before);
      match ops[|ops| - 1]
      case Upsert(input, newRef, now) =>
        SortedIsStrict(order, Run(order, before), Merged(Run(order, before), input, newRef, now));
      case Delete(id) => WithoutKeepsOrder(order, Run(order, before), id);
    }
  }

  /**
   After any calls, a provider has a credential exactly when it has been upserted since it was last deleted, and
   then the one that those upserts leave behind, whatever has been done to other providers.
   */
  lemma {:induction false} FoundIsLeftByUpserts(order: Order, ops: seq<Op>, id: string)
    requires Total(order)
    ensures var found := Find(Run(order, ops), id); var us := Upserts(ops, id);
      if us == [] then found.None? else found.Some? && LeftBy(us, found.value)
    decreases |ops|
  {
    if ops != [] {
      var n := |ops| - 1;
      var before, list := ops[..n], Run(order, ops[..n]);
      RunKeepsStore(order, before);
      FoundIsLeftByUpserts(order, before, id);
      match ops[n]
      case Upsert(input, newRef, now) =>
        PutIsMapUpdate(order, list, Merged(list, input, newRef, now), id);
        var us := Upserts(before, id);
        assert (us + [ops[n]])[..|us|] == us;
      case Delete(deleted) => WithoutIsMapRemoval(order, list, deleted, id);
    }
  }
}
