/** The credential list and its changes (apps/cliproxy-control/src/store.ts). */
module CredentialStore {
  import opened Prelude
  import opened StableSort

  datatype AuthMethod = ApiKey | OAuth | CredentialImport

  datatype Mapping = Mapping(name: string, alias: string)

  datatype PublicConfig = PublicConfig(baseUrl: Option<string>, models: seq<Mapping>)

  datatype Credential = Credential(
    ref: string,
    providerId: string,
    kind: string,
    authMethod: AuthMethod,
    apiKey: Option<string>,
    authFileName: Option<string>,
    config: PublicConfig,
    createdAt: string,
    updatedAt: string)

  /** What a caller gives for an upsert; the store adds the times, and the ref when it is missing. */
  datatype Input = Input(
    ref: Option<string>,
    providerId: string,
    kind: string,
    authMethod: AuthMethod,
    apiKey: Option<string>,
    authFileName: Option<string>,
    config: PublicConfig)

  datatype StoreError = WriteFailed | StoreInvalid

  /** Cloning drops an empty base URL. */
  function CloneConfig(config: PublicConfig): PublicConfig {
    if config.baseUrl == Some("") then config.(baseUrl := None) else config
  }

  function Clone(c: Credential): Credential {
    c.(config := CloneConfig(c.config))
  }

  /** The position of a provider id in the store's order; no two ids share one. */
  type Order = string -> int

  ghost predicate Total(order: Order) {
    forall a, b :: order(a) == order(b) ==> a == b
  }

  function ByProvider(order: Order): (Credential, Credential) -> bool {
    (a: Credential, b: Credential) => order(a.providerId) <= order(b.providerId)
  }

  function NotOf(providerId: string): Credential -> bool {
    (c: Credential) => c.providerId != providerId
  }

  function Find(list: seq<Credential>, providerId: string): (found: Option<Credential>)
    ensures found.Some? ==> found.value in list && found.value.providerId == providerId
    ensures found.None? ==> forall c :: c in list ==> c.providerId != providerId
  {
    if list == [] then None
    else if list[0].providerId == providerId then Some(list[0])
    else Find(list[1..], providerId)
  }

  /** Strictly sorted by provider, hence one credential a provider; and nothing cloning would change. */
  ghost predicate StoreOk(order: Order, list: seq<Credential>) {
    && (forall i, j :: 0 <= i < j < |list| ==> order(list[i].providerId) < order(list[j].providerId))
    && (forall c :: c in list ==> Clone(c) == c)
  }

  function Without(list: seq<Credential>, providerId: string): seq<Credential> {
    Filter(list, NotOf(providerId))
  }

  function Put(order: Order, list: seq<Credential>, c: Credential): seq<Credential> {
    Sort(Without(list, c.providerId) + [c], ByProvider(order))
  }

  /** The credential an upsert stores. */
  function Merged(list: seq<Credential>, input: Input, newRef: string, now: string): Credential {
    var existing := Find(list, input.providerId);
    Credential(
      if input.ref.Some? then input.ref.value else if existing.Some? then existing.value.ref else newRef,
      input.providerId, input.kind, input.authMethod, input.apiKey, input.authFileName, CloneConfig(input.config),
      if existing.Some? then existing.value.createdAt else now,
      now)
  }

  // ---- The list behaves as a map from providers to credentials, and keeps its order

  lemma OrderIsTotal(order: Order)
    ensures TotalPreorder(ByProvider(order))
  {
  }

  lemma WithoutMembers(list: seq<Credential>, providerId: string)
    ensures forall c :: c in Without(list, providerId) <==> c in list && c.providerId != providerId
  {
    FilterMembers(list, NotOf(providerId));
  }

  lemma PutMembers(order: Order, list: seq<Credential>, c: Credential)
    ensures forall x :: x in Put(order, list, c) <==> x == c || (x in list && x.providerId != c.providerId)
  {
    WithoutMembers(list, c.providerId);
    SortKeepsMembers(Without(list, c.providerId) + [c], ByProvider(order));
  }

  lemma {:induction false} WithoutKeepsOrder(order: Order, list: seq<Credential>, providerId: string)
    requires StoreOk(order, list)
    ensures StoreOk(order, Without(list, providerId))
  {
    if list != [] {
      WithoutKeepsOrder(order, list[1..], providerId);
      WithoutMembers(list[1..], providerId);
    }
  }

  ghost predicate Distinct(list: seq<Credential>) {
    forall i, j :: 0 <= i < j < |list| ==> list[i].providerId != list[j].providerId
  }

  lemma {:induction false} InsertKeepsDistinct(x: Credential, list: seq<Credential>, order: Order)
    requires Distinct(list) && forall c :: c in list ==> c.providerId != x.providerId
    ensures Distinct(Insert(x, list, ByProvider(order)))
  {
    if list != [] && !ByProvider(order)(x, list[0]) {
      InsertKeepsDistinct(x, list[1..], order);
      InsertIsPermutation(x, list[1..], ByProvider(order));
      var rest := Insert(x, list[1..], ByProvider(order));
      forall j | 0 <= j < |rest| ensures rest[j].providerId != list[0].providerId {
        assert rest[j] in multiset(rest);
        assert rest[j] in [x] + list[1..];
      }
    }
  }

  lemma {:induction false} SortKeepsDistinct(list: seq<Credential>, order: Order)
    requires Distinct(list)
    ensures Distinct(Sort(list, ByProvider(order)))
  {
    if list != [] {
      SortKeepsDistinct(list[1..], order);
      SortKeepsMembers(list[1..], ByProvider(order));
      InsertKeepsDistinct(list[0], Sort(list[1..], ByProvider(order)), order);
    }
  }

  lemma TailIsAbove(order: Order, list: seq<Credential>)
    requires StoreOk(order, list) && list != []
    ensures StoreOk(order, list[1..])
    ensures forall c :: c in list <==> c == list[0] || c in list[1..]
    ensures forall c :: c in list[1..] ==> order(list[0].providerId) < order(c.providerId)
  {
    assert list == [list[0]] + list[1..];
  }

  /** A sorted list whose providers are all different is strictly sorted. */
  lemma SortedIsStrict(order: Order, list: seq<Credential>, c: Credential)
    requires Total(order) && StoreOk(order, list) && Clone(c) == c
    ensures StoreOk(order, Put(order, list, c))
  {
    var rest := Without(list, c.providerId);
    var put := Put(order, list, c);
    OrderIsTotal(order);
    WithoutKeepsOrder(order, list, c.providerId);
    WithoutMembers(list, c.providerId);
    SortIsSorted(rest + [c], ByProvider(order));
    PutMembers(order, list, c);
    SortKeepsDistinct(rest + [c], order);
    forall i, j | 0 <= i < j < |put| ensures order(put[i].providerId) < order(put[j].providerId) {
      assert ByProvider(order)(put[i], put[j]);
    }
  }

  /** Two strictly sorted lists with the same members are the same list. */
  lemma {:induction false} SameMembersSameList(order: Order, s: seq<Credential>, t: seq<Credential>)
    requires StoreOk(order, s) && StoreOk(order, t)
    requires forall c :: c in s <==> c in t
    ensures s == t
  {
    assert s == [] || s[0] in s;
    assert t == [] || t[0] in t;
    if s != [] && t != [] {
      TailIsAbove(order, s);
      TailIsAbove(order, t);
      SameMembersSameList(order, s[1..], t[1..]);
    }
  }

  lemma {:induction false} FoundIsOnlyOne(order: Order, list: seq<Credential>, c: Credential)
    requires StoreOk(order, list) && c in list
    ensures Find(list, c.providerId) == Some(c)
  {
    if list[0] != c {
      assert c in list[1..];
      FoundIsOnlyOne(order, list[1..], c);
    }
  }

  /** An upsert changes what is found for its own provider and nothing else. */
  lemma PutIsMapUpdate(order: Order, list: seq<Credential>, c: Credential, id: string)
    requires Total(order) && StoreOk(order, list) && Clone(c) == c
    ensures Find(Put(order, list, c), id) == if id == c.providerId then Some(c) else Find(list, id)
  {
    var put := Put(order, list, c);
    SortedIsStrict(order, list, c);
    PutMembers(order, list, c);
    var found := Find(put, id);
    var before := Find(list, id);
    if id == c.providerId {
      FoundIsOnlyOne(order, put, c);
    } else if before.Some? {
      FoundIsOnlyOne(order, put, before.value);
    }
  }

  lemma WithoutIsMapRemoval(order: Order, list: seq<Credential>, providerId: string, id: string)
    requires StoreOk(order, list)
    ensures Find(Without(list, providerId), id) == if id == providerId then None else Find(list, id)
  {
    WithoutKeepsOrder(order, list, providerId);
    WithoutMembers(list, providerId);
    var before := Find(list, id);
    if before.Some? && id != providerId { FoundIsOnlyOne(order, Without(list, providerId), before.value); }
  }

  /** Putting back what was there before, or removing what was not, undoes a put entirely. */
  lemma RollbackUndoesPut(order: Order, list: seq<Credential>, c: Credential)
    requires Total(order) && StoreOk(order, list) && Clone(c) == c
    ensures var previous := Find(list, c.providerId); var put := Put(order, list, c);
      list == if previous.Some? then Put(order, put, previous.value) else Without(put, c.providerId)
  {
    var previous := Find(list, c.providerId);
    var put := Put(order, list, c);
    SortedIsStrict(order, list, c);
    PutMembers(order, list, c);
    if previous.Some? {
      var p := previous.value;
      SortedIsStrict(order, put, p);
      PutMembers(order, put, p);
      forall x ensures x in list <==> x in Put(order, put, p) {
        if x in list && x.providerId == p.providerId { FoundIsOnlyOne(order, list, x); }
      }
      SameMembersSameList(order, list, Put(order, put, p));
    } else {
      WithoutKeepsOrder(order, put, c.providerId);
      WithoutMembers(put, c.providerId);
      SameMembersSameList(order, list, Without(put, c.providerId));
    }
  }

  /** Restoring a deleted credential brings back the very same list. */
  lemma RestoreUndoesDelete(order: Order, list: seq<Credential>, providerId: string)
    requires Total(order) && StoreOk(order, list) && Find(list, providerId).Some?
    ensures Put(order, Without(list, providerId), Find(list, providerId).value) == list
  {
    var p := Find(list, providerId).value;
    var rest := Without(list, providerId);
    WithoutKeepsOrder(order, list, providerId);
    WithoutMembers(list, providerId);
    SortedIsStrict(order, rest, p);
    PutMembers(order, rest, p);
    forall x ensures x in list <==> x in Put(order, rest, p) {
      if x in list && x.providerId == providerId { FoundIsOnlyOne(order, list, x); }
    }
    SameMembersSameList(order, list, Put(order, rest, p));
  }
}
