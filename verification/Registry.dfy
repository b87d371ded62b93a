/** The registry of application operations (packages/application-operations/src/registry.ts). */
module Registry {
  import opened Prelude
  import opened ObjectGraph
  import opened DeepFreeze

  /** The identities of a descriptor that passed validation. */
  datatype Descriptor = Descriptor(id: string, inventoryId: string, inputSchema: string, outputSchema: string)

  /** A value offered for registration; `descriptor` is None when its validation throws. */
  datatype Offer = Offer(value: Value, descriptor: Option<Descriptor>)

  datatype Problem = InvalidDescriptor | DuplicateId | DuplicateInventory | DuplicateSchema

  function Of(offer: Offer): Descriptor {
    if offer.descriptor.Some? then offer.descriptor.value else Descriptor("", "", "", "")
  }

  predicate Apart(a: Descriptor, b: Descriptor) {
    && a.id != b.id && a.inventoryId != b.inventoryId
    && a.inputSchema != b.inputSchema && a.inputSchema != b.outputSchema
    && a.outputSchema != b.inputSchema && a.outputSchema != b.outputSchema
  }

  /** Offer k is valid and clashes with no earlier offer. */
  ghost predicate Registrable(offers: seq<Offer>, k: nat)
    requires k < |offers|
  {
    && offers[k].descriptor.Some?
    && Of(offers[k]).inputSchema != Of(offers[k]).outputSchema
    && forall i {:trigger Apart(Of(offers[i]), Of(offers[k]))} :: 0 <= i < k ==> Apart(Of(offers[i]), Of(offers[k]))
  }

  ghost predicate AllRegistrable(offers: seq<Offer>, n: nat)
    requires n <= |offers|
  {
    forall k :: 0 <= k < n ==> Registrable(offers, k)
  }

  /** Some offer among the first n leads to `target` without passing through `avoid`. */
  ghost predicate ReachedByFirst(g: Graph, avoid: set<nat>, offers: seq<Offer>, n: nat, target: nat)
    requires n <= |offers|
  {
    exists k :: 0 <= k < n && Reach(g, avoid, offers[k].value, target)
  }

  class ApplicationOperationRegistry {
    const operations: seq<Value>
    const byId: map<string, Value>

    constructor (operations: seq<Value>, byId: map<string, Value>)
      ensures this.operations == operations && this.byId == byId
    {
      this.operations := operations;
      this.byId := byId;
    }

    /** The lookup table holds exactly the offers, each under its own id. */
    ghost predicate Registers(offers: seq<Offer>) {
      && |operations| == |offers|
      && AllRegistrable(offers, |offers|)
      && (forall k :: 0 <= k < |offers| ==> operations[k] == offers[k].value)
      && Indexed(byId, offers, |offers|)
    }

    function Get(id: string): Option<Value> {
      if id in byId then Some(byId[id]) else None
    }

    /** Finds the one operation with this id, and fails only when there is none. */
    method Require(id: string, ghost offers: seq<Offer>) returns (r: Result<Value, string>)
      requires Registers(offers)
      ensures r.Ok? <==> exists k :: 0 <= k < |offers| && Of(offers[k]).id == id
      ensures forall k :: 0 <= k < |offers| && Of(offers[k]).id == id ==> r == Ok(operations[k])
    {
      var operation := Get(id);
      if operation.None? { return Err(id); }
      return Ok(operation.value);
    }
  }

  ghost predicate Indexed(byId: map<string, Value>, offers: seq<Offer>, n: nat)
    requires n <= |offers|
  {
    && byId.Keys == Ids(offers[..n])
    && forall k :: 0 <= k < n ==> Of(offers[k]).id in byId && byId[Of(offers[k]).id] == offers[k].value
  }

  ghost function Ids(offers: seq<Offer>): set<string> {
    set o | o in offers :: Of(o).id
  }

  ghost function InventoryIds(offers: seq<Offer>): set<string> {
    set o | o in offers :: Of(o).inventoryId
  }

  ghost function SchemaIds(offers: seq<Offer>): set<string> {
    (set o | o in offers :: Of(o).inputSchema) + (set o | o in offers :: Of(o).outputSchema)
  }

  lemma OneMoreOffer(offers: seq<Offer>, n: nat)
    requires n < |offers|
    ensures Ids(offers[..n + 1]) == Ids(offers[..n]) + {Of(offers[n]).id}
    ensures InventoryIds(offers[..n + 1]) == InventoryIds(offers[..n]) + {Of(offers[n]).inventoryId}
    ensures SchemaIds(offers[..n + 1])
      == SchemaIds(offers[..n]) + {Of(offers[n]).inputSchema, Of(offers[n]).outputSchema}
  {
    assert offers[..n + 1] == offers[..n] + [offers[n]];
  }

  /** The checks of one offer, made against the identities collected so far. */
  method CheckOffer(offer: Offer, byId: map<string, Value>, inventoryIds: set<string>, schemaIds: set<string>)
    returns (problem: Option<Problem>)
    ensures problem.None? <==> offer.descriptor.Some? && Unused(Of(offer), byId.Keys, inventoryIds, schemaIds)
    ensures problem == Some(InvalidDescriptor) <==> offer.descriptor.None?
    ensures problem == Some(DuplicateId) <==> offer.descriptor.Some? && Of(offer).id in byId
    ensures problem == Some(DuplicateInventory) <==>
      offer.descriptor.Some? && Of(offer).id !in byId && Of(offer).inventoryId in inventoryIds
  {
    if offer.descriptor.None? { return Some(InvalidDescriptor); }
    var d := offer.descriptor.value;
    if d.id in byId { return Some(DuplicateId); }
    if d.inventoryId in inventoryIds { return Some(DuplicateInventory); }
    var seen := schemaIds;
    if d.inputSchema in seen { return Some(DuplicateSchema); }
    seen := seen + {d.inputSchema};
    if d.outputSchema in seen { return Some(DuplicateSchema); }
    return None;
  }

  ghost predicate Unused(d: Descriptor, ids: set<string>, inventoryIds: set<string>, schemaIds: set<string>) {
    && d.id !in ids && d.inventoryId !in inventoryIds
    && d.inputSchema !in schemaIds && d.outputSchema !in schemaIds && d.inputSchema != d.outputSchema
  }

  lemma UnusedIsRegistrable(offers: seq<Offer>, k: nat)
    requires k < |offers| && offers[k].descriptor.Some?
    ensures Registrable(offers, k) <==>
      Unused(Of(offers[k]), Ids(offers[..k]), InventoryIds(offers[..k]), SchemaIds(offers[..k]))
  {
    var d := Of(offers[k]);
    var prior := offers[..k];
    if Unused(d, Ids(prior), InventoryIds(prior), SchemaIds(prior)) {
      forall i | 0 <= i < k ensures Apart(Of(offers[i]), d) {
        assert prior[i] in prior;
      }
    }
    if Registrable(offers, k) {
      forall o | o in prior ensures Apart(Of(o), d) {
        var i :| 0 <= i < k && prior[i] == o;
        assert Apart(Of(offers[i]), Of(offers[k]));
      }
    }
  }

  /** The schema ids of the offers in a row: each offer's input schema and then its output schema. */
  function SchemaAt(offers: seq<Offer>, i: nat): string
    requires i < 2 * |offers|
  {
    if i % 2 == 0 then Of(offers[i / 2]).inputSchema else Of(offers[i / 2]).outputSchema
  }

  /** No operation id, inventory id or schema id occurs twice. */
  ghost predicate NoneTwice(offers: seq<Offer>) {
    && (forall i, j :: 0 <= i < j < |offers| ==> Of(offers[i]).id != Of(offers[j]).id)
    && (forall i, j :: 0 <= i < j < |offers| ==> Of(offers[i]).inventoryId != Of(offers[j]).inventoryId)
    && (forall i, j :: 0 <= i < j < 2 * |offers| ==> SchemaAt(offers, i) != SchemaAt(offers, j))
  }

  /** Offers can be registered together exactly when all are valid and no id of any kind occurs twice. */
  lemma RegistrableExactlyWhen(offers: seq<Offer>)
    ensures AllRegistrable(offers, |offers|) <==> NoneTwice(offers) && forall o :: o in offers ==> o.descriptor.Some?
  {
    if AllRegistrable(offers, |offers|) {
      forall i, j | 0 <= i < j < |offers| ensures Apart(Of(offers[i]), Of(offers[j])) {
        assert Registrable(offers, j);
      }
      forall i, j | 0 <= i < j < 2 * |offers| ensures SchemaAt(offers, i) != SchemaAt(offers, j) {
        assert Registrable(offers, j / 2);
        if i / 2 < j / 2 { assert Apart(Of(offers[i / 2]), Of(offers[j / 2])); }
      }
      forall o | o in offers ensures o.descriptor.Some? {
        var k :| 0 <= k < |offers| && offers[k] == o;
        assert Registrable(offers, k);
      }
    }
    if NoneTwice(offers) && forall o :: o in offers ==> o.descriptor.Some? {
      forall k | 0 <= k < |offers| ensures Registrable(offers, k) {
        assert SchemaAt(offers, 2 * k) != SchemaAt(offers, 2 * k + 1);
        forall i | 0 <= i < k ensures Apart(Of(offers[i]), Of(offers[k])) { NoneTwiceIsApart(offers, i, k); }
      }
    }
  }

  lemma NoneTwiceIsApart(offers: seq<Offer>, i: nat, k: nat)
    requires NoneTwice(offers) && i < k < |offers|
    ensures Apart(Of(offers[i]), Of(offers[k]))
  {
    assert SchemaAt(offers, 2 * i) != SchemaAt(offers, 2 * k);
    assert SchemaAt(offers, 2 * i) != SchemaAt(offers, 2 * k + 1);
    assert SchemaAt(offers, 2 * i + 1) != SchemaAt(offers, 2 * k);
    assert SchemaAt(offers, 2 * i + 1) != SchemaAt(offers, 2 * k + 1);
  }

  lemma OthersKeepTheirEntry(byId: map<string, Value>, offers: seq<Offer>, n: nat)
    requires n < |offers| && Indexed(byId, offers, n) && Registrable(offers, n)
    ensures Indexed(byId[Of(offers[n]).id := offers[n].value], offers, n + 1)
  {
    OneMoreOffer(offers, n);
    forall k | 0 <= k < n ensures Of(offers[k]).id != Of(offers[n]).id {
      assert Apart(Of(offers[k]), Of(offers[n]));
    }
  }

  lemma FreezeMore(g: Graph, before: set<nat>, marked: set<nat>, after: set<nat>, offers: seq<Offer>, n: nat)
    requires n < |offers| && Explored(g, before, marked)
    requires forall t :: t in marked <==> t in before || ReachedByFirst(g, before, offers, n, t)
    requires forall t :: t in after <==> t in marked || Reach(g, marked, offers[n].value, t)
    requires Explored(g, marked, after) && (offers[n].value.Ref? ==> offers[n].value.id in after)
    ensures Explored(g, before, after)
    ensures forall t :: t in after <==> t in before || ReachedByFirst(g, before, offers, n + 1, t)
  {
    ExploredTwice(g, before, marked, after);
    forall t ensures t in after <==> t in before || ReachedByFirst(g, before, offers, n + 1, t) {
      if t in marked && t !in before {
        var k :| 0 <= k < n && Reach(g, before, offers[k].value, t);
      } else if t in after && t !in before {
        var p :| Leads(g, marked, p, offers[n].value, t);
        assert Leads(g, before, p, offers[n].value, t);
      } else if t !in before && ReachedByFirst(g, before, offers, n + 1, t) {
        var k :| 0 <= k < n + 1 && Reach(g, before, offers[k].value, t);
        if k < n {
          assert ReachedByFirst(g, before, offers, n, t);
        } else {
          ReachStaysInside(g, before, after, offers[n].value, t);
        }
      }
    }
  }

  /**
   Builds the registry. It succeeds exactly when every offer is valid and no identity clashes; otherwise it stops at
   the first offending offer. The operations accepted up to that point, and all they reach, are frozen; nothing else is.
   */
  method CreateRegistry(heap: Heap, offers: seq<Offer>)
    returns (r: Result<ApplicationOperationRegistry, Problem>, accepted: nat)
    requires WellFormed(heap.graph)
    requires forall k :: 0 <= k < |offers| ==> Inside(heap.graph, offers[k].value)
    modifies heap`frozen
    ensures accepted <= |offers| && AllRegistrable(offers, accepted)
    ensures r.Ok? ==> accepted == |offers| && r.value.Registers(offers)
    ensures r.Err? ==> accepted < |offers| && !Registrable(offers, accepted)
    ensures r.Err? ==>
      && (r.error == InvalidDescriptor <==> offers[accepted].descriptor.None?)
      && (r.error == DuplicateId ==> Of(offers[accepted]).id in Ids(offers[..accepted]))
      && (r.error == DuplicateInventory ==> Of(offers[accepted]).inventoryId in InventoryIds(offers[..accepted]))
    ensures forall t :: t in heap.frozen <==>
      t in old(heap.frozen) || ReachedByFirst(heap.graph, old(heap.frozen), offers, accepted, t)
  {
    ghost var before := heap.frozen;
    var operations: seq<Value> := [];
    var byId: map<string, Value> := map[];
    var inventoryIds: set<string> := {};
    var schemaIds: set<string> := {};
    assert offers[..0] == [];
    accepted := 0;
    while accepted < |offers|
      invariant 0 <= accepted <= |offers| && AllRegistrable(offers, accepted)
      invariant |operations| == accepted && forall k :: 0 <= k < accepted ==> operations[k] == offers[k].value
      invariant Indexed(byId, offers, accepted)
      invariant inventoryIds == InventoryIds(offers[..accepted]) && schemaIds == SchemaIds(offers[..accepted])
      invariant Explored(heap.graph, before, heap.frozen)
      invariant forall t :: t in heap.frozen <==> t in before || ReachedByFirst(heap.graph, before, offers, accepted, t)
    {
      var problem := CheckOffer(offers[accepted], byId, inventoryIds, schemaIds);
      if offers[accepted].descriptor.Some? {
        UnusedIsRegistrable(offers, accepted);
      }
      if problem.Some? { return Err(problem.value), accepted; }
      var d := offers[accepted].descriptor.value;
      ghost var marked := heap.frozen;
      heap.DeepFreeze(offers[accepted].value);
      FreezeMore(heap.graph, before, marked, heap.frozen, offers, accepted);
      OneMoreOffer(offers, accepted);
      OthersKeepTheirEntry(byId, offers, accepted);
      operations := operations + [offers[accepted].value];
      byId := byId[d.id := offers[accepted].value];
      inventoryIds := inventoryIds + {d.inventoryId};
      schemaIds := schemaIds + {d.inputSchema, d.outputSchema};
      accepted := accepted + 1;
    }
    var registry := new ApplicationOperationRegistry(operations, byId);
    return Ok(registry), accepted;
  }
}
