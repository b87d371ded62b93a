/** The checks made before a request is converted, over possibly cyclic payloads (apps/hub/src/protocol.ts). */
module HubConversion {
  import opened Prelude
  import opened ObjectGraph

  /** The visited set, shared by all recursive calls of one search. */
  class SeenSet {
    var items: set<nat>

    constructor ()
      ensures items == {}
    {
      items := {};
    }
  }

  /** An object with the key can be reached from `v`. */
  ghost predicate Holds(g: Graph, v: Value, key: string) {
    exists n :: n in g && Reach(g, {}, v, n) && OwnsKey(g[n], key)
  }

  /** Nothing that was visited since `before` owns the key. */
  ghost predicate NoneOwns(g: Graph, before: set<nat>, after: set<nat>, key: string) {
    forall n :: n in after && n !in before && n in g ==> !OwnsKey(g[n], key)
  }

  method Search(g: Graph, v: Value, key: string, seen: SeenSet) returns (found: bool)
    requires WellFormed(g) && Inside(g, v)
    modifies seen
    ensures old(seen.items) <= seen.items
    ensures found ==> Holds(g, v, key)
    ensures !found ==> v.Ref? ==> v.id in seen.items
    ensures !found ==> Explored(g, old(seen.items), seen.items) && NoneOwns(g, old(seen.items), seen.items, key)
    decreases g.Keys - seen.items
  {
    if !v.Ref? || v.id in seen.items { return false; }
    ghost var before := seen.items;
    seen.items := seen.items + {v.id};
    var node := g[v.id];
    ReachSelf(g, {}, v.id);
    if OwnsKey(node, key) { return true; }
    var items := Children(node);
    var i := 0;
    while i < |items|
      invariant 0 <= i <= |items|
      invariant before + {v.id} <= seen.items
      invariant forall j :: 0 <= j < i && items[j].Ref? ==> items[j].id in seen.items
      invariant Explored(g, before + {v.id}, seen.items) && NoneOwns(g, before, seen.items, key)
    {
      ghost var visited := seen.items;
      assert v.id in g.Keys - before && v.id !in g.Keys - visited;
      assert Inside(g, items[i]);
      found := Search(g, items[i], key, seen);
      if found {
        ghost var n :| n in g && Reach(g, {}, items[i], n) && OwnsKey(g[n], key);
        ReachThrough(g, {}, {}, v.id, items[i], n);
        return true;
      }
      ExploredTwice(g, before + {v.id}, visited, seen.items);
      i := i + 1;
    }
    return false;
  }

  /** True exactly when some reachable object owns the key, cycles and sharing included. */
  method ContainsKey(g: Graph, v: Value, key: string) returns (found: bool)
    requires WellFormed(g) && Inside(g, v)
    ensures found <==> Holds(g, v, key)
  {
    var seen := new SeenSet();
    found := Search(g, v, key, seen);
    if !found && Holds(g, v, key) {
      ghost var n :| n in g && Reach(g, {}, v, n) && OwnsKey(g[n], key);
      assert v.Ref?;
      ReachStaysInside(g, {}, seen.items, v, n);
      assert false;
    }
  }

  datatype Format = Anthropic | OpenAi | OpenAiResponses

  datatype Refusal = CacheBreakpoint | BuiltInTool | ItemGraph

  /** The own property `key` of the object a value refers to; None for anything but an object, or when it is missing. */
  function Field(g: Graph, v: Value, key: string): Option<Value> {
    if v.Ref? && v.id in g && g[v.id].Obj? then Lookup(g[v.id].fields, key) else None
  }

  function Lookup(fields: seq<(string, Value)>, key: string): Option<Value> {
    if fields == [] then None
    else if fields[0].0 == key then Some(fields[0].1)
    else Lookup(fields[1..], key)
  }

  function Elements(g: Graph, v: Option<Value>): seq<Value> {
    if v.Some? && v.value.Ref? && v.value.id in g && g[v.value.id].Arr? then g[v.value.id].items else []
  }

  /** Every tool declares itself a function. */
  predicate FunctionToolsOnly(g: Graph, payload: Value) {
    forall tool :: tool in Elements(g, Field(g, payload, "tools")) ==> Field(g, tool, "type") == Some(Text("function"))
  }

  /** No input item has a string type other than "message". */
  predicate MessagesOnly(g: Graph, payload: Value) {
    forall item :: item in Elements(g, Field(g, payload, "input")) ==>
      var t := Field(g, item, "type"); t.Some? && t.value.Text? ==> t.value.text == "message"
  }

  const BREAKPOINT := "prompt_cache_breakpoint"

  /** The payload carries nothing that a translation from `source` to `target` would lose. */
  ghost predicate Convertible(source: Format, target: Format, g: Graph, payload: Value) {
    || source == target
    || (&& !Holds(g, payload, BREAKPOINT)
        && (source.OpenAiResponses? ==> FunctionToolsOnly(g, payload) && MessagesOnly(g, payload)))
  }

  /** The object v refers to has x as its first property named `key`. */
  ghost predicate Has(g: Graph, v: Value, key: string, x: Value) {
    && v.Ref? && v.id in g && g[v.id].Obj?
    && exists i :: 0 <= i < |g[v.id].fields| && g[v.id].fields[i] == (key, x)
                   && forall j :: 0 <= j < i ==> g[v.id].fields[j].0 != key
  }

  lemma {:induction false} LookupIsFirst(fields: seq<(string, Value)>, key: string)
    ensures var found := Lookup(fields, key);
      if found.None? then forall i :: 0 <= i < |fields| ==> fields[i].0 != key
      else exists i :: 0 <= i < |fields| && fields[i] == (key, found.value)
                       && forall j :: 0 <= j < i ==> fields[j].0 != key
  {
    if fields != [] && fields[0].0 != key {
      var rest := fields[1..];
      LookupIsFirst(rest, key);
      if i :| 0 <= i < |rest| && rest[i].0 == key && forall j :: 0 <= j < i ==> rest[j].0 != key {
        assert fields[i + 1] == rest[i] && forall j :: 0 <= j < i + 1 ==> fields[j].0 != key;
      }
    }
  }

  lemma FieldIsHas(g: Graph, v: Value, key: string, x: Value)
    ensures Field(g, v, key) == Some(x) <==> Has(g, v, key, x)
  {
    if v.Ref? && v.id in g && g[v.id].Obj? { LookupIsFirst(g[v.id].fields, key); }
  }

  /** `item` is an element of the array that the object v refers to has under `key`. */
  ghost predicate Lists(g: Graph, v: Value, key: string, item: Value) {
    exists list: nat :: Has(g, v, key, Ref(list)) && list in g && g[list].Arr? && item in g[list].items
  }

  lemma ElementsAreListed(g: Graph, v: Value, key: string, item: Value)
    ensures item in Elements(g, Field(g, v, key)) <==> Lists(g, v, key, item)
  {
    forall x ensures Field(g, v, key) == Some(x) <==> Has(g, v, key, x) { FieldIsHas(g, v, key, x); }
  }

  /**
   What keeps a request of the responses format from another format, read off the payload itself: a reachable
   breakpoint, a tool that is not declared as a function, or an input item of a type other than a message.
   */
  lemma ResponsesRefusedExactlyWhen(g: Graph, payload: Value, target: Format)
    requires target != OpenAiResponses
    ensures !Convertible(OpenAiResponses, target, g, payload) <==>
      || (exists n :: n in g && Reach(g, {}, payload, n) && OwnsKey(g[n], "prompt_cache_breakpoint"))
      || (exists tool :: Lists(g, payload, "tools", tool) && !Has(g, tool, "type", Text("function")))
      || (exists item, t :: Lists(g, payload, "input", item) && Has(g, item, "type", Text(t)) && t != "message")
  {
    forall tool ensures Lists(g, payload, "tools", tool) <==> tool in Elements(g, Field(g, payload, "tools"))
      ensures Has(g, tool, "type", Text("function")) <==> Field(g, tool, "type") == Some(Text("function"))
    {
      ElementsAreListed(g, payload, "tools", tool);
      FieldIsHas(g, tool, "type", Text("function"));
    }
    forall item, t ensures Lists(g, payload, "input", item) <==> item in Elements(g, Field(g, payload, "input"))
      ensures Has(g, item, "type", Text(t)) <==> Field(g, item, "type") == Some(Text(t))
    {
      ElementsAreListed(g, payload, "input", item);
      FieldIsHas(g, item, "type", Text(t));
    }
  }

  /**
   The check before every translation: a payload passes between different formats exactly when no reachable
   object carries a cache breakpoint and, leaving the responses format, it has function tools and messages only.
   */
  method AssertConvertible(source: Format, target: Format, g: Graph, payload: Value) returns (refusal: Option<Refusal>)
    requires WellFormed(g) && Inside(g, payload)
    ensures refusal.None? <==> Convertible(source, target, g, payload)
    ensures refusal == Some(CacheBreakpoint) <==> source != target && Holds(g, payload, BREAKPOINT)
    ensures refusal == Some(BuiltInTool) <==>
      source.OpenAiResponses? && source != target && !Holds(g, payload, BREAKPOINT) && !FunctionToolsOnly(g, payload)
  {
    if source != target {
      var found := ContainsKey(g, payload, BREAKPOINT);
      if found { return Some(CacheBreakpoint); }
    }
    if source != OpenAiResponses || target == OpenAiResponses { return None; }
    if !FunctionToolsOnly(g, payload) { return Some(BuiltInTool); }
    if !MessagesOnly(g, payload) { return Some(ItemGraph); }
    return None;
  }

  /**
   `translateHubRequest` up to the library call, which copes with the payload or not. Equal formats pass the
   payload on untouched and never fail.
   */
  method TranslateHubRequest(source: Format, target: Format, g: Graph, payload: Value, libraryCopes: bool)
    returns (ok: bool)
    requires WellFormed(g) && Inside(g, payload)
    ensures ok <==> source == target || (Convertible(source, target, g, payload) && libraryCopes)
  {
    if source == target { return true; }
    var refusal := AssertConvertible(source, target, g, payload);
    return refusal.None? && libraryCopes;
  }
}
