/** Repair of stored model names that still carry their provider as a prefix (apps/cliproxy-control/src/store.ts). */
module CredentialRepair {
  import opened Prelude
  import opened CredentialStore

  predicate StartsWith(s: string, prefix: string) {
    |prefix| <= |s| && s[..|prefix|] == prefix
  }

  function Strip(s: string, prefix: string): string {
    if StartsWith(s, prefix) then s[|prefix|..] else s
  }

  function StripModel(m: Mapping, prefix: string): Mapping {
    Mapping(Strip(m.name, prefix), Strip(m.alias, prefix))
  }

  /** Exactly the prefix goes, once, and only from a name that begins with it. */
  lemma StripTakesThePrefixOff(s: string, prefix: string)
    ensures Strip(prefix + s, prefix) == s
    ensures (forall rest :: s != prefix + rest) ==> Strip(s, prefix) == s
  {
    assert (prefix + s)[..|prefix|] == prefix && (prefix + s)[|prefix|..] == s;
    if StartsWith(s, prefix) { assert s == prefix + s[|prefix|..]; }
  }

  predicate Clean(m: Mapping) {
    m.name != "" && m.alias != "" && '/' !in m.name && '/' !in m.alias
  }

  function Stripped(c: Credential): Credential {
    if c.authMethod.ApiKey? then c
    else c.(config := c.config.(models := seq(|c.config.models|, i requires 0 <= i < |c.config.models| =>
                                                StripModel(c.config.models[i], c.providerId + "/"))))
  }

  /** Every model of a file-based credential is named without a slash, and no two share an alias. */
  predicate Repaired(c: Credential) {
    !c.authMethod.ApiKey? ==>
      && (forall i :: 0 <= i < |c.config.models| ==> Clean(c.config.models[i]))
      && (forall i, j :: 0 <= i < j < |c.config.models| ==> c.config.models[i].alias != c.config.models[j].alias)
  }

  lemma PrefixBringsSlash(s: string, providerId: string)
    ensures StartsWith(s, providerId + "/") ==> '/' in s
  {
    if StartsWith(s, providerId + "/") { assert s[|providerId|] == '/'; }
  }

  lemma CleanIsStripped(m: Mapping, providerId: string)
    requires Clean(m)
    ensures StripModel(m, providerId + "/") == m
  {
    PrefixBringsSlash(m.name, providerId);
    PrefixBringsSlash(m.alias, providerId);
  }

  /** A repaired credential is left alone by the next repair. */
  lemma RepairedIsStable(c: Credential)
    requires Repaired(c)
    ensures Stripped(c) == c
  {
    if !c.authMethod.ApiKey? {
      forall i | 0 <= i < |c.config.models|
        ensures StripModel(c.config.models[i], c.providerId + "/") == c.config.models[i]
      {
        CleanIsStripped(c.config.models[i], c.providerId);
      }
      assert Stripped(c).config.models == c.config.models;
    }
  }

  /** The loop has dealt with the models before i: all are clean, and no alias occurs twice. */
  ghost predicate StrippedSoFar(from: seq<Mapping>, target: seq<Mapping>, i: nat, models: seq<Mapping>,
          aliases: set<string>, changed: nat)
  {
    && i <= |from| == |target| && models == target[..i]
    && (forall a :: a in aliases <==> exists j :: 0 <= j < i && target[j].alias == a)
    && (forall j :: 0 <= j < i ==> Clean(target[j]))
    && (forall j, k :: 0 <= j < k < i ==> target[j].alias != target[k].alias)
    && (changed == 0 <==> forall j :: 0 <= j < i ==> target[j] == from[j])
  }

  lemma StripOneMore(from: seq<Mapping>, target: seq<Mapping>, i: nat, models: seq<Mapping>, aliases: set<string>,
          changed: nat)
    requires StrippedSoFar(from, target, i, models, aliases, changed) && i < |from|
    requires Clean(target[i]) && target[i].alias !in aliases
    ensures StrippedSoFar(from, target, i + 1, models + [target[i]], aliases + {target[i].alias},
                          if target[i] != from[i] then changed + 1 else changed)
  {
    forall a ensures a in aliases + {target[i].alias} <==> exists j :: 0 <= j < i + 1 && target[j].alias == a {
      if a in aliases {
        var j :| 0 <= j < i && target[j].alias == a;
        assert 0 <= j < i + 1 && target[j].alias == a;
      }
    }
  }

  method StripModels(c: Credential) returns (r: Option<seq<Mapping>>, changed: nat)
    requires !c.authMethod.ApiKey?
    ensures r.Some? <==> Repaired(Stripped(c))
    ensures r.Some? ==> r.value == Stripped(c).config.models && (changed == 0 <==> Stripped(c) == c)
  {
    ghost var target := Stripped(c).config.models;
    var prefix := c.providerId + "/";
    var aliases: set<string> := {};
    var models: seq<Mapping> := [];
    changed := 0;
    for i := 0 to |c.config.models|
      invariant StrippedSoFar(c.config.models, target, i, models, aliases, changed)
    {
      ghost var before := changed;
      var model := c.config.models[i];
      var stripped := Mapping(Strip(model.name, prefix), Strip(model.alias, prefix));
      assert target[i] == stripped;
      if stripped != model { changed := changed + 1; }
      if !Clean(stripped) || stripped.alias in aliases {
        assert !Repaired(Stripped(c));
        return None, changed;
      }
      StripOneMore(c.config.models, target, i, models, aliases, before);
      aliases := aliases + {stripped.alias};
      models := models + [stripped];
    }
    assert models == target;
    assert changed == 0 <==> target == c.config.models;
    return Some(models), changed;
  }

  function AllStripped(list: seq<Credential>): seq<Credential> {
    seq(|list|, i requires 0 <= i < |list| => Stripped(list[i]))
  }

  lemma StrippedKeepsStore(order: Order, list: seq<Credential>)
    requires StoreOk(order, list)
    ensures StoreOk(order, AllStripped(list))
  {
    var t := AllStripped(list);
    forall c | c in t ensures Clone(c) == c {
      var i :| 0 <= i < |t| && t[i] == c;
      assert Clone(list[i]) == list[i];
    }
  }

  /** Strips a whole list, or rejects it when a stripped credential is unsound. */
  method RepairList(list: seq<Credential>) returns (r: Option<seq<Credential>>, repaired: nat)
    ensures r.Some? <==> forall c :: c in list ==> Repaired(Stripped(c))
    ensures r.Some? ==> r.value == AllStripped(list) && (repaired == 0 <==> r.value == list)
  {
    var done: seq<Credential> := [];
    repaired := 0;
    for i := 0 to |list|
      invariant |done| == i && forall j :: 0 <= j < i ==> done[j] == Stripped(list[j])
      invariant forall j :: 0 <= j < i ==> Repaired(Stripped(list[j]))
      invariant repaired == 0 <==> forall j :: 0 <= j < i ==> done[j] == list[j]
    {
      var c := list[i];
      if c.authMethod.ApiKey? {
        done := done + [c];
      } else {
        var models, changed := StripModels(c);
        if models.None? { return None, repaired; }
        repaired := repaired + changed;
        done := done + [c.(config := c.config.(models := models.value))];
      }
    }
    assert done == AllStripped(list);
    return Some(done), repaired;
  }

  /** A list that has been repaired needs no further repair. */
  lemma RepairIsIdempotent(list: seq<Credential>)
    requires forall c :: c in list ==> Repaired(Stripped(c))
    ensures AllStripped(AllStripped(list)) == AllStripped(list)
    ensures forall c :: c in AllStripped(list) ==> Repaired(Stripped(c))
  {
    forall c | c in AllStripped(list) ensures Stripped(c) == c && Repaired(c) {
      var i :| 0 <= i < |list| && AllStripped(list)[i] == c;
      assert list[i] in list;
      RepairedIsStable(c);
    }
    forall i | 0 <= i < |list| ensures Stripped(AllStripped(list)[i]) == AllStripped(list)[i] {
      assert AllStripped(list)[i] in AllStripped(list);
    }
  }
}
