// The Redis-backed per-lead state store: one hash per lead, field -> JSON
// value. The lite store keys hashes `s:<token>`; the assistant store keys
// them `<prefix>:<tenant>:<assistant>:<token>`.

module ChatState {
  import opened PyValues
  import opened Records
  import opened PyStrings

  type Hashes = map<string, map<string, Json>>

  /** The hash stored under `key`; a missing key reads as empty. */
  function Fields(hashes: Hashes, key: string): map<string, Json>
  {
    if key in hashes then hashes[key] else map[]
  }

  /** `HSET key field value`. */
  function HSet(hashes: Hashes, key: string, field: string, value: Json): (r: Hashes)
    ensures forall k :: k != key ==> Fields(r, k) == Fields(hashes, k)
    ensures Fields(r, key) == Fields(hashes, key)[field := value]
  {
    hashes[key := Fields(hashes, key)[field := value]]
  }

  /** The hashes after writing the fields in `done` of `store` into `key`. */
  function Written(hashes: Hashes, key: string, store: StateMap, done: set<string>): Hashes
    requires done <= store.Keys
  {
    if done == {} then hashes
    else hashes[key := Fields(hashes, key) + (map f | f in done :: store[f])]
  }

  lemma WrittenStep(hashes: Hashes, key: string, store: StateMap, done: set<string>, f: string)
    requires done <= store.Keys && f in store && f !in done
    ensures Written(hashes, key, store, done + {f})
         == HSet(Written(hashes, key, store, done), key, f, store[f])
  {
    var before := Written(hashes, key, store, done);
    assert Fields(before, key) == Fields(hashes, key) + (map g | g in done :: store[g]);
    assert Fields(hashes, key) + (map g | g in done + {f} :: store[g])
        == (Fields(hashes, key) + (map g | g in done :: store[g]))[f := store[f]];
  }

  /**
   * Does `key` begin with `prefix`? Redis `KEYS prefix*` reads the prefix
   * as a glob pattern; this is the same match only while the prefix holds
   * none of the glob characters `*`, `?`, `[` and `\`.
   */
  predicate MatchesPrefix(prefix: string, key: string)
  {
    |prefix| <= |key| && key[..|prefix|] == prefix
  }

  class RedisChatStateProvider {
    const prefix: string
    /** Whether hash keys carry tenant and assistant (the assistant store) or only the token (the lite store). */
    const scoped: bool
    var hashes: Hashes

    /** The lite store: keys `s:<token>`. */
    constructor ()
      ensures prefix == "s" && !scoped && hashes == map[]
    {
      prefix := "s";
      scoped := false;
      hashes := map[];
    }

    /** The assistant store: keys `<prefix>:<tenant>:<assistant>:<token>` (default prefix "s"). */
    constructor Scoped(keyPrefix: string)
      ensures prefix == keyPrefix && scoped && hashes == map[]
    {
      prefix := keyPrefix;
      scoped := true;
      hashes := map[];
    }

    function Key(lead: ChatLead): (k: string)
      ensures scoped ==> k == prefix + ":" + lead.tenantId + ":" + lead.assistantId + ":" + lead.Token()
      ensures !scoped ==> k == prefix + ":" + lead.Token()
    {
      if scoped then AssistantPrefix(lead.tenantId, lead.assistantId) + lead.Token()
      else prefix + ":" + lead.Token()
    }

    /** `<prefix>:<tenant>:<assistant>:`, the pattern `clear_all_stores` deletes under. */
    function AssistantPrefix(tenantId: string, assistantId: string): string
    {
      prefix + ":" + tenantId + ":" + assistantId + ":"
    }

    function FieldsOf(lead: ChatLead): map<string, Json>
      reads this
    {
      Fields(hashes, Key(lead))
    }

    method SetKeyValue(lead: ChatLead, key: string, value: Json)
      modifies this
      ensures hashes == HSet(old(hashes), Key(lead), key, value)
    {
      hashes := hashes[Key(lead) := FieldsOf(lead)[key := value]];
    }

    /** `HGET`: the stored value, or None when the field is missing. */
    function GetKeyValue(lead: ChatLead, key: string): (r: Json)
      reads this
      ensures key in FieldsOf(lead) ==> r == FieldsOf(lead)[key]
      ensures key !in FieldsOf(lead) ==> r == JNull
    {
      if key in FieldsOf(lead) then FieldsOf(lead)[key] else JNull
    }

    method ClearStore(lead: ChatLead)
      modifies this
      ensures hashes == old(hashes) - {Key(lead)}
    {
      hashes := hashes - {Key(lead)};
    }

    /** Deletes every hash whose key starts with `<prefix>:<tenant>:<assistant>:`. */
    method ClearAllStores(tenantId: string, assistantId: string)
      modifies this
      ensures hashes == map k | k in old(hashes) && !MatchesPrefix(AssistantPrefix(tenantId, assistantId), k) :: old(hashes)[k]
    {
      var pattern := AssistantPrefix(tenantId, assistantId);
      var keys := set k | k in hashes && MatchesPrefix(pattern, k);
      while keys != {}
        invariant hashes == map k | k in old(hashes) && (!MatchesPrefix(pattern, k) || k in keys) :: old(hashes)[k]
        invariant forall k :: k in keys ==> MatchesPrefix(pattern, k) && k in old(hashes)
        decreases keys
      {
        var k :| k in keys;
        hashes := hashes - {k};
        keys := keys - {k};
      }
    }

    /** The assistant store's form: the tenant and assistant are taken from a lead. */
    method ClearAllStoresOf(lead: ChatLead)
      modifies this
      ensures hashes == map k | k in old(hashes) && !MatchesPrefix(AssistantPrefix(lead.tenantId, lead.assistantId), k) :: old(hashes)[k]
    {
      ClearAllStores(lead.tenantId, lead.assistantId);
    }

    /** `HGETALL`: None when the hash is empty or missing. */
    function GetStore(lead: ChatLead): (r: Option<StateMap>)
      reads this
      ensures r.None? <==> FieldsOf(lead) == map[]
      ensures r.Some? ==> r.value == FieldsOf(lead)
    {
      if FieldsOf(lead) == map[] then None else Some(FieldsOf(lead))
    }

    /** One `HSET` per field of `store`; fields not in `store` keep their values. */
    method SetStore(lead: ChatLead, store: StateMap)
      modifies this
      ensures hashes == Written(old(hashes), Key(lead), store, store.Keys)
    {
      var key := Key(lead);
      var todo := store.Keys;
      while todo != {}
        invariant todo <= store.Keys
        invariant hashes == Written(old(hashes), key, store, store.Keys - todo)
        decreases todo
      {
        var f :| f in todo;
        WrittenStep(old(hashes), key, store, store.Keys - todo, f);
        assert store.Keys - todo + {f} == store.Keys - (todo - {f});
        hashes := hashes[key := Fields(hashes, key)[f := store[f]]];
        todo := todo - {f};
      }
      assert store.Keys - todo == store.Keys;
    }
  }

  /** A written value is read back; other fields and other leads are untouched. */
  lemma SetThenGet(hashes: Hashes, key: string, field: string, value: Json, other: string)
    ensures Fields(HSet(hashes, key, field, value), key)[field] == value
    ensures other != field && other in Fields(hashes, key) ==>
      Fields(HSet(hashes, key, field, value), key)[other] == Fields(hashes, key)[other]
  {
  }

  /** `set_store` merges: stored fields win over old ones, the rest survive; an empty store writes nothing. */
  lemma SetStoreMerges(hashes: Hashes, key: string, store: StateMap)
    ensures store == map[] ==> Written(hashes, key, store, store.Keys) == hashes
    ensures store != map[] ==> Fields(Written(hashes, key, store, store.Keys), key) == Fields(hashes, key) + store
    ensures forall k :: k != key ==> Fields(Written(hashes, key, store, store.Keys), k) == Fields(hashes, k)
  {
    if store != map[] {
      assert store.Keys != {};
      assert (map f | f in store.Keys :: store[f]) == store;
    } else {
      assert store.Keys == {};
    }
  }

  /**
   * For the assistant store, clearing a tenant's assistant removes the
   * store of every lead of that tenant and assistant.
   */
  lemma ScopedClearRemovesLeads(p: RedisChatStateProvider, lead: ChatLead)
    requires p.scoped
    ensures MatchesPrefix(p.AssistantPrefix(lead.tenantId, lead.assistantId), p.Key(lead))
  {
    var pre := p.AssistantPrefix(lead.tenantId, lead.assistantId);
    assert p.Key(lead) == pre + lead.Token();
    assert (pre + lead.Token())[..|pre|] == pre;
  }

  /**
   * ... and, when ids contain no ':', the pattern matches a lead's store
   * only if the lead has exactly that tenant and assistant.
   */
  lemma ScopedClearKeepsOthers(p: RedisChatStateProvider, lead: ChatLead, tenantId: string, assistantId: string)
    requires p.scoped
    requires ':' !in lead.tenantId && ':' !in lead.assistantId && ':' !in tenantId && ':' !in assistantId
    ensures MatchesPrefix(p.AssistantPrefix(tenantId, assistantId), p.Key(lead)) ==>
      lead.tenantId == tenantId && lead.assistantId == assistantId
  {
    var pat := p.AssistantPrefix(tenantId, assistantId);
    var key := p.Key(lead);
    if MatchesPrefix(pat, key) {
      var n := |p.prefix| + 1;
      var k1 := key[n..];
      var p1 := pat[n..];
      assert k1 == lead.tenantId + ":" + (lead.assistantId + ":" + lead.Token());
      assert p1 == tenantId + ":" + (assistantId + ":");
      assert k1[..|p1|] == p1;
      SameFieldBeforeColon(k1, p1, lead.tenantId, tenantId);
      var m := |tenantId| + 1;
      assert k1[m..] == lead.assistantId + ":" + lead.Token();
      assert p1[m..] == assistantId + ":";
      assert k1[m..][..|p1[m..]|] == p1[m..];
      SameFieldBeforeColon(k1[m..], p1[m..], lead.assistantId, assistantId);
    }
  }

  /** The first `c` of a text also is the first `c` of any longer text that extends it. */
  lemma {:induction false} IndexOfExtended(x: string, y: string, c: char)
    requires |y| <= |x| && x[..|y|] == y && c in y
    ensures IndexOf(x, c) == IndexOf(y, c)
  {
    if y[0] != c {
      assert x[0] == y[0];
      assert c in y[1..];
      assert x[1..][..|y| - 1] == y[1..];
      IndexOfExtended(x[1..], y[1..], c);
    }
  }

  lemma FieldBeforeColon(x: string, a: string)
    requires ':' !in a && |a| < |x| && x[..|a| + 1] == a + ":"
    ensures IndexOf(x, ':') == Some(|a|)
  {
    assert x[|a|] == ':';
    assert x[..|a|] == a;
  }

  /** Texts that begin `a:` and `b:`, one extending the other, with no ':' in a or b, have a == b. */
  lemma SameFieldBeforeColon(x: string, y: string, a: string, b: string)
    requires ':' !in a && ':' !in b
    requires |a| < |x| && x[..|a| + 1] == a + ":"
    requires |b| < |y| && y[..|b| + 1] == b + ":"
    requires |y| <= |x| && x[..|y|] == y
    ensures a == b
  {
    FieldBeforeColon(x, a);
    FieldBeforeColon(y, b);
    assert y[|b|] == ':';
    IndexOfExtended(x, y, ':');
    assert a == x[..|a|] == y[..|b|] == b;
  }

  /**
   * For the lite store, the hash of a lead is `s:<token>`, so
   * `clear_all_stores(tenant, assistant)` deletes it exactly when the
   * token itself begins with `<tenant>:<assistant>:`.
   */
  lemma LiteClearMatchesOnlyPrefixedTokens(p: RedisChatStateProvider, lead: ChatLead)
    requires !p.scoped
    ensures MatchesPrefix(p.AssistantPrefix(lead.tenantId, lead.assistantId), p.Key(lead))
        <==> MatchesPrefix(lead.tenantId + ":" + lead.assistantId + ":", lead.Token())
  {
    var rest := lead.tenantId + ":" + lead.assistantId + ":";
    var pat := p.AssistantPrefix(lead.tenantId, lead.assistantId);
    var key := p.Key(lead);
    var n := |p.prefix| + 1;
    assert pat == (p.prefix + ":") + rest;
    assert key == (p.prefix + ":") + lead.Token();
    if MatchesPrefix(pat, key) {
      assert lead.Token()[..|rest|] == key[..|pat|][n..];
    }
    if MatchesPrefix(rest, lead.Token()) {
      assert key[..|pat|] == (p.prefix + ":") + lead.Token()[..|rest|];
    }
  }

  /** The controller's lead `u1` of tenant1/assistant1 keeps its lite store through `clear_all_stores`. */
  lemma LiteClearKeepsControllerLead(p: RedisChatStateProvider)
    requires !p.scoped
    ensures !MatchesPrefix(p.AssistantPrefix("tenant1", "assistant1"),
                           p.Key(NewLead("u1", "rtc", "tenant1", "assistant1")))
  {
    var lead := NewLead("u1", "rtc", "tenant1", "assistant1");
    LiteClearMatchesOnlyPrefixedTokens(p, lead);
    assert |"tenant1:assistant1:"| > |lead.Token()|;
  }
}
