/** The updates of Config on node objects, in place, and the server's in-memory providers
    (internal/dashboard/config_persist.go, internal/dashboard/dashboard.go). */
module ConfigNodes {
  import opened Base
  import C = Config

  class YamlNode {
    var kind: C.Kind
    var tag: string
    var value: string
    var content: seq<YamlNode>

    constructor (kind: C.Kind, tag: string, value: string)
      ensures this.kind == kind && this.tag == tag && this.value == value && content == []
    {
      this.kind, this.tag, this.value, content := kind, tag, value, [];
    }
  }

  /** A node whose own content is of no interest. */
  ghost function LeafView(n: YamlNode): C.Yaml
    reads n
  {
    C.Yaml(n.kind, n.tag, n.value, [])
  }

  /** A node and what it lists. */
  ghost function NodeView(n: YamlNode): C.Yaml
    reads n, n.content
  {
    C.Yaml(n.kind, n.tag, n.value, seq(|n.content|, i requires 0 <= i < |n.content| reads n, n.content =>
      LeafView(n.content[i])))
  }

  ghost function Listed(ns: seq<YamlNode>): set<YamlNode>
    reads ns
  {
    set i, x | 0 <= i < |ns| && x in ns[i].content :: x
  }

  ghost predicate ShowsAt(ns: seq<YamlNode>, i: nat, view: C.Yaml)
    requires i < |ns|
    reads ns, Listed(ns)
  {
    assert forall x | x in ns[i].content :: x in Listed(ns);
    NodeView(ns[i]) == view
  }

  ghost predicate ShowsAll(ns: seq<YamlNode>, views: seq<C.Yaml>)
    reads ns, Listed(ns)
  {
    |ns| == |views| && forall i {:trigger ShowsAt(ns, i, views[i])} | 0 <= i < |ns| :: ShowsAt(ns, i, views[i])
  }

  /** The providers section with its providers and their settings. */
  ghost predicate Shows(s: YamlNode, section: C.Yaml)
    reads s, s.content, Listed(s.content)
  {
    s.kind == section.kind && s.tag == section.tag && s.value == section.value && ShowsAll(s.content, section.content)
  }

  /** A node lists other nodes, each once. */
  ghost predicate Flat(n: YamlNode)
    reads n
  {
    n !in n.content && forall i, j | 0 <= i < j < |n.content| :: n.content[i] != n.content[j]
  }

  ghost function Kids(n: YamlNode): set<YamlNode>
    reads n
  {
    set x | x in n.content
  }

  /** The search loop of findMapEntry and setScalar: the number of the first entry with this
      key, or the number of entries. */
  method FindKey(m: YamlNode, key: string) returns (k: nat)
    ensures k == C.KeyAt(C.Keys(NodeView(m).content), key)
  {
    ghost var keys := C.Keys(NodeView(m).content);
    var i := 0;
    while i + 1 < |m.content|
      invariant i % 2 == 0 && i <= |m.content|
      invariant forall j | 0 <= j < i / 2 :: keys[j] != key
    {
      if m.content[i].value == key {
        C.KeyAtIs(keys, key, i / 2);
        return i / 2;
      }
      i := i + 2;
    }
    C.KeyAtIs(keys, key, |keys|);
    k := |m.content| / 2;
  }

  /** setScalar: an existing value node is overwritten where it is. */
  method SetScalar(m: YamlNode, key: string, value: string, tag: string)
    requires Flat(m)
    modifies m`content, Kids(m)`kind, Kids(m)`tag, Kids(m)`value
    ensures Flat(m) && NodeView(m) == C.SetScalar(old(NodeView(m)), key, value, tag)
    ensures fresh(Kids(m) - old(Kids(m)))
  {
    ghost var view, node := NodeView(m).content, C.Yaml(C.ScalarNode, tag, value, []);
    var k := FindKey(m, key);
    if k < |m.content| / 2 {
      var valNode := m.content[2 * k + 1];
      valNode.kind, valNode.tag, valNode.value := C.ScalarNode, tag, value;
      assert NodeView(m).content == view[2 * k + 1 := node];
    } else {
      var keyNode := new YamlNode(C.ScalarNode, "!!str", key);
      var valNode := new YamlNode(C.ScalarNode, tag, value);
      m.content := m.content + [keyNode, valNode];
      assert NodeView(m).content == view + [C.KeyNode(key), node];
    }
  }

  /** A setting that the request does not give stays as it is. */
  method SetIfGiven(m: YamlNode, key: string, value: string, tag: string, given: bool)
    requires Flat(m)
    modifies m`content, Kids(m)`kind, Kids(m)`tag, Kids(m)`value
    ensures Flat(m) && NodeView(m) == if given then C.SetScalar(old(NodeView(m)), key, value, tag) else old(NodeView(m))
    ensures fresh(Kids(m) - old(Kids(m)))
  {
    if given {
      SetScalar(m, key, value, tag);
    }
  }

  method ApplyTexts(m: YamlNode, dto: C.ProviderConfig)
    requires Flat(m)
    modifies m`content, Kids(m)`kind, Kids(m)`tag, Kids(m)`value
    ensures Flat(m) && NodeView(m) == C.ApplyTexts(old(NodeView(m)), dto)
    ensures fresh(Kids(m) - old(Kids(m)))
  {
    SetScalar(m, "enabled", if dto.enabled then "true" else "false", "!!bool");
    SetIfGiven(m, "base_url", dto.baseUrl, "!!str", dto.baseUrl != "");
    SetIfGiven(m, "default_model", dto.defaultModel, "!!str", dto.defaultModel != "");
    SetIfGiven(m, "api_key", dto.apiKey, "!!str", dto.apiKey != "" && dto.apiKey != C.MASKED);
  }

  method ApplyLimits(m: YamlNode, dto: C.ProviderConfig)
    requires Flat(m)
    modifies m`content, Kids(m)`kind, Kids(m)`tag, Kids(m)`value
    ensures Flat(m) && NodeView(m) == C.ApplyLimits(old(NodeView(m)), dto)
    ensures fresh(Kids(m) - old(Kids(m)))
  {
    if dto.timeout > 0 {
      SetScalar(m, "timeout", C.Decimal(dto.timeout), "!!int");
    }
    if dto.maxRetries > 0 {
      SetScalar(m, "max_retries", C.Decimal(dto.maxRetries), "!!int");
    }
  }

  method ApplyProviderDTO(m: YamlNode, dto: C.ProviderConfig)
    requires Flat(m)
    modifies m`content, Kids(m)`kind, Kids(m)`tag, Kids(m)`value
    ensures Flat(m) && NodeView(m) == C.ApplyProviderDTO(old(NodeView(m)), dto)
    ensures fresh(Kids(m) - old(Kids(m)))
  {
    ApplyTexts(m, dto);
    ApplyLimits(m, dto);
  }

  /** findMapEntry: the value node of the first entry with this key, or null. */
  method FindMapEntry(mapping: YamlNode, key: string) returns (node: YamlNode?)
    ensures var k := C.KeyAt(C.Keys(NodeView(mapping).content), key);
            node == if mapping.kind == C.MappingNode && k < |mapping.content| / 2 then mapping.content[2 * k + 1]
              else null
  {
    var found := FindKey(mapping, key);
    node := if mapping.kind == C.MappingNode && found < |mapping.content| / 2 then mapping.content[2 * found + 1]
      else null;
  }

  // ---- The providers section ----

  /** No node is listed twice, among the nodes ns of the section s or in what they list. */
  ghost predicate ApartAll(s: YamlNode, ns: seq<YamlNode>)
    reads ns
  {
    && s !in ns
    && (forall i, j | 0 <= i < j < |ns| :: ns[i] != ns[j] && Kids(ns[i]) !! Kids(ns[j]))
    && (forall c | c in ns :: Flat(c) && s !in c.content)
    && (forall c, x | c in ns && x in ns :: x !in c.content)
  }

  ghost predicate Apart(s: YamlNode)
    reads s, s.content
  {
    ApartAll(s, s.content)
  }

  lemma {:induction false} ApartAppend(s: YamlNode, ns: seq<YamlNode>, a: YamlNode, b: YamlNode)
    requires ApartAll(s, ns) && a.content == [] && b.content == [] && a != b && s != a && s != b && a !in ns && b !in ns
    requires forall x | x in Listed(ns) :: x != a && x != b
    ensures ApartAll(s, ns + [a, b])
  {
    var all := ns + [a, b];
    forall i, j | 0 <= i < j < |all| ensures all[i] != all[j] && Kids(all[i]) !! Kids(all[j]) {
      if j < |ns| { assert all[i] == ns[i] && all[j] == ns[j]; }
    }
    forall c, x | c in all && x in all ensures x !in c.content {
      if c in ns && x !in ns { assert x in c.content ==> x in Listed(ns); }
    }
  }

  /** The other providers share no node with the one at this place. */
  lemma {:induction false} OthersApart(s: YamlNode, at: nat, i: nat)
    requires Apart(s) && at < |s.content| && i < |s.content| && i != at
    ensures var node, other := s.content[at], s.content[i];
            && other != node && other !in Kids(node) && node !in other.content && s !in other.content
            && forall x | x in other.content :: x !in Kids(node)
  {
    var node, other := s.content[at], s.content[i];
    assert Kids(node) !! Kids(other);
    forall x | x in other.content ensures x !in Kids(node) {
      assert x in Kids(other);
    }
    assert node in s.content && other in s.content;
  }

  /** Updates the provider at one place of the section; the others keep their settings. */
  method UpdateAt(s: YamlNode, at: nat, dto: C.ProviderConfig, ghost views: seq<C.Yaml>)
    requires Apart(s) && at < |s.content| && ShowsAll(s.content, views)
    modifies Kids(s)`content, Listed(s.content)`kind, Listed(s.content)`tag, Listed(s.content)`value
    ensures Apart(s) && fresh(Listed(s.content) - old(Listed(s.content)))
    ensures ShowsAll(s.content, views[at := C.ApplyProviderDTO(views[at], dto)])
  {
    var node := s.content[at];
    forall i | 0 <= i < |s.content| && i != at
      ensures var other := s.content[i];
              other != node && other !in Kids(node) && node !in other.content && forall x | x in other.content ::
                x !in Kids(node)
    {
      OthersApart(s, at, i);
    }
    assert ShowsAt(s.content, at, views[at]);
    ApplyProviderDTO(node, dto);
    ghost var views' := views[at := C.ApplyProviderDTO(views[at], dto)];
    forall i | 0 <= i < |s.content| ensures ShowsAt(s.content, i, views'[i]) {
      if i != at {
        var other := s.content[i];
        assert other.content == old(other.content);
        forall k | 0 <= k < |other.content| ensures LeafView(other.content[k]) == old(LeafView(other.content[k])) {
          assert other.content[k] != node && other.content[k] !in old(Kids(node));
        }
        assert old(ShowsAt(s.content, i, views[i]));
      }
    }
  }

  lemma {:induction false} ListedAppend(ns: seq<YamlNode>, a: YamlNode, b: YamlNode)
    requires a.content == [] && b.content == []
    ensures Listed(ns + [a, b]) == Listed(ns)
  {
    var all := ns + [a, b];
    forall x | x in Listed(all) ensures x in Listed(ns) {
      var i :| 0 <= i < |all| && x in all[i].content;
      assert all[i] == ns[i];
    }
    forall x | x in Listed(ns) ensures x in Listed(all) {
      var i :| 0 <= i < |ns| && x in ns[i].content;
      assert all[i] == ns[i];
    }
  }

  lemma {:induction false} ShowsAppend(ns: seq<YamlNode>, views: seq<C.Yaml>, a: YamlNode, b: YamlNode)
    requires ShowsAll(ns, views)
    ensures ShowsAll(ns + [a, b], views + [NodeView(a), NodeView(b)])
  {
    var all, allViews := ns + [a, b], views + [NodeView(a), NodeView(b)];
    forall i | 0 <= i < |all| ensures ShowsAt(all, i, allViews[i]) {
      if i < |ns| {
        assert ShowsAt(ns, i, views[i]);
      }
    }
  }

  /** The two nodes of a new provider's entry. */
  method NewEntry(s: YamlNode, name: string, ghost views: seq<C.Yaml>) returns (keyNode: YamlNode, provNode: YamlNode)
    requires Apart(s) && ShowsAll(s.content, views)
    ensures fresh(keyNode) && fresh(provNode) && ApartAll(s, s.content + [keyNode, provNode])
    ensures Listed(s.content + [keyNode, provNode]) == Listed(s.content)
    ensures ShowsAll(s.content + [keyNode, provNode], views + [C.KeyNode(name), C.NEW_PROVIDER])
  {
    keyNode := new YamlNode(C.ScalarNode, "!!str", name);
    provNode := new YamlNode(C.MappingNode, "!!map", "");
    forall i | 0 <= i < |s.content| ensures ShowsAt(s.content, i, views[i]) {
      assert old(ShowsAt(s.content, i, views[i]));
    }
    ApartAppend(s, s.content, keyNode, provNode);
    ListedAppend(s.content, keyNode, provNode);
    ShowsAppend(s.content, views, keyNode, provNode);
    assert NodeView(keyNode) == C.KeyNode(name) && NodeView(provNode) == C.NEW_PROVIDER;
  }

  /** Appends an entry for a new provider. */
  method Append(s: YamlNode, name: string, ghost views: seq<C.Yaml>)
    requires Apart(s) && ShowsAll(s.content, views)
    modifies s`content
    ensures Apart(s) && fresh(Kids(s) - old(Kids(s))) && Listed(s.content) == old(Listed(s.content))
    ensures ShowsAll(s.content, views + [C.KeyNode(name), C.NEW_PROVIDER])
  {
    var keyNode, provNode := NewEntry(s, name, views);
    s.content := s.content + [keyNode, provNode];
  }

  lemma {:induction false} SameKeys(s: YamlNode, section: C.Yaml)
    requires Shows(s, section)
    ensures C.Keys(NodeView(s).content) == C.Keys(section.content)
  {
    forall k | 0 <= k < |s.content| / 2 ensures s.content[2 * k].value == section.content[2 * k].value {
      assert ShowsAt(s.content, 2 * k, section.content[2 * k]);
    }
  }

  /** The place of a provider's node, which is made if the section has none. */
  method Reach(s: YamlNode, name: string, ghost section: C.Yaml) returns (at: nat, ghost views: seq<C.Yaml>)
    requires Apart(s) && Shows(s, section)
    modifies s`content
    ensures Apart(s) && fresh(Kids(s) - old(Kids(s))) && Listed(s.content) == old(Listed(s.content))
    ensures ShowsAll(s.content, views) && C.Reached(section, name, views, at)
  {
    SameKeys(s, section);
    var k := FindKey(s, name);
    if s.kind == C.MappingNode && k < |s.content| / 2 {
      return 2 * k + 1, section.content;
    }
    at, views := |s.content| + 1, section.content + [C.KeyNode(name), C.NEW_PROVIDER];
    forall i | 0 <= i < |s.content| ensures ShowsAt(s.content, i, section.content[i]) {
      assert old(ShowsAt(s.content, i, section.content[i]));
    }
    Append(s, name, section.content);
  }

  method UpdateProvider(s: YamlNode, name: string, dto: C.ProviderConfig, ghost section: C.Yaml)
    requires Apart(s) && Shows(s, section)
    modifies s`content, Kids(s)`content, Listed(s.content)`kind, Listed(s.content)`tag, Listed(s.content)`value
    ensures Apart(s) && Shows(s, C.UpdateProvider(section, name, dto))
    ensures fresh(Kids(s) - old(Kids(s))) && fresh(Listed(s.content) - old(Listed(s.content)))
  {
    var at; ghost var views;
    at, views := Reach(s, name, section);
    C.ReachedUpdate(section, name, dto, views, at);
    UpdateAt(s, at, dto, views);
  }

  /** The updates' loop, in the order of one iteration over the request's map. */
  method UpdateAll(s: YamlNode, updates: map<string, C.ProviderConfig>, ghost section: C.Yaml)
      returns (ghost order: seq<string>)
    requires Apart(s) && Shows(s, section)
    modifies s`content, Kids(s)`content, Listed(s.content)`kind, Listed(s.content)`tag, Listed(s.content)`value
    ensures ListsOnce(order, updates.Keys) && Apart(s) && Shows(s, C.UpdateAll(section, order, updates))
  {
    var names := ListKeys(updates.Keys);
    order := names;
    assert names[..|names|] == names;
    ghost var view := section;
    for i := 0 to |names|
      invariant view == C.UpdateAll(section, names[..i], updates)
      invariant Apart(s) && Shows(s, view)
      invariant fresh(Kids(s) - old(Kids(s))) && fresh(Listed(s.content) - old(Listed(s.content)))
    {
      C.UpdateAllOne(section, names, i, updates);
      UpdateProvider(s, names[i], updates[names[i]], view);
      view := C.UpdateProvider(view, names[i], updates[names[i]]);
    }
  }

  // ---- The document ----

  /** The value node of the first entry with this key. */
  ghost function EntryNode(top: YamlNode, key: string): YamlNode?
    reads top, top.content
  {
    var k := C.KeyAt(C.Keys(NodeView(top).content), key);
    if k < |top.content| / 2 then top.content[2 * k + 1] else null
  }

  /** All the nodes of a section. */
  ghost function Own(s: YamlNode?): set<YamlNode>
    reads if s == null then {} else {s} + Kids(s)
  {
    if s == null then {} else {s} + Kids(s) + Listed(s.content)
  }

  /** The node of the providers section, which is made if the document has none. */
  method FindSection(top: YamlNode) returns (s: YamlNode)
    requires top.kind == C.MappingNode && |top.content| % 2 == 0
    modifies top`content
    ensures s == EntryNode(top, "providers")
    ensures var was := old(EntryNode(top, "providers"));
            if was != null then s == was && top.content == old(top.content)
            else fresh(s) && s.kind == C.MappingNode && s.tag == "!!map" && s.value == "" && s.content == [] &&
                 |top.content| == |old(top.content)| + 2 && old(top.content) <= top.content
  {
    var found := FindMapEntry(top, "providers");
    if found != null {
      return found;
    }
    ghost var view := NodeView(top).content;
    s := new YamlNode(C.MappingNode, "!!map", "");
    var keyNode := new YamlNode(C.ScalarNode, "!!str", "providers");
    top.content := top.content + [keyNode, s];
    C.AppendedAt(view, "providers", C.NEW_PROVIDER);
    assert NodeView(top).content == view + [C.KeyNode("providers"), C.NEW_PROVIDER];
  }

  /** The section a document has, or the empty mapping that is made for it. */
  ghost predicate HasSection(top: YamlNode, section: C.Yaml)
    reads top, top.content, Own(EntryNode(top, "providers"))
  {
    var s := EntryNode(top, "providers");
    top.kind == C.MappingNode ==>
      |top.content| % 2 == 0 &&
      if s == null then section == C.NEW_PROVIDER
      else Apart(s) && top !in Own(s) && (forall x | x in top.content && x != s :: x !in Own(s)) && Shows(s, section)
  }

  /** Updates the section of a document that has one. */
  method UpdateSection(top: YamlNode, s: YamlNode, updates: map<string, C.ProviderConfig>, ghost section: C.Yaml)
      returns (ghost order: seq<string>)
    requires top.kind == C.MappingNode && s == EntryNode(top, "providers") && HasSection(top, section)
    modifies Own(s)
    ensures ListsOnce(order, updates.Keys) && s == EntryNode(top, "providers") &&
            Shows(s, C.UpdateAll(section, order, updates))
  {
    ghost var view := NodeView(top);
    order := UpdateAll(s, updates, section);
    assert NodeView(top).content == view.content by {
      forall i | 0 <= i < |top.content| ensures LeafView(top.content[i]) == view.content[i] {
        assert top.content[i] == s || top.content[i] !in old(Own(s));
      }
    }
  }

  /** persistProviderUpdates on the parsed document; its other entries keep their nodes. */
  method PersistProviderUpdates(top: YamlNode, updates: map<string, C.ProviderConfig>, ghost section: C.Yaml)
    returns (s: YamlNode?, ghost order: seq<string>)
    requires HasSection(top, section)
    modifies top`content, Own(EntryNode(top, "providers"))
    ensures s != null <==> top.kind == C.MappingNode
    ensures s == null ==> top.content == old(top.content) && HasSection(top, section)
    ensures s != null ==> ListsOnce(order, updates.Keys) && old(top.content) <= top.content
    ensures s != null ==> s == EntryNode(top, "providers") && Shows(s, C.UpdateAll(section, order, updates))
  {
    if top.kind != C.MappingNode {
      return null, [];
    }
    s := FindSection(top);
    order := UpdateSection(top, s, updates, section);
  }

  // ---- The server ----

  datatype Status = Saved | NoProviders | NotWritten

  class Server {
    var providers: map<string, C.ProviderConfig>

    constructor (providers: map<string, C.ProviderConfig>)
      ensures this.providers == providers
    {
      this.providers := providers;
    }

    method ConfigGet() returns (out: map<string, C.ProviderConfig>)
      ensures out == C.Answer(providers)
    {
      out := map[];
      var names := ListKeys(providers.Keys);
      for i := 0 to |names|
        invariant out == map n | n in names[..i] :: providers[n].(apiKey := C.MASKED)
      {
        out := out[names[i] := providers[names[i]].(apiKey := C.MASKED)];
      }
      assert names[..|names|] == names;
    }

    /** The update of the in-memory providers, whatever the order. */
    method Reflect(updates: map<string, C.ProviderConfig>)
      modifies `providers
      ensures providers == C.Updated(old(providers), updates)
    {
      var names := ListKeys(updates.Keys);
      assert C.UpdatedOf(old(providers), [], updates) == old(providers);
      for i := 0 to |names|
        invariant providers == C.UpdatedOf(old(providers), names[..i], updates)
      {
        assert names[i] !in names[..i] && names[..i + 1] == names[..i] + [names[i]];
        C.UpdatedOfNext(old(providers), names[..i], names[i], updates);
        var pc := Merge(if names[i] in providers then providers[names[i]] else C.ZERO, updates[names[i]]);
        providers := providers[names[i] := pc];
      }
      assert names[..|names|] == names;
      C.UpdatedOfAll(old(providers), names, updates);
    }

    static method Merge(was: C.ProviderConfig, dto: C.ProviderConfig) returns (pc: C.ProviderConfig)
      ensures pc == C.Update(was, dto)
    {
      pc := was.(enabled := dto.enabled);
      if dto.baseUrl != "" {
        pc := pc.(baseUrl := dto.baseUrl);
      }
      if dto.defaultModel != "" {
        pc := pc.(defaultModel := dto.defaultModel);
      }
      if dto.apiKey != "" && dto.apiKey != C.MASKED {
        pc := pc.(apiKey := dto.apiKey);
      }
      if dto.timeout > 0 {
        pc := pc.(timeout := dto.timeout);
      }
      if dto.maxRetries > 0 {
        pc := pc.(maxRetries := dto.maxRetries);
      }
    }

    /** configPut: the file's nodes get UpdateAll and the memory gets Updated, or nothing changes
        at all. If the file read as what the memory held before, then afterwards it does exactly
        if every update can be stored. */
    method ConfigPut(top: YamlNode, updates: map<string, C.ProviderConfig>, ghost section: C.Yaml, ghost lib: C.Lib)
      returns (status: Status, s: YamlNode?, ghost order: seq<string>, ghost stored: C.Yaml)
      requires HasSection(top, section)
      modifies `providers, top`content, Own(EntryNode(top, "providers"))
      ensures status == if updates == map[] then NoProviders else if top.kind == C.MappingNode then Saved
              else NotWritten
      ensures status != Saved ==>
                providers == old(providers) && top.content == old(top.content) && HasSection(top, section)
      ensures status == Saved ==> providers == C.Updated(old(providers), updates)
      ensures status == Saved ==> ListsOnce(order, updates.Keys)
      ensures status == Saved ==>
                s != null && s == EntryNode(top, "providers") && Shows(s, stored) &&
                stored == C.UpdateAll(section, order, updates)
      ensures status == Saved && C.Reads(lib) && C.DecodesTo(lib, section, old(providers)) ==>
                (C.DecodesTo(lib, stored, providers) <==> C.Storable(section, updates))
    {
      s, order, stored := null, [], section;
      if updates == map[] {
        return NoProviders, s, order, stored;
      }
      s, order := PersistProviderUpdates(top, updates, section);
      if s == null {
        return NotWritten, s, order, stored;
      }
      stored := C.UpdateAll(section, order, updates);
      label persisted:
      Reflect(updates);
      forall i | 0 <= i < |s.content| ensures ShowsAt(s.content, i, stored.content[i]) {
        assert old@persisted(ShowsAt(s.content, i, stored.content[i]));
      }
      status := Saved;
      if C.Reads(lib) && C.DecodesTo(lib, section, old(providers)) {
        C.DiskAgreesIff(lib, section, old(providers), order, updates);
      }
    }
  }
}
