/** Provider settings as YAML nodes and as decoded values
    (internal/dashboard/config_persist.go, internal/dashboard/dashboard.go). */
module Config {
  import opened Base

  datatype Kind = ScalarNode | MappingNode | OtherNode

  /** A node; the content of a mapping lists keys and values in turn. */
  datatype Yaml = Yaml(kind: Kind, tag: string, value: string, content: seq<Yaml>)

  datatype ProviderConfig = ProviderConfig(
    enabled: bool, baseUrl: string, apiKey: string, defaultModel: string, timeout: int, maxRetries: int)

  const ZERO := ProviderConfig(false, "", "", "", 0, 0)
  const MASKED := "\U{2022}\U{2022}\U{2022}\U{2022}"

  // ---- Decimal numbers ----

  predicate IsDecimal(s: string) {
    s != "" && forall i | 0 <= i < |s| :: '0' <= s[i] <= '9'
  }

  function Decimal(n: nat): string {
    var digit := '0' + (n % 10) as char;
    if n < 10 then [digit] else Decimal(n / 10) + [digit]
  }

  function ParseDecimal(s: string): nat
    requires IsDecimal(s)
  {
    var low := s[|s| - 1] as nat - '0' as nat;
    if |s| == 1 then low else ParseDecimal(s[..|s| - 1]) * 10 + low
  }

  lemma {:induction false} DecimalRoundTrip(n: nat)
    ensures IsDecimal(Decimal(n)) && ParseDecimal(Decimal(n)) == n
  {
    if n >= 10 {
      DecimalRoundTrip(n / 10);
      assert Decimal(n)[..|Decimal(n)| - 1] == Decimal(n / 10);
    }
  }

  // ---- Mappings ----

  function Keys(content: seq<Yaml>): seq<string> {
    seq(|content| / 2, k requires 0 <= k < |content| / 2 => content[2 * k].value)
  }

  /** The position of the first of the keys that equals key, or their number. */
  function KeyAt(keys: seq<string>, key: string): (k: nat)
    ensures k <= |keys|
  {
    if keys == [] then 0 else if keys[0] == key then 0 else 1 + KeyAt(keys[1..], key)
  }

  ghost predicate Distinct(keys: seq<string>) {
    forall i, j | 0 <= i < j < |keys| :: keys[i] != keys[j]
  }

  /** The value of the first entry with this key. */
  function Lookup(content: seq<Yaml>, key: string): Option<Yaml> {
    var k := KeyAt(Keys(content), key);
    if k < |content| / 2 then Some(content[2 * k + 1]) else None
  }

  function KeyNode(key: string): Yaml {
    Yaml(ScalarNode, "!!str", key, [])
  }

  /** Replaces the value of the entry with this key, or appends an entry. */
  function Put(content: seq<Yaml>, key: string, node: Yaml): seq<Yaml> {
    var k := KeyAt(Keys(content), key);
    if k < |content| / 2 then content[2 * k + 1 := node] else content + [KeyNode(key), node]
  }

  ghost predicate FirstAt(keys: seq<string>, key: string, k: nat) {
    k <= |keys| && (k < |keys| ==> keys[k] == key) && forall j | 0 <= j < k :: keys[j] != key
  }

  lemma {:induction false} KeyAtFirst(keys: seq<string>, key: string)
    ensures FirstAt(keys, key, KeyAt(keys, key))
  {
    if keys != [] && keys[0] != key {
      KeyAtFirst(keys[1..], key);
      var k := KeyAt(keys, key);
      forall j | 0 <= j < k ensures keys[j] != key {
        if j > 0 { assert keys[j] == keys[1..][j - 1]; }
      }
    }
  }

  lemma {:induction false} KeyAtIs(keys: seq<string>, key: string, k: nat)
    requires FirstAt(keys, key, k)
    ensures KeyAt(keys, key) == k
  {
    KeyAtFirst(keys, key);
  }

  /** Entries keep their positions and their keys; only the value under key changes. */
  lemma {:induction false} PutEntry(content: seq<Yaml>, key: string, node: Yaml)
    requires |content| % 2 == 0
    ensures var after, k := Put(content, key, node), KeyAt(Keys(content), key);
            && |after| % 2 == 0 && |content| <= |after|
            && (forall i | 0 <= i < |content| && i != 2 * k + 1 :: after[i] == content[i])
            && Keys(after) == Keys(content) + (if key in Keys(content) then [] else [key])
            && (Distinct(Keys(content)) ==> Distinct(Keys(after)))
            && Lookup(after, key) == Some(node)
            && (|after| > |content| ==> after[|content|] == Yaml(ScalarNode, "!!str", key, []))
  {
    var after, k := Put(content, key, node), KeyAt(Keys(content), key);
    KeyAtFirst(Keys(content), key);
    assert k < |content| / 2 <==> key in Keys(content);
    assert Keys(after) == Keys(content) + (if key in Keys(content) then [] else [key]);
    KeyAtIs(Keys(after), key, k);
  }

  lemma {:induction false} PutOther(content: seq<Yaml>, key: string, node: Yaml, other: string)
    requires |content| % 2 == 0 && other != key
    ensures Lookup(Put(content, key, node), other) == Lookup(content, other)
  {
    PutEntry(content, key, node);
    KeyAtFirst(Keys(content), other);
    KeyAtFirst(Keys(content), key);
    var k, after := KeyAt(Keys(content), other), Put(content, key, node);
    assert forall j | 0 <= j < |Keys(content)| :: Keys(after)[j] == Keys(content)[j];
    if k < |Keys(content)| {
      KeyAtIs(Keys(after), other, k);
      assert k != KeyAt(Keys(content), key);
    } else {
      KeyAtIs(Keys(after), other, |Keys(after)|);
    }
  }

  // ---- Writing a provider's settings ----

  function SetScalar(m: Yaml, key: string, value: string, tag: string): Yaml {
    var was := Lookup(m.content, key);
    m.(content := Put(m.content, key,
         if was.Some? then was.value.(kind := ScalarNode, tag := tag, value := value)
         else Yaml(ScalarNode, tag, value, [])))
  }

  function SetBool(m: Yaml, key: string, value: bool): Yaml {
    SetScalar(m, key, if value then "true" else "false", "!!bool")
  }

  /** A string counts as given unless it is empty. */
  function SetString(m: Yaml, key: string, value: string, given: bool): Yaml {
    if given then SetScalar(m, key, value, "!!str") else m
  }

  function SetInt(m: Yaml, key: string, value: int): Yaml {
    if value > 0 then SetScalar(m, key, Decimal(value), "!!int") else m
  }

  predicate IsRealKey(apiKey: string) {
    apiKey != "" && apiKey != MASKED
  }

  function ApplyTexts(m: Yaml, dto: ProviderConfig): Yaml {
    var m := SetBool(m, "enabled", dto.enabled);
    var m := SetString(m, "base_url", dto.baseUrl, dto.baseUrl != "");
    var m := SetString(m, "default_model", dto.defaultModel, dto.defaultModel != "");
    SetString(m, "api_key", dto.apiKey, IsRealKey(dto.apiKey))
  }

  function ApplyLimits(m: Yaml, dto: ProviderConfig): Yaml {
    SetInt(SetInt(m, "timeout", dto.timeout), "max_retries", dto.maxRetries)
  }

  function ApplyProviderDTO(m: Yaml, dto: ProviderConfig): Yaml {
    ApplyLimits(ApplyTexts(m, dto), dto)
  }

  const NEW_PROVIDER := Yaml(MappingNode, "!!map", "", [])

  /** findMapEntry: nothing is found in a node that is not a mapping. */
  function Entry(section: Yaml, name: string): Option<Yaml> {
    if section.kind == MappingNode then Lookup(section.content, name) else None
  }

  function UpdateProvider(section: Yaml, name: string, dto: ProviderConfig): Yaml {
    var was := Entry(section, name);
    if was.Some? then section.(content := Put(section.content, name, ApplyProviderDTO(was.value, dto)))
    else section.(content := section.content + [KeyNode(name), ApplyProviderDTO(NEW_PROVIDER, dto)])
  }

  /** mid is the section's content once it has an entry for name, whose value is at this place. */
  predicate Reached(section: Yaml, name: string, mid: seq<Yaml>, at: nat) {
    if Entry(section, name).Some? then mid == section.content && at == 2 * KeyAt(Keys(section.content), name) + 1
    else mid == section.content + [KeyNode(name), NEW_PROVIDER] && at == |section.content| + 1
  }

  lemma {:induction false} ReachedUpdate(section: Yaml, name: string, dto: ProviderConfig, mid: seq<Yaml>, at: nat)
    requires Reached(section, name, mid, at)
    ensures at < |mid| && UpdateProvider(section, name, dto) ==
            section.(content := mid[at := ApplyProviderDTO(mid[at], dto)])
  {
    if Entry(section, name).None? {
      var node := ApplyProviderDTO(NEW_PROVIDER, dto);
      assert (section.content + [KeyNode(name), NEW_PROVIDER])[at := node] == section.content + [KeyNode(name), node];
    }
  }

  /** The updates in the order of one iteration over the request's map. */
  function UpdateAll(section: Yaml, names: seq<string>, updates: map<string, ProviderConfig>): Yaml
    requires forall n | n in names :: n in updates
  {
    if names == [] then section
    else
      var n := |names| - 1;
      UpdateProvider(UpdateAll(section, names[..n], updates), names[n], updates[names[n]])
  }

  // ---- The same updates in memory ----

  /** configPut's update of one provider. */
  function Update(pc: ProviderConfig, dto: ProviderConfig): ProviderConfig {
    ProviderConfig(
      dto.enabled,
      if dto.baseUrl != "" then dto.baseUrl else pc.baseUrl,
      if IsRealKey(dto.apiKey) then dto.apiKey else pc.apiKey,
      if dto.defaultModel != "" then dto.defaultModel else pc.defaultModel,
      if dto.timeout > 0 then dto.timeout else pc.timeout,
      if dto.maxRetries > 0 then dto.maxRetries else pc.maxRetries)
  }

  /** A provider the map does not have reads as its zero value. */
  function Get(providers: map<string, ProviderConfig>, name: string): ProviderConfig {
    if name in providers then providers[name] else ZERO
  }

  function Updated(providers: map<string, ProviderConfig>,
                   updates: map<string, ProviderConfig>): map<string, ProviderConfig>
  {
    map n | n in providers.Keys + updates.Keys ::
      if n in updates then Update(Get(providers, n), updates[n]) else providers[n]
  }

  /** The same when only the updates of names have been made. */
  function UpdatedOf(providers: map<string, ProviderConfig>, names: seq<string>,
                     updates: map<string, ProviderConfig>): map<string, ProviderConfig>
    requires forall n | n in names :: n in updates
  {
    map n | n in providers.Keys + (set x | x in names) ::
      if n in names then Update(Get(providers, n), updates[n]) else providers[n]
  }

  lemma {:induction false} UpdatedOfNext(providers: map<string, ProviderConfig>, front: seq<string>, last: string,
                                         updates: map<string, ProviderConfig>)
    requires last !in front && last in updates && forall n | n in front :: n in updates
    ensures var before := UpdatedOf(providers, front, updates);
            && UpdatedOf(providers, front + [last], updates) ==
               before[last := Update(Get(providers, last), updates[last])]
            && Get(before, last) == Get(providers, last)
  {
  }

  lemma {:induction false} UpdatedOfAll(providers: map<string, ProviderConfig>, names: seq<string>,
                                        updates: map<string, ProviderConfig>)
    requires ListsOnce(names, updates.Keys)
    ensures UpdatedOf(providers, names, updates) == Updated(providers, updates)
  {
  }

  /** configGet's answer. */
  function Answer(providers: map<string, ProviderConfig>): map<string, ProviderConfig> {
    map n | n in providers :: providers[n].(apiKey := MASKED)
  }

  /** A GET answer sent back changes nothing. */
  lemma {:induction false} AnswerRoundTrip(providers: map<string, ProviderConfig>)
    ensures Updated(providers, Answer(providers)) == providers
  {
    forall n | n in providers ensures Update(providers[n], Answer(providers)[n]) == providers[n] {}
  }

  /** A GET answer shows every provider with all its settings but the key. */
  lemma {:induction false} AnswerShows(providers: map<string, ProviderConfig>, n: string)
    ensures n in Answer(providers) <==> n in providers
    ensures n in providers ==>
              Answer(providers)[n] == providers[n].(apiKey := "\U{2022}\U{2022}\U{2022}\U{2022}")
  {
  }

  /** The same providers with the same settings, whatever their keys. */
  ghost predicate SameButKeys(a: map<string, ProviderConfig>, b: map<string, ProviderConfig>) {
    a.Keys == b.Keys && forall n | n in a :: a[n].(apiKey := "") == b[n].(apiKey := "")
  }

  /** The answer tells nothing about the keys, not even whether there are any. */
  lemma {:induction false} AnswerHidesKeys(a: map<string, ProviderConfig>, b: map<string, ProviderConfig>)
    requires SameButKeys(a, b)
    ensures Answer(a) == Answer(b)
  {
    forall n | n in a ensures Answer(a)[n] == Answer(b)[n] {
      assert a[n].(apiKey := "").(apiKey := MASKED) == b[n].(apiKey := "").(apiKey := MASKED);
    }
  }

  /** now is what was given, or, if nothing was given, what was there before. */
  predicate Took<T(==)>(now: T, given: T, isGiven: bool, before: T) {
    now == if isGiven then given else before
  }

  /** After a PUT, a GET shows for each provider of the request the settings it gave, and the old
      ones where it gave none; a key is replaced exactly by one that is neither empty nor masked;
      all other providers are as before. */
  lemma {:induction false} PutThenGet(providers: map<string, ProviderConfig>, updates: map<string, ProviderConfig>,
                                      n: string)
    ensures var after := Updated(providers, updates);
            && (n in Answer(after) <==> n in providers || n in updates)
            && (n in providers && n !in updates ==> after[n] == providers[n])
            && (n in updates ==>
                var before := if n in providers then providers[n] else ProviderConfig(false, "", "", "", 0, 0);
                var dto, got := updates[n], Answer(after)[n];
                && got.enabled == dto.enabled
                && Took(got.baseUrl, dto.baseUrl, dto.baseUrl != "", before.baseUrl)
                && Took(got.defaultModel, dto.defaultModel, dto.defaultModel != "", before.defaultModel)
                && Took(got.timeout, dto.timeout, dto.timeout > 0, before.timeout)
                && Took(got.maxRetries, dto.maxRetries, dto.maxRetries > 0, before.maxRetries)
                && Took(after[n].apiKey, dto.apiKey,
                        dto.apiKey != "" && dto.apiKey != "\U{2022}\U{2022}\U{2022}\U{2022}", before.apiKey))
  {
  }

  // ---- Decoding ----

  /** The YAML library's decoding of one value into a field. */
  datatype Lib = Lib(boolOf: Yaml -> Option<bool>, stringOf: Yaml -> Option<string>, intOf: Yaml -> Option<int>)

  /** It reads the three forms that are written, whatever content a node kept. */
  ghost predicate Reads(lib: Lib) {
    && (forall c :: lib.boolOf(Yaml(ScalarNode, "!!bool", "true", c)) == Some(true))
    && (forall c :: lib.boolOf(Yaml(ScalarNode, "!!bool", "false", c)) == Some(false))
    && (forall s, c :: lib.stringOf(Yaml(ScalarNode, "!!str", s, c)) == Some(s))
    && (forall s, c | IsDecimal(s) :: lib.intOf(Yaml(ScalarNode, "!!int", s, c)) == Some(ParseDecimal(s)))
  }

  /** The values under the six keys of a provider. */
  datatype Fields = Fields(
    enabled: Option<Yaml>, baseUrl: Option<Yaml>, apiKey: Option<Yaml>, defaultModel: Option<Yaml>,
    timeout: Option<Yaml>, maxRetries: Option<Yaml>)

  function FieldsOf(content: seq<Yaml>): Fields {
    Fields(Lookup(content, "enabled"), Lookup(content, "base_url"), Lookup(content, "api_key"),
      Lookup(content, "default_model"),
           Lookup(content, "timeout"), Lookup(content, "max_retries"))
  }

  /** A missing key leaves the field at its zero value. */
  function Field<T>(decode: Yaml -> Option<T>, node: Option<Yaml>, zero: T): Option<T> {
    if node.None? then Some(zero) else decode(node.value)
  }

  function DecodeFields(lib: Lib, f: Fields): Option<ProviderConfig> {
    var enabled, timeout, retries := Field(lib.boolOf, f.enabled, false), Field(lib.intOf, f.timeout, 0),
      Field(lib.intOf, f.maxRetries, 0);
    var baseUrl, apiKey, model := Field(lib.stringOf, f.baseUrl, ""), Field(lib.stringOf, f.apiKey, ""),
      Field(lib.stringOf, f.defaultModel, "");
    if enabled.None? || baseUrl.None? || apiKey.None? || model.None? || timeout.None? || retries.None? then None
    else Some(ProviderConfig(enabled.value, baseUrl.value, apiKey.value, model.value, timeout.value, retries.value))
  }

  predicate IsNull(node: Yaml) {
    node.kind == ScalarNode && node.tag == "!!null"
  }

  ghost predicate IsProper(node: Yaml) {
    node.kind == MappingNode && |node.content| % 2 == 0 && Distinct(Keys(node.content))
  }

  /** A null decodes to the zero value; a mapping has to have distinct keys. */
  ghost function DecodeProvider(lib: Lib, node: Yaml): Option<ProviderConfig> {
    if IsNull(node) then Some(ZERO) else if IsProper(node) then DecodeFields(lib, FieldsOf(node.content)) else None
  }

  ghost predicate DecodesEntry(lib: Lib, section: Yaml, providers: map<string, ProviderConfig>, name: string) {
    var node := Lookup(section.content, name);
    if name in providers then node.Some? && DecodeProvider(lib, node.value) == Some(providers[name]) else node.None?
  }

  /** The providers section decodes to this map. */
  ghost predicate DecodesTo(lib: Lib, section: Yaml, providers: map<string, ProviderConfig>) {
    if section.kind == MappingNode then
      IsProper(section) && forall n {:trigger DecodesEntry(lib, section, providers, n)} ::
        DecodesEntry(lib, section, providers, n)
    else IsNull(section) && providers == map[]
  }

  lemma {:induction false} DecodesToOne(lib: Lib, section: Yaml, a: map<string, ProviderConfig>,
                                        b: map<string, ProviderConfig>)
    requires DecodesTo(lib, section, a) && DecodesTo(lib, section, b)
    ensures a == b
  {
    if section.kind == MappingNode {
      forall n ensures (n in a <==> n in b) && (n in a ==> a[n] == b[n]) {
        assert DecodesEntry(lib, section, a, n) && DecodesEntry(lib, section, b, n);
      }
    }
  }

  // ---- Writing and decoding agree ----

  lemma {:induction false} SetProper(m: Yaml, key: string, value: string, tag: string) returns (node: Yaml)
    requires IsProper(m)
    ensures IsProper(SetScalar(m, key, value, tag)) && node == Yaml(ScalarNode, tag, value, node.content)
    ensures Lookup(SetScalar(m, key, value, tag).content, key) == Some(node)
    ensures SetScalar(m, key, value, tag).content == Put(m.content, key, node)
  {
    var was := Lookup(m.content, key);
    node := if was.Some? then was.value.(kind := ScalarNode, tag := tag, value := value)
      else Yaml(ScalarNode, tag, value, []);
    PutEntry(m.content, key, node);
  }

  /** The fields with the one under key replaced. */
  function SetField(f: Fields, key: string, node: Yaml): Fields {
    if key == "enabled" then f.(enabled := Some(node)) else if key == "base_url" then f.(baseUrl := Some(node))
    else if key == "api_key" then f.(apiKey := Some(node))
    else if key == "default_model" then f.(defaultModel := Some(node))
    else if key == "timeout" then f.(timeout := Some(node))
    else if key == "max_retries" then f.(maxRetries := Some(node))
    else f
  }

  lemma {:induction false} LookupPut(content: seq<Yaml>, key: string, node: Yaml, other: string)
    requires |content| % 2 == 0
    ensures Lookup(Put(content, key, node), other) == if other == key then Some(node) else Lookup(content, other)
  {
    if other == key { PutEntry(content, key, node); } else { PutOther(content, key, node, other); }
  }

  lemma {:induction false} FieldsPut(content: seq<Yaml>, key: string, node: Yaml)
    requires |content| % 2 == 0
    ensures FieldsOf(Put(content, key, node)) == SetField(FieldsOf(content), key, node)
  {
    LookupPut(content, key, node, "enabled");
    LookupPut(content, key, node, "base_url");
    LookupPut(content, key, node, "api_key");
    LookupPut(content, key, node, "default_model");
    LookupPut(content, key, node, "timeout");
    LookupPut(content, key, node, "max_retries");
  }

  /** Setting a scalar and decoding is replacing one field before it is decoded. */
  lemma {:induction false} DecodeSet(lib: Lib, m: Yaml, key: string, value: string, tag: string) returns (node: Yaml)
    requires IsProper(m)
    ensures node == Yaml(ScalarNode, tag, value, node.content) && IsProper(SetScalar(m, key, value, tag))
    ensures DecodeProvider(lib, m) == DecodeFields(lib, FieldsOf(m.content))
    ensures DecodeProvider(lib, SetScalar(m, key, value, tag)) ==
            DecodeFields(lib, SetField(FieldsOf(m.content), key, node))
  {
    node := SetProper(m, key, value, tag);
    FieldsPut(m.content, key, node);
  }

  lemma {:induction false} BoolField(lib: Lib, f: Fields, value: bool, node: Yaml)
    requires Reads(lib) && DecodeFields(lib, f).Some? &&
             node == Yaml(ScalarNode, "!!bool", if value then "true" else "false", node.content)
    ensures DecodeFields(lib, SetField(f, "enabled", node)) == Some(DecodeFields(lib, f).value.(enabled := value))
  {
  }

  function WithString(pc: ProviderConfig, key: string, value: string): ProviderConfig {
    if key == "base_url" then pc.(baseUrl := value) else if key == "api_key" then pc.(apiKey := value)
    else pc.(defaultModel := value)
  }

  lemma {:induction false} StringField(lib: Lib, f: Fields, key: string, value: string, node: Yaml)
    requires Reads(lib) && DecodeFields(lib, f).Some? && node == Yaml(ScalarNode, "!!str", value, node.content)
    requires key == "base_url" || key == "api_key" || key == "default_model"
    ensures DecodeFields(lib, SetField(f, key, node)) == Some(WithString(DecodeFields(lib, f).value, key, value))
  {
  }

  function WithInt(pc: ProviderConfig, key: string, value: int): ProviderConfig {
    if key == "timeout" then pc.(timeout := value) else pc.(maxRetries := value)
  }

  lemma {:induction false} IntField(lib: Lib, f: Fields, key: string, value: nat, node: Yaml)
    requires Reads(lib) && DecodeFields(lib, f).Some? && node == Yaml(ScalarNode, "!!int", Decimal(value), node.content)
    requires key == "timeout" || key == "max_retries"
    ensures DecodeFields(lib, SetField(f, key, node)) == Some(WithInt(DecodeFields(lib, f).value, key, value))
  {
    DecimalRoundTrip(value);
  }

  /** What a mapping m decodes to. */
  ghost predicate Means(lib: Lib, m: Yaml, pc: ProviderConfig) {
    IsProper(m) && DecodeProvider(lib, m) == Some(pc)
  }

  lemma {:induction false} BoolSet(lib: Lib, m: Yaml, pc: ProviderConfig, value: bool)
    requires Reads(lib) && Means(lib, m, pc)
    ensures Means(lib, SetBool(m, "enabled", value), pc.(enabled := value))
  {
    var node := DecodeSet(lib, m, "enabled", if value then "true" else "false", "!!bool");
    BoolField(lib, FieldsOf(m.content), value, node);
  }

  lemma {:induction false} StringSet(lib: Lib, m: Yaml, pc: ProviderConfig, key: string, value: string, given: bool)
    requires Reads(lib) && Means(lib, m, pc) && (key == "base_url" || key == "api_key" || key == "default_model")
    ensures Means(lib, SetString(m, key, value, given), if given then WithString(pc, key, value) else pc)
  {
    var node := DecodeSet(lib, m, key, value, "!!str");
    StringField(lib, FieldsOf(m.content), key, value, node);
  }

  lemma {:induction false} IntSet(lib: Lib, m: Yaml, pc: ProviderConfig, key: string, value: int)
    requires Reads(lib) && Means(lib, m, pc) && (key == "timeout" || key == "max_retries")
    ensures Means(lib, SetInt(m, key, value), if value > 0 then WithInt(pc, key, value) else pc)
  {
    if value > 0 {
      var node := DecodeSet(lib, m, key, Decimal(value), "!!int");
      IntField(lib, FieldsOf(m.content), key, value, node);
    }
  }

  /** Writing the settings into a mapping and decoding it is decoding it and updating the value. */
  lemma {:induction false} ApplyAgrees(lib: Lib, m: Yaml, pc: ProviderConfig, dto: ProviderConfig)
    requires Reads(lib) && Means(lib, m, pc)
    ensures Means(lib, ApplyProviderDTO(m, dto), Update(pc, dto))
  {
    BoolSet(lib, m, pc, dto.enabled);
    var m1, c1 := SetBool(m, "enabled", dto.enabled), pc.(enabled := dto.enabled);
    StringSet(lib, m1, c1, "base_url", dto.baseUrl, dto.baseUrl != "");
    var m2, c2 := SetString(m1, "base_url", dto.baseUrl, dto.baseUrl != ""), if dto.baseUrl != "" then
      c1.(baseUrl := dto.baseUrl)
    else c1;
    StringSet(lib, m2, c2, "default_model", dto.defaultModel, dto.defaultModel != "");
    var m3 := SetString(m2, "default_model", dto.defaultModel, dto.defaultModel != "");
    var c3 := if dto.defaultModel != "" then c2.(defaultModel := dto.defaultModel) else c2;
    StringSet(lib, m3, c3, "api_key", dto.apiKey, IsRealKey(dto.apiKey));
    var m4, c4 := SetString(m3, "api_key", dto.apiKey, IsRealKey(dto.apiKey)), if IsRealKey(dto.apiKey) then
      c3.(apiKey := dto.apiKey)
    else c3;
    IntSet(lib, m4, c4, "timeout", dto.timeout);
    var m5, c5 := SetInt(m4, "timeout", dto.timeout), if dto.timeout > 0 then c4.(timeout := dto.timeout) else c4;
    IntSet(lib, m5, c5, "max_retries", dto.maxRetries);
  }

  // ---- The whole section ----

  /** An update reaches the disk if the provider is new or its node is a mapping. */
  predicate CanWrite(section: Yaml, name: string) {
    var entry := Entry(section, name);
    entry.None? || entry.value.kind == MappingNode
  }

  /** The update would leave a provider without settings as it is. */
  predicate IsIdle(dto: ProviderConfig) {
    !dto.enabled && dto.baseUrl == "" && !IsRealKey(dto.apiKey) && dto.defaultModel == "" && dto.timeout <= 0 &&
      dto.maxRetries <= 0
  }

  /** What the file says after the updates of names: those that cannot be written are lost. */
  function Stored(section: Yaml, providers: map<string, ProviderConfig>, names: seq<string>,
                  updates: map<string, ProviderConfig>): map<string, ProviderConfig>
    requires forall n | n in names :: n in updates
  {
    map n | n in providers.Keys + (set x | x in names) ::
      if n in names && CanWrite(section, n) then Update(Get(providers, n), updates[n]) else Get(providers, n)
  }

  lemma {:induction false} AppendIsPut(content: seq<Yaml>, name: string, node: Yaml)
    requires Lookup(content, name).None?
    ensures content + [KeyNode(name), node] == Put(content, name, node)
  {
  }

  lemma {:induction false} AppendedAt(content: seq<Yaml>, name: string, node: Yaml)
    requires Lookup(content, name).None? && |content| % 2 == 0
    ensures KeyAt(Keys(content + [KeyNode(name), node]), name) == |content| / 2
  {
    PutEntry(content, name, node);
    AppendIsPut(content, name, node);
    KeyAtFirst(Keys(content), name);
    KeyAtIs(Keys(content) + [name], name, |content| / 2);
  }

  lemma {:induction false} UpdateAllOne(section: Yaml, names: seq<string>, i: nat, updates: map<string, ProviderConfig>)
    requires i < |names| && forall n | n in names :: n in updates
    ensures UpdateAll(section, names[..i + 1], updates) ==
            UpdateProvider(UpdateAll(section, names[..i], updates), names[i], updates[names[i]])
  {
    assert names[..i + 1][..i] == names[..i];
  }

  /** A node that is no mapping keeps its kind, tag and value: what is written goes into
      content that no one reads. */
  lemma {:induction false} ApplyKeepsNode(node: Yaml, dto: ProviderConfig)
    ensures ApplyProviderDTO(node, dto) == node.(content := ApplyProviderDTO(node, dto).content)
  {
  }

  lemma {:induction false} PutDecodes(lib: Lib, section: Yaml, providers: map<string, ProviderConfig>, name: string,
                                      node: Yaml, pc: ProviderConfig)
    requires section.kind == MappingNode && DecodesTo(lib, section, providers) && DecodeProvider(lib, node) == Some(pc)
    ensures DecodesTo(lib, section.(content := Put(section.content, name, node)), providers[name := pc])
  {
    var section', providers' := section.(content := Put(section.content, name, node)), providers[name := pc];
    PutEntry(section.content, name, node);
    forall n ensures DecodesEntry(lib, section', providers', n) {
      assert DecodesEntry(lib, section, providers, n);
      LookupPut(section.content, name, node, n);
    }
  }

  lemma {:induction false} NewDecodes(lib: Lib)
    ensures NEW_PROVIDER.kind == MappingNode && DecodeProvider(lib, NEW_PROVIDER) == Some(ZERO)
  {
    assert IsProper(NEW_PROVIDER);
  }

  lemma {:induction false} ApplyDecodes(lib: Lib, node: Yaml, pc: ProviderConfig, dto: ProviderConfig)
    requires Reads(lib) && DecodeProvider(lib, node) == Some(pc)
    ensures node.kind != MappingNode ==> pc == ZERO
    ensures DecodeProvider(lib, ApplyProviderDTO(node, dto)) ==
            Some(if node.kind == MappingNode then Update(pc, dto) else pc)
  {
    if node.kind == MappingNode { ApplyAgrees(lib, node, pc, dto); } else { ApplyKeepsNode(node, dto); }
  }

  lemma {:induction false} StepStored(lib: Lib, section: Yaml, providers: map<string, ProviderConfig>, name: string,
                                      dto: ProviderConfig, after: map<string, ProviderConfig>)
    requires Reads(lib) && section.kind == MappingNode && DecodesTo(lib, section, providers)
    requires after == providers[name := if CanWrite(section, name) then Update(Get(providers, name), dto)
             else Get(providers, name)]
    ensures DecodesTo(lib, UpdateProvider(section, name, dto), after)
  {
    var entry := Entry(section, name);
    var node := if entry.Some? then entry.value else NEW_PROVIDER;
    NewDecodes(lib);
    assert DecodesEntry(lib, section, providers, name);
    ApplyDecodes(lib, node, Get(providers, name), dto);
    if entry.None? { AppendIsPut(section.content, name, ApplyProviderDTO(node, dto)); }
    PutDecodes(lib, section, providers, name, ApplyProviderDTO(node, dto), after[name]);
  }

  /** Updates of other providers leave an entry alone. */
  lemma {:induction false} EntryKept(section: Yaml, names: seq<string>, updates: map<string, ProviderConfig>,
                                     name: string)
    requires section.kind == MappingNode && |section.content| % 2 == 0 && (forall n | n in names :: n in updates) &&
             name !in names
    ensures var after := UpdateAll(section, names, updates);
            after.kind == MappingNode && |after.content| % 2 == 0 && Entry(after, name) == Entry(section, name)
  {
    if names != [] {
      var front, last := names[..|names| - 1], names[|names| - 1];
      EntryKept(section, front, updates, name);
      var mid := UpdateAll(section, front, updates);
      var entry := Entry(mid, last);
      var node := ApplyProviderDTO(if entry.Some? then entry.value else NEW_PROVIDER, updates[last]);
      if entry.None? { AppendIsPut(mid.content, last, node); }
      PutEntry(mid.content, last, node);
      PutOther(mid.content, last, node, name);
    }
  }

  lemma {:induction false} StoredOne(section: Yaml, providers: map<string, ProviderConfig>, front: seq<string>,
                                     last: string, updates: map<string, ProviderConfig>)
    requires last !in front && last in updates && forall n | n in front :: n in updates
    ensures Get(Stored(section, providers, front, updates), last) == Get(providers, last)
    ensures Stored(section, providers, front + [last], updates) == Stored(section, providers, front, updates)[
      last := if CanWrite(section, last) then Update(Get(providers, last), updates[last]) else Get(providers, last)]
  {
  }

  /** One more update, of a provider whose entry is still as it was in the original section. */
  lemma {:induction false} NextStored(lib: Lib, section: Yaml, mid: Yaml, providers: map<string, ProviderConfig>,
                                      front: seq<string>, last: string, updates: map<string, ProviderConfig>)
    requires Reads(lib) && last !in front && last in updates && forall n | n in front :: n in updates
    requires section.kind == mid.kind == MappingNode && Entry(mid, last) == Entry(section, last)
    requires DecodesTo(lib, mid, Stored(section, providers, front, updates))
    ensures DecodesTo(lib, UpdateProvider(mid, last, updates[last]),
            Stored(section, providers, front + [last], updates))
  {
    StoredOne(section, providers, front, last, updates);
    StepStored(lib, mid, Stored(section, providers, front, updates), last, updates[last],
      Stored(section, providers, front + [last], updates));
  }

  lemma {:induction false} AllStored(lib: Lib, section: Yaml, providers: map<string, ProviderConfig>,
                                     names: seq<string>, updates: map<string, ProviderConfig>)
    requires Reads(lib) && section.kind == MappingNode && |section.content| % 2 == 0 &&
             DecodesTo(lib, section, providers)
    requires Distinct(names) && forall n | n in names :: n in updates
    ensures DecodesTo(lib, UpdateAll(section, names, updates), Stored(section, providers, names, updates))
  {
    if names == [] {
      assert Stored(section, providers, names, updates) == providers;
    } else {
      var front, last := names[..|names| - 1], names[|names| - 1];
      assert names == front + [last];
      AllStored(lib, section, providers, front, updates);
      EntryKept(section, front, updates, last);
      NextStored(lib, section, UpdateAll(section, front, updates), providers, front, last, updates);
    }
  }

  lemma {:induction false} NotMappingStays(section: Yaml, names: seq<string>, updates: map<string, ProviderConfig>)
    requires section.kind != MappingNode && forall n | n in names :: n in updates
    ensures UpdateAll(section, names, updates) == section.(content := UpdateAll(section, names, updates).content)
  {
    if names != [] {
      NotMappingStays(section, names[..|names| - 1], updates);
    }
  }

  /** Every update can be written, or makes no difference. */
  ghost predicate Storable(section: Yaml, updates: map<string, ProviderConfig>) {
    (section.kind == MappingNode || updates == map[]) && forall n | n in updates ::
      CanWrite(section, n) || IsIdle(updates[n])
  }

  lemma {:induction false} StoredIsUpdated(lib: Lib, section: Yaml, providers: map<string, ProviderConfig>,
                                           names: seq<string>, updates: map<string, ProviderConfig>)
    requires section.kind == MappingNode && DecodesTo(lib, section, providers) && ListsOnce(names, updates.Keys)
    ensures Stored(section, providers, names, updates) == Updated(providers, updates) <==> Storable(section, updates)
  {
    var stored, updated := Stored(section, providers, names, updates), Updated(providers, updates);
    assert stored.Keys == updated.Keys;
    forall n | n in updates ensures stored[n] == updated[n] <==> CanWrite(section, n) || IsIdle(updates[n]) {
      assert DecodesEntry(lib, section, providers, n);
      if !CanWrite(section, n) {
        assert providers[n] == ZERO;
        assert Update(ZERO, updates[n]) == ZERO <==> IsIdle(updates[n]);
      }
    }
    if Storable(section, updates) {
      forall n | n in stored ensures stored[n] == updated[n] {
        if n in updates { assert CanWrite(section, n) || IsIdle(updates[n]); }
      }
    } else {
      var n :| n in updates && !(CanWrite(section, n) || IsIdle(updates[n]));
      assert stored[n] != updated[n];
    }
  }

  /** Updating the file's nodes and decoding agrees with decoding and updating in memory, in
      whatever order the request's map is iterated, exactly if the section is a mapping and so
      is every updated provider that the file has; an update of a provider written as null is
      lost on disk. */
  lemma {:induction false} DiskAgreesIff(lib: Lib, section: Yaml, providers: map<string, ProviderConfig>,
                                         names: seq<string>, updates: map<string, ProviderConfig>)
    requires Reads(lib) && DecodesTo(lib, section, providers) && ListsOnce(names, updates.Keys)
    ensures DecodesTo(lib, UpdateAll(section, names, updates), Updated(providers, updates)) <==>
            Storable(section, updates)
  {
    var after, updated := UpdateAll(section, names, updates), Updated(providers, updates);
    if section.kind == MappingNode {
      AllStored(lib, section, providers, names, updates);
      StoredIsUpdated(lib, section, providers, names, updates);
      if DecodesTo(lib, after, updated) {
        DecodesToOne(lib, after, updated, Stored(section, providers, names, updates));
      }
    } else {
      NotMappingStays(section, names, updates);
      assert updates.Keys <= updated.Keys;
      assert updates != map[] ==> updated != map[];
    }
  }

  // ---- What stays in place ----

  predicate IsField(key: string) {
    key == "enabled" || key == "base_url" || key == "api_key" || key == "default_model" || key == "timeout" ||
      key == "max_retries"
  }

  ghost predicate SameAt(before: seq<Yaml>, after: seq<Yaml>, i: nat, mayChange: string -> bool)
    requires i < |before| <= |after|
  {
    after[i] == before[i] || (i % 2 == 1 && mayChange(before[i - 1].value))
  }

  /** Nodes stay where they are, apart from the values of keys that may change, and new
      entries come last. */
  ghost predicate InPlace(before: seq<Yaml>, after: seq<Yaml>, mayChange: string -> bool) {
    && |before| <= |after| && |after| % 2 == 0
    && forall i {:trigger SameAt(before, after, i, mayChange)} | 0 <= i < |before| ::
       SameAt(before, after, i, mayChange)
  }

  lemma {:induction false} PutInPlace(before: seq<Yaml>, mid: seq<Yaml>, key: string, node: Yaml,
                                      mayChange: string -> bool)
    requires InPlace(before, mid, mayChange) && mayChange(key)
    ensures InPlace(before, Put(mid, key, node), mayChange)
  {
    var after, k := Put(mid, key, node), KeyAt(Keys(mid), key);
    PutEntry(mid, key, node);
    KeyAtFirst(Keys(mid), key);
    forall i | 0 <= i < |before| ensures SameAt(before, after, i, mayChange) {
      assert SameAt(before, mid, i, mayChange);
      if i == 2 * k + 1 {
        assert SameAt(before, mid, i - 1, mayChange);
      }
    }
  }

  lemma {:induction false} SetInPlace(before: seq<Yaml>, m: Yaml, key: string, value: string, tag: string)
    requires InPlace(before, m.content, IsField) && IsField(key)
    ensures InPlace(before, SetScalar(m, key, value, tag).content, IsField)
  {
    var was := Lookup(m.content, key);
    PutInPlace(before, m.content, key,
      if was.Some? then was.value.(kind := ScalarNode, tag := tag, value := value)
      else Yaml(ScalarNode, tag, value, []), IsField);
  }

  /** In a provider's mapping only the six settings change, and new ones come last. */
  lemma {:induction false} ApplyInPlace(m: Yaml, dto: ProviderConfig)
    requires |m.content| % 2 == 0
    ensures InPlace(m.content, ApplyProviderDTO(m, dto).content, IsField)
  {
    var m1 := SetBool(m, "enabled", dto.enabled);
    SetInPlace(m.content, m, "enabled", if dto.enabled then "true" else "false", "!!bool");
    var m2 := SetString(m1, "base_url", dto.baseUrl, dto.baseUrl != "");
    SetInPlace(m.content, m1, "base_url", dto.baseUrl, "!!str");
    var m3 := SetString(m2, "default_model", dto.defaultModel, dto.defaultModel != "");
    SetInPlace(m.content, m2, "default_model", dto.defaultModel, "!!str");
    var m4 := SetString(m3, "api_key", dto.apiKey, IsRealKey(dto.apiKey));
    SetInPlace(m.content, m3, "api_key", dto.apiKey, "!!str");
    var m5 := SetInt(m4, "timeout", dto.timeout);
    if dto.timeout > 0 { SetInPlace(m.content, m4, "timeout", Decimal(dto.timeout), "!!int"); }
    if dto.maxRetries > 0 { SetInPlace(m.content, m5, "max_retries", Decimal(dto.maxRetries), "!!int"); }
  }

  /** In the providers section only the updated providers' nodes change. */
  lemma {:induction false} UpdateInPlace(section: Yaml, names: seq<string>, updates: map<string, ProviderConfig>,
                                         mayChange: string -> bool)
    requires section.kind == MappingNode && |section.content| % 2 == 0
    requires forall n | n in names :: n in updates && mayChange(n)
    ensures InPlace(section.content, UpdateAll(section, names, updates).content, mayChange)
    ensures UpdateAll(section, names, updates).kind == MappingNode
  {
    if names != [] {
      var front, last := names[..|names| - 1], names[|names| - 1];
      UpdateInPlace(section, front, updates, mayChange);
      var mid := UpdateAll(section, front, updates);
      var entry := Entry(mid, last);
      var node := ApplyProviderDTO(if entry.Some? then entry.value else NEW_PROVIDER, updates[last]);
      if entry.None? { AppendIsPut(mid.content, last, node); }
      PutInPlace(section.content, mid.content, last, node, mayChange);
    }
  }
}
