/** The thinking cache (internal/thinkingcache/cache.go): an assistant turn's reasoning is kept
    under a fingerprint of the messages before it, and put back when they come again. */
module ThinkingCache {
  import opened Text

  datatype Json =
    | Null
    | Bool(b: bool)
    | Num(digits: string)
    | Str(s: string)
    | Arr(items: seq<Json>)
    | Obj(fields: map<string, Json>)

  function TextOf(v: Json): string {
    if v.Str? then v.s else ""
  }

  function Field(m: map<string, Json>, k: string): Json {
    if k in m then m[k] else Null
  }

  function Word(v: Json): string {
    LowerText(TrimSpace(TextOf(v)))
  }

  function Role(m: map<string, Json>): string {
    Word(Field(m, "role"))
  }

  const REASONING := "reasoning_content"

  predicate HiddenField(k: string) {
    LowerText(TrimSpace(k)) in ["reasoning", REASONING, "thinking", "thinking_content"]
  }

  // The fingerprint.

  function NormalBlock(m: map<string, Json>, blockType: string): Json {
    Obj(
      if blockType == "text" then map["type" := Str("text"), "text" := Field(m, "text")]
      else if blockType == "tool_use" then
        map["type" := Str("tool_use"), "id" := Field(m, "id"), "name" := Field(m, "name"), "input" := Field(m, "input")]
      else if blockType == "tool_result" then
        map["type" := Str("tool_result"), "tool_use_id" := Field(m, "tool_use_id"), "content" := Field(m, "content")]
      else map["type" := Str(blockType)])
  }

  function NormalItems(items: seq<Json>): seq<Json> {
    if items == [] then []
    else
      (if !items[0].Obj? then [items[0]]
       else
         var blockType := Word(Field(items[0].fields, "type"));
         if blockType == "reasoning" || blockType == "thinking" then [] else [NormalBlock(items[0].fields, blockType)])
      + NormalItems(items[1..])
  }

  function NormalContent(v: Json): Json {
    if v.Arr? then Arr(NormalItems(v.items)) else v
  }

  function NormalMessage(m: map<string, Json>): Json {
    Obj(map k | k in m && !HiddenField(k) :: if k == "content" then NormalContent(m[k]) else m[k])
  }

  /** What the fingerprint is taken of. */
  function Normalize(messages: seq<Json>): seq<Json> {
    if messages == [] then []
    else
      (if messages[0].Obj? && Role(messages[0].fields) != "system" then [NormalMessage(messages[0].fields)] else [])
      + Normalize(messages[1..])
  }

  /** The hash of the model and the normal form; an empty key stands for a failure to encode. */
  type Hash = (string, seq<Json>) -> string

  function KeyFor(hash: Hash, messages: seq<Json>, model: string): string {
    hash(TrimSpace(model), Normalize(messages))
  }

  // The cache. Times are numbers, 0 is the unset time.

  datatype Entry = Entry(thinking: string, created: int, expires: int)

  const TTL := 120 * 60

  /** What the file system refuses during a call. */
  datatype Faults = Faults(
    indexReadable: bool, dirWritable: bool, dataWritable: bool, indexWritable: bool,
    readable: string -> bool, removable: string -> bool)

  predicate Alive(e: Entry, now: int) {
    e.expires == 0 || now < e.expires
  }

  function Loaded(index: map<string, Entry>, f: Faults): map<string, Entry> {
    if f.indexReadable then index else map[]
  }

  function Live(index: map<string, Entry>, now: int): map<string, Entry> {
    map k | k in index && Alive(index[k], now) :: index[k]
  }

  function WithoutData(data: map<string, string>, gone: set<string>, f: Faults): map<string, string> {
    map k | k in data && !(k in gone && f.removable(k)) :: data[k]
  }

  /** What a lookup goes by. */
  datatype Lookup = Lookup(index: map<string, Entry>, data: map<string, string>, readable: string -> bool, now: int)

  /** `readThinkingLocked`: empty if there is nothing to restore. */
  function Cached(l: Lookup, key: string): string {
    if key !in l.index || l.now > l.index[key].expires then ""
    else if TrimSpace(l.index[key].thinking) != "" then TrimSpace(l.index[key].thinking)
    else if l.readable(key) && key in l.data then TrimSpace(l.data[key])
    else ""
  }

  lemma CachedIsTrimmed(l: Lookup, key: string)
    ensures TrimSpace(Cached(l, key)) == Cached(l, key)
  {
    hide TrimSpace;
    EmptyTrims();
    if key in l.index {
      TrimTwice(l.index[key].thinking);
    }
    if key in l.data {
      TrimTwice(l.data[key]);
    }
  }

  /** The cached reasoning for the message at `i`. */
  function For(hash: Hash, l: Lookup, messages: seq<Json>, model: string, i: nat): string
    requires i < |messages|
  {
    if !messages[i].Obj? || Role(messages[i].fields) != "assistant" then ""
    else
      var key := KeyFor(hash, messages[..i], model);
      if key == "" then "" else Cached(l, key)
  }

  function WithReasoning(message: Json, cached: string): Json
    requires message.Obj?
  {
    if TrimSpace(cached) == "" || TrimSpace(TextOf(Field(message.fields, REASONING))) == cached then message
    else Obj(message.fields[REASONING := Str(cached)])
  }

  function Restored(hash: Hash, l: Lookup, messages: seq<Json>, model: string, i: nat): Json
    requires i < |messages|
  {
    if messages[i].Obj? then WithReasoning(messages[i], For(hash, l, messages, model, i)) else messages[i]
  }

  function Applied(hash: Hash, l: Lookup, messages: seq<Json>, model: string): seq<Json> {
    seq(|messages|, i requires 0 <= i < |messages| => Restored(hash, l, messages, model, i))
  }

  // The loops as they run.

  lemma NextItem(items: seq<Json>, i: nat)
    requires i < |items|
    ensures NormalItems(items[i..]) ==
      (if !items[i].Obj? then [items[i]]
       else
         var blockType := Word(Field(items[i].fields, "type"));
         if blockType == "reasoning" || blockType == "thinking" then [] else [NormalBlock(items[i].fields, blockType)])
      + NormalItems(items[i + 1..])
  {
    hide NormalBlock, Word;
    assert items[i..][1..] == items[i + 1..];
  }

  lemma NoItems(items: seq<Json>)
    requires items == []
    ensures NormalItems(items) == []
  {
  }

  method NormalizeContentForFingerprint(v: Json) returns (r: Json)
    ensures r == NormalContent(v)
  {
    hide NormalItems, NormalBlock, Word;
    if !v.Arr? {
      return v;
    }
    var out: seq<Json> := [];
    assert v.items[0..] == v.items;
    for i := 0 to |v.items|
      invariant NormalItems(v.items) == out + NormalItems(v.items[i..])
    {
      NextItem(v.items, i);
      var item := v.items[i];
      if !item.Obj? {
        out := out + [item];
        continue;
      }
      var blockType := Word(Field(item.fields, "type"));
      if blockType == "reasoning" || blockType == "thinking" {
        continue;
      }
      out := out + [NormalBlock(item.fields, blockType)];
    }
    NoItems(v.items[|v.items|..]);
    return Arr(out);
  }

  lemma NextMessage(messages: seq<Json>, i: nat)
    requires i < |messages|
    ensures Normalize(messages[i..]) ==
      (if messages[i].Obj? && Role(messages[i].fields) != "system" then [NormalMessage(messages[i].fields)] else [])
      + Normalize(messages[i + 1..])
  {
    hide NormalMessage, Role;
    assert messages[i..][1..] == messages[i + 1..];
  }

  lemma NoMessages(messages: seq<Json>)
    requires messages == []
    ensures Normalize(messages) == []
  {
  }

  method NormalizeForFingerprint(messages: seq<Json>) returns (out: seq<Json>)
    ensures out == Normalize(messages)
  {
    hide NormalMessage, Role, Normalize;
    out := [];
    assert messages[0..] == messages;
    for i := 0 to |messages|
      invariant Normalize(messages) == out + Normalize(messages[i..])
    {
      NextMessage(messages, i);
      var item := messages[i];
      if !item.Obj? || Role(item.fields) == "system" {
        continue;
      }
      out := out + [NormalMessage(item.fields)];
    }
    NoMessages(messages[|messages|..]);
  }

  /** When an entry came in; the eviction order. */
  function Order(e: Entry): int {
    if e.created == 0 then e.expires else e.created
  }

  ghost predicate OldestFirst(keys: seq<string>, index: map<string, Entry>) {
    forall i, j :: 0 <= i < j < |keys| && keys[i] in index && keys[j] in index ==>
      Order(index[keys[i]]) <= Order(index[keys[j]])
  }

  /** `keys` names the entries of `index`, each once. */
  ghost predicate Names(keys: seq<string>, index: map<string, Entry>) {
    && (forall i :: 0 <= i < |keys| ==> keys[i] in index)
    && (forall k :: k in index ==> k in keys)
    && (forall i, j :: 0 <= i < j < |keys| ==> keys[i] != keys[j])
  }

  /** What an eviction leaves: as many entries as allowed, unchanged, and none that goes is newer
      than one that stays. */
  ghost predicate Evicted(index: map<string, Entry>, left: map<string, Entry>, limit: int) {
    && left.Keys <= index.Keys && (forall k :: k in left ==> left[k] == index[k])
    && |left| == (if limit <= 0 || |index| <= limit then |index| else limit)
    && forall gone, kept :: gone in index && gone !in left && kept in left ==> Order(index[gone]) <= Order(index[kept])
  }

  /** Insertion of one more key into the list sorted by age; among equals any place will do. */
  method InsertByAge(keys: seq<string>, index: map<string, Entry>, k: string) returns (r: seq<string>)
    requires k in index && k !in keys
    requires forall i :: 0 <= i < |keys| ==> keys[i] in index
    requires OldestFirst(keys, index) && forall i, j :: 0 <= i < j < |keys| ==> keys[i] != keys[j]
    ensures OldestFirst(r, index) && forall i, j :: 0 <= i < j < |r| ==> r[i] != r[j]
    ensures forall x :: x in r <==> x in keys || x == k
  {
    var n := 0;
    while n < |keys| && Order(index[keys[n]]) < Order(index[k])
      invariant 0 <= n <= |keys|
      invariant forall i :: 0 <= i < n ==> Order(index[keys[i]]) < Order(index[k])
    {
      n := n + 1;
    }
    r := keys[..n] + [k] + keys[n..];
    assert forall x :: x in keys ==> x in keys[..n] || x in keys[n..];
  }

  method SortByAge(index: map<string, Entry>) returns (keys: seq<string>)
    ensures Names(keys, index) && OldestFirst(keys, index) && |keys| == |index|
  {
    keys := [];
    var left := index.Keys;
    while left != {}
      invariant left <= index.Keys
      invariant forall x :: x in keys <==> x in index && x !in left
      invariant OldestFirst(keys, index) && forall i, j :: 0 <= i < j < |keys| ==> keys[i] != keys[j]
      decreases left
    {
      var k :| k in left;
      assert forall i :: 0 <= i < |keys| ==> keys[i] in keys;
      keys := InsertByAge(keys, index, k);
      left := left - {k};
    }
    assert forall i :: 0 <= i < |keys| ==> keys[i] in keys;
    CountNames(keys, index);
  }

  lemma {:induction false} DistinctCount(keys: seq<string>)
    requires forall i, j :: 0 <= i < j < |keys| ==> keys[i] != keys[j]
    ensures |set x | x in keys| == |keys|
  {
    if keys != [] {
      var n := |keys| - 1;
      DistinctCount(keys[..n]);
      assert (set x | x in keys) == (set x | x in keys[..n]) + {keys[n]};
      assert keys[n] !in (set x | x in keys[..n]);
    }
  }

  lemma CountNames(keys: seq<string>, index: map<string, Entry>)
    requires Names(keys, index)
    ensures |keys| == |index|
  {
    DistinctCount(keys);
    assert (set x | x in keys) == index.Keys by {
      assert forall i :: 0 <= i < |keys| ==> keys[i] in index;
    }
  }

  class Cache {
    var index: map<string, Entry>
    var data: map<string, string>

    constructor ()
      ensures index == map[] && data == map[]
    {
      index, data := map[], map[];
    }

    /** `pruneOverflowLocked`: the oldest entries go, with their data. */
    method PruneOverflow(given: map<string, Entry>, limit: int, f: Faults) returns (left: map<string, Entry>)
      modifies `data
      ensures Evicted(given, left, limit)
      ensures data == WithoutData(old(data), given.Keys - left.Keys, f)
    {
      left := given;
      if limit <= 0 || |given| <= limit {
        NothingGone(data, given, f);
        return;
      }
      var items := SortByAge(given);
      NothingGone(data, given, f);
      var i := 0;
      while |items| - i > limit
        invariant 0 <= i <= |items| - limit
        invariant Names(items, given) && OldestFirst(items, given) && |items| == |given|
        invariant Suffix(items, i, given, left)
        invariant data == WithoutData(old(data), given.Keys - left.Keys, f)
      {
        var victim := items[i];
        Dropping(items, i, given, left);
        OneMoreGone(old(data), given.Keys - left.Keys, victim, f);
        left := left - {victim};
        if f.removable(victim) {
          data := data - {victim};
        }
        i := i + 1;
      }
      SuffixIsEvicted(items, i, given, left, limit);
    }

    /** `Store`: a new entry for the messages, living for two hours. Data is pruned and written
        before the index, so a failure in between leaves data without an entry. */
    method Store(hash: Hash, f: Faults, now: int, limit: int, messages: seq<Json>, model: string, text: string)
      returns (stored: bool, ghost left: map<string, Entry>)
      modifies this
      ensures var thinking := TrimSpace(text);
        var key := KeyFor(hash, messages, model);
        var before := Live(Loaded(old(index), f), now);
        var grown := before[key := Entry("", now, now + TTL)];
        var pruned := WithoutData(old(data), Loaded(old(index), f).Keys - before.Keys, f);
        if messages == [] || thinking == "" || key == "" then !stored && index == old(index) && data == old(data)
        else if !f.dirWritable || !f.dataWritable then !stored && index == old(index) && data == pruned
        else
          && Evicted(grown, left, limit)
          && data == WithoutData(pruned[key := thinking], grown.Keys - left.Keys, f)
          && stored == f.indexWritable && index == (if f.indexWritable then left else old(index))
    {
      hide TrimSpace, Normalize, Evicted;
      stored, left := false, map[];
      var thinking := TrimSpace(text);
      if messages == [] || thinking == "" {
        return;
      }
      var key := KeyFor(hash, messages, model);
      if key == "" {
        return;
      }
      var loaded := Loaded(index, f);
      var live := Live(loaded, now);
      data := WithoutData(data, loaded.Keys - live.Keys, f);
      if !f.dirWritable || !f.dataWritable {
        return;
      }
      data := data[key := thinking];
      var grown := live[key := Entry("", now, now + TTL)];
      var kept := PruneOverflow(grown, limit, f);
      left := kept;
      if f.indexWritable {
        index := kept;
        stored := true;
      }
    }

    /** `Apply`: reasoning put back where the cache knows it; expired data is removed. */
    method Apply(hash: Hash, f: Faults, now: int, messages: seq<Json>, model: string)
      returns (out: seq<Json>, changed: bool)
      modifies `data
      ensures var live := Live(Loaded(index, f), now);
        && (messages != [] ==> data == WithoutData(old(data), Loaded(index, f).Keys - live.Keys, f))
        && (messages == [] ==> data == old(data))
        && out == Applied(hash, Lookup(live, data, f.readable, now), messages, model)
      ensures changed <==> out != messages
    {
      hide Cached, WithoutData, Live, KeyFor, Role, TrimSpace;
      out, changed := messages, false;
      if messages == [] {
        assert forall l :: Applied(hash, l, messages, model) == [];
        return;
      }
      var loaded := Loaded(index, f);
      var live := Live(loaded, now);
      data := WithoutData(data, loaded.Keys - live.Keys, f);
      var l := Lookup(live, data, f.readable, now);
      for i := 0 to |messages|
        invariant |out| == |messages| && data == l.data
        invariant forall j :: 0 <= j < i ==> out[j] == Restored(hash, l, messages, model, j)
        invariant forall j :: i <= j < |messages| ==> out[j] == messages[j]
        invariant changed <==> out != messages
      {
        var item := messages[i];
        EmptyTrims();
        if !item.Obj? || Role(item.fields) != "assistant" {
          continue;
        }
        var key := KeyFor(hash, messages[..i], model);
        if key == "" {
          continue;
        }
        var cached := Cached(l, key);
        if TrimSpace(cached) == "" {
          continue;
        }
        var existing := TrimSpace(TextOf(Field(item.fields, REASONING)));
        if existing == cached {
          continue;
        }
        CachedIsTrimmed(l, key);
        ReasoningDiffers(item, cached);
        out := out[i := Obj(item.fields[REASONING := Str(cached)])];
        assert out[i] != messages[i];
        changed := true;
      }
    }
  }

  lemma ReasoningDiffers(item: Json, cached: string)
    requires item.Obj? && TrimSpace(cached) == cached && TrimSpace(TextOf(Field(item.fields, REASONING))) != cached
    ensures Obj(item.fields[REASONING := Str(cached)]) != item
  {
    hide TrimSpace;
    assert Field(item.fields[REASONING := Str(cached)], REASONING) == Str(cached);
  }

  lemma NothingGone(data: map<string, string>, given: map<string, Entry>, f: Faults)
    ensures WithoutData(data, given.Keys - given.Keys, f) == data
  {
  }

  /** Eviction half done: all but the `i` oldest entries are left. */
  ghost predicate Suffix(keys: seq<string>, i: nat, given: map<string, Entry>, left: map<string, Entry>) {
    && i <= |keys| && Names(keys, given) && |left| == |keys| - i
    && (forall k :: k in left <==> k in given && k !in keys[..i]) && (forall k :: k in left ==> left[k] == given[k])
  }

  lemma {:induction false} Dropping(keys: seq<string>, i: nat, given: map<string, Entry>, left: map<string, Entry>)
    requires Suffix(keys, i, given, left) && i < |keys|
    ensures Suffix(keys, i + 1, given, left - {keys[i]})
    ensures given.Keys - (left - {keys[i]}).Keys == (given.Keys - left.Keys) + {keys[i]}
  {
    hide Names;
    var k := keys[i];
    NotBefore(keys, i, given);
    OneLonger(keys, i);
    assert (left - {k}).Keys == left.Keys - {k};
  }

  lemma NotBefore(keys: seq<string>, i: nat, given: map<string, Entry>)
    requires Names(keys, given) && i < |keys|
    ensures keys[i] in given && keys[i] !in keys[..i]
  {
  }

  lemma OneLonger(keys: seq<string>, i: nat)
    requires i < |keys|
    ensures forall k :: k in keys[..i + 1] <==> k in keys[..i] || k == keys[i]
  {
    assert keys[..i + 1] == keys[..i] + [keys[i]];
  }

  lemma OneMoreGone(data: map<string, string>, gone: set<string>, k: string, f: Faults)
    ensures WithoutData(data, gone + {k}, f)
         == if f.removable(k) then WithoutData(data, gone, f) - {k} else WithoutData(data, gone, f)
  {
  }

  lemma SuffixIsEvicted(keys: seq<string>, i: nat, given: map<string, Entry>, left: map<string, Entry>, limit: int)
    requires Suffix(keys, i, given, left) && OldestFirst(keys, given)
    requires 0 < limit < |given| && |keys| - i == limit
    ensures Evicted(given, left, limit)
  {
    hide OldestFirst, Order;
    forall gone, kept | gone in given && gone !in left && kept in left
      ensures Order(given[gone]) <= Order(given[kept])
    {
      OlderGone(keys, i, given, gone, kept);
    }
  }

  lemma OlderGone(keys: seq<string>, i: nat, given: map<string, Entry>, gone: string, kept: string)
    requires i <= |keys| && Names(keys, given) && OldestFirst(keys, given)
    requires gone in keys[..i] && kept in given && kept !in keys[..i]
    ensures gone in given && Order(given[gone]) <= Order(given[kept])
  {
    hide Order;
    var m :| 0 <= m < i && keys[..i][m] == gone;
    assert keys[m] == gone;
    var n :| 0 <= n < |keys| && keys[n] == kept;
    forall j | 0 <= j < i ensures keys[j] in keys[..i] {
      assert keys[..i][j] == keys[j];
    }
  }
}
