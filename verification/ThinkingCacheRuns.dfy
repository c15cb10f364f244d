/** The thinking cache over whole runs: what was stored for a conversation is restored in it. */
module ThinkingCacheRuns {
  import opened Sets
  import opened Text
  import opened ThinkingCache
  import opened ThinkingCacheKeys

  /** The entries that came in after this one, and those that came in with it or after it. */
  function After(index: map<string, Entry>, e: Entry): set<string> {
    set k | k in index && Order(index[k]) > Order(e)
  }

  function NotBefore(index: map<string, Entry>, e: Entry): set<string> {
    set k | k in index && Order(index[k]) >= Order(e)
  }

  /** An entry that stays has fewer later ones than the limit; one with at most as many that are not
      earlier, itself included, stays. */
  lemma KeptWithin(index: map<string, Entry>, left: map<string, Entry>, limit: int, key: string)
    requires Evicted(index, left, limit) && key in index && limit > 0
    ensures key in left ==> |After(index, index[key])| < limit
    ensures |NotBefore(index, index[key])| <= limit ==> key in left
  {
    hide Order;
    var after, others := After(index, index[key]), NotBefore(index, index[key]);
    if |index| <= limit {
      SubsetSize(left.Keys, index.Keys);
      assert key !in after && after <= index.Keys - {key};
      SubsetSize(after, index.Keys - {key});
    } else if key in left {
      forall k | k in after ensures k in left.Keys - {key} {
      }
      SubsetSize(after, left.Keys - {key});
    } else if |others| <= limit {
      forall k | k in left ensures k in others - {key} {
      }
      SubsetSize(left.Keys, others - {key});
    }
  }

  /** Eviction keeps an entry that is newer than all others. */
  lemma NewestIsKept(index: map<string, Entry>, left: map<string, Entry>, limit: int, key: string)
    requires Evicted(index, left, limit) && key in index
    requires forall k :: k in index && k != key ==> Order(index[k]) < Order(index[key])
    ensures key in left
  {
    hide Order;
    if limit <= 0 || |index| <= limit {
      assert |left.Keys| == |index.Keys|;
      SubsetSize(left.Keys, index.Keys);
    } else {
      assert left.Keys != {};
      var kept :| kept in left;
      assert kept != key ==> Order(index[kept]) < Order(index[key]);
    }
  }

  /** Reasoning stored at time `t` and not evicted is put back, up to two hours later, after any
      conversation with the fingerprint it was stored under. */
  lemma StoredIsRestored(hash: Hash, f: Faults, index: map<string, Entry>, data: map<string, string>, t: int, now: int,
                         stored: seq<Json>, model: string, text: string, messages: seq<Json>, i: nat)
    requires var key := KeyFor(hash, stored, model);
      && key != "" && key in index && index[key] == Entry("", t, t + TTL)
      && key in data && data[key] == TrimSpace(text) != "" && f.readable(key)
    requires now < t + TTL
    requires i < |messages| && messages[i].Obj? && Role(messages[i].fields) == "assistant"
    requires Normalize(messages[..i]) == Normalize(stored)
    ensures var l := Lookup(Live(index, now), data, f.readable, now);
      var out := Applied(hash, l, messages, model);
      out[i].Obj? && TrimSpace(TextOf(Field(out[i].fields, REASONING))) == TrimSpace(text)
  {
    hide TrimSpace, Normalize, Role;
    var key := KeyFor(hash, stored, model);
    var l := Lookup(Live(index, now), data, f.readable, now);
    EmptyTrims();
    TrimTwice(text);
    assert key in l.index && Cached(l, key) == TrimSpace(text);
    assert For(hash, l, messages, model, i) == TrimSpace(text);
  }

  /** The same for every conversation that has one key with it. */
  lemma RestoredForSameConversation(hash: Hash, f: Faults, index: map<string, Entry>, data: map<string, string>,
                                    t: int, now: int,
                                    stored: seq<Json>, model: string, text: string, messages: seq<Json>, i: nat)
    requires var key := KeyFor(hash, stored, model);
      && key != "" && key in index && index[key] == Entry("", t, t + TTL)
      && key in data && data[key] == TrimSpace(text) != "" && f.readable(key)
    requires now < t + TTL
    requires i < |messages| && messages[i].Obj? && Role(messages[i].fields) == "assistant"
    requires SameConversation(Stripped(messages[..i]), Stripped(stored))
    ensures var l := Lookup(Live(index, now), data, f.readable, now);
      var out := Applied(hash, l, messages, model);
      out[i].Obj? && TrimSpace(TextOf(Field(out[i].fields, REASONING))) == TrimSpace(text)
  {
    hide TrimSpace, Normalize, Role, Stripped, Applied, SameConversation;
    NormalAgreesIff(messages[..i], stored);
    StoredIsRestored(hash, f, index, data, t, now, stored, model, text, messages, i);
  }

  /** The cache remembers this reasoning since `t`. */
  ghost predicate Remembers(index: map<string, Entry>, data: map<string, string>, key: string, t: int, thinking: string)
  {
    key in index && index[key] == Entry("", t, t + TTL) && key in data && data[key] == thinking
  }

  /** A use of the cache by some request. */
  datatype Use =
    | Storing(f: Faults, now: int, limit: int, messages: seq<Json>, model: string, text: string)
    | Applying(f: Faults, now: int, messages: seq<Json>, model: string)

  /** A store that gets as far as writing its data. */
  predicate Writes(hash: Hash, u: Use) {
    && u.Storing? && u.messages != [] && TrimSpace(u.text) != "" && KeyFor(hash, u.messages, u.model) != ""
    && u.f.dirWritable && u.f.dataWritable
  }

  function NewEntry(now: int): Entry {
    Entry("", now, now + TTL)
  }

  /** The keys these uses write at `t` or later. */
  function Written(hash: Hash, uses: seq<Use>, t: int): set<string> {
    set i | 0 <= i < |uses| && Writes(hash, uses[i]) && Order(NewEntry(uses[i].now)) >= Order(NewEntry(t))
      :: KeyFor(hash, uses[i].messages, uses[i].model)
  }

  /** A use before the entry expires that does not overwrite it, does not replace an index it could
      not read, and keeps as many entries as are written at `t` or later. */
  predicate Spares(hash: Hash, key: string, t: int, recent: set<string>, u: Use) {
    && u.now < t + TTL
    && (Writes(hash, u) ==>
          && KeyFor(hash, u.messages, u.model) != key && (u.f.indexWritable ==> u.f.indexReadable)
          && (u.limit <= 0 || |recent| <= u.limit))
  }

  predicate AllSpare(hash: Hash, key: string, t: int, recent: set<string>, uses: seq<Use>) {
    forall i :: 0 <= i < |uses| ==> Spares(hash, key, t, recent, uses[i])
  }

  /** The cache remembers this reasoning since `t`, and whatever came in since is among `recent`. */
  ghost predicate Safe(cache: Cache, key: string, t: int, thinking: string, recent: set<string>)
    reads cache
  {
    Remembers(cache.index, cache.data, key, t, thinking) && NotBefore(cache.index, NewEntry(t)) <= recent
  }

  lemma PruningSpares(index: map<string, Entry>, data: map<string, string>, key: string, t: int, thinking: string,
                      now: int, f: Faults)
    requires Remembers(index, data, key, t, thinking) && now < t + TTL
    ensures var gone := Loaded(index, f).Keys - Live(Loaded(index, f), now).Keys;
      Remembers(index, WithoutData(data, gone, f), key, t, thinking)
  {
  }

  lemma LiveIsPart(index: map<string, Entry>, now: int)
    ensures forall k :: k in Live(index, now) ==> k in index && Live(index, now)[k] == index[k]
  {
  }

  /** The eviction of a store that leaves room for what came in since `t`. */
  lemma EvictionSpares(index: map<string, Entry>, now: int, other: string, limit: int, left: map<string, Entry>,
                       key: string, t: int, recent: set<string>)
    requires key in index && index[key] == NewEntry(t) && now < t + TTL && other != key
    requires NotBefore(index, NewEntry(t)) <= recent
    requires Order(NewEntry(now)) >= Order(NewEntry(t)) ==> other in recent
    requires Evicted(Live(index, now)[other := NewEntry(now)], left, limit) && (limit <= 0 || |recent| <= limit)
    ensures key in left && NotBefore(left, NewEntry(t)) <= recent
  {
    hide Order;
    var grown := Live(index, now)[other := NewEntry(now)];
    assert key in grown && grown[key] == NewEntry(t);
    forall k | k in NotBefore(grown, NewEntry(t)) ensures k in recent {
      LiveIsPart(index, now);
    }
    if limit > 0 {
      SubsetSize(NotBefore(grown, NewEntry(t)), recent);
      KeptWithin(grown, left, limit, key);
    } else {
      SubsetSize(left.Keys, grown.Keys);
    }
  }

  lemma StoringSpares(index: map<string, Entry>, data: map<string, string>, key: string, t: int, thinking: string,
                      now: int, f: Faults, other: string, text: string, left: map<string, Entry>)
    requires Remembers(index, data, key, t, thinking) && now < t + TTL && other != key
    requires f.indexReadable ==> key in left
    requires f.indexWritable ==> f.indexReadable
    requires var grown := Live(Loaded(index, f), now)[other := NewEntry(now)];
      forall k :: k in left ==> k in grown && left[k] == grown[k]
    ensures var before := Live(Loaded(index, f), now);
      var grown := before[other := NewEntry(now)];
      var pruned := WithoutData(data, Loaded(index, f).Keys - before.Keys, f);
      var after := WithoutData(pruned[other := text], grown.Keys - left.Keys, f);
      Remembers(if f.indexWritable then left else index, after, key, t, thinking)
  {
  }

  /** Uses of the cache one after the other. */
  method UseCache(cache: Cache, hash: Hash, uses: seq<Use>, ghost key: string, ghost t: int, ghost thinking: string,
                  ghost recent: set<string>)
    modifies cache
    ensures (&& old(Safe(cache, key, t, thinking, recent)) && AllSpare(hash, key, t, recent, uses)
             && Written(hash, uses, t) <= recent) ==>
      Safe(cache, key, t, thinking, recent)
  {
    ghost var known := Safe(cache, key, t, thinking, recent) && AllSpare(hash, key, t, recent, uses)
      && Written(hash, uses, t) <= recent;
    for i := 0 to |uses|
      invariant known ==> Safe(cache, key, t, thinking, recent)
    {
      hide Safe, Spares, Written, Writes, Order;
      if known {
        WrittenHas(hash, uses, t, i);
      }
      UseOnce(cache, hash, uses[i], key, t, thinking, recent);
    }
  }

  lemma WrittenHas(hash: Hash, uses: seq<Use>, t: int, i: nat)
    requires i < |uses|
    ensures Writes(hash, uses[i]) && Order(NewEntry(uses[i].now)) >= Order(NewEntry(t)) ==>
      KeyFor(hash, uses[i].messages, uses[i].model) in Written(hash, uses, t)
  {
    hide Writes, Order, KeyFor;
  }

  method UseOnce(cache: Cache, hash: Hash, u: Use, ghost key: string, ghost t: int, ghost thinking: string,
                 ghost recent: set<string>)
    modifies cache
    ensures (&& old(Safe(cache, key, t, thinking, recent)) && Spares(hash, key, t, recent, u)
             && (Writes(hash, u) && Order(NewEntry(u.now)) >= Order(NewEntry(t)) ==>
                   KeyFor(hash, u.messages, u.model) in recent)) ==>
      Safe(cache, key, t, thinking, recent)
  {
    hide Remembers, Live, WithoutData, Evicted, KeyFor, TrimSpace, Applied, Loaded, NotBefore, Order;
    ghost var index, data := cache.index, cache.data;
    ghost var known := Safe(cache, key, t, thinking, recent) && Spares(hash, key, t, recent, u)
      && (Writes(hash, u) && Order(NewEntry(u.now)) >= Order(NewEntry(t)) ==>
            KeyFor(hash, u.messages, u.model) in recent);
    match u {
      case Storing(f, now, limit, messages, model, text) =>
        var stored;
        ghost var left;
        stored, left := cache.Store(hash, f, now, limit, messages, model, text);
        if known {
          PruningSpares(index, data, key, t, thinking, now, f);
          if Writes(hash, u) {
            StoreSpares(index, data, key, t, thinking, recent, now, f, KeyFor(hash, messages, model), TrimSpace(text),
                        limit, left);
          }
        }
      case Applying(f, now, messages, model) =>
        var out, changed := cache.Apply(hash, f, now, messages, model);
        if known {
          PruningSpares(index, data, key, t, thinking, now, f);
        }
    }
  }

  lemma StoreSpares(index: map<string, Entry>, data: map<string, string>, key: string, t: int, thinking: string,
                    recent: set<string>, now: int, f: Faults, other: string, text: string, limit: int,
                    left: map<string, Entry>)
    requires Remembers(index, data, key, t, thinking) && NotBefore(index, NewEntry(t)) <= recent
    requires now < t + TTL && other != key && (f.indexWritable ==> f.indexReadable) && (limit <= 0 || |recent| <= limit)
    requires Order(NewEntry(now)) >= Order(NewEntry(t)) ==> other in recent
    requires Evicted(Live(Loaded(index, f), now)[other := NewEntry(now)], left, limit)
    ensures var before := Live(Loaded(index, f), now);
      var pruned := WithoutData(data, Loaded(index, f).Keys - before.Keys, f);
      var after := WithoutData(pruned[other := text], before[other := NewEntry(now)].Keys - left.Keys, f);
      var index' := if f.indexWritable then left else index;
      Remembers(index', after, key, t, thinking) && NotBefore(index', NewEntry(t)) <= recent
  {
    hide Order, NotBefore, Live, WithoutData;
    if f.indexReadable {
      EvictionSpares(index, now, other, limit, left, key, t, recent);
    }
    StoringSpares(index, data, key, t, thinking, now, f, other, text, left);
  }

  /** A store that keeps its own entry is remembered. */
  lemma NewIsRemembered(index: map<string, Entry>, data: map<string, string>, before: map<string, Entry>,
                        left: map<string, Entry>, limit: int, key: string, t: int, thinking: string, f: Faults)
    requires Evicted(before[key := NewEntry(t)], left, limit) && key in left
    ensures var grown := before[key := NewEntry(t)];
      Remembers(left, WithoutData(data[key := thinking], grown.Keys - left.Keys, f), key, t, thinking)
  {
  }

  /** The eviction that comes with the store itself. */
  lemma NewIsKept(index: map<string, Entry>, now: int, key: string, limit: int, left: map<string, Entry>,
                  recent: set<string>)
    requires Evicted(Live(index, now)[key := NewEntry(now)], left, limit) && (limit <= 0 || |recent| <= limit)
    requires NotBefore(index, NewEntry(now)) + {key} <= recent
    ensures key in left && NotBefore(left, NewEntry(now)) <= recent
  {
    hide Order;
    var grown := Live(index, now)[key := NewEntry(now)];
    forall k | k in NotBefore(grown, NewEntry(now)) ensures k in recent {
      LiveIsPart(index, now);
    }
    if limit > 0 {
      SubsetSize(NotBefore(grown, NewEntry(now)), recent);
      KeptWithin(grown, left, limit, key);
    } else {
      SubsetSize(left.Keys, grown.Keys);
    }
  }

  /** What comes in with a store at `t` or later: the entries there already, its own, and those the
      uses write. */
  function Recent(hash: Hash, index: map<string, Entry>, key: string, t: int, uses: seq<Use>): set<string> {
    NotBefore(index, NewEntry(t)) + {key} + Written(hash, uses, t)
  }

  /** Reasoning stored for a conversation is restored in it, and in every conversation that has one
      key with it, for two hours: whatever other requests store and restore in between, as long as
      none overwrites it or replaces an unreadable index, and no limit is below the number of entries
      that come in at the same time or later. */
  method StoreUseApply(cache: Cache, hash: Hash, f: Faults, t: int, limit: int, conversation: seq<Json>, model: string,
                       text: string, uses: seq<Use>, g: Faults, now: int, messages: seq<Json>)
    returns (stored: bool, out: seq<Json>)
    modifies cache
    ensures |out| == |messages|
    ensures var key := KeyFor(hash, conversation, model);
      stored <==> && conversation != [] && TrimSpace(text) != "" && key != ""
                  && f.dirWritable && f.dataWritable && f.indexWritable
    ensures var key := KeyFor(hash, conversation, model);
      var recent := Recent(hash, old(cache.index), key, t, uses);
      (&& stored && (limit <= 0 || |recent| <= limit) && AllSpare(hash, key, t, recent, uses)
       && now < t + TTL && g.indexReadable && g.readable(key)) ==>
        forall i | 0 <= i < |messages| && messages[i].Obj? && Role(messages[i].fields) == "assistant"
          && SameConversation(Stripped(messages[..i]), Stripped(conversation)) ::
          out[i].Obj? && TrimSpace(TextOf(Field(out[i].fields, REASONING))) == TrimSpace(text)
  {
    hide Live, WithoutData, Evicted, Normalize, TrimSpace, Stripped, SameConversation, Role, Restored;
    hide Spares, Remembers, KeyFor, Order, NotBefore, Written, Writes;
    ghost var key := KeyFor(hash, conversation, model);
    ghost var recent := Recent(hash, cache.index, key, t, uses);
    ghost var index, data := cache.index, cache.data;
    ghost var left;
    stored, left := cache.Store(hash, f, t, limit, conversation, model, text);
    ghost var kept := stored && (limit <= 0 || |recent| <= limit);
    if kept {
      NoLoaded(index, f, t);
      ghost var before := Live(Loaded(index, f), t);
      ghost var pruned := WithoutData(data, Loaded(index, f).Keys - before.Keys, f);
      NewIsKept(Loaded(index, f), t, key, limit, left, recent);
      NewIsRemembered(index, pruned, before, left, limit, key, t, TrimSpace(text), f);
    }
    UseCache(cache, hash, uses, key, t, TrimSpace(text), recent);
    ghost var used := cache.data;
    var changed;
    out, changed := cache.Apply(hash, g, now, messages, model);
    ghost var known := Remembers(cache.index, used, key, t, TrimSpace(text));
    if stored && known && now < t + TTL && g.indexReadable && g.readable(key) {
      PruningSpares(cache.index, used, key, t, TrimSpace(text), now, g);
      forall i | 0 <= i < |messages| && messages[i].Obj? && Role(messages[i].fields) == "assistant"
          && SameConversation(Stripped(messages[..i]), Stripped(conversation))
        ensures out[i].Obj? && TrimSpace(TextOf(Field(out[i].fields, REASONING))) == TrimSpace(text)
      {
        RememberedIsRestored(hash, g, cache.index, cache.data, t, now, conversation, model, text, messages, i);
      }
    }
  }

  lemma NoLoaded(index: map<string, Entry>, f: Faults, t: int)
    ensures NotBefore(Loaded(index, f), NewEntry(t)) <= NotBefore(index, NewEntry(t))
  {
    hide Order;
  }

  lemma RememberedIsRestored(hash: Hash, g: Faults, index: map<string, Entry>, data: map<string, string>,
                             t: int, now: int,
                             conversation: seq<Json>, model: string, text: string, messages: seq<Json>, i: nat)
    requires var key := KeyFor(hash, conversation, model);
      key != "" && Remembers(index, data, key, t, TrimSpace(text)) && TrimSpace(text) != ""
    requires g.readable(KeyFor(hash, conversation, model)) && g.indexReadable
    requires now < t + TTL
    requires i < |messages| && messages[i].Obj? && Role(messages[i].fields) == "assistant"
    requires SameConversation(Stripped(messages[..i]), Stripped(conversation))
    ensures var l := Lookup(Live(Loaded(index, g), now), data, g.readable, now);
      var out := Applied(hash, l, messages, model);
      out[i].Obj? && TrimSpace(TextOf(Field(out[i].fields, REASONING))) == TrimSpace(text)
  {
    hide TrimSpace, Normalize, Role, Stripped, Applied, SameConversation, KeyFor, Live;
    RestoredForSameConversation(hash, g, index, data, t, now, conversation, model, text, messages, i);
  }
}
