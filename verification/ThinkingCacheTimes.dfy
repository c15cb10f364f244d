/** When the thinking cache restores, and what of a message it looks at. */
module ThinkingCacheTimes {
  import opened Sets
  import opened Text
  import opened ThinkingCache

  /** The lookup of a call at `now`: what the index holds, expired entries left out. */
  function At(f: Faults, index: map<string, Entry>, data: map<string, string>, now: int): Lookup {
    Lookup(Live(Loaded(index, f), now), data, f.readable, now)
  }

  predicate Blank(s: string) {
    All(s, SPACES)
  }

  /** Reasoning is restored to a message exactly if it is the assistant's, the index can be read and
      names the conversation before it under an entry that is still to expire, and there is text: that
      of the entry first, otherwise that of its file if it can be read. */
  lemma RestoredIff(hash: Hash, f: Faults, index: map<string, Entry>, data: map<string, string>, now: int,
                    messages: seq<Json>, model: string, i: nat)
    requires i < |messages| && now > 0
    ensures var key := KeyFor(hash, messages[..i], model);
      var cached := For(hash, At(f, index, data, now), messages, model, i);
      && (cached != "" <==>
            && messages[i].Obj? && Role(messages[i].fields) == "assistant" && key != ""
            && f.indexReadable && key in index && index[key].expires > now
            && (!Blank(index[key].thinking) || (f.readable(key) && key in data && !Blank(data[key]))))
      && (cached != "" ==>
            cached == TrimSpace(if Blank(index[key].thinking) then data[key] else index[key].thinking))
  {
    hide TrimSpace, Normalize, Role, SPACES, All, KeyFor;
    var key := KeyFor(hash, messages[..i], model);
    if key in index {
      TrimsToNothing(index[key].thinking);
    }
    if key in data {
      TrimsToNothing(data[key]);
    }
  }

  /** What was stored at `t` is restored for two hours, to the second. */
  lemma StoredLasts(hash: Hash, f: Faults, index: map<string, Entry>, data: map<string, string>, t: int, now: int,
                    messages: seq<Json>, model: string, i: nat)
    requires i < |messages| && messages[i].Obj? && Role(messages[i].fields) == "assistant" && now > 0
    requires var key := KeyFor(hash, messages[..i], model);
      && key != "" && key in index && index[key] == Entry("", t, t + TTL)
      && key in data && !Blank(data[key]) && f.readable(key) && f.indexReadable
    ensures For(hash, At(f, index, data, now), messages, model, i) != "" <==> now < t + 7200
  {
    hide TrimSpace, Normalize, Role, SPACES, All, KeyFor, For;
    NothingIsBlank();
    RestoredIff(hash, f, index, data, now, messages, model, i);
  }

  /** An entry stays in the index until it expires. One without an expiry stays for ever, and is never
      restored. */
  lemma StaysUntilExpiry(hash: Hash, f: Faults, index: map<string, Entry>, data: map<string, string>, now: int,
                         messages: seq<Json>, model: string, i: nat)
    requires i < |messages| && now > 0
    ensures var key := KeyFor(hash, messages[..i], model);
      key in index && index[key].expires <= 0 ==>
        && (key in Live(index, now) <==> index[key].expires == 0)
        && For(hash, At(f, index, data, now), messages, model, i) == ""
  {
    hide TrimSpace, Normalize, Role, KeyFor;
  }

  lemma NothingIsBlank()
    ensures Blank("")
  {
  }

  /** A message is changed exactly if there is something to restore that it does not have already. */
  lemma ChangedIff(hash: Hash, l: Lookup, messages: seq<Json>, model: string, i: nat)
    requires i < |messages|
    ensures Restored(hash, l, messages, model, i) != messages[i] <==>
      && For(hash, l, messages, model, i) != ""
      && (REASONING in messages[i].fields && messages[i].fields[REASONING].Str? ==>
            TrimSpace(messages[i].fields[REASONING].s) != For(hash, l, messages, model, i))
  {
    hide TrimSpace, Normalize, Role, KeyFor, Cached;
    EmptyTrims();
    if messages[i].Obj? && Role(messages[i].fields) == "assistant" {
      CachedIsTrimmed(l, KeyFor(hash, messages[..i], model));
      var r, cached := Restored(hash, l, messages, model, i), For(hash, l, messages, model, i);
      if r != messages[i] {
        assert r.fields[REASONING] == Str(cached);
      } else if cached != "" && TrimSpace(TextOf(Field(messages[i].fields, REASONING))) != cached {
        assert r.fields[REASONING] == Str(cached);
      }
    }
  }

  /** The names a reasoning field goes by. */
  const HIDDEN := ["reasoning", "reasoning_content", "thinking", "thinking_content"]

  /** A field is left out of the fingerprint exactly if it is one of these names, in any letter case
      and with blanks around it. */
  lemma HiddenIff(k: string)
    ensures HiddenField(k) <==> exists a, w, b, i :: IsName(k, a, w, b, i)
  {
    hide SPACES, TrimSpace, All, IsName;
    if HiddenField(k) {
      var i :| 0 <= i < 4 && LowerText(TrimSpace(k)) == HIDDEN[i];
      var a, b := Around(k);
      NameOf(k, a, TrimSpace(k), b, i);
    }
    forall a, w, b, i | IsName(k, a, w, b, i) ensures HiddenField(k) {
      Named(k, a, w, b, i);
    }
  }

  ghost predicate IsName(k: string, a: string, w: string, b: string, i: int) {
    k == a + w + b && Blank(a) && Blank(b) && 0 <= i < |HIDDEN| && SameWord(w, HIDDEN[i])
  }

  lemma NameOf(k: string, a: string, w: string, b: string, i: int)
    requires k == a + w + b && Blank(a) && Blank(b) && 0 <= i < |HIDDEN| && LowerText(w) == HIDDEN[i]
    ensures IsName(k, a, w, b, i)
  {
    hide SPACES;
    assert forall j :: 0 <= j < |w| ==> LowerText(w)[j] == LowerChar(w[j]);
  }

  lemma Named(k: string, a: string, w: string, b: string, i: int)
    requires IsName(k, a, w, b, i)
    ensures HiddenField(k)
  {
    hide TrimSpace;
    assert LowerText(w) == HIDDEN[i];
    assert LowerChar(w[0]) == HIDDEN[i][0] && LowerChar(w[|w| - 1]) == HIDDEN[i][|w| - 1];
    assert LowerChar(w[0]) in "rt" && LowerChar(w[|w| - 1]) in "gt";
    TrimPadded(a, w, b);
  }

  /** Of entries that know when they were made, the oldest go. */
  lemma OldestGo(index: map<string, Entry>, left: map<string, Entry>, limit: int, gone: string, kept: string)
    requires Evicted(index, left, limit) && gone in index && gone !in left && kept in left
    requires index[gone].created != 0 && index[kept].created != 0
    ensures index[gone].created <= index[kept].created && 0 < limit < |index|
  {
    hide Order;
    SubsetSize(left.Keys, index.Keys - {gone});
    OlderFirst(index[gone], index[kept]);
  }

  lemma OlderFirst(a: Entry, b: Entry)
    requires a.created != 0 && b.created != 0 && Order(a) <= Order(b)
    ensures a.created <= b.created
  {
  }
}
