/** What the thinking cache promises of one call: restoring reasoning moves no fingerprint and settles
    at once. */
module ThinkingCacheLaws {
  import opened Text
  import opened ThinkingCache

  /** Words in lower-case letters are their own normal form. */
  lemma NameWord(w: string)
    requires w != "" && forall i :: 0 <= i < |w| ==> 'a' <= w[i] <= 'z' || w[i] == '_'
    ensures LowerText(TrimSpace(w)) == w
  {
    hide TrimSpace;
    assert "" + w + "" == w && All("", SPACES);
    TrimPadded("", w, "");
  }

  lemma ReasoningIsHidden()
    ensures HiddenField(REASONING)
  {
    hide TrimSpace, LowerText;
    NameWord(REASONING);
  }

  /** The fingerprint does not see the reasoning of a message. */
  lemma ReasoningIsInvisible(m: map<string, Json>, v: Json)
    ensures NormalMessage(m[REASONING := v]) == NormalMessage(m) && Role(m[REASONING := v]) == Role(m)
  {
    hide HiddenField, NormalContent;
    ReasoningIsHidden();
    assert "role" != REASONING;
  }

  lemma {:induction false} NormalizeJoin(a: seq<Json>, b: seq<Json>)
    ensures Normalize(a + b) == Normalize(a) + Normalize(b)
  {
    hide NormalMessage, Role;
    if a == [] {
      assert a + b == b;
    } else {
      assert (a + b)[1..] == a[1..] + b;
      NormalizeJoin(a[1..], b);
    }
  }

  lemma NormalizeOne(x: Json)
    ensures Normalize([x]) == if x.Obj? && Role(x.fields) != "system" then [NormalMessage(x.fields)] else []
  {
    hide NormalMessage, Role;
    assert [x][1..] == [];
  }

  /** Restoring changes no field but the reasoning, and that only of assistant messages. */
  lemma {:induction false} OnlyReasoningChanges(hash: Hash, l: Lookup, messages: seq<Json>, model: string, i: nat)
    requires i < |messages|
    ensures var r := Restored(hash, l, messages, model, i);
      r == messages[i]
      || (messages[i].Obj? && Role(messages[i].fields) == "assistant"
          && r == Obj(messages[i].fields[REASONING := Str(For(hash, l, messages, model, i))]))
    ensures var r := Restored(hash, l, messages, model, i);
      Normalize([r]) == Normalize([messages[i]]) && r.Obj? == messages[i].Obj?
      && (r.Obj? ==> Role(r.fields) == Role(messages[i].fields))
  {
    hide NormalMessage, Role, Cached, TrimSpace, KeyFor;
    EmptyTrims();
    var r := Restored(hash, l, messages, model, i);
    NormalizeOne(r);
    NormalizeOne(messages[i]);
    if r != messages[i] {
      ReasoningIsInvisible(messages[i].fields, Str(For(hash, l, messages, model, i)));
    }
  }

  /** Restoring keeps the fingerprint of every beginning of the conversation. */
  lemma {:induction false} FingerprintsStay(hash: Hash, l: Lookup, messages: seq<Json>, model: string, i: nat)
    requires i <= |messages|
    ensures Normalize(Applied(hash, l, messages, model)[..i]) == Normalize(messages[..i])
  {
    hide Normalize, Restored;
    var out := Applied(hash, l, messages, model);
    if i == 0 {
      assert out[..0] == messages[..0];
    } else {
      FingerprintsStay(hash, l, messages, model, i - 1);
      OnlyReasoningChanges(hash, l, messages, model, i - 1);
      NormalizeJoin(out[..i - 1], [out[i - 1]]);
      NormalizeJoin(messages[..i - 1], [messages[i - 1]]);
      assert out[..i] == out[..i - 1] + [out[i - 1]] && messages[..i] == messages[..i - 1] + [messages[i - 1]];
    }
  }

  /** Restoring a second time, from the same cache at the same time, changes nothing. */
  lemma ApplyTwice(hash: Hash, l: Lookup, messages: seq<Json>, model: string)
    ensures var once := Applied(hash, l, messages, model); Applied(hash, l, once, model) == once
  {
    hide Normalize, Restored;
    var once := Applied(hash, l, messages, model);
    forall i | 0 <= i < |messages| ensures Restored(hash, l, once, model, i) == once[i] {
      FingerprintsStay(hash, l, messages, model, i);
      RestoredTwice(hash, l, messages, model, i);
    }
  }

  lemma RestoredTwice(hash: Hash, l: Lookup, messages: seq<Json>, model: string, i: nat)
    requires i < |messages|
    requires var once := Applied(hash, l, messages, model); Normalize(once[..i]) == Normalize(messages[..i])
    ensures var once := Applied(hash, l, messages, model); Restored(hash, l, once, model, i) == once[i]
  {
    hide Normalize, Cached, TrimSpace, Role;
    var once := Applied(hash, l, messages, model);
    OnlyReasoningChanges(hash, l, messages, model, i);
    assert For(hash, l, once, model, i) == For(hash, l, messages, model, i);
    if messages[i].Obj? {
      var key := KeyFor(hash, messages[..i], model);
      CachedIsTrimmed(l, key);
      EmptyTrims();
      SetTwice(messages[i], For(hash, l, messages, model, i));
    }
  }

  lemma SetTwice(m: Json, cached: string)
    requires m.Obj? && TrimSpace(cached) == cached
    ensures WithReasoning(WithReasoning(m, cached), cached) == WithReasoning(m, cached)
  {
    hide TrimSpace;
  }
}
