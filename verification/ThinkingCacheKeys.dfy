/** Which conversations share a key of the thinking cache. */
module ThinkingCacheKeys {
  import opened Text
  import opened ThinkingCache
  import opened ThinkingCacheLaws

  /** A message without its reasoning fields. */
  function Strip(m: map<string, Json>): map<string, Json> {
    map k | k in m && !HiddenField(k) :: m[k]
  }

  /** The conversation without system messages and reasoning fields. */
  function Stripped(messages: seq<Json>): seq<map<string, Json>> {
    if messages == [] then []
    else
      (if messages[0].Obj? && Role(messages[0].fields) != "system" then [Strip(messages[0].fields)] else [])
      + Stripped(messages[1..])
  }

  function NormalAll(ms: seq<map<string, Json>>): seq<Json> {
    seq(|ms|, i requires 0 <= i < |ms| => NormalMessage(ms[i]))
  }

  lemma StripIsInvisible(m: map<string, Json>)
    ensures NormalMessage(Strip(m)) == NormalMessage(m)
  {
    hide HiddenField, NormalContent;
  }

  lemma {:induction false} NormalizeStripped(messages: seq<Json>)
    ensures Normalize(messages) == NormalAll(Stripped(messages))
  {
    hide NormalMessage, Role, Strip;
    if messages != [] {
      NormalizeStripped(messages[1..]);
      if messages[0].Obj? {
        StripIsInvisible(messages[0].fields);
      }
    }
  }

  /** Conversations that differ in system messages and reasoning fields only have one key. */
  lemma {:induction false} SameKey(hash: Hash, a: seq<Json>, b: seq<Json>, model: string)
    requires Stripped(a) == Stripped(b)
    ensures KeyFor(hash, a, model) == KeyFor(hash, b, model)
  {
    hide Normalize, Stripped;
    NormalizeStripped(a);
    NormalizeStripped(b);
  }

  // What the normal form distinguishes.

  function TypeOf(item: Json): string
    requires item.Obj?
  {
    Word(Field(item.fields, "type"))
  }

  predicate IsReasoning(item: Json) {
    item.Obj? && (TypeOf(item) == "reasoning" || TypeOf(item) == "thinking")
  }

  /** The content blocks that are no reasoning. */
  function Kept(items: seq<Json>): seq<Json> {
    if items == [] then [] else (if IsReasoning(items[0]) then [] else [items[0]]) + Kept(items[1..])
  }

  predicate SameIn(m: map<string, Json>, n: map<string, Json>, k: string) {
    Field(m, k) == Field(n, k)
  }

  /** Equal values, or blocks of one type that agree in what that type keeps. */
  predicate SameBlock(x: Json, y: Json) {
    if !x.Obj? || !y.Obj? then x == y
    else
      && TypeOf(x) == TypeOf(y)
      && (TypeOf(x) == "text" ==> SameIn(x.fields, y.fields, "text"))
      && (TypeOf(x) == "tool_use" ==>
            && SameIn(x.fields, y.fields, "id") && SameIn(x.fields, y.fields, "name")
            && SameIn(x.fields, y.fields, "input"))
      && (TypeOf(x) == "tool_result" ==>
            SameIn(x.fields, y.fields, "tool_use_id") && SameIn(x.fields, y.fields, "content"))
  }

  predicate SameItems(a: seq<Json>, b: seq<Json>) {
    |a| == |b| && forall i :: 0 <= i < |a| ==> SameBlock(a[i], b[i])
  }

  predicate SameContent(v: Json, w: Json) {
    if v.Arr? && w.Arr? then SameItems(Kept(v.items), Kept(w.items)) else v == w
  }

  /** Messages, reasoning fields taken away, that agree in every field, and in content block by block. */
  predicate SameMessage(m: map<string, Json>, n: map<string, Json>) {
    && m.Keys == n.Keys
    && forall k :: k in m ==> if k == "content" then SameContent(m[k], n[k]) else m[k] == n[k]
  }

  predicate SameConversation(a: seq<map<string, Json>>, b: seq<map<string, Json>>) {
    |a| == |b| && forall i :: 0 <= i < |a| ==> SameMessage(a[i], b[i])
  }

  function NormalItem(item: Json): Json {
    if item.Obj? then NormalBlock(item.fields, TypeOf(item)) else item
  }

  function NormalEach(items: seq<Json>): seq<Json> {
    seq(|items|, i requires 0 <= i < |items| => NormalItem(items[i]))
  }

  lemma {:induction false} NormalItemsKept(items: seq<Json>)
    ensures NormalItems(items) == NormalEach(Kept(items))
  {
    hide NormalBlock, Word;
    if items != [] {
      NormalItemsKept(items[1..]);
    }
  }

  lemma BlocksAgreeIff(m: map<string, Json>, t: string, n: map<string, Json>, u: string)
    ensures NormalBlock(m, t) == NormalBlock(n, u) <==>
      && t == u
      && (t == "text" ==> SameIn(m, n, "text"))
      && (t == "tool_use" ==> SameIn(m, n, "id") && SameIn(m, n, "name") && SameIn(m, n, "input"))
      && (t == "tool_result" ==> SameIn(m, n, "tool_use_id") && SameIn(m, n, "content"))
  {
    hide Field;
    TypeKept(m, t);
    TypeKept(n, u);
    if t == u {
      FieldsKept(m, t);
      FieldsKept(n, t);
    }
  }

  lemma TypeKept(m: map<string, Json>, t: string)
    ensures var b := NormalBlock(m, t); b.Obj? && "type" in b.fields && b.fields["type"] == Str(t)
  {
    hide Field;
  }

  predicate Holds(b: map<string, Json>, k: string, m: map<string, Json>) {
    k in b && b[k] == Field(m, k)
  }

  lemma FieldsKept(m: map<string, Json>, t: string)
    ensures var b := NormalBlock(m, t).fields;
      && (t == "text" ==> Holds(b, "text", m))
      && (t == "tool_use" ==> Holds(b, "id", m) && Holds(b, "name", m) && Holds(b, "input", m))
      && (t == "tool_result" ==> Holds(b, "tool_use_id", m) && Holds(b, "content", m))
  {
    hide Field;
  }

  lemma ItemAgreesIff(x: Json, y: Json)
    ensures NormalItem(x) == NormalItem(y) <==> SameBlock(x, y)
  {
    hide NormalBlock, Word, Field;
    if x.Obj? && y.Obj? {
      BlocksAgreeIff(x.fields, TypeOf(x), y.fields, TypeOf(y));
    } else if x.Obj? {
      TypeKept(x.fields, TypeOf(x));
    } else if y.Obj? {
      TypeKept(y.fields, TypeOf(y));
    }
  }

  lemma ContentAgreesIff(v: Json, w: Json)
    ensures NormalContent(v) == NormalContent(w) <==> SameContent(v, w)
  {
    hide NormalItem, SameBlock, NormalItems, Kept;
    if v.Arr? && w.Arr? {
      NormalItemsKept(v.items);
      NormalItemsKept(w.items);
      var a, b := Kept(v.items), Kept(w.items);
      assert forall i :: 0 <= i < |a| ==> NormalEach(a)[i] == NormalItem(a[i]);
      assert forall i :: 0 <= i < |b| ==> NormalEach(b)[i] == NormalItem(b[i]);
      forall i | 0 <= i < |a| && i < |b| ensures NormalEach(a)[i] == NormalEach(b)[i] <==> SameBlock(a[i], b[i]) {
        ItemAgreesIff(a[i], b[i]);
      }
    }
  }

  predicate Visible(m: map<string, Json>) {
    forall k :: k in m ==> !HiddenField(k)
  }

  lemma MessageAgreesIff(m: map<string, Json>, n: map<string, Json>)
    requires Visible(m) && Visible(n)
    ensures NormalMessage(m) == NormalMessage(n) <==> SameMessage(m, n)
  {
    hide HiddenField, NormalContent, SameContent;
    var x, y := NormalMessage(m).fields, NormalMessage(n).fields;
    assert x.Keys == m.Keys && y.Keys == n.Keys;
    forall k | k in m && k in n
      ensures x[k] == y[k] <==> if k == "content" then SameContent(m[k], n[k]) else m[k] == n[k]
    {
      ContentAgreesIff(m[k], n[k]);
    }
  }

  lemma StripIsVisible(m: map<string, Json>)
    ensures Visible(Strip(m))
  {
    hide HiddenField;
  }

  lemma {:induction false} StrippedAreVisible(messages: seq<Json>)
    ensures forall i :: 0 <= i < |Stripped(messages)| ==> Visible(Stripped(messages)[i])
  {
    hide Visible, Strip, Role;
    if messages != [] {
      StrippedAreVisible(messages[1..]);
      if messages[0].Obj? {
        StripIsVisible(messages[0].fields);
      }
    }
  }

  lemma {:induction false} NormalAgreesIff(a: seq<Json>, b: seq<Json>)
    ensures Normalize(a) == Normalize(b) <==> SameConversation(Stripped(a), Stripped(b))
  {
    hide NormalMessage, SameMessage, Visible, Stripped, Normalize;
    NormalizeStripped(a);
    NormalizeStripped(b);
    StrippedAreVisible(a);
    StrippedAreVisible(b);
    var x, y := Stripped(a), Stripped(b);
    assert forall i :: 0 <= i < |x| ==> NormalAll(x)[i] == NormalMessage(x[i]);
    assert forall i :: 0 <= i < |y| ==> NormalAll(y)[i] == NormalMessage(y[i]);
    forall i | 0 <= i < |x| && i < |y| ensures NormalAll(x)[i] == NormalAll(y)[i] <==> SameMessage(x[i], y[i]) {
      MessageAgreesIff(x[i], y[i]);
    }
  }

  ghost predicate Injective(hash: Hash) {
    forall m: string, x: seq<Json>, n: string, y: seq<Json> :: hash(m, x) == hash(n, y) ==> m == n && x == y
  }

  /** Two conversations have one key exactly if their models are the same but for blanks around them,
      and they agree outside system messages and reasoning, and in what each content block's type
      keeps. */
  lemma {:induction false} SameKeyIff(hash: Hash, a: seq<Json>, m: string, b: seq<Json>, n: string)
    requires Injective(hash)
    ensures KeyFor(hash, a, m) == KeyFor(hash, b, n) <==>
      TrimSpace(m) == TrimSpace(n) && SameConversation(Stripped(a), Stripped(b))
  {
    hide Normalize, Stripped, SameConversation, TrimSpace;
    NormalAgreesIff(a, b);
  }

  function Picture(source: Json): Json {
    Obj(map["role" := Str("user"), "content" := Arr([Obj(map["type" := Str("image"), "source" := source])])])
  }

  /** Other block types count by their type alone: two conversations about different pictures
      have one key, so either is given the reasoning stored for the other. */
  lemma {:induction false} PicturesShareAKey(hash: Hash, a: Json, b: Json, model: string)
    requires a != b
    ensures KeyFor(hash, [Picture(a)], model) == KeyFor(hash, [Picture(b)], model)
    ensures Stripped([Picture(a)]) != Stripped([Picture(b)])
  {
    hide HiddenField, TrimSpace, Word, Normalize, Stripped;
    DifferentPictures(a, b);
    NormalAgreesIff([Picture(a)], [Picture(b)]);
    SamePictures(a, b);
  }

  lemma {:induction false} SamePictures(a: Json, b: Json)
    ensures SameConversation(Stripped([Picture(a)]), Stripped([Picture(b)]))
  {
    hide HiddenField, TrimSpace, Word;
    StrippedPicture(a);
    StrippedPicture(b);
    PictureItem(a);
    PictureItem(b);
    var x, y := Strip(Picture(a).fields), Strip(Picture(b).fields);
    assert x.Keys == y.Keys;
    assert x["content"] == Picture(a).fields["content"] && y["content"] == Picture(b).fields["content"];
    assert Stripped([Picture(a)]) == [x] && Stripped([Picture(b)]) == [y];
  }

  lemma PictureItem(source: Json)
    ensures var item := Obj(map["type" := Str("image"), "source" := source]);
      Kept([item]) == [item] && TypeOf(item) == "image"
  {
    hide TrimSpace, LowerText;
    NameWord("image");
    var item := Obj(map["type" := Str("image"), "source" := source]);
    assert [item][1..] == [];
  }

  lemma DifferentPictures(a: Json, b: Json)
    requires a != b
    ensures Stripped([Picture(a)]) != Stripped([Picture(b)])
  {
    hide HiddenField, TrimSpace, Word;
    ContentIsNoReasoning();
    UserIsNoSystem();
    StrippedPicture(a);
    StrippedPicture(b);
    assert Obj(map["type" := Str("image"), "source" := a]).fields["source"] == a;
    assert Obj(map["type" := Str("image"), "source" := b]).fields["source"] == b;
  }

  lemma StrippedPicture(source: Json)
    ensures Stripped([Picture(source)]) == [Strip(Picture(source).fields)]
    ensures var s := Stripped([Picture(source)]);
      "content" in s[0] && s[0]["content"] == Picture(source).fields["content"]
  {
    hide HiddenField, TrimSpace, Word;
    ContentIsNoReasoning();
    UserIsNoSystem();
    var m := Picture(source).fields;
    assert Role(m) == "user";
    assert [Picture(source)][1..] == [];
  }

  lemma UserIsNoSystem()
    ensures Word(Str("user")) == "user"
  {
    hide TrimSpace, LowerText;
    NameWord("user");
  }

  lemma ContentIsNoReasoning()
    ensures !HiddenField("content")
  {
    hide TrimSpace, LowerText;
    NameWord("content");
  }
}
