/** Which reads count as one, and when a reply is mended. */
module ReplyLaws {
  import opened Text
  import opened FencedText
  import opened ToolCallText
  import opened ToolCallRoundTrip
  import opened ToolCallLaws
  import opened ToolCallReply

  predicate IsText(v: Value) {
    v.Str?
  }

  /** The file that a read is about is the first text under the keys of a path. */
  lemma PathIsFirst(e: Engine, c: Parsed, k: nat)
    requires ReadTool(c.name) && k < 4 && PATH_KEYS[k] in c.input && IsText(c.input[PATH_KEYS[k]])
    requires forall j :: 0 <= j < k && PATH_KEYS[j] in c.input ==> !IsText(c.input[PATH_KEYS[j]])
    ensures ReadKey(e, c) == c.input[PATH_KEYS[k]].text
  {
    hide ReadTool, FirstText;
    var input := c.input;
    assert k > 0 ==> !HasText(input, PATH_KEYS[0]);
    assert k > 1 ==> !HasText(input, PATH_KEYS[1]);
    assert k > 2 ==> !HasText(input, PATH_KEYS[2]);
  }

  /** Without a path it is about some text it is given, and about nothing only if it is given none
      but empty text. */
  lemma OtherwiseSome(e: Engine, c: Parsed)
    requires ReadTool(c.name) && FirstIsEntry(e)
    requires forall j :: 0 <= j < 4 && PATH_KEYS[j] in c.input ==> !IsText(c.input[PATH_KEYS[j]])
    ensures if exists k :: k in c.input && IsText(c.input[k])
      then exists k :: k in c.input && c.input[k] == Str(ReadKey(e, c)) else ReadKey(e, c) == ""
  {
    hide ReadTool, FirstText;
    var input := c.input;
    assert !HasText(input, PATH_KEYS[0]) && !HasText(input, PATH_KEYS[1]);
    assert !HasText(input, PATH_KEYS[2]) && !HasText(input, PATH_KEYS[3]);
    TextFound(e, input);
  }

  lemma {:induction false} TextFound(e: Engine, input: map<string, Value>)
    requires FirstIsEntry(e)
    ensures if exists k :: k in input && IsText(input[k])
      then exists k :: k in input && input[k] == Str(FirstText(e, input)) else FirstText(e, input) == ""
    decreases |input|
  {
    if input != map[] {
      var k := e.first(input);
      assert (input - {k}).Keys == input.Keys - {k};
      if !input[k].Str? {
        TextFound(e, input - {k});
        if j :| j in input && IsText(input[j]) {
          assert j in input - {k} && IsText((input - {k})[j]);
        }
      }
    }
  }

  /** A read without a file is about nothing, and so is any other tool: it is never taken for a
      repeated one. */
  lemma OnlyReadsRepeat(e: Engine, c: Parsed, d: Parsed)
    requires SameRead(e, c, d)
    ensures ReadTool(c.name) && ReadTool(d.name) && ReadKey(e, c) != ""
  {
    hide ReadTool, PathKey;
  }

  /** A reply that says nothing as it is, is read as mended; nothing comes of it if it cannot be
      mended, or if the mending says nothing either. */
  lemma MendedIff(e: Engine, text: string)
    requires TrimSpace(text) == text != "" && StripFences(text) == text && Parse(e, text) == []
    ensures ParseReply(e, text)
         == if e.mend(text).None? then [] else WithoutRepeats(e, Parse(e, e.mend(text).value))
  {
    hide Parse, TrimSpace, StripFences;
    assert WithoutRepeats(e, []) == [];
  }
}
