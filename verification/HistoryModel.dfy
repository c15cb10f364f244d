/** The data of the chat history store (internal/chathistory/store.go) and the relations its
    operations keep: index against memory, memory against disk. */
module HistoryModel {
  import opened Text

  const VERSION := 2
  const DISABLED := 0
  const DEFAULT_LIMIT := 20
  const PREVIEW_AT := 160

  predicate AllowedLimit(limit: int) {
    limit in {0, 10, 20, 50}
  }

  datatype Message = Message(role: string, content: string)

  /** What a request says when it starts. */
  datatype Origin = Origin(
    callerID: string, accountID: string, model: string, stream: bool, userInput: string,
    messages: seq<Message>, finalPrompt: string)

  /** What the upstream answered so far. */
  datatype Reply = Reply(
    reasoning: string, content: string, error: string, statusCode: int, elapsedMs: int, finishReason: string,
    usage: map<string, string>)

  const NO_REPLY := Reply("", "", "", 0, 0, "", map[])

  datatype Entry = Entry(
    id: string, revision: int, createdAt: int, updatedAt: int, completedAt: int, status: string,
    origin: Origin, reply: Reply, historyText: string)

  datatype Summary = Summary(
    id: string, revision: int, createdAt: int, updatedAt: int, completedAt: int, status: string,
    callerID: string, accountID: string, model: string, stream: bool, userInput: string, preview: string,
    statusCode: int, elapsedMs: int, finishReason: string, detailRevision: int)

  datatype Index = Index(version: int, limit: int, revision: int, items: seq<Summary>)

  function Preview(e: Entry): string {
    var c :=
      if TrimSpace(e.reply.content) != "" then TrimSpace(e.reply.content)
      else if TrimSpace(e.reply.reasoning) != "" then TrimSpace(e.reply.reasoning)
      else if TrimSpace(e.reply.error) != "" then TrimSpace(e.reply.error)
      else TrimSpace(e.origin.userInput);
    if |c| > PREVIEW_AT then c[..PREVIEW_AT] + "..." else c
  }

  function Summarise(e: Entry): Summary {
    Summary(e.id, e.revision, e.createdAt, e.updatedAt, e.completedAt, e.status,
            e.origin.callerID, e.origin.accountID, e.origin.model, e.origin.stream, e.origin.userInput, Preview(e),
            e.reply.statusCode, e.reply.elapsedMs, e.reply.finishReason, e.revision)
  }

  predicate Before(a: Summary, b: Summary) {
    a.updatedAt > b.updatedAt || (a.updatedAt == b.updatedAt && a.createdAt > b.createdAt)
  }

  predicate Newer(a: Entry, b: Entry) {
    Before(Summarise(a), Summarise(b))
  }

  predicate NewestFirst(items: seq<Summary>) {
    forall i, j :: 0 <= i < j < |items| ==> !Before(items[j], items[i])
  }

  /** Identifiers as the store makes them: trimmed and not empty. */
  predicate Named(details: map<string, Entry>) {
    forall id :: id in details ==> id != "" && TrimSpace(id) == id && details[id].id == id
  }

  /** One summary for each detail, and nothing else. */
  predicate Lists(items: seq<Summary>, details: map<string, Entry>) {
    && |items| == |details|
    && (forall i :: 0 <= i < |items| ==> items[i].id in details && items[i] == Summarise(details[items[i].id]))
    && (forall i, j :: 0 <= i < j < |items| ==> items[i].id != items[j].id)
  }

  /** Memory and disk agree on every id that is not pending, and what is pending is consistent. */
  ghost predicate Reconcilable(details: map<string, Entry>, dirty: set<string>, deleted: set<string>,
                               disk: map<string, Entry>) {
    && (forall id :: id !in dirty && id !in deleted ==>
          (id in details <==> id in disk) && (id in details ==> details[id] == disk[id]))
    && dirty <= details.Keys
    && deleted !! details.Keys
    && dirty !! deleted
  }

  /** Trimming `all` to the limit keeps `kept`: all of it if it fits, otherwise as many as fit, and
      no entry that goes is newer than one that stays. */
  ghost predicate Trimmed(all: map<string, Entry>, kept: map<string, Entry>, limit: int) {
    && kept.Keys <= all.Keys && (forall id :: id in kept ==> kept[id] == all[id])
    && (if limit == DISABLED || |all| <= limit then kept == all else |kept| == limit)
    && (forall gone, id :: gone in all && gone !in kept && id in kept ==> !Newer(all[gone], kept[id]))
  }

  // Sorting.

  function InsertAt(items: seq<Summary>, x: Summary): (k: nat)
    ensures k <= |items|
    ensures forall i :: 0 <= i < k ==> !Before(x, items[i])
    ensures k < |items| ==> Before(x, items[k])
  {
    if items == [] || Before(x, items[0]) then 0 else 1 + InsertAt(items[1..], x)
  }

  /** Any order by time will do; this one inserts in turn. */
  method SortNewestFirst(items: seq<Summary>) returns (sorted: seq<Summary>)
    ensures NewestFirst(sorted) && multiset(sorted) == multiset(items)
  {
    hide NewestFirst, InsertAt;
    NoneSorted();
    sorted := [];
    for n := 0 to |items|
      invariant NewestFirst(sorted) && multiset(sorted) == multiset(items[..n])
    {
      var k := InsertAt(sorted, items[n]);
      InsertKeepsOrder(sorted, items[n], k);
      InsertAdds(sorted, items[n], k);
      assert items[..n + 1] == items[..n] + [items[n]];
      sorted := sorted[..k] + [items[n]] + sorted[k..];
    }
    assert items[..|items|] == items;
  }

  lemma NoneSorted()
    ensures NewestFirst([])
  {
  }

  lemma InsertAdds(items: seq<Summary>, x: Summary, k: nat)
    requires k <= |items|
    ensures multiset(items[..k] + [x] + items[k..]) == multiset(items) + multiset{x}
  {
    assert items == items[..k] + items[k..];
  }

  lemma InsertKeepsOrder(items: seq<Summary>, x: Summary, k: nat)
    requires NewestFirst(items) && k == InsertAt(items, x)
    ensures NewestFirst(items[..k] + [x] + items[k..])
  {
    hide InsertAt;
    var r := items[..k] + [x] + items[k..];
    forall i, j | 0 <= i < j < |r| ensures !Before(r[j], r[i]) {
      if i == k {
        assert r[j] == items[j - 1] && Before(x, items[k]);
        assert j - 1 == k || !Before(items[j - 1], items[k]);
      } else if j != k {
        assert r[i] == items[if i < k then i else i - 1] && r[j] == items[if j < k then j else j - 1];
      }
    }
  }

  lemma {:induction false} CountOnce(s: seq<Summary>, x: Summary)
    requires forall i, j :: 0 <= i < j < |s| ==> s[i] != s[j]
    ensures multiset(s)[x] <= 1
  {
    if s != [] {
      CountOnce(s[1..], x);
      assert s == [s[0]] + s[1..];
      if s[0] == x {
        assert x !in s[1..];
      }
    }
  }

  lemma TwiceIsTwo(s: seq<Summary>, i: nat, j: nat)
    requires i < j < |s| && s[i] == s[j]
    ensures multiset(s)[s[i]] >= 2
  {
    assert s == s[..i] + [s[i]] + s[i + 1..j] + [s[j]] + s[j + 1..];
  }

  lemma SortedLists(items: seq<Summary>, sorted: seq<Summary>, details: map<string, Entry>)
    requires Lists(items, details) && multiset(sorted) == multiset(items)
    ensures Lists(sorted, details)
  {
    hide Summarise;
    assert |sorted| == |items| by {
      assert |multiset(sorted)| == |multiset(items)|;
    }
    forall i | 0 <= i < |sorted| ensures sorted[i] in items {
      assert sorted[i] in multiset(items);
    }
    forall i, j | 0 <= i < j < |sorted| ensures sorted[i].id != sorted[j].id {
      if sorted[i].id == sorted[j].id {
        TwiceIsTwo(sorted, i, j);
        CountOnce(items, sorted[i]);
      }
    }
  }
}
