/** The write-behind chat history store: memory that every operation changes first, a bounded index,
    and a disk on which any file operation may fail. */
module HistoryStore {
  import opened Options
  import opened Sets
  import opened Text
  import opened HistoryModel

  /** The directory of detail files and the index file. A failed operation leaves the disk alone. */
  class Disk {
    var details: map<string, Entry>
    var index: Option<Index>

    constructor ()
      ensures details == map[] && index == None
    {
      details, index := map[], None;
    }

    method MakeDir() returns (ok: bool)
    {
      ok := *;
    }

    method RemoveDetail(id: string) returns (ok: bool)
      modifies this`details
      ensures details == if ok then old(details) - {id} else old(details)
    {
      ok := *;
      if ok {
        details := details - {id};
      }
    }

    method WriteDetail(id: string, e: Entry) returns (ok: bool)
      modifies this`details
      ensures details == if ok then old(details)[id := e] else old(details)
    {
      ok := *;
      if ok {
        details := details[id := e];
      }
    }

    method WriteIndex(i: Index) returns (ok: bool)
      modifies this`index
      ensures index == if ok then Some(i) else old(index)
    {
      ok := *;
      if ok {
        index := Some(i);
      }
    }
  }

  function IdsOf(items: seq<Summary>): set<string> {
    set i | 0 <= i < |items| :: items[i].id
  }

  /** The entries newer than `e`, and those not older. */
  ghost function NewerIn(all: map<string, Entry>, e: Entry): set<string> {
    set o | o in all && Newer(all[o], e)
  }

  ghost function NotOlderIn(all: map<string, Entry>, e: Entry): set<string> {
    set o | o in all && !Newer(e, all[o])
  }

  /** The entries later than a time, and those at least as late. */
  ghost function After(all: map<string, Entry>, now: int): set<string> {
    set o | o in all && (all[o].updatedAt > now || (all[o].updatedAt == now && all[o].createdAt > now))
  }

  ghost function AtLeast(all: map<string, Entry>, now: int): set<string> {
    set o | o in all && (all[o].updatedAt > now || (all[o].updatedAt == now && all[o].createdAt >= now))
  }

  lemma {:induction false} DistinctIds(items: seq<Summary>)
    requires forall i, j :: 0 <= i < j < |items| ==> items[i].id != items[j].id
    ensures |IdsOf(items)| == |items|
  {
    if items != [] {
      var n := |items| - 1;
      DistinctIds(items[..n]);
      assert IdsOf(items) == IdsOf(items[..n]) + {items[n].id};
    }
  }

  /** A list of all details mentions every one. */
  lemma ListsCover(items: seq<Summary>, details: map<string, Entry>)
    requires Lists(items, details)
    ensures IdsOf(items) == details.Keys
  {
    hide Summarise;
    DistinctIds(items);
    SubsetSize(IdsOf(items), details.Keys);
  }

  /** What the cut drops comes after what it keeps. */
  lemma DroppedIsLater(sorted: seq<Summary>, all: map<string, Entry>, limit: nat, gone: string, id: string)
    requires Lists(sorted, all) && NewestFirst(sorted) && limit <= |sorted|
    requires gone in all && gone !in IdsOf(sorted[..limit]) && id in IdsOf(sorted[..limit])
    ensures id in all && !Newer(all[gone], all[id])
  {
    hide Summarise, Before;
    ListsCover(sorted, all);
    assert gone in IdsOf(sorted);
    var j :| 0 <= j < |sorted| && sorted[j].id == gone;
    var i :| 0 <= i < limit && sorted[..limit][i].id == id;
    assert sorted[i].id == id;
    if j < limit {
      InPrefix(sorted, j, limit);
    }
  }

  lemma InPrefix(items: seq<Summary>, j: nat, n: nat)
    requires j < n <= |items|
    ensures items[j].id in IdsOf(items[..n])
  {
    assert items[..n][j].id == items[j].id;
  }

  /** Cutting the sorted list at the limit trims the details. */
  lemma CutIsTrimmed(sorted: seq<Summary>, all: map<string, Entry>, kept: map<string, Entry>, limit: nat)
    requires Lists(sorted, all) && NewestFirst(sorted) && limit < |sorted| && limit > 0
    requires kept.Keys == IdsOf(sorted[..limit])
    requires forall id :: id in kept ==> id in all && kept[id] == all[id]
    ensures Trimmed(all, kept, limit)
  {
    hide Summarise, Newer, IdsOf, NewestFirst;
    forall gone, id | gone in all && gone !in kept && id in kept ensures !Newer(all[gone], kept[id]) {
      DroppedIsLater(sorted, all, limit, gone, id);
    }
    DistinctIds(sorted[..limit]);
    assert |kept| == |kept.Keys|;
  }

  lemma CutLists(sorted: seq<Summary>, all: map<string, Entry>, kept: map<string, Entry>, limit: nat)
    requires Lists(sorted, all) && limit < |sorted|
    requires kept.Keys == IdsOf(sorted[..limit])
    requires forall id :: id in kept ==> id in all && kept[id] == all[id]
    ensures Lists(sorted[..limit], kept)
  {
    hide Summarise;
    DistinctIds(sorted[..limit]);
    assert |kept| == |kept.Keys|;
    forall i | 0 <= i < limit ensures sorted[..limit][i].id in IdsOf(sorted[..limit]) {
    }
  }

  lemma ListsGrow(out: seq<Summary>, done: map<string, Entry>, e: Entry)
    requires Lists(out, done) && e.id !in done
    ensures Lists(out + [Summarise(e)], done[e.id := e])
  {
    SummaryId(e);
    hide Summarise;
  }

  /** Dropping a detail and marking it deleted keeps disk and memory reconcilable. */
  lemma DropReconciles(details: map<string, Entry>, dirty: set<string>, deleted: set<string>,
                       disk: map<string, Entry>, id: string)
    requires Reconcilable(details, dirty, deleted, disk) && Named(details) && id in details
    ensures Reconcilable(details - {id}, dirty - {id}, deleted + {id}, disk) && Named(details - {id})
  {
  }

  /** The pending work of a store: details, dirty and deleted ids. */
  datatype Pending = Pending(details: map<string, Entry>, dirty: set<string>, deleted: set<string>)

  function Drop(p: Pending, gone: set<string>): Pending {
    Pending(p.details - gone, p.dirty - gone, p.deleted + gone)
  }

  lemma DropMore(p: Pending, gone: set<string>, id: string)
    ensures Drop(Drop(p, gone), {id}) == Drop(p, gone + {id})
  {
    assert (p.details - gone) - {id} == p.details - (gone + {id});
    assert (p.dirty - gone) - {id} == p.dirty - (gone + {id});
    assert (p.deleted + gone) + {id} == p.deleted + (gone + {id});
  }

  lemma DropKeeps(p: Pending, gone: set<string>)
    ensures Drop(p, gone).details.Keys == p.details.Keys - gone
  {
  }

  lemma DropNothing(p: Pending)
    ensures Drop(p, {}) == p
  {
  }

  class Store {
    const disk: Disk
    var broken: bool
    var limit: int
    var revision: int
    var items: seq<Summary>
    var details: map<string, Entry>
    var dirty: set<string>
    var deleted: set<string>

    /** Memory, pending changes and disk fit together. */
    ghost predicate Consistent()
      reads this, disk
    {
      && AllowedLimit(limit) && Named(details)
      && Reconcilable(details, dirty, deleted, disk.details)
    }

    /** The index is the details, newest first and within the limit. */
    ghost predicate Indexed()
      reads this
    {
      && NewestFirst(items) && Lists(items, details)
      && (limit != DISABLED ==> |items| <= limit)
    }

    ghost predicate Valid()
      reads this, disk
    {
      Consistent() && Indexed()
    }

    function File(): Index
      reads this
    {
      Index(VERSION, limit, revision, items)
    }

    /** An empty store on an empty disk. */
    constructor (disk: Disk)
      requires disk.details == map[]
      ensures this.disk == disk && !broken && Valid() && details == map[] && limit == DEFAULT_LIMIT
    {
      this.disk := disk;
      broken, limit, revision := false, DEFAULT_LIMIT, 0;
      items, details, dirty, deleted := [], map[], {}, {};
    }

    method MarkDirty(id: string)
      modifies this`dirty, this`deleted
      ensures var t := TrimSpace(id);
        if t == "" then dirty == old(dirty) && deleted == old(deleted)
        else dirty == old(dirty) + {t} && deleted == old(deleted) - {t}
    {
      var t := TrimSpace(id);
      if t == "" {
        return;
      }
      dirty := dirty + {t};
      deleted := deleted - {t};
    }

    method MarkDeleted(id: string)
      modifies this`dirty, this`deleted
      ensures var t := TrimSpace(id);
        if t == "" then dirty == old(dirty) && deleted == old(deleted)
        else deleted == old(deleted) + {t} && dirty == old(dirty) - {t}
    {
      var t := TrimSpace(id);
      if t == "" {
        return;
      }
      deleted := deleted + {t};
      dirty := dirty - {t};
    }

    method NextRevision(clock: int) returns (next: int)
      modifies this`revision
      ensures next == revision && revision > old(revision) && revision >= clock
    {
      next := clock;
      if next <= revision {
        next := revision + 1;
      }
      revision := next;
    }

    /** The summaries of all details, in no particular order. */
    method Summaries() returns (out: seq<Summary>)
      requires Named(details)
      ensures Lists(out, details)
    {
      hide Summarise, Lists, Named;
      NothingListed();
      out := [];
      var left := details.Keys;
      assert details - left == map[];
      while left != {}
        invariant left <= details.Keys
        invariant Lists(out, details - left)
        decreases |left|
      {
        var id :| id in left;
        NamedId(details, id);
        ListsGrow(out, details - left, details[id]);
        out := out + [Summarise(details[id])];
        assert details - (left - {id}) == (details - left)[id := details[id]];
        left := left - {id};
      }
      assert details - {} == details;
    }

    /** Drops one detail and marks its file for removal. */
    method DropOne(id: string)
      requires Consistent() && id in details
      modifies this`details, this`dirty, this`deleted
      ensures Consistent()
      ensures Pending(details, dirty, deleted) == Drop(old(Pending(details, dirty, deleted)), {id})
    {
      hide Reconcilable, Named, TrimSpace;
      NamedId(details, id);
      DropReconciles(details, dirty, deleted, disk.details, id);
      MarkDeleted(id);
      details := details - {id};
    }

    /** Drops the details that the cut list does not mention. */
    method DropUnlisted(keep: set<string>)
      requires Consistent()
      modifies this`details, this`dirty, this`deleted
      ensures Consistent()
      ensures Pending(details, dirty, deleted) == Drop(old(Pending(details, dirty, deleted)), old(details).Keys - keep)
    {
      hide Reconcilable, Named, Consistent, Drop;
      var left := details.Keys;
      ghost var gone: set<string> := {};
      ghost var given := Pending(details, dirty, deleted);
      DropNothing(given);
      while left != {}
        invariant Consistent()
        invariant left <= details.Keys <= given.details.Keys
        invariant forall k :: k in gone <==> k in given.details.Keys && k !in keep && k !in left
        invariant Pending(details, dirty, deleted) == Drop(given, gone)
        decreases |left|
      {
        var id :| id in left;
        if id !in keep {
          DropMore(given, gone, id);
          DropKeeps(Pending(details, dirty, deleted), {id});
          DropOne(id);
          gone := gone + {id};
        }
        left := left - {id};
      }
      assert gone == given.details.Keys - keep;
    }

    method RebuildIndex()
      requires Consistent()
      modifies this`items, this`details, this`dirty, this`deleted
      ensures Valid() && Trimmed(old(details), details, limit)
      ensures dirty <= old(dirty)
    {
      hide Summarise, Before, Reconcilable, Named, Lists, NewestFirst;
      var summaries := Summaries();
      var sorted := SortNewestFirst(summaries);
      SortedLists(summaries, sorted, details);
      ListsSize(sorted, details);
      if limit == DISABLED || |sorted| <= limit {
        items := sorted;
        return;
      }
      CutAt(sorted);
    }

    /** Keeps the first entries of the sorted list. */
    method CutAt(sorted: seq<Summary>)
      requires Consistent() && Lists(sorted, details) && NewestFirst(sorted) && 0 < limit < |sorted|
      modifies this`items, this`details, this`dirty, this`deleted
      ensures Valid() && Trimmed(old(details), details, limit)
      ensures dirty <= old(dirty)
    {
      hide Summarise, Before, Reconcilable, Named, Lists, NewestFirst, IdsOf, Trimmed;
      var keep := IdsOf(sorted[..limit]);
      DropUnlisted(keep);
      ListsCover(sorted, old(details));
      PrefixIds(sorted, limit);
      assert details.Keys == keep;
      CutIsTrimmed(sorted, old(details), details, limit);
      CutLists(sorted, old(details), details, limit);
      PrefixSorted(sorted, limit);
      items := sorted[..limit];
    }

    /** Removes the files of deleted details, until one operation fails. */
    method RemoveFiles() returns (ok: bool)
      requires Consistent()
      modifies disk`details
      ensures Consistent()
      ensures ok ==> deleted !! disk.details.Keys
    {
      hide Named;
      var left := deleted;
      while left != {}
        invariant left <= deleted && Consistent()
        invariant (deleted - left) !! disk.details.Keys
        decreases |left|
      {
        var id :| id in left;
        var removed := disk.RemoveDetail(id);
        if !removed {
          return false;
        }
        left := left - {id};
      }
      ok := true;
    }

    /** Writes the files of changed details, until one operation fails. */
    method WriteFiles() returns (ok: bool)
      requires Consistent() && deleted !! disk.details.Keys
      modifies disk`details
      ensures Consistent()
      ensures ok ==> disk.details == details
    {
      hide Named;
      var left := dirty;
      while left != {}
        invariant left <= dirty && Consistent() && deleted !! disk.details.Keys
        invariant forall id :: id in dirty - left ==> id in disk.details && disk.details[id] == details[id]
        decreases |left|
      {
        var id :| id in left;
        var written := disk.WriteDetail(id, details[id]);
        if !written {
          return false;
        }
        left := left - {id};
      }
      AllWritten(details, dirty, deleted, disk.details);
      ok := true;
    }

    /** `saveLocked`: whatever fails, memory and disk stay reconcilable; if nothing fails, the disk
        holds exactly the details and the index of memory, even after earlier failures. */
    method Save() returns (ok: bool)
      requires Consistent()
      modifies this`items, this`details, this`dirty, this`deleted, disk
      ensures Valid() && limit == old(limit) && Trimmed(old(details), details, limit)
      ensures ok ==> dirty == {} && deleted == {} && disk.details == details && disk.index == Some(File())
    {
      hide Reconcilable, Lists, NewestFirst, Named, Trimmed;
      RebuildIndex();
      ok := disk.MakeDir();
      if !ok {
        return;
      }
      ok := RemoveFiles();
      if !ok {
        return;
      }
      ok := WriteFiles();
      if !ok {
        return;
      }
      ok := disk.WriteIndex(File());
      if ok {
        dirty, deleted := {}, {};
        Settled(details);
      }
    }

    /** Rebuilds the index and saves, as every public operation ends. */
    method Finish() returns (ok: bool)
      requires Consistent()
      modifies this`items, this`details, this`dirty, this`deleted, disk
      ensures Valid() && limit == old(limit) && Trimmed(old(details), details, limit)
      ensures ok ==> dirty == {} && deleted == {} && disk.details == details && disk.index == Some(File())
    {
      hide Reconcilable, Lists, NewestFirst, Named, Trimmed;
      RebuildIndex();
      ghost var once := details;
      ok := Save();
      CutTwice(old(details), once, details, limit);
    }

    /** Puts a changed or new entry into memory. */
    method Put(e: Entry)
      requires Consistent() && e.id != "" && TrimSpace(e.id) == e.id
      modifies this`details, this`dirty, this`deleted
      ensures Consistent() && details == old(details)[e.id := e]
    {
      details := details[e.id := e];
      MarkDirty(e.id);
    }

    /** The disk holds exactly what memory holds, and nothing is pending. */
    ghost predicate Synced()
      reads this, disk
    {
      dirty == {} && deleted == {} && disk.details == details && disk.index == Some(File())
    }

    method Start(freshID: string, origin: Origin, historyText: string, now: int, clock: int)
      returns (r: Outcome, entry: Entry)
      requires Valid() && freshID !in details && freshID != "" && TrimSpace(freshID) == freshID
      modifies this, disk
      ensures Valid() && broken == old(broken) && limit == old(limit)
      ensures broken ==> r.Broken? && unchanged(this) && unchanged(disk)
      ensures !broken && limit == DISABLED ==> r.Disabled? && unchanged(this) && unchanged(disk)
      ensures !broken && limit != DISABLED ==>
        && (r.SaveFailed? || (r.Done? && Synced()))
        && revision > old(revision) && revision >= clock
        && entry == NewEntry(freshID, revision, now, origin, historyText)
        && Trimmed(old(details)[freshID := entry], details, limit)
        && (|AtLeast(old(details), now)| < limit ==> freshID in details)
        && (freshID in details ==> |After(old(details), now)| < limit)
    {
      hide Reconcilable, Lists, NewestFirst, Named, Trimmed, After, AtLeast;
      entry := NewEntry(freshID, revision, now, origin, historyText);
      if broken {
        return Broken, entry;
      }
      if limit == DISABLED {
        return Disabled, entry;
      }
      var next := NextRevision(clock);
      entry := NewEntry(freshID, next, now, origin, historyText);
      Put(entry);
      var saved := Finish();
      StartedStays(old(details), entry, details, limit);
      r := if saved then Done else SaveFailed;
    }

    method Update(id: string, params: UpdateParams, now: int, clock: int) returns (r: Outcome)
      requires Valid()
      modifies this, disk
      ensures Valid() && broken == old(broken) && limit == old(limit)
      ensures r.Broken? || r.IdRequired? || r.NotFound? ==> unchanged(this) && unchanged(disk)
      ensures var t := TrimSpace(id);
        if broken then r == Broken
        else if t == "" then r == IdRequired
        else if t !in old(details) then r == NotFound
        else
          && (r.SaveFailed? || (r.Done? && Synced()))
          && revision > old(revision) && revision >= clock
          && Trimmed(old(details)[t := Updated(old(details)[t], params, revision, now)], details, limit)
    {
      hide Reconcilable, Lists, NewestFirst, Named, Trimmed;
      if broken {
        return Broken;
      }
      var target := TrimSpace(id);
      if target == "" {
        return IdRequired;
      }
      if target !in details {
        return NotFound;
      }
      NamedId(details, target);
      var next := NextRevision(clock);
      Put(Updated(details[target], params, next, now));
      var saved := Finish();
      r := if saved then Done else SaveFailed;
    }

    method Delete(id: string, clock: int) returns (r: Outcome)
      requires Valid()
      modifies this, disk
      ensures Valid() && broken == old(broken) && limit == old(limit)
      ensures r.Broken? || r.IdRequired? || r.NotFound? ==> unchanged(this) && unchanged(disk)
      ensures var t := TrimSpace(id);
        if broken then r == Broken
        else if t == "" then r == IdRequired
        else if t !in old(details) then r == NotFound
        else
          && (r.SaveFailed? || (r.Done? && Synced()))
          && revision > old(revision) && revision >= clock
          && details == old(details) - {t}
    {
      hide Reconcilable, Lists, NewestFirst, Named, Trimmed;
      if broken {
        return Broken;
      }
      var target := TrimSpace(id);
      if target == "" {
        return IdRequired;
      }
      if target !in details {
        return NotFound;
      }
      FitsAfterDelete(details, items, limit, {target});
      DropOne(target);
      var next := NextRevision(clock);
      var saved := Finish();
      FittingStays(old(details) - {target}, details, limit);
      r := if saved then Done else SaveFailed;
    }

    method Clear(clock: int) returns (r: Outcome)
      requires Valid()
      modifies this, disk
      ensures Valid() && broken == old(broken) && limit == old(limit)
      ensures if broken then r == Broken && unchanged(this) && unchanged(disk)
        else
          && (r.SaveFailed? || (r.Done? && Synced()))
          && revision > old(revision) && revision >= clock && details == map[]
    {
      hide Reconcilable, Lists, NewestFirst, Named, Trimmed;
      if broken {
        return Broken;
      }
      DropUnlisted({});
      assert details == map[];
      var next := NextRevision(clock);
      var saved := Finish();
      FittingStays(map[], details, limit);
      r := if saved then Done else SaveFailed;
    }

    method SetLimit(newLimit: int, clock: int) returns (r: Outcome)
      requires Valid()
      modifies this, disk
      ensures Valid() && broken == old(broken)
      ensures if broken then r == Broken && unchanged(this) && unchanged(disk)
        else if !AllowedLimit(newLimit) then r == BadLimit && unchanged(this) && unchanged(disk)
        else
          && (r.SaveFailed? || (r.Done? && Synced()))
          && limit == newLimit && revision > old(revision) && revision >= clock
          && Trimmed(old(details), details, newLimit)
    {
      hide Reconcilable, Lists, NewestFirst, Named, Trimmed;
      if broken {
        return Broken;
      }
      if !AllowedLimit(newLimit) {
        return BadLimit;
      }
      limit := newLimit;
      var next := NextRevision(clock);
      var saved := Finish();
      r := if saved then Done else SaveFailed;
    }
  }

  datatype Outcome = Broken | Disabled | IdRequired | NotFound | BadLimit | SaveFailed | Done

  datatype UpdateParams =
    UpdateParams(status: string, reply: Reply, hasUsage: bool, completed: bool, historyText: string)

  function TrimOrigin(o: Origin): Origin {
    o.(callerID := TrimSpace(o.callerID), accountID := TrimSpace(o.accountID), model := TrimSpace(o.model),
    userInput := TrimSpace(o.userInput), finalPrompt := TrimSpace(o.finalPrompt))
  }

  function NewEntry(id: string, revision: int, now: int, origin: Origin, historyText: string): Entry {
    Entry(id, revision, now, now, 0, "streaming", TrimOrigin(origin), NO_REPLY, historyText)
  }

  function Updated(e: Entry, p: UpdateParams, revision: int, now: int): Entry {
    var reply := p.reply.(error := TrimSpace(p.reply.error), finishReason := TrimSpace(p.reply.finishReason),
                          usage := if p.hasUsage then p.reply.usage else e.reply.usage);
    e.(revision := revision, updatedAt := now, reply := reply,
    status := if p.status != "" then p.status else e.status,
    completedAt := if p.completed then now else e.completedAt,
    historyText := if TrimSpace(p.historyText) != "" then p.historyText else e.historyText)
  }

  /** The second text is the first without the blanks around it. */
  predicate UpToBlanks(given: string, kept: string) {
    && (exists i, j :: 0 <= i <= j <= |given| && given[i..j] == kept
          && All(given[..i], SPACES) && All(given[j..], SPACES))
    && (kept != "" ==> kept[0] !in SPACES && kept[|kept| - 1] !in SPACES)
  }

  lemma TrimsUpToBlanks(s: string)
    ensures UpToBlanks(s, TrimSpace(s))
  {
    hide SPACES, TrimSpace;
    var a, b := Around(s);
    var t := TrimSpace(s);
    assert s[..|a|] == a && s[|a| + |t|..] == b && s[|a|..|a| + |t|] == t;
    if t != "" {
      TrimEnds(s);
    }
  }

  /** What an entry could be recognised by, the best first. */
  function Texts(e: Entry): seq<string> {
    [e.reply.content, e.reply.reasoning, e.reply.error, e.origin.userInput]
  }

  /** The preview shows the first of its texts that is not blank, cut at 160 characters. */
  lemma PreviewShows(e: Entry, k: nat, shown: string)
    requires k < 4 && (forall j :: 0 <= j < k ==> All(Texts(e)[j], SPACES)) && UpToBlanks(Texts(e)[k], shown)
    requires k < 3 ==> shown != ""
    ensures |shown| <= 160 ==> Preview(e) == shown
    ensures |shown| > 160 ==> Preview(e) == shown[..160] + "..."
  {
    hide SPACES, TrimSpace, All, UpToBlanks;
    forall j | 0 <= j < k ensures TrimSpace(Texts(e)[j]) == "" {
      TrimsToNothing(Texts(e)[j]);
    }
    UpToBlanksTrims(Texts(e)[k], shown);
    assert k > 0 ==> TrimSpace(Texts(e)[0]) == "";
    assert k > 1 ==> TrimSpace(Texts(e)[1]) == "";
    assert k > 2 ==> TrimSpace(Texts(e)[2]) == "";
  }

  lemma UpToBlanksTrims(given: string, kept: string)
    requires UpToBlanks(given, kept)
    ensures TrimSpace(given) == kept
  {
    hide SPACES, TrimSpace;
    var i, j :| 0 <= i <= j <= |given| && given[i..j] == kept && All(given[..i], SPACES) && All(given[j..], SPACES);
    assert given == given[..i] + kept + given[j..];
    if kept == "" {
      BlanksJoin(given[..i], given[j..]);
      assert given == given[..i] + given[j..];
      TrimsToNothing(given);
    } else {
      TrimPadded(given[..i], kept, given[j..]);
    }
  }

  lemma BlanksJoin(a: string, b: string)
    requires All(a, SPACES) && All(b, SPACES)
    ensures All(a + b, SPACES)
  {
    hide SPACES;
  }

  /** A summary in the index tells whose entry it is, how it went and when. */
  lemma SummaryReads(items: seq<Summary>, details: map<string, Entry>, id: string)
    requires Lists(items, details) && id in details && Named(details)
    ensures exists i :: 0 <= i < |items| && items[i].id == id && var s, e := items[i], details[id];
      && s.callerID == e.origin.callerID && s.accountID == e.origin.accountID && s.model == e.origin.model
      && s.stream == e.origin.stream && s.userInput == e.origin.userInput && s.preview == Preview(e)
      && s.status == e.status && s.statusCode == e.reply.statusCode && s.finishReason == e.reply.finishReason
      && s.elapsedMs == e.reply.elapsedMs && s.revision == s.detailRevision == e.revision
      && s.createdAt == e.createdAt && s.updatedAt == e.updatedAt && s.completedAt == e.completedAt
  {
    hide TrimSpace, Preview;
    ListsCover(items, details);
    assert id in IdsOf(items);
  }

  /** An updated entry is still the same request, and says what the update says of its reply. */
  lemma UpdateReads(e: Entry, p: UpdateParams, revision: int, now: int)
    ensures var n := Updated(e, p, revision, now);
      && n.id == e.id && n.createdAt == e.createdAt && n.origin == e.origin
      && n.revision == revision && n.updatedAt == now && n.completedAt == (if p.completed then now else e.completedAt)
      && n.status == (if p.status == "" then e.status else p.status)
      && n.reply.content == p.reply.content && n.reply.reasoning == p.reply.reasoning
      && n.reply.statusCode == p.reply.statusCode && n.reply.elapsedMs == p.reply.elapsedMs
      && UpToBlanks(p.reply.error, n.reply.error) && UpToBlanks(p.reply.finishReason, n.reply.finishReason)
      && n.reply.usage == (if p.hasUsage then p.reply.usage else e.reply.usage)
      && n.historyText == (if All(p.historyText, SPACES) then e.historyText else p.historyText)
  {
    hide SPACES, UpToBlanks, TrimSpace, All;
    TrimsUpToBlanks(p.reply.error);
    TrimsUpToBlanks(p.reply.finishReason);
    TrimsToNothing(p.historyText);
  }

  /** A later update of the same kind leaves nothing of the reply of an earlier one. */
  lemma LastUpdateCounts(e: Entry, p: UpdateParams, q: UpdateParams, r: int, s: int, t: int, u: int)
    requires q.hasUsage && q.status != "" && q.completed && TrimSpace(q.historyText) != ""
    ensures Updated(Updated(e, p, r, t), q, s, u) == Updated(e, q, s, u)
  {
    hide TrimSpace;
  }

  lemma AllWritten(details: map<string, Entry>, dirty: set<string>, deleted: set<string>, disk: map<string, Entry>)
    requires Reconcilable(details, dirty, deleted, disk) && deleted !! disk.Keys
    requires forall id :: id in dirty ==> id in disk && disk[id] == details[id]
    ensures disk == details
  {
    forall id ensures id in disk <==> id in details {
    }
  }

  /** A started entry is its request, without blanks around what identifies it, and no reply yet. */
  lemma NewReads(id: string, revision: int, now: int, o: Origin, historyText: string)
    ensures var e := NewEntry(id, revision, now, o, historyText);
      && e.id == id && e.revision == revision && e.createdAt == now && e.updatedAt == now && e.completedAt == 0
      && e.status == "streaming" && e.reply == NO_REPLY && e.historyText == historyText
      && UpToBlanks(o.callerID, e.origin.callerID) && UpToBlanks(o.accountID, e.origin.accountID)
      && UpToBlanks(o.model, e.origin.model) && UpToBlanks(o.userInput, e.origin.userInput)
      && UpToBlanks(o.finalPrompt, e.origin.finalPrompt)
      && e.origin.stream == o.stream && e.origin.messages == o.messages
  {
    hide SPACES, UpToBlanks, TrimSpace;
    TrimsUpToBlanks(o.callerID);
    TrimsUpToBlanks(o.accountID);
    TrimsUpToBlanks(o.model);
    TrimsUpToBlanks(o.userInput);
    TrimsUpToBlanks(o.finalPrompt);
  }

  lemma Settled(details: map<string, Entry>)
    ensures Reconcilable(details, {}, {}, details)
  {
  }

  /** Trimming what is already trimmed changes nothing. */
  lemma CutTwice(all: map<string, Entry>, once: map<string, Entry>, twice: map<string, Entry>, limit: int)
    requires Trimmed(all, once, limit) && Trimmed(once, twice, limit)
    ensures Trimmed(all, twice, limit) && twice == once
  {
  }

  lemma FittingStays(all: map<string, Entry>, kept: map<string, Entry>, limit: int)
    requires Trimmed(all, kept, limit) && (limit == DISABLED || |all| <= limit)
    ensures kept == all
  {
  }

  /** An entry that stays has fewer newer ones than the limit; an entry with at most as many newer
      or equally old ones, itself included, stays. */
  lemma StaysWithin(all: map<string, Entry>, kept: map<string, Entry>, limit: nat, id: string)
    requires Trimmed(all, kept, limit) && id in all && limit > 0
    ensures id in kept ==> |NewerIn(all, all[id])| < limit
    ensures |NotOlderIn(all, all[id])| <= limit ==> id in kept
  {
    hide Newer;
    if id in kept {
      NotNewer(all[id]);
      SubsetSize(NewerIn(all, all[id]) + {id}, kept.Keys);
      assert |kept.Keys| == |kept|;
    } else {
      NotNewer(all[id]);
      SubsetSize(kept.Keys + {id}, NotOlderIn(all, all[id]));
      assert |kept.Keys| == |kept|;
    }
  }

  lemma NotNewer(e: Entry)
    ensures !Newer(e, e)
  {
  }

  /** Of entries with different times, exactly those with fewer newer ones than the limit stay. */
  lemma StaysIff(all: map<string, Entry>, kept: map<string, Entry>, limit: nat, id: string)
    requires Trimmed(all, kept, limit) && id in all && limit > 0
    requires forall o :: o in all && o != id ==> Newer(all[o], all[id]) || Newer(all[id], all[o])
    ensures id in kept <==> |NewerIn(all, all[id])| < limit
  {
    hide Newer, Trimmed;
    StaysWithin(all, kept, limit, id);
    NotNewer(all[id]);
    OneOlder(all, id);
    assert NotOlderIn(all, all[id]) == NewerIn(all, all[id]) + {id};
  }

  lemma OneOlder(all: map<string, Entry>, id: string)
    requires id in all
    ensures forall o :: o in all && Newer(all[o], all[id]) ==> !Newer(all[id], all[o])
  {
  }

  /** An entry started at `now` stays if fewer stored entries than the limit are as new or newer,
      and only if fewer are newer. */
  lemma StartedStays(stored: map<string, Entry>, e: Entry, kept: map<string, Entry>, limit: nat)
    requires e.id !in stored && e.updatedAt == e.createdAt && limit > 0 && Trimmed(stored[e.id := e], kept, limit)
    ensures |AtLeast(stored, e.createdAt)| < limit ==> e.id in kept
    ensures e.id in kept ==> |After(stored, e.createdAt)| < limit
  {
    hide Trimmed;
    var all := stored[e.id := e];
    StaysWithin(all, kept, limit, e.id);
    NotNewer(e);
    StartedTimes(stored, e);
  }

  lemma StartedTimes(stored: map<string, Entry>, e: Entry)
    requires e.id !in stored && e.updatedAt == e.createdAt
    ensures var all := stored[e.id := e];
      && NewerIn(all, e) == After(stored, e.createdAt)
      && NotOlderIn(all, e) == AtLeast(stored, e.createdAt) + {e.id}
  {
  }

  ghost predicate AllAt(details: map<string, Entry>, now: int) {
    forall k :: k in details ==> details[k].updatedAt == details[k].createdAt == now
  }

  lemma AllLater(details: map<string, Entry>, now: int, earlier: int)
    requires AllAt(details, now) && earlier < now
    ensures After(details, earlier) == details.Keys
  {
  }

  /** Below the limit, a started entry joins the others. */
  lemma Joins(details: map<string, Entry>, e: Entry, kept: map<string, Entry>, limit: int, now: int)
    requires AllAt(details, now) && e.updatedAt == e.createdAt == now && e.id !in details
    requires |details| < limit && Trimmed(details[e.id := e], kept, limit)
    ensures kept == details[e.id := e] && |kept| == |details| + 1 && AllAt(kept, now)
  {
  }

  lemma NothingLeft(kept: map<string, Entry>, limit: int)
    requires Trimmed(map[], kept, limit)
    ensures kept == map[]
  {
  }

  lemma NewAt(id: string, revision: int, now: int, origin: Origin)
    ensures var e := NewEntry(id, revision, now, origin, ""); e.id == id && e.updatedAt == e.createdAt == now
  {
  }

  lemma Fills(all: map<string, Entry>, kept: map<string, Entry>, limit: int)
    requires Trimmed(all, kept, limit) && 0 < limit < |all|
    ensures |kept| == limit
  {
  }

  function Numeral(i: nat): string {
    if i == 0 then "a" else Numeral(i - 1) + "a"
  }

  lemma {:induction false} NumeralIs(i: nat)
    ensures |Numeral(i)| == i + 1 && forall k :: 0 <= k <= i ==> Numeral(i)[k] == 'a'
  {
    if i > 0 {
      NumeralIs(i - 1);
    }
  }

  lemma NumeralNames(i: nat)
    ensures Numeral(i) != "" && TrimSpace(Numeral(i)) == Numeral(i) && |Numeral(i)| == i + 1
  {
    hide TrimSpace, Numeral;
    NumeralIs(i);
    assert "" + Numeral(i) + "" == Numeral(i) && All("", SPACES);
    TrimPadded("", Numeral(i), "");
  }

  /** A full store and a clock that runs backwards: ten entries at time 5, then one at time 3, which
      is gone as soon as it is started, whatever the disk refuses. */
  method FullStoreEvicts(disk: Disk, origin: Origin) returns (store: Store, id: string, r: Outcome)
    requires disk.details == map[]
    modifies disk
    ensures fresh(store) && store.Valid() && (r.Done? || r.SaveFailed?)
    ensures |store.details| == 10 && id !in store.details
  {
    hide Trimmed, After, AtLeast, NewEntry, AllAt, TrimSpace, Numeral, Reconcilable, Lists, NewestFirst, Named;
    store := new Store(disk);
    var limited := store.SetLimit(10, 0);
    NothingLeft(store.details, 10);
    assert AllAt(store.details, 5) by { NoneAt(5); }
    var entry;
    var i := 0;
    while i < 10
      invariant 0 <= i <= 10 && fresh(store) && store.disk == disk
      invariant store.Valid() && !store.broken && store.limit == 10
      invariant |store.details| == i && AllAt(store.details, 5)
      invariant forall k :: k in store.details ==> |k| <= i
    {
      NumeralNames(i);
      ghost var before := store.details;
      r, entry := store.Start(Numeral(i), origin, "", 5, 0);
      NewAt(Numeral(i), store.revision, 5, origin);
      Joins(before, entry, store.details, 10, 5);
      i := i + 1;
    }
    ghost var full := store.details;
    AllLater(full, 5, 3);
    NumeralNames(10);
    id := Numeral(10);
    r, entry := store.Start(id, origin, "", 3, 0);
    assert |full[id := entry]| == 11;
    Fills(full[id := entry], store.details, 10);
    assert |full.Keys| == |full|;
  }

  lemma NoneAt(now: int)
    ensures AllAt(map[], now)
  {
  }

  lemma FitsAfterDelete(details: map<string, Entry>, items: seq<Summary>, limit: int, gone: set<string>)
    requires Lists(items, details) && (limit != DISABLED ==> |items| <= limit)
    ensures limit == DISABLED || |details - gone| <= limit
  {
    SubsetSize((details - gone).Keys, details.Keys);
  }

  lemma NamedId(details: map<string, Entry>, id: string)
    requires Named(details) && id in details
    ensures details[id].id == id && id != "" && TrimSpace(id) == id
  {
  }

  lemma NothingListed()
    ensures Lists([], map[])
  {
  }

  lemma SummaryId(e: Entry)
    ensures Summarise(e).id == e.id
  {
  }

  lemma ListsSize(items: seq<Summary>, details: map<string, Entry>)
    requires Lists(items, details)
    ensures |items| == |details|
  {
  }

  lemma PrefixIds(items: seq<Summary>, n: nat)
    requires n <= |items|
    ensures IdsOf(items[..n]) <= IdsOf(items)
  {
    forall id | id in IdsOf(items[..n]) ensures id in IdsOf(items) {
      var i :| 0 <= i < n && items[..n][i].id == id;
      assert items[i].id == id;
    }
  }

  lemma PrefixSorted(items: seq<Summary>, n: nat)
    requires n <= |items| && NewestFirst(items)
    ensures NewestFirst(items[..n])
  {
  }
}
