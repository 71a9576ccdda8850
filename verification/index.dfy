/**
 * The auxiliary collections: the index returned by the locations, dates and
 * relation endpoints turned into a map keyed by the artist id as `%d` prints
 * it, and the lookups into those maps.
 */
module Index {
  import opened Text

  /** One element of an endpoint's `index` array: an artist id and its data. */
  datatype IndexEntry<T> = IndexEntry(id: int, payload: T)

  /** The map key of an artist id. */
  function Key(id: int): string
  {
    DecimalFormat(id)
  }

  /** The map the builder loops leave: one assignment per entry, in order. */
  function IndexMap<T>(entries: seq<IndexEntry<T>>): map<string, T>
  {
    if entries == [] then map[]
    else
      var last := entries[|entries| - 1];
      IndexMap(entries[..|entries| - 1])[Key(last.id) := last.payload]
  }

  /** Entry `i` is the last entry of the index that carries `id`. */
  predicate IsLastWithId<T>(entries: seq<IndexEntry<T>>, i: int, id: int)
  {
    0 <= i < |entries| && entries[i].id == id && forall j :: i < j < |entries| ==> entries[j].id != id
  }

  /** The map has a key for an id exactly when some entry carries that id, and no other keys. */
  lemma {:induction false} IndexMapKeys<T>(entries: seq<IndexEntry<T>>, id: int)
    ensures Key(id) in IndexMap(entries) <==> exists i :: 0 <= i < |entries| && entries[i].id == id
    ensures forall k :: k in IndexMap(entries) ==> exists i :: 0 <= i < |entries| && k == Key(entries[i].id)
  {
    if entries != [] {
      var init, last := entries[..|entries| - 1], entries[|entries| - 1];
      IndexMapKeys(init, id);
      DecimalFormatInjective(last.id, id);
      assert forall i :: 0 <= i < |init| ==> init[i] == entries[i];
      if Key(id) in IndexMap(entries) && last.id != id {
        var i :| 0 <= i < |init| && init[i].id == id;
        assert entries[i].id == id;
      }
    }
  }

  /** A later entry with the same id overwrites an earlier one: the last one wins. */
  lemma {:induction false} IndexMapLastWins<T>(entries: seq<IndexEntry<T>>, i: int)
    requires 0 <= i < |entries|
    requires forall j :: i < j < |entries| ==> entries[j].id != entries[i].id
    ensures Key(entries[i].id) in IndexMap(entries)
    ensures IndexMap(entries)[Key(entries[i].id)] == entries[i].payload
  {
    var init, last := entries[..|entries| - 1], entries[|entries| - 1];
    if i < |entries| - 1 {
      IndexMapLastWins(init, i);
      DecimalFormatInjective(last.id, entries[i].id);
    }
  }

  /** The builder loop of the locations and dates fetchers. */
  method BuildIndex<T>(entries: seq<IndexEntry<T>>) returns (result: map<string, T>)
    ensures result == IndexMap(entries)
  {
    result := map[];
    for i := 0 to |entries|
      invariant result == IndexMap(entries[..i])
    {
      assert entries[..i + 1][..i] == entries[..i];
      var entry := entries[i];
      result := result[Key(entry.id) := entry.payload];
    }
    assert entries[..|entries|] == entries;
  }

  /** A map lookup where a missing key reads as the empty list, as a nil slice does. */
  function LookupOrEmpty(m: map<string, seq<string>>, id: int): seq<string>
  {
    if Key(id) in m then m[Key(id)] else []
  }

  /**
   * Looking an id up in a built map gives the data of the last entry with
   * that id, and the empty list when no entry has it.
   */
  lemma LookupInIndex(entries: seq<IndexEntry<seq<string>>>, id: int)
    ensures (forall i :: 0 <= i < |entries| ==> entries[i].id != id) ==>
      LookupOrEmpty(IndexMap(entries), id) == []
    ensures forall i :: IsLastWithId(entries, i, id) ==>
      LookupOrEmpty(IndexMap(entries), id) == entries[i].payload
  {
    IndexMapKeys(entries, id);
    forall i | IsLastWithId(entries, i, id)
      ensures LookupOrEmpty(IndexMap(entries), id) == entries[i].payload
    {
      IndexMapLastWins(entries, i);
    }
  }

  // ---- relations ----

  /** One concert: the date and the location, joined by an arrow. */
  function FormatRelation(date: string, location: string): string
  {
    date + " → " + location
  }

  /** The formatted strings of a list of (date, location) pairs, one per pair. */
  function FormatPairs(pairs: seq<(string, string)>): (r: seq<string>)
    ensures |r| == |pairs|
    ensures forall k :: 0 <= k < |pairs| ==> r[k] == FormatRelation(pairs[k].0, pairs[k].1)
  {
    if pairs == [] then [] else [FormatRelation(pairs[0].0, pairs[0].1)] + FormatPairs(pairs[1..])
  }

  /** The relation index with every entry's pairs replaced by their formatted strings. */
  function FormatEntries(entries: seq<IndexEntry<seq<(string, string)>>>): (r: seq<IndexEntry<seq<string>>>)
    ensures |r| == |entries|
    ensures forall k :: 0 <= k < |entries| ==>
      r[k].id == entries[k].id && r[k].payload == FormatPairs(entries[k].payload)
  {
    if entries == [] then []
    else [IndexEntry(entries[0].id, FormatPairs(entries[0].payload))] + FormatEntries(entries[1..])
  }

  /** The inner loop of the relation fetcher: one formatted string per pair, in order. */
  method FormatAll(pairs: seq<(string, string)>) returns (arr: seq<string>)
    ensures arr == FormatPairs(pairs)
  {
    arr := [];
    for k := 0 to |pairs|
      invariant |arr| == k
      invariant forall m :: 0 <= m < k ==> arr[m] == FormatRelation(pairs[m].0, pairs[m].1)
    {
      var (date, location) := pairs[k];
      arr := arr + [FormatRelation(date, location)];
    }
  }

  /** The outer loop of the relation fetcher. */
  method BuildRelationIndex(entries: seq<IndexEntry<seq<(string, string)>>>)
    returns (result: map<string, seq<string>>)
    ensures result == IndexMap(FormatEntries(entries))
  {
    ghost var formatted := FormatEntries(entries);
    result := map[];
    for i := 0 to |entries|
      invariant result == IndexMap(formatted[..i])
    {
      assert formatted[..i + 1][..i] == formatted[..i];
      var entry := entries[i];
      var arr := FormatAll(entry.payload);
      result := result[Key(entry.id) := arr];
    }
    assert formatted[..|entries|] == formatted;
  }

  /**
   * The relation list of an artist has one formatted string for each pair of
   * the last relation entry with its id, and is empty when there is none.
   */
  lemma LookupInRelations(entries: seq<IndexEntry<seq<(string, string)>>>, id: int)
    ensures (forall i :: 0 <= i < |entries| ==> entries[i].id != id) ==>
      LookupOrEmpty(IndexMap(FormatEntries(entries)), id) == []
    ensures forall i :: IsLastWithId(entries, i, id) ==>
        var r := LookupOrEmpty(IndexMap(FormatEntries(entries)), id);
        |r| == |entries[i].payload| &&
        forall k :: 0 <= k < |r| ==> r[k] == FormatRelation(entries[i].payload[k].0, entries[i].payload[k].1)
  {
    var formatted := FormatEntries(entries);
    LookupInIndex(formatted, id);
    forall i | IsLastWithId(entries, i, id) ensures IsLastWithId(formatted, i, id) { }
  }
}
