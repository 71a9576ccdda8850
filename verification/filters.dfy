/**
 * The join/filter engine of the index and artist handlers: the name filter,
 * the member-count filter and the lookup of one artist by id.
 */
module Filters {
  import opened Wrappers
  import opened Text
  import opened Catalog

  /** A query of this many characters or more is reported as "Limit reached". */
  const QueryLimit := 30

  /** What a filter keeps: a (lower-cased) name query or a member-count selector. */
  datatype Criterion = ByName(query: string) | ByBucket(selector: string)

  /** The member-count switch: "1".."4" exact, "5" five or more, anything else nothing. */
  predicate InBucket(selector: string, count: nat)
  {
    match selector
    case "1" => count == 1
    case "2" => count == 2
    case "3" => count == 3
    case "4" => count == 4
    case "5" => count >= 5
    case _ => false
  }

  predicate NameMatches(a: Artist, query: string)
  {
    Contains(ToLower(a.name), query)
  }

  predicate Accepts(c: Criterion, a: Artist)
  {
    match c
    case ByName(q) => NameMatches(a, q)
    case ByBucket(sel) => InBucket(sel, |a.members|)
  }

  /**
   * The artists of `s` that `c` accepts, in their original order: what the
   * append loops build, one element at a time.
   */
  function Keep(s: seq<Artist>, c: Criterion): (r: seq<Artist>)
    ensures |r| <= |s|
    ensures forall a :: a in r <==> a in s && Accepts(c, a)
  {
    if s == [] then []
    else
      var rest := Keep(s[..|s| - 1], c);
      var last := s[|s| - 1];
      assert s == s[..|s| - 1] + [last];
      if Accepts(c, last) then rest + [last] else rest
  }

  /** Name filter: an empty query takes the list as it is. */
  function NameFiltered(artists: seq<Artist>, query: string): seq<Artist>
  {
    if query == "" then artists else Keep(artists, ByName(query))
  }

  /** Member-count filter: an empty selector takes the list as it is. */
  function MembersFiltered(artists: seq<Artist>, selector: string): seq<Artist>
  {
    if selector == "" then artists else Keep(artists, ByBucket(selector))
  }

  // ---- what the filters keep ----

  /** `idx` picks, in increasing positions of `ys`, the elements of `xs`. */
  ghost predicate Embeds(idx: seq<int>, xs: seq<Artist>, ys: seq<Artist>)
  {
    && |idx| == |xs|
    && (forall k :: 0 <= k < |idx| ==> 0 <= idx[k] < |ys| && ys[idx[k]] == xs[k])
    && (forall k, l :: 0 <= k < l < |idx| ==> idx[k] < idx[l])
  }

  /** `xs` is `ys` with some elements removed and the rest in the same order. */
  ghost predicate IsSubsequence(xs: seq<Artist>, ys: seq<Artist>)
  {
    exists idx :: Embeds(idx, xs, ys)
  }

  /** The positions of `s` whose elements `Keep` retains. */
  ghost function KeptPositions(s: seq<Artist>, c: Criterion): seq<int>
  {
    if s == [] then []
    else
      var rest := KeptPositions(s[..|s| - 1], c);
      if Accepts(c, s[|s| - 1]) then rest + [|s| - 1] else rest
  }

  /** The kept positions pick out, in increasing order, exactly what `Keep` returns. */
  lemma {:induction false} KeptPositionsEmbed(s: seq<Artist>, c: Criterion)
    ensures Embeds(KeptPositions(s, c), Keep(s, c), s)
  {
    if s != [] {
      var init, last := s[..|s| - 1], s[|s| - 1];
      KeptPositionsEmbed(init, c);
      var rest, kept := KeptPositions(init, c), Keep(init, c);
      assert forall k :: 0 <= k < |rest| ==> 0 <= rest[k] < |init| && s[rest[k]] == init[rest[k]];
      assert Embeds(rest, kept, s);
      if Accepts(c, last) {
        var idx, xs := rest + [|s| - 1], kept + [last];
        assert forall k :: 0 <= k < |rest| ==> idx[k] == rest[k] && xs[k] == kept[k];
        assert Embeds(idx, xs, s);
      }
    }
  }

  /** A filter only removes elements: what it keeps stays in order. */
  lemma KeepIsSubsequence(s: seq<Artist>, c: Criterion)
    ensures IsSubsequence(Keep(s, c), s)
  {
    KeptPositionsEmbed(s, c);
    assert Embeds(KeptPositions(s, c), Keep(s, c), s);
  }

  /** Removing elements twice is removing elements once. */
  lemma SubsequenceTransitive(xs: seq<Artist>, ys: seq<Artist>, zs: seq<Artist>)
    requires IsSubsequence(xs, ys) && IsSubsequence(ys, zs)
    ensures IsSubsequence(xs, zs)
  {
    var i1 :| Embeds(i1, xs, ys);
    var i2 :| Embeds(i2, ys, zs);
    var idx := seq(|i1|, k requires 0 <= k < |i1| => i2[i1[k]]);
    assert Embeds(idx, xs, zs);
  }

  /** Each accepted artist is kept as many times as it occurs; no other is kept. */
  lemma {:induction false} KeepCounts(s: seq<Artist>, c: Criterion, a: Artist)
    ensures multiset(Keep(s, c))[a] == if Accepts(c, a) then multiset(s)[a] else 0
  {
    if s != [] {
      var init, last := s[..|s| - 1], s[|s| - 1];
      assert s == init + [last];
      KeepCounts(init, c, a);
    }
  }

  /** A criterion that accepts every artist keeps the list unchanged. */
  lemma {:induction false} KeepAll(s: seq<Artist>, c: Criterion)
    requires forall a :: a in s ==> Accepts(c, a)
    ensures Keep(s, c) == s
  {
    if s != [] {
      var init := s[..|s| - 1];
      assert s == init + [s[|s| - 1]];
      KeepAll(init, c);
    }
  }

  /** A criterion that accepts nothing in the list leaves it empty. */
  lemma {:induction false} KeepNone(s: seq<Artist>, c: Criterion)
    requires forall a :: a in s ==> !Accepts(c, a)
    ensures Keep(s, c) == []
  {
    if s != [] {
      var init := s[..|s| - 1];
      assert s == init + [s[|s| - 1]];
      KeepNone(init, c);
    }
  }

  /**
   * The name filter keeps, in order and with their multiplicity, exactly the
   * artists whose lower-cased name contains the query; for the empty query
   * that is every artist.
   */
  lemma NameFilterExact(artists: seq<Artist>, query: string)
    ensures IsSubsequence(NameFiltered(artists, query), artists)
    ensures NameFiltered(artists, query) == Keep(artists, ByName(query))
    ensures forall a ::
      multiset(NameFiltered(artists, query))[a] == (if NameMatches(a, query) then multiset(artists)[a] else 0)
    ensures forall a :: a in NameFiltered(artists, query) <==>
      a in artists && Contains(ToLower(a.name), query)
  {
    if query == "" {
      forall a | a in artists ensures Accepts(ByName(query), a) {
        ContainsBounds(ToLower(a.name), query);
      }
      KeepAll(artists, ByName(query));
    }
    KeepIsSubsequence(artists, ByName(query));
    forall a ensures multiset(NameFiltered(artists, query))[a] ==
      (if NameMatches(a, query) then multiset(artists)[a] else 0)
    {
      KeepCounts(artists, ByName(query), a);
    }
  }

  /**
   * The member filter: no selector keeps everything, "1".."4" keep exactly
   * that many members, "5" keeps five or more, and any other selector keeps
   * nothing at all.
   */
  lemma MembersFilterBuckets(artists: seq<Artist>, selector: string)
    ensures IsSubsequence(MembersFiltered(artists, selector), artists)
    ensures selector == "" ==> MembersFiltered(artists, selector) == artists
    ensures selector == "1" ==>
      forall a :: a in MembersFiltered(artists, selector) <==> a in artists && |a.members| == 1
    ensures selector == "2" ==>
      forall a :: a in MembersFiltered(artists, selector) <==> a in artists && |a.members| == 2
    ensures selector == "3" ==>
      forall a :: a in MembersFiltered(artists, selector) <==> a in artists && |a.members| == 3
    ensures selector == "4" ==>
      forall a :: a in MembersFiltered(artists, selector) <==> a in artists && |a.members| == 4
    ensures selector == "5" ==>
      forall a :: a in MembersFiltered(artists, selector) <==> a in artists && |a.members| >= 5
    ensures selector !in {"", "1", "2", "3", "4", "5"} ==> MembersFiltered(artists, selector) == []
    ensures forall a ::
      multiset(MembersFiltered(artists, selector))[a] ==
        (if selector == "" || InBucket(selector, |a.members|) then multiset(artists)[a] else 0)
  {
    if selector == "" {
      assert IsSubsequence(artists, artists) by {
        var idx := seq(|artists|, k => k);
        assert Embeds(idx, artists, artists);
      }
    } else {
      KeepIsSubsequence(artists, ByBucket(selector));
      if selector !in {"1", "2", "3", "4", "5"} {
        KeepNone(artists, ByBucket(selector));
      }
      forall a ensures multiset(MembersFiltered(artists, selector))[a] ==
        (if InBucket(selector, |a.members|) then multiset(artists)[a] else 0)
      {
        KeepCounts(artists, ByBucket(selector), a);
      }
    }
  }

  // ---- the loops of the index handler ----

  /**
   * The name filter loop: lower-cases the query, flags a query that reaches
   * the limit, and keeps filtering whatever the flag says.
   */
  method FilterByName(artists: seq<Artist>, rawQuery: string)
    returns (filtered: seq<Artist>, query: string, limitReached: bool)
    ensures query == ToLower(rawQuery)
    ensures limitReached <==> |rawQuery| >= QueryLimit
    ensures filtered == NameFiltered(artists, query)
  {
    query := ToLower(rawQuery);
    limitReached := |query| >= QueryLimit;
    if query != "" {
      filtered := [];
      for i := 0 to |artists|
        invariant filtered == Keep(artists[..i], ByName(query))
      {
        assert artists[..i + 1][..i] == artists[..i];
        var a := artists[i];
        if Contains(ToLower(a.name), query) {
          filtered := filtered + [a];
        }
      }
      assert artists[..|artists|] == artists;
    } else {
      filtered := artists;
    }
  }

  /** The member filter loop with its switch on the selector. */
  method FilterByMembers(artists: seq<Artist>, selector: string) returns (filtered: seq<Artist>)
    ensures filtered == MembersFiltered(artists, selector)
  {
    filtered := artists;
    if selector != "" {
      var temp := [];
      for i := 0 to |artists|
        invariant temp == Keep(artists[..i], ByBucket(selector))
      {
        assert artists[..i + 1][..i] == artists[..i];
        var a := artists[i];
        var count := |a.members|;
        match selector {
          case "1" => if count == 1 { temp := temp + [a]; }
          case "2" => if count == 2 { temp := temp + [a]; }
          case "3" => if count == 3 { temp := temp + [a]; }
          case "4" => if count == 4 { temp := temp + [a]; }
          case "5" => if count >= 5 { temp := temp + [a]; }
          case _ =>
        }
      }
      assert artists[..|artists|] == artists;
      filtered := temp;
    }
  }

  // ---- the lookup of the artist handler ----

  /** The first artist of the list with the given id, if any. */
  function FirstWithId(artists: seq<Artist>, id: int): Option<Artist>
  {
    if artists == [] then None
    else if artists[0].id == id then Some(artists[0])
    else FirstWithId(artists[1..], id)
  }

  /**
   * The lookup misses exactly when no artist has the id, and otherwise finds
   * the artist at the earliest position that has it.
   */
  lemma {:induction false} FirstWithIdIsFirstMatch(artists: seq<Artist>, id: int)
    ensures FirstWithId(artists, id).None? <==> forall i :: 0 <= i < |artists| ==> artists[i].id != id
    ensures FirstWithId(artists, id).Some? ==>
      exists i :: 0 <= i < |artists| && artists[i] == FirstWithId(artists, id).value
        && artists[i].id == id && forall j :: 0 <= j < i ==> artists[j].id != id
  {
    if artists != [] && artists[0].id != id {
      var tail := artists[1..];
      FirstWithIdIsFirstMatch(tail, id);
      assert forall i :: 1 <= i < |artists| ==> artists[i] == tail[i - 1];
      if FirstWithId(tail, id).Some? {
        var i :| 0 <= i < |tail| && tail[i] == FirstWithId(tail, id).value
          && tail[i].id == id && forall j :: 0 <= j < i ==> tail[j].id != id;
        assert artists[i + 1] == tail[i];
      }
    } else if artists != [] {
      assert artists[0] == FirstWithId(artists, id).value;
    }
  }

  /** The search loop with its `found` flag and early exit. */
  method FindArtist(artists: seq<Artist>, id: int) returns (artist: Artist, found: bool)
    ensures found <==> exists i :: 0 <= i < |artists| && artists[i].id == id
    ensures found ==> FirstWithId(artists, id) == Some(artist)
    ensures !found ==> FirstWithId(artists, id) == None && artist == ZeroArtist
  {
    artist := ZeroArtist;
    found := false;
    var i := 0;
    while i < |artists|
      invariant 0 <= i <= |artists|
      invariant !found
      invariant FirstWithId(artists, id) == FirstWithId(artists[i..], id)
      invariant forall j :: 0 <= j < i ==> artists[j].id != id
      invariant artist == ZeroArtist
    {
      if artists[i].id == id {
        artist := artists[i];
        found := true;
        break;
      }
      assert artists[i..][1..] == artists[i + 1..];
      i := i + 1;
    }
    FirstWithIdIsFirstMatch(artists, id);
    if found {
      assert artists[i..][0] == artist;
    } else {
      assert artists[i..] == [];
    }
  }
}
