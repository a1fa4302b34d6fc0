/** Vector search: the per-collection search of pkg/vectorstore/memory/memory.go
    and the gather, sort and truncate of pkg/tools/builtins/filesearch/provider.go.
    Scores are totally ordered numbers. */
module TopK {
  import opened Sorting
  import opened Wrappers

  datatype Match = Match(documentID: string, score: int, content: string)

  type Vector = seq<real>

  datatype StoredPoint = StoredPoint(vector: Vector, content: string)

  type Points = map<string, StoredPoint>

  // ----- What a top-k list is -----

  predicate NotWorse(x: Match, y: Match) {
    x.score >= y.score
  }

  ghost predicate Descending(t: seq<Match>) {
    Sorted(t, NotWorse)
  }

  /** `t` lists, best first, k matches of `all` that no match left out beats. */
  ghost predicate TopOf(t: seq<Match>, all: multiset<Match>, k: nat) {
    && Descending(t)
    && multiset(t) <= all
    && |t| == (if |all| < k then |all| else k)
    && forall x, y | x in all - multiset(t) && y in t :: x.score <= y.score
  }

  function Scores(t: seq<Match>): (s: seq<int>)
    ensures |s| == |t|
  {
    seq(|t|, i requires 0 <= i < |t| => t[i].score)
  }

  lemma SubmultisetSize(a: multiset<Match>, b: multiset<Match>)
    requires a <= b
    ensures |a| <= |b|
    ensures |a| == |b| ==> a == b
  {
    assert b == a + (b - a);
  }

  lemma PrefixBeatsSuffix(t: seq<Match>, i: nat, x: Match, y: Match)
    requires Descending(t) && i <= |t| && x in t[..i] && y in t[i..]
    ensures NotWorse(x, y)
  {
    var a :| 0 <= a < i && t[a] == x;
    var b :| 0 <= b < |t| - i && t[i..][b] == y;
    assert NotWorse(t[a], t[i + b]);
  }

  lemma RankBounds(t: seq<Match>, i: nat, x: Match)
    requires Descending(t) && i < |t|
    ensures x in t[..i + 1] ==> x.score >= t[i].score
    ensures x in t[i..] ==> x.score <= t[i].score
  {
    assert t[..i + 1] == t[..i] + [t[i]] && t[i..] == [t[i]] + t[i + 1..];
    assert t[i] in t[i..] && t[i] in t[..i + 1];
    if x in t[..i] { PrefixBeatsSuffix(t, i, x, t[i]); }
    if x in t[i + 1..] { PrefixBeatsSuffix(t, i + 1, t[i], x); }
  }

  /** A top list keeps every copy of a match that beats one it lists. */
  lemma KeptWhenBetter(u: seq<Match>, all: multiset<Match>, k: nat, i: nat, x: Match)
    requires TopOf(u, all, k) && i < |u| && x.score > u[i].score
    ensures multiset(u)[x] == all[x]
  {
    assert u[i] in u;
    assert (all - multiset(u))[x] == all[x] - multiset(u)[x];
  }

  /** A match above u[i] is listed before rank i in u as often as it is in t. */
  lemma ListedBefore(t: seq<Match>, u: seq<Match>, i: nat, x: Match)
    requires Descending(t) && Descending(u) && i < |t| == |u|
    requires t[i].score > u[i].score
    requires x.score > u[i].score ==> multiset(t)[x] <= multiset(u)[x]
    ensures multiset(t[..i + 1])[x] <= multiset(u[..i])[x]
  {
    SplitMultiset(t, i + 1);
    SplitMultiset(u, i);
    RankBounds(t, i, x);
    RankBounds(u, i, x);
  }

  /** A list that is smaller at some rank leaves out a match that beats it there. */
  lemma RankNotSmaller(t: seq<Match>, u: seq<Match>, all: multiset<Match>, k: nat, i: nat)
    requires TopOf(t, all, k) && TopOf(u, all, k) && i < |t| == |u|
    ensures t[i].score <= u[i].score
  {
    if t[i].score > u[i].score {
      forall x
        ensures multiset(t[..i + 1])[x] <= multiset(u[..i])[x]
      {
        if x.score > u[i].score {
          KeptWhenBetter(u, all, k, i, x);
        }
        ListedBefore(t, u, i, x);
      }
      SubmultisetSize(multiset(t[..i + 1]), multiset(u[..i]));
    }
  }

  /** Ties leave the choice of matches open, but not the scores. */
  lemma TopScoresUnique(t: seq<Match>, u: seq<Match>, all: multiset<Match>, k: nat)
    requires TopOf(t, all, k) && TopOf(u, all, k)
    ensures Scores(t) == Scores(u)
  {
    forall i | 0 <= i < |t|
      ensures t[i].score == u[i].score
    {
      RankNotSmaller(t, u, all, k, i);
      RankNotSmaller(u, t, all, k, i);
    }
  }

  // ----- Scatter and gather -----

  /** A store's own top k may stand for all its points. */
  lemma TopStandsForAll(t: seq<Match>, all: multiset<Match>, rest: multiset<Match>, g: seq<Match>, k: nat)
    requires TopOf(t, all, k) && TopOf(g, multiset(t) + rest, k)
    ensures TopOf(g, all + rest, k)
  {
    var part := multiset(t) + rest;
    SubmultisetSize(multiset(t), all);
    forall x, y | x in (all + rest) - multiset(g) && y in g
      ensures x.score <= y.score
    {
      if x !in part - multiset(g) {
        assert x in all - multiset(t);
        if multiset(t) <= multiset(g) {
          SubmultisetSize(multiset(t), multiset(g));
          assert y in t;
        } else {
          var z :| multiset(t)[z] > multiset(g)[z];
          assert z in t && z in part - multiset(g);
        }
      }
    }
  }

  /** Whatever else is searched, the best of `part` is as good as the best of `all`. */
  ghost predicate Suffices(part: multiset<Match>, all: multiset<Match>, k: nat) {
    forall rest, g :: TopOf(g, part + rest, k) ==> TopOf(g, all + rest, k)
  }

  lemma GatherOneMore(part: multiset<Match>, all: multiset<Match>, t: seq<Match>, points: multiset<Match>, k: nat)
    requires Suffices(part, all, k) && TopOf(t, points, k)
    ensures Suffices(part + multiset(t), all + points, k)
  {
    forall rest, g | TopOf(g, part + multiset(t) + rest, k)
      ensures TopOf(g, all + points + rest, k)
    {
      assert part + multiset(t) + rest == part + (multiset(t) + rest);
      assert all + (multiset(t) + rest) == multiset(t) + (all + rest);
      TopStandsForAll(t, points, all + rest, g, k);
      assert points + (all + rest) == all + points + rest;
    }
  }

  lemma TopOfSufficient(g: seq<Match>, part: multiset<Match>, all: multiset<Match>, k: nat)
    requires Suffices(part, all, k) && TopOf(g, part, k)
    ensures TopOf(g, all, k)
  {
    assert part == part + multiset{} && all == all + multiset{};
  }

  // ----- The code -----

  lemma {:induction false} PrefixSorted(t: seq<Match>, k: nat)
    requires Descending(t) && k <= |t|
    ensures Descending(t[..k]) && multiset(t[..k]) <= multiset(t) && multiset(t) - multiset(t[..k]) == multiset(t[k..])
  {
    SplitMultiset(t, k);
  }

  lemma {:induction false} SortedPrefixIsTop(t: seq<Match>, k: nat)
    requires Descending(t)
    ensures TopOf(if |t| > k then t[..k] else t, multiset(t), k)
  {
    if |t| > k {
      PrefixSorted(t, k);
      forall x, y | x in multiset(t[k..]) && y in t[..k]
        ensures x.score <= y.score
      {
        assert x in t[k..];
        PrefixBeatsSuffix(t, k, y, x);
      }
    }
  }

  class Backend {
    const similarity: (Vector, Vector) -> int
    var collections: map<string, Points>

    constructor (similarity: (Vector, Vector) -> int)
      ensures this.similarity == similarity && collections == map[]
    {
      this.similarity := similarity;
      collections := map[];
    }

    function MatchFor(id: string, point: StoredPoint, query: Vector): Match {
      Match(id, similarity(query, point.vector), point.content)
    }

    ghost function MatchesOf(points: Points, query: Vector): multiset<Match> {
      multiset(set id | id in points :: MatchFor(id, points[id], query))
    }

    /** A match is a point of the collection, with its content and its similarity. */
    predicate IsPoint(m: Match, points: Points, query: Vector) {
      && m.documentID in points && m.content == points[m.documentID].content
      && m.score == similarity(query, points[m.documentID].vector)
    }

    /** Each point is one match. */
    lemma {:induction false} EveryPointMatches(points: Points, query: Vector, m: Match)
      ensures MatchesOf(points, query)[m] == if IsPoint(m, points, query) then 1 else 0
    {
      var found := set id | id in points :: MatchFor(id, points[id], query);
      if IsPoint(m, points, query) {
        assert m == MatchFor(m.documentID, points[m.documentID], query);
      }
    }

    lemma {:induction false} FoundArePoints(t: seq<Match>, points: Points, query: Vector, k: nat)
      requires TopOf(t, MatchesOf(points, query), k)
      ensures forall m | m in t :: IsPoint(m, points, query)
    {
      forall m | m in t
        ensures IsPoint(m, points, query)
      {
        EveryPointMatches(points, query, m);
        assert multiset(t)[m] > 0;
      }
    }

    method Search(collection: string, query: Vector, maxResults: nat) returns (matches: Option<seq<Match>>)
      ensures matches.Some? <==> collection in collections
      ensures matches.Some? ==> TopOf(matches.value, MatchesOf(collections[collection], query), maxResults)
    {
      if collection !in collections {
        return None;
      }
      var points := collections[collection];
      var results: seq<Match> := [];
      var unread := points.Keys;
      while unread != {}
        invariant unread <= points.Keys
        invariant multiset(results) == multiset(set id | id in points.Keys - unread :: MatchFor(id, points[id], query))
      {
        var id :| id in unread;
        var found := set i | i in points.Keys - unread :: MatchFor(i, points[i], query);
        var m := MatchFor(id, points[id], query);
        assert m !in found;
        unread := unread - {id};
        assert (set i | i in points.Keys - unread :: MatchFor(i, points[i], query)) == found + {m};
        results := results + [m];
      }
      assert points.Keys - unread == points.Keys;
      results := Sort(results, NotWorse);
      SortedPrefixIsTop(results, maxResults);
      if |results| > maxResults {
        results := results[..maxResults];
      }
      return Some(results);
    }

    /** All points of all listed stores, a store listed twice counting twice; an
        unknown collection fails its search and is skipped. */
    ghost function PointsOf(stores: seq<string>, query: Vector): multiset<Match>
      reads this
    {
      if stores == [] then multiset{}
      else
        var name, others := stores[|stores| - 1], PointsOf(stores[..|stores| - 1], query);
        if name in collections then others + MatchesOf(collections[name], query) else others
    }

    lemma {:induction false} PointsOfConcat(a: seq<string>, b: seq<string>, query: Vector)
      ensures PointsOf(a + b, query) == PointsOf(a, query) + PointsOf(b, query)
      decreases |b|
    {
      if b == [] {
        assert a + b == a;
      } else {
        assert (a + b)[..|a + b| - 1] == a + b[..|b| - 1];
        PointsOfConcat(a, b[..|b| - 1], query);
      }
    }

    lemma {:induction false} PointsOfOne(store: string, query: Vector)
      ensures PointsOf([store], query) == if store in collections then MatchesOf(collections[store], query) else multiset{}
    {
      assert [store][..0] == [];
    }

    /** The search of Execute, over the stores the caller may read. */
    method Gather(stores: seq<string>, query: Vector, maxResults: nat) returns (allMatches: seq<Match>)
      ensures TopOf(allMatches, PointsOf(stores, query), maxResults)
    {
      allMatches := [];
      for i := 0 to |stores|
        invariant Suffices(multiset(allMatches), PointsOf(stores[..i], query), maxResults)
      {
        assert stores[..i + 1][..i] == stores[..i];
        var matches := Search(stores[i], query, maxResults);
        if matches.Some? {
          GatherOneMore(multiset(allMatches), PointsOf(stores[..i], query),
                        matches.value, MatchesOf(collections[stores[i]], query), maxResults);
          allMatches := allMatches + matches.value;
        }
      }
      assert stores[..|stores|] == stores;
      var gathered := allMatches;
      allMatches := Sort(allMatches, NotWorse);
      SortedPrefixIsTop(allMatches, maxResults);
      if |allMatches| > maxResults {
        allMatches := allMatches[..maxResults];
      }
      TopOfSufficient(allMatches, multiset(gathered), PointsOf(stores, query), maxResults);
    }
  }

  /** Gathering the stores' own top lists gives the score sequence of sorting all
      points together and truncating. */
  lemma GatherScoresAreGlobal(g: seq<Match>, all: multiset<Match>, sorted: seq<Match>, k: nat)
    requires TopOf(g, all, k)
    requires Descending(sorted) && multiset(sorted) == all
    ensures Scores(g) == Scores(if |sorted| > k then sorted[..k] else sorted)
  {
    SortedPrefixIsTop(sorted, k);
    TopScoresUnique(g, if |sorted| > k then sorted[..k] else sorted, all, k);
  }
}
