/** services/vectorStore.js: `SimpleVectorStore`, three parallel arrays
    (vectors, metadata, documents) appended in lockstep, with a top-k query.

    The query scores every stored vector against the query vector with a
    cosine similarity from an external library (a parameter here), sorts the
    (index, similarity) pairs by descending similarity with the stable
    `Array.prototype.sort`, and keeps the first k. Because the pairs start in
    index order and the sort is stable, the outcome is the order "higher
    similarity first, and among equal similarities the lower index first";
    the local array of indices is sorted in place under exactly that order. */
module VectorStore {
  import opened Base
  import opened Documents


  /** Entry i ranks before entry j. */
  predicate Precedes(sims: seq<real>, i: nat, j: nat)
    requires i < |sims| && j < |sims|
  {
    sims[i] > sims[j] || (sims[i] == sims[j] && i < j)
  }

  /** r lists entries of sims in rank order, each at most once. */
  ghost predicate Ranked(sims: seq<real>, r: seq<nat>) {
    && (forall t :: 0 <= t < |r| ==> r[t] < |sims|)
    && (forall s, t :: 0 <= s < t < |r| ==> Precedes(sims, r[s], r[t]))
  }

  /** r is the outcome of the top-k query over the similarities sims:
      min(k, n) entries in rank order, and every entry left out ranks
      after every entry kept. */
  ghost predicate IsTopK(sims: seq<real>, k: nat, r: seq<nat>) {
    && Ranked(sims, r)
    && |r| == Min(k, |sims|)
    && forall v, t :: 0 <= v < |sims| && v !in r && 0 <= t < |r| ==> Precedes(sims, r[t], v)
  }

  /** The top-k outcome is unique: the tie rule leaves no choice. */
  lemma {:induction false} TopKIsUnique(sims: seq<real>, k: nat, r1: seq<nat>, r2: seq<nat>)
    requires IsTopK(sims, k, r1) && IsTopK(sims, k, r2)
    ensures r1 == r2
  {
    forall t | 0 <= t < |r1| ensures r1[t] == r2[t] {
      TopKAgreeAt(sims, k, r1, r2, t);
    }
  }

  lemma {:induction false} TopKAgreeAt(sims: seq<real>, k: nat, r1: seq<nat>, r2: seq<nat>, t: nat)
    requires IsTopK(sims, k, r1) && IsTopK(sims, k, r2)
    requires t < |r1|
    ensures r1[t] == r2[t]
    decreases t
  {
    forall s | 0 <= s < t ensures r1[s] == r2[s] {
      TopKAgreeAt(sims, k, r1, r2, s);
    }
    NotOutrankedAt(sims, k, r1, r2, t);
    NotOutrankedAt(sims, k, r2, r1, t);
  }

  /** If two outcomes agree before position t, the entry b holds at t
      does not rank strictly before the entry a holds there. */
  lemma NotOutrankedAt(sims: seq<real>, k: nat, a: seq<nat>, b: seq<nat>, t: nat)
    requires IsTopK(sims, k, a) && IsTopK(sims, k, b)
    requires t < |a| && forall s :: 0 <= s < t ==> a[s] == b[s]
    ensures !Precedes(sims, b[t], a[t])
  {
    if b[t] in a {
      var u :| 0 <= u < |a| && a[u] == b[t];
    }
  }

  /** s holds distinct indices into sims. */
  ghost predicate Entries(sims: seq<real>, s: seq<nat>) {
    && (forall p :: 0 <= p < |s| ==> s[p] < |sims|)
    && (forall p, q :: 0 <= p < q < |s| ==> s[p] != s[q])
  }

  /** The first n entries of s are in rank order. */
  ghost predicate RankedPrefix(sims: seq<real>, s: seq<nat>, n: nat)
    requires Entries(sims, s) && n <= |s|
  {
    forall p, q :: 0 <= p < q < n ==> Precedes(sims, s[p], s[q])
  }

  /** Insertion sort of an array of distinct entry indices into rank order. */
  method SortByRank(a: array<nat>, sims: seq<real>)
    requires Entries(sims, a[..])
    modifies a
    ensures Ranked(sims, a[..])
    ensures multiset(a[..]) == multiset(old(a[..]))
  {
    var i := 0;
    while i < a.Length
      invariant 0 <= i <= a.Length
      invariant Entries(sims, a[..]) && RankedPrefix(sims, a[..], i)
      invariant multiset(a[..]) == multiset(old(a[..]))
    {
      InsertAt(a, sims, i);
      i := i + 1;
    }
  }

  /** The state of the insertion of s[j] into s[..i+1]: s[..i+1] without position j
      is in rank order, and s[j] ranks before everything after it up to i. */
  ghost predicate Inserting(sims: seq<real>, s: seq<nat>, i: nat, j: nat) {
    && j <= i < |s|
    && Entries(sims, s)
    && (forall p, q :: 0 <= p < q <= i && p != j && q != j ==> Precedes(sims, s[p], s[q]))
    && (forall q :: j < q <= i ==> Precedes(sims, s[j], s[q]))
  }

  /** Swapping s[j] with its left neighbour when it ranks before it moves the insertion one step left. */
  lemma SwapStep(sims: seq<real>, s: seq<nat>, i: nat, j: nat)
    requires Inserting(sims, s, i, j) && 0 < j && Precedes(sims, s[j], s[j - 1])
    ensures Inserting(sims, s[j - 1 := s[j]][j := s[j - 1]], i, j - 1)
    ensures multiset(s[j - 1 := s[j]][j := s[j - 1]]) == multiset(s)
  {
  }

  /** Precedes is transitive. */
  lemma PrecedesTransitive(sims: seq<real>, x: nat, y: nat, z: nat)
    requires x < |sims| && y < |sims| && z < |sims|
    requires Precedes(sims, x, y) && Precedes(sims, y, z)
    ensures Precedes(sims, x, z)
  {
  }

  /** The insertion stops at the front or behind an entry that ranks before s[j]:
      then s[..i+1] is in rank order. */
  lemma InsertionDone(sims: seq<real>, s: seq<nat>, i: nat, j: nat)
    requires Inserting(sims, s, i, j) && (j == 0 || !Precedes(sims, s[j], s[j - 1]))
    ensures RankedPrefix(sims, s, i + 1)
  {
    if j > 0 {
      assert Precedes(sims, s[j - 1], s[j]);
      forall p | 0 <= p < j - 1 ensures Precedes(sims, s[p], s[j]) {
        PrecedesTransitive(sims, s[p], s[j - 1], s[j]);
      }
    }
  }

  /** Moves a[i] left past every entry it ranks before: a[..i] is in rank order
      before and a[..i+1] after. */
  method InsertAt(a: array<nat>, sims: seq<real>, i: nat)
    requires i < a.Length && Entries(sims, a[..]) && RankedPrefix(sims, a[..], i)
    modifies a
    ensures Entries(sims, a[..]) && RankedPrefix(sims, a[..], i + 1)
    ensures multiset(a[..]) == multiset(old(a[..]))
  {
    var j: nat := i;
    while j > 0 && Precedes(sims, a[j], a[j - 1])
      invariant Inserting(sims, a[..], i, j)
      invariant multiset(a[..]) == multiset(old(a[..]))
    {
      ghost var s := a[..];
      SwapStep(sims, s, i, j);
      a[j - 1], a[j] := a[j], a[j - 1];
      assert a[..] == s[j - 1 := s[j]][j := s[j - 1]];
      j := j - 1;
    }
    InsertionDone(sims, a[..], i, j);
  }

  /** The array of indices 0 .. n-1 that the scoring map produces. */
  method Indices(n: nat) returns (a: array<nat>)
    ensures fresh(a) && a.Length == n
    ensures forall p :: 0 <= p < n ==> a[p] == p
  {
    a := new nat[n](p => p);
  }

  lemma RankedPrefixIsTopK(sims: seq<real>, order: seq<nat>, k: nat)
    requires |order| == |sims| && Ranked(sims, order)
    requires multiset(order) == multiset(seq(|sims|, p => p))
    ensures IsTopK(sims, k, order[..Min(k, |sims|)])
  {
    var m := Min(k, |sims|);
    var r := order[..m];
    forall v, t | 0 <= v < |sims| && v !in r && 0 <= t < |r| ensures Precedes(sims, r[t], v) {
      assert seq(|sims|, p => p)[v] == v;
      assert v in multiset(order);
      var u :| 0 <= u < |order| && order[u] == v;
      assert u >= m;
      assert t < u;
    }
  }

  /** Two outcomes of the same top-k query on the same contents are equal. */
  lemma SearchResultIsUnique(store: SimpleVectorStore, query: Vector, k: nat, cosine: (Vector, Vector) -> real,
                             r1: seq<Doc>, r2: seq<Doc>)
    requires store.SearchResult(query, k, cosine, r1) && store.SearchResult(query, k, cosine, r2)
    ensures r1 == r2
  {
    var sims := store.Similarities(query, cosine);
    var a: seq<nat> :| IsTopK(sims, k, a) && |r1| == |a| &&
      forall t :: 0 <= t < |r1| ==>
        a[t] < |store.vectors| && a[t] < |store.metadata| && a[t] < |store.documents| &&
        r1[t] == Doc(store.documents[a[t]], store.metadata[a[t]], cosine(query, store.vectors[a[t]]));
    var b: seq<nat> :| IsTopK(sims, k, b) && |r2| == |b| &&
      forall t :: 0 <= t < |r2| ==>
        b[t] < |store.vectors| && b[t] < |store.metadata| && b[t] < |store.documents| &&
        r2[t] == Doc(store.documents[b[t]], store.metadata[b[t]], cosine(query, store.vectors[b[t]]));
    TopKIsUnique(sims, k, a, b);
  }

  class SimpleVectorStore {
    var vectors: seq<Vector>
    var metadata: seq<Metadata>
    var documents: seq<string>

    /** The three arrays describe the same entries. */
    predicate InLockstep()
      reads this
    {
      |vectors| == |metadata| == |documents|
    }

    /** The similarity of each stored vector to the query, in index order. */
    ghost function Similarities(query: Vector, cosine: (Vector, Vector) -> real): (sims: seq<real>)
      reads this
      ensures |sims| == |vectors|
    {
      seq(|vectors|, i requires 0 <= i < |vectors| reads this => cosine(query, vectors[i]))
    }

    /** results is what a top-k query for `query` returns on the current contents:
        the entries of the (unique) top-k ranking, each with its document,
        metadata and similarity. */
    ghost predicate SearchResult(query: Vector, k: nat, cosine: (Vector, Vector) -> real, results: seq<Doc>)
      reads this
    {
      exists ranking: seq<nat> :: IsTopK(Similarities(query, cosine), k, ranking) &&
        |results| == |ranking| &&
        forall t :: 0 <= t < |results| ==>
          ranking[t] < |vectors| && ranking[t] < |metadata| && ranking[t] < |documents| &&
          results[t] == Doc(documents[ranking[t]], metadata[ranking[t]], cosine(query, vectors[ranking[t]]))
    }

    constructor ()
      ensures vectors == [] && metadata == [] && documents == []
      ensures InLockstep()
    {
      vectors, metadata, documents := [], [], [];
    }

    /** `addVectors`: each array gets its input appended; nothing checks the lengths. */
    method AddVectors(newVectors: seq<Vector>, newMetadata: seq<Metadata>, newDocuments: seq<string>)
      modifies this
      ensures vectors == old(vectors) + newVectors
      ensures metadata == old(metadata) + newMetadata
      ensures documents == old(documents) + newDocuments
      ensures old(InLockstep()) ==> (InLockstep() <==> |newVectors| == |newMetadata| == |newDocuments|)
    {
      vectors := vectors + newVectors;
      metadata := metadata + newMetadata;
      documents := documents + newDocuments;
    }

    /** `similaritySearch(vector, k)`: the k best-ranked entries, best first,
        each with its document, its metadata and its similarity. Every stored
        vector needs its metadata and document (the source would read
        `undefined` for a missing one). */
    method SimilaritySearch(query: Vector, k: nat, cosine: (Vector, Vector) -> real)
      returns (results: seq<Doc>, ghost ranking: seq<nat>)
      requires |metadata| >= |vectors| && |documents| >= |vectors|
      ensures IsTopK(Similarities(query, cosine), k, ranking)
      ensures |results| == |ranking| == Min(k, |vectors|)
      ensures forall t :: 0 <= t < |results| ==>
                ranking[t] < |vectors| &&
                results[t] == Doc(documents[ranking[t]], metadata[ranking[t]], cosine(query, vectors[ranking[t]]))
      ensures forall s, t :: 0 <= s < t < |results| ==>
                results[s].similarity > results[t].similarity ||
                (results[s].similarity == results[t].similarity && ranking[s] < ranking[t])
      ensures SearchResult(query, k, cosine, results)
    {
      var vs, ms, ds := vectors, metadata, documents;
      var n := |vs|;
      var sims := seq(n, i requires 0 <= i < n => cosine(query, vs[i]));
      assert sims == Similarities(query, cosine);
      var order := Indices(n);
      assert order[..] == seq(n, p => p);
      SortByRank(order, sims);
      RankedPrefixIsTopK(sims, order[..], k);
      var m := Min(k, n);
      var ranked := order[..m];
      results := seq(m, t requires 0 <= t < m => Doc(ds[ranked[t]], ms[ranked[t]], sims[ranked[t]]));
      ranking := ranked;
    }

    /** `clear`: all three arrays empty, from any state. */
    method Clear()
      modifies this
      ensures vectors == [] && metadata == [] && documents == []
      ensures InLockstep()
    {
      vectors, metadata, documents := [], [], [];
    }
  }
}
