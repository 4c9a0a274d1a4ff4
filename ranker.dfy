/** The ranking step of the BirdNET worker: the classifier's probabilities are
    paired with the labels of their positions, sorted by descending confidence
    with a stable sort, and the first three are kept. */
module Ranker {

  /** A classifier probability; only its order matters here. */
  type Confidence = real

  /** A species name from the label vocabulary. */
  type Label = string

  /** `labels[index]`: a name, or `undefined` past the end of the vocabulary. */
  datatype Species = Species(name: Label) | Undefined

  /** One entry of a chunk's result: `{ species, confidence }`. */
  datatype Prediction = Prediction(species: Species, confidence: Confidence)

  /** How many entries a result keeps. */
  const TopK: nat := 3

  /** How many entries a result of `n` probabilities keeps: `slice(0, 3)`. */
  function KeptCount(n: nat): (k: nat)
    ensures k <= n && k <= TopK
    ensures k == n || k == TopK
  {
    if n <= TopK then n else TopK
  }

  /** The species at position `index` of the vocabulary. */
  function LabelAt(labels: seq<Label>, index: nat): (s: Species)
    ensures s.Species? <==> index < |labels|
    ensures s.Species? ==> s.name == labels[index]
  {
    if index < |labels| then Species(labels[index]) else Undefined
  }

  /** The sort's comparator `(a, b) => b.confidence - a.confidence` applied to
      the entries at positions `i` and `j`: negative when `i` goes first. */
  function Compare(probs: seq<Confidence>, i: nat, j: nat): real
    requires i < |probs| && j < |probs|
  {
    probs[j] - probs[i]
  }

  /** Entry `i` comes before entry `j` in the sorted output: the comparator
      puts it first, or calls the two equal and the stable sort keeps their
      original order. That is higher confidence first, ties by position. */
  predicate Ahead(probs: seq<Confidence>, i: nat, j: nat): (ahead: bool)
    requires i < |probs| && j < |probs|
    ensures probs[i] > probs[j] ==> ahead
    ensures probs[i] < probs[j] ==> !ahead
    ensures probs[i] == probs[j] ==> (ahead <==> i < j)
  {
    Compare(probs, i, j) < 0.0 || (Compare(probs, i, j) == 0.0 && i < j)
  }

  /** `order` lists positions of `probs`, each ahead of all that follow it. */
  predicate InRankOrder(probs: seq<Confidence>, order: seq<nat>) {
    (forall k :: 0 <= k < |order| ==> order[k] < |probs|) &&
    (forall a, b :: 0 <= a < b < |order| ==> Ahead(probs, order[a], order[b]))
  }

  lemma AheadTransitive(probs: seq<Confidence>, i: nat, j: nat, k: nat)
    requires i < |probs| && j < |probs| && k < |probs|
    requires Ahead(probs, i, j) && Ahead(probs, j, k)
    ensures Ahead(probs, i, k)
  {
  }

  /** A position ahead of every entry of a ranked list may go in front of it. */
  lemma PrependInRankOrder(probs: seq<Confidence>, y: nat, order: seq<nat>)
    requires y < |probs| && InRankOrder(probs, order)
    requires forall k :: 0 <= k < |order| ==> Ahead(probs, y, order[k])
    ensures InRankOrder(probs, [y] + order)
  {
    var r := [y] + order;
    forall a, b | 0 <= a < b < |r| ensures Ahead(probs, r[a], r[b]) {
      if a > 0 {
        assert r[a] == order[a - 1] && r[b] == order[b - 1];
      }
    }
  }

  /** Every entry of a list holding the entries of `tail` and `x` is `x` or an entry of `tail`. */
  lemma EntriesFrom(r: seq<nat>, tail: seq<nat>, x: nat)
    requires multiset(r) == multiset(tail) + multiset{x}
    ensures forall k :: 0 <= k < |r| ==> r[k] == x || r[k] in tail
  {
    forall k | 0 <= k < |r| ensures r[k] == x || r[k] in tail {
      assert r[k] in multiset(r);
    }
  }

  /** The head of a ranked list that is at least as confident as `x` stays
      ahead of everything in the rest of the list with `x` inserted. */
  lemma HeadAheadOfInserted(probs: seq<Confidence>, x: nat, order: seq<nat>, rest: seq<nat>)
    requires x < |probs| && InRankOrder(probs, order) && order != []
    requires order[0] < x && probs[order[0]] >= probs[x]
    requires multiset(rest) == multiset(order[1..]) + multiset{x}
    ensures forall k :: 0 <= k < |rest| ==> rest[k] < |probs| && Ahead(probs, order[0], rest[k])
  {
    var tail := order[1..];
    EntriesFrom(rest, tail, x);
    forall k | 0 <= k < |rest| ensures rest[k] < |probs| && Ahead(probs, order[0], rest[k]) {
      if rest[k] != x {
        var m :| 0 <= m < |tail| && tail[m] == rest[k];
        assert tail[m] == order[m + 1];
      }
    }
  }

  /** Inserts position `x`, later than every position in `order`, after all
      entries of at least its confidence: one step of a stable sort. */
  function Insert(probs: seq<Confidence>, x: nat, order: seq<nat>): (r: seq<nat>)
    requires x < |probs|
    requires InRankOrder(probs, order)
    requires forall k :: 0 <= k < |order| ==> order[k] < x
    ensures multiset(r) == multiset(order) + multiset{x}
    ensures InRankOrder(probs, r)
    decreases order
  {
    if order == [] then [x]
    else
      var head, tail := order[0], order[1..];
      assert order == [head] + tail;
      if probs[head] >= probs[x] then
        var rest := Insert(probs, x, tail);
        HeadAheadOfInserted(probs, x, order, rest);
        PrependInRankOrder(probs, head, rest);
        [head] + rest
      else
        forall k | 0 <= k < |order| ensures Ahead(probs, x, order[k]) {
          if k > 0 {
            AheadTransitive(probs, x, head, order[k]);
          }
        }
        PrependInRankOrder(probs, x, order);
        [x] + order
  }

  /** The first `n` positions of `probs` in the order the stable sort leaves them. */
  function SortPositions(probs: seq<Confidence>, n: nat): (r: seq<nat>)
    requires n <= |probs|
    ensures |r| == n
    ensures forall i :: i in r <==> 0 <= i < n
    ensures InRankOrder(probs, r)
  {
    if n == 0 then []
    else
      var prefix := SortPositions(probs, n - 1);
      assert forall k :: 0 <= k < |prefix| ==> prefix[k] < n - 1 by {
        forall k | 0 <= k < |prefix| ensures prefix[k] < n - 1 {
          assert prefix[k] in prefix;
        }
      }
      var r := Insert(probs, n - 1, prefix);
      assert |r| == |multiset(r)| == |multiset(prefix)| + 1 == n;
      forall i ensures i in r <==> 0 <= i < n {
        calc {
          i in r;
          i in multiset(r);
          i in multiset(prefix) || i == n - 1;
          i in prefix || i == n - 1;
        }
      }
      r
  }

  /** Positions of the entries kept in the result, best first. */
  function TopPositions(probs: seq<Confidence>): (top: seq<nat>)
    ensures |top| == KeptCount(|probs|)
    ensures InRankOrder(probs, top)
    ensures forall i :: 0 <= i < |probs| && i !in top ==>
      forall k :: 0 <= k < |top| ==> Ahead(probs, top[k], i)
  {
    var sorted := SortPositions(probs, |probs|);
    var top := sorted[..KeptCount(|probs|)];
    forall i | 0 <= i < |probs| && i !in top
      ensures forall k :: 0 <= k < |top| ==> Ahead(probs, top[k], i)
    {
      assert i in sorted;
      var p :| 0 <= p < |sorted| && sorted[p] == i;
      assert p >= |top|;
    }
    top
  }

  /** The ranked result of one chunk: the three most confident entries, best
      first, each paired with the label of its own position; nothing left out
      is more confident than the last entry kept. */
  function TopResults(probs: seq<Confidence>, labels: seq<Label>): (results: seq<Prediction>)
    ensures |results| == KeptCount(|probs|)
    ensures forall k :: 0 <= k < |results| ==>
      results[k].species == LabelAt(labels, TopPositions(probs)[k]) &&
      results[k].confidence == probs[TopPositions(probs)[k]]
    ensures forall a, b :: 0 <= a < b < |results| ==> results[a].confidence >= results[b].confidence
    ensures forall i :: 0 <= i < |probs| && i !in TopPositions(probs) ==>
      probs[i] <= results[|results| - 1].confidence
  {
    var top := TopPositions(probs);
    var results := seq(|top|, k requires 0 <= k < |top| => Prediction(LabelAt(labels, top[k]), probs[top[k]]));
    forall a, b | 0 <= a < b < |results|
      ensures results[a].confidence >= results[b].confidence
    {
      assert Ahead(probs, top[a], top[b]);
    }
    forall i | 0 <= i < |probs| && i !in top
      ensures probs[i] <= results[|results| - 1].confidence
    {
      assert Ahead(probs, top[|top| - 1], i);
    }
    results
  }

  /** A list in rank order is determined by the positions it holds: the
      stable sort has exactly one possible outcome. */
  lemma {:induction false} RankOrderUnique(probs: seq<Confidence>, s: seq<nat>, t: seq<nat>)
    requires InRankOrder(probs, s) && InRankOrder(probs, t)
    requires forall i :: i in s <==> i in t
    ensures s == t
  {
    assert s != [] ==> s[0] in t;
    assert t != [] ==> t[0] in s;
    if s != [] && t != [] {
      assert s[0] == t[0] by {
        assert t[0] in s && s[0] in t;
        var a :| 0 <= a < |s| && s[a] == t[0];
        var b :| 0 <= b < |t| && t[b] == s[0];
      }
      forall i ensures i in s[1..] <==> i in t[1..] {
        if i in s[1..] {
          var a :| 1 <= a < |s| && s[a] == i;
          assert Ahead(probs, s[0], i) && i in t;
          var c :| 0 <= c < |t| && t[c] == i;
          assert c > 0 && t[1..][c - 1] == i;
        }
        if i in t[1..] {
          var b :| 1 <= b < |t| && t[b] == i;
          assert Ahead(probs, t[0], i) && i in s;
          var c :| 0 <= c < |s| && s[c] == i;
          assert c > 0 && s[1..][c - 1] == i;
        }
      }
      RankOrderUnique(probs, s[1..], t[1..]);
      assert s == [s[0]] + s[1..] && t == [t[0]] + t[1..];
    }
  }

  /** Whatever stable sort orders the entries, the kept positions are the
      first three of its output. */
  lemma TopIsSortedPrefix(probs: seq<Confidence>, sorted: seq<nat>)
    requires InRankOrder(probs, sorted)
    requires forall i :: i in sorted <==> 0 <= i < |probs|
    ensures |probs| <= |sorted|
    ensures TopPositions(probs) == sorted[..KeptCount(|probs|)]
  {
    RankOrderUnique(probs, sorted, SortPositions(probs, |probs|));
  }

  /** The entries ranked ahead of position `i`. */
  function AheadOf(probs: seq<Confidence>, i: nat): set<nat>
    requires i < |probs|
  {
    set j: nat | j < |probs| && Ahead(probs, j, i)
  }

  /** The positions a list holds, as a set. */
  function Elements(s: seq<nat>): (e: set<nat>)
    ensures forall x :: x in e <==> x in s
  {
    if s == [] then {} else {s[0]} + Elements(s[1..])
  }

  lemma {:induction false} DistinctCard(s: seq<nat>)
    requires forall a, b :: 0 <= a < b < |s| ==> s[a] != s[b]
    ensures |Elements(s)| == |s|
  {
    if s != [] {
      var rest := s[1..];
      DistinctCard(rest);
      assert s[0] !in rest by {
        forall k | 0 <= k < |rest| ensures rest[k] != s[0] {
          assert rest[k] == s[k + 1];
        }
      }
    }
  }

  /** In a list in rank order, the entries ahead of the one at index p are
      exactly those listed before it. */
  lemma AheadOfIsPrefix(probs: seq<Confidence>, sorted: seq<nat>, p: nat)
    requires InRankOrder(probs, sorted)
    requires forall i :: i in sorted <==> 0 <= i < |probs|
    requires p < |sorted|
    ensures |AheadOf(probs, sorted[p])| == p
  {
    var i := sorted[p];
    var before := sorted[..p];
    assert AheadOf(probs, i) == Elements(before) by {
      forall j | j in before ensures j in AheadOf(probs, i) {
        var q :| 0 <= q < p && sorted[q] == j;
      }
      forall j | j in AheadOf(probs, i) ensures j in before {
        assert j in sorted;
        var q :| 0 <= q < |sorted| && sorted[q] == j;
        assert q < p;
      }
    }
    forall a, b | 0 <= a < b < |before| ensures before[a] != before[b] {
      assert Ahead(probs, sorted[a], sorted[b]);
    }
    DistinctCard(before);
  }

  /** An entry is kept exactly when fewer than three entries rank ahead of it. */
  lemma KeptIffFewAhead(probs: seq<Confidence>, i: nat)
    requires i < |probs|
    ensures i in TopPositions(probs) <==> |AheadOf(probs, i)| < TopK
  {
    var sorted := SortPositions(probs, |probs|);
    var top := TopPositions(probs);
    assert top == sorted[..KeptCount(|probs|)];
    assert i in sorted;
    var p :| 0 <= p < |sorted| && sorted[p] == i;
    AheadOfIsPrefix(probs, sorted, p);
    if i in top {
      var t :| 0 <= t < |top| && top[t] == i;
      assert sorted[t] == sorted[p];
    }
    assert p < |top| ==> top[p] == i;
  }

  /** With at most three labels every entry is kept, best first. */
  lemma SmallVocabularyKeepsAll(probs: seq<Confidence>, labels: seq<Label>)
    requires |probs| <= TopK
    ensures forall i :: i in TopPositions(probs) <==> 0 <= i < |probs|
    ensures forall i :: 0 <= i < |probs| ==>
      Prediction(LabelAt(labels, i), probs[i]) in TopResults(probs, labels)
  {
    var top := TopPositions(probs);
    assert top == SortPositions(probs, |probs|);
    forall i | 0 <= i < |probs|
      ensures Prediction(LabelAt(labels, i), probs[i]) in TopResults(probs, labels)
    {
      assert i in top;
      var k :| 0 <= k < |top| && top[k] == i;
      assert TopResults(probs, labels)[k] == Prediction(LabelAt(labels, i), probs[i]);
    }
  }

  /** With one probability per label, the result keeps min(3, |labels|)
      entries and each names a species of the vocabulary. */
  lemma AlignedTopResults(probs: seq<Confidence>, labels: seq<Label>)
    requires |probs| == |labels|
    ensures |TopResults(probs, labels)| == KeptCount(|labels|)
    ensures forall p :: p in TopResults(probs, labels) ==> p.species.Species? && p.species.name in labels
  {
    var results := TopResults(probs, labels);
    forall p | p in results ensures p.species.Species? && p.species.name in labels {
      var m :| 0 <= m < |results| && results[m] == p;
      assert TopPositions(probs)[m] < |probs|;
    }
  }
}
