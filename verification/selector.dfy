/**
 * The selection rule of the handler: the two-way substring match between a
 * requested topic and a record's tags, the catalog filter, the fallback to the
 * whole catalog, and the random pick of one candidate.
 */
module Selector {
  import opened Strings
  import opened Catalog

  /** `t.includes(topic) || topic.includes(t)`: the tag and the topic contain
      one another, in either direction. */
  predicate TagMatches(tag: string, topic: string) {
    Includes(tag, topic) || Includes(topic, tag)
  }

  /** `tags.some(...)`: some tag, tried from the left, matches the topic. */
  function AnyTagMatches(tags: seq<string>, topic: string): bool
  {
    |tags| > 0 && (TagMatches(tags[0], topic) || AnyTagMatches(tags[1..], topic))
  }

  /** A record is kept by the filter when one of its tags matches the topic. */
  predicate Matches(r: Resource, topic: string) {
    AnyTagMatches(r.topics, topic)
  }

  /** Reference definition of the match: some tag of the record is a substring
      of the topic, or has the topic as a substring. */
  ghost predicate HasRelatedTag(r: Resource, topic: string) {
    exists i :: 0 <= i < |r.topics| && Related(r.topics[i], topic)
  }

  /** One of the two strings is a substring of the other. */
  ghost predicate Related(tag: string, topic: string) {
    Substring(tag, topic) || Substring(topic, tag)
  }

  lemma {:induction false} AnyTagMatchesIff(tags: seq<string>, topic: string)
    ensures AnyTagMatches(tags, topic) <==> exists t :: t in tags && TagMatches(t, topic)
  {
    if |tags| > 0 {
      AnyTagMatchesIff(tags[1..], topic);
      assert tags == [tags[0]] + tags[1..];
    }
  }

  /** The executable match agrees with the reference definition, both ways. */
  lemma MatchesIsRelatedTag(r: Resource, topic: string)
    ensures Matches(r, topic) <==> HasRelatedTag(r, topic)
  {
    AnyTagMatchesIff(r.topics, topic);
    forall i | 0 <= i < |r.topics|
      ensures TagMatches(r.topics[i], topic) <==> Related(r.topics[i], topic)
    {
      IncludesIsSubstring(r.topics[i], topic);
      IncludesIsSubstring(topic, r.topics[i]);
    }
  }

  /** `a` is `b` with some elements dropped and the rest kept in order. */
  ghost predicate IsSubsequence<T>(a: seq<T>, b: seq<T>)
    decreases |b|
  {
    if a == [] then true
    else if b == [] then false
    else (a[0] == b[0] && IsSubsequence(a[1..], b[1..])) || IsSubsequence(a, b[1..])
  }

  /** `resources.filter(resource => resource.topics.some(...))`. What it keeps is
      stated by `FilterCount`, `FilterMembers` and `FilterIsSubsequence`. */
  function Filter(rs: seq<Resource>, topic: string): (kept: seq<Resource>)
    ensures |kept| <= |rs|
  {
    if rs == [] then []
    else
      var tail := Filter(rs[1..], topic);
      if Matches(rs[0], topic) then [rs[0]] + tail else tail
  }

  /** Every record is kept as often as it occurs when it matches, and never
      when it does not. */
  lemma {:induction false} FilterCount(rs: seq<Resource>, topic: string, x: Resource)
    ensures multiset(Filter(rs, topic))[x] == if Matches(x, topic) then multiset(rs)[x] else 0
  {
    if rs != [] {
      FilterCount(rs[1..], topic, x);
      assert rs == [rs[0]] + rs[1..];
    }
  }

  /** A list whose every record matches is kept whole. */
  lemma {:induction false} FilterKeepsAll(rs: seq<Resource>, topic: string)
    requires forall x :: x in rs ==> Matches(x, topic)
    ensures Filter(rs, topic) == rs
  {
    if rs != [] {
      FilterKeepsAll(rs[1..], topic);
      assert rs == [rs[0]] + rs[1..];
    }
  }

  /** The filter keeps exactly the records that match. */
  lemma FilterMembers(rs: seq<Resource>, topic: string)
    ensures forall x :: x in Filter(rs, topic) <==> x in rs && Matches(x, topic)
  {
    forall x ensures x in Filter(rs, topic) <==> x in rs && Matches(x, topic) {
      FilterCount(rs, topic, x);
    }
  }

  /** The filter keeps the records it keeps in the order they come. */
  lemma {:induction false} FilterIsSubsequence(rs: seq<Resource>, topic: string)
    ensures IsSubsequence(Filter(rs, topic), rs)
  {
    if rs != [] {
      FilterIsSubsequence(rs[1..], topic);
    }
  }

  /** The candidate list: the whole catalog without a topic, the filtered
      catalog with one, and the whole catalog again when the filter kept
      nothing. */
  function Candidates(catalog: seq<Resource>, topic: string): (c: seq<Resource>)
    ensures |catalog| > 0 ==> |c| > 0
    ensures forall x :: x in c ==> x in catalog
    ensures topic == "" ==> c == catalog
    ensures (forall x :: x in catalog ==> !Matches(x, topic)) ==> c == catalog
    ensures topic != "" && (exists x :: x in catalog && Matches(x, topic)) ==>
              c == Filter(catalog, topic)
  {
    if topic == "" then catalog
    else
      var filtered := Filter(catalog, topic);
      FilterMembers(catalog, topic);
      assert |filtered| > 0 ==> filtered[0] in filtered;
      if |filtered| == 0 then catalog else filtered
  }

  /** With a topic that every record matches, the candidates are the whole catalog. */
  lemma CandidatesAllMatch(catalog: seq<Resource>, topic: string)
    requires forall x :: x in catalog ==> Matches(x, topic)
    ensures Candidates(catalog, topic) == catalog
  {
    FilterKeepsAll(catalog, topic);
  }

  /** With a topic that some record matches, the candidates are exactly the
      matching records, in catalog order, each as often as in the catalog. */
  lemma CandidatesAreMatches(catalog: seq<Resource>, topic: string, x: Resource)
    requires topic != "" && exists y :: y in catalog && Matches(y, topic)
    ensures x in Candidates(catalog, topic) <==> x in catalog && HasRelatedTag(x, topic)
    ensures multiset(Candidates(catalog, topic))[x] ==
              if HasRelatedTag(x, topic) then multiset(catalog)[x] else 0
    ensures IsSubsequence(Candidates(catalog, topic), catalog)
  {
    MatchesIsRelatedTag(x, topic);
    FilterCount(catalog, topic, x);
    FilterIsSubsequence(catalog, topic);
  }

  /** `Math.floor(Math.random() * len)` for a draw in [0, 1). */
  function DrawIndex(draw: real, len: nat): (k: nat)
    requires 0.0 <= draw < 1.0 && 0 < len
    ensures k < len
  {
    assert 0.0 <= draw * len as real < len as real;
    (draw * len as real).Floor
  }

  /** Dividing by a positive scale preserves the order. */
  lemma ScaleOrder(a: real, b: real, n: real)
    requires 0.0 < n
    ensures a <= b * n <==> a / n <= b
    ensures a < b * n <==> a / n < b
  {
    assert (a / n) * n == a;
    if a / n <= b { assert (a / n) * n <= b * n; }
    if a / n < b { assert (a / n) * n < b * n; }
    if b < a / n { assert b * n < (a / n) * n; }
    if b <= a / n { assert b * n <= (a / n) * n; }
  }

  /** Index `k` is drawn exactly when the draw falls in [k/len, (k+1)/len):
      every index gets an interval of the same width 1/len, so a uniform draw
      gives a uniform index. */
  lemma DrawIndexInterval(draw: real, len: nat, k: nat)
    requires 0.0 <= draw < 1.0 && 0 < len && k < len
    ensures DrawIndex(draw, len) == k <==>
              k as real / len as real <= draw < (k + 1) as real / len as real
  {
    var n := len as real;
    ScaleOrder(k as real, draw, n);
    ScaleOrder((k + 1) as real, draw, n);
  }

  /** The record at the drawn position of the candidate list. */
  function Pick(candidates: seq<Resource>, draw: real): (r: Resource)
    requires 0.0 <= draw < 1.0 && |candidates| > 0
    ensures r in candidates
  {
    candidates[DrawIndex(draw, |candidates|)]
  }

  /** Every candidate can be picked: candidate `k` is returned for the draw k/n,
      n being the number of candidates. */
  lemma PickEachCandidate(candidates: seq<Resource>, k: nat)
    requires k < |candidates|
    ensures var draw := k as real / |candidates| as real;
            0.0 <= draw < 1.0 && Pick(candidates, draw) == candidates[k]
  {
    var n := |candidates| as real;
    ScaleOrder(k as real, 1.0, n);
    ScaleOrder(k as real, k as real / n, n);
    DrawIndexInterval(k as real / n, |candidates|, k);
    ScaleOrder((k + 1) as real, k as real / n, n);
  }
}
