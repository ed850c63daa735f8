/** News de-duplication and the news section of the data report
    (`_deduplicate_news` and `_format_news` in data/fetcher_v3.py). */
module FetcherNews {
  import opened Text

  datatype Article = Article(title: string, date: string, source: string, snippet: string)

  /** `SequenceMatcher(None, a, b).ratio()`, left uninterpreted. */
  type Similarity = (string, string) -> real

  /** Titles are compared lower-cased. */
  function Key(a: Article): string {
    Lower(a.title)
  }

  function Keys(kept: seq<Article>): (r: seq<string>)
    ensures |r| == |kept| && forall i :: 0 <= i < |kept| ==> r[i] == Key(kept[i])
  {
    seq(|kept|, i requires 0 <= i < |kept| => Key(kept[i]))
  }

  /** More than 80% similar to one of the titles seen so far. */
  predicate SimilarToAny(sim: Similarity, title: string, seen: seq<string>) {
    exists j :: 0 <= j < |seen| && sim(title, seen[j]) > 0.8
  }

  /** The inner loop: stops at the first seen title that is too similar. */
  method IsDuplicate(sim: Similarity, title: string, seen: seq<string>) returns (dup: bool)
    ensures dup <==> SimilarToAny(sim, title, seen)
  {
    dup := false;
    var j := 0;
    while j < |seen|
      invariant 0 <= j <= |seen|
      invariant forall j' :: 0 <= j' < j ==> sim(title, seen[j']) <= 0.8
    {
      if sim(title, seen[j]) > 0.8 {
        dup := true;
        return;
      }
      j := j + 1;
    }
  }

  /** What the outer loop has kept after the given articles: each article
      is kept unless its title is too similar to one kept before it. */
  function Dedup(sim: Similarity, news: seq<Article>): seq<Article>
    decreases |news|
  {
    if news == [] then []
    else
      var kept := Dedup(sim, news[..|news| - 1]);
      var a := news[|news| - 1];
      if SimilarToAny(sim, Key(a), Keys(kept)) then kept else kept + [a]
  }

  /** `_deduplicate_news`: `seen_titles` stays the lower-cased titles of
      `unique_news`. */
  method DeduplicateNews(sim: Similarity, news: seq<Article>) returns (unique: seq<Article>)
    ensures unique == Dedup(sim, news)
  {
    if news == [] {
      return [];
    }
    unique := [];
    var seen: seq<string> := [];
    for i := 0 to |news|
      invariant unique == Dedup(sim, news[..i])
      invariant seen == Keys(unique)
    {
      assert news[..i + 1][..i] == news[..i];
      var title := Lower(news[i].title);
      var dup := IsDuplicate(sim, title, seen);
      if !dup {
        unique := unique + [news[i]];
        seen := seen + [title];
      }
    }
    assert news[..|news|] == news;
  }

  /** `a` is `b` with some elements removed, order kept. */
  predicate IsSubsequence(a: seq<Article>, b: seq<Article>)
    decreases |b|
  {
    if a == [] then true
    else if b == [] then false
    else (a[|a| - 1] == b[|b| - 1] && IsSubsequence(a[..|a| - 1], b[..|b| - 1]))
         || IsSubsequence(a, b[..|b| - 1])
  }

  /** The kept articles are an order-preserving subsequence of the input. */
  lemma {:induction false} DedupSubsequence(sim: Similarity, news: seq<Article>)
    ensures IsSubsequence(Dedup(sim, news), news)
    decreases |news|
  {
    if news != [] {
      var prefix := news[..|news| - 1];
      DedupSubsequence(sim, prefix);
      var kept := Dedup(sim, prefix);
      if Dedup(sim, news) != kept {
        assert (kept + [news[|news| - 1]])[..|kept|] == kept;
      }
    }
  }

  lemma DedupEmpty(sim: Similarity)
    ensures Dedup(sim, []) == []
  {
  }

  /** The first article is always kept, and comes first. */
  lemma {:induction false} DedupKeepsFirst(sim: Similarity, news: seq<Article>)
    requires news != []
    ensures Dedup(sim, news) != [] && Dedup(sim, news)[0] == news[0]
    decreases |news|
  {
    if |news| > 1 {
      var prefix := news[..|news| - 1];
      DedupKeepsFirst(sim, prefix);
    }
  }

  /** No kept title is more than 80% similar to a title kept before it. */
  predicate PairwiseDistinct(sim: Similarity, kept: seq<Article>) {
    forall p, q :: 0 <= p < q < |kept| ==> sim(Key(kept[q]), Key(kept[p])) <= 0.8
  }

  lemma {:induction false} DedupPairwiseDistinct(sim: Similarity, news: seq<Article>)
    ensures PairwiseDistinct(sim, Dedup(sim, news))
    decreases |news|
  {
    if news != [] {
      var prefix := news[..|news| - 1];
      DedupPairwiseDistinct(sim, prefix);
      var kept := Dedup(sim, prefix);
      var a := news[|news| - 1];
      if !SimilarToAny(sim, Key(a), Keys(kept)) {
        var r := kept + [a];
        forall p, q | 0 <= p < q < |r| ensures sim(Key(r[q]), Key(r[p])) <= 0.8 {
          if q == |kept| {
            assert Keys(kept)[p] == Key(r[p]);
          }
        }
      }
    }
  }

  /** Every dropped article was too similar to one that was kept. */
  lemma {:induction false} DedupDropsOnlySimilar(sim: Similarity, news: seq<Article>, i: nat)
    requires i < |news|
    ensures news[i] in Dedup(sim, news) || SimilarToAny(sim, Key(news[i]), Keys(Dedup(sim, news)))
    decreases |news|
  {
    var prefix := news[..|news| - 1];
    var kept := Dedup(sim, prefix);
    var r := Dedup(sim, news);
    if i < |news| - 1 {
      DedupDropsOnlySimilar(sim, prefix, i);
      assert prefix[i] == news[i];
      if news[i] in kept {
        assert news[i] in r;
      } else {
        var j :| 0 <= j < |kept| && sim(Key(news[i]), Keys(kept)[j]) > 0.8;
        assert r[j] == kept[j];
        assert Keys(r)[j] == Keys(kept)[j];
      }
    } else if SimilarToAny(sim, Key(news[i]), Keys(kept)) {
      assert r == kept;
    } else {
      assert r[|kept|] == news[i];
    }
  }

  /** A list with no two similar titles passes through unchanged. */
  lemma {:induction false} DedupOfDistinct(sim: Similarity, news: seq<Article>)
    requires PairwiseDistinct(sim, news)
    ensures Dedup(sim, news) == news
    decreases |news|
  {
    if news != [] {
      var prefix := news[..|news| - 1];
      DedupOfDistinct(sim, prefix);
      assert prefix + [news[|news| - 1]] == news;
    }
  }

  /** De-duplicating twice gives the same list as once. */
  lemma DedupIdempotent(sim: Similarity, news: seq<Article>)
    ensures Dedup(sim, Dedup(sim, news)) == Dedup(sim, news)
  {
    DedupPairwiseDistinct(sim, news);
    DedupOfDistinct(sim, Dedup(sim, news));
  }

  /** At most this many articles are shown. */
  const MaxShown: nat := 30

  /** Snippets are cut to this many characters. */
  const SnippetLength: nat := 200

  const NoNews := "\n## NO NEWS AVAILABLE\n\n"

  /** A rule of 80 dashes (`'-' * 80`). */
  const Rule := "--------------------------------------------------------------------------------"

  function NewsHeader(count: nat): string {
    "\n## RECENT NEWS & EVENTS (" + NatToString(count) + " articles)\n" + Rule + "\n\n"
  }

  /** The block of the article numbered `n` (from 1). */
  function Block(n: nat, a: Article): string {
    "\n[" + NatToString(n) + "] " + a.title + "\n    Date: " + a.date + "\n    Source: " + a.source
    + "\n    " + Take(a.snippet, SnippetLength) + "...\n    \n"
  }

  /** The blocks of the shown articles, numbered from 1. */
  function Blocks(shown: seq<Article>): (r: seq<string>)
    ensures |r| == |shown| && forall i :: 0 <= i < |shown| ==> r[i] == Block(i + 1, shown[i])
  {
    seq(|shown|, i requires 0 <= i < |shown| => Block(i + 1, shown[i]))
  }

  /** The section: a count of all articles, then the first 30 blocks. */
  function NewsSection(news: seq<Article>): string {
    if news == [] then NoNews else NewsHeader(|news|) + Concat(Blocks(Take(news, MaxShown)))
  }

  /** `_format_news`, building the text with `+=`. */
  method FormatNews(news: seq<Article>) returns (out: string)
    ensures out == NewsSection(news)
  {
    if news == [] {
      return NoNews;
    }
    out := NewsHeader(|news|);
    var shown := Take(news, MaxShown);
    for i := 0 to |shown|
      invariant out == NewsHeader(|news|) + Concat(Blocks(shown[..i]))
    {
      BlocksStep(shown, i);
      var block := Block(i + 1, shown[i]);
      AppendAssoc(NewsHeader(|news|), Concat(Blocks(shown[..i])), block);
      out := out + block;
    }
    assert shown[..|shown|] == shown;
  }

  lemma BlocksStep(shown: seq<Article>, i: nat)
    requires i < |shown|
    ensures Concat(Blocks(shown[..i + 1])) == Concat(Blocks(shown[..i])) + Block(i + 1, shown[i])
  {
    var longer := Blocks(shown[..i + 1]);
    assert longer[..i] == Blocks(shown[..i]);
  }

  /** Exactly the first min(30, n) articles get a block, in order and
      numbered from 1; the header counts all n. */
  lemma NewsSectionShowsFirst30(news: seq<Article>, i: nat)
    requires news != [] && i < Min(MaxShown, |news|)
    ensures |Blocks(Take(news, MaxShown))| == Min(MaxShown, |news|)
    ensures Contains(NewsSection(news), Block(i + 1, news[i]))
    ensures StartsWith(NewsSection(news), NewsHeader(|news|))
  {
    var parts := Blocks(Take(news, MaxShown));
    ConcatContains(parts, i);
    ContainsAfter(NewsHeader(|news|), Concat(parts), parts[i]);
  }

  /** A shown block never carries more than 200 characters of snippet. */
  lemma SnippetCut(a: Article)
    ensures |Take(a.snippet, SnippetLength)| <= SnippetLength
    ensures |a.snippet| <= SnippetLength ==> Take(a.snippet, SnippetLength) == a.snippet
  {
  }

  /** Each part of a concatenation occurs in it. */
  lemma {:induction false} ConcatContains(parts: seq<string>, i: nat)
    requires i < |parts|
    ensures Contains(Concat(parts), parts[i])
    decreases |parts|
  {
    var prefix := parts[..|parts| - 1];
    if i == |parts| - 1 {
      ContainsAfter(Concat(prefix), parts[i], parts[i]);
      assert parts[i][..|parts[i]|] == parts[i];
    } else {
      ConcatContains(prefix, i);
      ContainsBefore(Concat(prefix), parts[|parts| - 1], parts[i]);
    }
  }

  /** Text found in `t` is found in `s + t`. */
  lemma {:induction false} ContainsAfter(s: string, t: string, sub: string)
    requires Contains(t, sub) || StartsWith(t, sub)
    ensures Contains(s + t, sub)
    decreases |s|
  {
    if s == [] {
      assert s + t == t;
      if StartsWith(t, sub) {
        assert Contains(t, sub);
      }
    } else {
      assert (s + t)[1..] == s[1..] + t;
      ContainsAfter(s[1..], t, sub);
    }
  }

  /** Text found in `s` is found in `s + t`. */
  lemma {:induction false} ContainsBefore(s: string, t: string, sub: string)
    requires Contains(s, sub)
    ensures Contains(s + t, sub)
    decreases |s|
  {
    if StartsWith(s, sub) {
      assert (s + t)[..|sub|] == s[..|sub|];
    } else {
      assert (s + t)[1..] == s[1..] + t;
      ContainsBefore(s[1..], t, sub);
    }
  }
}
