/** The counters of `ProgressBar`: items processed, provider calls made and
    cache hits, plus the total the count pass sized it with. Drawing the bar
    is cosmetic and not part of this model. */
module Progress {

  datatype ProgressBar = ProgressBar(total: int, current: int, apiCalls: nat, cacheHits: nat)

  /** A bar as the constructor leaves it: nothing processed yet. */
  function NewProgressBar(total: int): (p: ProgressBar)
    ensures p.total == total
    ensures p.current == 0 && p.apiCalls == 0 && p.cacheHits == 0
    ensures Balanced(p)
  {
    ProgressBar(total, 0, 0, 0)
  }

  /** Every processed item was either a cache hit or a provider call. */
  predicate Balanced(p: ProgressBar) {
    p.current == p.apiCalls + p.cacheHits
  }

  /** `update(n, api_call, cache_hit)`: `current` advances by `n`; each of
      the two event counters advances by one exactly when its flag is set. */
  function Update(p: ProgressBar, n: int, apiCall: bool, cacheHit: bool): (q: ProgressBar)
    ensures q.total == p.total
    ensures q.current - p.current == n
    ensures apiCall <==> q.apiCalls == p.apiCalls + 1
    ensures !apiCall <==> q.apiCalls == p.apiCalls
    ensures cacheHit <==> q.cacheHits == p.cacheHits + 1
    ensures !cacheHit <==> q.cacheHits == p.cacheHits
  {
    var q := p.(current := p.current + n);
    var q := if apiCall then q.(apiCalls := q.apiCalls + 1) else q;
    if cacheHit then q.(cacheHits := q.cacheHits + 1) else q
  }

  /** A single-item update that records exactly one kind of event keeps the
      counters balanced; that is how the translator always calls it. */
  lemma UpdateKeepsBalanced(p: ProgressBar, apiCall: bool)
    requires Balanced(p)
    ensures Balanced(Update(p, 1, apiCall, !apiCall))
  {
  }
}
