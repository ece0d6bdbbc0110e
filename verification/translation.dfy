/** The four walker functions of the translation script, each the generic
    walker under its own field-selection rule, and the in-memory part of
    `translate_contributions_file`. */
module Translation {
  import opened Wrappers
  import opened Json
  import opened Text
  import opened Dictionary
  import opened Progress
  import opened Translator
  import opened Walker
  import opened WalkerProofs

  // ---------------------------------------------------------------------
  // package.json

  /** `count_translatable_items`: the number of leaves the translate pass of
      package.json will hand to `translate_text`. */
  function CountTranslatableItems(j: Json): (n: nat)
    ensures n == |Leaves(PackageJson, j)|
  {
    CountIsLeaves(PackageJson, j);
    Count(PackageJson, j)
  }

  /** `traverse_and_translate`. */
  function TraverseAndTranslate(j: Json, st: State, provider: Provider): (r: Walked<Json>)
    // it is translate_text applied to the counted leaves, in order
    ensures r.state == Run(Texts(Leaves(PackageJson, j)), st, provider)
    // each leaf ends up as the final cache resolves it; nothing else moves
    ensures r.value == MapLeaves(PackageJson, j, Resolver(r.state.dict))
    ensures Skeleton(PackageJson, r.value) == Skeleton(PackageJson, j)
    // counter bookkeeping
    ensures r.state.progress.current
              == st.progress.current + CountTranslatableItems(j) - BlankCount(Texts(Leaves(PackageJson, j)))
    ensures r.state.progress.apiCalls + r.state.progress.cacheHits
              == st.progress.apiCalls + st.progress.cacheHits + (r.state.progress.current - st.progress.current)
    ensures r.state.progress.total == st.progress.total
    // the cache only grows by translation, and stays written through
    ensures Extends(st.dict, r.state.dict, provider)
    ensures Durable(st.dict) ==> Durable(r.state.dict)
  {
    PassFacts(PackageJson, j, st, provider);
    Walk(PackageJson, j, st, provider)
  }

  // ---------------------------------------------------------------------
  // contributions.json

  /** `count_contributions_translatable_items`: the `label`, `name` and
      `contents` strings; `title` and `description` are only walked into. */
  function CountContributionsTranslatableItems(j: Json): (n: nat)
    ensures n == |Leaves(ContributionsCount, j)|
    ensures n == |WithoutExtra(Leaves(ContributionsTranslate, j))|
  {
    CountIsLeaves(ContributionsCount, j);
    ContributionsLeaves(j);
    Count(ContributionsCount, j)
  }

  /** `translate_in_object`. It also rewrites `title` and `description`
      strings, so it calls `translate_text` more often than the count pass
      predicts: once more per such string. */
  function TranslateInObject(j: Json, st: State, provider: Provider): (r: Walked<Json>)
    ensures r.state == Run(Texts(Leaves(ContributionsTranslate, j)), st, provider)
    ensures |Texts(Leaves(ContributionsTranslate, j))|
              == CountContributionsTranslatableItems(j) + |OnlyExtra(Leaves(ContributionsTranslate, j))|
    ensures r.value == MapLeaves(ContributionsTranslate, j, Resolver(r.state.dict))
    ensures Skeleton(ContributionsTranslate, r.value) == Skeleton(ContributionsTranslate, j)
    ensures r.state.progress.current
              == st.progress.current + NonBlankCount(Texts(Leaves(ContributionsTranslate, j)))
    ensures r.state.progress.apiCalls + r.state.progress.cacheHits
              == st.progress.apiCalls + st.progress.cacheHits + (r.state.progress.current - st.progress.current)
    ensures r.state.progress.total == st.progress.total
    ensures Extends(st.dict, r.state.dict, provider)
    ensures Durable(st.dict) ==> Durable(r.state.dict)
  {
    ExtraPartition(Leaves(ContributionsTranslate, j));
    PassFacts(ContributionsTranslate, j, st, provider);
    Walk(ContributionsTranslate, j, st, provider)
  }

  /** What `translate_contributions_file` does with a loaded document. */
  datatype FileRun =
    | NothingToTranslate
    | Completed(doc: Json, dict: TranslationDictionary, progress: ProgressBar)

  /** `translate_contributions_file` after loading: a document whose count
      pass finds nothing is left alone; otherwise a fresh bar sized by the
      count pass follows one translate pass, whose tree is what gets written. */
  function TranslateContributionsFile(j: Json, d: TranslationDictionary, provider: Provider): (r: FileRun)
    ensures r.NothingToTranslate? <==> CountContributionsTranslatableItems(j) == 0
    ensures r.Completed? ==>
              && r.progress.total == CountContributionsTranslatableItems(j)
              && Balanced(r.progress)
              && r.progress.current == NonBlankCount(Texts(Leaves(ContributionsTranslate, j)))
              && r.doc == MapLeaves(ContributionsTranslate, j, Resolver(r.dict))
              && Extends(d, r.dict, provider)
    // the cache and counters are those of one translate pass from a fresh bar
    ensures r.Completed? ==>
              State(r.dict, r.progress)
                == Run(Texts(Leaves(ContributionsTranslate, j)),
                       State(d, NewProgressBar(CountContributionsTranslatableItems(j))), provider)
    ensures r.Completed? && Durable(d) ==> Durable(r.dict)
  {
    var total := CountContributionsTranslatableItems(j);
    if total == 0 then NothingToTranslate
    else
      var st := State(d, NewProgressBar(total));
      var w := TranslateInObject(j, st, provider);
      RunCounters(Texts(Leaves(ContributionsTranslate, j)), st, provider);
      Completed(w.value, w.state.dict, w.state.progress)
  }

  // ---------------------------------------------------------------------
  // Properties of whole passes

  /** The facts both translate passes share. */
  lemma PassFacts(rule: Rule, j: Json, st: State, provider: Provider)
    ensures var r := Walk(rule, j, st, provider);
            var ts := Texts(Leaves(rule, j));
            && r.state == Run(ts, st, provider)
            && r.value == MapLeaves(rule, j, Resolver(r.state.dict))
            && Skeleton(rule, r.value) == Skeleton(rule, j)
            && r.state.progress.current == st.progress.current + NonBlankCount(ts)
            && r.state.progress.apiCalls + r.state.progress.cacheHits
                 == st.progress.apiCalls + st.progress.cacheHits + NonBlankCount(ts)
            && r.state.progress.total == st.progress.total
            && Extends(st.dict, r.state.dict, provider)
            && (Durable(st.dict) ==> Durable(r.state.dict))
  {
    var r := Walk(rule, j, st, provider);
    var ts := Texts(Leaves(rule, j));
    WalkIsRun(rule, j, st, provider);
    RunCounters(ts, st, provider);
    RunExtends(ts, st, provider);
    WalkResolves(rule, j, st, provider, r.state.dict);
    MapSkeleton(rule, j, Resolver(r.state.dict));
  }

  /** A package.json pass on a warm cache: no provider call, the cache is
      unchanged, every non-blank leaf is a cache hit and becomes its cached
      translation. */
  lemma WarmCacheTraverse(j: Json, st: State, provider: Provider)
    requires AllCached(Texts(Leaves(PackageJson, j)), st.dict)
    ensures var r := TraverseAndTranslate(j, st, provider);
            && r.state.dict == st.dict
            && r.state.progress.apiCalls == st.progress.apiCalls
            && r.state.progress.cacheHits == st.progress.cacheHits + NonBlankCount(Texts(Leaves(PackageJson, j)))
            && r.value == MapLeaves(PackageJson, j, Resolver(st.dict))
  {
    RunWarm(Texts(Leaves(PackageJson, j)), st, provider);
  }

  /** A provider failure on one leaf does not keep any other leaf from being
      translated: after the pass every non-blank leaf the provider can
      translate is cached, and the tree shows its cached translation. */
  lemma FailureIsIsolated(j: Json, st: State, provider: Provider)
    ensures var r := TraverseAndTranslate(j, st, provider);
            var ts := Texts(Leaves(PackageJson, j));
            forall i :: 0 <= i < |ts| && !IsBlank(ts[i]) && provider(ts[i]).Some? ==>
              Exists(r.state.dict, ts[i])
  {
    RunCachesSuccesses(Texts(Leaves(PackageJson, j)), st, provider);
  }

  /** Running package.json again with the cache a first run left behind,
      when that first run cached every non-blank leaf (for instance because
      the provider answered every call), makes no provider call, leaves the
      cache alone and writes the same tree. */
  lemma RerunIsIdempotent(j: Json, st: State, again: State, provider: Provider)
    requires again.dict == TraverseAndTranslate(j, st, provider).state.dict
    requires AllCached(Texts(Leaves(PackageJson, j)), again.dict)
    ensures var first := TraverseAndTranslate(j, st, provider);
            var second := TraverseAndTranslate(j, again, provider);
            && second.value == first.value
            && second.state.dict == first.state.dict
            && second.state.progress.apiCalls == again.progress.apiCalls
  {
    WarmCacheTraverse(j, again, provider);
  }

  /** When the provider answers every call, a pass leaves every non-blank
      leaf it visited in the cache. */
  lemma ReliableProviderWarmsCache(j: Json, st: State, provider: Provider)
    requires forall t :: provider(t).Some?
    ensures AllCached(Texts(Leaves(PackageJson, j)), TraverseAndTranslate(j, st, provider).state.dict)
  {
    var ts := Texts(Leaves(PackageJson, j));
    assert TraverseAndTranslate(j, st, provider).state == Run(ts, st, provider);
    ReliableRunCachesAll(ts, st, provider);
  }

  /** When the provider answers every call, a second run over the same
      document is a pure replay from the cache. */
  lemma SecondRunMakesNoCalls(j: Json, st: State, again: State, provider: Provider)
    requires forall t :: provider(t).Some?
    requires again.dict == TraverseAndTranslate(j, st, provider).state.dict
    ensures var first := TraverseAndTranslate(j, st, provider);
            var second := TraverseAndTranslate(j, again, provider);
            && second.value == first.value
            && second.state.dict == first.state.dict
            && second.state.progress.apiCalls == again.progress.apiCalls
  {
    ReliableProviderWarmsCache(j, st, provider);
    RerunIsIdempotent(j, st, again, provider);
  }
}
