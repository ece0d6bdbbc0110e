/** `translate_text`: the per-string step. A blank text passes through, a
    cached text is answered from the cache, anything else goes to the
    provider, whose answer (stripped) is cached and returned; on failure the
    original text comes back and the cache is left alone. The HTTP request is
    abstracted into a `Provider` oracle. */
module Translator {
  import opened Wrappers
  import opened Text
  import opened Dictionary
  import opened Progress

  /** The external provider: `Some(reply)` when a reply was extracted from a
      successful response, `None` for any recoverable failure (timeout,
      transport error, undecodable or unexpected response body). */
  type Provider = string -> Option<string>

  /** What a run threads from one leaf to the next. */
  datatype State = State(dict: TranslationDictionary, progress: ProgressBar)

  datatype Translated = Translated(text: string, state: State)

  function TranslateText(text: string, st: State, provider: Provider): (r: Translated)
    // pass-through: nothing is touched
    ensures IsBlank(text) ==> r == Translated(text, st)
    // cache hit
    ensures !IsBlank(text) && Exists(st.dict, text) ==>
              && Get(st.dict, text) == Some(r.text)
              && r.state.dict == st.dict
              && r.state.progress.current == st.progress.current + 1
              && r.state.progress.cacheHits == st.progress.cacheHits + 1
              && r.state.progress.apiCalls == st.progress.apiCalls
    // cache miss: the call is counted whether or not it succeeds
    ensures !IsBlank(text) && !Exists(st.dict, text) ==>
              && r.state.progress.current == st.progress.current + 1
              && r.state.progress.apiCalls == st.progress.apiCalls + 1
              && r.state.progress.cacheHits == st.progress.cacheHits
              && (Exists(r.state.dict, text) <==> provider(text).Some?)
    ensures !IsBlank(text) && !Exists(st.dict, text) && provider(text).Some? ==>
              && r.text == Strip(provider(text).value)
              && r.state.dict == Set(st.dict, text, r.text)
    ensures !IsBlank(text) && !Exists(st.dict, text) && provider(text).None? ==>
              r == Translated(text, State(st.dict, r.state.progress))
    ensures r.state.progress.total == st.progress.total
    ensures Balanced(st.progress) ==> Balanced(r.state.progress)
    ensures Durable(st.dict) ==> Durable(r.state.dict)
  {
    if IsBlank(text) then
      Translated(text, st)
    else if Exists(st.dict, text) then
      Translated(Get(st.dict, text).value, st.(progress := Update(st.progress, 1, false, true)))
    else
      var progress := Update(st.progress, 1, true, false);
      match provider(text)
      case Some(reply) =>
        var translated := Strip(reply);
        Translated(translated, State(Set(st.dict, text, translated), progress))
      case None =>
        Translated(text, State(st.dict, progress))
  }

  /** The cache `d'` grew out of `d` by translation only: no entry of `d` was
      changed or dropped, and every new entry is the stripped reply the
      provider gives for its key. */
  ghost predicate Extends(d: TranslationDictionary, d': TranslationDictionary, provider: Provider) {
    && (forall t :: t in d.entries ==> t in d'.entries && d'.entries[t] == d.entries[t])
    && (forall t :: t in d'.entries && t !in d.entries ==>
          provider(t).Some? && d'.entries[t] == Strip(provider(t).value))
  }

  /** One call only grows the cache by translation. */
  lemma TranslateExtends(text: string, st: State, provider: Provider)
    ensures Extends(st.dict, TranslateText(text, st, provider).state.dict, provider)
  {
  }

  lemma ExtendsTransitive(d1: TranslationDictionary, d2: TranslationDictionary, d3: TranslationDictionary, provider: Provider)
    requires Extends(d1, d2, provider) && Extends(d2, d3, provider)
    ensures Extends(d1, d3, provider)
  {
  }

  /** What a leaf with text `t` reads once the cache is `d`: blank text stays
      as it is, a cached text becomes its translation, any other text stays. */
  function Resolve(d: TranslationDictionary, t: string): (r: string)
    ensures !IsBlank(t) && Exists(d, t) ==> Some(r) == Get(d, t)
    ensures IsBlank(t) || !Exists(d, t) ==> r == t
  {
    if IsBlank(t) then t else Get(d, t).ValueOr(t)
  }

  function Resolver(d: TranslationDictionary): string -> string {
    t => Resolve(d, t)
  }

  /** A translated leaf reads as the cache at any later point resolves it,
      provided the cache only grew by translation in between. */
  lemma TranslateResolves(text: string, st: State, provider: Provider, later: TranslationDictionary)
    requires Extends(TranslateText(text, st, provider).state.dict, later, provider)
    ensures TranslateText(text, st, provider).text == Resolve(later, text)
  {
    var r := TranslateText(text, st, provider);
    if !IsBlank(text) && !Exists(st.dict, text) && provider(text).None? {
      assert text !in r.state.dict.entries;
      assert text !in later.entries;
    }
  }

  // ---------------------------------------------------------------------
  // A sequence of translate_text calls, in order

  /** The state after calling `translate_text` on each of `texts` in turn. */
  function Run(texts: seq<string>, st: State, provider: Provider): State
  {
    if texts == [] then st
    else Run(texts[1..], TranslateText(texts[0], st, provider).state, provider)
  }

  /** How many of `texts` are not blank, i.e. reach the cache or the provider. */
  function NonBlankCount(texts: seq<string>): (n: nat)
    ensures n <= |texts|
  {
    if texts == [] then 0
    else (if IsBlank(texts[0]) then 0 else 1) + NonBlankCount(texts[1..])
  }

  /** How many of `texts` are blank and pass through untouched. */
  function BlankCount(texts: seq<string>): (n: nat)
    ensures n + NonBlankCount(texts) == |texts|
  {
    |texts| - NonBlankCount(texts)
  }

  /** Every text that reaches the cache lookup is already cached. */
  predicate AllCached(texts: seq<string>, d: TranslationDictionary) {
    forall i :: 0 <= i < |texts| && !IsBlank(texts[i]) ==> Exists(d, texts[i])
  }

  /** Translating `a + b` is translating `a`, then `b`. */
  lemma {:induction false} RunConcat(a: seq<string>, b: seq<string>, st: State, provider: Provider)
    ensures Run(a + b, st, provider) == Run(b, Run(a, st, provider), provider)
  {
    if a == [] {
      assert a + b == b;
    } else {
      assert (a + b)[0] == a[0];
      assert (a + b)[1..] == a[1..] + b;
      RunConcat(a[1..], b, TranslateText(a[0], st, provider).state, provider);
    }
  }

  /** Counter bookkeeping over a run: each non-blank text advances `current`
      by one and is either a cache hit or a provider call; blank texts count
      for nothing; `total` never changes. */
  lemma {:induction false} RunCounters(texts: seq<string>, st: State, provider: Provider)
    ensures var q := Run(texts, st, provider).progress;
            && q.total == st.progress.total
            && q.current == st.progress.current + NonBlankCount(texts)
            && q.apiCalls + q.cacheHits == st.progress.apiCalls + st.progress.cacheHits + NonBlankCount(texts)
            && q.apiCalls >= st.progress.apiCalls
            && q.cacheHits >= st.progress.cacheHits
            && (Balanced(st.progress) ==> Balanced(q))
  {
    if texts != [] {
      RunCounters(texts[1..], TranslateText(texts[0], st, provider).state, provider);
    }
  }

  /** A run only grows the cache by translation, and keeps it durable. */
  lemma {:induction false} RunExtends(texts: seq<string>, st: State, provider: Provider)
    ensures Extends(st.dict, Run(texts, st, provider).dict, provider)
    ensures Durable(st.dict) ==> Durable(Run(texts, st, provider).dict)
  {
    if texts != [] {
      var st1 := TranslateText(texts[0], st, provider).state;
      TranslateExtends(texts[0], st, provider);
      RunExtends(texts[1..], st1, provider);
      ExtendsTransitive(st.dict, st1.dict, Run(texts, st, provider).dict, provider);
    }
  }

  /** On a warm cache a run makes no provider call, leaves the cache as it is
      and counts every non-blank text as a cache hit. */
  lemma {:induction false} RunWarm(texts: seq<string>, st: State, provider: Provider)
    requires AllCached(texts, st.dict)
    ensures Run(texts, st, provider).dict == st.dict
    ensures Run(texts, st, provider).progress.apiCalls == st.progress.apiCalls
    ensures Run(texts, st, provider).progress.cacheHits == st.progress.cacheHits + NonBlankCount(texts)
  {
    if texts != [] {
      var st1 := TranslateText(texts[0], st, provider).state;
      assert AllCached(texts[1..], st1.dict) by {
        forall i | 0 <= i < |texts[1..]| && !IsBlank(texts[1..][i])
          ensures Exists(st1.dict, texts[1..][i])
        {
          assert texts[1..][i] == texts[i + 1];
        }
      }
      RunWarm(texts[1..], st1, provider);
    }
  }

  /** After a run, every non-blank text the provider can translate is cached:
      a provider failure on one text never keeps another one out. */
  lemma {:induction false} RunCachesSuccesses(texts: seq<string>, st: State, provider: Provider)
    ensures forall i :: 0 <= i < |texts| && !IsBlank(texts[i]) && provider(texts[i]).Some? ==>
              Exists(Run(texts, st, provider).dict, texts[i])
  {
    if texts != [] {
      var st1 := TranslateText(texts[0], st, provider).state;
      RunCachesSuccesses(texts[1..], st1, provider);
      RunExtends(texts[1..], st1, provider);
      forall i | 0 <= i < |texts| && !IsBlank(texts[i]) && provider(texts[i]).Some?
        ensures Exists(Run(texts, st, provider).dict, texts[i])
      {
        if i > 0 {
          assert texts[i] == texts[1..][i - 1];
        }
      }
    }
  }

  /** When the provider answers every call, a run caches every non-blank text. */
  lemma ReliableRunCachesAll(texts: seq<string>, st: State, provider: Provider)
    requires forall t :: provider(t).Some?
    ensures AllCached(texts, Run(texts, st, provider).dict)
  {
    RunCachesSuccesses(texts, st, provider);
  }
}
