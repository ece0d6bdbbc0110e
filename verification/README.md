# Translation script core, modelled in Dafny

The translation script localises a VS Code extension's `package.json` and
`contributions.json`. It walks each JSON document, picks out the
human-readable strings that a field-selection rule names, and replaces each
one with its translation. A translation comes from a persistent cache (the
`TranslationDictionary`) or, on a cache miss, from a remote translation
provider. A `ProgressBar` counts processed items, provider calls and cache
hits.

This project models that in-memory core:

- `Json` is the document as an ordered tree; object members keep their
  stored order.
- `Dictionary` models the cache. It is a finite map plus the snapshot its
  backing file holds; `set` writes through.
- `Progress` models the bar's counters.
- `Text` models Python's `str.isspace`/`str.strip()` and the blank test.
- `Translator` models `translate_text`, with the provider as an oracle
  `Provider = string -> Option<string>`. `None` stands for any recoverable
  failure (timeout, transport error, unusable response). The module also
  defines `Run`, the fold of `translate_text` over a sequence of texts.
- `Walker` holds the one traversal the four walker functions share. It is
  parametrised by a field-selection `Rule`:
  - `PackageJson` selects `REPLACE_TARGET_KEYS` strings and the string
    elements of `enumDescriptions` lists;
  - `ContributionsCount` selects `label`/`name`/`contents` strings;
  - `ContributionsTranslate` selects those strings plus `title`/`description`
    strings.

  `Walker` also gives two reference definitions:
  - `Leaves` is the sequence of leaves a pass visits, in order;
  - `MapLeaves` is the tree with each visited leaf rewritten by a function.
- `WalkerProofs` relates the count pass, the translate pass and the
  reference definitions.
- `Translation` models the script's four functions and the in-memory part
  of `translate_contributions_file`, plus whole-pass properties such as the
  warm cache, idempotent re-runs and failure isolation.
- `Scenarios` holds small worked documents.

The provider is a pure function, so a text that fails once fails every time
within a run. This is what lets a translated tree be described exactly: it
is the input tree with each visited leaf resolved against the cache the pass
ends with (`Translator.Resolve`).

The source's count pass and translate pass for `contributions.json` do not
agree, and the model keeps that behaviour:
- `count_contributions_translatable_items` walks into a `title` or
  `description` value instead of counting it;
- `translate_in_object` rewrites such a value when it is a string.

As a result, a document whose only texts are titles is reported as having
nothing to translate, and is left alone. When the non-blank texts the
translate pass sends on outnumber the count, the progress bar ends above its
total.

## Model

| member | source | states |
|---|---|---|
| Dictionary.Empty | scripts/translation.py:61-63 | a new cache holds no translation and has nothing unsaved |
| Dictionary.Get | scripts/translation.py:76-77 | `get` finds a value exactly for stored keys, and that value is the stored one |
| Dictionary.Exists | scripts/translation.py:83-84 | `exists(t)` holds exactly when `get(t)` finds a value |
| Dictionary.Save | scripts/translation.py:72-74 | saving changes no lookup, and afterwards the backing file holds every entry |
| Dictionary.Set | scripts/translation.py:79-81 | after `set(t, r)`, `t` exists with value `r`, every other key reads as before, and the entry is already saved |
| Progress.NewProgressBar | scripts/translation.py:88-94 | a new bar has the given total and all three counters at zero |
| Progress.Update | scripts/translation.py:96-102 | `current` moves by `n`; `api_calls` and `cache_hits` each rise by one exactly when their flag is set, otherwise they stay; the total never changes |
| Progress.UpdateKeepsBalanced | scripts/translation.py:124-127 | a one-item update flagged as exactly one of hit or call keeps `current == api_calls + cache_hits` |
| Text.StripBounds | scripts/translation.py:161 | where `strip()` cuts: all whitespace before and after the kept piece, and the piece starts and ends with a non-whitespace character |
| Text.Strip | scripts/translation.py:120 | the result is the text with its leading and trailing whitespace cut off: the text is leading whitespace, then the result, then trailing whitespace; the result is empty exactly when the text is all whitespace, and otherwise starts and ends with a non-whitespace character |
| Text.BlankIffAllWhitespace | scripts/translation.py:120 | `not text or not text.strip()` holds exactly when every character is whitespace |
| Text.StripKeepsTrimmed | scripts/translation.py:161 | a text without whitespace at either end strips to itself |
| Text.StripFixedIffTrimmed | scripts/translation.py:161 | `strip()` leaves a text unchanged exactly when it neither starts nor ends with whitespace |
| Translator.TranslateText | scripts/translation.py:119-180 | blank text: returned with cache and counters untouched. Hit: the cached value is returned; `current` and `cache_hits` rise by one; calls and cache unchanged. Miss: `current` and `api_calls` rise whatever the outcome; the text becomes a cache key exactly when the provider answers; a reply is stored and returned stripped; on failure the text comes back and the cache is unchanged |
| Translator.TranslateExtends | scripts/translation.py:119-163 | one call never changes or drops a cache entry, and any entry it adds is the stripped provider reply for its key |
| Translator.Resolve | scripts/translation.py:120-125 | what a leaf reads given a cache: blank or uncached text stays, cached text becomes its translation |
| Translator.TranslateResolves | scripts/translation.py:119-180 | the text `translate_text` returns is the text resolved against any later cache that grew from its result by translation only |
| Translator.RunCounters | scripts/translation.py:119-127 | over a sequence of calls, `current` rises by the number of non-blank texts; each is a hit or a call; the total is unchanged; counters never fall |
| Translator.RunExtends | scripts/translation.py:79-81 | a sequence of calls only adds entries, each being the stripped provider reply for its key, and keeps a saved cache saved |
| Translator.RunWarm | scripts/translation.py:123-125 | when every non-blank text is cached: no provider call, cache unchanged, one hit per non-blank text |
| Translator.RunCachesSuccesses | scripts/translation.py:157-180 | after a sequence of calls, every non-blank text the provider can answer is cached, whatever failed in between |
| Translator.ReliableRunCachesAll | scripts/translation.py:157-163 | with a provider that always answers, every non-blank text ends up cached |
| Walker.Classify | scripts/translation.py:203-208 | a leaf is always a string value, and only the package.json rule has leaf lists, always arrays |
| Walker.ClassifySelects | scripts/translation.py:217-274 | each rule's selection in its own terms: target keys or `enumDescriptions` lists for package.json; `label`/`name`/`contents` strings for the contributions count; those plus `title`/`description` strings for the contributions translation |
| WalkerProofs.CountIsLeaves | scripts/translation.py:183-196 | the count pass returns exactly the number of leaves the translate pass visits under the same rule |
| WalkerProofs.WalkIsRun | scripts/translation.py:199-214 | the cache and counters after a translate pass are those after calling `translate_text` on the visited leaves in order |
| WalkerProofs.WalkExtends | scripts/translation.py:199-214 | a translate pass only grows the cache by translation |
| WalkerProofs.WalkResolves | scripts/translation.py:199-214 | the translated tree is the input with each visited leaf resolved against any cache grown from the final one, and with nothing else changed |
| WalkerProofs.MapSkeleton | scripts/translation.py:199-214 | rewriting the visited leaves keeps shape, keys, key order, array order and every unvisited value |
| WalkerProofs.ContributionsLeaves | scripts/translation.py:217-274 | the contributions count pass visits exactly the translate pass's leaves minus those under `title`/`description`, in order |
| Translation.CountTranslatableItems | scripts/translation.py:183-196 | the count equals the number of leaves the package.json translate pass hands to `translate_text` |
| Translation.TraverseAndTranslate | scripts/translation.py:199-214 | the pass is `translate_text` over the counted leaves in order; its tree is the input with each leaf resolved against the final cache; shape preserved; `current` rises by the count minus blank leaves; each processed item is a hit or a call; total unchanged; cache only grows by translation |
| Translation.CountContributionsTranslatableItems | scripts/translation.py:217-234 | the count equals the number of `label`/`name`/`contents` leaves, i.e. the translate pass's leaves other than `title`/`description` |
| Translation.TranslateInObject | scripts/translation.py:259-274 | `translate_text` is called once per counted leaf plus once per `title`/`description` string; the tree is resolved against the final cache; shape preserved; counter and cache facts as for package.json |
| Translation.TranslateContributionsFile | scripts/translation.py:248-276 | a document with a zero count is left alone; otherwise a bar sized by the count follows one translate pass, its cache and counters are exactly those of `translate_text` run over the translate pass's leaves from that fresh bar; it ends balanced with `current` equal to the non-blank texts sent on; the written tree is resolved against the final cache; a saved cache stays saved |
| Translation.PassFacts | scripts/translation.py:199-214 | the facts every translate pass shares, for each rule |
| Translation.WarmCacheTraverse | scripts/translation.py:119-125 | package.json on a warm cache: no provider call, cache unchanged, one hit per non-blank leaf, each leaf replaced by its cached value |
| Translation.FailureIsIsolated | scripts/translation.py:169-180 | a provider failure on one leaf does not stop any other answerable leaf from being cached |
| Translation.RerunIsIdempotent | scripts/translation.py:199-214 | re-running with the cache a first run filled completely gives the same tree and cache and makes no provider call |
| Translation.ReliableProviderWarmsCache | scripts/translation.py:157-163 | with a provider that always answers, a pass leaves every visited non-blank leaf cached |
| Translation.SecondRunMakesNoCalls | scripts/translation.py:199-214 | with a provider that always answers, a second run over the same document is a pure replay from the cache |
| Scenarios.TitleExample | scripts/translation.py:203-204 | `{"title": "Hello ${name}"}` becomes `{"title": "你好 ${name}"}` with one provider call, and the pair is cached |
| Scenarios.EnumExample | scripts/translation.py:205-208 | `["Low", "", "High"]` under `enumDescriptions` becomes `["低", "", "高"]` with two provider calls |
| Scenarios.TitleScenario | scripts/translation.py:203-204 | a missed `title` is replaced by the provider's reply, which becomes a cache entry, at the cost of one call |
| Scenarios.EnumScenario | scripts/translation.py:205-208 | in an `enumDescriptions` list with an empty middle element, both texts are translated in place and the empty one costs nothing |
| Scenarios.EnumList | scripts/translation.py:206-208 | the element loop of that list on its own |
| Scenarios.BlankThenMiss | scripts/translation.py:120-121 | an empty element followed by a missed one: only the second costs a call |
| Scenarios.TitleOnlyContributionsAreSkipped | scripts/translation.py:248-251 | a contributions document holding only a `title` string counts zero and is left untranslated, although the translate pass would rewrite it |
| Scenarios.ContributionsBarCanOverrun | scripts/translation.py:248-276 | when the translate pass sends on more texts than the count found, the bar ends above its total |
| Scenarios.ContributionsBarOverruns | scripts/translation.py:221-230 | a `title` next to a `label` counts one but sends two texts on |
| Scenarios.HelloWorldOverruns | scripts/translation.py:221-230 | the literal `{"title": "Hello", "label": "World"}` document gets a bar of total one that ends at two |
| Scenarios.TitleExampleQualifies | scripts/translation.py:120 | the title example's text is not blank and its reply has no whitespace at either end |
| Scenarios.EnumExampleTextsQualify | scripts/translation.py:120 | the list example's texts are not blank |

## Left out

- The HTTP request (lines 129-161): URL, headers, prompt, model name, temperature, token limit and timeout. It is replaced by the `Provider` oracle, which tells success from failure and nothing more. The four failure branches (lines 169-180) all become `None`.
- Translator.TranslateText: `save` is assumed to succeed. In the source, line 80 stores the entry before `save()` runs at line 81. A failed write (an `OSError`, say) is caught at lines 178-180, so the text comes back unchanged while the in-memory cache holds its translation. A later leaf with the same text then reads the translation, so the resolved-tree claims of the passes also assume every write succeeds. `Dictionary.Set`'s promise that the entry is saved rests on the same assumption.
- Dictionary.Set: the entry counts as saved because the write of lines 73-74 is assumed to succeed. A failed write leaves the entry in memory but not in the file.
- Translator.TranslateText: a provider is a pure function here, so the same text fails or succeeds the same way every time within a run. A real network call may not.
- The `KeyboardInterrupt` branch and `signal_handler` (lines 164-168, 287-292): process termination, not state logic.
- `TranslationDictionary.load` and the file I/O of `save` (lines 66-74), and reading and writing both documents (lines 238-246, 281-284, 313-318, 343-345). The backing file is modelled only as the `saved` snapshot. `load` calls `.exists()` on a plain string path (lines 61-67, 302), so as written it fails on its first call.
- `get_api_key`, argument parsing, environment lookup and the log helpers (lines 26-57): configuration and output only.
- `ProgressBar.draw` and `finish` (lines 104-116), with the `width`/`desc` fields: cosmetic, and they use floating point.
- `main` (lines 295-356): I/O wiring. It has two quirks that are not modelled:
  - `remaining` subtracts the number of all cache keys, not the keys this document uses (lines 253, 326);
  - when `remaining <= 0`, line 341 reads `progress`, which is never bound on that path.
- `REPLACE_ENUM_DESCRIPTIONS` (line 10) is never read; the `enumDescriptions` rule is always on.
- The `path` / `current_path` strings the walkers build (lines 202, 213, 271, 274) are never read, so they are not modelled.
- Repeated keys in one JSON object. Python's `json.load` keeps one entry per key: it sits where the key first appears and holds the last value. Both passes of the source (lines 186-192, 201-210) therefore visit such a key once. A `JObject` here keeps every member, and the passes visit every copy. The model describes the source only for documents without repeated keys, which is what `json.load` hands it.
- The text of numbers and the serialisation of the documents (indentation, escaping) are not modelled.
