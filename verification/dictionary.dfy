/** The translation cache (`TranslationDictionary`): a finite map from source
    text to translated text. `saved` is the content of the backing file as of
    the last save; `set` writes the whole map through before it returns. */
module Dictionary {
  import opened Wrappers

  datatype TranslationDictionary = TranslationDictionary(
    entries: map<string, string>,
    saved: map<string, string>)

  /** Nothing is held only in memory: the backing file has every entry. */
  predicate Durable(d: TranslationDictionary) {
    d.saved == d.entries
  }

  /** The cache of a run whose backing file does not exist yet. */
  function Empty(): (d: TranslationDictionary)
    ensures forall t :: Get(d, t) == None
    ensures Durable(d)
  {
    TranslationDictionary(map[], map[])
  }

  /** `get`: the stored translation of `text`, or `None` when absent. */
  function Get(d: TranslationDictionary, text: string): (r: Option<string>)
    ensures r.Some? <==> text in d.entries
    ensures r.Some? ==> r.value == d.entries[text]
  {
    if text in d.entries then Some(d.entries[text]) else None
  }

  /** `exists`: whether `get` would find a translation. */
  function Exists(d: TranslationDictionary, text: string): (b: bool)
    ensures b <==> Get(d, text).Some?
  {
    text in d.entries
  }

  /** `save`: rewrite the backing file with the whole map. */
  function Save(d: TranslationDictionary): (r: TranslationDictionary)
    ensures forall t :: Get(r, t) == Get(d, t)
    ensures Durable(r)
  {
    d.(saved := d.entries)
  }

  /** `set`: afterwards `text` is present with value `translated`, every other
      key keeps its previous value or stays absent, and the backing file
      already holds the new entry. */
  function Set(d: TranslationDictionary, text: string, translated: string): (r: TranslationDictionary)
    ensures Exists(r, text)
    ensures Get(r, text) == Some(translated)
    ensures forall t :: t != text ==> Get(r, t) == Get(d, t)
    ensures Durable(r)
  {
    Save(d.(entries := d.entries[text := translated]))
  }
}
