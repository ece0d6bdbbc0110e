/** Worked examples on small documents. Each is stated for any texts with
    the relevant properties; a companion lemma shows that the texts of the
    example have them. */
module Scenarios {
  import opened Wrappers
  import opened Json
  import opened Text
  import opened Dictionary
  import opened Progress
  import opened Translator
  import opened Walker
  import opened Translation

  /** The texts of the title example, `Hello ${name}` translated as
      `你好 ${name}`, meet `TitleScenario`'s requirements. */
  lemma TitleExampleQualifies()
    ensures !IsBlank("Hello ${name}") && Trimmed("你好 ${name}")
  {
    NotBlank("Hello ${name}");
  }

  /** The source texts of the list example, `Low` and `High`, meet
      `EnumScenario`'s requirements ... */
  lemma EnumExampleTextsQualify()
    ensures !IsBlank("Low") && !IsBlank("High") && "Low" != "High"
  {
    NotBlank("Low");
    NotBlank("High");
  }

  /** ... and so do their translations `低` and `高`. */
  lemma EnumExampleRepliesQualify()
    ensures Trimmed("低") && Trimmed("高")
  {
  }

  /** The title example itself: `{"title": "Hello ${name}"}` on a cache
      that lacks the text, with the provider answering `你好 ${name}`. */
  lemma TitleExample(st: State, provider: Provider)
    requires !Exists(st.dict, "Hello ${name}") && provider("Hello ${name}") == Some("你好 ${name}")
    ensures var r := Walk(PackageJson, JObject([Member("title", JString("Hello ${name}"))]), st, provider);
            && r.value == JObject([Member("title", JString("你好 ${name}"))])
            && Get(r.state.dict, "Hello ${name}") == Some("你好 ${name}")
            && r.state.progress.apiCalls == st.progress.apiCalls + 1
  {
    TitleExampleQualifies();
    TitleScenario("Hello ${name}", "你好 ${name}", st, provider);
  }

  /** The list example itself: `{"enumDescriptions": ["Low", "", "High"]}`
      with the provider answering `低` and `高`. */
  lemma EnumExample(st: State, provider: Provider)
    requires !Exists(st.dict, "Low") && !Exists(st.dict, "High")
    requires provider("Low") == Some("低") && provider("High") == Some("高")
    ensures var xs := [JString("Low"), JString(""), JString("High")];
            var r := Walk(PackageJson, JObject([Member("enumDescriptions", JArray(xs))]), st, provider);
            && r.value == JObject([Member("enumDescriptions", JArray([JString("低"), JString(""), JString("高")]))])
            && r.state.progress.apiCalls == st.progress.apiCalls + 2
            && r.state.progress.current == st.progress.current + 2
  {
    EnumExampleTextsQualify();
    EnumExampleRepliesQualify();
    EnumScenario("Low", "High", "低", "高", st, provider);
  }

  /** A cache miss on a `title` (say `Hello ${name}`, answered with
      `你好 ${name}`): the reply replaces the leaf and becomes a cache entry. */
  lemma TitleScenario(text: string, reply: string, st: State, provider: Provider)
    requires !IsBlank(text) && Trimmed(reply)
    requires !Exists(st.dict, text) && provider(text) == Some(reply)
    ensures var r := Walk(PackageJson, JObject([Member("title", JString(text))]), st, provider);
            && r.value == JObject([Member("title", JString(reply))])
            && Get(r.state.dict, text) == Some(reply)
            && r.state.progress.apiCalls == st.progress.apiCalls + 1
  {
    StripKeepsTrimmed(reply);
    TitleIsLeaf(text);
    SingleLeafObject(PackageJson, "title", text, st, provider);
  }

  /** An `enumDescriptions` list `[low, "", high]` (say `Low`, `High`): the
      empty element is passed through and costs no provider call. */
  lemma EnumScenario(low: string, high: string, lowReply: string, highReply: string, st: State, provider: Provider)
    requires !IsBlank(low) && !IsBlank(high) && low != high
    requires Trimmed(lowReply) && Trimmed(highReply)
    requires !Exists(st.dict, low) && !Exists(st.dict, high)
    requires provider(low) == Some(lowReply) && provider(high) == Some(highReply)
    ensures var xs := [JString(low), JString(""), JString(high)];
            var r := Walk(PackageJson, JObject([Member("enumDescriptions", JArray(xs))]), st, provider);
            && r.value == JObject([Member("enumDescriptions", JArray([JString(lowReply), JString(""), JString(highReply)]))])
            && r.state.progress.apiCalls == st.progress.apiCalls + 2
            && r.state.progress.current == st.progress.current + 2
  {
    var xs := [JString(low), JString(""), JString(high)];
    EnumIsList(xs);
    SingleListObject(PackageJson, "enumDescriptions", xs, st, provider);
    EnumList(low, high, lowReply, highReply, st, provider);
  }

  /** The list of `EnumScenario` on its own. */
  lemma EnumList(low: string, high: string, lowReply: string, highReply: string, st: State, provider: Provider)
    requires !IsBlank(low) && !IsBlank(high) && low != high
    requires Trimmed(lowReply) && Trimmed(highReply)
    requires !Exists(st.dict, low) && !Exists(st.dict, high)
    requires provider(low) == Some(lowReply) && provider(high) == Some(highReply)
    ensures var w := TranslateStrings([JString(low), JString(""), JString(high)], st, provider);
            && w.value == [JString(lowReply), JString(""), JString(highReply)]
            && w.state.progress.apiCalls == st.progress.apiCalls + 2
            && w.state.progress.current == st.progress.current + 2
  {
    var xs := [JString(low), JString(""), JString(high)];
    StripKeepsTrimmed(lowReply);
    var t1 := TranslateText(low, st, provider);
    assert t1.text == lowReply;
    assert t1.state.progress.apiCalls == st.progress.apiCalls + 1;
    assert t1.state.progress.current == st.progress.current + 1;
    assert !Exists(t1.state.dict, high) by {
      assert t1.state.dict == Set(st.dict, low, lowReply);
      assert Get(t1.state.dict, high) == Get(st.dict, high);
    }
    assert xs[1..] == [JString(""), JString(high)];
    BlankThenMiss(high, highReply, t1.state, provider);
    var rest := TranslateStrings(xs[1..], t1.state, provider);
    assert rest.value == [JString(""), JString(highReply)];
    assert rest.state.progress.apiCalls == st.progress.apiCalls + 2;
    assert rest.state.progress.current == st.progress.current + 2;
    PrependToPair(JString(lowReply), JString(""), JString(highReply), rest.value);
    StringsStep(xs, st, provider);
    var w := TranslateStrings(xs, st, provider);
    assert w == Walked([JString(lowReply)] + rest.value, rest.state);
    assert w.value == [JString(lowReply), JString(""), JString(highReply)];
    assert w.state == rest.state;
  }

  /** The tail `["", high]` of that list. */
  lemma BlankThenMiss(high: string, highReply: string, st: State, provider: Provider)
    requires !IsBlank(high) && Trimmed(highReply)
    requires !Exists(st.dict, high) && provider(high) == Some(highReply)
    ensures var w := TranslateStrings([JString(""), JString(high)], st, provider);
            && w.value == [JString(""), JString(highReply)]
            && w.state.progress.apiCalls == st.progress.apiCalls + 1
            && w.state.progress.current == st.progress.current + 1
  {
    StripKeepsTrimmed(highReply);
    var xs := [JString(""), JString(high)];
    assert xs[1..] == [JString(high)];
    assert xs[1..][1..] == [];
    assert TranslateText("", st, provider) == Translated("", st);
    StringsStep(xs, st, provider);
    StringsStep(xs[1..], st, provider);
  }

  /** A contributions document whose only text is a `title` string (say
      `Hello`): the count pass finds nothing, so the file is left
      untranslated, although the translate pass would have rewritten that
      title. */
  lemma TitleOnlyContributionsAreSkipped(title: string, d: TranslationDictionary, provider: Provider)
    ensures var j := JObject([Member("title", JString(title))]);
            && TranslateContributionsFile(j, d, provider) == NothingToTranslate
            && Leaves(ContributionsTranslate, j) == [Visit("title", title)]
  {
    var ms := [Member("title", JString(title))];
    assert ms[1..] == [];
    assert Classify(ContributionsCount, "title", JString(title)) == Descend;
    assert Classify(ContributionsTranslate, "title", JString(title)) == Leaf;
    assert CountMembers(ContributionsCount, ms) == 0;
    assert LeavesMembers(ContributionsTranslate, ms) == [Visit("title", title)];
  }

  /** Whenever the translate pass of a contributions document sends more
      texts on than the count pass found, the bar ends above its total. */
  lemma ContributionsBarCanOverrun(j: Json, d: TranslationDictionary, provider: Provider)
    requires 0 < CountContributionsTranslatableItems(j) < NonBlankCount(Texts(Leaves(ContributionsTranslate, j)))
    ensures var r := TranslateContributionsFile(j, d, provider);
            r.Completed? && r.progress.current > r.progress.total
  {
  }

  /** A contributions document with a `title` and a `label` string (say
      `Hello` and `World`): the bar is sized for one item, but both texts
      reach `translate_text`. */
  lemma ContributionsBarOverruns(title: string, labelText: string, d: TranslationDictionary, provider: Provider)
    requires !IsBlank(title) && !IsBlank(labelText)
    ensures var j := JObject([Member("title", JString(title)), Member("label", JString(labelText))]);
            && CountContributionsTranslatableItems(j) == 1
            && NonBlankCount(Texts(Leaves(ContributionsTranslate, j))) == 2
  {
    var ms := [Member("title", JString(title)), Member("label", JString(labelText))];
    TitleLabelCount(ms, title, labelText);
    TitleLabelTexts(ms, title, labelText);
  }

  /** The literal `{"title": "Hello", "label": "World"}` document: the bar
      is sized for one item and ends at two, above its total. */
  lemma HelloWorldOverruns(d: TranslationDictionary, provider: Provider)
    ensures var j := JObject([Member("title", JString("Hello")), Member("label", JString("World"))]);
            var r := TranslateContributionsFile(j, d, provider);
            && r.Completed? && r.progress.total == 1 && r.progress.current == 2
  {
    NotBlank("Hello");
    NotBlank("World");
    ContributionsBarOverruns("Hello", "World", d, provider);
    var j := JObject([Member("title", JString("Hello")), Member("label", JString("World"))]);
    ContributionsBarCanOverrun(j, d, provider);
  }

  /** The count pass sees only the `label` ... */
  lemma TitleLabelCount(ms: seq<Member>, title: string, labelText: string)
    requires ms == [Member("title", JString(title)), Member("label", JString(labelText))]
    ensures CountContributionsTranslatableItems(JObject(ms)) == 1
  {
    assert ms[1..] == [Member("label", JString(labelText))];
    assert ms[1..][1..] == [];
    assert Classify(ContributionsCount, "title", JString(title)) == Descend;
    assert Classify(ContributionsCount, "label", JString(labelText)) == Leaf;
    assert Count(ContributionsCount, JString(title)) == 0;
    assert CountMembers(ContributionsCount, ms[1..][1..]) == 0;
    assert CountMembers(ContributionsCount, ms[1..]) == 1;
    assert CountMembers(ContributionsCount, ms) == 1;
  }

  /** ... while the translate pass sends both texts on. */
  lemma TitleLabelTexts(ms: seq<Member>, title: string, labelText: string)
    requires !IsBlank(title) && !IsBlank(labelText)
    requires ms == [Member("title", JString(title)), Member("label", JString(labelText))]
    ensures NonBlankCount(Texts(Leaves(ContributionsTranslate, JObject(ms)))) == 2
  {
    assert ms[1..] == [Member("label", JString(labelText))];
    assert ms[1..][1..] == [];
    assert Classify(ContributionsTranslate, "title", JString(title)) == Leaf;
    assert Classify(ContributionsTranslate, "label", JString(labelText)) == Leaf;
    assert LeavesMembers(ContributionsTranslate, ms[1..][1..]) == [];
    assert LeavesMembers(ContributionsTranslate, ms[1..]) == [Visit("label", labelText)];
    assert LeavesMembers(ContributionsTranslate, ms) == [Visit("title", title), Visit("label", labelText)];
    var ts := Texts(LeavesMembers(ContributionsTranslate, ms));
    assert ts == [title, labelText];
    assert ts[1..] == [labelText];
  }

  // ---------------------------------------------------------------------
  // Helpers

  lemma NotBlank(s: string)
    requires |s| > 0 && !IsWhitespace(s[0]) && !IsWhitespace(s[|s| - 1])
    ensures !IsBlank(s)
  {
    StripKeepsTrimmed(s);
  }

  lemma TitleIsLeaf(s: string)
    ensures Classify(PackageJson, "title", JString(s)) == Leaf
  {
  }

  lemma EnumIsList(xs: seq<Json>)
    ensures Classify(PackageJson, "enumDescriptions", JArray(xs)) == LeafList
  {
  }

  /** Walking an object with one leaf member is one `translate_text` call. */
  lemma SingleLeafObject(rule: Rule, key: string, s: string, st: State, provider: Provider)
    requires Classify(rule, key, JString(s)) == Leaf
    ensures var t := TranslateText(s, st, provider);
            Walk(rule, JObject([Member(key, JString(s))]), st, provider)
              == Walked(JObject([Member(key, JString(t.text))]), t.state)
  {
    var ms := [Member(key, JString(s))];
    assert ms[1..] == [];
    var t := TranslateText(s, st, provider);
    assert ms[0].value.str == s;
    var rest := WalkMembers(rule, ms[1..], t.state, provider);
    assert rest == Walked([], t.state);
    var w := WalkMembers(rule, ms, st, provider);
    assert w == Walked([Member(key, JString(t.text))] + rest.value, rest.state);
    assert [Member(key, JString(t.text))] + rest.value == [Member(key, JString(t.text))];
    assert Walk(rule, JObject(ms), st, provider) == Walked(JObject(w.value), w.state);
  }

  /** Walking an object with one leaf-list member translates that list. */
  lemma SingleListObject(rule: Rule, key: string, xs: seq<Json>, st: State, provider: Provider)
    requires Classify(rule, key, JArray(xs)) == LeafList
    ensures var w := TranslateStrings(xs, st, provider);
            Walk(rule, JObject([Member(key, JArray(xs))]), st, provider)
              == Walked(JObject([Member(key, JArray(w.value))]), w.state)
  {
    var ms := [Member(key, JArray(xs))];
    assert ms[1..] == [];
    var w := TranslateStrings(xs, st, provider);
    assert ms[0].value.items == xs;
    var rest := WalkMembers(rule, ms[1..], w.state, provider);
    assert rest == Walked([], w.state);
    var wm := WalkMembers(rule, ms, st, provider);
    assert wm == Walked([Member(key, JArray(w.value))] + rest.value, rest.state);
    assert [Member(key, JArray(w.value))] + rest.value == [Member(key, JArray(w.value))];
    assert Walk(rule, JObject(ms), st, provider) == Walked(JObject(wm.value), wm.state);
  }

  /** One step of the `enumDescriptions` loop. */
  lemma PrependToPair(a: Json, b: Json, c: Json, ys: seq<Json>)
    requires ys == [b, c]
    ensures [a] + ys == [a, b, c]
  {
  }

  lemma StringsStep(xs: seq<Json>, st: State, provider: Provider)
    requires xs != []
    ensures var here := if xs[0].JString? then TranslateText(xs[0].str, st, provider)
                        else Translated("", st);
            var rest := TranslateStrings(xs[1..], here.state, provider);
            TranslateStrings(xs, st, provider)
              == Walked([if xs[0].JString? then JString(here.text) else xs[0]] + rest.value, rest.state)
  {
  }
}
