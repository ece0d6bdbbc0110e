/** Properties of the walker that hold for every field-selection rule. */
module WalkerProofs {
  import opened Json
  import opened Dictionary
  import opened Translator
  import opened Walker

  // ---------------------------------------------------------------------
  // The count pass counts exactly the leaves the translate pass visits

  lemma {:induction false} CountIsLeaves(rule: Rule, j: Json)
    ensures Count(rule, j) == |Leaves(rule, j)|
    decreases j
  {
    match j
    case JObject(ms) => CountMembersIsLeaves(rule, ms);
    case JArray(xs) => CountItemsIsLeaves(rule, xs);
    case _ =>
  }

  lemma {:induction false} CountMembersIsLeaves(rule: Rule, ms: seq<Member>)
    ensures CountMembers(rule, ms) == |LeavesMembers(rule, ms)|
    decreases ms
  {
    if ms != [] {
      var m := ms[0];
      match Classify(rule, m.key, m.value) {
        case Leaf =>
        case LeafList => CountStringsIsVisits(m.key, m.value.items);
        case Descend => CountIsLeaves(rule, m.value);
      }
      CountMembersIsLeaves(rule, ms[1..]);
    }
  }

  lemma {:induction false} CountItemsIsLeaves(rule: Rule, xs: seq<Json>)
    ensures CountItems(rule, xs) == |LeavesItems(rule, xs)|
    decreases xs
  {
    if xs != [] {
      CountIsLeaves(rule, xs[0]);
      CountItemsIsLeaves(rule, xs[1..]);
    }
  }

  lemma {:induction false} CountStringsIsVisits(key: string, xs: seq<Json>)
    ensures CountStrings(xs) == |StringVisits(key, xs)|
  {
    if xs != [] {
      CountStringsIsVisits(key, xs[1..]);
    }
  }

  // ---------------------------------------------------------------------
  // The translate pass is the run of translate_text over the visited leaves

  lemma {:induction false} TextsConcat(a: seq<Visit>, b: seq<Visit>)
    ensures Texts(a + b) == Texts(a) + Texts(b)
  {
  }

  lemma {:induction false} WalkIsRun(rule: Rule, j: Json, st: State, provider: Provider)
    ensures Walk(rule, j, st, provider).state == Run(Texts(Leaves(rule, j)), st, provider)
    decreases j
  {
    match j
    case JObject(ms) => WalkMembersIsRun(rule, ms, st, provider);
    case JArray(xs) => WalkItemsIsRun(rule, xs, st, provider);
    case _ =>
  }

  lemma {:induction false} WalkMembersIsRun(rule: Rule, ms: seq<Member>, st: State, provider: Provider)
    ensures WalkMembers(rule, ms, st, provider).state == Run(Texts(LeavesMembers(rule, ms)), st, provider)
    decreases ms
  {
    if ms != [] {
      var m := ms[0];
      var here := match Classify(rule, m.key, m.value)
        case Leaf => [Visit(m.key, m.value.str)]
        case LeafList => StringVisits(m.key, m.value.items)
        case Descend => Leaves(rule, m.value);
      var st1 := Run(Texts(here), st, provider);
      match Classify(rule, m.key, m.value) {
        case Leaf =>
        case LeafList => TranslateStringsIsRun(m.key, m.value.items, st, provider);
        case Descend => WalkIsRun(rule, m.value, st, provider);
      }
      WalkMembersIsRun(rule, ms[1..], st1, provider);
      TextsConcat(here, LeavesMembers(rule, ms[1..]));
      RunConcat(Texts(here), Texts(LeavesMembers(rule, ms[1..])), st, provider);
    }
  }

  lemma {:induction false} WalkItemsIsRun(rule: Rule, xs: seq<Json>, st: State, provider: Provider)
    ensures WalkItems(rule, xs, st, provider).state == Run(Texts(LeavesItems(rule, xs)), st, provider)
    decreases xs
  {
    if xs != [] {
      WalkIsRun(rule, xs[0], st, provider);
      var st1 := Walk(rule, xs[0], st, provider).state;
      WalkItemsIsRun(rule, xs[1..], st1, provider);
      TextsConcat(Leaves(rule, xs[0]), LeavesItems(rule, xs[1..]));
      RunConcat(Texts(Leaves(rule, xs[0])), Texts(LeavesItems(rule, xs[1..])), st, provider);
    }
  }

  lemma {:induction false} TranslateStringsIsRun(key: string, xs: seq<Json>, st: State, provider: Provider)
    ensures TranslateStrings(xs, st, provider).state == Run(Texts(StringVisits(key, xs)), st, provider)
  {
    if xs != [] {
      var here := if xs[0].JString? then [Visit(key, xs[0].str)] else [];
      var st1 := Run(Texts(here), st, provider);
      TranslateStringsIsRun(key, xs[1..], st1, provider);
      TextsConcat(here, StringVisits(key, xs[1..]));
      RunConcat(Texts(here), Texts(StringVisits(key, xs[1..])), st, provider);
    }
  }

  // ---------------------------------------------------------------------
  // The translate pass rewrites each leaf as the final cache resolves it

  lemma WalkExtends(rule: Rule, j: Json, st: State, provider: Provider)
    ensures Extends(st.dict, Walk(rule, j, st, provider).state.dict, provider)
  {
    WalkIsRun(rule, j, st, provider);
    RunExtends(Texts(Leaves(rule, j)), st, provider);
  }

  lemma WalkMembersExtends(rule: Rule, ms: seq<Member>, st: State, provider: Provider)
    ensures Extends(st.dict, WalkMembers(rule, ms, st, provider).state.dict, provider)
  {
    WalkMembersIsRun(rule, ms, st, provider);
    RunExtends(Texts(LeavesMembers(rule, ms)), st, provider);
  }

  lemma WalkItemsExtends(rule: Rule, xs: seq<Json>, st: State, provider: Provider)
    ensures Extends(st.dict, WalkItems(rule, xs, st, provider).state.dict, provider)
  {
    WalkItemsIsRun(rule, xs, st, provider);
    RunExtends(Texts(LeavesItems(rule, xs)), st, provider);
  }

  lemma TranslateStringsExtends(xs: seq<Json>, st: State, provider: Provider)
    ensures Extends(st.dict, TranslateStrings(xs, st, provider).state.dict, provider)
  {
    TranslateStringsIsRun("", xs, st, provider);
    RunExtends(Texts(StringVisits("", xs)), st, provider);
  }

  lemma {:induction false} WalkResolves(rule: Rule, j: Json, st: State, provider: Provider, later: TranslationDictionary)
    requires Extends(Walk(rule, j, st, provider).state.dict, later, provider)
    ensures Walk(rule, j, st, provider).value == MapLeaves(rule, j, Resolver(later))
    decreases j
  {
    match j
    case JObject(ms) => WalkMembersResolves(rule, ms, st, provider, later);
    case JArray(xs) => WalkItemsResolves(rule, xs, st, provider, later);
    case _ =>
  }

  lemma {:induction false} WalkMembersResolves(rule: Rule, ms: seq<Member>, st: State, provider: Provider, later: TranslationDictionary)
    requires Extends(WalkMembers(rule, ms, st, provider).state.dict, later, provider)
    ensures WalkMembers(rule, ms, st, provider).value == MapMembers(rule, ms, Resolver(later))
    decreases ms
  {
    if ms != [] {
      var m := ms[0];
      var here := match Classify(rule, m.key, m.value)
        case Leaf =>
          var t := TranslateText(m.value.str, st, provider);
          Walked(JString(t.text), t.state)
        case LeafList =>
          var w := TranslateStrings(m.value.items, st, provider);
          Walked(JArray(w.value), w.state)
        case Descend => Walk(rule, m.value, st, provider);
      var rest := WalkMembers(rule, ms[1..], here.state, provider);
      WalkMembersExtends(rule, ms[1..], here.state, provider);
      ExtendsTransitive(here.state.dict, rest.state.dict, later, provider);
      match Classify(rule, m.key, m.value) {
        case Leaf => TranslateResolves(m.value.str, st, provider, later);
        case LeafList => TranslateStringsResolves(m.value.items, st, provider, later);
        case Descend => WalkResolves(rule, m.value, st, provider, later);
      }
      WalkMembersResolves(rule, ms[1..], here.state, provider, later);
    }
  }

  lemma {:induction false} WalkItemsResolves(rule: Rule, xs: seq<Json>, st: State, provider: Provider, later: TranslationDictionary)
    requires Extends(WalkItems(rule, xs, st, provider).state.dict, later, provider)
    ensures WalkItems(rule, xs, st, provider).value == MapItems(rule, xs, Resolver(later))
    decreases xs
  {
    if xs != [] {
      var here := Walk(rule, xs[0], st, provider);
      var rest := WalkItems(rule, xs[1..], here.state, provider);
      WalkItemsExtends(rule, xs[1..], here.state, provider);
      ExtendsTransitive(here.state.dict, rest.state.dict, later, provider);
      WalkResolves(rule, xs[0], st, provider, later);
      WalkItemsResolves(rule, xs[1..], here.state, provider, later);
    }
  }

  lemma {:induction false} TranslateStringsResolves(xs: seq<Json>, st: State, provider: Provider, later: TranslationDictionary)
    requires Extends(TranslateStrings(xs, st, provider).state.dict, later, provider)
    ensures TranslateStrings(xs, st, provider).value == MapStrings(xs, Resolver(later))
  {
    if xs != [] {
      var st1 := if xs[0].JString? then TranslateText(xs[0].str, st, provider).state else st;
      var rest := TranslateStrings(xs[1..], st1, provider);
      TranslateStringsExtends(xs[1..], st1, provider);
      ExtendsTransitive(st1.dict, rest.state.dict, later, provider);
      if xs[0].JString? {
        TranslateResolves(xs[0].str, st, provider, later);
      }
      TranslateStringsResolves(xs[1..], st1, provider, later);
    }
  }

  // ---------------------------------------------------------------------
  // Rewriting leaves keeps the skeleton

  /** Rewriting leaves never changes what kind of value a node is. */
  lemma MapKeepsKind(rule: Rule, j: Json, f: string -> string)
    ensures SameKind(MapLeaves(rule, j, f), j)
  {
  }

  lemma ClassifyByKind(rule: Rule, key: string, a: Json, b: Json)
    requires SameKind(a, b)
    ensures Classify(rule, key, a) == Classify(rule, key, b)
  {
  }

  lemma {:induction false} MapSkeleton(rule: Rule, j: Json, f: string -> string)
    ensures Skeleton(rule, MapLeaves(rule, j, f)) == Skeleton(rule, j)
    decreases j
  {
    match j
    case JObject(ms) => MapMembersSkeleton(rule, ms, f);
    case JArray(xs) => MapItemsSkeleton(rule, xs, f);
    case _ =>
  }

  lemma {:induction false} MapMembersSkeleton(rule: Rule, ms: seq<Member>, f: string -> string)
    ensures MapMembers(rule, MapMembers(rule, ms, f), EraseText) == MapMembers(rule, ms, EraseText)
    decreases ms
  {
    if ms != [] {
      var m := ms[0];
      var mapped := MapMembers(rule, ms, f);
      assert mapped[1..] == MapMembers(rule, ms[1..], f);
      var v := mapped[0].value;
      match Classify(rule, m.key, m.value) {
        case Leaf =>
          assert Classify(rule, m.key, v) == Leaf;
        case LeafList =>
          assert Classify(rule, m.key, v) == LeafList;
          MapStringsSkeleton(m.value.items, f);
        case Descend =>
          MapKeepsKind(rule, m.value, f);
          ClassifyByKind(rule, m.key, v, m.value);
          MapSkeleton(rule, m.value, f);
      }
      MapMembersSkeleton(rule, ms[1..], f);
    }
  }

  lemma {:induction false} MapItemsSkeleton(rule: Rule, xs: seq<Json>, f: string -> string)
    ensures MapItems(rule, MapItems(rule, xs, f), EraseText) == MapItems(rule, xs, EraseText)
    decreases xs
  {
    if xs != [] {
      var mapped := MapItems(rule, xs, f);
      assert mapped[1..] == MapItems(rule, xs[1..], f);
      MapSkeleton(rule, xs[0], f);
      MapItemsSkeleton(rule, xs[1..], f);
    }
  }

  lemma {:induction false} MapStringsSkeleton(xs: seq<Json>, f: string -> string)
    ensures MapStrings(MapStrings(xs, f), EraseText) == MapStrings(xs, EraseText)
  {
    if xs != [] {
      var mapped := MapStrings(xs, f);
      assert mapped[1..] == MapStrings(xs[1..], f);
      MapStringsSkeleton(xs[1..], f);
    }
  }

  // ---------------------------------------------------------------------
  // The two contributions rules differ exactly on `title`/`description`

  /** The visits whose key is not `title` or `description`. */
  function WithoutExtra(vs: seq<Visit>): (r: seq<Visit>)
    ensures forall i :: 0 <= i < |r| ==> r[i].key !in ContributionsExtraKeys
  {
    if vs == [] then []
    else (if vs[0].key in ContributionsExtraKeys then [] else [vs[0]]) + WithoutExtra(vs[1..])
  }

  /** The visits whose key is `title` or `description`. */
  function OnlyExtra(vs: seq<Visit>): (r: seq<Visit>)
    ensures forall i :: 0 <= i < |r| ==> r[i].key in ContributionsExtraKeys
  {
    if vs == [] then []
    else (if vs[0].key in ContributionsExtraKeys then [vs[0]] else []) + OnlyExtra(vs[1..])
  }

  lemma {:induction false} WithoutExtraConcat(a: seq<Visit>, b: seq<Visit>)
    ensures WithoutExtra(a + b) == WithoutExtra(a) + WithoutExtra(b)
  {
    if a == [] {
      assert a + b == b;
    } else {
      assert (a + b)[1..] == a[1..] + b;
      WithoutExtraConcat(a[1..], b);
    }
  }

  /** Every visit is in exactly one of the two parts. */
  lemma {:induction false} ExtraPartition(vs: seq<Visit>)
    ensures |vs| == |WithoutExtra(vs)| + |OnlyExtra(vs)|
  {
    if vs != [] {
      ExtraPartition(vs[1..]);
    }
  }

  /** The count pass of contributions.json visits exactly the leaves of its
      translate pass that are not under `title` or `description`. */
  lemma {:induction false} ContributionsLeaves(j: Json)
    ensures Leaves(ContributionsCount, j) == WithoutExtra(Leaves(ContributionsTranslate, j))
    decreases j
  {
    match j
    case JObject(ms) => ContributionsLeavesMembers(ms);
    case JArray(xs) => ContributionsLeavesItems(xs);
    case _ =>
  }

  lemma {:induction false} ContributionsLeavesMembers(ms: seq<Member>)
    ensures LeavesMembers(ContributionsCount, ms) == WithoutExtra(LeavesMembers(ContributionsTranslate, ms))
    decreases ms
  {
    if ms != [] {
      var m := ms[0];
      var here := match Classify(ContributionsTranslate, m.key, m.value)
        case Leaf => [Visit(m.key, m.value.str)]
        case LeafList => []  // not a contributions slot
        case Descend => Leaves(ContributionsTranslate, m.value);
      WithoutExtraConcat(here, LeavesMembers(ContributionsTranslate, ms[1..]));
      if Classify(ContributionsTranslate, m.key, m.value) == Descend {
        ContributionsLeaves(m.value);
      }
      ContributionsLeavesMembers(ms[1..]);
    }
  }

  lemma {:induction false} ContributionsLeavesItems(xs: seq<Json>)
    ensures LeavesItems(ContributionsCount, xs) == WithoutExtra(LeavesItems(ContributionsTranslate, xs))
    decreases xs
  {
    if xs != [] {
      WithoutExtraConcat(Leaves(ContributionsTranslate, xs[0]), LeavesItems(ContributionsTranslate, xs[1..]));
      ContributionsLeaves(xs[0]);
      ContributionsLeavesItems(xs[1..]);
    }
  }
}
