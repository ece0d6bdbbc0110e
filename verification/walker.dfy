/** The schema-driven tree walker behind `count_translatable_items`,
    `traverse_and_translate`, `count_contributions_translatable_items` and
    `translate_in_object`. All four share one traversal (object members in
    stored order, array elements in index order) and differ only in the
    field-selection rule that classifies each member. */
module Walker {
  import opened Json
  import opened Translator

  /** The field-selection rules. The contributions schema uses a different
      rule for counting than for translating. */
  datatype Rule = PackageJson | ContributionsCount | ContributionsTranslate

  /** What a member is for a rule: one translatable string, a list whose
      string elements are translatable, or a value to walk into. */
  datatype Slot = Leaf | LeafList | Descend

  /** `REPLACE_TARGET_KEYS` of the package.json schema. */
  const ReplaceTargetKeys: seq<string> :=
    ["title", "label", "contents", "displayName", "description", "markdownDescription"]

  const EnumDescriptionsKey: string := "enumDescriptions"

  /** Keys the contributions schema treats as leaves in both passes. */
  const ContributionsLeafKeys: seq<string> := ["label", "name", "contents"]

  /** Keys the contributions translate pass also rewrites, but the count pass
      only walks into. */
  const ContributionsExtraKeys: seq<string> := ["title", "description"]

  function Classify(rule: Rule, key: string, value: Json): (s: Slot)
    ensures s == Leaf ==> value.JString?
    ensures s == LeafList ==> rule == PackageJson && value.JArray?
  {
    match rule
    case PackageJson =>
      if key in ReplaceTargetKeys && value.JString? then Leaf
      else if key == EnumDescriptionsKey && value.JArray? then LeafList
      else Descend
    case ContributionsCount =>
      if key == "label" && value.JString? then Leaf
      else if key == "name" && value.JString? then Leaf
      else if key == "contents" && value.JString? then Leaf
      else if key in ContributionsExtraKeys then Descend
      else Descend
    case ContributionsTranslate =>
      if key == "label" && value.JString? then Leaf
      else if key == "name" && value.JString? then Leaf
      else if key == "contents" && value.JString? then Leaf
      else if key in ContributionsExtraKeys && value.JString? then Leaf
      else Descend
  }

  /** What each rule selects, in its own terms. */
  lemma ClassifySelects(rule: Rule, key: string, value: Json)
    ensures rule == PackageJson ==>
              (Classify(rule, key, value) == Leaf <==> key in ReplaceTargetKeys && value.JString?)
    ensures rule == PackageJson ==>
              (Classify(rule, key, value) == LeafList <==>
                 key !in ReplaceTargetKeys && key == EnumDescriptionsKey && value.JArray?)
    ensures rule == ContributionsCount ==>
              (Classify(rule, key, value) == Leaf <==> key in ContributionsLeafKeys && value.JString?)
    ensures rule == ContributionsTranslate ==>
              (Classify(rule, key, value) == Leaf <==>
                 (key in ContributionsLeafKeys || key in ContributionsExtraKeys) && value.JString?)
    ensures rule != PackageJson ==> Classify(rule, key, value) != LeafList
  {
  }

  /** Two values of the same kind (both strings, both arrays, ...) are
      classified alike under the same key. */
  predicate SameKind(a: Json, b: Json) {
    && (a.JString? <==> b.JString?)
    && (a.JArray? <==> b.JArray?)
  }

  // ---------------------------------------------------------------------
  // Count pass

  /** The number of translatable leaves the count pass reports. */
  function Count(rule: Rule, j: Json): nat
    decreases j
  {
    match j
    case JObject(ms) => CountMembers(rule, ms)
    case JArray(xs) => CountItems(rule, xs)
    case _ => 0
  }

  function CountMembers(rule: Rule, ms: seq<Member>): nat
    decreases ms
  {
    if ms == [] then 0
    else
      var m := ms[0];
      var here := match Classify(rule, m.key, m.value)
        case Leaf => 1
        case LeafList => CountStrings(m.value.items)
        case Descend => Count(rule, m.value);
      here + CountMembers(rule, ms[1..])
  }

  function CountItems(rule: Rule, xs: seq<Json>): nat
    decreases xs
  {
    if xs == [] then 0 else Count(rule, xs[0]) + CountItems(rule, xs[1..])
  }

  /** The number of string elements of a list; other elements are skipped. */
  function CountStrings(xs: seq<Json>): nat {
    if xs == [] then 0 else (if xs[0].JString? then 1 else 0) + CountStrings(xs[1..])
  }

  // ---------------------------------------------------------------------
  // Reference definition: the leaves a pass visits, in visiting order

  /** One visited leaf: the key it sits under and its text. */
  datatype Visit = Visit(key: string, text: string)

  function Leaves(rule: Rule, j: Json): seq<Visit>
    decreases j
  {
    match j
    case JObject(ms) => LeavesMembers(rule, ms)
    case JArray(xs) => LeavesItems(rule, xs)
    case _ => []
  }

  function LeavesMembers(rule: Rule, ms: seq<Member>): seq<Visit>
    decreases ms
  {
    if ms == [] then []
    else
      var m := ms[0];
      var here := match Classify(rule, m.key, m.value)
        case Leaf => [Visit(m.key, m.value.str)]
        case LeafList => StringVisits(m.key, m.value.items)
        case Descend => Leaves(rule, m.value);
      here + LeavesMembers(rule, ms[1..])
  }

  function LeavesItems(rule: Rule, xs: seq<Json>): seq<Visit>
    decreases xs
  {
    if xs == [] then [] else Leaves(rule, xs[0]) + LeavesItems(rule, xs[1..])
  }

  /** The string elements of a leaf list, each under the list's key. */
  function StringVisits(key: string, xs: seq<Json>): seq<Visit> {
    if xs == [] then []
    else (if xs[0].JString? then [Visit(key, xs[0].str)] else []) + StringVisits(key, xs[1..])
  }

  /** The texts of a sequence of visits. */
  function Texts(vs: seq<Visit>): (ts: seq<string>)
    ensures |ts| == |vs|
    ensures forall i :: 0 <= i < |vs| ==> ts[i] == vs[i].text
  {
    if vs == [] then [] else [vs[0].text] + Texts(vs[1..])
  }

  // ---------------------------------------------------------------------
  // Reference definition: the tree with every visited leaf rewritten

  /** `j` with the text of every leaf the rule selects replaced by `f` of it,
      and nothing else changed. */
  function MapLeaves(rule: Rule, j: Json, f: string -> string): Json
    decreases j
  {
    match j
    case JObject(ms) => JObject(MapMembers(rule, ms, f))
    case JArray(xs) => JArray(MapItems(rule, xs, f))
    case _ => j
  }

  function MapMembers(rule: Rule, ms: seq<Member>, f: string -> string): seq<Member>
    decreases ms
  {
    if ms == [] then []
    else
      var m := ms[0];
      var v := match Classify(rule, m.key, m.value)
        case Leaf => JString(f(m.value.str))
        case LeafList => JArray(MapStrings(m.value.items, f))
        case Descend => MapLeaves(rule, m.value, f);
      [Member(m.key, v)] + MapMembers(rule, ms[1..], f)
  }

  function MapItems(rule: Rule, xs: seq<Json>, f: string -> string): seq<Json>
    decreases xs
  {
    if xs == [] then [] else [MapLeaves(rule, xs[0], f)] + MapItems(rule, xs[1..], f)
  }

  function MapStrings(xs: seq<Json>, f: string -> string): seq<Json> {
    if xs == [] then []
    else [if xs[0].JString? then JString(f(xs[0].str)) else xs[0]] + MapStrings(xs[1..], f)
  }

  function EraseText(s: string): string {
    ""
  }

  /** The tree with every selected leaf blanked: its shape, keys, key order,
      array order and every value the rule does not select. */
  function Skeleton(rule: Rule, j: Json): Json {
    MapLeaves(rule, j, EraseText)
  }

  // ---------------------------------------------------------------------
  // Translate pass

  datatype Walked<T> = Walked(value: T, state: State)

  /** The translate pass: every selected leaf goes through `translate_text`
      in visiting order, threading the cache and the counters. */
  function Walk(rule: Rule, j: Json, st: State, provider: Provider): Walked<Json>
    decreases j
  {
    match j
    case JObject(ms) =>
      var w := WalkMembers(rule, ms, st, provider);
      Walked(JObject(w.value), w.state)
    case JArray(xs) =>
      var w := WalkItems(rule, xs, st, provider);
      Walked(JArray(w.value), w.state)
    case _ => Walked(j, st)
  }

  function WalkMembers(rule: Rule, ms: seq<Member>, st: State, provider: Provider): Walked<seq<Member>>
    decreases ms
  {
    if ms == [] then Walked([], st)
    else
      var m := ms[0];
      var here := match Classify(rule, m.key, m.value)
        case Leaf =>
          var t := TranslateText(m.value.str, st, provider);
          Walked(JString(t.text), t.state)
        case LeafList =>
          var w := TranslateStrings(m.value.items, st, provider);
          Walked(JArray(w.value), w.state)
        case Descend => Walk(rule, m.value, st, provider);
      var rest := WalkMembers(rule, ms[1..], here.state, provider);
      Walked([Member(m.key, here.value)] + rest.value, rest.state)
  }

  function WalkItems(rule: Rule, xs: seq<Json>, st: State, provider: Provider): Walked<seq<Json>>
    decreases xs
  {
    if xs == [] then Walked([], st)
    else
      var here := Walk(rule, xs[0], st, provider);
      var rest := WalkItems(rule, xs[1..], here.state, provider);
      Walked([here.value] + rest.value, rest.state)
  }

  /** The `enumDescriptions` loop: string elements are translated in place,
      other elements are left untouched. */
  function TranslateStrings(xs: seq<Json>, st: State, provider: Provider): Walked<seq<Json>> {
    if xs == [] then Walked([], st)
    else if xs[0].JString? then
      var t := TranslateText(xs[0].str, st, provider);
      var rest := TranslateStrings(xs[1..], t.state, provider);
      Walked([JString(t.text)] + rest.value, rest.state)
    else
      var rest := TranslateStrings(xs[1..], st, provider);
      Walked([xs[0]] + rest.value, rest.state)
  }
}
