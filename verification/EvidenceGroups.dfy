/** Deduplication, category keys and grouping of evidence (app/context/dedup.py, app/context/formatter.py,
    app/context/service.py). A source id S1, S2, ... and a category key K1, K2, ... is its number. Document ids are
    UUIDs, so the key of an unresolved item is no other item's. */
module EvidenceGroups {

  import opened Wrappers

  /** `available`: the path comes from the legal unit repository, stored or repaired. Empty texts are None. */
  datatype LegalPath = LegalPath(
    available: bool, unitId: Option<string>, categoryRoot: Option<string>, categoryKey: Option<nat>)

  datatype Candidate = Candidate(documentId: string, content: string, path: Option<LegalPath>)
  datatype Item = Item(candidate: Candidate, source: nat)
  datatype GroupKey = Unresolved(source: nat) | Unit(document: string, unit: string)
  datatype Group = Group(key: GroupKey, items: seq<Item>)

  // ---------- deduplication ----------

  datatype ContentKey = ContentKey(document: string, content: string)

  function ContentKeyOf(c: Candidate, normalize: string -> string): ContentKey {
    ContentKey(c.documentId, normalize(c.content))
  }

  /** The candidates no earlier one has the key of. */
  function Kept(cs: seq<Candidate>, normalize: string -> string): seq<Candidate> {
    if cs == [] then []
    else
      var n := |cs| - 1;
      Kept(cs[..n], normalize) +
      if exists i :: 0 <= i < n && ContentKeyOf(cs[i], normalize) == ContentKeyOf(cs[n], normalize) then [] else [cs[n]]
  }

  method DeduplicateCandidates(cs: seq<Candidate>, normalize: string -> string)
    returns (kept: seq<Candidate>, duplicates: nat)
    ensures kept == Kept(cs, normalize) && |kept| + duplicates == |cs|
  {
    hide Kept, ContentKeyOf;
    var seen: set<ContentKey> := {};
    kept, duplicates := [], 0;
    KeptNone(normalize);
    assert cs[..0] == [];
    for i := 0 to |cs|
      invariant kept == Kept(cs[..i], normalize) && |kept| + duplicates == i
      invariant forall k :: k in seen <==> exists j :: 0 <= j < i && ContentKeyOf(cs[j], normalize) == k
    {
      var key := ContentKeyOf(cs[i], normalize);
      KeptNext(cs, i, normalize);
      if key in seen {
        duplicates := duplicates + 1;
      } else {
        seen := seen + {key};
        kept := kept + [cs[i]];
      }
    }
    assert cs[..|cs|] == cs;
  }

  lemma KeptNone(normalize: string -> string)
    ensures Kept([], normalize) == []
  {
  }

  lemma KeptNext(cs: seq<Candidate>, i: nat, normalize: string -> string)
    requires i < |cs|
    ensures Kept(cs[..i + 1], normalize) ==
      if exists j :: 0 <= j < i && ContentKeyOf(cs[j], normalize) == ContentKeyOf(cs[i], normalize)
      then Kept(cs[..i], normalize) else Kept(cs[..i], normalize) + [cs[i]]
  {
    hide ContentKeyOf;
    var part := cs[..i + 1];
    assert part[..i] == cs[..i] && part[i] == cs[i];
    assert forall j | 0 <= j < i :: part[j] == cs[j];
    KeptStep(part, normalize);
    hide Kept;
  }

  lemma KeptStep(cs: seq<Candidate>, normalize: string -> string)
    requires cs != []
    ensures var n := |cs| - 1; var again := exists i :: 0 <= i < n && ContentKeyOf(cs[i], normalize) == ContentKeyOf(cs[n], normalize);
      Kept(cs, normalize) == if again then Kept(cs[..n], normalize) else Kept(cs[..n], normalize) + [cs[n]]
  {
  }

  ghost predicate HasContent(cs: seq<Candidate>, normalize: string -> string, key: ContentKey) {
    exists i :: 0 <= i < |cs| && ContentKeyOf(cs[i], normalize) == key
  }

  /** Keeping loses no key. */
  lemma {:induction false} KeptCovers(cs: seq<Candidate>, normalize: string -> string, key: ContentKey)
    ensures HasContent(Kept(cs, normalize), normalize, key) <==> HasContent(cs, normalize, key)
  {
    if cs != [] {
      var n := |cs| - 1;
      var before, kept, last := Kept(cs[..n], normalize), Kept(cs, normalize), ContentKeyOf(cs[n], normalize);
      KeptStep(cs, normalize);
      KeptCovers(cs[..n], normalize, key);
      hide Kept;
      HasContentLast(cs, normalize, key);
      HasContentLast(cs, normalize, last);
      if kept != before {
        assert kept[..|before|] == before;
        HasContentLast(kept, normalize, key);
      } else if key == last {
        KeptCovers(cs[..n], normalize, last);
        assert HasContent(cs[..n], normalize, last) by {
          var i :| 0 <= i < n && ContentKeyOf(cs[i], normalize) == last;
          assert ContentKeyOf(cs[..n][i], normalize) == last;
        }
      }
    }
  }

  lemma HasContentLast(cs: seq<Candidate>, normalize: string -> string, key: ContentKey)
    requires cs != []
    ensures HasContent(cs, normalize, key) <==>
      HasContent(cs[..|cs| - 1], normalize, key) || ContentKeyOf(cs[|cs| - 1], normalize) == key
  {
    var n := |cs| - 1;
    if HasContent(cs, normalize, key) {
      var i :| 0 <= i < |cs| && ContentKeyOf(cs[i], normalize) == key;
      if i < n { assert ContentKeyOf(cs[..n][i], normalize) == key; }
    }
    if HasContent(cs[..n], normalize, key) {
      var i :| 0 <= i < n && ContentKeyOf(cs[..n][i], normalize) == key;
      assert ContentKeyOf(cs[i], normalize) == key;
    }
  }

  /** No two kept candidates have the same key. */
  lemma {:induction false} KeptDistinct(cs: seq<Candidate>, normalize: string -> string)
    ensures var kept := Kept(cs, normalize);
      forall i, j | 0 <= i < j < |kept| :: ContentKeyOf(kept[i], normalize) != ContentKeyOf(kept[j], normalize)
  {
    if cs != [] {
      var n := |cs| - 1;
      var before, kept := Kept(cs[..n], normalize), Kept(cs, normalize);
      KeptStep(cs, normalize);
      KeptDistinct(cs[..n], normalize);
      KeptCovers(cs[..n], normalize, ContentKeyOf(cs[n], normalize));
      hide Kept, ContentKeyOf;
      if kept != before {
        assert !HasContent(cs[..n], normalize, ContentKeyOf(cs[n], normalize)) by { NotAgain(cs, normalize); }
      }
    }
  }

  lemma NotAgain(cs: seq<Candidate>, normalize: string -> string)
    requires cs != [] && forall i | 0 <= i < |cs| - 1 :: ContentKeyOf(cs[i], normalize) != ContentKeyOf(cs[|cs| - 1], normalize)
    ensures !HasContent(cs[..|cs| - 1], normalize, ContentKeyOf(cs[|cs| - 1], normalize))
  {
    assert forall i | 0 <= i < |cs| - 1 :: cs[..|cs| - 1][i] == cs[i];
  }

  // ---------- category keys ----------

  function RootOf(c: Candidate): Option<string> {
    if c.path.Some? && c.path.value.available then c.path.value.categoryRoot else None
  }

  function WithKey(c: Candidate, key: nat): Candidate
    requires c.path.Some?
  {
    c.(path := Some(c.path.value.(categoryKey := Some(key))))
  }

  /** The different roots in order of first appearance. */
  function Roots(cs: seq<Candidate>): seq<string> {
    if cs == [] then []
    else
      var n := |cs| - 1;
      var roots := Roots(cs[..n]);
      if RootOf(cs[n]).None? || RootOf(cs[n]).value in roots then roots else roots + [RootOf(cs[n]).value]
  }

  function Position(roots: seq<string>, root: string): (p: nat)
    ensures p <= |roots| && (root in roots ==> p < |roots| && roots[p] == root)
  {
    if roots == [] || roots[0] == root then 0 else 1 + Position(roots[1..], root)
  }

  /** A candidate under the number of its root. */
  function Keyed(c: Candidate, roots: seq<string>): Candidate {
    if RootOf(c).None? then c else WithKey(c, Position(roots, RootOf(c).value) + 1)
  }

  function AllKeyed(cs: seq<Candidate>): seq<Candidate> {
    seq(|cs|, i requires 0 <= i < |cs| => Keyed(cs[i], Roots(cs)))
  }

  /** The table numbers the roots found so far from 1. */
  ghost predicate Numbers(keys: map<string, nat>, roots: seq<string>) {
    && |keys| == |roots|
    && (forall root :: root in keys <==> root in roots)
    && (forall root | root in keys :: keys[root] == Position(roots, root) + 1)
  }

  lemma NumbersNext(keys: map<string, nat>, roots: seq<string>, root: string)
    requires Numbers(keys, roots) && root !in roots
    ensures Numbers(keys[root := |keys| + 1], roots + [root])
  {
    PositionNew(roots, root);
    hide Position;
  }

  lemma NumberAt(keys: map<string, nat>, roots: seq<string>, root: string)
    requires Numbers(keys, roots)
    ensures root in keys <==> root in roots
    ensures root in keys ==> keys[root] == Position(roots, root) + 1
  {
  }

  method WithCategoryKeys(cs: seq<Candidate>) returns (output: seq<Candidate>)
    ensures output == AllKeyed(cs)
  {
    hide Roots, RootOf, Keyed, Position, Numbers;
    var keys: map<string, nat> := map[];
    output := [];
    NoRoots();
    assert cs[..0] == [];
    for i := 0 to |cs|
      invariant |output| == i && Numbers(keys, Roots(cs[..i]))
      invariant forall j | 0 <= j < i :: output[j] == Keyed(cs[j], Roots(cs[..i]))
    {
      var root := RootOf(cs[i]);
      ghost var before, after := Roots(cs[..i]), Roots(cs[..i + 1]);
      RootsNext(cs, i);
      KeyedAt(cs[i], after);
      forall j | 0 <= j < i ensures Keyed(cs[j], before) == Keyed(cs[j], after) {
        KeyedStays(cs, j, i);
      }
      if root.None? {
        output := output + [cs[i]];
      } else {
        NumberAt(keys, before, root.value);
        if root.value !in keys {
          NumbersNext(keys, before, root.value);
          keys := keys[root.value := |keys| + 1];
        }
        NumberAt(keys, after, root.value);
        output := output + [WithKey(cs[i], keys[root.value])];
      }
    }
    assert cs[..|cs|] == cs;
  }

  lemma NoRoots()
    ensures Roots([]) == [] && Numbers(map[], [])
  {
  }

  lemma KeyedAt(c: Candidate, roots: seq<string>)
    ensures RootOf(c).Some? ==> c.path.Some? && Keyed(c, roots) == WithKey(c, Position(roots, RootOf(c).value) + 1)
    ensures RootOf(c).None? ==> Keyed(c, roots) == c
  {
  }

  lemma RootsNext(cs: seq<Candidate>, i: nat)
    requires i < |cs|
    ensures Roots(cs[..i + 1]) ==
      if RootOf(cs[i]).None? || RootOf(cs[i]).value in Roots(cs[..i]) then Roots(cs[..i])
      else Roots(cs[..i]) + [RootOf(cs[i]).value]
  {
    hide RootOf;
    assert cs[..i + 1][..i] == cs[..i];
  }

  lemma {:induction false} PositionNew(roots: seq<string>, root: string)
    requires root !in roots
    ensures Position(roots + [root], root) == |roots|
    ensures forall r | r in roots :: Position(roots + [root], r) == Position(roots, r)
  {
    if roots != [] {
      PositionNew(roots[1..], root);
      assert (roots + [root])[1..] == roots[1..] + [root];
    }
  }

  /** A candidate's number does not change with the candidates behind it. */
  lemma KeyedStays(cs: seq<Candidate>, j: nat, i: nat)
    requires j < i < |cs|
    ensures Keyed(cs[j], Roots(cs[..i])) == Keyed(cs[j], Roots(cs[..i + 1]))
  {
    RootsNext(cs, i);
    if RootOf(cs[j]).Some? {
      RootIn(cs[..i], j);
      if RootOf(cs[i]).Some? && RootOf(cs[i]).value !in Roots(cs[..i]) {
        PositionNew(Roots(cs[..i]), RootOf(cs[i]).value);
      }
    }
  }

  lemma {:induction false} RootIn(cs: seq<Candidate>, j: nat)
    requires j < |cs| && RootOf(cs[j]).Some?
    ensures RootOf(cs[j]).value in Roots(cs)
  {
    if j < |cs| - 1 { RootIn(cs[..|cs| - 1], j); }
  }

  /** Candidates without a root are untouched, the others get a key and nothing else, and two of them have the same key
      exactly when they have the same root. */
  lemma KeysMirrorRoots(cs: seq<Candidate>, i: nat, j: nat)
    requires i < |cs| && j < |cs|
    ensures var output := AllKeyed(cs);
      && (RootOf(cs[i]).None? ==> output[i] == cs[i])
      && (RootOf(cs[i]).Some? ==>
            cs[i].path.Some? && output[i].path.Some? && output[i].path.value.categoryKey.Some?
            && output[i] == WithKey(cs[i], output[i].path.value.categoryKey.value))
      && (RootOf(cs[i]).Some? && RootOf(cs[j]).Some? ==>
            (output[i].path.value.categoryKey == output[j].path.value.categoryKey <==> RootOf(cs[i]) == RootOf(cs[j])))
  {
    if RootOf(cs[i]).Some? { RootIn(cs, i); }
    if RootOf(cs[j]).Some? { RootIn(cs, j); }
  }

  // ---------- grouping ----------

  function KeyOf(item: Item): GroupKey {
    var path := item.candidate.path;
    if path.Some? && path.value.available && path.value.unitId.Some? then Unit(item.candidate.documentId, path.value.unitId.value)
    else Unresolved(item.source)
  }

  /** The keys in order of first appearance. */
  function FirstKeys(evidence: seq<Item>): seq<GroupKey> {
    if evidence == [] then []
    else
      var n := |evidence| - 1;
      var keys := FirstKeys(evidence[..n]);
      if KeyOf(evidence[n]) in keys then keys else keys + [KeyOf(evidence[n])]
  }

  /** The items with a key, in their order. */
  function Having(evidence: seq<Item>, key: GroupKey): seq<Item> {
    if evidence == [] then []
    else
      var n := |evidence| - 1;
      Having(evidence[..n], key) + if KeyOf(evidence[n]) == key then [evidence[n]] else []
  }

  ghost predicate Grouped(evidence: seq<Item>, groups: seq<Group>) {
    && |groups| == |FirstKeys(evidence)|
    && forall g | 0 <= g < |groups| ::
         groups[g].key == FirstKeys(evidence)[g] && groups[g].items == Having(evidence, groups[g].key)
  }

  /** One group a key, by first appearance, each with all items of its key in their order. */
  method GroupEvidence(evidence: seq<Item>) returns (groups: seq<Group>)
    ensures Grouped(evidence, groups)
  {
    groups := [];
    var positions: map<GroupKey, nat> := map[];
    GroupedNone();
    hide FirstKeys, Having, KeyOf, Grouped;
    for i := 0 to |evidence|
      invariant Grouped(evidence[..i], groups)
      invariant forall k :: k in positions <==> k in FirstKeys(evidence[..i])
      invariant forall k | k in positions :: positions[k] < |groups| && groups[positions[k]].key == k
    {
      var key, before := KeyOf(evidence[i]), groups;
      if key !in positions {
        positions := positions[key := |groups|];
        groups := groups + [Group(key, [])];
      }
      var at := positions[key];
      groups := groups[at := Group(key, groups[at].items + [evidence[i]])];
      if key !in FirstKeys(evidence[..i]) {
        assert at == |before| && [] + [evidence[i]] == [evidence[i]];
        assert groups == before + [Group(key, [evidence[i]])];
      }
      GroupedStep(evidence[..i], evidence[i], before, groups, at);
      LastItem(evidence[..i], evidence[i]);
      assert evidence[..i] + [evidence[i]] == evidence[..i + 1];
    }
    assert evidence[..|evidence|] == evidence;
  }

  /** The groups are determined by the evidence. */
  function GroupsOf(evidence: seq<Item>): (groups: seq<Group>)
    ensures Grouped(evidence, groups)
  {
    var keys := FirstKeys(evidence);
    seq(|keys|, g requires 0 <= g < |keys| => Group(keys[g], Having(evidence, keys[g])))
  }

  lemma GroupedIs(evidence: seq<Item>, groups: seq<Group>)
    requires Grouped(evidence, groups)
    ensures groups == GroupsOf(evidence)
  {
    var other := GroupsOf(evidence);
    hide GroupsOf;
    assert forall g | 0 <= g < |groups| :: groups[g] == Group(groups[g].key, groups[g].items) && groups[g] == other[g];
  }

  lemma GroupedNone()
    ensures Grouped([], []) && FirstKeys([]) == []
  {
  }

  lemma LastItem(evidence: seq<Item>, item: Item)
    ensures FirstKeys(evidence + [item]) ==
      if KeyOf(item) in FirstKeys(evidence) then FirstKeys(evidence) else FirstKeys(evidence) + [KeyOf(item)]
    ensures forall k :: Having(evidence + [item], k) == Having(evidence, k) + if KeyOf(item) == k then [item] else []
  {
    assert (evidence + [item])[..|evidence|] == evidence;
  }

  ghost predicate Distinct(keys: seq<GroupKey>) {
    forall i, j | 0 <= i < j < |keys| :: keys[i] != keys[j]
  }

  lemma {:induction false} KeysDistinct(evidence: seq<Item>)
    ensures Distinct(FirstKeys(evidence))
  {
    if evidence != [] {
      KeysDistinct(evidence[..|evidence| - 1]);
      hide KeyOf;
    }
  }

  lemma {:induction false} HavingNone(evidence: seq<Item>, key: GroupKey)
    ensures Having(evidence, key) == [] <==> key !in FirstKeys(evidence)
  {
    if evidence != [] { HavingNone(evidence[..|evidence| - 1], key); }
  }

  lemma GroupedStep(evidence: seq<Item>, item: Item, before: seq<Group>, groups: seq<Group>, at: nat)
    requires Grouped(evidence, before) && at <= |before|
    requires if KeyOf(item) in FirstKeys(evidence)
             then at < |before| && before[at].key == KeyOf(item) && groups == before[at := Group(KeyOf(item), before[at].items + [item])]
             else at == |before| && groups == before + [Group(KeyOf(item), [item])]
    ensures Grouped(evidence + [item], groups)
  {
    LastItem(evidence, item);
    KeysDistinct(evidence);
    HavingNone(evidence, KeyOf(item));
    hide FirstKeys, Having, KeyOf;
  }

  function Flat(groups: seq<Group>): seq<Item> {
    if groups == [] then [] else Flat(groups[..|groups| - 1]) + groups[|groups| - 1].items
  }

  /** The items of some of the keys, in order of the keys. */
  function Gathered(evidence: seq<Item>, keys: seq<GroupKey>): seq<Item> {
    if keys == [] then [] else Gathered(evidence, keys[..|keys| - 1]) + Having(evidence, keys[|keys| - 1])
  }

  lemma {:induction false} FlatIsGathered(evidence: seq<Item>, groups: seq<Group>, keys: seq<GroupKey>)
    requires |groups| == |keys|
    requires forall g | 0 <= g < |groups| :: groups[g].key == keys[g] && groups[g].items == Having(evidence, keys[g])
    ensures Flat(groups) == Gathered(evidence, keys)
  {
    if groups != [] { FlatIsGathered(evidence, groups[..|groups| - 1], keys[..|keys| - 1]); }
  }

  lemma {:induction false} GatheredStep(evidence: seq<Item>, item: Item, keys: seq<GroupKey>)
    requires Distinct(keys)
    ensures multiset(Gathered(evidence + [item], keys)) ==
      multiset(Gathered(evidence, keys)) + if KeyOf(item) in keys then multiset{item} else multiset{}
  {
    hide KeyOf, FirstKeys, Having, Distinct, Gathered;
    if keys == [] {
      GatheredNone(evidence);
      GatheredNone(evidence + [item]);
    } else {
      var n := |keys| - 1;
      DistinctInit(keys, KeyOf(item));
      GatheredStep(evidence, item, keys[..n]);
      HavingStep(evidence, item, keys[n]);
      GatheredLast(evidence, keys);
      GatheredLast(evidence + [item], keys);
    }
  }

  lemma HavingStep(evidence: seq<Item>, item: Item, key: GroupKey)
    ensures multiset(Having(evidence + [item], key)) ==
      multiset(Having(evidence, key)) + if KeyOf(item) == key then multiset{item} else multiset{}
  {
    LastItem(evidence, item);
  }

  lemma DistinctInit(keys: seq<GroupKey>, key: GroupKey)
    requires keys != [] && Distinct(keys)
    ensures Distinct(keys[..|keys| - 1])
    ensures key in keys <==> key in keys[..|keys| - 1] || key == keys[|keys| - 1]
    ensures key == keys[|keys| - 1] ==> key !in keys[..|keys| - 1]
  {
  }

  lemma GatheredNone(evidence: seq<Item>)
    ensures Gathered(evidence, []) == []
  {
  }

  lemma GatheredLast(evidence: seq<Item>, keys: seq<GroupKey>)
    requires keys != []
    ensures multiset(Gathered(evidence, keys)) ==
      multiset(Gathered(evidence, keys[..|keys| - 1])) + multiset(Having(evidence, keys[|keys| - 1]))
  {
  }

  lemma {:induction false} GatheredAll(evidence: seq<Item>)
    ensures multiset(Gathered(evidence, FirstKeys(evidence))) == multiset(evidence)
  {
    if evidence != [] {
      var n := |evidence| - 1;
      var rest, item := evidence[..n], evidence[n];
      assert evidence == rest + [item];
      GatheredAll(rest);
      LastItem(rest, item);
      KeysDistinct(rest);
      KeysDistinct(evidence);
      GatheredStep(rest, item, FirstKeys(evidence));
      if KeyOf(item) !in FirstKeys(rest) {
        HavingNone(rest, KeyOf(item));
        assert FirstKeys(evidence)[..|FirstKeys(rest)|] == FirstKeys(rest);
      }
    }
  }

  /** Grouping loses, adds and repeats nothing. */
  lemma GroupingPermutes(evidence: seq<Item>, groups: seq<Group>)
    requires Grouped(evidence, groups)
    ensures multiset(Flat(groups)) == multiset(evidence)
  {
    FlatIsGathered(evidence, groups, FirstKeys(evidence));
    GatheredAll(evidence);
  }

  ghost predicate DistinctSources(evidence: seq<Item>) {
    forall i, j | 0 <= i < j < |evidence| :: evidence[i].source != evidence[j].source
  }

  ghost predicate Resolved(item: Item) {
    item.candidate.path.Some? && item.candidate.path.value.available && item.candidate.path.value.unitId.Some?
  }

  /** Two items are in the same group exactly when both resolve to the same unit of the same document; an unresolved
      item is alone in its group. */
  lemma SameGroup(evidence: seq<Item>, groups: seq<Group>, i: nat, j: nat)
    requires Grouped(evidence, groups) && DistinctSources(evidence) && i < |evidence| && j < |evidence| && i != j
    ensures (exists g :: 0 <= g < |groups| && evidence[i] in groups[g].items && evidence[j] in groups[g].items) <==>
      && Resolved(evidence[i]) && Resolved(evidence[j])
      && evidence[i].candidate.documentId == evidence[j].candidate.documentId
      && evidence[i].candidate.path.value.unitId == evidence[j].candidate.path.value.unitId
  {
    var x, y := evidence[i], evidence[j];
    assert x.source != y.source;
    HavingIs(evidence, x);
    HavingIs(evidence, y);
    if KeyOf(x) == KeyOf(y) {
      var g :| 0 <= g < |FirstKeys(evidence)| && FirstKeys(evidence)[g] == KeyOf(x);
      assert groups[g].items == Having(evidence, KeyOf(x));
    }
    forall g | 0 <= g < |groups| && x in groups[g].items && y in groups[g].items ensures KeyOf(x) == KeyOf(y) {
      assert groups[g].items == Having(evidence, groups[g].key);
      HavingHas(evidence, groups[g].key, x);
      HavingHas(evidence, groups[g].key, y);
    }
  }

  lemma {:induction false} HavingHas(evidence: seq<Item>, key: GroupKey, item: Item)
    ensures item in Having(evidence, key) <==> item in evidence && KeyOf(item) == key
  {
    if evidence != [] {
      HavingHas(evidence[..|evidence| - 1], key, item);
      assert evidence == evidence[..|evidence| - 1] + [evidence[|evidence| - 1]];
    }
  }

  lemma HavingIs(evidence: seq<Item>, item: Item)
    requires item in evidence
    ensures item in Having(evidence, KeyOf(item)) && KeyOf(item) in FirstKeys(evidence)
  {
    HavingHas(evidence, KeyOf(item), item);
    HavingNone(evidence, KeyOf(item));
  }

  /** Where a key first appears. */
  function FirstAt(evidence: seq<Item>, key: GroupKey): nat {
    if evidence == [] || KeyOf(evidence[0]) == key then 0 else 1 + FirstAt(evidence[1..], key)
  }

  lemma {:induction false} FirstAtPrefix(evidence: seq<Item>, item: Item, key: GroupKey)
    ensures FirstAt(evidence + [item], key) ==
      if exists i :: 0 <= i < |evidence| && KeyOf(evidence[i]) == key then FirstAt(evidence, key)
      else if KeyOf(item) == key then |evidence| else |evidence| + 1
    ensures FirstAt(evidence, key) <= |evidence|
    ensures FirstAt(evidence, key) < |evidence| <==> exists i :: 0 <= i < |evidence| && KeyOf(evidence[i]) == key
  {
    if evidence != [] {
      var more := evidence + [item];
      assert more[1..] == evidence[1..] + [item] && more[0] == evidence[0];
      FirstAtPrefix(evidence[1..], item, key);
      if i :| 0 <= i < |evidence| && KeyOf(evidence[i]) == key {
        if i > 0 { assert KeyOf(evidence[1..][i - 1]) == key; }
      }
      if i :| 0 <= i < |evidence[1..]| && KeyOf(evidence[1..][i]) == key {
        assert KeyOf(evidence[i + 1]) == key;
      }
    }
  }

  /** Groups stand in the order in which their first items appear. */
  lemma {:induction false} GroupsByAppearance(evidence: seq<Item>, i: nat, j: nat)
    requires i < j < |FirstKeys(evidence)|
    ensures FirstAt(evidence, FirstKeys(evidence)[i]) < FirstAt(evidence, FirstKeys(evidence)[j]) < |evidence|
  {
    var n := |evidence| - 1;
    var rest, item := evidence[..n], evidence[n];
    assert evidence == rest + [item];
    var keys := FirstKeys(rest);
    FirstAtPrefix(rest, item, FirstKeys(evidence)[i]);
    FirstAtPrefix(rest, item, FirstKeys(evidence)[j]);
    HavingNone(rest, FirstKeys(evidence)[i]);
    HavingNone(rest, FirstKeys(evidence)[j]);
    KeyAppears(rest, FirstKeys(evidence)[i]);
    KeyAppears(rest, FirstKeys(evidence)[j]);
    if j < |keys| { GroupsByAppearance(rest, i, j); }
  }

  lemma {:induction false} KeyAppears(evidence: seq<Item>, key: GroupKey)
    ensures key in FirstKeys(evidence) <==> exists i :: 0 <= i < |evidence| && KeyOf(evidence[i]) == key
  {
    if evidence != [] {
      var n := |evidence| - 1;
      KeyAppears(evidence[..n], key);
      if i :| 0 <= i < |evidence| && KeyOf(evidence[i]) == key {
        if i < n { assert KeyOf(evidence[..n][i]) == key; }
      }
      if i :| 0 <= i < n && KeyOf(evidence[..n][i]) == key { assert KeyOf(evidence[i]) == key; }
    }
  }
}
