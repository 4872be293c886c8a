/** Authoritative legal paths of one artifact (app/local_compute/legal_paths.py).

    A runtime key `repaired:<type>:<number>:<start>` is the constructor `Repaired`; every stored id is `Stored`.
    The parser's output is an arbitrary forest. */
module LegalPaths {

  import opened Wrappers

  datatype Signature = Signature(unitType: string, number: string, start: int)
  datatype Key = Stored(id: string) | Repaired(signature: Signature)
  datatype Heading = Heading(unitType: string, number: string, title: string, start: int, end: int)
  datatype Unit = Unit(key: Key, parent: Option<Key>, heading: Heading)
  datatype Node = Node(heading: Heading, children: seq<Node>)

  datatype PathSource = LegalUnitRepository | RepairedRepository | Unavailable

  datatype LegalPath = LegalPath(
    unitId: Key, unitType: Option<string>, displayLabel: Option<string>,
    ancestors: seq<Key>, labels: seq<string>, category: Option<Key>, source: PathSource)

  const TYPE_LABELS := map[
    "PART" := "Phần", "APPENDIX" := "Phụ lục", "CHAPTER" := "Chương", "SECTION" := "Mục",
    "TABLE_CATEGORY" := "Danh mục", "ARTICLE" := "Điều", "CLAUSE" := "Khoản", "POINT" := "Điểm"]
  const CATEGORY_TYPES := {"TABLE_CATEGORY", "ARTICLE", "SECTION"}
  const PREAMBLE := "PREAMBLE"

  function SignatureOf(h: Heading): Signature {
    Signature(h.unitType, h.number, h.start)
  }

  function Label(h: Heading): string {
    (if h.unitType in TYPE_LABELS then TYPE_LABELS[h.unitType] else h.unitType)
    + (if h.number != "" then " " + h.number else "")
    + (if h.title != "" then " — " + h.title else "")
  }

  // ---------- climbing a graph that may have cycles ----------

  ghost predicate Keyed(units: map<Key, Unit>) {
    forall k | k in units :: units[k].key == k
  }

  /** A missing parent is looked up under the empty id. */
  function ParentKey(unit: Unit): Key {
    if unit.parent.Some? && unit.parent.value != Stored("") then unit.parent.value else Stored("")
  }

  /** The units met on the way up from `key`, the unit itself first, until one is missing or was met before. */
  function Climb(units: map<Key, Unit>, key: Key, visited: set<Key>): seq<Unit>
    decreases |units.Keys - visited|
  {
    if key !in units || key in visited then []
    else
      Fewer(units.Keys, visited, key);
      [units[key]] + Climb(units, ParentKey(units[key]), visited + {key})
  }

  lemma Fewer(all: set<Key>, visited: set<Key>, key: Key)
    requires key in all && key !in visited
    ensures |all - (visited + {key})| < |all - visited|
  {
    assert all - (visited + {key}) == (all - visited) - {key};
  }

  function Shown(climb: seq<Unit>): seq<Unit> {
    if climb == [] then []
    else (if climb[0].heading.unitType == PREAMBLE then [] else [climb[0]]) + Shown(climb[1..])
  }

  function Reversed<T>(s: seq<T>): seq<T> {
    if s == [] then [] else Reversed(s[1..]) + [s[0]]
  }

  function Headings(units: seq<Unit>): seq<Heading> {
    seq(|units|, i requires 0 <= i < |units| => units[i].heading)
  }

  function Keys(units: seq<Unit>): seq<Key> {
    seq(|units|, i requires 0 <= i < |units| => units[i].key)
  }

  function Labels(headings: seq<Heading>): seq<string> {
    seq(|headings|, i requires 0 <= i < |headings| => Label(headings[i]))
  }

  /** From the outermost ancestor down to the unit. */
  function PathUnits(units: map<Key, Unit>, key: Key): seq<Unit> {
    Reversed(Shown(Climb(units, key, {})))
  }

  /** The innermost unit of a path that is a category; None if there is none. */
  function Category(path: seq<Unit>): Option<Key> {
    if path == [] then None
    else if path[|path| - 1].heading.unitType in CATEGORY_TYPES then Some(path[|path| - 1].key)
    else Category(path[..|path| - 1])
  }

  function PathOf(units: map<Key, Unit>, key: Key, source: PathSource): LegalPath
    requires key in units
  {
    var path, heading := PathUnits(units, key), units[key].heading;
    LegalPath(key, Some(heading.unitType), if heading.unitType != PREAMBLE then Some(Label(heading)) else None,
              Keys(path), Labels(Headings(path)), Category(path), source)
  }

  /** What `resolve` answers, for a stored or a runtime id: nothing for no id or an empty one, an unavailable path for
      an unknown id. */
  function Resolved(units: map<Key, Unit>, id: Option<Key>, source: PathSource): Option<LegalPath> {
    if id.None? || id.value == Stored("") then None
    else if id.value !in units then Some(LegalPath(id.value, None, None, [], [], None, Unavailable))
    else Some(PathOf(units, id.value, source))
  }

  /** On any graph the climb is a walk along parents without a repeat, and it goes as far as it can. */
  lemma {:induction false} ClimbWalks(units: map<Key, Unit>, key: Key, visited: set<Key>)
    requires Keyed(units)
    ensures var climb := Climb(units, key, visited);
      && (climb == [] <==> key !in units || key in visited)
      && (climb != [] ==> climb[0].key == key)
      && (forall i | 0 <= i < |climb| :: climb[i].key in units && climb[i] == units[climb[i].key] && climb[i].key !in visited)
      && (forall i | 0 <= i < |climb| - 1 :: climb[i + 1].key == ParentKey(climb[i]))
      && (forall i, j | 0 <= i < j < |climb| :: climb[i].key != climb[j].key)
      && (climb != [] ==>
            var next := ParentKey(climb[|climb| - 1]);
            next !in units || next in visited || exists i :: 0 <= i < |climb| && climb[i].key == next)
    decreases |units.Keys - visited|
  {
    if key in units && key !in visited {
      Fewer(units.Keys, visited, key);
      var rest := Climb(units, ParentKey(units[key]), visited + {key});
      ClimbWalks(units, ParentKey(units[key]), visited + {key});
      var climb := Climb(units, key, visited);
      assert climb == [units[key]] + rest;
      assert forall i | 0 < i < |climb| :: climb[i] == rest[i - 1];
      if rest != [] {
        var next := ParentKey(rest[|rest| - 1]);
        if next in units && next !in visited && next != key {
          var i :| 0 <= i < |rest| && rest[i].key == next;
          assert climb[i + 1].key == next;
        } else if next == key {
          assert climb[0].key == next;
        }
      } else if ParentKey(units[key]) == key {
        assert climb[0].key == key;
      }
    }
  }

  /** A graph without cycles: some rank falls along every parent link. */
  ghost predicate Ranked(units: map<Key, Unit>, rank: map<Key, nat>) {
    && (forall k | k in units :: k in rank)
    && (forall k | k in units && ParentKey(units[k]) in units :: rank[ParentKey(units[k])] < rank[k])
  }

  /** Without cycles nothing above a unit was met below it. */
  lemma {:induction false} ClimbForgets(units: map<Key, Unit>, rank: map<Key, nat>, key: Key, visited: set<Key>)
    requires Ranked(units, rank) && (forall k | k in visited && k in units :: key in units ==> rank[key] < rank[k])
    ensures Climb(units, key, visited) == Climb(units, key, {})
    decreases if key in units then rank[key] + 1 else 0
  {
    if key in units && key !in visited {
      var up := ParentKey(units[key]);
      ClimbForgets(units, rank, up, visited + {key});
      ClimbForgets(units, rank, up, {} + {key});
      Fewer(units.Keys, visited, key);
      Fewer(units.Keys, {}, key);
    }
  }

  lemma ShownNone()
    ensures Shown([]) == []
  {
  }

  lemma ReversedShown(unit: Unit, above: seq<Unit>)
    ensures Reversed(Shown([unit] + above)) ==
      Reversed(Shown(above)) + if unit.heading.unitType == PREAMBLE then [] else [unit]
  {
    var climb := [unit] + above;
    assert climb[1..] == above;
    if unit.heading.unitType != PREAMBLE {
      assert Shown(climb)[0] == unit && Shown(climb)[1..] == Shown(above);
    } else {
      assert Shown(climb) == Shown(above);
    }
  }

  /** Without cycles a unit's path is its parent's path followed by the unit, a preamble adding nothing. */
  lemma PathExtendsParent(units: map<Key, Unit>, rank: map<Key, nat>, key: Key)
    requires Ranked(units, rank) && key in units
    ensures PathUnits(units, key) ==
      PathUnits(units, ParentKey(units[key])) + if units[key].heading.unitType == PREAMBLE then [] else [units[key]]
  {
    var up := ParentKey(units[key]);
    ClimbForgets(units, rank, up, {} + {key});
    Fewer(units.Keys, {}, key);
    ReversedShown(units[key], Climb(units, up, {}));
  }

  // ---------- grafting the rebuilt forest onto the stored ids ----------

  function Rebuilt(forest: seq<Node>, parent: Option<Key>): seq<Unit> {
    if forest == [] then []
    else
      var key := Repaired(SignatureOf(forest[0].heading));
      [Unit(key, parent, forest[0].heading)] + Rebuilt(forest[0].children, Some(key)) + Rebuilt(forest[1..], parent)
  }

  /** Two dictionaries over the rebuilt units, and one over the stored: the last entry of a key wins. */
  function Available(rebuilt: seq<Unit>): map<Signature, Unit> {
    if rebuilt == [] then map[]
    else var last := rebuilt[|rebuilt| - 1]; Available(rebuilt[..|rebuilt| - 1])[SignatureOf(last.heading) := last]
  }

  function ByKey(rebuilt: seq<Unit>): map<Key, Unit> {
    if rebuilt == [] then map[]
    else var last := rebuilt[|rebuilt| - 1]; ByKey(rebuilt[..|rebuilt| - 1])[last.key := last]
  }

  function OldKeys(stored: seq<Unit>): map<Signature, Key> {
    if stored == [] then map[]
    else var last := stored[|stored| - 1]; OldKeys(stored[..|stored| - 1])[SignatureOf(last.heading) := last.key]
  }

  /** The key a rebuilt parent is known by: a stored id where there is one. */
  function KnownAs(signature: Signature, oldKeys: map<Signature, Key>): Key {
    if signature in oldKeys then oldKeys[signature] else Repaired(signature)
  }

  ghost predicate ParentsKnown(available: map<Signature, Unit>, byKey: map<Key, Unit>) {
    forall s | s in available && available[s].parent.Some? :: available[s].parent.value in byKey
  }

  function Regraft(prior: Unit, found: Unit, byKey: map<Key, Unit>, oldKeys: map<Signature, Key>): Unit
    requires found.parent.Some? ==> found.parent.value in byKey
  {
    Unit(prior.key,
         if found.parent.None? then None
         else Some(KnownAs(SignatureOf(byKey[found.parent.value].heading), oldKeys)),
         found.heading)
  }

  ghost function Mapped(stored: seq<Unit>, available: map<Signature, Unit>, byKey: map<Key, Unit>,
                        oldKeys: map<Signature, Key>): map<Key, Unit>
    requires ParentsKnown(available, byKey)
  {
    if stored == [] then map[]
    else
      var prior := stored[|stored| - 1];
      var before := Mapped(stored[..|stored| - 1], available, byKey, oldKeys);
      var s := SignatureOf(prior.heading);
      if s in available then before[prior.key := Regraft(prior, available[s], byKey, oldKeys)] else before
  }

  ghost function RepairedUnits(stored: seq<Unit>, forest: seq<Node>): map<Key, Unit> {
    var rebuilt := Rebuilt(forest, None);
    ParentsAreKnown(forest);
    ByKey(rebuilt) + Mapped(stored, Available(rebuilt), ByKey(rebuilt), OldKeys(stored))
  }

  /** Every rebuilt unit's parent is a rebuilt unit, so its lookup never fails. */
  lemma ParentsAreKnown(forest: seq<Node>)
    ensures ParentsKnown(Available(Rebuilt(forest, None)), ByKey(Rebuilt(forest, None)))
  {
    var rebuilt := Rebuilt(forest, None);
    ParentAmong(forest, None);
    forall s | s in Available(rebuilt) && Available(rebuilt)[s].parent.Some?
      ensures Available(rebuilt)[s].parent.value in ByKey(rebuilt)
    {
      var i := AvailableFrom(rebuilt, s);
      assert rebuilt[i] in rebuilt;
      var j :| 0 <= j < |rebuilt| && rebuilt[j].key == rebuilt[i].parent.value;
      ByKeyHas(rebuilt, j);
    }
  }

  ghost predicate HasKey(rebuilt: seq<Unit>, k: Key) {
    exists j :: 0 <= j < |rebuilt| && rebuilt[j].key == k
  }

  lemma HasKeyWithin(part: seq<Unit>, before: seq<Unit>, behind: seq<Unit>, k: Key)
    requires HasKey(part, k)
    ensures HasKey(before + part + behind, k)
  {
    var j :| 0 <= j < |part| && part[j].key == k;
    assert (before + part + behind)[|before| + j].key == k;
  }

  lemma {:induction false} ParentAmong(forest: seq<Node>, parent: Option<Key>)
    ensures var rebuilt := Rebuilt(forest, parent); forall u | u in rebuilt ::
      u.parent == parent || (u.parent.Some? && HasKey(rebuilt, u.parent.value))
  {
    if forest != [] {
      var key := Repaired(SignatureOf(forest[0].heading));
      var top := [Unit(key, parent, forest[0].heading)];
      var inner, rest := Rebuilt(forest[0].children, Some(key)), Rebuilt(forest[1..], parent);
      var rebuilt := Rebuilt(forest, parent);
      ParentAmong(forest[0].children, Some(key));
      ParentAmong(forest[1..], parent);
      assert rebuilt == top + inner + rest;
      forall u | u in rebuilt && u.parent != parent ensures u.parent.Some? && HasKey(rebuilt, u.parent.value) {
        if u in inner {
          if u.parent == Some(key) {
            assert rebuilt[0].key == key;
          } else {
            HasKeyWithin(inner, top, rest, u.parent.value);
          }
        } else if u in rest {
          HasKeyWithin(rest, top + inner, [], u.parent.value);
          assert top + inner + rest + [] == rebuilt;
        }
      }
    }
  }

  lemma {:induction false} AvailableFrom(rebuilt: seq<Unit>, s: Signature) returns (i: nat)
    requires s in Available(rebuilt)
    ensures i < |rebuilt| && Available(rebuilt)[s] == rebuilt[i] && SignatureOf(rebuilt[i].heading) == s
  {
    var n := |rebuilt| - 1;
    if SignatureOf(rebuilt[n].heading) == s { i := n; } else { i := AvailableFrom(rebuilt[..n], s); }
  }

  lemma {:induction false} AvailableHas(rebuilt: seq<Unit>, i: nat)
    requires i < |rebuilt|
    ensures SignatureOf(rebuilt[i].heading) in Available(rebuilt)
  {
    if i < |rebuilt| - 1 { AvailableHas(rebuilt[..|rebuilt| - 1], i); }
  }

  lemma {:induction false} ByKeyHas(rebuilt: seq<Unit>, i: nat)
    requires i < |rebuilt|
    ensures rebuilt[i].key in ByKey(rebuilt)
  {
    if i < |rebuilt| - 1 { ByKeyHas(rebuilt[..|rebuilt| - 1], i); }
  }

  lemma {:induction false} ByKeyFrom(rebuilt: seq<Unit>, k: Key) returns (i: nat)
    requires k in ByKey(rebuilt)
    ensures i < |rebuilt| && ByKey(rebuilt)[k] == rebuilt[i] && rebuilt[i].key == k
  {
    var n := |rebuilt| - 1;
    if rebuilt[n].key == k { i := n; } else { i := ByKeyFrom(rebuilt[..n], k); }
  }

  lemma {:induction false} OldKeysFrom(stored: seq<Unit>, s: Signature) returns (i: nat)
    requires s in OldKeys(stored)
    ensures i < |stored| && OldKeys(stored)[s] == stored[i].key && SignatureOf(stored[i].heading) == s
  {
    var n := |stored| - 1;
    if SignatureOf(stored[n].heading) == s { i := n; } else { i := OldKeysFrom(stored[..n], s); }
  }

  lemma {:induction false} RebuiltSigned(forest: seq<Node>, parent: Option<Key>)
    ensures forall u | u in Rebuilt(forest, parent) :: u.key == Repaired(SignatureOf(u.heading))
  {
    if forest != [] {
      RebuiltSigned(forest[0].children, Some(Repaired(SignatureOf(forest[0].heading))));
      RebuiltSigned(forest[1..], parent);
    }
  }

  lemma ByKeySigned(forest: seq<Node>, k: Key)
    requires k in ByKey(Rebuilt(forest, None))
    ensures ByKey(Rebuilt(forest, None))[k].key == k == Repaired(SignatureOf(ByKey(Rebuilt(forest, None))[k].heading))
  {
    var i := ByKeyFrom(Rebuilt(forest, None), k);
    RebuiltSigned(forest, None);
  }

  lemma ByKeyKeyed(stored: seq<Unit>)
    ensures Keyed(ByKey(stored))
  {
    forall k | k in ByKey(stored) ensures ByKey(stored)[k].key == k {
      var i := ByKeyFrom(stored, k);
    }
  }

  lemma {:induction false} MappedKeyed(stored: seq<Unit>, available: map<Signature, Unit>, byKey: map<Key, Unit>,
                                       oldKeys: map<Signature, Key>)
    requires ParentsKnown(available, byKey)
    ensures Keyed(Mapped(stored, available, byKey, oldKeys))
  {
    if stored != [] { MappedKeyed(stored[..|stored| - 1], available, byKey, oldKeys); }
  }

  lemma RepairedKeyed(stored: seq<Unit>, forest: seq<Node>)
    ensures Keyed(RepairedUnits(stored, forest))
  {
    var rebuilt := Rebuilt(forest, None);
    ParentsAreKnown(forest);
    ByKeyKeyed(rebuilt);
    MappedKeyed(stored, Available(rebuilt), ByKey(rebuilt), OldKeys(stored));
  }

  // ---------- the resolver ----------

  class LocalArtifactLegalPathResolver {
    var units: map<Key, Unit>
    var source: PathSource

    /** `sane` is the check on persisted units; one that fails it starts the repair. */
    constructor (stored: seq<Unit>, sane: Heading -> bool, reconstruction: Option<seq<Node>>)
      ensures Keyed(units)
      ensures source == (if forall u | u in stored :: sane(u.heading) then LegalUnitRepository
                         else if reconstruction.None? then Unavailable else RepairedRepository)
      ensures units == (if forall u | u in stored :: sane(u.heading) then ByKey(stored)
                        else if reconstruction.None? then map[] else RepairedUnits(stored, reconstruction.value))
    {
      units := ByKey(stored);
      source := LegalUnitRepository;
      new;
      if exists u | u in stored :: !sane(u.heading) {
        source := RepairedRepository;
        ReplaceWithReconstructedUnits(stored, reconstruction);
        if reconstruction.Some? { RepairedKeyed(stored, reconstruction.value); }
      } else {
        ByKeyKeyed(stored);
      }
    }

    method ReplaceWithReconstructedUnits(stored: seq<Unit>, reconstruction: Option<seq<Node>>)
      modifies this
      ensures source == if reconstruction.None? then Unavailable else old(source)
      ensures units == if reconstruction.None? then map[] else RepairedUnits(stored, reconstruction.value)
    {
      if reconstruction.None? {
        units := map[];
        source := Unavailable;
        return;
      }
      var rebuilt := Rebuilt(reconstruction.value, None);
      ParentsAreKnown(reconstruction.value);
      var available, byKey, oldKeys := Available(rebuilt), ByKey(rebuilt), OldKeys(stored);
      var mapped: map<Key, Unit> := map[];
      for i := 0 to |stored|
        invariant mapped == Mapped(stored[..i], available, byKey, oldKeys)
        invariant source == old(source)
      {
        var prior := stored[i];
        assert stored[..i + 1][..i] == stored[..i];
        var s := SignatureOf(prior.heading);
        if s in available {
          var found := available[s];
          var parent: Option<Key> := None;
          if found.parent.Some? {
            var above := SignatureOf(byKey[found.parent.value].heading);
            parent := Some(if above in oldKeys then oldKeys[above] else byKey[found.parent.value].key);
            ByKeySigned(reconstruction.value, found.parent.value);
          }
          mapped := mapped[prior.key := Unit(prior.key, parent, found.heading)];
        }
      }
      assert stored[..|stored|] == stored;
      units := byKey + mapped;
    }

    method PathForUnit(unit: Unit) returns (path: LegalPath)
      requires Keyed(units) && unit.key in units && units[unit.key] == unit
      ensures path == PathOf(units, unit.key, source)
    {
      var chain: seq<Unit> := [];
      var visited: set<Key> := {};
      var current := Some(unit);
      ghost var key := unit.key;
      ghost var climbed: seq<Unit> := [];
      hide Climb, Shown, Reversed;
      ShownNone();
      while current.Some? && current.value.key !in visited
        invariant current == if key in units then Some(units[key]) else None
        invariant chain == Shown(climbed)
        invariant Climb(units, unit.key, {}) == climbed + Climb(units, key, visited)
        decreases |units.Keys - visited|
      {
        Fewer(units.Keys, visited, key);
        ClimbNext(units, key, visited);
        ghost var was := climbed + Climb(units, key, visited);
        visited := visited + {current.value.key};
        if current.value.heading.unitType != PREAMBLE {
          chain := chain + [current.value];
        }
        ShownAppend(climbed, current.value);
        climbed := climbed + [current.value];
        key := ParentKey(current.value);
        current := if ParentKey(current.value) in units then Some(units[ParentKey(current.value)]) else None;
        assert was == climbed + Climb(units, key, visited);
      }
      ClimbNext(units, key, visited);
      assert Climb(units, unit.key, {}) == climbed;
      chain := Reversed(chain);
      var category := FindCategory(chain);
      path := LegalPath(unit.key, Some(unit.heading.unitType),
        if unit.heading.unitType != PREAMBLE then Some(Label(unit.heading)) else None,
        Keys(chain), Labels(Headings(chain)), category, source);
    }

    static method FindCategory(chain: seq<Unit>) returns (category: Option<Key>)
      ensures category == Category(chain)
    {
      var i := |chain|;
      assert chain[..i] == chain;
      while i > 0
        invariant 0 <= i <= |chain| && Category(chain) == Category(chain[..i])
      {
        i := i - 1;
        if chain[i].heading.unitType in CATEGORY_TYPES {
          return Some(chain[i].key);
        }
        assert chain[..i + 1][..i] == chain[..i];
      }
      category := None;
    }

    method Resolve(id: Option<Key>) returns (path: Option<LegalPath>)
      requires Keyed(units)
      ensures path == Resolved(units, id, source)
    {
      if id.None? || id.value == Stored("") {
        return None;
      }
      if id.value !in units {
        return Some(LegalPath(id.value, None, None, [], [], None, Unavailable));
      }
      var found := PathForUnit(units[id.value]);
      path := Some(found);
    }
  }

  lemma {:induction false} ShownAppend(climb: seq<Unit>, unit: Unit)
    ensures Shown(climb + [unit]) == Shown(climb) + if unit.heading.unitType == PREAMBLE then [] else [unit]
  {
    if climb != [] {
      ShownAppend(climb[1..], unit);
      assert (climb + [unit])[1..] == climb[1..] + [unit];
    }
  }

  // ---------- repair simulates the forest ----------

  /** Every place of the forest as the headings from its root down to it, in the order they are rebuilt. */
  ghost function Trails(forest: seq<Node>, above: seq<Heading>): seq<seq<Heading>> {
    if forest == [] then []
    else
      var here := above + [forest[0].heading];
      [here] + Trails(forest[0].children, here) + Trails(forest[1..], above)
  }

  function Last<T>(s: seq<T>): T
    requires s != []
  {
    s[|s| - 1]
  }

  ghost predicate Fits(unit: Unit, trail: seq<Heading>) {
    && trail != []
    && unit.heading == Last(trail)
    && unit.key == Repaired(SignatureOf(Last(trail)))
    && unit.parent == if |trail| == 1 then None else Some(Repaired(SignatureOf(trail[|trail| - 2])))
  }

  ghost predicate AllFit(rebuilt: seq<Unit>, trails: seq<seq<Heading>>) {
    |trails| == |rebuilt| && forall i | 0 <= i < |trails| :: Fits(rebuilt[i], trails[i])
  }

  lemma AllFitBoth(rebuilt: seq<Unit>, trails: seq<seq<Heading>>, rebuilt': seq<Unit>, trails': seq<seq<Heading>>)
    requires AllFit(rebuilt, trails) && AllFit(rebuilt', trails')
    ensures AllFit(rebuilt + rebuilt', trails + trails')
  {
    hide Fits;
  }

  lemma {:induction false} RebuiltFits(forest: seq<Node>, above: seq<Heading>, parent: Option<Key>)
    requires parent == if above == [] then None else Some(Repaired(SignatureOf(Last(above))))
    ensures AllFit(Rebuilt(forest, parent), Trails(forest, above))
  {
    if forest != [] {
      var here, key := above + [forest[0].heading], Repaired(SignatureOf(forest[0].heading));
      RebuiltFits(forest[0].children, here, Some(key));
      RebuiltFits(forest[1..], above, parent);
      var top := [Unit(key, parent, forest[0].heading)];
      assert AllFit(top, [here]);
      hide AllFit;
      AllFitBoth(top, [here], Rebuilt(forest[0].children, Some(key)), Trails(forest[0].children, here));
      AllFitBoth(top + Rebuilt(forest[0].children, Some(key)), [here] + Trails(forest[0].children, here),
                 Rebuilt(forest[1..], parent), Trails(forest[1..], above));
    }
  }

  ghost predicate Placed(trails: seq<seq<Heading>>, above: seq<Heading>, t: seq<Heading>) {
    |t| > |above| && t[..|above|] == above && (|t| == |above| + 1 || t[..|t| - 1] in trails)
  }

  /** Every place continues `above`, and directly above it is its parent's place. */
  lemma {:induction false} TrailsClosed(forest: seq<Node>, above: seq<Heading>)
    ensures forall t | t in Trails(forest, above) :: Placed(Trails(forest, above), above, t)
  {
    if forest != [] {
      var trails, here := Trails(forest, above), above + [forest[0].heading];
      var inner, rest := Trails(forest[0].children, here), Trails(forest[1..], above);
      TrailsClosed(forest[0].children, here);
      TrailsClosed(forest[1..], above);
      assert trails == [here] + inner + rest;
      forall t | t in trails ensures Placed(trails, above, t) {
        if t in inner {
          assert Placed(inner, here, t);
          assert t[..|above|] == t[..|here|][..|above|];
        } else if t in rest {
          assert Placed(rest, above, t);
        } else {
          assert t == here;
        }
      }
    }
  }

  /** No two places of the forest have the same type, number and start. */
  ghost predicate UniqueSignatures(forest: seq<Node>) {
    var trails := Trails(forest, []);
    forall i, j | 0 <= i < j < |trails| :: trails[i] != [] && trails[j] != [] ==>
      SignatureOf(Last(trails[i])) != SignatureOf(Last(trails[j]))
  }

  ghost predicate UniqueIds(stored: seq<Unit>) {
    && (forall i | 0 <= i < |stored| :: stored[i].key.Stored? && stored[i].key.id != "")
    && (forall i, j | 0 <= i < j < |stored| :: stored[i].key != stored[j].key)
  }

  /** `key` stands for the place with that signature: its runtime key, or the id of a stored unit that has it. */
  ghost predicate Names(stored: seq<Unit>, key: Key, s: Signature) {
    key == Repaired(s) || exists i :: 0 <= i < |stored| && stored[i].key == key && SignatureOf(stored[i].heading) == s
  }

  lemma NamesOne(stored: seq<Unit>, key: Key, s: Signature, s': Signature)
    requires UniqueIds(stored) && Names(stored, key, s) && Names(stored, key, s')
    ensures s == s'
  {
    if key.Stored? {
      var i :| 0 <= i < |stored| && stored[i].key == key && SignatureOf(stored[i].heading) == s;
      var j :| 0 <= j < |stored| && stored[j].key == key && SignatureOf(stored[j].heading) == s';
      assert i == j;
    }
  }

  lemma {:induction false} MappedAt(stored: seq<Unit>, i: nat, available: map<Signature, Unit>, byKey: map<Key, Unit>,
                                    oldKeys: map<Signature, Key>)
    requires UniqueIds(stored) && ParentsKnown(available, byKey) && i < |stored|
    ensures var mapped, s := Mapped(stored, available, byKey, oldKeys), SignatureOf(stored[i].heading);
      && (stored[i].key in mapped <==> s in available)
      && (s in available ==> mapped[stored[i].key] == Regraft(stored[i], available[s], byKey, oldKeys))
  {
    var n := |stored| - 1;
    if i < n {
      MappedAt(stored[..n], i, available, byKey, oldKeys);
    } else {
      MappedFrom(stored[..n], stored[n].key, available, byKey, oldKeys);
    }
  }

  lemma {:induction false} MappedFrom(stored: seq<Unit>, k: Key, available: map<Signature, Unit>,
                                      byKey: map<Key, Unit>, oldKeys: map<Signature, Key>)
    requires ParentsKnown(available, byKey)
    ensures k in Mapped(stored, available, byKey, oldKeys) ==> HasKey(stored, k)
  {
    if stored != [] {
      var n := |stored| - 1;
      MappedFrom(stored[..n], k, available, byKey, oldKeys);
      if k in Mapped(stored, available, byKey, oldKeys) {
        if k == stored[n].key {
          assert HasKey(stored, k);
        } else {
          var j :| 0 <= j < n && stored[..n][j].key == k;
          assert stored[j].key == k;
        }
      }
    }
  }

  /** With unique signatures both dictionaries find the place itself. */
  lemma FoundFits(forest: seq<Node>, t: seq<Heading>)
    requires UniqueSignatures(forest) && t in Trails(forest, [])
    ensures t != []
    ensures var s, rebuilt := SignatureOf(Last(t)), Rebuilt(forest, None);
      && s in Available(rebuilt) && Fits(Available(rebuilt)[s], t)
      && Repaired(s) in ByKey(rebuilt) && Fits(ByKey(rebuilt)[Repaired(s)], t)
  {
    var rebuilt, trails := Rebuilt(forest, None), Trails(forest, []);
    RebuiltFits(forest, [], None);
    var i :| 0 <= i < |trails| && trails[i] == t;
    assert Fits(rebuilt[i], trails[i]);
    var s := SignatureOf(Last(t));
    AvailableHas(rebuilt, i);
    ByKeyHas(rebuilt, i);
    var j := AvailableFrom(rebuilt, s);
    var k := ByKeyFrom(rebuilt, Repaired(s));
    assert Fits(rebuilt[j], trails[j]) && Fits(rebuilt[k], trails[k]);
    assert j == i && k == i;
  }

  /** One link of the simulation: the unit known by `key` is the place's, and its parent stands for the place above. */
  lemma StepUp(stored: seq<Unit>, forest: seq<Node>, key: Key, t: seq<Heading>)
    requires UniqueIds(stored) && UniqueSignatures(forest) && t in Trails(forest, []) && t != []
    requires Names(stored, key, SignatureOf(Last(t)))
    ensures var units := RepairedUnits(stored, forest);
      && key in units && units[key].heading == Last(t) && units[key].key == key
      && if |t| == 1 then ParentKey(units[key]) !in units
         else t[..|t| - 1] in Trails(forest, [])
              && Names(stored, ParentKey(units[key]), SignatureOf(t[|t| - 2]))
  {
    var units, rebuilt, s := RepairedUnits(stored, forest), Rebuilt(forest, None), SignatureOf(Last(t));
    var available, byKey, oldKeys := Available(rebuilt), ByKey(rebuilt), OldKeys(stored);
    FoundFits(forest, t);
    ParentsAreKnown(forest);
    TrailsClosed(forest, []);
    assert Placed(Trails(forest, []), [], t);
    if key.Stored? {
      var i :| 0 <= i < |stored| && stored[i].key == key && SignatureOf(stored[i].heading) == s;
      MappedAt(stored, i, available, byKey, oldKeys);
      assert units[key] == Regraft(stored[i], available[s], byKey, oldKeys);
      if |t| > 1 {
        FoundFits(forest, t[..|t| - 1]);
        KnownAsNames(stored, SignatureOf(t[|t| - 2]));
      }
    } else {
      MappedFrom(stored, key, available, byKey, oldKeys);
      assert units[key] == byKey[key];
    }
    if |t| == 1 { EmptyIdUnknown(stored, forest); }
  }

  lemma KnownAsNames(stored: seq<Unit>, s: Signature)
    requires UniqueIds(stored)
    ensures Names(stored, KnownAs(s, OldKeys(stored)), s) && KnownAs(s, OldKeys(stored)) != Stored("")
  {
    if s in OldKeys(stored) { var i := OldKeysFrom(stored, s); }
  }

  lemma EmptyIdUnknown(stored: seq<Unit>, forest: seq<Node>)
    requires UniqueIds(stored)
    ensures Stored("") !in RepairedUnits(stored, forest)
  {
    var rebuilt := Rebuilt(forest, None);
    ParentsAreKnown(forest);
    MappedFrom(stored, Stored(""), Available(rebuilt), ByKey(rebuilt), OldKeys(stored));
    if Stored("") in ByKey(rebuilt) { ByKeySigned(forest, Stored("")); }
  }

  lemma TwoPlaces(forest: seq<Node>, t: seq<Heading>, u: seq<Heading>)
    requires UniqueSignatures(forest) && t in Trails(forest, []) && u in Trails(forest, []) && |t| != |u|
    requires t != [] && u != []
    ensures SignatureOf(Last(t)) != SignatureOf(Last(u))
  {
    hide Trails, SignatureOf, Last;
    var trails := Trails(forest, []);
    var a :| 0 <= a < |trails| && trails[a] == t;
    var b :| 0 <= b < |trails| && trails[b] == u;
    assert a < b || b < a;
  }

  /** The signatures along one trail differ. */
  lemma TrailDistinct(forest: seq<Node>, t: seq<Heading>, i: nat, n: nat)
    requires UniqueSignatures(forest) && t in Trails(forest, []) && i < n < |t|
    ensures SignatureOf(t[i]) != SignatureOf(t[n])
  {
    hide UniqueSignatures, Trails;
    TrailPrefix(forest, t, i + 1);
    TrailPrefix(forest, t, n + 1);
    TwoPlaces(forest, t[..i + 1], t[..n + 1]);
  }

  lemma {:induction false} TrailPrefix(forest: seq<Node>, t: seq<Heading>, n: nat)
    requires t in Trails(forest, []) && 0 < n <= |t|
    ensures t[..n] in Trails(forest, [])
    decreases |t|
  {
    if n < |t| {
      TrailsClosed(forest, []);
      assert Placed(Trails(forest, []), [], t);
      TrailPrefix(forest, t[..|t| - 1], n);
      assert t[..|t| - 1][..n] == t[..n];
    } else {
      assert t[..n] == t;
    }
  }

  /** The headings of a place that show in a path. */
  function Visible(t: seq<Heading>): seq<Heading> {
    if t == [] then []
    else Visible(t[..|t| - 1]) + if t[|t| - 1].unitType == PREAMBLE then [] else [t[|t| - 1]]
  }

  ghost predicate StandsFor(stored: seq<Unit>, path: seq<Unit>, headings: seq<Heading>) {
    Headings(path) == headings && forall u | u in path :: Names(stored, u.key, SignatureOf(u.heading))
  }

  /** What stands for a place higher up on the trail is a key not met so far. */
  lemma MetOnce(stored: seq<Unit>, forest: seq<Node>, key: Key, t: seq<Heading>, visited: set<Key>, k: Key, i: nat)
    requires UniqueIds(stored) && UniqueSignatures(forest) && t in Trails(forest, []) && i < |t| - 1
    requires Names(stored, key, SignatureOf(Last(t)))
    requires k in visited ==> !Names(stored, k, SignatureOf(t[i]))
    requires k in visited + {key}
    ensures !Names(stored, k, SignatureOf(t[i]))
  {
    hide UniqueIds, UniqueSignatures, Trails, Names, SignatureOf;
    if k == key && Names(stored, key, SignatureOf(t[i])) {
      NamesOne(stored, key, SignatureOf(t[i]), SignatureOf(t[|t| - 1]));
      TrailDistinct(forest, t, i, |t| - 1);
    }
  }

  lemma ClimbNext(units: map<Key, Unit>, key: Key, visited: set<Key>)
    ensures Climb(units, key, visited) ==
      if key !in units || key in visited then [] else [units[key]] + Climb(units, ParentKey(units[key]), visited + {key})
  {
    if key in units && key !in visited { Fewer(units.Keys, visited, key); }
  }

  lemma {:induction false} StandsForFirst(stored: seq<Unit>, unit: Unit, t: seq<Heading>)
    requires |t| == 1 && unit.heading == Last(t) && Names(stored, unit.key, SignatureOf(unit.heading))
    ensures StandsFor(stored, Reversed(Shown([unit] + [])), Visible(t))
  {
    ReversedShown(unit, []);
    assert t[..0] == [];
    hide Names, SignatureOf;
  }

  lemma {:induction false} StandsForNext(stored: seq<Unit>, unit: Unit, above: seq<Unit>, t: seq<Heading>)
    requires t != [] && unit.heading == Last(t) && Names(stored, unit.key, SignatureOf(unit.heading))
    requires StandsFor(stored, Reversed(Shown(above)), Visible(t[..|t| - 1]))
    ensures StandsFor(stored, Reversed(Shown([unit] + above)), Visible(t))
  {
    ReversedShown(unit, above);
    hide Names, SignatureOf, Reversed, Shown;
  }

  lemma {:induction false} ClimbSimulates(stored: seq<Unit>, forest: seq<Node>, key: Key, t: seq<Heading>, visited: set<Key>)
    requires UniqueIds(stored) && UniqueSignatures(forest) && t in Trails(forest, []) && t != []
    requires Names(stored, key, SignatureOf(Last(t)))
    requires forall k, i | k in visited && 0 <= i < |t| :: !Names(stored, k, SignatureOf(t[i]))
    ensures StandsFor(stored, Reversed(Shown(Climb(RepairedUnits(stored, forest), key, visited))), Visible(t))
    decreases |t|
  {
    var units, n := RepairedUnits(stored, forest), |t| - 1;
    hide RepairedUnits, UniqueIds, UniqueSignatures, Trails, Names, SignatureOf, ParentKey, Climb, StandsFor, Reversed, Shown,
      Visible;
    StepUp(stored, forest, key, t);
    ClimbNext(units, key, visited);
    var up := ParentKey(units[key]);
    var rest := Climb(units, up, visited + {key});
    if n == 0 {
      ClimbNext(units, up, visited + {key});
      StandsForFirst(stored, units[key], t);
    } else {
      forall k, i | k in visited + {key} && 0 <= i < n ensures !Names(stored, k, SignatureOf(t[..n][i])) {
        MetOnce(stored, forest, key, t, visited, k, i);
      }
      ClimbSimulates(stored, forest, up, t[..n], visited + {key});
      StandsForNext(stored, units[key], rest, t);
    }
  }

  /** Repair is a simulation. Whatever mix of stored and runtime ids its chain crosses, a key that stands for a place
      of the rebuilt forest resolves to exactly the labels on the way down to that place, through units that stand for
      the same places. */
  lemma RepairSimulates(stored: seq<Unit>, forest: seq<Node>, key: Key, t: seq<Heading>, source: PathSource)
    requires UniqueIds(stored) && UniqueSignatures(forest) && t in Trails(forest, []) && t != []
    requires Names(stored, key, SignatureOf(Last(t)))
    ensures var units := RepairedUnits(stored, forest);
      && key in units && units[key].heading == Last(t)
      && PathOf(units, key, source).labels == Labels(Visible(t))
      && StandsFor(stored, PathUnits(units, key), Visible(t))
  {
    StepUp(stored, forest, key, t);
    ClimbSimulates(stored, forest, key, t, {});
  }

  /** The innermost category on the way down to a place. */
  function CategoryHeading(t: seq<Heading>): Option<Heading> {
    if t == [] then None
    else if t[|t| - 1].unitType in CATEGORY_TYPES then Some(t[|t| - 1])
    else CategoryHeading(t[..|t| - 1])
  }

  lemma {:induction false} CategorySimulates(stored: seq<Unit>, path: seq<Unit>, headings: seq<Heading>)
    requires StandsFor(stored, path, headings)
    ensures Category(path).Some? <==> CategoryHeading(headings).Some?
    ensures Category(path).Some? ==> Names(stored, Category(path).value, SignatureOf(CategoryHeading(headings).value))
  {
    if path != [] {
      var n := |path| - 1;
      assert |Headings(path)| == |path| && headings[n] == path[n].heading;
      if path[n].heading.unitType !in CATEGORY_TYPES {
        assert Headings(path[..n]) == headings[..n];
        CategorySimulates(stored, path[..n], headings[..n]);
      }
    }
  }

  /** What `resolve` says of a place: its labels, and the category it is in. */
  ghost predicate TellsPlace(stored: seq<Unit>, path: LegalPath, t: seq<Heading>) {
    && path.labels == Labels(Visible(t))
    && (path.category.Some? <==> CategoryHeading(Visible(t)).Some?)
    && (path.category.Some? ==> Names(stored, path.category.value, SignatureOf(CategoryHeading(Visible(t)).value)))
  }

  lemma PlaceIsTold(stored: seq<Unit>, forest: seq<Node>, key: Key, t: seq<Heading>, source: PathSource)
    requires UniqueIds(stored) && UniqueSignatures(forest) && t in Trails(forest, []) && t != []
    requires Names(stored, key, SignatureOf(Last(t)))
    ensures key in RepairedUnits(stored, forest) && TellsPlace(stored, PathOf(RepairedUnits(stored, forest), key, source), t)
  {
    RepairSimulates(stored, forest, key, t, source);
    CategorySimulates(stored, PathUnits(RepairedUnits(stored, forest), key), Visible(t));
  }

  /** An id, stored or runtime, is resolved after a repair exactly when some place of the rebuilt forest has its
      signature, and then to that place's labels and category. */
  lemma KnownIdResolves(stored: seq<Unit>, forest: seq<Node>, key: Key, s: Signature, source: PathSource)
    requires UniqueIds(stored) && UniqueSignatures(forest) && Names(stored, key, s)
    ensures var path := Resolved(RepairedUnits(stored, forest), Some(key), source);
      && path.Some?
      && (key in RepairedUnits(stored, forest) <==>
            exists t :: t in Trails(forest, []) && t != [] && SignatureOf(Last(t)) == s)
      && forall t | t in Trails(forest, []) && t != [] && SignatureOf(Last(t)) == s :: TellsPlace(stored, path.value, t)
  {
    forall t | t in Trails(forest, []) && t != [] && SignatureOf(Last(t)) == s
      ensures key in RepairedUnits(stored, forest)
      ensures TellsPlace(stored, PathOf(RepairedUnits(stored, forest), key, source), t)
    {
      PlaceIsTold(stored, forest, key, t, source);
    }
    if key in RepairedUnits(stored, forest) {
      if key.Stored? {
        var i :| 0 <= i < |stored| && stored[i].key == key && SignatureOf(stored[i].heading) == s;
        StoredIsPlaced(stored, forest, i);
      } else {
        RuntimeIsPlaced(stored, forest, s);
      }
    }
  }

  lemma RuntimeIsPlaced(stored: seq<Unit>, forest: seq<Node>, s: Signature)
    requires UniqueIds(stored) && Repaired(s) in RepairedUnits(stored, forest)
    ensures exists t :: t in Trails(forest, []) && t != [] && SignatureOf(Last(t)) == s
  {
    var rebuilt := Rebuilt(forest, None);
    ParentsAreKnown(forest);
    MappedFrom(stored, Repaired(s), Available(rebuilt), ByKey(rebuilt), OldKeys(stored));
    var j := ByKeyFrom(rebuilt, Repaired(s));
    RebuiltFits(forest, [], None);
    assert Fits(rebuilt[j], Trails(forest, [])[j]);
    assert Trails(forest, [])[j] in Trails(forest, []);
  }

  lemma StoredIsPlaced(stored: seq<Unit>, forest: seq<Node>, i: nat)
    requires UniqueIds(stored) && i < |stored| && stored[i].key in RepairedUnits(stored, forest)
    ensures exists t :: t in Trails(forest, []) && t != [] && SignatureOf(Last(t)) == SignatureOf(stored[i].heading)
  {
    var rebuilt, s := Rebuilt(forest, None), SignatureOf(stored[i].heading);
    ParentsAreKnown(forest);
    MappedAt(stored, i, Available(rebuilt), ByKey(rebuilt), OldKeys(stored));
    if stored[i].key in ByKey(rebuilt) { ByKeySigned(forest, stored[i].key); }
    var j := AvailableFrom(rebuilt, s);
    RebuiltFits(forest, [], None);
    assert Fits(rebuilt[j], Trails(forest, [])[j]);
    assert Trails(forest, [])[j] in Trails(forest, []);
  }
}
