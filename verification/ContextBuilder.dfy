/** The greedy context builder (app/context/service.py). The token counter and the texts of blocks, bodies and group
    headings are arbitrary functions; the input is the already validated candidates. */
module ContextBuilder {

  import opened Wrappers
  import opened EvidenceGroups

  const SEPARATOR := "\n\n---\n\n"

  datatype StopReason = NoStop | TokenBudget | TopEvidenceExceedsContextBudget

  datatype Selected = Selected(candidate: Candidate, source: nat, tokenCount: nat)

  datatype Package = Package(
    contextText: string, selected: seq<Selected>, tokenCount: nat, candidateCount: nat, duplicateCount: nat,
    droppedCount: int, budgetExhausted: bool, stopReason: StopReason)

  datatype BuildError = InvalidBudget | InconsistentCount | ExceedsBudget

  /** The presentation of evidence; `heading` is None for an item without a path. */
  datatype Renderer = Renderer(
    block: (Candidate, nat) -> string, body: (Candidate, nat) -> string, heading: (nat, Candidate) -> Option<string>)

  // ---------- the texts ----------

  function Piece(cs: seq<Candidate>, r: Renderer, k: nat): string
    requires k < |cs|
  {
    var block := r.block(cs[k], k + 1);
    if k == 0 then block else SEPARATOR + block
  }

  /** The first `n` candidates as ungrouped context. */
  function Text(cs: seq<Candidate>, r: Renderer, n: nat): string
    requires n <= |cs|
  {
    if n == 0 then "" else Text(cs, r, n - 1) + Piece(cs, r, n - 1)
  }

  function JoinedWith(parts: seq<string>): string {
    if parts == [] then ""
    else if |parts| == 1 then parts[0]
    else JoinedWith(parts[..|parts| - 1]) + SEPARATOR + parts[|parts| - 1]
  }

  function Bodies(items: seq<Item>, r: Renderer): seq<string> {
    seq(|items|, i requires 0 <= i < |items| => r.body(items[i].candidate, items[i].source))
  }

  function Blocks(items: seq<Item>, r: Renderer): seq<string> {
    seq(|items|, i requires 0 <= i < |items| => r.block(items[i].candidate, items[i].source))
  }

  /** What one group adds to the output. */
  function GroupParts(group: Group, number: nat, r: Renderer): seq<string>
    requires group.items != []
  {
    var heading := r.heading(number, group.items[0].candidate);
    if |group.items| > 1 && heading.Some? then [heading.value, JoinedWith(Bodies(group.items, r))]
    else [JoinedWith(Blocks(group.items, r))]
  }

  function AllParts(groups: seq<Group>, r: Renderer): seq<string>
    requires forall g | g in groups :: g.items != []
  {
    if groups == [] then []
    else AllParts(groups[..|groups| - 1], r) + GroupParts(groups[|groups| - 1], |groups|, r)
  }

  function Evidence(cs: seq<Candidate>, n: nat): seq<Item>
    requires n <= |cs|
  {
    seq(n, i requires 0 <= i < n => Item(cs[i], i + 1))
  }

  /** The selection's grouped presentation. */
  function GroupedText(cs: seq<Candidate>, r: Renderer, n: nat): string
    requires n <= |cs|
  {
    var groups := GroupsOf(Evidence(cs, n));
    GroupsNotEmpty(Evidence(cs, n), groups);
    JoinedWith(AllParts(groups, r))
  }

  /** What is presented: the grouped text exactly when more than one is selected and it counts no more. */
  function Presented(cs: seq<Candidate>, r: Renderer, count: string -> nat, n: nat): string
    requires n <= |cs|
  {
    if n > 1 && count(GroupedText(cs, r, n)) <= count(Text(cs, r, n)) then GroupedText(cs, r, n) else Text(cs, r, n)
  }

  // ---------- the selection ----------

  /** The accumulated count: that of the text so far, and 0 before anything is selected. */
  function Accumulated(cs: seq<Candidate>, r: Renderer, count: string -> nat, n: nat): nat
    requires n <= |cs|
  {
    if n == 0 then 0 else count(Text(cs, r, n))
  }

  /** Candidate `n` still fits behind the first `n`. */
  predicate Admitted(cs: seq<Candidate>, r: Renderer, count: string -> nat, budget: int, n: nat)
    requires n < |cs|
  {
    && Accumulated(cs, r, count, n) + count(Piece(cs, r, n)) <= budget
    && count(Text(cs, r, n + 1)) <= budget
  }

  /** How many are selected: up to the first that does not fit. */
  function Chosen(cs: seq<Candidate>, r: Renderer, count: string -> nat, budget: int, from: nat := 0): (n: nat)
    requires from <= |cs|
    ensures from <= n <= |cs|
    ensures forall k | from <= k < n :: Admitted(cs, r, count, budget, k)
    ensures n < |cs| ==> !Admitted(cs, r, count, budget, n)
    decreases |cs| - from
  {
    if from == |cs| || !Admitted(cs, r, count, budget, from) then from else Chosen(cs, r, count, budget, from + 1)
  }

  lemma ChosenIs(cs: seq<Candidate>, r: Renderer, count: string -> nat, budget: int, n: nat)
    requires n <= |cs| && (forall k | 0 <= k < n :: Admitted(cs, r, count, budget, k))
    requires n < |cs| ==> !Admitted(cs, r, count, budget, n)
    ensures Chosen(cs, r, count, budget) == n
  {
    hide Admitted, Chosen;
  }

  lemma Begins(cs: seq<Candidate>, r: Renderer, count: string -> nat)
    ensures Text(cs, r, 0) == "" && Accumulated(cs, r, count, 0) == 0
  {
  }

  lemma Extends(cs: seq<Candidate>, r: Renderer, count: string -> nat, budget: int, n: nat)
    requires n < |cs|
    ensures Piece(cs, r, n) == if n == 0 then r.block(cs[n], n + 1) else SEPARATOR + r.block(cs[n], n + 1)
    ensures Text(cs, r, n + 1) == Text(cs, r, n) + Piece(cs, r, n)
    ensures Accumulated(cs, r, count, n + 1) == count(Text(cs, r, n + 1))
    ensures Admitted(cs, r, count, budget, n) <==>
      Accumulated(cs, r, count, n) + count(Piece(cs, r, n)) <= budget && count(Text(cs, r, n + 1)) <= budget
  {
  }

  lemma AdmittedMore(cs: seq<Candidate>, r: Renderer, count: string -> nat, budget: int, budget': int, k: nat)
    requires budget <= budget' && k < |cs| && Admitted(cs, r, count, budget, k)
    ensures Admitted(cs, r, count, budget', k)
  {
  }

  /** A larger budget only extends the selection. */
  lemma BudgetExtends(cs: seq<Candidate>, r: Renderer, count: string -> nat, budget: int, budget': int)
    requires budget <= budget'
    ensures Chosen(cs, r, count, budget) <= Chosen(cs, r, count, budget')
    ensures cs[..Chosen(cs, r, count, budget)] <= cs[..Chosen(cs, r, count, budget')]
  {
    hide Admitted, Chosen;
    var n := Chosen(cs, r, count, budget);
    forall k: nat | k < n ensures Admitted(cs, r, count, budget', k) {
      assert Admitted(cs, r, count, budget, k);
      AdmittedMore(cs, r, count, budget, budget', k);
    }
  }

  // ---------- the service ----------

  /** What a successful build returns, for the candidates `cs` left after deduplication and key assignment. */
  ghost predicate IsPackage(package: Package, cs: seq<Candidate>, candidateCount: nat, r: Renderer,
                            count: string -> nat, budget: int)
  {
    var n := Chosen(cs, r, count, budget);
    && |package.selected| == n
    && (forall k | 0 <= k < n ::
          package.selected[k] == Selected(cs[k], k + 1, count(r.block(cs[k], k + 1))))
    && package.contextText == Presented(cs, r, count, n)
    && package.tokenCount == count(package.contextText) <= budget
    && package.candidateCount == candidateCount
    && package.duplicateCount == candidateCount - |cs|
    && package.droppedCount == candidateCount - n
    && (package.budgetExhausted <==> n < |cs|)
    && package.stopReason ==
         if n == |cs| then NoStop else if n == 0 then TopEvidenceExceedsContextBudget else TokenBudget
  }

  class ContextBuilderService {
    const count: string -> nat
    const normalize: string -> string
    const renderer: Renderer

    constructor (count: string -> nat, normalize: string -> string, renderer: Renderer)
      ensures this.count == count && this.normalize == normalize && this.renderer == renderer
    {
      this.count, this.normalize, this.renderer := count, normalize, renderer;
    }

    /** A build fails for a budget that is not positive, and otherwise only when nothing fits and the counter counts
        something in the empty text; the package of any other is exact and within its budget. */
    method Build(candidates: seq<Candidate>, budget: int) returns (result: Result<Package, BuildError>)
      ensures var cs := AllKeyed(Kept(candidates, normalize));
        && (result.Err? <==> budget <= 0 || (count("") != 0 && Chosen(cs, renderer, count, budget) == 0))
        && (result.Ok? ==> IsPackage(result.value, cs, |candidates|, renderer, count, budget))
    {
      hide AllKeyed, Kept, Admitted, GroupedText;
      var kept, duplicates := DeduplicateCandidates(candidates, normalize);
      var cs := WithCategoryKeys(kept);
      SameLength(kept);
      if budget <= 0 {
        return Err(InvalidBudget);
      }
      var selected, text, accumulated, exhausted, stopReason := Select(cs, budget);
      if count(text) != accumulated {
        return Err(InconsistentCount);
      }
      var contextText := Present(cs, selected, text);
      var exact := count(contextText);
      if exact > budget {
        return Err(ExceedsBudget);
      }
      result := Ok(Package(contextText, selected, exact, |candidates|, duplicates, |candidates| - |selected|,
                           exhausted, stopReason));
    }

    method Present(ghost cs: seq<Candidate>, selected: seq<Selected>, text: string) returns (contextText: string)
      requires |selected| <= |cs| && text == Text(cs, renderer, |selected|)
      requires forall k | 0 <= k < |selected| :: selected[k].candidate == cs[k] && selected[k].source == k + 1
      ensures contextText == Presented(cs, renderer, count, |selected|)
    {
      contextText := text;
      if |selected| > 1 {
        var evidence := seq(|selected|, i requires 0 <= i < |selected| => Item(selected[i].candidate, selected[i].source));
        assert evidence == Evidence(cs, |selected|);
        var grouped := FormatGroupedEvidence(cs, |selected|, evidence);
        if count(grouped) <= count(text) {
          contextText := grouped;
        }
      }
    }

    /** The greedy loop. */
    method Select(cs: seq<Candidate>, budget: int)
      returns (selected: seq<Selected>, text: string, accumulated: nat, exhausted: bool, stopReason: StopReason)
      ensures var n := Chosen(cs, renderer, count, budget);
        && |selected| == n && text == Text(cs, renderer, n) && accumulated == Accumulated(cs, renderer, count, n)
        && (forall k | 0 <= k < n :: selected[k] == Selected(cs[k], k + 1, count(renderer.block(cs[k], k + 1))))
        && (n > 0 ==> accumulated <= budget)
        && (exhausted <==> n < |cs|)
        && stopReason == if n == |cs| then NoStop else if n == 0 then TopEvidenceExceedsContextBudget else TokenBudget
    {
      hide Admitted, Text, Piece, Accumulated, Chosen;
      selected, text, accumulated, exhausted, stopReason := [], "", 0, false, NoStop;
      Begins(cs, renderer, count);
      for i := 0 to |cs|
        invariant |selected| == i && !exhausted && stopReason == NoStop
        invariant text == Text(cs, renderer, i) && accumulated == Accumulated(cs, renderer, count, i)
        invariant i > 0 ==> accumulated <= budget
        invariant forall k | 0 <= k < i :: selected[k] == Selected(cs[k], k + 1, count(renderer.block(cs[k], k + 1)))
        invariant forall k | 0 <= k < i :: Admitted(cs, renderer, count, budget, k)
      {
        var source := |selected| + 1;
        var block := renderer.block(cs[i], source);
        var piece := if |selected| == 0 then block else SEPARATOR + block;
        var prospective := text + piece;
        Extends(cs, renderer, count, budget, i);
        if accumulated + count(piece) > budget || count(prospective) > budget {
          exhausted := true;
          stopReason := if |selected| == 0 then TopEvidenceExceedsContextBudget else TokenBudget;
          ChosenIs(cs, renderer, count, budget, i);
          return;
        }
        text := prospective;
        accumulated := count(prospective);
        selected := selected + [Selected(cs[i], source, count(block))];
      }
      ChosenIs(cs, renderer, count, budget, |cs|);
    }

    method FormatGroupedEvidence(ghost cs: seq<Candidate>, ghost n: nat, evidence: seq<Item>) returns (text: string)
      requires n <= |cs| && evidence == Evidence(cs, n)
      ensures text == GroupedText(cs, renderer, n)
    {
      var groups := GroupEvidence(evidence);
      GroupedIs(evidence, groups);
      GroupsNotEmpty(evidence, groups);
      var output: seq<string> := [];
      for number := 0 to |groups|
        invariant output == AllParts(groups[..number], renderer)
      {
        var items := groups[number].items;
        PartsStep(groups, number, renderer);
        var heading := renderer.heading(number + 1, items[0].candidate);
        if |items| > 1 && heading.Some? {
          output := output + [heading.value, JoinedWith(Bodies(items, renderer))];
        } else {
          output := output + [JoinedWith(Blocks(items, renderer))];
        }
      }
      assert groups[..|groups|] == groups;
      text := JoinedWith(output);
    }
  }

  lemma SameLength(cs: seq<Candidate>)
    ensures |AllKeyed(cs)| == |cs|
  {
  }

  lemma PartsStep(groups: seq<Group>, number: nat, r: Renderer)
    requires number < |groups| && forall g | g in groups :: g.items != []
    ensures groups[number].items != []
    ensures AllParts(groups[..number + 1], r) == AllParts(groups[..number], r) + GroupParts(groups[number], number + 1, r)
  {
    assert groups[..number + 1][..number] == groups[..number];
  }

  lemma GroupsNotEmpty(evidence: seq<Item>, groups: seq<Group>)
    requires Grouped(evidence, groups)
    ensures forall g | g in groups :: g.items != []
  {
    forall i | 0 <= i < |groups| ensures groups[i].items != [] {
      HavingNone(evidence, groups[i].key);
    }
  }
}
