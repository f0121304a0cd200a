/** The verification committee: votes collapse to one per model family, and scanners decide before any vote counts. */
module Committee {
  import opened Common

  datatype Verdict = Approve | Reject | Abstain

  datatype Vote = Vote(modelRef: string, family: string, verdict: Verdict, error: string) {
    predicate Counted() {
      error == "" && verdict != Abstain
    }
  }

  datatype Scanner = Scanner(name: string, passed: bool)

  datatype Rule = Majority | Unanimous | AnyRejectBlocks

  datatype Decision = Decision(approved: bool, needsHuman: bool)

  // -- what the votes say, as sets of families -------------------------------------------

  function Families(votes: seq<Vote>): set<string> {
    set v | v in votes && v.Counted() :: v.family
  }

  ghost function Objecting(votes: seq<Vote>): set<string> {
    set v | v in votes && v.Counted() && v.verdict == Reject :: v.family
  }

  ghost predicate ScannersPass(scanners: seq<Scanner>) {
    forall s :: s in scanners ==> s.passed
  }

  /** The decision as a function of the families alone. */
  ghost function Outcome(families: set<string>, objecting: set<string>, scannersPass: bool, rule: Rule,
                         min: int): Decision {
    if !scannersPass then Decision(false, false)
    else if |families| < min then Decision(false, true)
    else if rule != Majority then Decision(objecting == {}, false)
    else Decision(|families - objecting| > |objecting|, |families - objecting| == |objecting|)
  }

  ghost function Decide(votes: seq<Vote>, scanners: seq<Scanner>, rule: Rule, min: int): Decision {
    Outcome(Families(votes), Objecting(votes), ScannersPass(scanners), rule, min)
  }

  // -- the collapse ------------------------------------------------------------------------

  function IndexOf(kept: seq<Vote>, family: string): (i: nat)
    ensures i <= |kept|
    ensures i < |kept| ==> kept[i].family == family
    ensures i == |kept| ==> forall v :: v in kept ==> v.family != family
  {
    if kept == [] then 0
    else
      var init := kept[..|kept| - 1];
      assert kept == init + [kept[|kept| - 1]];
      var i := IndexOf(init, family);
      if i < |init| || kept[|kept| - 1].family == family then i else |kept|
  }

  /** What one vote does to the votes kept so far, one per family in order of first appearance. */
  function Keep(kept: seq<Vote>, v: Vote): seq<Vote> {
    var i := IndexOf(kept, v.family);
    if !v.Counted() then kept
    else if i == |kept| then kept + [v]
    else if kept[i].verdict == Approve && v.verdict == Reject then kept[i := v]
    else kept
  }

  function Collapse(votes: seq<Vote>): seq<Vote> {
    if votes == [] then [] else Keep(Collapse(votes[..|votes| - 1]), votes[|votes| - 1])
  }

  ghost predicate OnePerFamily(kept: seq<Vote>) {
    forall i, j :: 0 <= i < j < |kept| ==> kept[i].family != kept[j].family
  }

  /** The family's kept vote is a vote of that family, and it rejects iff some counted vote of the family does. */
  ghost predicate Represents(kept: seq<Vote>, votes: seq<Vote>) {
    && (forall v :: v in kept ==>
          v in votes && v.error == "" && v.verdict != Abstain && (v.verdict == Reject <==> v.family in Objecting(votes)))
    && (forall f :: f in Families(votes) ==> exists v :: v in kept && v.family == f)
  }

  lemma KeepOnePerFamily(kept: seq<Vote>, v: Vote)
    requires OnePerFamily(kept)
    ensures OnePerFamily(Keep(kept, v))
  {
    var i := IndexOf(kept, v.family);
    if i == |kept| {
      assert forall k :: 0 <= k < |kept| ==> kept[k] in kept;
    }
  }

  lemma FamiliesSnoc(votes: seq<Vote>, v: Vote)
    ensures Families(votes + [v]) == if v.Counted() then Families(votes) + {v.family} else Families(votes)
    ensures Objecting(votes + [v]) ==
            if v.Counted() && v.verdict == Reject then Objecting(votes) + {v.family} else Objecting(votes)
    ensures Objecting(votes) <= Families(votes)
  {
    assert forall x :: x in votes + [v] <==> x in votes || x == v;
  }

  lemma KeepRepresents(kept: seq<Vote>, votes: seq<Vote>, v: Vote)
    requires OnePerFamily(kept) && Represents(kept, votes)
    ensures Represents(Keep(kept, v), votes + [v])
  {
    FamiliesSnoc(votes, v);
    var i, next := IndexOf(kept, v.family), Keep(kept, v);
    forall x | x in next
      ensures x in votes + [v] && x.error == "" && x.verdict != Abstain
      ensures x.verdict == Reject <==> x.family in Objecting(votes + [v])
    {
      var k :| 0 <= k < |next| && next[k] == x;
      if k < |kept| {
        assert kept[k] in kept;
      } else {
        NewFamilyIsClean(kept, votes, v);
      }
    }
    forall f | f in Families(votes + [v]) ensures exists x :: x in next && x.family == f {
      if f in Families(votes) {
        var y :| y in kept && y.family == f;
        var k :| 0 <= k < |kept| && kept[k] == y;
        assert next[k].family == f && next[k] in next;
      } else {
        NewFamilyIsKept(kept, votes, v);
        assert next[|kept|] in next;
      }
    }
  }

  lemma NewFamilyIsKept(kept: seq<Vote>, votes: seq<Vote>, v: Vote)
    requires Represents(kept, votes) && v.Counted() && v.family !in Families(votes)
    ensures IndexOf(kept, v.family) == |kept| && Keep(kept, v) == kept + [v]
  {
  }

  lemma NewFamilyIsClean(kept: seq<Vote>, votes: seq<Vote>, v: Vote)
    requires Represents(kept, votes) && IndexOf(kept, v.family) == |kept|
    ensures v.family !in Objecting(votes)
  {
    FamiliesSnoc(votes, v);
  }

  /** For any votes, in any order: exactly one kept vote per counted family, rejecting iff the family contains a counted
      reject. */
  lemma {:induction false} CollapseRepresents(votes: seq<Vote>)
    ensures OnePerFamily(Collapse(votes)) && Represents(Collapse(votes), votes)
  {
    if votes != [] {
      var init, v := votes[..|votes| - 1], votes[|votes| - 1];
      assert votes == init + [v];
      CollapseRepresents(init);
      KeepOnePerFamily(Collapse(init), v);
      KeepRepresents(Collapse(init), init, v);
    }
  }

  function Count(kept: seq<Vote>, verdict: Verdict): nat {
    if kept == [] then 0
    else Count(kept[..|kept| - 1], verdict) + if kept[|kept| - 1].verdict == verdict then 1 else 0
  }

  ghost function FamiliesVoting(kept: seq<Vote>, verdict: Verdict): set<string> {
    set v | v in kept && v.verdict == verdict :: v.family
  }

  lemma LastIsNew(kept: seq<Vote>, verdict: Verdict)
    requires OnePerFamily(kept) && kept != []
    ensures var init, last := kept[..|kept| - 1], kept[|kept| - 1];
            && OnePerFamily(init) && last.family !in FamiliesVoting(init, verdict)
            && FamiliesVoting(kept, verdict) ==
               if last.verdict == verdict then FamiliesVoting(init, verdict) + {last.family} else FamiliesVoting(init, verdict)
  {
    var init, last := kept[..|kept| - 1], kept[|kept| - 1];
    assert forall x :: x in kept <==> x in init || x == last;
    forall x | x in init ensures x.family != last.family {
      var k :| 0 <= k < |init| && init[k] == x;
      assert kept[k] == x;
    }
  }

  lemma {:induction false} CountIsFamilies(kept: seq<Vote>, verdict: Verdict)
    requires OnePerFamily(kept)
    ensures Count(kept, verdict) == |FamiliesVoting(kept, verdict)|
  {
    if kept == [] {
      assert FamiliesVoting(kept, verdict) == {};
    } else {
      LastIsNew(kept, verdict);
      CountIsFamilies(kept[..|kept| - 1], verdict);
    }
  }

  /** The counts the code compares are the sizes of the family sets. */
  lemma CountsAreSizes(votes: seq<Vote>)
    ensures var kept := Collapse(votes);
            && Count(kept, Reject) == |Objecting(votes)|
            && Count(kept, Approve) == |Families(votes) - Objecting(votes)|
            && Count(kept, Approve) + Count(kept, Reject) == |kept| == |Families(votes)|
  {
    CollapseRepresents(votes);
    KeptFamilies(Collapse(votes), votes);
    KeptCounts(Collapse(votes), Families(votes), Objecting(votes));
  }

  lemma KeptCounts(kept: seq<Vote>, families: set<string>, objecting: set<string>)
    requires OnePerFamily(kept) && forall v :: v in kept ==> v.Counted()
    requires FamiliesVoting(kept, Reject) == objecting <= families && FamiliesVoting(kept, Approve) == families - objecting
    ensures Count(kept, Reject) == |objecting| && Count(kept, Approve) == |families - objecting|
    ensures Count(kept, Approve) + Count(kept, Reject) == |kept| == |families|
  {
    CountIsFamilies(kept, Reject);
    CountIsFamilies(kept, Approve);
    CountsCover(kept);
    assert families == (families - objecting) + objecting;
  }

  lemma KeptFamilies(kept: seq<Vote>, votes: seq<Vote>)
    requires Represents(kept, votes)
    ensures FamiliesVoting(kept, Reject) == Objecting(votes) <= Families(votes)
    ensures FamiliesVoting(kept, Approve) == Families(votes) - Objecting(votes)
  {
    FamiliesSnoc(votes, Vote("", "", Abstain, ""));
    forall f | f in Families(votes)
      ensures f in FamiliesVoting(kept, Reject) <==> f in Objecting(votes)
      ensures f in FamiliesVoting(kept, Approve) <==> f !in Objecting(votes)
    {
      var v :| v in kept && v.family == f;
    }
  }

  lemma {:induction false} CountsCover(kept: seq<Vote>)
    requires forall v :: v in kept ==> v.Counted()
    ensures Count(kept, Approve) + Count(kept, Reject) == |kept|
  {
    if kept != [] {
      assert kept[|kept| - 1] in kept;
      CountsCover(kept[..|kept| - 1]);
    }
  }

  // -- laws of the decision -------------------------------------------------------------------

  /** When a committee approves, and when it leaves the decision to a human: below quorum, or in a tie. */
  lemma ApprovedIff(votes: seq<Vote>, scanners: seq<Scanner>, rule: Rule, min: int)
    ensures Decide(votes, scanners, rule, min).approved <==>
            && ScannersPass(scanners) && |Families(votes)| >= min
            && if rule == Majority then |Families(votes)| > 2 * |Objecting(votes)| else Objecting(votes) == {}
    ensures Decide(votes, scanners, rule, min).needsHuman <==>
            && ScannersPass(scanners)
            && (|Families(votes)| < min || (rule == Majority && |Families(votes)| == 2 * |Objecting(votes)|))
  {
    CountsAreSizes(votes);
  }

  /** Order does not matter, nor how often a vote is repeated. */
  lemma OrderFree(votes: seq<Vote>, other: seq<Vote>, scanners: seq<Scanner>, rule: Rule, min: int)
    requires forall v :: v in votes <==> v in other
    ensures Decide(votes, scanners, rule, min) == Decide(other, scanners, rule, min)
    ensures |Collapse(votes)| == |Collapse(other)|
  {
    assert Families(votes) == Families(other);
    assert Objecting(votes) == Objecting(other);
    CountsAreSizes(votes);
    CountsAreSizes(other);
  }

  /** An extra vote that adds nothing: it abstained or failed, or it approves for a family already represented. */
  ghost predicate Redundant(v: Vote, votes: seq<Vote>) {
    v.error != "" || v.verdict == Abstain || (v.verdict == Approve && v.family in Families(votes))
  }

  /** Clones of a represented family cannot buy an approval, and abstentions cannot block one. */
  lemma CloneResistant(votes: seq<Vote>, extra: seq<Vote>, scanners: seq<Scanner>, rule: Rule, min: int)
    requires forall v :: v in extra ==> Redundant(v, votes)
    ensures Decide(votes + extra, scanners, rule, min) == Decide(votes, scanners, rule, min)
  {
    assert forall v :: v in votes + extra <==> v in votes || v in extra;
    assert Families(votes + extra) == Families(votes);
    assert Objecting(votes + extra) == Objecting(votes);
  }

  /** With a quorum, one more reject never turns a refusal into an approval, and one failed scanner always refuses. */
  lemma RejectsNeverApprove(votes: seq<Vote>, v: Vote, scanners: seq<Scanner>, rule: Rule, min: int)
    requires v.Counted() && v.verdict == Reject && |Families(votes)| >= min
    ensures Decide(votes + [v], scanners, rule, min).approved ==> Decide(votes, scanners, rule, min).approved
    ensures rule != Majority ==> !Decide(votes + [v], scanners, rule, min).approved
  {
    AddingRejectApprovesIff(votes, v, scanners, rule, min);
    FamiliesSnoc(votes, v);
    assert v.family in Objecting(votes + [v]);
  }

  lemma FailedScannerRefuses(votes: seq<Vote>, scanners: seq<Scanner>, s: Scanner, rule: Rule, min: int)
    requires s in scanners && !s.passed
    ensures Decide(votes, scanners, rule, min) == Decision(false, false)
  {
  }

  /** The exact condition under which an extra reject does produce an approval: below quorum, under the majority rule, it
      can be the very vote that makes the quorum. */
  lemma AddingRejectApprovesIff(votes: seq<Vote>, v: Vote, scanners: seq<Scanner>, rule: Rule, min: int)
    requires v.Counted() && v.verdict == Reject
    ensures !Decide(votes, scanners, rule, min).approved && Decide(votes + [v], scanners, rule, min).approved <==>
            && rule == Majority && ScannersPass(scanners)
            && v.family !in Families(votes) && |Families(votes)| + 1 == min
            && |Families(votes)| > 2 * |Objecting(votes)| + 1
  {
    FamiliesSnoc(votes, v);
    ApprovedIff(votes, scanners, rule, min);
    ApprovedIff(votes + [v], scanners, rule, min);
    assert v.family in Objecting(votes + [v]);
    if v.family in Objecting(votes) {
      assert Objecting(votes) + {v.family} == Objecting(votes);
    }
    if v.family in Families(votes) {
      assert Families(votes) + {v.family} == Families(votes);
    }
  }

  /** An input that shows it: two approvals are not a quorum of three, but a third family's reject makes them one. */
  lemma RejectMakesTheQuorum(approve1: Vote, approve2: Vote, reject: Vote)
    requires approve1.Counted() && approve2.Counted() && reject.Counted()
    requires approve1.verdict == Approve && approve2.verdict == Approve && reject.verdict == Reject
    requires approve1.family != approve2.family && approve2.family != reject.family && reject.family != approve1.family
    ensures Decide([approve1, approve2], [], Majority, 3) == Decision(false, true)
    ensures Decide([approve1, approve2] + [reject], [], Majority, 3) == Decision(true, false)
  {
    hide Families, Objecting;
    TwoApprovals(approve1, approve2);
    FamiliesSnoc([approve1, approve2], reject);
    var two, one := {approve1.family, approve2.family}, {reject.family};
    assert |two| == 2 && |two + one| == 3;
    assert {} + one == one && two + one - one == two && two - {} == two;
    assert ScannersPass([]);
  }

  lemma TwoApprovals(a: Vote, b: Vote)
    requires a.Counted() && b.Counted() && a.verdict == Approve && b.verdict == Approve && a.family != b.family
    ensures Families([a, b]) == {a.family, b.family} && Objecting([a, b]) == {}
  {
    FamiliesSnoc([], a);
    FamiliesSnoc([a], b);
    assert [] + [a] == [a] && [a] + [b] == [a, b];
  }

  // -- the committee object -------------------------------------------------------------------

  class CommitteeResult {
    var votes: seq<Vote>
    const scanners: seq<Scanner>
    const rule: Rule
    const minFamilies: int
    var approved: bool
    var needsHuman: bool

    constructor (scanners: seq<Scanner>, rule: Rule, minFamilies: int)
      ensures votes == [] && !approved && !needsHuman
      ensures this.scanners == scanners && this.rule == rule && this.minFamilies == minFamilies
    {
      this.votes, this.scanners, this.rule, this.minFamilies := [], scanners, rule, minFamilies;
      approved, needsHuman := false, false;
    }

    /** One vote per family, keeping the least favourable of each, in order of first appearance. */
    method IndependentVotes() returns (kept: seq<Vote>)
      ensures kept == Collapse(votes)
    {
      var order: seq<string>, byFamily: map<string, Vote> := [], map[];
      for i := 0 to |votes|
        invariant Listed(order, byFamily) && InOrder(order, byFamily) == Collapse(votes[..i])
      {
        assert votes[..i + 1][..i] == votes[..i];
        var v := votes[i];
        if v.Counted() {
          DictionaryKeeps(order, byFamily, v);
          if v.family !in byFamily {
            order, byFamily := order + [v.family], byFamily[v.family := v];
          } else if byFamily[v.family].verdict == Approve && v.verdict == Reject {
            byFamily := byFamily[v.family := v];
          }
        }
      }
      assert votes[..|votes|] == votes;
      kept := InOrder(order, byFamily);
    }

    method AnyScannerFailed() returns (failed: bool)
      ensures failed <==> !ScannersPass(scanners)
    {
      for i := 0 to |scanners|
        invariant forall j :: 0 <= j < i ==> scanners[j].passed
      {
        if !scanners[i].passed {
          return true;
        }
      }
      failed := false;
    }

    /** Combine the votes; scanners come first and are decisive. */
    method Conclude()
      modifies this`approved, this`needsHuman
      ensures Decision(approved, needsHuman) == Decide(votes, scanners, rule, minFamilies)
      ensures forall s :: s in scanners && !s.passed ==> !approved && !needsHuman
    {
      forall s | s in scanners && !s.passed ensures Decide(votes, scanners, rule, minFamilies) == Decision(false, false) {
        FailedScannerRefuses(votes, scanners, s, rule, minFamilies);
      }
      CountsAreSizes(votes);
      approved, needsHuman := false, false;
      var failed := AnyScannerFailed();
      if failed {
        return;
      }
      var independent := IndependentVotes();
      if |Families(votes)| < minFamilies {
        needsHuman := true;
        return;
      }
      var rejects, approves := Count(independent, Reject), Count(independent, Approve);
      match rule
      case AnyRejectBlocks => approved := rejects == 0;
      case Unanimous => approved := rejects == 0 && approves == |independent|;
      case Majority =>
        approved := approves > rejects;
        if approves == rejects {
          approved, needsHuman := false, true;
        }
    }
  }

  /** A dictionary that remembers insertion order: each key once. */
  predicate Listed(order: seq<string>, byFamily: map<string, Vote>) {
    && (forall i, j :: 0 <= i < j < |order| ==> order[i] != order[j])
    && (forall f :: f in order ==> f in byFamily && byFamily[f].family == f)
    && (forall f :: f in byFamily ==> f in order)
  }

  function InOrder(order: seq<string>, byFamily: map<string, Vote>): (kept: seq<Vote>)
    requires forall f :: f in order ==> f in byFamily
    ensures |kept| == |order| && forall i :: 0 <= i < |order| ==> kept[i] == byFamily[order[i]]
  {
    seq(|order|, i requires 0 <= i < |order| => byFamily[order[i]])
  }

  lemma KeyIsIndexed(order: seq<string>, byFamily: map<string, Vote>, family: string)
    requires Listed(order, byFamily)
    ensures var i := IndexOf(InOrder(order, byFamily), family);
            if family in byFamily then i < |order| && order[i] == family else i == |order|
  {
    var kept := InOrder(order, byFamily);
    var i := IndexOf(kept, family);
    if i == |order| {
      forall k | 0 <= k < |order| ensures order[k] != family {
        assert kept[k] in kept;
      }
    } else {
      assert kept[i].family == order[i];
    }
  }

  /** Updating the dictionary is keeping the vote. */
  lemma DictionaryKeeps(order: seq<string>, byFamily: map<string, Vote>, v: Vote)
    requires Listed(order, byFamily) && v.Counted()
    ensures var kept := InOrder(order, byFamily);
            if v.family !in byFamily then
              Listed(order + [v.family], byFamily[v.family := v])
              && InOrder(order + [v.family], byFamily[v.family := v]) == Keep(kept, v)
            else if byFamily[v.family].verdict == Approve && v.verdict == Reject then
              Listed(order, byFamily[v.family := v]) && InOrder(order, byFamily[v.family := v]) == Keep(kept, v)
            else Keep(kept, v) == kept
  {
    KeyIsIndexed(order, byFamily, v.family);
  }
}
