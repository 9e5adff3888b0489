/**
 * The skill catalogue: nine skills in three branches of three tiers, each
 * tier-2 and tier-3 skill requiring the previous one of its branch, and
 * each carrying one modifier for the player's modifier table. Lookup by
 * branch (sorted by tier) and by id.
 */
module SkillData {
  import opened Wrappers
  import opened Modifiers
  import Stats

  datatype Branch = Combat | Defense | Utility

  datatype Modifier = Modifier(key: string, value: ModValue)

  /** A skill; its description and icon are display text and are not modelled. */
  datatype Skill = Skill(
    id: string, name: string, branch: Branch, tier: nat,
    prerequisite: Option<string>, modifier: Modifier)

  const PowerStrike := Skill("power_strike", "Power Strike", Combat, 1, None, Modifier("damageMult", Num(0.15)))
  const CriticalEdge := Skill("critical_edge", "Critical Edge", Combat, 2, Some("power_strike"), Modifier("critChanceBonus", Num(0.10)))
  const Berserker := Skill("berserker", "Berserker Rage", Combat, 3, Some("critical_edge"), Modifier("berserkerMode", Flag(true)))
  const ToughSkin := Skill("tough_skin", "Tough Skin", Defense, 1, None, Modifier("healthMult", Num(0.20)))
  const IronWill := Skill("iron_will", "Iron Will", Defense, 2, Some("tough_skin"), Modifier("defenseMult", Num(0.30)))
  const SecondWind := Skill("second_wind", "Second Wind", Defense, 3, Some("iron_will"), Modifier("secondWind", Flag(true)))
  const SwiftFeet := Skill("swift_feet", "Swift Feet", Utility, 1, None, Modifier("speedMult", Num(0.15)))
  const DoubleJump := Skill("double_jump", "Double Jump", Utility, 2, Some("swift_feet"), Modifier("doubleJump", Flag(true)))
  const GoldRush := Skill("gold_rush", "Gold Rush", Utility, 3, Some("double_jump"), Modifier("goldMult", Num(0.75)))

  /** The catalogue, in its declared order. */
  const Skills: seq<Skill> := [PowerStrike, CriticalEdge, Berserker, ToughSkin, IronWill,
                               SecondWind, SwiftFeet, DoubleJump, GoldRush]

  /** The skills of one branch, in catalogue order. */
  function OfBranch(s: seq<Skill>, b: Branch): (r: seq<Skill>)
    ensures |r| <= |s|
  {
    if s == [] then []
    else if s[0].branch == b then [s[0]] + OfBranch(s[1..], b)
    else OfBranch(s[1..], b)
  }

  /** The branch filter keeps exactly the skills of that branch. */
  lemma {:induction false} OfBranchMembers(s: seq<Skill>, b: Branch)
    ensures forall x :: x in OfBranch(s, b) <==> x in s && x.branch == b
  {
    if s != [] {
      OfBranchMembers(s[1..], b);
      assert s == [s[0]] + s[1..];
    }
  }

  ghost predicate SortedByTier(s: seq<Skill>) {
    forall i, j :: 0 <= i < j < |s| ==> s[i].tier <= s[j].tier
  }

  /** Put `x` into a sequence after every leading skill of tier at most its own. */
  function InsertByTier(x: Skill, s: seq<Skill>): (r: seq<Skill>)
    ensures |r| == |s| + 1
  {
    if s == [] || x.tier < s[0].tier then [x] + s
    else [s[0]] + InsertByTier(x, s[1..])
  }

  /** Inserting adds exactly `x` to the multiset of skills. */
  lemma {:induction false} InsertByTierAdds(x: Skill, s: seq<Skill>)
    ensures multiset(InsertByTier(x, s)) == multiset(s) + multiset{x}
  {
    if s != [] && x.tier >= s[0].tier {
      InsertByTierAdds(x, s[1..]);
      assert s == [s[0]] + s[1..];
    }
  }

  /** Inserting into a tier-sorted sequence keeps it sorted and adds exactly `x`. */
  lemma {:induction false} InsertByTierSorts(x: Skill, s: seq<Skill>)
    requires SortedByTier(s)
    ensures SortedByTier(InsertByTier(x, s))
    ensures multiset(InsertByTier(x, s)) == multiset(s) + multiset{x}
  {
    InsertByTierAdds(x, s);
    if s != [] && x.tier >= s[0].tier {
      var rest := InsertByTier(x, s[1..]);
      InsertByTierSorts(x, s[1..]);
      forall y | y in rest ensures s[0].tier <= y.tier {
        InsertByTierAdds(x, s[1..]);
        assert y in multiset(rest);
        if y != x {
          assert y in multiset(s[1..]);
        }
      }
      assert InsertByTier(x, s) == [s[0]] + rest;
    }
  }

  /**
   * The stable sort by ascending tier: each skill is inserted after all
   * earlier skills of equal or lower tier, so equal tiers keep their order.
   */
  function SortByTier(s: seq<Skill>): (r: seq<Skill>)
    ensures |r| == |s|
  {
    if s == [] then []
    else InsertByTier(s[|s| - 1], SortByTier(s[..|s| - 1]))
  }

  /** The sort returns a tier-sorted permutation of its input. */
  lemma SortByTierSorts(s: seq<Skill>)
    ensures SortedByTier(SortByTier(s))
    ensures multiset(SortByTier(s)) == multiset(s)
  {
    SortByTierSorted(s);
    SortByTierPermutes(s);
  }

  lemma {:induction false} SortByTierSorted(s: seq<Skill>)
    ensures SortedByTier(SortByTier(s))
  {
    if s != [] {
      var init, last := s[..|s| - 1], s[|s| - 1];
      SortByTierSorted(init);
      InsertByTierSorts(last, SortByTier(init));
    }
  }

  lemma {:induction false} SortByTierPermutes(s: seq<Skill>)
    ensures multiset(SortByTier(s)) == multiset(s)
  {
    if s != [] {
      var init, last := s[..|s| - 1], s[|s| - 1];
      SortByTierPermutes(init);
      InsertKeepsPermutation(s, init, last, SortByTier(init));
    }
  }

  lemma InsertKeepsPermutation(s: seq<Skill>, init: seq<Skill>, last: Skill, sortedInit: seq<Skill>)
    requires s == init + [last] && multiset(sortedInit) == multiset(init)
    ensures multiset(InsertByTier(last, sortedInit)) == multiset(s)
  {
    InsertByTierAdds(last, sortedInit);
  }

  /** The skills of a branch, lowest tier first. */
  function GetSkillsByBranch(b: Branch): (r: seq<Skill>)
    ensures SortedByTier(r)
    ensures multiset(r) == multiset(OfBranch(Skills, b))
    ensures forall x :: x in r <==> x in Skills && x.branch == b
  {
    SortByTierSorts(OfBranch(Skills, b));
    OfBranchMembers(Skills, b);
    var r := SortByTier(OfBranch(Skills, b));
    assert forall x :: x in r <==> x in multiset(OfBranch(Skills, b));
    r
  }

  /** The first skill of `s` with the given id. */
  function FindById(s: seq<Skill>, id: string): (r: Option<Skill>)
    ensures r.None? <==> forall x :: x in s ==> x.id != id
    ensures r.Some? ==> (r.value.id == id
      && exists i :: 0 <= i < |s| && s[i] == r.value && forall j :: 0 <= j < i ==> s[j].id != id)
  {
    if s == [] then None
    else if s[0].id == id then Some(s[0])
    else
      var r := FindById(s[1..], id);
      if r.Some? then
        var i :| 0 <= i < |s[1..]| && s[1..][i] == r.value && forall j :: 0 <= j < i ==> s[1..][j].id != id;
        assert s[i + 1] == r.value && forall j :: 0 <= j < i + 1 ==> s[j].id != id;
        r
      else r
  }

  /** The catalogue skill with the given id, if any. */
  function GetSkillById(id: string): (r: Option<Skill>)
    ensures r.Some? ==> r.value.id == id
  {
    FindById(Skills, id)
  }

  /** The lookup fails exactly for ids no skill has, and otherwise returns a catalogue skill. */
  lemma GetSkillByIdFinds(id: string)
    ensures GetSkillById(id).None? <==> forall x :: x in Skills ==> x.id != id
    ensures GetSkillById(id).Some? ==> GetSkillById(id).value in Skills
  {
    var r := FindById(Skills, id);
    if r.Some? {
      var i :| 0 <= i < |Skills| && Skills[i] == r.value && forall j :: 0 <= j < i ==> Skills[j].id != id;
    }
  }

  /** No two skills share an id. */
  lemma IdsUnique(i: nat, j: nat)
    requires i < j < |Skills|
    ensures Skills[i].id != Skills[j].id
  {
  }

  /** Looking up a skill's id returns that skill. */
  lemma LookupFindsSkill(x: Skill)
    requires x in Skills
    ensures GetSkillById(x.id) == Some(x)
  {
    var k :| 0 <= k < |Skills| && Skills[k] == x;
    forall i | 0 <= i < k
      ensures Skills[i].id != x.id
    {
      IdsUnique(i, k);
    }
    FindFirst(Skills, k);
  }

  /** In a sequence whose first `k` ids differ from the id at `k`, the lookup finds position `k`. */
  lemma {:induction false} FindFirst(s: seq<Skill>, k: nat)
    requires k < |s|
    requires forall i :: 0 <= i < k ==> s[i].id != s[k].id
    ensures FindById(s, s[k].id) == Some(s[k])
  {
    if k > 0 {
      assert s[1..][k - 1] == s[k];
      FindFirst(s[1..], k - 1);
    }
  }

  /** A run of three skills of one branch is kept whole by its own branch and dropped by the others. */
  lemma OfBranchTriple(x: Skill, y: Skill, z: Skill, br: Branch)
    requires x.branch == y.branch == z.branch
    ensures OfBranch([x, y, z], br) == if x.branch == br then [x, y, z] else []
  {
    assert [x, y, z][1..] == [y, z];
    assert [y, z][1..] == [z];
    assert [z][1..] == [];
    assert OfBranch([z], br) == if x.branch == br then [z] else [];
    assert OfBranch([y, z], br) == if x.branch == br then [y, z] else [];
  }

  /** The catalogue's skills of each branch, in catalogue order. */
  lemma BranchMembers(br: Branch)
    ensures OfBranch(Skills, br) ==
      OfBranch([PowerStrike, CriticalEdge, Berserker], br)
      + OfBranch([ToughSkin, IronWill, SecondWind], br)
      + OfBranch([SwiftFeet, DoubleJump, GoldRush], br)
  {
    var c := [PowerStrike, CriticalEdge, Berserker];
    var d := [ToughSkin, IronWill, SecondWind];
    var u := [SwiftFeet, DoubleJump, GoldRush];
    assert Skills == c + (d + u);
    OfBranchAppend(c, d + u, br);
    OfBranchAppend(d, u, br);
  }

  lemma {:induction false} OfBranchAppend(a: seq<Skill>, b: seq<Skill>, br: Branch)
    ensures OfBranch(a + b, br) == OfBranch(a, br) + OfBranch(b, br)
  {
    if a == [] {
      assert a + b == b;
    } else {
      assert (a + b)[0] == a[0];
      assert (a + b)[1..] == a[1..] + b;
      OfBranchAppend(a[1..], b, br);
    }
  }

  /** Sorting a sequence already in ascending tier order leaves it as it is. */
  lemma SortKeepsSorted(a: Skill, b: Skill, c: Skill)
    requires a.tier < b.tier < c.tier
    ensures SortByTier([a, b, c]) == [a, b, c]
  {
    assert [a, b, c][..2] == [a, b];
    assert [a, b][..1] == [a];
    assert [a][..0] == [];
    assert SortByTier([a]) == InsertByTier(a, []) == [a];
    assert [a][1..] == [];
    assert InsertByTier(b, [a]) == [a] + InsertByTier(b, []) == [a, b];
    assert SortByTier([a, b]) == [a, b];
    assert [a, b][1..] == [b];
    assert [b][1..] == [];
    assert InsertByTier(c, [b]) == [b] + InsertByTier(c, []) == [b, c];
    assert InsertByTier(c, [a, b]) == [a] + InsertByTier(c, [b]) == [a, b, c];
  }

  /** The catalogue's skills of one branch, in catalogue order. */
  function BranchList(br: Branch): seq<Skill> {
    match br
    case Combat => [PowerStrike, CriticalEdge, Berserker]
    case Defense => [ToughSkin, IronWill, SecondWind]
    case Utility => [SwiftFeet, DoubleJump, GoldRush]
  }

  lemma OfBranchIsBranchList(br: Branch)
    ensures OfBranch(Skills, br) == BranchList(br)
  {
    BranchMembers(br);
    OfBranchTriple(PowerStrike, CriticalEdge, Berserker, br);
    OfBranchTriple(ToughSkin, IronWill, SecondWind, br);
    OfBranchTriple(SwiftFeet, DoubleJump, GoldRush, br);
  }

  /** Each branch holds exactly one skill per tier 1, 2 and 3, listed lowest first. */
  lemma BranchesHaveThreeTiers(br: Branch)
    ensures GetSkillsByBranch(br) == BranchList(br)
  {
    OfBranchIsBranchList(br);
    var l := BranchList(br);
    SortKeepsSorted(l[0], l[1], l[2]);
    assert l == [l[0], l[1], l[2]];
  }

  /**
   * Tier-1 skills have no prerequisite; every other skill requires the
   * skill of its own branch one tier lower.
   */
  lemma PrerequisitesChainWithinBranch(x: Skill)
    requires x in Skills
    ensures x.prerequisite.None? <==> x.tier == 1
    ensures x.prerequisite.Some? ==>
      var p := GetSkillById(x.prerequisite.value);
      p.Some? && p.value.branch == x.branch && p.value.tier == x.tier - 1
  {
    if x == CriticalEdge { LookupFindsSkill(PowerStrike); }
    else if x == Berserker { LookupFindsSkill(CriticalEdge); }
    else if x == IronWill { LookupFindsSkill(ToughSkin); }
    else if x == SecondWind { LookupFindsSkill(IronWill); }
    else if x == DoubleJump { LookupFindsSkill(SwiftFeet); }
    else if x == GoldRush { LookupFindsSkill(DoubleJump); }
  }

  /** Only berserkerMode, secondWind and doubleJump are set by flags; the other six modifiers are numbers. */
  lemma FlagModifiersAreTheAbilities(x: Skill)
    requires x in Skills
    ensures x.modifier.value.Flag? <==> x.modifier.key in {"berserkerMode", "secondWind", "doubleJump"}
  {
  }

  /**
   * Every modifier names an entry of the TypeScript modifier table of the
   * same kind, so unlocking any skill there changes the table.
   */
  lemma ModifiersMatchTable(x: Skill)
    requires x in Skills
    ensures x.modifier.key in Stats.ModifierDefaults
    ensures x.modifier.value.Flag? <==> Stats.ModifierDefaults[x.modifier.key].Flag?
  {
  }
}
