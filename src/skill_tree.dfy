/**
 * The skill tree: the set of unlocked skill ids (kept in insertion order,
 * as a JavaScript `Set` iterates), the unlock rules, and saving and
 * restoring the set together with the modifiers it grants.
 */
module SkillTree {
  import opened Wrappers
  import opened Modifiers
  import opened SkillData
  import opened Stats

  /** The answer of `canUnlock`: allowed, or the first reason it is not. */
  datatype Verdict =
    | Allowed
    | AlreadyUnlocked
    | NeedPoints(tier: nat)
    /** The prerequisite is missing; `name` is its display name, absent for an unknown id. */
    | Requires(name: Option<string>)

  predicate NoDup(s: seq<string>) {
    forall i, j :: 0 <= i < j < |s| ==> s[i] != s[j]
  }

  /** The distinct elements of `s` in order of first occurrence: `new Set(s)`. */
  function Dedup(s: seq<string>): (r: seq<string>)
    ensures NoDup(r)
    ensures forall x :: x in r <==> x in s
    ensures |r| <= |s|
  {
    if s == [] then []
    else
      var d := Dedup(s[..|s| - 1]);
      var last := s[|s| - 1];
      assert forall x :: x in s <==> x in s[..|s| - 1] || x == last by {
        assert s == s[..|s| - 1] + [last];
      }
      if last in d then d else d + [last]
  }

  /** The position where `x` first occurs in `s`. */
  function FirstIndex(s: seq<string>, x: string): (k: nat)
    requires x in s
    ensures k < |s| && s[k] == x
    ensures forall i :: 0 <= i < k ==> s[i] != x
  {
    if s[0] == x then 0 else 1 + FirstIndex(s[1..], x)
  }

  /** A value that occurs in a prefix first occurs where it first occurs in the prefix. */
  lemma FirstIndexInPrefix(s: seq<string>, n: nat, x: string)
    requires n <= |s| && x in s[..n]
    ensures FirstIndex(s, x) == FirstIndex(s[..n], x)
  {
    var a, b := FirstIndex(s, x), FirstIndex(s[..n], x);
    assert s[b] == x;
    assert a <= b;
    assert s[..n][a] == x;
  }

  /**
   * `Dedup` lists the distinct values in the order of their first
   * occurrence, which is the order a `Set` built from `s` iterates in.
   */
  lemma {:induction false} DedupInFirstOccurrenceOrder(s: seq<string>)
    ensures forall i, j :: 0 <= i < j < |Dedup(s)| ==> FirstIndex(s, Dedup(s)[i]) < FirstIndex(s, Dedup(s)[j])
  {
    if s != [] {
      var n := |s| - 1;
      var init, last := s[..n], s[n];
      DedupInFirstOccurrenceOrder(init);
      var d := Dedup(init);
      forall x | x in d
        ensures FirstIndex(s, x) == FirstIndex(init, x) < n
      {
        FirstIndexInPrefix(s, n, x);
      }
      if last !in d {
        assert last !in init;
        assert FirstIndex(s, last) == n;
        assert Dedup(s) == d + [last];
      }
    }
  }

  /** Without repeats there is nothing to drop. */
  lemma {:induction false} DedupKeepsDistinct(s: seq<string>)
    requires NoDup(s)
    ensures Dedup(s) == s
  {
    if s != [] {
      DedupKeepsDistinct(s[..|s| - 1]);
      assert s == s[..|s| - 1] + [s[|s| - 1]];
    }
  }

  /** A repeat-free sequence has as many elements as the set of its elements. */
  lemma {:induction false} DistinctCount(s: seq<string>)
    requires NoDup(s)
    ensures |set x | x in s| == |s|
  {
    if s != [] {
      var init := s[..|s| - 1];
      DistinctCount(init);
      assert (set x | x in s) == (set x | x in init) + {s[|s| - 1]} by {
        assert s == init + [s[|s| - 1]];
      }
    }
  }

  /** Whether restoring `id` reaches table `m`: it names a catalogue skill whose modifier `m` holds. */
  predicate Grants(m: ModTable, id: string) {
    GetSkillById(id).Some? && GetSkillById(id).value.modifier.key in m
  }

  /** The table after restoring one id: the named catalogue skill's modifier is applied, an unknown id is ignored. */
  function ApplyId(m: ModTable, id: string): (r: ModTable)
    ensures r.Keys == m.Keys
    ensures !Grants(m, id) ==> r == m
  {
    match GetSkillById(id)
    case None => m
    case Some(skill) => Apply(m, skill.modifier.key, skill.modifier.value)
  }

  /** The modifier table after restoring every id of `ids`, in order. */
  function ApplyIds(m: ModTable, ids: seq<string>): (r: ModTable)
    ensures r.Keys == m.Keys
  {
    if ids == [] then m
    else ApplyId(ApplyIds(m, ids[..|ids| - 1]), ids[|ids| - 1])
  }

  /** Whether restoring some id of `ids` reaches table `m`. */
  predicate Touches(m: ModTable, ids: seq<string>) {
    ids != [] && (Touches(m, ids[..|ids| - 1]) || Grants(m, ids[|ids| - 1]))
  }

  /** Restoring reaches the table exactly when one of the ids does. */
  lemma {:induction false} TouchesSomeId(m: ModTable, ids: seq<string>)
    ensures Touches(m, ids) <==> exists id :: id in ids && Grants(m, id)
  {
    if ids != [] {
      var init := ids[..|ids| - 1];
      var last := ids[|ids| - 1];
      TouchesSomeId(m, init);
      assert ids == init + [last];
      assert forall id :: id in ids <==> id in init || id == last;
    }
  }

  /** Applying the ids keeps the table's shape. */
  lemma {:induction false} ApplyIdsKeepsShape(m: ModTable, defaults: ModTable, ids: seq<string>)
    requires SameShape(m, defaults) && HasRecalcKeys(m)
    ensures SameShape(ApplyIds(m, ids), defaults) && HasRecalcKeys(ApplyIds(m, ids))
  {
    if ids != [] {
      var before := ApplyIds(m, ids[..|ids| - 1]);
      ApplyIdsKeepsShape(m, defaults, ids[..|ids| - 1]);
      assert ApplyIds(m, ids) == ApplyId(before, ids[|ids| - 1]);
      match GetSkillById(ids[|ids| - 1])
      case None =>
      case Some(skill) =>
        ApplyKeepsShape(before, defaults, skill.modifier.key, skill.modifier.value);
        ApplyKeepsRecalcKeys(before, skill.modifier.key, skill.modifier.value);
    }
  }

  /**
   * Restoring a list that repeats a skill with a numeric modifier adds that
   * modifier once per occurrence.
   */
  lemma RepeatedIdAppliesTwice(m: ModTable, skill: Skill)
    requires skill in Skills
    requires skill.modifier.key in m && m[skill.modifier.key].Num? && skill.modifier.value.Num?
    ensures ApplyIds(m, [skill.id, skill.id])[skill.modifier.key]
         == Num(m[skill.modifier.key].n + 2.0 * skill.modifier.value.n)
  {
    LookupFindsSkill(skill);
    assert [skill.id, skill.id][..1] == [skill.id];
    assert [skill.id][..0] == [];
    var once := Apply(m, skill.modifier.key, skill.modifier.value);
    assert ApplyIds(m, [skill.id]) == ApplyId(m, skill.id) == once;
    assert ApplyIds(m, [skill.id, skill.id]) == ApplyId(once, skill.id);
  }

  class SkillTree {
    var unlockedSkills: seq<string>

    ghost predicate Valid()
      reads this
    {
      NoDup(unlockedSkills)
    }

    constructor()
      ensures Valid() && unlockedSkills == []
    {
      unlockedSkills := [];
    }

    /**
     * An unlocked skill is refused first, then a skill costing more points
     * than available, then one whose (non-empty) prerequisite is not
     * unlocked; anything else is allowed.
     */
    function CanUnlock(skill: Skill, availablePoints: int): (v: Verdict)
      reads this
      ensures v.Allowed? <==>
        skill.id !in unlockedSkills && availablePoints >= skill.tier
        && (Truthy(skill.prerequisite) ==> skill.prerequisite.value in unlockedSkills)
      ensures v.AlreadyUnlocked? <==> skill.id in unlockedSkills
      ensures v.NeedPoints? <==> skill.id !in unlockedSkills && availablePoints < skill.tier
      ensures v.NeedPoints? ==> v.tier == skill.tier
      ensures v.Requires? ==>
        Truthy(skill.prerequisite) && skill.prerequisite.value !in unlockedSkills
        && (v.name.Some? <==> GetSkillById(skill.prerequisite.value).Some?)
        && (v.name.Some? ==> v.name.value == GetSkillById(skill.prerequisite.value).value.name)
    {
      if skill.id in unlockedSkills then AlreadyUnlocked
      else if availablePoints < skill.tier then NeedPoints(skill.tier)
      else if Truthy(skill.prerequisite) && skill.prerequisite.value !in unlockedSkills then
        match GetSkillById(skill.prerequisite.value)
        case None => Requires(None)
        case Some(p) => Requires(Some(p.name))
      else Allowed
    }

    /**
     * Unlock when allowed: pay the tier in skill points, record the id and
     * apply the skill's modifier. A refused unlock changes nothing.
     */
    method Unlock(skill: Skill, stats: PlayerStats) returns (ok: bool)
      requires Valid() && stats.Valid()
      modifies this, stats
      ensures Valid() && stats.Valid()
      ensures ok <==> old(CanUnlock(skill, stats.skillPoints)).Allowed?
      ensures !ok ==> unchanged(this) && unchanged(stats)
      ensures ok ==> unlockedSkills == old(unlockedSkills) + [skill.id]
      ensures ok ==> stats.skillPoints == old(stats.skillPoints) - skill.tier
      ensures ok ==> stats.skillModifiers == Apply(old(stats.skillModifiers), skill.modifier.key, skill.modifier.value)
      ensures ok && skill.modifier.key in old(stats.skillModifiers) ==>
        stats.Calculated() == Recalculated(stats.skillModifiers, stats.equipment, stats.level)
      ensures ok && skill.modifier.key !in old(stats.skillModifiers) ==> stats.Calculated() == old(stats.Calculated())
      ensures stats.equipment == old(stats.equipment) && stats.level == old(stats.level)
      ensures stats.exp == old(stats.exp) && stats.expToNextLevel == old(stats.expToNextLevel)
      ensures stats.gold == old(stats.gold)
    {
      var check := CanUnlock(skill, stats.skillPoints);
      if !check.Allowed? {
        return false;
      }
      stats.skillPoints := stats.skillPoints - skill.tier;
      unlockedSkills := unlockedSkills + [skill.id];
      stats.ApplySkillModifier(skill.modifier.key, skill.modifier.value);
      ok := true;
    }

    function IsUnlocked(skillId: string): (b: bool)
      reads this
      ensures b <==> skillId in unlockedSkills
    {
      skillId in unlockedSkills
    }

    /** The number of unlocked skills: the size of the set. */
    function GetUnlockedCount(): (n: nat)
      reads this
      requires Valid()
      ensures n == |set x | x in unlockedSkills|
    {
      DistinctCount(unlockedSkills);
      |unlockedSkills|
    }

    /** The unlocked ids in the order they were unlocked. */
    function Serialize(): (r: seq<string>)
      reads this
      requires Valid()
      ensures NoDup(r) && forall x :: x in r <==> IsUnlocked(x)
    {
      unlockedSkills
    }

    /**
     * Restore a saved list: the unlocked set becomes the distinct ids, and
     * the modifier of every catalogue skill in the list (repeats included)
     * is applied to the stats, in order.
     */
    method Deserialize(skillIds: seq<string>, stats: PlayerStats)
      requires stats.Valid()
      modifies this, stats
      ensures Valid() && stats.Valid()
      ensures unlockedSkills == Dedup(skillIds)
      ensures stats.skillModifiers == ApplyIds(old(stats.skillModifiers), skillIds)
      ensures Touches(old(stats.skillModifiers), skillIds) ==>
        stats.Calculated() == Recalculated(stats.skillModifiers, stats.equipment, stats.level)
      ensures !Touches(old(stats.skillModifiers), skillIds) ==> stats.Calculated() == old(stats.Calculated())
      ensures stats.equipment == old(stats.equipment) && stats.level == old(stats.level)
      ensures stats.exp == old(stats.exp) && stats.expToNextLevel == old(stats.expToNextLevel)
      ensures stats.gold == old(stats.gold) && stats.skillPoints == old(stats.skillPoints)
    {
      unlockedSkills := Dedup(skillIds);
      var i := 0;
      while i < |skillIds|
        modifies stats
        invariant 0 <= i <= |skillIds|
        invariant stats.Valid()
        invariant stats.skillModifiers == ApplyIds(old(stats.skillModifiers), skillIds[..i])
        invariant Touches(old(stats.skillModifiers), skillIds[..i]) ==>
          stats.Calculated() == Recalculated(stats.skillModifiers, stats.equipment, stats.level)
        invariant !Touches(old(stats.skillModifiers), skillIds[..i]) ==> stats.Calculated() == old(stats.Calculated())
        invariant stats.equipment == old(stats.equipment) && stats.level == old(stats.level)
        invariant stats.exp == old(stats.exp) && stats.expToNextLevel == old(stats.expToNextLevel)
        invariant stats.gold == old(stats.gold) && stats.skillPoints == old(stats.skillPoints)
      {
        assert skillIds[..i + 1][..i] == skillIds[..i];
        RestoreModifier(skillIds[i], stats);
        i := i + 1;
      }
      assert skillIds[..i] == skillIds;
    }

    method Reset()
      modifies this
      ensures Valid() && unlockedSkills == []
    {
      unlockedSkills := [];
    }
  }

  /** Apply the modifier of the catalogue skill `id` names, if any; one step of `deserialize`. */
  method RestoreModifier(id: string, stats: PlayerStats)
    requires stats.Valid()
    modifies stats
    ensures stats.Valid()
    ensures stats.skillModifiers == ApplyId(old(stats.skillModifiers), id)
    ensures Grants(old(stats.skillModifiers), id) ==>
      stats.Calculated() == Recalculated(stats.skillModifiers, stats.equipment, stats.level)
    ensures !Grants(old(stats.skillModifiers), id) ==> stats.Calculated() == old(stats.Calculated())
    ensures stats.equipment == old(stats.equipment) && stats.level == old(stats.level)
    ensures stats.exp == old(stats.exp) && stats.expToNextLevel == old(stats.expToNextLevel)
    ensures stats.gold == old(stats.gold) && stats.skillPoints == old(stats.skillPoints)
  {
    var skill := GetSkillById(id);
    if skill.Some? {
      stats.ApplySkillModifier(skill.value.modifier.key, skill.value.modifier.value);
    }
  }

  /**
   * Saving and restoring gives back the same unlocked set, and on stats
   * that start from table `m` the same modifiers the unlocks produced.
   */
  lemma SerializeRoundTrip(unlocked: seq<string>, m: ModTable)
    requires NoDup(unlocked)
    ensures Dedup(unlocked) == unlocked
    ensures ApplyIds(m, Dedup(unlocked)) == ApplyIds(m, unlocked)
  {
    DedupKeepsDistinct(unlocked);
  }

  /**
   * Unlocking a catalogue skill applies the same modifier as restoring its
   * id after the earlier ones, so stats built by unlocks match stats
   * rebuilt from the saved list.
   */
  lemma UnlockMatchesRestore(m: ModTable, ids: seq<string>, skill: Skill)
    requires skill in Skills
    ensures ApplyIds(m, ids + [skill.id]) == Apply(ApplyIds(m, ids), skill.modifier.key, skill.modifier.value)
  {
    LookupFindsSkill(skill);
    assert (ids + [skill.id])[..|ids|] == ids;
    assert ApplyIds(m, ids + [skill.id]) == ApplyId(ApplyIds(m, ids), skill.id);
  }
}
