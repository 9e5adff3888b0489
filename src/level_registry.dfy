/**
 * The level registry: the five levels the game plays, in order, and the
 * two lookups by id and by name. The registry lists the forest, the
 * graveyard, the mountains, the volcano and the castle; the ice cave and
 * the sky castle are defined but not registered. Level colours and
 * decorations are drawing data and are not part of the model.
 */
module LevelRegistry {
  import opened Wrappers
  import Input
  import Enemies

  /** One level: its id, display name, background theme and the enemy types of each wave. */
  datatype Level = Level(id: int, name: string, background: string, waves: seq<seq<string>>)

  /** Every level has a wave, every wave an enemy, and every enemy a known type. */
  predicate PlayableLevel(l: Level) {
    && |l.waves| > 0
    && (forall w :: 0 <= w < |l.waves| ==> |l.waves[w]| > 0)
    && (forall w, i :: 0 <= w < |l.waves| && 0 <= i < |l.waves[w]| ==> Enemies.Known(l.waves[w][i]))
  }

  /** A table the level manager can run: not empty, and every level playable. */
  predicate PlayableTable(ls: seq<Level>) {
    |ls| > 0 && forall i :: 0 <= i < |ls| ==> PlayableLevel(ls[i])
  }

  const S := Enemies.Slime
  const G := Enemies.Goblin
  const K := Enemies.Skeleton
  const O := Enemies.Orc
  const D := Enemies.Dragon
  const B := Enemies.BossDragon

  const Forest := Level(1, "The Forest", "forest", [[S, S, S], [S, S, G], [G, G]])
  const Graveyard := Level(2, "The Graveyard", "graveyard", [[K, K], [K, G, G], [K, K, K]])
  const Mountains := Level(3, "The Mountains", "mountains", [[O, G], [O, O], [O, K, K]])
  const IceCave := Level(4, "Frozen Depths", "iceCave", [[S, S, S], [G, S, G], [G, G, K], [O, G, G]])
  const Volcano := Level(5, "Dragon's Lair", "volcano", [[O, O, K], [D], [D, O]])
  const SkyCastle := Level(6, "Sky Citadel", "skyCastle",
                           [[G, G], [K, G, K], [K, K, O], [D, K, K], [D, O, G, G]])
  const Castle := Level(7, "The Final Battle", "castle", [[D, O, O], [D, D], [B]])

  /** The levels in the order they are played. */
  const Registry: seq<Level> := [Forest, Graveyard, Mountains, Volcano, Castle]

  /** The index of the first level with the id, if any. */
  function FirstWithId(ls: seq<Level>, id: int): (r: Option<nat>)
    ensures r.None? <==> forall i :: 0 <= i < |ls| ==> ls[i].id != id
    ensures r.Some? ==> r.value < |ls| && ls[r.value].id == id
    ensures r.Some? ==> forall i :: 0 <= i < r.value ==> ls[i].id != id
  {
    if |ls| == 0 then None
    else if ls[0].id == id then Some(0)
    else
      var rest := FirstWithId(ls[1..], id);
      if rest.None? then None else Some(rest.value + 1)
  }

  /** Names compare with both sides lower-cased. */
  predicate SameName(a: string, b: string) {
    Input.Lower(a) == Input.Lower(b)
  }

  /** The index of the first level whose name matches, ignoring case, if any. */
  function FirstNamed(ls: seq<Level>, name: string): (r: Option<nat>)
    ensures r.None? <==> forall i :: 0 <= i < |ls| ==> !SameName(ls[i].name, name)
    ensures r.Some? ==> r.value < |ls| && SameName(ls[r.value].name, name)
    ensures r.Some? ==> forall i :: 0 <= i < r.value ==> !SameName(ls[i].name, name)
  {
    if |ls| == 0 then None
    else if SameName(ls[0].name, name) then Some(0)
    else
      var rest := FirstNamed(ls[1..], name);
      if rest.None? then None else Some(rest.value + 1)
  }

  /** The first registered level with the id, or nothing when no level has it. */
  function GetLevelById(id: int): (r: Option<Level>)
    ensures r.None? <==> forall i :: 0 <= i < |Registry| ==> Registry[i].id != id
    ensures r.Some? ==> exists i :: (0 <= i < |Registry| && r.value == Registry[i] && r.value.id == id
                                     && forall j :: 0 <= j < i ==> Registry[j].id != id)
  {
    var i := FirstWithId(Registry, id);
    if i.None? then None else Some(Registry[i.value])
  }

  /** The first registered level whose name matches, ignoring case. */
  function GetLevelByName(name: string): (r: Option<Level>)
    ensures r.None? <==> forall i :: 0 <= i < |Registry| ==> !SameName(Registry[i].name, name)
    ensures r.Some? ==> exists i :: (0 <= i < |Registry| && r.value == Registry[i] && SameName(r.value.name, name)
                                     && forall j :: 0 <= j < i ==> !SameName(Registry[j].name, name))
  {
    var i := FirstNamed(Registry, name);
    if i.None? then None else Some(Registry[i.value])
  }

  /** Every registered level can be played: it has waves, and each wave has known enemies. */
  lemma RegistryPlayable()
    ensures PlayableTable(Registry)
  {
    assert PlayableLevel(Forest) && PlayableLevel(Graveyard) && PlayableLevel(Mountains);
    assert PlayableLevel(Volcano) && PlayableLevel(Castle);
  }

  /**
   * The registered ids are 1, 2, 3, 5 and 7, in play order: every one of
   * them finds its own level, and the ice cave's 4 and the sky castle's 6
   * find nothing.
   */
  lemma LookupById(id: int)
    ensures GetLevelById(id).Some? <==> id == 1 || id == 2 || id == 3 || id == 5 || id == 7
    ensures forall i :: 0 <= i < |Registry| && Registry[i].id == id ==> GetLevelById(id) == Some(Registry[i])
  {
    assert Registry[0].id == 1 && Registry[1].id == 2 && Registry[2].id == 3;
    assert Registry[3].id == 5 && Registry[4].id == 7;
  }

  /** Matching names have the same length. */
  lemma SameNameSameLength(a: string, b: string)
    requires SameName(a, b)
    ensures |a| == |b|
  {
    assert |Input.Lower(a)| == |a| && |Input.Lower(b)| == |b|;
  }

  /** Two names that differ only in letter case find the same level, or both find none. */
  lemma NameLookupIsCaseBlind(a: string, b: string)
    requires Input.Lower(a) == Input.Lower(b)
    ensures GetLevelByName(a) == GetLevelByName(b)
  {
    var i, j := FirstNamed(Registry, a), FirstNamed(Registry, b);
    if i.Some? && j.Some? {
      assert !(i.value < j.value) && !(j.value < i.value);
    }
  }

  /** A name in any letter case finds its level; an unregistered level's name finds nothing. */
  lemma NameLookupIgnoresCase()
    ensures GetLevelByName("THE FINAL BATTLE") == Some(Castle)
    ensures GetLevelByName("Frozen Depths").None?
  {
    assert SameName(Registry[4].name, "THE FINAL BATTLE");
    forall i | 0 <= i < 4 && SameName(Registry[i].name, "THE FINAL BATTLE")
      ensures false
    {
      SameNameSameLength(Registry[i].name, "THE FINAL BATTLE");
    }
    var r := GetLevelByName("THE FINAL BATTLE");
    var k :| 0 <= k < |Registry| && r.value == Registry[k] && SameName(r.value.name, "THE FINAL BATTLE");
    assert k == 4;
    assert Input.Lower("Frozen Depths")[0] == 'f';
  }
}
