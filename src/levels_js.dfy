/**
 * The older JavaScript build keeps its level table inline, beside a
 * level manager that is otherwise the same code as the typed one, so the
 * model runs `Levels.LevelManager` over this table. The table lists the
 * same five levels, with the same names, backgrounds and waves, in the
 * same order; only the ids differ: the volcano and the castle are
 * numbered 4 and 5 here, where the typed registry gives them 5 and 7.
 */
module LevelsJs {
  import opened LevelRegistry

  const JsVolcano := Level(4, "Dragon's Lair", "volcano", [[O, O, K], [D], [D, O]])
  const JsCastle := Level(5, "The Final Battle", "castle", [[D, O, O], [D, D], [B]])

  /** The inline table of the older build, in play order. */
  const JsLevels: seq<Level> := [Forest, Graveyard, Mountains, JsVolcano, JsCastle]

  /**
   * The inline table is the registry renumbered: the `i`-th level has id
   * `i + 1` and is otherwise the registry's `i`-th level. The two agree on
   * the ids of the first three levels and on no other.
   */
  lemma JsLevelsRenumberRegistry()
    ensures |JsLevels| == |Registry|
    ensures forall i :: 0 <= i < |JsLevels| ==> JsLevels[i] == Registry[i].(id := i + 1)
    ensures forall i :: 0 <= i < |JsLevels| ==> (JsLevels[i].id == Registry[i].id <==> i < 3)
    ensures PlayableTable(JsLevels)
  {
    RegistryPlayable();
    assert JsLevels[3] == Registry[3].(id := 4) && JsLevels[4] == Registry[4].(id := 5);
  }
}
