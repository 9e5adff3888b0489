/**
 * Skill modifier tables: a map from modifier names to values that are
 * either numbers or flags, and the rule by which a skill's modifier is
 * merged into the table.
 */
module Modifiers {

  /** A modifier value: a number or a boolean flag. */
  datatype ModValue = Num(n: real) | Flag(b: bool)

  type ModTable = map<string, ModValue>

  /** JavaScript's coercion of a value used in addition: `true` counts 1, `false` 0. */
  function NumOf(v: ModValue): (r: real)
    ensures v.Num? ==> r == v.n
    ensures v.Flag? ==> (r == 1.0 <==> v.b) && (r == 0.0 <==> !v.b)
  {
    match v
    case Num(n) => n
    case Flag(b) => if b then 1.0 else 0.0
  }

  /**
   * Merge one modifier into a table. A name the table does not hold is
   * ignored; a name holding a flag takes the new value as given; a name
   * holding a number has the new value added to it.
   */
  function Apply(m: ModTable, key: string, value: ModValue): (r: ModTable)
    ensures r.Keys == m.Keys
    ensures forall k :: k in m && k != key ==> r[k] == m[k]
    ensures key in m && m[key].Flag? ==> r[key] == value
    ensures key in m && m[key].Num? ==> r[key] == Num(m[key].n + NumOf(value))
  {
    if key !in m then m
    else match m[key]
      case Flag(_) => m[key := value]
      case Num(n) => m[key := Num(n + NumOf(value))]
  }

  /**
   * `m` has the names of `defaults`, and every name that starts out
   * numeric still holds a number.
   */
  ghost predicate SameShape(m: ModTable, defaults: ModTable) {
    m.Keys == defaults.Keys
    && forall k :: k in defaults && defaults[k].Num? ==> m[k].Num?
  }

  /** Merging a modifier keeps the table's shape: no name appears, none vanishes, numbers stay numbers. */
  lemma ApplyKeepsShape(m: ModTable, defaults: ModTable, key: string, value: ModValue)
    requires SameShape(m, defaults)
    ensures SameShape(Apply(m, key, value), defaults)
  {
  }

  /** Applying the same numeric modifier twice adds it twice. */
  lemma ApplyTwiceAddsTwice(m: ModTable, key: string, v: real)
    requires key in m && m[key].Num?
    ensures Apply(Apply(m, key, Num(v)), key, Num(v))[key] == Num(m[key].n + 2.0 * v)
  {
  }

  /** Numeric modifiers on the same name commute: the order of two additions does not matter. */
  lemma NumericApplyCommutes(m: ModTable, k1: string, v1: real, k2: string, v2: real)
    requires k1 in m && m[k1].Num? && k2 in m && m[k2].Num?
    ensures Apply(Apply(m, k1, Num(v1)), k2, Num(v2)) == Apply(Apply(m, k2, Num(v2)), k1, Num(v1))
  {
    var a := Apply(Apply(m, k1, Num(v1)), k2, Num(v2));
    var b := Apply(Apply(m, k2, Num(v2)), k1, Num(v1));
    forall k | k in a
      ensures a[k] == b[k]
    {
    }
  }
}
