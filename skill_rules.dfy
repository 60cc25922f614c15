/**
 The skill side of the character builder: invested points per skill (a missing
 entry means 0), the skill-point budget that Intelligence grants, the total a
 skill displays, and the sum of all invested points that the skill operations
 conserve together with the remaining budget.
 */
module SkillRules {
  import opened AttributeRules

  /**
   An entry of the skill table: a skill and the attribute whose modifier it
   adds. The table itself is a parameter of whatever uses it.
   */
  datatype Skill = Skill(name: string, governing: Attr)

  /** Points the user has put into `skill`; a skill never touched counts as 0. */
  function PointsIn(points: map<string, int>, skill: string): (p: int)
    ensures skill !in points ==> p == 0
    ensures skill in points ==> p == points[skill]
  {
    if skill in points then points[skill] else 0
  }

  /**
   The skill points granted by an Intelligence score: 10 plus four times its
   modifier, that is, 10 plus twice the distance from 10 rounded down to a
   multiple of 4.
   */
  function SkillBudget(intelligence: int): (b: int)
    ensures (b - 10) % 4 == 0
    ensures b - 10 <= 2 * (intelligence - 10) < b - 6
  {
    10 + 4 * Modifier(intelligence)
  }

  /** The total shown for a skill: its invested points plus the governing modifier. */
  function SkillTotal(points: map<string, int>, a: Attributes, s: Skill): (t: int)
    ensures var bonus := t - PointsIn(points, s.name);
      2 * bonus <= Get(a, s.governing) - 10 < 2 * bonus + 2
  {
    PointsIn(points, s.name) + Modifier(Get(a, s.governing))
  }

  /** The sum of all invested points, over every key of the map. */
  ghost function TotalInvested(points: map<string, int>): int
    decreases |points|
  {
    if points == map[] then 0
    else
      var k :| k in points;
      assert |points - {k}| == |points| - 1 by { assert (points - {k}).Keys == points.Keys - {k}; }
      points[k] + TotalInvested(points - {k})
  }

  /** The sum does not depend on which key the definition takes out first. */
  lemma {:induction false} TotalInvestedRemove(points: map<string, int>, k: string)
    requires k in points
    ensures TotalInvested(points) == points[k] + TotalInvested(points - {k})
    decreases |points|
  {
    var j :| j in points && TotalInvested(points) == points[j] + TotalInvested(points - {j});
    if j != k {
      assert (points - {j}).Keys == points.Keys - {j};
      assert (points - {k}).Keys == points.Keys - {k};
      TotalInvestedRemove(points - {j}, k);
      TotalInvestedRemove(points - {k}, j);
      assert points - {j} - {k} == points - {k} - {j};
    }
  }

  /** Writing `v` under `k` changes the sum by `v` minus what `k` held before. */
  lemma TotalInvestedUpdate(points: map<string, int>, k: string, v: int)
    ensures TotalInvested(points[k := v]) == TotalInvested(points) - PointsIn(points, k) + v
  {
    TotalInvestedRemove(points[k := v], k);
    if k in points {
      TotalInvestedRemove(points, k);
      assert points[k := v] - {k} == points - {k};
    } else {
      assert points[k := v] - {k} == points;
    }
  }

  /**
   Investing `change` more points in `s.name` raises that skill's total by
   `change` and leaves the total of every skill with another name as it was.
   */
  lemma SkillTotalAfterInvest(points: map<string, int>, a: Attributes, s: Skill, t: Skill, change: int)
    ensures var after := points[s.name := PointsIn(points, s.name) + change];
      && SkillTotal(after, a, s) == SkillTotal(points, a, s) + change
      && (t.name != s.name ==> SkillTotal(after, a, t) == SkillTotal(points, a, t))
  {
  }

  /**
   A change to an attribute that does not govern a skill leaves the skill's
   total as it was.
   */
  lemma SkillTotalIgnoresOtherAttributes(points: map<string, int>, a: Attributes, s: Skill, name: Attr, change: int)
    requires name != s.governing
    ensures SkillTotal(points, ChangeAttribute(a, name, change), s) == SkillTotal(points, a, s)
  {
  }
}
