/**
 The builder component's state and the steps that change it. The component
 keeps three pieces of state: the attribute scores, the points invested per
 skill, and the skill points still available. Each setter call of the
 component is a method here, run to completion before the next one; the
 reactive recomputation of the skill budget is an explicit last step of every
 method that can change Intelligence.
 */
module App {
  import opened AttributeRules
  import opened SkillRules
  import opened Persistence

  class Character {
    var attributes: Attributes
    var skillPoints: map<string, int>
    var remainingPoints: int

    /** All scores at 10, nothing invested, the budget that Intelligence 10 grants. */
    constructor ()
      ensures attributes == Default && skillPoints == map[]
      ensures remainingPoints == SkillBudget(Default.intelligence) == 10
      ensures WithinBudget(attributes)
    {
      attributes := Default;
      skillPoints := map[];
      remainingPoints := SkillBudget(Default.intelligence);
    }

    /**
     The Intelligence-dependent reset: when Intelligence differs from its value
     before the step, the remaining skill points are overwritten with the
     budget of the new score. Points already invested are not subtracted.
     */
    method ResetSkillBudget(previousIntelligence: int)
      modifies this`remainingPoints
      ensures attributes.intelligence != previousIntelligence ==> remainingPoints == SkillBudget(attributes.intelligence)
      ensures attributes.intelligence == previousIntelligence ==> remainingPoints == old(remainingPoints)
    {
      if attributes.intelligence != previousIntelligence {
        remainingPoints := SkillBudget(attributes.intelligence);
      }
    }

    /**
     A press of an attribute's +/- control: the scores become
     ChangeAttribute of the old scores, skill points stay, and the skill budget
     is reset exactly when Intelligence actually changed value.
     */
    method UpdateAttribute(name: Attr, change: int)
      modifies this`attributes, this`remainingPoints
      ensures attributes == ChangeAttribute(old(attributes), name, change)
      ensures attributes.intelligence != old(attributes.intelligence) ==> remainingPoints == SkillBudget(attributes.intelligence)
      ensures attributes.intelligence == old(attributes.intelligence) ==> remainingPoints == old(remainingPoints)
      ensures name != Intelligence ==> remainingPoints == old(remainingPoints)
      ensures old(WithinBudget(attributes)) ==> WithinBudget(attributes)
    {
      var previous := attributes.intelligence;
      if Total(attributes) + change <= AttributeCap {
        attributes := Set(attributes, name, Max(0, Get(attributes, name) + change));
      }
      ResetSkillBudget(previous);
      if old(WithinBudget(attributes)) {
        ChangeAttributeKeepsBudget(old(attributes), name, change);
      }
    }

    /**
     A press of a skill's +/- control. It is accepted when the remaining points
     minus `change` are not negative; the skill's invested points (0 when
     absent, with no floor) then grow by `change` and the remaining points
     shrink by it. Either way remaining plus invested points is conserved.
     */
    method UpdateSkillPoints(skill: string, change: int)
      modifies this`skillPoints, this`remainingPoints
      ensures old(remainingPoints) - change >= 0 ==>
        && skillPoints == old(skillPoints)[skill := PointsIn(old(skillPoints), skill) + change]
        && remainingPoints == old(remainingPoints) - change
      ensures old(remainingPoints) - change < 0 ==>
        skillPoints == old(skillPoints) && remainingPoints == old(remainingPoints)
      ensures remainingPoints + TotalInvested(skillPoints) == old(remainingPoints + TotalInvested(skillPoints))
      ensures remainingPoints >= 0 || remainingPoints == old(remainingPoints)
    {
      if remainingPoints - change >= 0 {
        TotalInvestedUpdate(skillPoints, skill, PointsIn(skillPoints, skill) + change);
        skillPoints := skillPoints[skill := PointsIn(skillPoints, skill) + change];
        remainingPoints := remainingPoints - change;
      }
    }

    /**
     Applying a decoded load response: the sheet becomes Merge of the old
     sheet, and the skill budget is reset when the loaded Intelligence differs
     from the current one. Nothing is validated and the remaining points are
     never derived from the loaded skill points.
     */
    method Load(data: Response)
      modifies this`attributes, this`skillPoints, this`remainingPoints
      ensures Sheet(attributes, skillPoints) == Merge(old(Sheet(attributes, skillPoints)), data)
      ensures attributes.intelligence != old(attributes.intelligence) ==> remainingPoints == SkillBudget(attributes.intelligence)
      ensures attributes.intelligence == old(attributes.intelligence) ==> remainingPoints == old(remainingPoints)
    {
      var previous := attributes.intelligence;
      var body := Unwrap(data);
      if body.attributes.Some? {
        attributes := body.attributes.value;
      }
      if body.skillPoints.Some? {
        skillPoints := body.skillPoints.value;
      }
      ResetSkillBudget(previous);
    }
  }

  /**
   From the default sheet (total 60) ten increments of Strength are accepted,
   the last one reaching the cap of 70; the eleventh is rejected.
   */
  method StrengthCapScenario()
  {
    var c := new Character();
    var i := 0;
    while i < 10
      invariant 0 <= i <= 10
      invariant c.attributes == Attributes(10 + i, 10, 10, 10, 10, 10)
      invariant Total(c.attributes) == 60 + i
    {
      c.UpdateAttribute(Strength, 1);
      i := i + 1;
    }
    assert RemainingAttributePoints(c.attributes) == 0;
    c.UpdateAttribute(Strength, 1);
    assert c.attributes.strength == 20;
  }

  /**
   With Intelligence 10 all ten skill points go into one skill; lowering
   Intelligence to 8 resets the remaining points to the new budget of 6
   without taking back the ten invested, so a further increment is accepted.
   */
  method ShrinkingBudgetScenario(skill: string)
  {
    var c := new Character();
    c.UpdateSkillPoints(skill, 10);
    assert c.remainingPoints == 0;
    c.UpdateAttribute(Intelligence, -1);
    assert c.attributes.intelligence == 9 && c.remainingPoints == 6;
    c.UpdateAttribute(Intelligence, -1);
    assert c.attributes.intelligence == 8 && c.remainingPoints == 6;
    assert c.skillPoints[skill] == 10;
    c.UpdateSkillPoints(skill, 1);
    assert c.skillPoints[skill] == 11 && c.remainingPoints == 5;
  }

  /**
   The reset fires on any change of Intelligence, up as well as down, and
   never subtracts what is invested. Raising Intelligence from 10 to 11 and
   lowering it back each refill the remaining points to 10, so every toggle
   lets ten more points be invested: here one skill ends with 30.
   */
  method IntelligenceToggleScenario(skill: string)
  {
    var c := new Character();
    c.UpdateSkillPoints(skill, 10);
    assert c.remainingPoints == 0;
    c.UpdateAttribute(Intelligence, 1);
    assert c.attributes.intelligence == 11 && c.remainingPoints == 10;
    c.UpdateSkillPoints(skill, 10);
    assert c.skillPoints[skill] == 20 && c.remainingPoints == 0;
    c.UpdateAttribute(Intelligence, -1);
    assert c.attributes.intelligence == 10 && c.remainingPoints == 10;
    c.UpdateSkillPoints(skill, 10);
    assert c.skillPoints[skill] == 30 && c.remainingPoints == 0;
  }

  /**
   A response whose envelope carries attributes but no skill points replaces
   the scores and leaves the invested points as they were. Investing points
   never changes a class's eligibility.
   */
  method LoadWithoutSkillPointsScenario(skill: string, loaded: Attributes, req: Attributes)
  {
    var c := new Character();
    var eligible := Eligible(c.attributes, req);
    c.UpdateSkillPoints(skill, 1);
    assert Eligible(c.attributes, req) == eligible;
    var before := c.skillPoints;
    c.Load(Response(Some(Payload(Some(loaded), None)), Payload(None, None)));
    assert c.attributes == loaded && c.skillPoints == before;
  }
}
