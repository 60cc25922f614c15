# Character builder: point allocation and eligibility

This project models the rules of a single-page character builder. The user
spreads a 70-point pool over six attributes (Strength, Dexterity,
Constitution, Intelligence, Wisdom, Charisma). They also spend a skill-point
budget derived from Intelligence. The builder shows which character classes the
current scores qualify for, and it can load a saved sheet from a remote store.

The component state is modelled as the class `App.Character`. It has the
component's three state fields: `attributes`, `skillPoints` and
`remainingPoints`. Each state-changing handler is a method:

- `UpdateAttribute`
- `UpdateSkillPoints`
- `Load`, which merges a decoded load response

The reactive recomputation of the skill budget, which happens when
Intelligence changes, is an explicit last step (`ResetSkillBudget`). It runs
in every method that can change Intelligence. The pure rules are functions and
lemmas in three modules:

- `AttributeRules`: the modifier, the reduce-sum over the attribute list, the
  attribute change, remaining attribute points and class eligibility.
- `SkillRules`: invested points, the skill budget, the displayed skill total
  and the sum of invested points.
- `Persistence`: unwrapping the response envelope and merging a response into
  the sheet.

The skill table (skill name → governing attribute) and the class requirement
table come from a module that is not part of this model. So they are
parameters: a `Skill` value, or a `map<string, Attributes>` of requirements.

Behaviour of the code worth knowing, all kept in the model:

- The skill budget is reset on any change of Intelligence, up or down. The
  reset overwrites the remaining skill points with the new budget. It does not
  subtract what is already invested. After Intelligence drops from 10 to 8
  with ten points invested, 6 points remain and further increments are
  accepted (`App.ShrinkingBudgetScenario`). Raising Intelligence and lowering
  it back refills the remaining points each time, so total investment has no
  bound (`App.IntelligenceToggleScenario` ends with 30 points in one skill).
- Invested skill points have no floor at 0. Pressing "-" on an untouched skill
  records -1.
- Load checks neither that the scores are non-negative nor that they total at
  most 70. The attribute invariant is therefore kept by `UpdateAttribute`, and
  is not an invariant of the whole component.

## Model

| member | source | states |
|---|---|---|
| AttributeRules.Set | src/App.tsx:30-33 | the copied record holds the new score under the named attribute and the old score under every other one |
| AttributeRules.Modifier | src/App.tsx:17-19 | the modifier m is floor((score-10)/2), characterised as 2m <= score-10 < 2m+2, so scores below 10 round down |
| AttributeRules.ModifierBoundaries | src/App.tsx:17-19 | modifier(10)=0, modifier(11)=0, modifier(9)=-1, modifier(8)=-1, modifier(0)=-5 |
| AttributeRules.ModifierMonotonic | src/App.tsx:17-19 | a higher score never has a lower modifier |
| AttributeRules.SumOverAttributeList | src/App.tsx:28 | the left-fold `reduce` over the attribute list, starting at 0, adds up exactly the six scores, each once |
| AttributeRules.Total | src/App.tsx:111 | the sum of the attribute values (the `reduce` of lines 28 and 111) equals strength + dexterity + constitution + intelligence + wisdom + charisma |
| AttributeRules.TotalAfterSet | src/App.tsx:28-33 | replacing one score changes the total by the new score minus the old one |
| AttributeRules.RemainingAttributePoints | src/App.tsx:111-112 | remaining attribute points plus the six scores make 70 |
| AttributeRules.RemainingWithinBudget | src/App.tsx:111-112 | with no negative score, remaining points are at most 70, and they are non-negative iff the sheet is within budget |
| AttributeRules.ChangeAttribute | src/App.tsx:26-37 | if total + raw change exceeds 70 the record is unchanged; otherwise the named score becomes max(0, old + change); every other score is unchanged |
| AttributeRules.ChangeAttributeKeepsBudget | src/App.tsx:28-33 | if all scores are >= 0 and total <= 70 before a change, both still hold after it |
| AttributeRules.ChangeAttributeTotal | src/App.tsx:28-33 | an accepted change moves the total by the raw change unless the clamp fires, in which case the total drops by exactly the old score |
| AttributeRules.NegativeScoreCanBreakCap | src/App.tsx:31-33 | from a sheet with a negative score and total 69 an increment passes the raw-change check but the clamp makes the total 74 |
| AttributeRules.MeetsAll | src/App.tsx:142-144 | `every` over a list of names holds iff each listed attribute's score is >= its requirement; the recursive definition is proved against this index-wise statement |
| AttributeRules.EligibleIff | src/App.tsx:142-144 | `every` over the attribute list holds iff every attribute meets its requirement |
| AttributeRules.Eligible | src/App.tsx:142-144 | a class is eligible iff every score is >= the class's minimum for that attribute |
| AttributeRules.StrengthThreshold | src/App.tsx:142-144 | with Strength 14 a Strength-15 class is not eligible; with Strength 15 it is |
| AttributeRules.ClassEligibility | src/App.tsx:140-144 | one label per class of the table, true iff every score meets that class's minimums; skill points are not an input |
| SkillRules.PointsIn | src/App.tsx:49 | a skill absent from the map has 0 invested points, a present one its stored value |
| SkillRules.SkillBudget | src/App.tsx:40-41 | the budget b is 10 + 4*modifier(Intelligence): b-10 is a multiple of 4 with b-10 <= 2(int-10) < b-6 |
| SkillRules.SkillTotal | src/App.tsx:186 | the displayed total is the definition: invested points (0 when absent) plus the governing attribute's modifier; the contract says the part beyond the invested points is floor((score-10)/2) of the governing score; its properties are stated by SkillTotalAfterInvest and SkillTotalIgnoresOtherAttributes |
| SkillRules.TotalInvestedRemove | src/App.tsx:47-53 | the sum of invested points is the value under any one key plus the sum over the rest |
| SkillRules.TotalInvestedUpdate | src/App.tsx:48-50 | writing v under a skill changes the sum of invested points by v minus the skill's old points (0 when absent) |
| SkillRules.SkillTotalAfterInvest | src/App.tsx:186 | investing `change` in a skill raises its displayed total by `change` and leaves every other skill's total as it was |
| SkillRules.SkillTotalIgnoresOtherAttributes | src/App.tsx:186 | changing an attribute that does not govern a skill leaves that skill's total as it was |
| Persistence.Unwrap | src/App.tsx:89 | the body envelope is used when present, else the top-level fields |
| Persistence.Merge | src/App.tsx:89-103 | attributes are replaced iff the unwrapped response has attributes; skill points iff it has skill points; each independently |
| Persistence.MergeIdempotent | src/App.tsx:89-103 | loading the same response twice gives the same sheet as loading it once |
| Persistence.MergeFieldsIndependent | src/App.tsx:91-102 | each loaded field depends only on the same field of the current sheet |
| Persistence.MergeCompleteOverwrites | src/App.tsx:91-102 | a response with both fields determines the whole sheet, whatever was there |
| Persistence.MergeEnvelopeTransparent | src/App.tsx:89 | an enveloped payload loads exactly like the same payload at the top level |
| App.Character.constructor | src/App.tsx:8-23 | all scores 10, no skill points, remaining points 10 + 4*modifier(10) = 10, within the attribute budget |
| App.Character.ResetSkillBudget | src/App.tsx:39-43 | when Intelligence differs from its previous value, remaining points become 10 + 4*modifier(Intelligence); otherwise they are unchanged |
| App.Character.UpdateAttribute | src/App.tsx:26-43 | the scores become ChangeAttribute of the old ones and skill points are untouched; remaining points are reset iff Intelligence changed value, so never for another attribute or a rejected or clamped-to-same Intelligence change; the attribute invariant is preserved |
| App.Character.UpdateSkillPoints | src/App.tsx:45-59 | accepted iff remaining - change >= 0; then the skill's points become (old or 0) + change and remaining drops by change, else nothing changes; remaining + sum of invested is conserved, and remaining is >= 0 after an accepted call; attributes are untouched |
| App.Character.Load | src/App.tsx:82-103 | the sheet becomes Merge of the old sheet; remaining points are reset iff the loaded Intelligence differs, never derived from the loaded skill points |

## Left out

- Network transport: the POST of the save handler, the GET of the load handler, JSON encoding and decoding, the endpoint URL, and the catch blocks for network errors (src/App.tsx:62-80, 84-85, 105-107). These are I/O against a server that is not part of this model. A load response arrives at `Load` already decoded.
- Save: it builds `{ attributes, skillPoints }` and sends it. It does not change state, so nothing of it is modelled beyond the `Sheet` datatype.
- Console logging and warnings: these are diagnostics only.
- Rendering, CSS classes and the selected-requirements popup state (src/App.tsx:114-195): these are presentation with no rule beyond the derived views modelled above.
- React scheduling: effect timing, batched state updates, and a load racing with local edits are left out. Every handler runs to completion before the next one. `UpdateSkillPoints` checks the current remaining points. The source checks the value captured at render time (src/App.tsx:46), which is the same value under sequential handling.
- The contents of the attribute, skill and class tables from `./consts`: that module is not part of this model. The six attribute names are taken from the initial state, and the other two tables are parameters.
- JavaScript number semantics: scores and points are unbounded integers. Floating point and overflow are not modelled.
- Loaded data is typed: a loaded attribute record always has exactly the six scores. A response with missing or extra attribute keys, or with non-object fields, is not modelled.
- App.Character.UpdateSkillPoints: does not promise that cumulative spending stays within the budget across an Intelligence reset, because the source does not keep that promise (see above). The promise is per call: remaining + invested is conserved, and remaining is >= 0 after an accepted call.
