/**
 The attribute side of the character builder: the six attribute names, the
 score record, the modifier rule, the 70-point attribute budget and class
 eligibility. Everything here is a pure rule over values; the component state
 that these rules update lives in module App.
 */
module AttributeRules {

  /** The six attribute names, the keys of the score record. */
  datatype Attr = Strength | Dexterity | Constitution | Intelligence | Wisdom | Charisma

  /** The attribute list the builder iterates over, in declaration order. */
  const AttributeList: seq<Attr> := [Strength, Dexterity, Constitution, Intelligence, Wisdom, Charisma]

  /** Total number of points the six attributes may hold together. */
  const AttributeCap: int := 70

  /**
   A score for every attribute. The same shape serves as the minimum scores a
   class requires.
   */
  datatype Attributes = Attributes(
    strength: int, dexterity: int, constitution: int,
    intelligence: int, wisdom: int, charisma: int)

  /** The scores a fresh character starts with. */
  const Default: Attributes := Attributes(10, 10, 10, 10, 10, 10)

  /** The score stored under `n`. */
  function Get(a: Attributes, n: Attr): int
  {
    match n
    case Strength => a.strength
    case Dexterity => a.dexterity
    case Constitution => a.constitution
    case Intelligence => a.intelligence
    case Wisdom => a.wisdom
    case Charisma => a.charisma
  }

  /** A copy of `a` with the score under `n` replaced by `v`. */
  function Set(a: Attributes, n: Attr, v: int): (r: Attributes)
    ensures Get(r, n) == v
    ensures forall m :: m != n ==> Get(r, m) == Get(a, m)
  {
    match n
    case Strength => a.(strength := v)
    case Dexterity => a.(dexterity := v)
    case Constitution => a.(constitution := v)
    case Intelligence => a.(intelligence := v)
    case Wisdom => a.(wisdom := v)
    case Charisma => a.(charisma := v)
  }

  lemma AttributeListComplete(n: Attr)
    ensures n in AttributeList
  {
  }

  /**
   The modifier of a score: half its distance from 10, rounded toward negative
   infinity. Dafny's `/` with a positive divisor already rounds that way.
   */
  function Modifier(score: int): (m: int)
    ensures 2 * m <= score - 10 < 2 * m + 2
  {
    (score - 10) / 2
  }

  lemma ModifierBoundaries()
    ensures Modifier(10) == 0 && Modifier(11) == 0
    ensures Modifier(9) == -1 && Modifier(8) == -1
    ensures Modifier(0) == -5
  {
  }

  lemma ModifierMonotonic(v: int, w: int)
    requires v <= w
    ensures Modifier(v) <= Modifier(w)
  {
  }

  /** Left fold of `+` over the scores of `names`, starting from 0. */
  function SumOver(a: Attributes, names: seq<Attr>): int
  {
    if names == [] then 0
    else SumOver(a, names[..|names| - 1]) + Get(a, names[|names| - 1])
  }

  /** Folding over the attribute list adds up exactly the six scores, each once. */
  lemma SumOverAttributeList(a: Attributes)
    ensures SumOver(a, AttributeList) == a.strength + a.dexterity + a.constitution + a.intelligence + a.wisdom + a.charisma
  {
    var l := AttributeList;
    assert SumOver(a, l[..1]) == a.strength by { assert l[..1][..0] == []; }
    assert SumOver(a, l[..2]) == SumOver(a, l[..1]) + a.dexterity by { assert l[..2][..1] == l[..1]; }
    assert SumOver(a, l[..3]) == SumOver(a, l[..2]) + a.constitution by { assert l[..3][..2] == l[..2]; }
    assert SumOver(a, l[..4]) == SumOver(a, l[..3]) + a.intelligence by { assert l[..4][..3] == l[..3]; }
    assert SumOver(a, l[..5]) == SumOver(a, l[..4]) + a.wisdom by { assert l[..5][..4] == l[..4]; }
    assert SumOver(a, l) == SumOver(a, l[..5]) + a.charisma by { assert l[..5] == l[..|l| - 1]; }
  }

  /** The sum of all scores, folded over the attribute list. */
  function Total(a: Attributes): (t: int)
    ensures t == a.strength + a.dexterity + a.constitution + a.intelligence + a.wisdom + a.charisma
  {
    SumOverAttributeList(a);
    SumOver(a, AttributeList)
  }

  /** Replacing one score changes the total by exactly the difference. */
  lemma TotalAfterSet(a: Attributes, n: Attr, v: int)
    ensures Total(Set(a, n, v)) == Total(a) - Get(a, n) + v
  {
  }

  /** Points still free for attributes, as shown above the attribute list. */
  function RemainingAttributePoints(a: Attributes): (r: int)
    ensures r + a.strength + a.dexterity + a.constitution + a.intelligence + a.wisdom + a.charisma == AttributeCap
  {
    AttributeCap - Total(a)
  }

  /** Every score is at least 0. */
  predicate NonNegative(a: Attributes)
  {
    && a.strength >= 0 && a.dexterity >= 0 && a.constitution >= 0
    && a.intelligence >= 0 && a.wisdom >= 0 && a.charisma >= 0
  }

  /** The attribute invariant: no negative score and at most 70 points in all. */
  predicate WithinBudget(a: Attributes)
  {
    NonNegative(a) && Total(a) <= AttributeCap
  }

  lemma RemainingWithinBudget(a: Attributes)
    requires NonNegative(a)
    ensures WithinBudget(a) <==> RemainingAttributePoints(a) >= 0
    ensures RemainingAttributePoints(a) <= AttributeCap
  {
  }

  function Max(x: int, y: int): int
  {
    if x >= y then x else y
  }

  /**
   One press of an attribute's +/- control. The change is accepted when the
   current total plus the raw `change` stays within the cap; the named score
   then becomes `old + change` floored at 0, and nothing else moves.
   A rejected change leaves the record as it was.
   */
  function ChangeAttribute(a: Attributes, name: Attr, change: int): (r: Attributes)
    ensures Total(a) + change > AttributeCap ==> r == a
    ensures Total(a) + change <= AttributeCap ==> Get(r, name) == Max(0, Get(a, name) + change)
    ensures forall n :: n != name ==> Get(r, n) == Get(a, n)
  {
    if Total(a) + change <= AttributeCap then Set(a, name, Max(0, Get(a, name) + change))
    else a
  }

  /** The attribute invariant survives every change. */
  lemma ChangeAttributeKeepsBudget(a: Attributes, name: Attr, change: int)
    requires WithinBudget(a)
    ensures WithinBudget(ChangeAttribute(a, name, change))
  {
    var r := ChangeAttribute(a, name, change);
    if Total(a) + change <= AttributeCap {
      TotalAfterSet(a, name, Max(0, Get(a, name) + change));
      assert Total(r) <= Total(a) + change || Total(r) == Total(a) - Get(a, name);
    }
  }

  /**
   The budget check uses the raw change, but the clamp can make the applied
   change smaller: an accepted change moves the total by `change` unless the
   clamp fired, in which case it removes exactly the old score.
   */
  lemma ChangeAttributeTotal(a: Attributes, name: Attr, change: int)
    requires Total(a) + change <= AttributeCap
    ensures Get(a, name) + change >= 0 ==> Total(ChangeAttribute(a, name, change)) == Total(a) + change
    ensures Get(a, name) + change < 0 ==> Total(ChangeAttribute(a, name, change)) == Total(a) - Get(a, name)
  {
    TotalAfterSet(a, name, Max(0, Get(a, name) + change));
  }

  /**
   Without the non-negativity half of the invariant (a loaded sheet is not
   validated) the clamp can push an accepted increment past the cap.
   */
  lemma NegativeScoreCanBreakCap()
    ensures var a := Attributes(-5, 14, 15, 15, 15, 15);
      Total(a) + 1 <= AttributeCap && Total(ChangeAttribute(a, Strength, 1)) == 74
  {
    TotalAfterSet(Attributes(-5, 14, 15, 15, 15, 15), Strength, 0);
  }

  /** `names.every(attr => a[attr] >= req[attr])`. */
  function MeetsAll(a: Attributes, req: Attributes, names: seq<Attr>): (ok: bool)
    ensures ok <==> forall i :: 0 <= i < |names| ==> Get(a, names[i]) >= Get(req, names[i])
  {
    names == [] || (Get(a, names[0]) >= Get(req, names[0]) && MeetsAll(a, req, names[1..]))
  }

  lemma EligibleIff(a: Attributes, req: Attributes)
    ensures MeetsAll(a, req, AttributeList) <==> forall n :: Get(a, n) >= Get(req, n)
  {
    if MeetsAll(a, req, AttributeList) {
      forall n: Attr
        ensures Get(a, n) >= Get(req, n)
      {
        AttributeListComplete(n);
        var i :| 0 <= i < |AttributeList| && AttributeList[i] == n;
      }
    }
  }

  /** Whether scores `a` satisfy a class whose minimum scores are `req`. */
  function Eligible(a: Attributes, req: Attributes): (ok: bool)
    ensures ok <==> forall n :: Get(a, n) >= Get(req, n)
  {
    EligibleIff(a, req);
    MeetsAll(a, req, AttributeList)
  }

  lemma StrengthThreshold()
    ensures !Eligible(Set(Default, Strength, 14), Set(Default, Strength, 15))
    ensures Eligible(Set(Default, Strength, 15), Set(Default, Strength, 15))
  {
  }

  /** The eligibility label of every class in a requirement table. */
  function ClassEligibility(table: map<string, Attributes>, a: Attributes): (r: map<string, bool>)
    ensures r.Keys == table.Keys
    ensures forall c :: c in r ==> (r[c] <==> forall n :: Get(a, n) >= Get(table[c], n))
  {
    map c | c in table :: Eligible(a, table[c])
  }
}
