/**
 * The map unit record shared by the operational map and the wargame
 * simulation. components/TacticalMap.tsx, which declares it, is not part of
 * this model; the fields here are the ones the panels read and write.
 */
module Units {
  import opened Wrappers

  datatype Side = Friendly | Hostile {
    function Opposite(): (r: Side)
      ensures r != this
    {
      if this == Friendly then Hostile else Friendly
    }
  }

  datatype Category = Infantry | Armor | Air

  datatype Status = Moving | Engaged | Active

  datatype Unit = Unit(
    id: string,
    name: string,
    side: Side,
    category: Category,
    x: real,
    y: real,
    status: Status,
    health: real,
    ammo: real,
    speed: Option<real>,
    heading: Option<real>,
    altitude: Option<real>)

  /** The number of units of one side: `units.filter(u => u.type === side).length`. */
  function CountSide(units: seq<Unit>, side: Side): (n: nat)
    ensures n <= |units|
  {
    if |units| == 0 then 0
    else CountSide(units[..|units| - 1], side) + (if units[|units| - 1].side == side then 1 else 0)
  }

  lemma {:induction false} CountSideConcat(a: seq<Unit>, b: seq<Unit>, side: Side)
    ensures CountSide(a + b, side) == CountSide(a, side) + CountSide(b, side)
  {
    if |b| == 0 {
      assert a + b == a;
    } else {
      assert (a + b)[..|a + b| - 1] == a + b[..|b| - 1];
      CountSideConcat(a, b[..|b| - 1], side);
    }
  }

  /** Two unit lists whose members have the same sides position by position hold as many units of each side. */
  lemma {:induction false} CountSideSameSides(a: seq<Unit>, b: seq<Unit>, side: Side)
    requires |a| == |b|
    requires forall k :: 0 <= k < |a| ==> a[k].side == b[k].side
    ensures CountSide(a, side) == CountSide(b, side)
  {
    if |a| > 0 {
      CountSideSameSides(a[..|a| - 1], b[..|b| - 1], side);
    }
  }

  /** A list of units of a single side counts all of them for that side and none for the other. */
  lemma {:induction false} CountSideUniform(units: seq<Unit>, side: Side)
    requires forall k :: 0 <= k < |units| ==> units[k].side == side
    ensures CountSide(units, side) == |units|
    ensures CountSide(units, side.Opposite()) == 0
  {
    if |units| > 0 {
      CountSideUniform(units[..|units| - 1], side);
    }
  }
}
