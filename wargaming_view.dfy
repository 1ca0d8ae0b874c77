/**
 * The wargaming panel: the tactical simulation (unit generation, the
 * per-second tick that moves, engages and removes units, the battle log, the
 * force-integrity read-out and the end-of-battle rule), its play/pause/stop
 * controls, and the strategic AI simulation with its parse fallback.
 *
 * `Math.random()` draws are inputs: a sequence of values in [0, 1) for unit
 * placement, and a `Roll` per unit for each tick.
 */
module WargamingView {
  import opened Wrappers
  import opened JsString
  import opened JsMath
  import opened JsValues
  import opened Units
  import opened Normalizer
  import AiService

  datatype SimState = Idle | Running | Paused | Complete

  datatype Tab = AiStrategy | TacticalTab | ConfigTab | AarTab

  datatype SimMode = Alpha | Sigma

  // ---------------------------------------------------------------- unit generation

  /** `Math.ceil(force / 10) + 2`: how many units a force slider value yields. */
  function UnitCount(force: int): (n: int)
    ensures force as real / 10.0 + 2.0 <= n as real < force as real / 10.0 + 3.0
  {
    Ceil(force as real / 10.0) + 2
  }

  /** Over the slider range 0..100 each side gets from 2 to 12 units. */
  lemma UnitCountRange(force: int)
    requires 0 <= force <= 100
    ensures 2 <= UnitCount(force) <= 12
    ensures force == 0 ==> UnitCount(force) == 2
    ensures force == 100 ==> UnitCount(force) == 12
  {
  }

  function FriendlyCategory(i: nat): Category {
    if i == 0 then Armor else if i % 3 == 0 then Air else Infantry
  }

  function HostileCategory(enemyProfile: string, i: nat): Category {
    if Includes(enemyProfile, "Insurgent") then Infantry else if i % 2 == 0 then Armor else Infantry
  }

  /** The `i`-th generated unit of a side, placed by two random draws. */
  function GeneratedUnit(side: Side, i: nat, enemyProfile: string, rx: real, ry: real): (u: Unit)
    ensures u.side == side && u.status == Moving && u.health == 100.0 && u.ammo == 100.0
    ensures u.speed.None? && u.heading.None? && u.altitude.None?
    ensures 0.0 <= ry < 1.0 ==> 20.0 <= u.y < 80.0
    ensures 0.0 <= rx < 1.0 && side == Friendly ==> 10.0 <= u.x < 20.0
    ensures 0.0 <= rx < 1.0 && side == Hostile ==> 80.0 <= u.x < 90.0
    ensures u.id == (if side == Friendly then "ALPHA-" else "SIGMA-") + NatToString(i + 1)
  {
    ScaledDraw(rx, 10.0);
    ScaledDraw(ry, 60.0);
    var n := NatToString(i + 1);
    match side
    case Friendly =>
      Unit("ALPHA-" + n, "Alpha Team " + n, Friendly, FriendlyCategory(i),
           10.0 + rx * 10.0, 20.0 + ry * 60.0, Moving, 100.0, 100.0, None, None, None)
    case Hostile =>
      Unit("SIGMA-" + n, "Sigma Team " + n, Hostile, HostileCategory(enemyProfile, i),
           80.0 + rx * 10.0, 20.0 + ry * 60.0, Moving, 100.0, 100.0, None, None, None)
  }

  /** A draw in [0, 1) scaled by a positive width lies in [0, width). */
  lemma ScaledDraw(r: real, width: real)
    requires width > 0.0
    ensures 0.0 <= r < 1.0 ==> 0.0 <= r * width < width
  {
    if 0.0 <= r < 1.0 {
      assert r * width < 1.0 * width;
    }
  }

  /** Every draw of `Math.random()` lies in [0, 1). */
  predicate IsRandom(r: seq<real>) {
    forall k :: 0 <= k < |r| ==> 0.0 <= r[k] < 1.0
  }

  /** The `count` units of one side, the `i`-th placed by draws `2(offset+i)` and `2(offset+i)+1`. */
  function SideUnits(side: Side, count: nat, offset: nat, enemyProfile: string, random: seq<real>): (r: seq<Unit>)
    requires |random| >= 2 * (offset + count)
    ensures |r| == count
  {
    seq(count, i requires 0 <= i < count =>
      GeneratedUnit(side, i, enemyProfile, random[2 * (offset + i)], random[2 * (offset + i) + 1]))
  }

  /** The generated force: the friendly units, then the hostile ones, drawing the randoms in that order. */
  function Generated(blueForce: int, redForce: int, enemyProfile: string, random: seq<real>): seq<Unit>
    requires 0 <= blueForce <= 100 && 0 <= redForce <= 100
    requires |random| >= 2 * (UnitCount(blueForce) + UnitCount(redForce))
  {
    var nb := UnitCount(blueForce);
    SideUnits(Friendly, nb, 0, enemyProfile, random) + SideUnits(Hostile, UnitCount(redForce), nb, enemyProfile, random)
  }

  /** `generateUnits`: two loops pushing the friendly and then the hostile units. */
  method GenerateUnits(blueForce: int, redForce: int, enemyProfile: string, random: seq<real>) returns (units: seq<Unit>)
    requires 0 <= blueForce <= 100 && 0 <= redForce <= 100
    requires |random| >= 2 * (UnitCount(blueForce) + UnitCount(redForce))
    ensures units == Generated(blueForce, redForce, enemyProfile, random)
  {
    var blueCount := UnitCount(blueForce);
    var redCount := UnitCount(redForce);
    ghost var blue := SideUnits(Friendly, blueCount, 0, enemyProfile, random);
    ghost var red := SideUnits(Hostile, redCount, blueCount, enemyProfile, random);
    units := [];
    for i := 0 to blueCount
      invariant units == blue[..i]
    {
      var u := GeneratedUnit(Friendly, i, enemyProfile, random[2 * i], random[2 * i + 1]);
      assert blue[i] == u;
      assert blue[..i + 1] == blue[..i] + [u];
      units := units + [u];
    }
    assert units == blue;
    for i := 0 to redCount
      invariant units == blue + red[..i]
    {
      var k := blueCount + i;
      var u := GeneratedUnit(Hostile, i, enemyProfile, random[2 * k], random[2 * k + 1]);
      assert red[i] == u;
      assert red[..i + 1] == red[..i] + [u];
      assert blue + red[..i + 1] == (blue + red[..i]) + [u];
      units := units + [u];
    }
    assert red[..redCount] == red;
  }

  /** One side's units: all of that side, fresh, and inside that side's deployment zone. */
  lemma SideUnitsFacts(side: Side, count: nat, offset: nat, enemyProfile: string, random: seq<real>)
    requires |random| >= 2 * (offset + count)
    requires IsRandom(random)
    ensures var units := SideUnits(side, count, offset, enemyProfile, random);
      && CountSide(units, side) == count && CountSide(units, side.Opposite()) == 0
      && (forall k :: 0 <= k < count ==>
            units[k].health == 100.0 && units[k].ammo == 100.0 && units[k].status == Moving
            && 20.0 <= units[k].y < 80.0
            && (side == Friendly ==> 10.0 <= units[k].x < 20.0)
            && (side == Hostile ==> 80.0 <= units[k].x < 90.0))
  {
    var units := SideUnits(side, count, offset, enemyProfile, random);
    forall k | 0 <= k < count
      ensures units[k].health == 100.0 && units[k].ammo == 100.0 && units[k].status == Moving
      ensures 20.0 <= units[k].y < 80.0
      ensures side == Friendly ==> 10.0 <= units[k].x < 20.0
      ensures side == Hostile ==> 80.0 <= units[k].x < 90.0
    {
      var d := 2 * (offset + k);
      assert units[k] == GeneratedUnit(side, k, enemyProfile, random[d], random[d + 1]);
      assert 0.0 <= random[d] < 1.0 && 0.0 <= random[d + 1] < 1.0;
    }
    assert forall k :: 0 <= k < |units| ==> units[k].side == side by {
      forall k | 0 <= k < |units| ensures units[k].side == side {
        var d := 2 * (offset + k);
        assert units[k] == GeneratedUnit(side, k, enemyProfile, random[d], random[d + 1]);
      }
    }
    CountSideUniform(units, side);
  }

  /** A generated force has as many units of each side as that side's slider gives. */
  lemma GeneratedCounts(blueForce: int, redForce: int, enemyProfile: string, random: seq<real>)
    requires 0 <= blueForce <= 100 && 0 <= redForce <= 100
    requires |random| >= 2 * (UnitCount(blueForce) + UnitCount(redForce))
    requires IsRandom(random)
    ensures |Generated(blueForce, redForce, enemyProfile, random)| == UnitCount(blueForce) + UnitCount(redForce)
    ensures CountSide(Generated(blueForce, redForce, enemyProfile, random), Friendly) == UnitCount(blueForce)
    ensures CountSide(Generated(blueForce, redForce, enemyProfile, random), Hostile) == UnitCount(redForce)
  {
    var nb := UnitCount(blueForce);
    var blue := SideUnits(Friendly, nb, 0, enemyProfile, random);
    var red := SideUnits(Hostile, UnitCount(redForce), nb, enemyProfile, random);
    SideUnitsFacts(Friendly, nb, 0, enemyProfile, random);
    SideUnitsFacts(Hostile, UnitCount(redForce), nb, enemyProfile, random);
    CountSideConcat(blue, red, Friendly);
    CountSideConcat(blue, red, Hostile);
  }

  /** Every generated unit is fresh and inside its side's deployment zone. */
  lemma GeneratedPlacement(blueForce: int, redForce: int, enemyProfile: string, random: seq<real>, k: nat)
    requires 0 <= blueForce <= 100 && 0 <= redForce <= 100
    requires |random| >= 2 * (UnitCount(blueForce) + UnitCount(redForce))
    requires IsRandom(random)
    requires k < UnitCount(blueForce) + UnitCount(redForce)
    ensures var u := Generated(blueForce, redForce, enemyProfile, random)[k];
      && u.health == 100.0 && u.ammo == 100.0 && u.status == Moving
      && 20.0 <= u.y < 80.0
      && (u.side == Friendly <==> k < UnitCount(blueForce))
      && (u.side == Friendly ==> 10.0 <= u.x < 20.0)
      && (u.side == Hostile ==> 80.0 <= u.x < 90.0)
  {
    var nb := UnitCount(blueForce);
    var d := 2 * k;
    assert 0.0 <= random[d] < 1.0 && 0.0 <= random[d + 1] < 1.0;
    if k < nb {
      assert Generated(blueForce, redForce, enemyProfile, random)[k] == GeneratedUnit(Friendly, k, enemyProfile, random[d], random[d + 1]);
    } else {
      assert Generated(blueForce, redForce, enemyProfile, random)[k] == GeneratedUnit(Hostile, k - nb, enemyProfile, random[d], random[d + 1]);
    }
  }

  /** A generated force is a valid starting force: everyone alive. */
  lemma GeneratedAlive(blueForce: int, redForce: int, enemyProfile: string, random: seq<real>)
    requires 0 <= blueForce <= 100 && 0 <= redForce <= 100
    requires |random| >= 2 * (UnitCount(blueForce) + UnitCount(redForce))
    requires IsRandom(random)
    ensures forall k :: 0 <= k < |Generated(blueForce, redForce, enemyProfile, random)| ==>
      Generated(blueForce, redForce, enemyProfile, random)[k].health > 0.0
  {
    forall k | 0 <= k < |Generated(blueForce, redForce, enemyProfile, random)|
      ensures Generated(blueForce, redForce, enemyProfile, random)[k].health > 0.0
    {
      GeneratedPlacement(blueForce, redForce, enemyProfile, random, k);
    }
  }

  lemma NatToStringInjective(a: nat, b: nat)
    requires NatToString(a) == NatToString(b)
    ensures a == b
  {
    NatToStringRoundTrip(a);
    NatToStringRoundTrip(b);
  }

  /** Within one side the ids differ: the same prefix with a different team number. */
  lemma SideIdsDistinct(prefix: string, a: nat, b: nat)
    requires a != b
    ensures prefix + NatToString(a) != prefix + NatToString(b)
  {
    if prefix + NatToString(a) == prefix + NatToString(b) {
      assert (prefix + NatToString(a))[|prefix|..] == NatToString(a);
      assert (prefix + NatToString(b))[|prefix|..] == NatToString(b);
      NatToStringInjective(a, b);
    }
  }

  /** Unit `i` of a side is named by the side's prefix and the team number `i + 1`. */
  lemma SideUnitId(side: Side, count: nat, offset: nat, enemyProfile: string, random: seq<real>, i: nat)
    requires |random| >= 2 * (offset + count) && i < count
    ensures SideUnits(side, count, offset, enemyProfile, random)[i].id
            == (if side == Friendly then "ALPHA-" else "SIGMA-") + NatToString(i + 1)
  {
    var d := 2 * (offset + i);
    assert SideUnits(side, count, offset, enemyProfile, random)[i] == GeneratedUnit(side, i, enemyProfile, random[d], random[d + 1]);
  }

  /** Two units of one side carry different team numbers, hence different ids. */
  lemma SameSideIdsDistinct(side: Side, count: nat, offset: nat, enemyProfile: string, random: seq<real>, j: nat, k: nat)
    requires |random| >= 2 * (offset + count) && j < k < count
    ensures SideUnits(side, count, offset, enemyProfile, random)[j].id != SideUnits(side, count, offset, enemyProfile, random)[k].id
  {
    SideUnitId(side, count, offset, enemyProfile, random, j);
    SideUnitId(side, count, offset, enemyProfile, random, k);
    SideIdsDistinct(if side == Friendly then "ALPHA-" else "SIGMA-", j + 1, k + 1);
  }

  /** A friendly id starts with 'A' and a hostile one with 'S'. */
  lemma CrossSideIdsDistinct(nb: nat, nr: nat, enemyProfile: string, random: seq<real>, j: nat, k: nat)
    requires |random| >= 2 * (nb + nr) && j < nb && k < nr
    ensures SideUnits(Friendly, nb, 0, enemyProfile, random)[j].id != SideUnits(Hostile, nr, nb, enemyProfile, random)[k].id
  {
    SideUnitId(Friendly, nb, 0, enemyProfile, random, j);
    SideUnitId(Hostile, nr, nb, enemyProfile, random, k);
    assert SideUnits(Friendly, nb, 0, enemyProfile, random)[j].id[0] == 'A';
    assert SideUnits(Hostile, nr, nb, enemyProfile, random)[k].id[0] == 'S';
  }

  /** Generated ids are distinct: a side prefix plus a different team number for each unit. */
  lemma GeneratedIdsDistinct(blueForce: int, redForce: int, enemyProfile: string, random: seq<real>, j: nat, k: nat)
    requires 0 <= blueForce <= 100 && 0 <= redForce <= 100
    requires |random| >= 2 * (UnitCount(blueForce) + UnitCount(redForce))
    requires j < k < UnitCount(blueForce) + UnitCount(redForce)
    ensures Generated(blueForce, redForce, enemyProfile, random)[j].id != Generated(blueForce, redForce, enemyProfile, random)[k].id
  {
    var nb, nr := UnitCount(blueForce), UnitCount(redForce);
    var blue := SideUnits(Friendly, nb, 0, enemyProfile, random);
    var red := SideUnits(Hostile, nr, nb, enemyProfile, random);
    var units := Generated(blueForce, redForce, enemyProfile, random);
    assert units == blue + red;
    if k < nb {
      assert units[j] == blue[j] && units[k] == blue[k];
      SameSideIdsDistinct(Friendly, nb, 0, enemyProfile, random, j, k);
    } else if j >= nb {
      assert units[j] == red[j - nb] && units[k] == red[k - nb];
      SameSideIdsDistinct(Hostile, nr, nb, enemyProfile, random, j - nb, k - nb);
    } else {
      assert units[j] == blue[j] && units[k] == red[k - nb];
      CrossSideIdsDistinct(nb, nr, enemyProfile, random, j, k - nb);
    }
  }

  // ---------------------------------------------------------------- the tactical tick

  /** The movement modifier of the terrain. */
  function TerrainFactor(terrain: string): real {
    if Includes(terrain, "Mountain") then 0.6 else 1.0
  }

  function BaseSpeed(c: Category): real {
    match c
    case Air => 2.0
    case Armor => 1.0
    case Infantry => 0.5
  }

  /** How far a unit moves along x in one tick: friendly units advance, hostile ones come the other way. */
  function Step(u: Unit, terrain: string): (dx: real)
    ensures u.status == Engaged || u.health <= 0.0 ==> dx == 0.0
    ensures u.status != Engaged && u.health > 0.0 && u.side == Friendly ==> dx > 0.0
    ensures u.status != Engaged && u.health > 0.0 && u.side == Hostile ==> dx < 0.0
  {
    if u.status != Engaged && u.health > 0.0 then
      (if u.side == Friendly then 1.0 else -1.0) * BaseSpeed(u.category) * TerrainFactor(terrain)
    else 0.0
  }

  /** The step is 2 for air, 1 for armor and 0.5 for infantry, scaled by 0.6 in mountains. */
  lemma StepMagnitude(u: Unit, terrain: string)
    requires u.status != Engaged && u.health > 0.0
    ensures var m := if Includes(terrain, "Mountain") then 0.6 else 1.0;
      (u.category == Air ==> Step(u, terrain) == (if u.side == Friendly then 2.0 else -2.0) * m)
      && (u.category == Armor ==> Step(u, terrain) == (if u.side == Friendly then 1.0 else -1.0) * m)
      && (u.category == Infantry ==> Step(u, terrain) == (if u.side == Friendly then 0.5 else -0.5) * m)
  {
  }

  /** Within 15 map units of the point, compared on squares. */
  predicate Near(e: Unit, x: real, y: real) {
    (e.x - x) * (e.x - x) + (e.y - y) * (e.y - y) < 225.0
  }

  /** A living unit of the other side within range. */
  predicate Threatens(e: Unit, side: Side, x: real, y: real) {
    e.side == side.Opposite() && e.health > 0.0 && Near(e, x, y)
  }

  /** `prevUnits.find(...)`: the first unit of the previous tick that threatens the position. */
  function FindEnemy(prev: seq<Unit>, side: Side, x: real, y: real): Option<Unit> {
    if |prev| == 0 then None
    else if Threatens(prev[0], side, x, y) then Some(prev[0])
    else FindEnemy(prev[1..], side, x, y)
  }

  /** No enemy is found exactly when no unit threatens; a found enemy is the first unit that does. */
  lemma {:induction false} FindEnemyFirst(prev: seq<Unit>, side: Side, x: real, y: real)
    ensures FindEnemy(prev, side, x, y).None? <==> forall k :: 0 <= k < |prev| ==> !Threatens(prev[k], side, x, y)
    ensures FindEnemy(prev, side, x, y).Some? ==>
      exists i :: 0 <= i < |prev| && prev[i] == FindEnemy(prev, side, x, y).value && Threatens(prev[i], side, x, y)
                  && forall j :: 0 <= j < i ==> !Threatens(prev[j], side, x, y)
  {
    if |prev| > 0 && !Threatens(prev[0], side, x, y) {
      var tail := prev[1..];
      FindEnemyFirst(tail, side, x, y);
      assert forall k :: 1 <= k < |prev| ==> prev[k] == tail[k - 1];
      var r := FindEnemy(tail, side, x, y);
      if r.Some? {
        var i :| 0 <= i < |tail| && tail[i] == r.value && Threatens(tail[i], side, x, y)
                 && forall j :: 0 <= j < i ==> !Threatens(tail[j], side, x, y);
        assert prev[i + 1] == r.value;
        assert forall j :: 0 <= j < i + 1 ==> !Threatens(prev[j], side, x, y) by {
          forall j | 0 <= j < i + 1 ensures !Threatens(prev[j], side, x, y) {
            if j > 0 {
              assert prev[j] == tail[j - 1];
            }
          }
        }
      }
    }
  }

  /** The two draws an engaged unit makes: its damage (times 10) and whether the hit is reported (above 0.8). */
  datatype Roll = Roll(damage: real, report: real)

  /** One unit after a tick: moved, then engaged and damaged if an enemy threatens its new position, else moving. */
  function Advance(prev: seq<Unit>, u: Unit, terrain: string, roll: Roll): (r: Unit)
    ensures r == u.(x := r.x, status := r.status, health := r.health)
    ensures r.x == u.x + Step(u, terrain)
    ensures r.status == Engaged <==> FindEnemy(prev, u.side, r.x, u.y).Some?
    ensures r.status != Engaged ==> r.status == Moving && r.health == u.health
    ensures r.status == Engaged ==> r.health == u.health - roll.damage * 10.0
  {
    var x := u.x + Step(u, terrain);
    match FindEnemy(prev, u.side, x, u.y)
    case Some(_) => u.(x := x, status := Engaged, health := u.health - roll.damage * 10.0)
    case None => u.(x := x, status := Moving)
  }

  /** The log line a unit's engagement produces, if the report draw exceeds 0.8. */
  function EngageNote(prev: seq<Unit>, u: Unit, terrain: string, roll: Roll): Option<string> {
    var x := u.x + Step(u, terrain);
    match FindEnemy(prev, u.side, x, u.y)
    case Some(e) => if roll.report > 0.8 then Some(u.name + " engaged " + e.name + ". Damage sustained.") else None
    case None => None
  }

  /** The `map` of the tick: every unit advanced against the previous positions. */
  function AdvanceAll(prev: seq<Unit>, terrain: string, rolls: seq<Roll>): (r: seq<Unit>)
    requires |rolls| == |prev|
    ensures |r| == |prev|
  {
    seq(|prev|, i requires 0 <= i < |prev| => Advance(prev, prev[i], terrain, rolls[i]))
  }

  /** The engagement lines of the first `n` units, in order. */
  function EngageLog(prev: seq<Unit>, terrain: string, rolls: seq<Roll>, n: nat): seq<string>
    requires |rolls| == |prev| && n <= |prev|
  {
    if n == 0 then []
    else EngageLog(prev, terrain, rolls, n - 1)
         + (match EngageNote(prev, prev[n - 1], terrain, rolls[n - 1]) case Some(t) => [t] case None => [])
  }

  /** The `filter` of the tick: the units whose health is above 0, in order. */
  function Survivors(units: seq<Unit>): (r: seq<Unit>)
    ensures |r| <= |units|
    ensures forall k :: 0 <= k < |r| ==> r[k].health > 0.0 && r[k] in units
  {
    if |units| == 0 then []
    else
      var init := Survivors(units[..|units| - 1]);
      assert forall k :: 0 <= k < |init| ==> init[k] in units by {
        forall k | 0 <= k < |init| ensures init[k] in units {
          var i :| 0 <= i < |units| - 1 && units[..|units| - 1][i] == init[k];
          assert units[i] == init[k];
        }
      }
      init + (if units[|units| - 1].health > 0.0 then [units[|units| - 1]] else [])
  }

  /** The "CRITICAL" lines for the units the filter removes, in order. */
  function NeutralizedLog(units: seq<Unit>): seq<string> {
    if |units| == 0 then []
    else NeutralizedLog(units[..|units| - 1])
         + (if units[|units| - 1].health > 0.0 then [] else ["CRITICAL: " + units[|units| - 1].name + " neutralized."])
  }

  /** Every unit either survives or is reported neutralised. */
  lemma {:induction false} SurvivorsPartition(units: seq<Unit>)
    ensures |Survivors(units)| + |NeutralizedLog(units)| == |units|
  {
    if |units| > 0 {
      SurvivorsPartition(units[..|units| - 1]);
    }
  }

  /** A list of living units passes the filter whole. */
  lemma {:induction false} SurvivorsOfLiving(units: seq<Unit>)
    requires forall k :: 0 <= k < |units| ==> units[k].health > 0.0
    ensures Survivors(units) == units
  {
    if |units| > 0 {
      SurvivorsOfLiving(units[..|units| - 1]);
      assert units[..|units| - 1] + [units[|units| - 1]] == units;
    }
  }

  /** Removing units never adds to a side. */
  lemma {:induction false} SurvivorsCountSide(units: seq<Unit>, side: Side)
    ensures CountSide(Survivors(units), side) <= CountSide(units, side)
  {
    if |units| > 0 {
      var init := units[..|units| - 1];
      SurvivorsCountSide(init, side);
      var last := units[|units| - 1];
      var tail := if last.health > 0.0 then [last] else [];
      CountSideConcat(Survivors(init), tail, side);
      if last.health > 0.0 {
        assert CountSide(tail, side) == (if last.side == side then 1 else 0) by {
          assert tail[..0] == [];
        }
      }
    }
  }

  /** The tick's `map` loop: every unit moved and engaged against the previous positions, with the engagement lines. */
  method MoveUnits(prev: seq<Unit>, terrain: string, rolls: seq<Roll>) returns (moved: seq<Unit>, engaged: seq<string>)
    requires |rolls| == |prev|
    ensures moved == AdvanceAll(prev, terrain, rolls)
    ensures engaged == EngageLog(prev, terrain, rolls, |prev|)
  {
    moved := [];
    engaged := [];
    var i := 0;
    while i < |prev|
      invariant 0 <= i <= |prev| && |moved| == i
      invariant forall k :: 0 <= k < i ==> moved[k] == Advance(prev, prev[k], terrain, rolls[k])
      invariant engaged == EngageLog(prev, terrain, rolls, i)
    {
      var note := EngageNote(prev, prev[i], terrain, rolls[i]);
      moved := moved + [Advance(prev, prev[i], terrain, rolls[i])];
      if note.Some? {
        engaged := engaged + [note.value];
      }
      i := i + 1;
    }
  }

  /** The tick's `filter` loop: the units still alive, and a "CRITICAL" line for each one dropped. */
  method RemoveDestroyed(moved: seq<Unit>) returns (next: seq<Unit>, neutralized: seq<string>)
    ensures next == Survivors(moved)
    ensures neutralized == NeutralizedLog(moved)
  {
    next := [];
    neutralized := [];
    var j := 0;
    while j < |moved|
      invariant 0 <= j <= |moved|
      invariant next == Survivors(moved[..j])
      invariant neutralized == NeutralizedLog(moved[..j])
    {
      assert moved[..j + 1][..j] == moved[..j];
      if moved[j].health > 0.0 {
        next := next + [moved[j]];
      } else {
        neutralized := neutralized + ["CRITICAL: " + moved[j].name + " neutralized."];
      }
      j := j + 1;
    }
    assert moved[..j] == moved;
  }

  /** The tick's unit update: the `map` step, then the `filter` step, with the log lines of both in order. */
  method TacticalStep(prev: seq<Unit>, terrain: string, rolls: seq<Roll>) returns (next: seq<Unit>, logs: seq<string>)
    requires |rolls| == |prev|
    ensures next == Survivors(AdvanceAll(prev, terrain, rolls))
    ensures logs == EngageLog(prev, terrain, rolls, |prev|) + NeutralizedLog(AdvanceAll(prev, terrain, rolls))
  {
    var moved, engaged := MoveUnits(prev, terrain, rolls);
    var neutralized;
    next, neutralized := RemoveDestroyed(moved);
    logs := engaged + neutralized;
  }

  /** Movement keeps every unit's side and row: only x changes, by the unit's step. */
  lemma AdvanceAllMovement(prev: seq<Unit>, terrain: string, rolls: seq<Roll>, i: nat)
    requires |rolls| == |prev| && i < |prev|
    ensures AdvanceAll(prev, terrain, rolls)[i].y == prev[i].y
    ensures AdvanceAll(prev, terrain, rolls)[i].side == prev[i].side
    ensures AdvanceAll(prev, terrain, rolls)[i].x == prev[i].x + Step(prev[i], terrain)
  {
  }

  /**
   * A unit is engaged, and loses health, exactly when a living opposing unit
   * from the previous tick is within range of its new position.
   */
  lemma EngagementRule(prev: seq<Unit>, terrain: string, rolls: seq<Roll>, i: nat)
    requires |rolls| == |prev| && i < |prev|
    ensures var u := AdvanceAll(prev, terrain, rolls)[i];
      (u.status == Engaged <==> exists k :: 0 <= k < |prev| && Threatens(prev[k], prev[i].side, u.x, prev[i].y))
      && (u.status != Engaged ==> u.status == Moving && u.health == prev[i].health)
  {
    var u := AdvanceAll(prev, terrain, rolls)[i];
    FindEnemyFirst(prev, prev[i].side, u.x, prev[i].y);
  }

  /** A tick never adds a unit to either side. */
  lemma TickNeverAddsUnits(prev: seq<Unit>, terrain: string, rolls: seq<Roll>, side: Side)
    requires |rolls| == |prev|
    ensures CountSide(Survivors(AdvanceAll(prev, terrain, rolls)), side) <= CountSide(prev, side)
  {
    var moved := AdvanceAll(prev, terrain, rolls);
    CountSideSameSides(moved, prev, side);
    SurvivorsCountSide(moved, side);
  }

  // ---------------------------------------------------------------- log, integrity, completion

  const BattleLogLimit: nat := 20

  /** `[...prev, ...updates].slice(-20)` when there are updates; the log is untouched otherwise. */
  function AppendBattleLog(log: seq<string>, updates: seq<string>): (r: seq<string>)
    ensures |updates| == 0 ==> r == log
    ensures |updates| > 0 ==> |r| == (if |log| + |updates| <= BattleLogLimit then |log| + |updates| else BattleLogLimit)
    ensures |updates| > 0 ==> r == (log + updates)[|log + updates| - |r|..]
  {
    if |updates| == 0 then log
    else
      var all := log + updates;
      if |all| <= BattleLogLimit then all else all[|all| - BattleLogLimit..]
  }

  /** A log of at most 20 entries stays at most 20 entries, and always ends with the newest update. */
  lemma BattleLogBounded(log: seq<string>, updates: seq<string>)
    requires |log| <= BattleLogLimit
    ensures |AppendBattleLog(log, updates)| <= BattleLogLimit
    ensures |updates| > 0 ==> AppendBattleLog(log, updates)[|AppendBattleLog(log, updates)| - 1] == updates[|updates| - 1]
  {
  }

  /** The integrity read-out as written: survivors over the count the force sliders NOW give. */
  function IntegrityAsWritten(current: nat, force: int): (r: int)
    requires 0 <= force <= 100
    ensures current <= UnitCount(force) ==> 0 <= r <= 100
  {
    RoundPercentBounds(current, UnitCount(force));
    Round(current as real / UnitCount(force) as real * 100.0)
  }

  /** The percentage of a count relative to a positive base lies in [0, 100] when the count does not exceed the base. */
  lemma RoundPercentBounds(current: nat, base: int)
    requires base > 0
    ensures current <= base ==> 0 <= Round(current as real / base as real * 100.0) <= 100
    ensures current == base ==> Round(current as real / base as real * 100.0) == 100
    ensures current == 0 ==> Round(current as real / base as real * 100.0) == 0
  {
    var q := current as real / base as real;
    QuotientCompare(current as real, base as real, 1.0);
    QuotientCompare(current as real, base as real, 0.0);
    if current <= base {
      assert 0.0 <= q <= 1.0;
      assert 0.0 <= q * 100.0 <= 100.0;
    }
    if current == base {
      assert q == 1.0;
    }
    if current == 0 {
      assert q == 0.0;
    }
  }

  /**
   * Lowering the friendly slider while a battle is paused on another tab
   * pushes the read-out past 100: ten surviving units of a force of 80 over
   * the two units a force of 0 would give read as 500%.
   */
  lemma IntegrityAsWrittenOverflows()
    ensures UnitCount(80) == 10 && UnitCount(0) == 2
    ensures IntegrityAsWritten(10, 0) == 500
  {
    assert 10.0 as real / 2.0 * 100.0 == 500.0;
  }

  /** The corrected read-out: survivors over the number generated at the start of the battle. */
  function Integrity(current: nat, generated: int): (r: int)
    requires generated > 0
    ensures current <= generated ==> 0 <= r <= 100
    ensures current == generated ==> r == 100
    ensures current == 0 ==> r == 0
  {
    RoundPercentBounds(current, generated);
    Round(current as real / generated as real * 100.0)
  }

  /** The battle ends when a side is wiped out or the turn counter (read before the increment) exceeds 60. */
  predicate BattleOver(currentBlue: nat, currentRed: nat, turn: int) {
    currentBlue == 0 || currentRed == 0 || turn > 60
  }

  /** The play/pause button: RUNNING pauses, every other state runs. */
  function PlayPause(s: SimState): (r: SimState)
    ensures r == Paused <==> s == Running
    ensures r == Running <==> s != Running
  {
    if s == Running then Paused else Running
  }

  /** The five header lines of a new battle log. */
  function StartLog(terrain: string, enemyProfile: string, doctrine: string): (r: seq<string>)
    ensures |r| == 5 && |r| <= BattleLogLimit
    ensures r[0] == "INITIALIZING BATTLEFIELD SIMULATION..." && r[4] == "--- START ---"
    ensures r[1] == "TERRAIN: " + ToUpper(terrain)
    ensures r[2] == "ENEMY: " + ToUpper(enemyProfile)
    ensures r[3] == "DOCTRINE: " + ToUpper(doctrine)
  {
    ["INITIALIZING BATTLEFIELD SIMULATION...", "TERRAIN: " + ToUpper(terrain),
     "ENEMY: " + ToUpper(enemyProfile), "DOCTRINE: " + ToUpper(doctrine), "--- START ---"]
  }

  // ---------------------------------------------------------------- strategic simulation

  /** The mode string the panel passes to the strategy simulation. */
  function ModeName(m: SimMode): string {
    if m == Alpha then "alpha" else "sigma"
  }

  /** Both panel modes reach the service's generic persona. */
  lemma PanelModesGeneric(m: SimMode)
    ensures AiService.PersonaFor(ModeName(m)) == AiService.GenericStrategist
  {
    AiService.PanelModesAreGeneric();
  }

  /** The TTS voice: 'Fenrir' for the Sigma mode, 'Kore' for Alpha. */
  function BriefingVoice(m: SimMode): (r: string)
    ensures m == Sigma ==> r == "Fenrir"
    ensures m == Alpha ==> r == "Kore"
  {
    if m == Sigma then "Fenrir" else "Kore"
  }

  const CrossDomainKeys: seq<string> :=
    ["military_readiness", "diplomatic_trust", "economic_cost", "domestic_morale", "legal_compliance"]

  /** The stand-in result when the strategic reply does not parse. */
  function StrategicFallback(raw: string): JsValue {
    Obj(map["summary" := Str(raw), "title" := Str("Simulation Output (Raw)"), "strategic_options" := Arr([]),
            "cross_domain_matrix" := Obj(map["military_readiness" := Num(0.0), "diplomatic_trust" := Num(0.0),
                                             "economic_cost" := Num(0.0), "domestic_morale" := Num(0.0),
                                             "legal_compliance" := Num(0.0)])])
  }

  /** The fallback keeps the raw reply as its summary, offers no options and scores every domain zero. */
  lemma StrategicFallbackFields(raw: string)
    ensures Get(StrategicFallback(raw), "summary") == Str(raw)
    ensures Get(StrategicFallback(raw), "title") == Str("Simulation Output (Raw)")
    ensures Get(StrategicFallback(raw), "strategic_options") == Arr([])
    ensures Truthy(Get(StrategicFallback(raw), "cross_domain_matrix"))
    ensures forall k :: 0 <= k < |CrossDomainKeys| ==>
      Get(Get(StrategicFallback(raw), "cross_domain_matrix"), CrossDomainKeys[k]) == Num(0.0)
  {
  }

  /** The result shown: the cleaned reply parsed as JSON, or the fallback built from the raw reply. */
  function StrategicResult(raw: string, parse: string -> Option<JsValue>): JsValue {
    match parse(CleanJsonString(raw))
    case Some(v) => v
    case None => StrategicFallback(raw)
  }

  /** A reply that parses after the clean-up is shown as parsed; any other reply is shown through the fallback. */
  lemma StrategicResultCases(raw: string, parse: string -> Option<JsValue>)
    ensures parse(CleanJsonString(raw)).Some? ==> StrategicResult(raw, parse) == parse(CleanJsonString(raw)).value
    ensures parse(CleanJsonString(raw)).None? ==> StrategicResult(raw, parse) == StrategicFallback(raw)
  {
  }

  /**
   * The stored result and busy flag after `handleStrategicSim`: a blank
   * scenario keeps both; otherwise the parsed or fallback result replaces
   * the old one and the simulation ends.
   */
  function SimulationAfter(scenario: string, mode: SimMode, reply: AiService.Transport, parse: string -> Option<JsValue>,
                           result: Option<JsValue>, busy: bool): (r: (Option<JsValue>, bool))
    ensures IsBlank(scenario) ==> r == (result, busy)
    ensures !IsBlank(scenario) ==> r.0.Some? && !r.1
  {
    if IsBlank(scenario) then (result, busy)
    else (Some(StrategicResult(AiService.RunStrategySimulation(ModeName(mode), reply).output, parse)), false)
  }

  /** One bar of the impact chart. */
  datatype Impact = Impact(subject: string, score: JsValue, fullMark: int)

  const ImpactSubjects: seq<string> := ["Military", "Diplomatic", "Economic", "Morale", "Legal"]

  /** `impactData`: five bars out of 10 read from the cross-domain matrix, or none without one. */
  function ImpactData(result: Option<JsValue>): (r: seq<Impact>)
    ensures result.None? || !Truthy(Get(result.value, "cross_domain_matrix")) ==> r == []
    ensures result.Some? && Truthy(Get(result.value, "cross_domain_matrix")) ==>
      |r| == 5 && forall k :: 0 <= k < 5 ==>
        r[k] == Impact(ImpactSubjects[k], Get(Get(result.value, "cross_domain_matrix"), CrossDomainKeys[k]), 10)
  {
    if result.Some? && Truthy(Get(result.value, "cross_domain_matrix")) then
      var m := Get(result.value, "cross_domain_matrix");
      seq(5, k requires 0 <= k < 5 => Impact(ImpactSubjects[k], Get(m, CrossDomainKeys[k]), 10))
    else []
  }

  /** The fallback result still draws five bars, all at zero. */
  lemma FallbackImpactZero(raw: string)
    ensures |ImpactData(Some(StrategicFallback(raw)))| == 5
    ensures forall k :: 0 <= k < 5 ==> ImpactData(Some(StrategicFallback(raw)))[k].score == Num(0.0)
  {
    StrategicFallbackFields(raw);
  }

  /** This panel's `SafeRender`: strings and numbers as they are, other objects as JSON text, nothing otherwise. */
  function SafeRender(content: JsValue): (r: Rendered)
    ensures (content.Str? || content.Num?) <==> r == Verbatim(content)
    ensures IsObject(content) <==> r == JsonOf(content)
    ensures r == Nothing <==> content.Undefined? || content.Null? || content.Bool?
  {
    if content.Str? || content.Num? then Verbatim(content)
    else if IsObject(content) then JsonOf(content)
    else Nothing
  }

  // ---------------------------------------------------------------- the panel
  /**
   * The tactical simulation's state hooks, which the start handler and the
   * tick replace together: the run state, the battle log, the turn counter,
   * the two read-outs, the units on the map, and the unit counts the battle
   * started with (the corrected integrity base).
   */
  datatype Battle = Battle(
    state: SimState,
    log: seq<string>,
    turn: int,
    integrityBlue: int,
    integrityRed: int,
    units: seq<Unit>,
    blueGenerated: int,
    redGenerated: int)

  /**
   * The shape a battle keeps whatever the sliders do: a log of at most 20
   * lines, only living units on the map, and no side above its starting count.
   */
  predicate WellFormed(b: Battle) {
    && |b.log| <= BattleLogLimit
    && 2 <= b.blueGenerated <= 12 && 2 <= b.redGenerated <= 12
    && (forall k :: 0 <= k < |b.units| ==> b.units[k].health > 0.0)
    && CountSide(b.units, Friendly) <= b.blueGenerated
    && CountSide(b.units, Hostile) <= b.redGenerated
  }

  /** A well-formed battle whose read-outs also lie within 0..100. */
  predicate Consistent(b: Battle) {
    WellFormed(b) && 0 <= b.integrityBlue <= 100 && 0 <= b.integrityRed <= 100
  }

  /** The battle `handleStartTacticalSim` sets up: running, a fresh log, turn 0, full read-outs, a generated force. */
  function StartBattle(blueForce: int, redForce: int, terrain: string, enemyProfile: string, doctrine: string,
                       random: seq<real>): Battle
    requires 0 <= blueForce <= 100 && 0 <= redForce <= 100
    requires |random| >= 2 * (UnitCount(blueForce) + UnitCount(redForce))
  {
    Battle(Running, StartLog(terrain, enemyProfile, doctrine), 0, 100, 100,
           Generated(blueForce, redForce, enemyProfile, random), UnitCount(blueForce), UnitCount(redForce))
  }

  /** A freshly started battle satisfies the invariant. */
  lemma StartConsistent(blueForce: int, redForce: int, terrain: string, enemyProfile: string, doctrine: string,
                        random: seq<real>)
    requires 0 <= blueForce <= 100 && 0 <= redForce <= 100
    requires |random| >= 2 * (UnitCount(blueForce) + UnitCount(redForce)) && IsRandom(random)
    ensures Consistent(StartBattle(blueForce, redForce, terrain, enemyProfile, doctrine, random))
  {
    GeneratedCounts(blueForce, redForce, enemyProfile, random);
    GeneratedAlive(blueForce, redForce, enemyProfile, random);
    UnitCountRange(blueForce);
    UnitCountRange(redForce);
  }

  /**
   * The battle after one tick with the read-outs taken over the given unit
   * counts: the turn advances, the units are moved, engaged and filtered, the
   * updates join the log, and the battle is complete when a side is gone or
   * the turn read before the increment exceeds 60.
   */
  function TickedOver(b: Battle, terrain: string, rolls: seq<Roll>, blueBase: int, redBase: int): Battle
    requires |rolls| == |b.units| && blueBase > 0 && redBase > 0
  {
    var moved := AdvanceAll(b.units, terrain, rolls);
    var next := Survivors(moved);
    var logs := EngageLog(b.units, terrain, rolls, |b.units|) + NeutralizedLog(moved);
    var blue := CountSide(next, Friendly);
    var red := CountSide(next, Hostile);
    Battle(if BattleOver(blue, red, b.turn) then Complete else b.state,
           AppendBattleLog(b.log, logs), b.turn + 1,
           Integrity(blue, blueBase), Integrity(red, redBase), next,
           b.blueGenerated, b.redGenerated)
  }

  /** The tick as written: the read-outs divide by the counts the force sliders give when the tick runs. */
  function TickedBattleAsWritten(b: Battle, terrain: string, rolls: seq<Roll>, blueForce: int, redForce: int): Battle
    requires |rolls| == |b.units| && 0 <= blueForce <= 100 && 0 <= redForce <= 100
  {
    TickedOver(b, terrain, rolls, UnitCount(blueForce), UnitCount(redForce))
  }

  /** The corrected tick: the read-outs divide by the counts generated at the start of the battle. */
  function TickedBattle(b: Battle, terrain: string, rolls: seq<Roll>): Battle
    requires |rolls| == |b.units| && b.blueGenerated > 0 && b.redGenerated > 0
  {
    TickedOver(b, terrain, rolls, b.blueGenerated, b.redGenerated)
  }

  /** The interval callback's update: the `map` and `filter` loops, then the read-outs over the current sliders. */
  method RunTick(b: Battle, terrain: string, rolls: seq<Roll>, blueForce: int, redForce: int) returns (t: Battle)
    requires |rolls| == |b.units| && 0 <= blueForce <= 100 && 0 <= redForce <= 100 && b.state == Running
    ensures t == TickedBattleAsWritten(b, terrain, rolls, blueForce, redForce)
  {
    var next, logs := TacticalStep(b.units, terrain, rolls);
    var blue := CountSide(next, Friendly);
    var red := CountSide(next, Hostile);
    t := Battle(if BattleOver(blue, red, b.turn) then Complete else Running, AppendBattleLog(b.log, logs), b.turn + 1,
                IntegrityAsWritten(blue, blueForce), IntegrityAsWritten(red, redForce), next,
                b.blueGenerated, b.redGenerated);
  }

  /** Over any bases a tick keeps the battle's shape: survivors are alive, sides only shrink, the log stays bounded. */
  lemma TickWellFormed(b: Battle, terrain: string, rolls: seq<Roll>, blueBase: int, redBase: int)
    requires WellFormed(b) && |rolls| == |b.units| && blueBase > 0 && redBase > 0
    ensures WellFormed(TickedOver(b, terrain, rolls, blueBase, redBase))
  {
    var moved := AdvanceAll(b.units, terrain, rolls);
    var logs := EngageLog(b.units, terrain, rolls, |b.units|) + NeutralizedLog(moved);
    TickNeverAddsUnits(b.units, terrain, rolls, Friendly);
    TickNeverAddsUnits(b.units, terrain, rolls, Hostile);
    BattleLogBounded(b.log, logs);
  }

  /** The corrected tick keeps the whole invariant, read-outs within 0..100 included. */
  lemma TickConsistent(b: Battle, terrain: string, rolls: seq<Roll>)
    requires Consistent(b) && |rolls| == |b.units|
    ensures Consistent(TickedBattle(b, terrain, rolls))
  {
    TickWellFormed(b, terrain, rolls, b.blueGenerated, b.redGenerated);
  }

  /**
   * The tick as written reads each side over its slider's count: a read-out
   * stays at most 100 exactly while the survivors do not outnumber that count.
   */
  lemma TickAsWrittenReadouts(b: Battle, terrain: string, rolls: seq<Roll>, blueForce: int, redForce: int)
    requires |rolls| == |b.units| && 0 <= blueForce <= 100 && 0 <= redForce <= 100
    ensures var t := TickedBattleAsWritten(b, terrain, rolls, blueForce, redForce);
      && t.integrityBlue == IntegrityAsWritten(CountSide(t.units, Friendly), blueForce)
      && t.integrityRed == IntegrityAsWritten(CountSide(t.units, Hostile), redForce)
      && (t.integrityBlue <= 100 <==> CountSide(t.units, Friendly) <= UnitCount(blueForce))
      && (t.integrityRed <= 100 <==> CountSide(t.units, Hostile) <= UnitCount(redForce))
  {
    UnitCountRange(blueForce);
    UnitCountRange(redForce);
    var t := TickedBattleAsWritten(b, terrain, rolls, blueForce, redForce);
    PercentBounds(CountSide(t.units, Friendly), UnitCount(blueForce));
    PercentBounds(CountSide(t.units, Hostile), UnitCount(redForce));
  }

  /** With the sliders where the battle started, the tick as written is the corrected tick and keeps the invariant. */
  lemma TickAsWrittenAtStartSliders(b: Battle, terrain: string, rolls: seq<Roll>, blueForce: int, redForce: int)
    requires WellFormed(b) && |rolls| == |b.units| && 0 <= blueForce <= 100 && 0 <= redForce <= 100
    requires UnitCount(blueForce) == b.blueGenerated && UnitCount(redForce) == b.redGenerated
    ensures TickedBattleAsWritten(b, terrain, rolls, blueForce, redForce) == TickedBattle(b, terrain, rolls)
    ensures Consistent(TickedBattle(b, terrain, rolls))
  {
    TickWellFormed(b, terrain, rolls, b.blueGenerated, b.redGenerated);
  }

  /**
   * Whatever the bases (the sliders' counts as written, or the generated
   * counts), the turn advances by one, a side reads 0 exactly when it has no
   * unit left, and a running battle completes exactly when a side is empty or
   * the turn read before the increment is past 60, and keeps running otherwise.
   */
  lemma TickedIntegrity(b: Battle, terrain: string, rolls: seq<Roll>, blueBase: int, redBase: int)
    requires |rolls| == |b.units| && 0 < blueBase <= 12 && 0 < redBase <= 12
    ensures var t := TickedOver(b, terrain, rolls, blueBase, redBase);
      && t.turn == b.turn + 1
      && (CountSide(t.units, Friendly) == 0 <==> t.integrityBlue == 0)
      && (CountSide(t.units, Hostile) == 0 <==> t.integrityRed == 0)
      && (b.state == Running ==>
            (t.state == Complete <==> CountSide(t.units, Friendly) == 0 || CountSide(t.units, Hostile) == 0 || b.turn > 60)
            && (t.state != Complete ==> t.state == Running))
  {
    var t := TickedOver(b, terrain, rolls, blueBase, redBase);
    PercentBounds(CountSide(t.units, Friendly), blueBase);
    PercentBounds(CountSide(t.units, Hostile), redBase);
  }

  /**
   * Over a base of at most 12 units a count reads 0% only when it is 0, and
   * above 100% exactly when it exceeds the base.
   */
  lemma PercentBounds(current: nat, base: int)
    requires 0 < base <= 12
    ensures Integrity(current, base) == 0 <==> current == 0
    ensures Integrity(current, base) > 100 <==> current > base
  {
    var q := current as real / base as real;
    if current > 0 {
      QuotientCompare(current as real, base as real, 0.05);
      assert q > 0.05;
      assert q * 100.0 > 5.0;
    }
    if current > base {
      QuotientCompare(current as real, base as real, 1.05);
      assert q > 1.05;
      assert q * 100.0 > 105.0;
    }
  }

  /** A friendly and a hostile armoured unit of the overflow example, 75 map units apart. */
  const QuietAlpha := Unit("ALPHA-1", "Alpha Team 1", Friendly, Armor, 10.0, 50.0, Moving, 100.0, 100.0, None, None, None)
  const QuietSigma := Unit("SIGMA-1", "Sigma Team 1", Hostile, Armor, 85.0, 50.0, Moving, 100.0, 100.0, None, None, None)
  const QuietAlphaMoved := QuietAlpha.(x := 11.0)
  const QuietSigmaMoved := QuietSigma.(x := 84.0)
  const QuietRolls := [Roll(0.0, 0.0), Roll(0.0, 0.0), Roll(0.0, 0.0), Roll(0.0, 0.0), Roll(0.0, 0.0)]

  /**
   * The example's battle: three friendly units generated for a force of 10
   * and two hostile ones for a force of 0, just started.
   */
  const QuietBattle := Battle(Running, [], 0, 100, 100, [QuietAlpha, QuietAlpha, QuietAlpha, QuietSigma, QuietSigma], 3, 2)

  /** Out of each other's range, every unit of the example moves one step and all five survive. */
  lemma QuietTick()
    ensures Survivors(AdvanceAll(QuietBattle.units, "", QuietRolls)) ==
            [QuietAlphaMoved, QuietAlphaMoved, QuietAlphaMoved] + [QuietSigmaMoved, QuietSigmaMoved]
  {
    var a, s, units := QuietAlpha, QuietSigma, QuietBattle.units;
    assert Step(a, "") == 1.0 && Step(s, "") == -1.0;
    assert !Threatens(a, Friendly, 11.0, 50.0) && !Threatens(s, Friendly, 11.0, 50.0);
    assert !Threatens(a, Hostile, 84.0, 50.0) && !Threatens(s, Hostile, 84.0, 50.0);
    FindEnemyFirst(units, Friendly, 11.0, 50.0);
    FindEnemyFirst(units, Hostile, 84.0, 50.0);
    var moved := AdvanceAll(units, "", QuietRolls);
    assert moved == [QuietAlphaMoved, QuietAlphaMoved, QuietAlphaMoved] + [QuietSigmaMoved, QuietSigmaMoved];
    SurvivorsOfLiving(moved);
  }

  /** Three friendly units followed by two hostile ones count three and two. */
  lemma CountThreeTwo(a: Unit, h: Unit)
    requires a.side == Friendly && h.side == Hostile
    ensures CountSide([a, a, a] + [h, h], Friendly) == 3 && CountSide([a, a, a] + [h, h], Hostile) == 2
  {
    CountSideConcat([a, a, a], [h, h], Friendly);
    CountSideConcat([a, a, a], [h, h], Hostile);
    CountSideUniform([a, a, a], Friendly);
    CountSideUniform([h, h], Hostile);
  }

  /** The example starts with three friendly and two hostile units, and keeps all three friendly ones. */
  lemma QuietCounts()
    ensures CountSide(QuietBattle.units, Friendly) == 3 && CountSide(QuietBattle.units, Hostile) == 2
    ensures CountSide(Survivors(AdvanceAll(QuietBattle.units, "", QuietRolls)), Friendly) == 3
  {
    QuietTick();
    CountThreeTwo(QuietAlphaMoved, QuietSigmaMoved);
    assert QuietBattle.units == [QuietAlpha, QuietAlpha, QuietAlpha] + [QuietSigma, QuietSigma];
    CountThreeTwo(QuietAlpha, QuietSigma);
  }

  /**
   * The discrepancy on a whole tick: the friendly slider is moved from 10 to
   * 0 before the tick, so the three friendly survivors are read over the two
   * units a force of 0 gives, where the corrected tick reads them over three.
   */
  lemma TickAsWrittenOverflows()
    ensures UnitCount(10) == QuietBattle.blueGenerated && UnitCount(0) == QuietBattle.redGenerated
    ensures WellFormed(QuietBattle)
    ensures TickedBattleAsWritten(QuietBattle, "", QuietRolls, 0, 0).integrityBlue == 150
    ensures TickedBattle(QuietBattle, "", QuietRolls).integrityBlue == 100
  {
    QuietCounts();
    assert Integrity(3, 2) == 150 by {
      assert 3.0 / 2.0 * 100.0 == 150.0;
    }
  }

  /** The panel's state fields and the handlers that replace them. */
  class WargamePanel {
    var activeTab: Tab
    var battle: Battle
    var blueForce: int
    var redForce: int
    var terrain: string
    var enemyProfile: string
    var doctrine: string
    var aarContent: string
    var simMode: SimMode
    var scenarioInput: string
    var simResult: Option<JsValue>
    var simulating: bool

    /**
     * The invariant every handler keeps; it depends on the battle and the
     * sliders only. The read-outs are not bounded here: the tick as written
     * reads them over sliders that may have moved since the start.
     */
    predicate Valid()
      reads this`battle, this`blueForce, this`redForce
    {
      WellFormed(battle) && 0 <= blueForce <= 100 && 0 <= redForce <= 100
    }

    constructor ()
      ensures Valid()
      ensures activeTab == AiStrategy && battle == Battle(Idle, [], 0, 100, 100, [], UnitCount(80), UnitCount(60))
      ensures blueForce == 80 && redForce == 60
      ensures terrain == "Mountainous / Rough" && enemyProfile == "Insurgent (Guerilla)" && doctrine == "Maneuver Warfare"
      ensures aarContent == "" && simMode == Alpha && scenarioInput == "" && simResult.None? && !simulating
    {
      activeTab := AiStrategy;
      battle := Battle(Idle, [], 0, 100, 100, [], UnitCount(80), UnitCount(60));
      blueForce := 80;
      redForce := 60;
      terrain := "Mountainous / Rough";
      enemyProfile := "Insurgent (Guerilla)";
      doctrine := "Maneuver Warfare";
      aarContent := "";
      simMode := Alpha;
      scenarioInput := "";
      simResult := None;
      simulating := false;
    }

    /** `handleStartTacticalSim`: a fresh battle on the tactical tab. */
    method Start(random: seq<real>)
      requires Valid()
      requires |random| >= 2 * (UnitCount(blueForce) + UnitCount(redForce)) && IsRandom(random)
      modifies this`battle, this`activeTab, this`aarContent
      ensures Valid()
      ensures activeTab == TacticalTab && aarContent == ""
      ensures battle == StartBattle(blueForce, redForce, terrain, enemyProfile, doctrine, random)
    {
      StartConsistent(blueForce, redForce, terrain, enemyProfile, doctrine, random);
      var units := GenerateUnits(blueForce, redForce, enemyProfile, random);
      activeTab := TacticalTab;
      aarContent := "";
      battle := Battle(Running, StartLog(terrain, enemyProfile, doctrine), 0, 100, 100,
                       units, UnitCount(blueForce), UnitCount(redForce));
    }

    /**
     * One interval tick. It only runs on the tactical tab while RUNNING; it
     * replaces the battle by the tick as written, over the sliders as they
     * are now, and moves to the after-action tab when the battle completes.
     * With the sliders where the battle started the read-outs stay in 0..100.
     */
    method Tick(rolls: seq<Roll>)
      requires Valid()
      requires |rolls| == |battle.units|
      modifies this`battle, this`activeTab
      ensures Valid()
      ensures !(old(activeTab) == TacticalTab && old(battle.state) == Running) ==> unchanged(this)
      ensures old(activeTab) == TacticalTab && old(battle.state) == Running ==>
        && battle == TickedBattleAsWritten(old(battle), old(terrain), rolls, old(blueForce), old(redForce))
        && (battle.state == Complete ==> activeTab == AarTab)
        && (battle.state == Running ==> activeTab == TacticalTab)
        && ((UnitCount(old(blueForce)) == old(battle).blueGenerated && UnitCount(old(redForce)) == old(battle).redGenerated)
              ==> Consistent(battle))
    {
      if activeTab == TacticalTab && battle.state == Running {
        var b := battle;
        TickWellFormed(b, terrain, rolls, UnitCount(blueForce), UnitCount(redForce));
        if UnitCount(blueForce) == b.blueGenerated && UnitCount(redForce) == b.redGenerated {
          TickAsWrittenAtStartSliders(b, terrain, rolls, blueForce, redForce);
        }
        var t := RunTick(b, terrain, rolls, blueForce, redForce);
        var over := t.state == Complete;
        battle := t;
        if over {
          activeTab := AarTab;
        }
      }
    }

    /** The play/pause button. */
    method TogglePlay()
      requires Valid()
      modifies this`battle
      ensures Valid()
      ensures battle == old(battle).(state := PlayPause(old(battle).state))
    {
      battle := battle.(state := PlayPause(battle.state));
    }

    /** The stop button: back to IDLE on the configuration tab. */
    method Stop()
      requires Valid()
      modifies this`battle, this`activeTab
      ensures Valid()
      ensures battle == old(battle).(state := Idle) && activeTab == ConfigTab
    {
      battle := battle.(state := Idle);
      activeTab := ConfigTab;
    }

    method SelectTab(t: Tab)
      modifies this`activeTab
      ensures activeTab == t
    {
      activeTab := t;
    }

    /** The force sliders (range 0..100). */
    method SetForces(blue: int, red: int)
      requires Valid()
      requires 0 <= blue <= 100 && 0 <= red <= 100
      modifies this`blueForce, this`redForce
      ensures Valid() && blueForce == blue && redForce == red
    {
      blueForce := blue;
      redForce := red;
    }

    /**
     * `handleStrategicSim`: nothing happens for a blank scenario; otherwise the
     * result is the parsed reply or the fallback, and the busy flag is cleared.
     * It touches neither the battle nor the sliders, so `Valid` is kept by framing.
     */
    method StrategicSim(reply: AiService.Transport, parse: string -> Option<JsValue>)
      modifies this`simResult, this`simulating
      ensures (simResult, simulating) == SimulationAfter(old(scenarioInput), old(simMode), reply, parse, old(simResult), old(simulating))
    {
      var next := SimulationAfter(scenarioInput, simMode, reply, parse, simResult, simulating);
      simResult := next.0;
      simulating := next.1;
    }
  }
}
