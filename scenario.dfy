/**
 * `Scenario`: the population of cars and the fixed-substep scheduler.  Each
 * substep snapshots every car as a shell first and then updates the cars in
 * index order against that snapshot, so no update sees another made in the
 * same substep.
 */
module Scenarios {
  import opened Numerics
  import opened Geometry
  import opened CarModel
  import opened Drivers
  import opened Cars

  /** Substeps per `Scenario::tick`. */
  const Substeps: nat := 50

  /** The snapshot of a substep: every car as a shell, in order. */
  function Snapshot(states: seq<CarState>): (r: seq<CarState>)
    ensures |r| == |states|
    ensures forall i :: 0 <= i < |r| ==> r[i] == states[i].Shell()
  {
    seq(|states|, i requires 0 <= i < |states| => states[i].Shell())
  }

  /** Every car carries a driver, as every car `with_cars` builds does. */
  predicate Driven(states: seq<CarState>)
  {
    forall i :: 0 <= i < |states| ==> states[i].driver.Some?
  }

  /**
   * The first `n` cars of substep `k`, in index order: each is stepped from
   * the state before the substep against the snapshot of that state;
   * `picks(k, i)` is the random point car i's driver may fall back to.
   */
  function SubstepPrefix(m: Math, states: seq<CarState>, picks: (nat, nat) -> Vec2, k: nat, n: nat)
    : (r: seq<CarState>)
    requires Driven(states) && n <= |states|
    requires forall k: nat, i: nat :: InArena(picks(k, i))
    ensures |r| == n
    ensures forall i :: 0 <= i < n ==> r[i].driver == states[i].driver
    decreases n
  {
    if n == 0 then []
    else SubstepPrefix(m, states, picks, k, n - 1) + [Step(m, states[n - 1], Snapshot(states), picks(k, n - 1))]
  }

  /** Reference definition of substep `k`: all the cars, each read from the state before it. */
  function Substep(m: Math, states: seq<CarState>, picks: (nat, nat) -> Vec2, k: nat): (r: seq<CarState>)
    requires Driven(states)
    requires forall k: nat, i: nat :: InArena(picks(k, i))
    ensures |r| == |states| && Driven(r)
  {
    SubstepPrefix(m, states, picks, k, |states|)
  }

  /** Car `i` of a prefix is car `i` stepped against the snapshot taken before the substep. */
  lemma {:induction false} SubstepPrefixAt(m: Math, states: seq<CarState>, picks: (nat, nat) -> Vec2, k: nat, n: nat,
                                           i: nat)
    requires Driven(states) && i < n <= |states|
    requires forall k: nat, i: nat :: InArena(picks(k, i))
    ensures SubstepPrefix(m, states, picks, k, n)[i] == Step(m, states[i], Snapshot(states), picks(k, i))
    decreases n
  {
    hide Step;
    if i < n - 1 {
      SubstepPrefixAt(m, states, picks, k, n - 1, i);
    }
  }

  /**
   * Car `i` after substep `k` is car `i` stepped from its own state before
   * the substep, against the snapshot of every car's state before it: no car
   * sees another's update of the same substep.
   */
  lemma SubstepAt(m: Math, states: seq<CarState>, picks: (nat, nat) -> Vec2, k: nat, i: nat)
    requires Driven(states) && i < |states|
    requires forall k: nat, i: nat :: InArena(picks(k, i))
    ensures Substep(m, states, picks, k)[i] == Step(m, states[i], Snapshot(states), picks(k, i))
  {
    SubstepPrefixAt(m, states, picks, k, |states|, i);
  }

  /** The cars after `n` substeps; substep k draws its fallback points from `picks(k, _)`. */
  function Ticked(m: Math, states: seq<CarState>, n: nat, picks: (nat, nat) -> Vec2): (r: seq<CarState>)
    requires Driven(states)
    requires forall k: nat, i: nat :: InArena(picks(k, i))
    ensures |r| == |states| && Driven(r)
    decreases n
  {
    if n == 0 then states
    else Substep(m, Ticked(m, states, n - 1, picks), picks, n - 1)
  }

  /** One more substep after `n`: the step `Scenario::tick`'s outer loop takes. */
  lemma TickedNext(m: Math, states: seq<CarState>, n: nat, picks: (nat, nat) -> Vec2)
    requires Driven(states) && forall k: nat, i: nat :: InArena(picks(k, i))
    ensures Substep(m, Ticked(m, states, n, picks), picks, n) == Ticked(m, states, n + 1, picks)
  {
  }

  /** The states of a sequence of cars. */
  function StatesOf(cs: seq<Car>): (r: seq<CarState>)
    reads cs
    ensures |r| == |cs|
    ensures forall i :: 0 <= i < |cs| ==> r[i] == cs[i].State()
  {
    seq(|cs|, i reads cs requires 0 <= i < |cs| => cs[i].State())
  }

  /** Appending a car appends its state. */
  lemma StatesOfAppend(cs: seq<Car>, c: Car)
    ensures StatesOf(cs + [c]) == StatesOf(cs) + [c.State()]
  {
    assert (cs + [c])[..|cs|] == cs;
  }

  /** `self.cars.iter().map(|c| c.shell_copy()).collect()`. */
  function ShellsOf(cs: seq<Car>): (r: seq<CarState>)
    reads cs
    ensures r == Snapshot(StatesOf(cs))
  {
    seq(|cs|, i reads cs requires 0 <= i < |cs| => cs[i].ShellCopy())
  }

  /** The random draws of one `Car::new` in `with_cars`: red channel, location, destination, acceleration. */
  datatype CarDraw = CarDraw(red: u8, location: Vec2, destination: Vec2, acceleration: real)

  /** The ranges the draws come from. */
  predicate ValidDraw(d: CarDraw)
  {
    InArena(d.location) && InArena(d.destination) && 1.0 <= d.acceleration < 5.0
  }

  /** Decimal digit `d`. */
  function DigitChar(d: nat): char
    requires d < 10
  {
    "0123456789"[d]
  }

  /** `i` formatted with `{}`: its decimal digits. */
  function NatToString(n: nat): (s: string)
    ensures |s| > 0
    ensures forall j :: 0 <= j < |s| ==> '0' <= s[j] <= '9'
  {
    if n < 10 then [DigitChar(n)] else NatToString(n / 10) + [DigitChar(n % 10)]
  }

  /** The number a string of decimal digits denotes. */
  function DigitsValue(s: string): nat
    requires forall j :: 0 <= j < |s| ==> '0' <= s[j] <= '9'
  {
    if s == [] then 0 else DigitsValue(s[..|s| - 1]) * 10 + (s[|s| - 1] as int - '0' as int)
  }

  /** The formatted number reads back as itself, so the suffixes of the names are distinct. */
  lemma {:induction false} NatToStringRoundTrip(n: nat)
    ensures DigitsValue(NatToString(n)) == n
  {
    var s := NatToString(n);
    if n >= 10 {
      NatToStringRoundTrip(n / 10);
      assert s[..|s| - 1] == NatToString(n / 10);
    }
  }

  /** The car `with_cars` builds as its `i`-th: name "{name} {i}", red from the draw, green and blue 0. */
  function NewCar(name: string, i: nat, d: CarDraw): (r: CarState)
    ensures r.driver.Some? && r.Shell().(driver := Some(DriveHome)) == r
    ensures |r.name| > |name| + 1 && r.name[..|name| + 1] == name + " "
    ensures ValidDraw(d) ==> InArena(r.location) && InArena(r.destination.location) && 1.0 <= r.acceleration < 5.0
  {
    CarState(d.location, Waypoint(d.destination, 80.0), 0.0, 0.0, 0.0, name + " " + NatToString(i), 5.0,
             d.acceleration, Color(d.red, 0, 0), Some(DriveHome))
  }

  /** All the cars `with_cars` builds from `draws`, in order. */
  function Fleet(name: string, draws: seq<CarDraw>): (r: seq<CarState>)
    ensures |r| == |draws| && Driven(r)
  {
    if draws == [] then [] else Fleet(name, draws[..|draws| - 1]) + [NewCar(name, |draws| - 1, draws[|draws| - 1])]
  }

  /** The `i`-th car of the fleet is built from the `i`-th draw under the name "{name} {i}". */
  lemma {:induction false} FleetAt(name: string, draws: seq<CarDraw>, i: nat)
    requires i < |draws|
    ensures Fleet(name, draws)[i] == NewCar(name, i, draws[i])
    decreases |draws|
  {
    if i < |draws| - 1 {
      FleetAt(name, draws[..|draws| - 1], i);
    }
  }

  /** Building one more car appends it to the fleet. */
  lemma FleetAppend(name: string, draws: seq<CarDraw>, i: nat)
    requires i < |draws|
    ensures Fleet(name, draws[..i + 1]) == Fleet(name, draws[..i]) + [NewCar(name, i, draws[i])]
  {
    assert draws[..i + 1][..i] == draws[..i];
  }

  /**
   * Every car of the fleet starts at rest, pointing up, with its wheel
   * straight, a turning radius of 5, its driver, a red-only colour and the
   * drawn location, destination (at speed 80) and acceleration.
   */
  lemma FleetCar(name: string, draws: seq<CarDraw>, i: nat)
    requires i < |draws| && ValidDraw(draws[i])
    ensures var c := Fleet(name, draws)[i];
      c.speed == 0.0 && c.heading == 0.0 && c.wheelAngle == 0.0 && c.turningRadius == 5.0 &&
      InArena(c.location) && InArena(c.destination.location) && c.destination.speed == 80.0 &&
      1.0 <= c.acceleration < 5.0 && c.color.green == 0 && c.color.blue == 0 &&
      c.color.red == draws[i].red && c.driver == Some(DriveHome) &&
      c.name == name + " " + NatToString(i)
  {
    FleetAt(name, draws, i);
  }

  /** No two cars of one fleet share a name. */
  lemma FleetNamesDistinct(name: string, draws: seq<CarDraw>, i: nat, j: nat)
    requires i < |draws| && j < |draws| && i != j
    ensures Fleet(name, draws)[i].name != Fleet(name, draws)[j].name
  {
    FleetAt(name, draws, i);
    FleetAt(name, draws, j);
    var a, b := name + " " + NatToString(i), name + " " + NatToString(j);
    if a == b {
      assert NatToString(i) == a[|name| + 1..] == b[|name| + 1..] == NatToString(j);
      NatToStringRoundTrip(i);
      NatToStringRoundTrip(j);
    }
  }

  /** What every car in a scenario satisfies. */
  predicate Built(c: Car)
  {
    c.driver == Some(DriveHome) && c.turningRadius == 5.0 && 1.0 <= c.acceleration < 5.0 &&
    c.color.green == 0 && c.color.blue == 0
  }

  /** `Scenario`: the cars, stored by reference but never shared. */
  class Scenario {
    var cars: seq<Car>

    /** No car appears twice, and every car was built by `with_cars`. */
    ghost predicate Valid()
      reads this
    {
      && (forall i, j :: 0 <= i < j < |cars| ==> cars[i] != cars[j])
      && (forall i :: 0 <= i < |cars| ==> Built(cars[i]))
    }

    /** The cars' states. */
    function States(): seq<CarState>
      reads this, cars
    {
      StatesOf(cars)
    }

    /** `Scenario::new`: no cars. */
    constructor ()
      ensures Valid() && cars == []
    {
      cars := [];
    }

    /** `self.cars.push(c)` of a car not already present. */
    method Push(c: Car)
      requires Valid() && Built(c) && c !in cars
      modifies this
      ensures Valid() && cars == old(cars) + [c]
    {
      cars := cars + [c];
    }

    /** One iteration of `with_cars`: build the `i`-th car from its draws and push it. */
    method AddCar(name: string, i: nat, d: CarDraw) returns (c: Car)
      requires Valid() && ValidDraw(d)
      modifies this
      ensures Valid() && cars == old(cars) + [c] && fresh(c)
      ensures States() == old(States()) + [NewCar(name, i, d)]
    {
      c := new Car(Color(d.red, 0, 0), name + " " + NatToString(i), DriveHome, d.location, d.destination,
                       d.acceleration);
      ghost var pre := cars;
      assert StatesOf(pre) == old(States());
      assert Built(c) && c !in pre;
      Push(c);
      StatesOfAppend(pre, c);
    }

    /**
     * `with_cars(n, name)`: append `n` new cars (none when `n` is negative),
     * the `i`-th named "{name} {i}"; `draws` are their random draws.
     */
    method WithCars(n: int, name: string, draws: seq<CarDraw>)
      requires Valid()
      requires |draws| == if n < 0 then 0 else n
      requires forall i :: 0 <= i < |draws| ==> ValidDraw(draws[i])
      modifies this
      ensures Valid()
      ensures |cars| == |old(cars)| + |draws| && cars[..|old(cars)|] == old(cars)
      ensures States() == old(States()) + Fleet(name, draws)
      ensures forall j :: |old(cars)| <= j < |cars| ==> fresh(cars[j])
    {
      hide NewCar, Fleet;
      ghost var cars0, states0 := cars, States();
      var i := 0;
      while i < n
        invariant 0 <= i <= |draws|
        invariant Valid()
        invariant |cars| == |cars0| + i && cars[..|cars0|] == cars0
        invariant States() == states0 + Fleet(name, draws[..i])
        invariant forall j :: |cars0| <= j < |cars| ==> fresh(cars[j])
      {
        ghost var pre := cars;
        var c := AddCar(name, i, draws[i]);
        FleetAppend(name, draws, i);
        assert cars[..|cars0|] == pre[..|cars0|];
        assert forall j :: |cars0| <= j < |pre| ==> cars[j] == pre[j];
        i := i + 1;
      }
      assert draws[..i] == draws;
    }

    /**
     * Step `i` of a pass: car i is updated against the snapshot of the state
     * `before` the pass, which it still holds; no other car changes.
     */
    method TickOne(m: Math, picks: (nat, nat) -> Vec2, k: nat, i: nat, ghost before: seq<CarState>,
                   shellCars: seq<CarState>)
      requires Valid() && forall k: nat, i: nat :: InArena(picks(k, i))
      requires Driven(before) && |before| == |cars| && shellCars == Snapshot(before)
      requires i < |cars| && cars[i].State() == before[i]
      modifies cars[i]
      ensures cars[i].State() == Substep(m, before, picks, k)[i]
      ensures forall j :: 0 <= j < |cars| && j != i ==> cars[j].State() == old(cars[j].State())
    {
      hide Step;
      // `Scenario::tick` computes the trailing point of the next car here and discards it.
      var _ := Behind(cars[(i + 1) % |cars|].State(), 30.0, m);
      cars[i].Tick(m, shellCars, picks(k, i));
      SubstepAt(m, before, picks, k, i);
    }

    /** One pass of the outer loop of `Scenario::tick`, proved equal to the reference `Substep`. */
    method RunSubstep(m: Math, picks: (nat, nat) -> Vec2, k: nat)
      requires Valid()
      requires forall k: nat, i: nat :: InArena(picks(k, i))
      modifies cars
      ensures Valid() && cars == old(cars)
      ensures Driven(old(States())) && States() == Substep(m, old(States()), picks, k)
    {
      hide Step;
      ghost var before := States();
      assert Driven(before);
      var shellCars := ShellsOf(cars);
      ghost var target := Substep(m, before, picks, k);
      var i := 0;
      while i < |cars|
        invariant 0 <= i <= |cars|
        invariant Valid() && cars == old(cars)
        invariant forall j :: 0 <= j < i ==> cars[j].State() == target[j]
        invariant forall j :: i <= j < |cars| ==> cars[j].State() == before[j]
      {
        TickOne(m, picks, k, i, before, shellCars);
        i := i + 1;
      }
    }

    /**
     * `Scenario::tick`: 50 substeps, proved equal to the reference `Ticked`.
     * `picks(k, i)` is the fallback point of car i in substep k.
     */
    method Tick(m: Math, picks: (nat, nat) -> Vec2)
      requires Valid()
      requires forall k: nat, i: nat :: InArena(picks(k, i))
      modifies cars
      ensures Valid() && cars == old(cars)
      ensures Driven(old(States())) && States() == Ticked(m, old(States()), Substeps, picks)
    {
      hide Step, SubstepPrefix, Substep;
      ghost var start := States();
      assert Driven(start);
      var k := 0;
      while k < Substeps
        invariant 0 <= k <= Substeps
        invariant Valid() && cars == old(cars)
        invariant States() == Ticked(m, start, k, picks)
      {
        RunSubstep(m, picks, k);
        TickedNext(m, start, k, picks);
        k := k + 1;
      }
    }

    /**
     * `shuffle`: permute the cars in place.  Modelled as the Fisher-Yates pass
     * of the random-number library, with the index drawn for position `i`
     * (from 0 to `i`) given as `swaps[i]`.
     */
    method Shuffle(swaps: seq<int>)
      requires Valid()
      requires |swaps| == |cars|
      requires forall i :: 0 <= i < |swaps| ==> 0 <= swaps[i] <= i
      modifies this
      ensures Valid()
      ensures multiset(cars) == multiset(old(cars))
      ensures multiset(States()) == multiset(old(States()))
    {
      var i := |cars|;
      while i >= 2
        invariant 0 <= i <= |cars| == |swaps|
        invariant Valid()
        invariant multiset(cars) == multiset(old(cars))
        invariant multiset(States()) == multiset(old(States()))
      {
        i := i - 1;
        ghost var pre, preStates := cars, States();
        Swap(i, swaps[i]);
        SwappedMultiset(pre, i, swaps[i]);
        SwappedMultiset(preStates, i, swaps[i]);
      }
    }

    /** `slice.swap(i, j)`: exchange two cars. */
    method Swap(i: int, j: int)
      requires Valid() && 0 <= i < |cars| && 0 <= j < |cars|
      modifies this
      ensures Valid()
      ensures cars == old(cars)[i := old(cars)[j]][j := old(cars)[i]]
      ensures States() == old(States())[i := old(States())[j]][j := old(States())[i]]
    {
      ghost var pre := cars;
      cars := cars[i := cars[j]][j := cars[i]];
      assert forall a, b :: 0 <= a < b < |cars| ==> cars[a] != cars[b] by {
        forall a, b | 0 <= a < b < |cars| ensures cars[a] != cars[b] {
          var a', b' := if a == i then j else if a == j then i else a, if b == i then j else if b == j then i else b;
          assert cars[a] == pre[a'] && cars[b] == pre[b'] && a' != b';
        }
      }
    }
  }

  /** Exchanging two elements keeps the multiset. */
  lemma SwappedMultiset<T>(s: seq<T>, i: int, j: int)
    requires 0 <= i < |s| && 0 <= j < |s|
    ensures multiset(s[i := s[j]][j := s[i]]) == multiset(s)
  {
    if i != j {
      calc {
        multiset(s[i := s[j]][j := s[i]]);
        multiset(s[i := s[j]]) - multiset{s[j]} + multiset{s[i]};
        multiset(s) - multiset{s[i]} + multiset{s[j]} - multiset{s[j]} + multiset{s[i]};
        multiset(s);
      }
    }
  }

  /**
   * After at least one substep every car has its wheel within ±30 degrees,
   * its heading within one turn and its speed at most 80.
   */
  lemma TickBounds(m: Math, states: seq<CarState>, n: nat, picks: (nat, nat) -> Vec2, i: int)
    requires Driven(states) && forall k: nat, i: nat :: InArena(picks(k, i))
    requires n >= 1 && 0 <= i < |states|
    ensures var c := Ticked(m, states, n, picks)[i];
            -MaxWheelAngle <= c.wheelAngle <= MaxWheelAngle && -360.0 < c.heading < 360.0 && c.speed <= MaxSpeed
  {
    hide Step;
    SubstepAt(m, Ticked(m, states, n - 1, picks), picks, n - 1, i);
  }

  /**
   * In a substep, the driver of car i sees car i's own snapshot entry at its
   * own location, so that entry never qualifies as the car to follow.
   */
  lemma OwnEntryNeverQualifies(states: seq<CarState>, i: int)
    requires 0 <= i < |states|
    ensures !Qualifies(states[i].Shell(), Snapshot(states)[i])
  {
  }

  /**
   * A lone car that arrives always takes the random fallback: speed 65 at
   * its fallback point; otherwise it keeps its destination.
   */
  lemma LoneCar(m: Math, s: CarState, picks: (nat, nat) -> Vec2, k: nat)
    requires s.driver.Some? && forall k: nat, i: nat :: InArena(picks(k, i))
    ensures var r := Substep(m, [s], picks, k)[0];
            r.destination == if Arrived(s) then Waypoint(picks(k, 0), 65.0) else s.destination
  {
    assert InArena(picks(k, 0));
    SubstepAt(m, [s], picks, k, 0);
    SoleCarFallsBack(s.driver.value, m, s.Shell(), Snapshot([s]), picks(k, 0));
  }
}
