/** The character's stats, the fixed action-effect table and the mood rule of the
    Dream Story mini-game. Everything here is a pure lookup or a conditional. */
module Rules {

  datatype Option<T> = None | Some(value: T)

  /** The five numeric stats of the character. */
  datatype Stat = Health | Energy | SleepQuality | Relationships | Productivity

  /** The numeric keys of the character record, in declaration order. The record's
      sixth key, `mood`, is the one that is not a number. */
  const AllStats: seq<Stat> := [Health, Energy, SleepQuality, Relationships, Productivity]

  datatype Mood = Happy | Relaxed | Tired | Stressed

  /** The character record: five numeric stats and the stored mood. */
  datatype Alex = Alex(health: int, energy: int, sleepQuality: int, relationships: int,
                       productivity: int, mood: Mood)
  {
    function Get(s: Stat): int {
      match s
      case Health => health
      case Energy => energy
      case SleepQuality => sleepQuality
      case Relationships => relationships
      case Productivity => productivity
    }

    /** The record with stat `s` set to `v` and every other key kept. */
    function With(s: Stat, v: int): (r: Alex)
      ensures r.Get(s) == v && r.mood == mood
      ensures forall t :: t != s ==> r.Get(t) == Get(t)
    {
      match s
      case Health => this.(health := v)
      case Energy => this.(energy := v)
      case SleepQuality => this.(sleepQuality := v)
      case Relationships => this.(relationships := v)
      case Productivity => this.(productivity := v)
    }
  }

  /** Every numeric stat lies in [0, 100]. */
  predicate InRange(a: Alex) {
    forall s :: 0 <= a.Get(s) <= 100
  }

  function Max(x: int, y: int): int { if x >= y then x else y }
  function Min(x: int, y: int): int { if x <= y then x else y }

  /** `Math.max(0, Math.min(100, x))`: the point of [0, 100] nearest to `x`. */
  function Clamp(x: int): (r: int)
    ensures 0 <= r <= 100
    ensures 0 <= x <= 100 ==> r == x
    ensures x < 0 ==> r == 0
    ensures 100 < x ==> r == 100
  {
    Max(0, Min(100, x))
  }

  /** The six daily actions; each has one flag in the day's record. */
  datatype ActionId = Sleep | Eat | Exercise | Relax | DrinkWater | Shower

  /** The string key under which an action is stored and looked up. */
  function Key(id: ActionId): string {
    match id
    case Sleep => "sleep"
    case Eat => "eat"
    case Exercise => "exercise"
    case Relax => "relax"
    case DrinkWater => "drinkWater"
    case Shower => "shower"
  }

  /** An entry of the effect table: the points awarded and the stat deltas, in the
      order the table lists them. */
  datatype Effect = Effect(points: int, deltas: seq<(Stat, int)>)

  /** The fallback for a key the table does not hold. */
  const NoEffect: Effect := Effect(0, [])

  /** No stat is listed twice in a delta list (the deltas come from an object literal). */
  predicate DistinctStats(d: seq<(Stat, int)>) {
    forall i, j :: 0 <= i < j < |d| ==> d[i].0 != d[j].0
  }

  /** The delta listed for `s`, if any: there is one exactly when some entry names
      `s`, and it is the value of such an entry. */
  function Lookup(d: seq<(Stat, int)>, s: Stat): (r: Option<int>)
    ensures r == None <==> forall k :: 0 <= k < |d| ==> d[k].0 != s
    ensures r.Some? ==> exists k :: 0 <= k < |d| && d[k] == (s, r.value)
  {
    if d == [] then None
    else if d[|d| - 1].0 == s then Some(d[|d| - 1].1)
    else Lookup(d[..|d| - 1], s)
  }

  /** With no stat listed twice, the delta found for an entry's stat is that
      entry's delta. */
  lemma {:induction false} LookupEntry(d: seq<(Stat, int)>, k: nat)
    requires DistinctStats(d) && k < |d|
    ensures Lookup(d, d[k].0) == Some(d[k].1)
  {
    if k < |d| - 1 {
      var front := d[..|d| - 1];
      assert front[k] == d[k];
      LookupEntry(front, k);
    }
  }

  /** The fixed effect table, one entry per action. Every action earns points and
      touches some stat, none touches productivity, and no stat is listed twice. */
  function EffectOf(id: ActionId): (e: Effect)
    ensures e.points > 0 && e.deltas != [] && DistinctStats(e.deltas)
    ensures forall k :: 0 <= k < |e.deltas| ==> e.deltas[k].0 != Productivity
  {
    match id
    case Sleep => Effect(20, [(SleepQuality, 25), (Energy, 20), (Health, 10)])
    case Eat => Effect(15, [(Health, 20), (Energy, 15)])
    case Exercise => Effect(18, [(Health, 25), (Energy, -5), (SleepQuality, 10)])
    case Relax => Effect(12, [(Relationships, 15), (Health, 10), (Energy, 10)])
    case DrinkWater => Effect(8, [(Health, 10), (Energy, 5)])
    case Shower => Effect(10, [(Health, 15), (Relationships, 10)])
  }

  /** getActionEffects: the table looked up by an action's string key, with a zero
      effect for any other key. A key of one of the six actions finds that action's
      entry; every other key gets the fallback. */
  function EffectsFor(key: string): (e: Effect)
    ensures forall id :: key == Key(id) ==> e == EffectOf(id)
    ensures (forall id :: key != Key(id)) ==> e == NoEffect
  {
    if key == Key(Sleep) then EffectOf(Sleep)
    else if key == Key(Eat) then EffectOf(Eat)
    else if key == Key(Exercise) then EffectOf(Exercise)
    else if key == Key(Relax) then EffectOf(Relax)
    else if key == Key(DrinkWater) then EffectOf(DrinkWater)
    else if key == Key(Shower) then EffectOf(Shower)
    else NoEffect
  }

  /** The sum of the four stats that decide the mood (productivity is left out). */
  function MoodSum(a: Alex): int {
    a.health + a.energy + a.sleepQuality + a.relationships
  }

  /** updateAlexMood: the mean of health, energy, sleep quality and relationships,
      compared with 70, 50 and 30. On whole-number stats this is exactly the sum
      compared with 280, 200 and 120. */
  function MoodOf(a: Alex): (m: Mood)
    ensures m == Happy <==> MoodSum(a) >= 280
    ensures m == Relaxed <==> 200 <= MoodSum(a) < 280
    ensures m == Tired <==> 120 <= MoodSum(a) < 200
    ensures m == Stressed <==> MoodSum(a) < 120
  {
    var avg := MoodSum(a) as real / 4.0;
    if avg >= 70.0 then Happy
    else if avg >= 50.0 then Relaxed
    else if avg >= 30.0 then Tired
    else Stressed
  }

  /** Moods ordered from worst to best. */
  function Rank(m: Mood): nat {
    match m
    case Stressed => 0
    case Tired => 1
    case Relaxed => 2
    case Happy => 3
  }

  /** Raising any of the four mood stats never makes the mood worse. */
  lemma MoodMonotone(a: Alex, b: Alex)
    requires a.health <= b.health && a.energy <= b.energy
    requires a.sleepQuality <= b.sleepQuality && a.relationships <= b.relationships
    ensures Rank(MoodOf(a)) <= Rank(MoodOf(b))
  {
  }
}
