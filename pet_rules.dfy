/** The rules of the virtual pet: its moods, the four recognised actions, what
    each action does to energy and hunger, and the mood override that runs
    after every action. These are the specification functions; the class in
    module PetServer performs the same steps field by field. */
module PetRules {

  datatype Option<T> = None | Some(value: T)

  /** A clock reading, an ISO-8601 string in the service; its format is not modelled. */
  type Timestamp = string

  const MinLevel := 0
  const MaxLevel := 100
  /** From this hunger on the pet is hungry, whatever else holds. */
  const HungryFrom := 80
  /** Up to this energy (and below HungryFrom hunger) the pet is sleepy. */
  const SleepyUpTo := 20
  const InitialEnergy := 80
  const InitialHunger := 20

  /** The five moods; MoodText gives the text the service shows. */
  datatype Mood = Happy | Full | Excited | Sleepy | Hungry

  function MoodText(m: Mood): string {
    match m
    case Happy => "开心"
    case Full => "饱饱的"
    case Excited => "兴奋"
    case Sleepy => "困倦"
    case Hungry => "饥饿"
  }

  /** Distinct moods have distinct texts, so the datatype is faithful to the
      stored strings, both assignments of 困倦 included. */
  lemma MoodTextInjective(m1: Mood, m2: Mood)
    ensures MoodText(m1) == MoodText(m2) ==> m1 == m2
  {
  }

  /** The four actions the service recognises. */
  datatype Action = Feed | Play | Sleep | Dance

  /** The literal a request must carry to select the action. */
  function ActionName(a: Action): string {
    match a
    case Feed => "feed"
    case Play => "play"
    case Sleep => "sleep"
    case Dance => "dance"
  }

  /** The fixed text returned to the caller and written to the log. */
  function Message(a: Action): string {
    match a
    case Feed => "宠物吃得很开心！"
    case Play => "宠物玩得满头大汗！"
    case Sleep => "宠物睡了一大觉。"
    case Dance => "宠物跳了一支魔性的舞！"
  }

  /** The mood an action sets before the override runs. */
  function BaseMood(a: Action): Mood {
    match a
    case Feed => Full
    case Play => Excited
    case Sleep => Sleepy
    case Dance => Happy
  }

  /** The `action` field of a request body, None when it is missing or not a
      string. The switch compares with strict equality, so exactly the four
      literals select an action and every other value selects none. */
  function ParseAction(request: Option<string>): (r: Option<Action>)
    ensures forall a: Action :: r == Some(a) <==> request == Some(ActionName(a))
  {
    if request == Some("feed") then Some(Feed)
    else if request == Some("play") then Some(Play)
    else if request == Some("sleep") then Some(Sleep)
    else if request == Some("dance") then Some(Dance)
    else None
  }

  function Max(x: int, y: int): int { if x < y then y else x }

  function Min(x: int, y: int): int { if x < y then x else y }

  datatype PetState = PetState(mood: Mood, energy: int, hunger: int, lastUpdated: Timestamp)

  /** The state the service starts with. */
  function Initial(now: Timestamp): PetState {
    PetState(Happy, InitialEnergy, InitialHunger, now)
  }

  predicate InRange(level: int) {
    MinLevel <= level <= MaxLevel
  }

  /** The mood is the one the override thresholds force, where they force one. */
  predicate MoodAgrees(mood: Mood, energy: int, hunger: int) {
    (mood == Hungry <==> hunger >= HungryFrom) &&
    (hunger < HungryFrom && energy <= SleepyUpTo ==> mood == Sleepy)
  }

  /** Energy, hunger and base mood after the switch case for `a`. */
  function SwitchCase(s: PetState, a: Action): PetState {
    match a
    case Feed => s.(hunger := Max(MinLevel, s.hunger - 20), energy := Min(MaxLevel, s.energy + 5), mood := Full)
    case Play => s.(energy := Max(MinLevel, s.energy - 15), hunger := Min(MaxLevel, s.hunger + 10), mood := Excited)
    case Sleep => s.(energy := MaxLevel, mood := Sleepy)
    case Dance => s.(hunger := Min(MaxLevel, s.hunger + 15), mood := Happy)
  }

  /** The mood after the override, from the base mood and the post-clamp
      levels: the hunger threshold is checked first and wins. */
  function Override(base: Mood, energy: int, hunger: int): (r: Mood)
    ensures hunger >= HungryFrom ==> r == Hungry
    ensures hunger < HungryFrom && energy <= SleepyUpTo ==> r == Sleepy
    ensures hunger < HungryFrom && energy > SleepyUpTo ==> r == base
  {
    if hunger >= HungryFrom then Hungry
    else if energy <= SleepyUpTo then Sleepy
    else base
  }

  /** The whole successful transition: switch case, override, new timestamp. */
  function Transition(s: PetState, a: Action, now: Timestamp): PetState {
    var b := SwitchCase(s, a);
    b.(mood := Override(b.mood, b.energy, b.hunger), lastUpdated := now)
  }

  /** Each action changes the levels exactly as its case says. */
  lemma ActionEffects(s: PetState, a: Action, now: Timestamp)
    ensures var r := Transition(s, a, now);
      r.lastUpdated == now &&
      match a
      case Feed => r.hunger == Max(0, s.hunger - 20) && r.energy == Min(100, s.energy + 5)
      case Play => r.energy == Max(0, s.energy - 15) && r.hunger == Min(100, s.hunger + 10)
      case Sleep => r.energy == 100 && r.hunger == s.hunger
      case Dance => r.energy == s.energy && r.hunger == Min(100, s.hunger + 15)
  {
  }

  /** The final mood follows the override precedence on the post-clamp levels. */
  lemma MoodPrecedence(s: PetState, a: Action, now: Timestamp)
    ensures var r := Transition(s, a, now);
      (r.hunger >= 80 ==> r.mood == Hungry) &&
      (r.hunger < 80 && r.energy <= 20 ==> r.mood == Sleepy) &&
      (r.hunger < 80 && r.energy > 20 ==> r.mood == BaseMood(a))
  {
  }

  /** A recognised action keeps both levels in [0, 100], and its final mood
      agrees with the thresholds, so the pet's invariant is preserved. */
  lemma TransitionKeepsInvariant(s: PetState, a: Action, now: Timestamp)
    requires InRange(s.energy) && InRange(s.hunger)
    ensures var r := Transition(s, a, now);
      InRange(r.energy) && InRange(r.hunger) && MoodAgrees(r.mood, r.energy, r.hunger)
  {
  }

  /** The initial state satisfies the invariant. */
  lemma InitialIsValid(now: Timestamp)
    ensures var s := Initial(now);
      InRange(s.energy) && InRange(s.hunger) && MoodAgrees(s.mood, s.energy, s.hunger)
  {
  }

  /** A sequence of recognised actions applied one after another, each with its clock reading. */
  ghost function Run(s: PetState, actions: seq<Action>, times: seq<Timestamp>): PetState
    requires |actions| == |times|
    decreases |actions|
  {
    if actions == [] then s
    else Run(Transition(s, actions[0], times[0]), actions[1..], times[1..])
  }

  /** However many actions are applied, the levels never leave [0, 100]:
      repeated sleeps never lift energy past 100 and repeated feeds never
      drive hunger below 0. */
  lemma {:induction false} RunStaysInRange(s: PetState, actions: seq<Action>, times: seq<Timestamp>)
    requires |actions| == |times|
    requires InRange(s.energy) && InRange(s.hunger)
    ensures InRange(Run(s, actions, times).energy) && InRange(Run(s, actions, times).hunger)
    decreases |actions|
  {
    if actions != [] {
      TransitionKeepsInvariant(s, actions[0], times[0]);
      RunStaysInRange(Transition(s, actions[0], times[0]), actions[1..], times[1..]);
    }
  }

  /** Sleeping twice is sleeping once: energy stays at 100. */
  lemma SleepIsIdempotent(s: PetState, t1: Timestamp, t2: Timestamp)
    ensures Transition(Transition(s, Sleep, t1), Sleep, t2) == Transition(s, Sleep, t2)
  {
  }

  /** Feeding a pet with no hunger leaves hunger at 0. */
  lemma FeedingStopsAtZero(s: PetState, now: Timestamp)
    requires s.hunger <= 20
    ensures Transition(s, Feed, now).hunger == 0
  {
  }

  /** Worked transitions: feeding the initial pet; playing at energy 20;
      dancing at hunger 70. */
  lemma WorkedExamples(t0: Timestamp, now: Timestamp)
    ensures Transition(Initial(t0), Feed, now) == PetState(Full, 85, 0, now)
    ensures Transition(PetState(Happy, 20, 10, t0), Play, now) == PetState(Sleepy, 5, 20, now)
    ensures Transition(PetState(Happy, 50, 70, t0), Dance, now) == PetState(Hungry, 50, 85, now)
  {
  }
}
