# Virtual pet service — Dafny model

The service keeps one pet in memory, made of a mood, an energy level, a hunger
level and a last-updated timestamp. It also keeps an action log that holds at
most 20 entries, newest first. `POST /pet/action` takes one of four actions:
`feed`, `play`, `sleep` or `dance`. Each action changes energy and hunger with
clamped arithmetic and sets a base mood. A mood override then runs on the new
levels: hunger of 80 or more makes the pet hungry, and otherwise energy of 20
or less makes it sleepy. The handler stamps the time and adds one log entry.
Any other action value gets a 400 reply, "未知动作", and changes nothing.
`GET /pet` and `GET /pet/log` return the state and the log.

The project has three modules:

- `PetRules` (pet_rules.dfy) holds the moods, the actions, the switch case of
  each action, the override and the whole transition as specification
  functions, with lemmas about them. Mood and message texts are the service's
  own Chinese strings.
- `ActionLog` (action_log.dfy) holds the log entry, `Push` (adding one entry to
  the log), `Replay` (the log after a series of additions) and lemmas about
  both.
- `PetServer` (pet_server.dfy) holds the class `Pet`. Its fields are the pet's
  fields plus the log. `ApplyAction` updates them one by one, like the
  handler, and is proved to equal `Transition` and `Push`. The invariant
  `Valid` states that both levels lie in [0, 100], that the mood agrees with
  the override thresholds, and that the log is `Replay` of every entry ever
  logged. A ghost field `history` holds those entries. `Client` shows what a
  caller can derive from the contracts alone.

The log entry's timestamp is its own clock read (backend/serve.js:24), separate from `lastUpdated` (backend/serve.js:74), so `ApplyAction` takes two timestamps, `now` and `logTime`.

## Model

| member | source | states |
|---|---|---|
| PetRules.ParseAction | backend/serve.js:40-64 | exactly the four literals select an action; a request selects `a` iff it carries `ActionName(a)`; a missing or other value selects none |
| PetRules.MoodTextInjective | backend/serve.js:44-71 | the five mood texts are pairwise distinct, so a mood datatype loses nothing of the stored string |
| PetRules.Override | backend/serve.js:68-72 | hunger ≥ 80 gives Hungry whatever the energy; otherwise energy ≤ 20 gives Sleepy; otherwise the base mood stays |
| PetRules.ActionEffects | backend/serve.js:41-61 | feed: hunger max(0, h−20), energy min(100, e+5); play: energy max(0, e−15), hunger min(100, h+10); sleep: energy 100, hunger unchanged; dance: energy unchanged, hunger min(100, h+15) |
| PetRules.MoodPrecedence | backend/serve.js:44-72 | the final mood follows the override precedence on the post-clamp levels, and otherwise is the action's base mood |
| PetRules.TransitionKeepsInvariant | backend/serve.js:42-72 | from levels in [0, 100], every recognised action leaves both levels in [0, 100] and a mood that agrees with the thresholds |
| PetRules.InitialIsValid | backend/serve.js:12-17 | the initial state (energy 80, hunger 20, Happy) satisfies the invariant |
| PetRules.RunStaysInRange | backend/serve.js:42-59 | any sequence of recognised actions keeps both levels in [0, 100], so repeated sleeps never pass 100 and repeated feeds never pass below 0 |
| PetRules.SleepIsIdempotent | backend/serve.js:53-56 | sleeping twice leaves the same state as sleeping once |
| PetRules.FeedingStopsAtZero | backend/serve.js:42 | feeding at hunger 20 or less leaves hunger exactly 0 |
| PetRules.WorkedExamples | backend/serve.js:12-72 | initial pet fed → (饱饱的, 85, 0); energy 20 hunger 10 played → (困倦, 5, 20); hunger 70 danced → (饥饿, 85) |
| ActionLog.Push | backend/serve.js:23-27 | the new entry is at index 0, the prior entries follow in order, and the length is old length + 1 below capacity, else unchanged |
| ActionLog.ReplayKeepsNewest | backend/serve.js:20-27 | after n additions to an empty log it holds min(n, 20) entries, the most recent first |
| ActionLog.FullLogDropsOldest | backend/serve.js:25-26 | adding to a log of 20 entries drops exactly the oldest (last) one |
| ActionLog.RoomyLogKeepsAll | backend/serve.js:25-26 | adding to a log of fewer than 20 entries keeps all of them behind the new one |
| ActionLog.TwentyFiveAdditions | backend/serve.js:20-27 | after 25 additions the log holds exactly 20 entries, the 25th first and the 6th last |
| PetServer.Pet.constructor | backend/serve.js:12-20 | the service starts with energy 80, hunger 20, mood 开心, an empty log, and the invariant holds |
| PetServer.Pet.AddLog | backend/serve.js:23-27 | the log becomes `Push` of the old log and the new entry; nothing else of the pet changes |
| PetServer.Pet.ApplyAction | backend/serve.js:35-78 | an unknown or missing action gives 400 "未知动作" and leaves state and log unchanged; a recognised one gives the state `Transition` of the old state, replies with its state and message, and logs one entry carrying the request's action, the same message and the log timestamp; the invariant is kept |
| PetServer.Pet.GetState | backend/serve.js:30-32 | returns the current state without changing it; its levels are in [0, 100] and its mood agrees with the thresholds |
| PetServer.Pet.GetLog | backend/serve.js:81-83 | returns the current log without changing it: min(n, 20) entries of the n logged so far, newest first |

## Left out

- The web framework setup, cross-origin headers, JSON body parsing, the listening port and console output (backend/serve.js:1-9, 85-87) are plumbing with no rules of their own.
- JSON encoding of replies is modelled as the `Response` datatype. A reply carries the state at the time of the reply, not a live reference to the pet.
- Clock reads are parameters (`now`, `logTime`). ISO-8601 formatting is not modelled.
- A request body's `action` field is `Option<string>`. `None` stands for a missing field and for any non-string value. Both fall to the default branch of the switch, because the switch compares with strict equality.
- Energy and hunger are mathematical integers. The service uses double-precision numbers, but the values start as small integers and only change by adding integers up to 20 with clamps, so they are always exact integers.
- Concurrency is not modelled. The handler runs to completion without suspending, so requests apply one at a time.
