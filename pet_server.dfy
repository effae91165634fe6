/** The pet service: one pet whose fields the action handler updates in
    place, one bounded log, and the two read-only getters. */
module PetServer {
  import opened PetRules
  import opened ActionLog

  /** A handler's reply: 200 with the new state and message, or 400 with an error. */
  datatype Response = Ok(state: PetState, message: string) | BadRequest(error: string)

  const UnknownActionError := "未知动作"

  class Pet {
    var mood: Mood
    var energy: int
    var hunger: int
    var lastUpdated: Timestamp
    var logs: seq<LogEntry>
    /** Every entry ever logged, oldest first. */
    ghost var history: seq<LogEntry>

    function Snapshot(): PetState
      reads this
    {
      PetState(mood, energy, hunger, lastUpdated)
    }

    /** Levels in [0, 100], a mood that agrees with the thresholds, and a log
        that is what adding the whole history to an empty log gives. */
    ghost predicate Valid()
      reads this
    {
      InRange(energy) && InRange(hunger) && MoodAgrees(mood, energy, hunger) &&
      logs == Replay(history)
    }

    /** The state at service start: energy 80, hunger 20, mood Happy, empty log. */
    constructor (now: Timestamp)
      ensures Valid()
      ensures Snapshot() == Initial(now)
      ensures logs == [] && history == []
    {
      InitialIsValid(now);
      mood := Happy;
      energy := InitialEnergy;
      hunger := InitialHunger;
      lastUpdated := now;
      logs := [];
      history := [];
    }

    /** Puts a new entry at the head of the log and drops the tail past Capacity. */
    method AddLog(action: string, result: string, now: Timestamp)
      modifies this`logs, this`history
      ensures logs == Push(old(logs), LogEntry(action, result, now))
      ensures history == old(history) + [LogEntry(action, result, now)]
    {
      var entry := LogEntry(action, result, now);
      logs := [entry] + logs;
      if |logs| > Capacity {
        logs := logs[..|logs| - 1];
      }
      history := history + [entry];
    }

    /** The action handler. `request` is the body's `action` field, `now` the
        clock reading for lastUpdated, `logTime` the one for the log entry.
        An unrecognised action changes nothing; a recognised one performs the
        transition and logs exactly one entry carrying the request's action
        and the action's message. */
    method ApplyAction(request: Option<string>, now: Timestamp, logTime: Timestamp) returns (r: Response)
      requires Valid()
      modifies this
      ensures Valid()
      ensures ParseAction(request) == None ==>
        r == BadRequest(UnknownActionError) &&
        Snapshot() == old(Snapshot()) && logs == old(logs) && history == old(history)
      ensures ParseAction(request).Some? ==>
        var a := ParseAction(request).value;
        var entry := LogEntry(request.value, Message(a), logTime);
        request.value == ActionName(a) &&
        Snapshot() == Transition(old(Snapshot()), a, now) &&
        r == Ok(Snapshot(), Message(a)) &&
        logs == Push(old(logs), entry) &&
        history == old(history) + [entry]
    {
      var resultText := "";
      if request == Some("feed") {
        hunger := Max(MinLevel, hunger - 20);
        energy := Min(MaxLevel, energy + 5);
        mood := Full;
        resultText := Message(Feed);
      } else if request == Some("play") {
        energy := Max(MinLevel, energy - 15);
        hunger := Min(MaxLevel, hunger + 10);
        mood := Excited;
        resultText := Message(Play);
      } else if request == Some("sleep") {
        energy := MaxLevel;
        mood := Sleepy;
        resultText := Message(Sleep);
      } else if request == Some("dance") {
        hunger := Min(MaxLevel, hunger + 15);
        mood := Happy;
        resultText := Message(Dance);
      } else {
        return BadRequest(UnknownActionError);
      }

      if hunger >= HungryFrom {
        mood := Hungry;
      } else if energy <= SleepyUpTo {
        mood := Sleepy;
      }

      lastUpdated := now;
      AddLog(request.value, resultText, logTime);
      r := Ok(Snapshot(), resultText);
    }

    /** GET /pet: the current state, unchanged. */
    method GetState() returns (s: PetState)
      requires Valid()
      ensures s == Snapshot()
      ensures InRange(s.energy) && InRange(s.hunger) && MoodAgrees(s.mood, s.energy, s.hunger)
    {
      s := Snapshot();
    }

    /** GET /pet/log: the current log, newest first, at most Capacity entries. */
    method GetLog() returns (l: seq<LogEntry>)
      requires Valid()
      ensures l == logs
      ensures |l| == Min(|history|, Capacity)
      ensures forall i :: 0 <= i < |l| ==> l[i] == history[|history| - 1 - i]
    {
      ReplayKeepsNewest(history);
      l := logs;
    }
  }

  /** What a caller can rely on: the unknown-action and
      bounded-log behaviour, derived from the contracts alone. */
  method Client(t0: Timestamp, t1: Timestamp, t2: Timestamp)
  {
    var pet := new Pet(t0);
    var r := pet.ApplyAction(Some("jump"), t1, t2);
    assert r == BadRequest(UnknownActionError);
    assert pet.Snapshot() == Initial(t0) && pet.logs == [];
    r := pet.ApplyAction(Some("feed"), t1, t2);
    assert r == Ok(PetState(Full, 85, 0, t1), Message(Feed));
    assert pet.logs == [LogEntry("feed", Message(Feed), t2)];
    r := pet.ApplyAction(None, t2, t2);
    assert r.BadRequest?;
    var log := pet.GetLog();
    assert |log| == 1;
  }
}
