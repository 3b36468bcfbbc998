/** Restarting, recurring and killing: base/pm/runner.go (`Run`). */
module Restart {
  import opened Wrappers
  import opened Runner

  /** How one execution ends: with a state, or before it began because the process could not be spawned. */
  datatype Ending = Ran(state: JobState) | NotSpawned

  /** One execution, and whether a kill arrives during the sleep after it, if there is one. */
  datatype Round = Round(ending: Ending, killedInSleep: bool)

  /** The state of the job result: `run` sets ERROR first and returns that if it cannot spawn the process. */
  function Outcome(round: Round): JobState { if round.ending.Ran? then round.ending.state else ERROR }

  /** How many times a command that keeps failing is executed. */
  function Trials(maxRestart: int): (n: nat)
    ensures n >= 1
  {
    if maxRestart > 1 then maxRestart else 1
  }

  /** Round `j` is the last one. */
  predicate IsLast(maxRestart: int, period: int, j: nat, round: Round) {
    || Outcome(round) == KILLED
    || (if period > 0 then round.killedInSleep
        else Outcome(round) == SUCCESS || j + 1 >= Trials(maxRestart) || round.killedInSleep)
  }

  /** The state that is reported when round `j` is the last one: a kill during a sleep overrides it. */
  function FinalState(maxRestart: int, period: int, j: nat, round: Round): JobState
    requires IsLast(maxRestart, period, j, round)
  {
    if period <= 0 && (Outcome(round) == SUCCESS || j + 1 >= Trials(maxRestart)) then Outcome(round) else KILLED
  }

  /** `executed` rounds were executed, up to the first that is the last one, whose state is reported. */
  ghost predicate Follows(maxRestart: int, period: int, rounds: seq<Round>, final: Option<JobState>, executed: nat) {
    && executed <= |rounds|
    && (forall j :: 0 <= j < executed - 1 ==> !IsLast(maxRestart, period, j, rounds[j]))
    && (final.None? ==>
          executed == |rounds| && forall j :: 0 <= j < |rounds| ==> !IsLast(maxRestart, period, j, rounds[j]))
    && (final.Some? ==> executed > 0 && IsLast(maxRestart, period, executed - 1, rounds[executed - 1])
                        && final.value == FinalState(maxRestart, period, executed - 1, rounds[executed - 1]))
  }

  /** The number of rounds up to and including the first SUCCESS or KILLED, or one more than there are. */
  function FirstDone(rounds: seq<Round>): (k: nat)
    ensures 1 <= k <= |rounds| + 1
    ensures forall j :: 0 <= j < k - 1 ==> Outcome(rounds[j]) != SUCCESS && Outcome(rounds[j]) != KILLED
    ensures k <= |rounds| ==> Outcome(rounds[k - 1]) == SUCCESS || Outcome(rounds[k - 1]) == KILLED
  {
    if rounds == [] || Outcome(rounds[0]) == SUCCESS || Outcome(rounds[0]) == KILLED then 1
    else 1 + FirstDone(rounds[1..])
  }

  function Min(a: nat, b: nat): nat { if a < b then a else b }

  // ---------------------------------------------------------------------------------------------
  // What the source promises
  // ---------------------------------------------------------------------------------------------

  /**
    Without recurrence and kills in the sleep: until it succeeds or is killed, and at most max(1, MaxRestart) times.
   */
  ghost predicate KeepsPolicy(maxRestart: int, period: int, rounds: seq<Round>, final: Option<JobState>,
                              executed: nat) {
    period <= 0 && (forall j :: 0 <= j < |rounds| ==> !rounds[j].killedInSleep) ==>
      var n := Min(FirstDone(rounds), Trials(maxRestart));
      if n <= |rounds| then executed == n && final == Some(Outcome(rounds[n - 1]))
      else executed == |rounds| && final == None
  }

  /** A recurring command ends exactly if it is killed, and as KILLED. */
  ghost predicate RecursUntilKilled(period: int, rounds: seq<Round>, final: Option<JobState>) {
    period > 0 ==>
      && (final.None? || final == Some(KILLED))
      && (final.Some? <==> exists j :: 0 <= j < |rounds| && (Outcome(rounds[j]) == KILLED || rounds[j].killedInSleep))
  }

  /** Nothing is executed after an execution that was killed. */
  ghost predicate StopsWhenKilled(rounds: seq<Round>, final: Option<JobState>, executed: nat)
    requires executed <= |rounds|
  {
    forall j :: 0 <= j < executed && Outcome(rounds[j]) == KILLED ==> j == executed - 1 && final == Some(KILLED)
  }

  /**
    A process that could not be spawned is tried again, unless its trials are used up or a kill ends the
    sleep. So a command that can never be spawned is executed once exactly under the last condition.
   */
  ghost predicate RetriesSpawning(maxRestart: int, period: int, rounds: seq<Round>, final: Option<JobState>,
                                  executed: nat)
    requires executed <= |rounds|
  {
    && (forall j :: 0 <= j < executed && rounds[j].ending.NotSpawned? ==>
          (j == executed - 1 && final.Some? <==>
                rounds[j].killedInSleep || (period <= 0 && j + 1 >= Trials(maxRestart))))
    && (rounds != [] && (forall j :: 0 <= j < |rounds| ==> rounds[j].ending.NotSpawned?) ==>
          (executed == 1 && final.Some? <==> (period <= 0 && maxRestart <= 1) || rounds[0].killedInSleep))
  }

  /** After round `j` the command sleeps and is executed again, unless a kill ends the sleep. */
  predicate Sleeps(maxRestart: int, period: int, j: nat, outcome: JobState) {
    outcome != KILLED && (period > 0 || (outcome != SUCCESS && j + 1 < maxRestart))
  }

  /**
    Round by round: one that is followed by a sleep is followed by another round, or by the report of KILLED if
    there is a kill in that sleep; any other is the last, and its own state is reported.
   */
  ghost predicate GoesRoundByRound(maxRestart: int, period: int, rounds: seq<Round>, final: Option<JobState>,
                                   executed: nat)
    requires executed <= |rounds|
  {
    && (rounds != [] ==> executed > 0) && (rounds == [] ==> final == None)
    && forall j :: 0 <= j < executed ==>
         var outcome := if rounds[j].ending == NotSpawned then ERROR else rounds[j].ending.state;
         if !Sleeps(maxRestart, period, j, outcome) then j == executed - 1 && final == Some(outcome)
         else if rounds[j].killedInSleep then j == executed - 1 && final == Some(KILLED)
         else j < executed - 1 || (executed == |rounds| && final == None)
  }

  lemma {:induction false} RoundByRound(maxRestart: int, period: int, rounds: seq<Round>, final: Option<JobState>,
                                        executed: nat)
    requires Follows(maxRestart, period, rounds, final, executed)
    ensures GoesRoundByRound(maxRestart, period, rounds, final, executed)
  {
    forall j | 0 <= j < executed
      ensures IsLast(maxRestart, period, j, rounds[j]) <==>
              !Sleeps(maxRestart, period, j, Outcome(rounds[j])) || rounds[j].killedInSleep
    {
    }
  }

  lemma {:induction false} PolicyKept(maxRestart: int, period: int, rounds: seq<Round>, final: Option<JobState>,
                                      executed: nat)
    requires Follows(maxRestart, period, rounds, final, executed)
    ensures KeepsPolicy(maxRestart, period, rounds, final, executed)
  {
    var n := Min(FirstDone(rounds), Trials(maxRestart));
    if period <= 0 && (forall j :: 0 <= j < |rounds| ==> !rounds[j].killedInSleep) && n <= |rounds| {
      assert IsLast(maxRestart, period, n - 1, rounds[n - 1]);
    }
  }

  lemma {:induction false} KillsKept(maxRestart: int, period: int, rounds: seq<Round>, final: Option<JobState>,
                                     executed: nat)
    requires Follows(maxRestart, period, rounds, final, executed)
    ensures RecursUntilKilled(period, rounds, final) && StopsWhenKilled(rounds, final, executed)
  {
    forall j | 0 <= j < |rounds| && (Outcome(rounds[j]) == KILLED || (period > 0 && rounds[j].killedInSleep))
      ensures IsLast(maxRestart, period, j, rounds[j])
    {
    }
  }

  lemma {:induction false} SpawnsRetried(maxRestart: int, period: int, rounds: seq<Round>, final: Option<JobState>,
                                         executed: nat)
    requires Follows(maxRestart, period, rounds, final, executed)
    ensures RetriesSpawning(maxRestart, period, rounds, final, executed)
  {
    forall j | 0 <= j < executed && rounds[j].ending.NotSpawned?
      ensures j == executed - 1 && final.Some? <==>
            rounds[j].killedInSleep || (period <= 0 && j + 1 >= Trials(maxRestart))
    {
      assert IsLast(maxRestart, period, j, rounds[j]) <==>
            rounds[j].killedInSleep || (period <= 0 && j + 1 >= Trials(maxRestart));
    }
    if rounds != [] && rounds[0].ending.NotSpawned? {
      assert IsLast(maxRestart, period, 0, rounds[0]) <==> rounds[0].killedInSleep || (period <= 0 && maxRestart <= 1);
    }
  }

  /**
    `Run`, given how its executions turn out. `exits` is what the exit hooks are told, one state per
    execution. If the rounds run out, the command is still going on.
   */
  method RunCommand(maxRestart: int, period: int, rounds: seq<Round>)
    returns (final: Option<JobState>, exits: seq<JobState>)
    ensures Follows(maxRestart, period, rounds, final, |exits|)
    ensures forall j :: 0 <= j < |exits| ==> exits[j] == Outcome(rounds[j])
    ensures GoesRoundByRound(maxRestart, period, rounds, final, |exits|)
    ensures KeepsPolicy(maxRestart, period, rounds, final, |exits|)
    ensures RecursUntilKilled(period, rounds, final) && StopsWhenKilled(rounds, final, |exits|)
    ensures RetriesSpawning(maxRestart, period, rounds, final, |exits|)
  {
    var runs := 0;
    final, exits := None, [];
    while |exits| < |rounds|
      invariant |exits| <= |rounds| && final.None? && forall j :: 0 <= j < |exits| ==> exits[j] == Outcome(rounds[j])
      invariant forall j :: 0 <= j < |exits| ==> !IsLast(maxRestart, period, j, rounds[j])
      invariant period <= 0 ==> runs == if maxRestart > 0 then |exits| else 0
      decreases |rounds| - |exits|
    {
      var round := rounds[|exits|];
      var result := Outcome(round);
      exits := exits + [result];
      if result == KILLED {
        final := Some(result);
        break;
      }
      var restarting := false;
      if result != SUCCESS && maxRestart > 0 {
        runs := runs + 1;
        if runs < maxRestart {
          restarting := true;
        }
      }
      if period > 0 {
        restarting := true;
      }
      if restarting {
        if round.killedInSleep {
          final := Some(KILLED);
          break;
        }
      } else {
        final := Some(result);
        break;
      }
    }
    assert Follows(maxRestart, period, rounds, final, |exits|);
    RoundByRound(maxRestart, period, rounds, final, |exits|);
    PolicyKept(maxRestart, period, rounds, final, |exits|);
    KillsKept(maxRestart, period, rounds, final, |exits|);
    SpawnsRetried(maxRestart, period, rounds, final, |exits|);
  }

  /** The comment in base/pm/runner.go:133-135 fails for this command: it cannot be spawned, and is tried twice. */
  lemma SpawnFailureIsRetried(final: Option<JobState>, executed: nat)
    requires Follows(2, 0, [Round(NotSpawned, false), Round(NotSpawned, false)], final, executed)
    ensures executed == 2 && final == Some(ERROR)
  {
    var rounds := [Round(NotSpawned, false), Round(NotSpawned, false)];
    assert IsLast(2, 0, 1, rounds[1]) && !IsLast(2, 0, 0, rounds[0]);
  }
}
