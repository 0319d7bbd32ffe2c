/**
 One command on a speaker over SSH (`desktop-app/boxssh.go`): the native client
 with one retry on a fresh connection, then the system client with one set of
 flags after the other. How often the command is executed.
 */
module SshCommand {
  import opened Options
  import opened Text

  // ----- the fallback chain -----

  /** What one run of the system client comes to: its output, and whether the speaker executed the command. */
  datatype FlagRun = FlagRun(out: string, failed: bool, executed: bool)

  type FlagRuns = nat -> FlagRun

  /** `sub` occurs in `s`. */
  predicate Contains(s: string, sub: string) {
    sub <= s || (s != "" && Contains(s[1..], sub))
  }

  /** The client's own complaint about an unknown option, as the app recognises it: anywhere in the output. */
  predicate IsBadOption(out: string) {
    Contains(Fold(out), "bad configuration option")
  }

  /** `sub` stands at place `i` of `s`. */
  predicate StandsAt(s: string, sub: string, i: int) {
    0 <= i && i + |sub| <= |s| && s[i..i + |sub|] == sub
  }

  lemma StandsShifted(s: string, sub: string, i: int)
    requires s != "" && 0 <= i
    ensures StandsAt(s[1..], sub, i) <==> StandsAt(s, sub, i + 1)
  {
    if i + |sub| <= |s[1..]| { assert s[1..][i..i + |sub|] == s[i + 1..i + 1 + |sub|]; }
  }

  lemma {:induction false} ContainsIs(s: string, sub: string)
    ensures Contains(s, sub) <==> exists i :: StandsAt(s, sub, i)
  {
    assert sub <= s <==> StandsAt(s, sub, 0) by {
      if |sub| <= |s| { assert s[0..|sub|] == s[..|sub|]; }
    }
    if s != "" {
      ContainsIs(s[1..], sub);
      forall i | 0 <= i ensures StandsAt(s[1..], sub, i) <==> StandsAt(s, sub, i + 1) { StandsShifted(s, sub, i); }
      if i :| StandsAt(s[1..], sub, i) { assert StandsAt(s, sub, i + 1); }
      if i :| StandsAt(s, sub, i) && i > 0 { assert StandsAt(s[1..], sub, i - 1); }
    }
    hide StandsAt;
  }

  /** The words stand at place `i` of the output, in any case. */
  ghost predicate WordsAt(out: string, words: string, i: int) {
    0 <= i && i + |words| <= |out| && forall k :: 0 <= k < |words| ==> SameLetter(out[i + k], words[k])
  }

  /** An output is taken for the complaint exactly if those words stand somewhere in it, in any case. */
  lemma BadOptionIs(out: string)
    ensures IsBadOption(out) <==> exists i :: WordsAt(out, "bad configuration option", i)
  {
    var words := "bad configuration option";
    ContainsIs(Fold(out), words);
    hide Contains, StandsAt;
    forall i ensures StandsAt(Fold(out), words, i) <==> WordsAt(out, words, i) { FoldedWords(out, words, i); }
  }

  lemma FoldedWords(out: string, words: string, i: int)
    requires forall k :: 0 <= k < |words| ==> !('A' <= words[k] <= 'Z')
    ensures StandsAt(Fold(out), words, i) <==> WordsAt(out, words, i)
  {
    if 0 <= i && i + |words| <= |out| {
      var f := Fold(out)[i..i + |words|];
      forall k | 0 <= k < |words| ensures f[k] == words[k] <==> SameLetter(out[i + k], words[k]) {
        assert f[k] == FoldChar(out[i + k]);
      }
    }
  }

  /** The first set from `start` on whose output is no complaint. */
  function StopsAt(runs: FlagRuns, start: nat, n: nat): (i: nat)
    requires start <= n
    ensures start <= i <= n
    ensures forall j :: start <= j < i ==> IsBadOption(runs(j).out)
    ensures i < n ==> !IsBadOption(runs(i).out)
    decreases n - start
  {
    if start == n || !IsBadOption(runs(start).out) then start else StopsAt(runs, start + 1, n)
  }

  /** How often the command is executed by the sets `from` to `to`. */
  function Executions(runs: FlagRuns, from: nat, end: nat): nat
    requires from <= end
    decreases end
  {
    if from == end then 0 else Executions(runs, from, end - 1) + if runs(end - 1).executed then 1 else 0
  }

  /** The sets tried run up to the one that stops the chain. */
  function TriedTo(runs: FlagRuns, start: nat, n: nat): (end: nat)
    requires start <= n
    ensures start <= end <= n
  {
    var i := StopsAt(runs, start, n);
    if i < n then i + 1 else n
  }

  class FlagCache {
    /** The set the local client was found to accept. */
    var active: Option<nat>

    constructor ()
      ensures active == None
    {
      active := None;
    }

    /** The chain over the `n` sets, from the accepted one on; the first set that is accepted is kept. */
    method TrySSHFlagSets(n: nat, runs: FlagRuns) returns (last: Option<FlagRun>, ghost executed: nat)
      requires active.Some? ==> active.value < n
      modifies this
      ensures var start := if old(active).Some? then old(active).value else 0;
              && executed == Executions(runs, start, TriedTo(runs, start, n))
              && last == (if TriedTo(runs, start, n) > start then Some(runs(TriedTo(runs, start, n) - 1)) else None)
              && active == (if old(active).None? && StopsAt(runs, start, n) < n then Some(StopsAt(runs, start, n))
                            else old(active))
    {
      hide IsBadOption;
      var start := if active.Some? then active.value else 0;
      last, executed := None, 0;
      for i := start to n
        invariant active == old(active)
        invariant forall j :: start <= j < i ==> IsBadOption(runs(j).out)
        invariant executed == Executions(runs, start, i)
        invariant last == if i > start then Some(runs(i - 1)) else None
      {
        var r := runs(i);
        executed := executed + if r.executed then 1 else 0;
        last := Some(r);
        if !IsBadOption(r.out) {
          assert StopsAt(runs, start, n) == i by { StopsHere(runs, start, n, i); }
          if active.None? {
            active := Some(i);
          }
          return;
        }
      }
      assert StopsAt(runs, start, n) == n;
    }
  }

  lemma StopsHere(runs: FlagRuns, start: nat, n: nat, i: nat)
    requires start <= i < n && !IsBadOption(runs(i).out) && forall j :: start <= j < i ==> IsBadOption(runs(j).out)
    ensures StopsAt(runs, start, n) == i
  {
    hide IsBadOption;
    var s := StopsAt(runs, start, n);
    assert !(s < i) && !(s > i);
  }

  lemma {:induction false} NoExecutions(runs: FlagRuns, from: nat, end: nat)
    requires from <= end && forall j :: from <= j < end ==> !runs(j).executed
    ensures Executions(runs, from, end) == 0
    decreases end
  {
    if from < end { NoExecutions(runs, from, end - 1); }
  }

  /** A complaint about an option comes before any connection: then the chain executes the command at most once. */
  lemma ExecutedAtMostOnce(runs: FlagRuns, start: nat, n: nat)
    requires start <= n && forall i :: start <= i < n && IsBadOption(runs(i).out) ==> !runs(i).executed
    ensures Executions(runs, start, TriedTo(runs, start, n)) <= 1
  {
    hide IsBadOption;
    NoExecutions(runs, start, StopsAt(runs, start, n));
  }

  /**
   A command whose own output contains the complaint is taken for a rejected
   set: with a client that knows every flag it is executed again exactly if the
   first output contains it and another set is left.
   */
  lemma ExecutedAgainExactlyWhen(runs: FlagRuns, start: nat, n: nat)
    requires start < n && forall i :: start <= i < n ==> runs(i).executed
    ensures Executions(runs, start, TriedTo(runs, start, n)) > 1 <==> IsBadOption(runs(start).out) && start + 1 < n
  {
    hide IsBadOption;
    AllExecuted(runs, start, TriedTo(runs, start, n));
  }

  lemma {:induction false} AllExecuted(runs: FlagRuns, from: nat, end: nat)
    requires from <= end && forall j :: from <= j < end ==> runs(j).executed
    ensures Executions(runs, from, end) == end - from
    decreases end
  {
    if from < end { AllExecuted(runs, from, end - 1); }
  }

  /** With such a client the command is executed exactly once by each set up to the first whose output lacks
      the complaint, and by every set that is left if there is none. */
  lemma ExecutionsExactly(runs: FlagRuns, start: nat, n: nat, i: nat)
    requires start < n && (forall j :: start <= j < n ==> runs(j).executed)
    requires start <= i < n && (forall j :: start <= j < i ==> IsBadOption(runs(j).out))
    requires i + 1 < n ==> !IsBadOption(runs(i).out)
    ensures Executions(runs, start, TriedTo(runs, start, n)) == i + 1 - start
  {
    hide IsBadOption;
    assert StopsAt(runs, start, n) >= i && StopsAt(runs, start, n) <= n;
    if i + 1 < n { StopsHere(runs, start, n, i); }
    AllExecuted(runs, start, TriedTo(runs, start, n));
  }

  /** The output of `echo`ing the complaint, executed by every set. */
  function EchoedRuns(): FlagRuns {
    (i: nat) => FlagRun("bad configuration option", false, true)
  }

  /** The app has three sets: with none found to be accepted yet, the command is executed three times. */
  lemma EchoExecutesThrice()
    ensures Executions(EchoedRuns(), 0, TriedTo(EchoedRuns(), 0, 3)) == 3
  {
    var out := "bad configuration option";
    assert Fold(out) == out;
    assert Contains(Fold(out), out);
    assert forall i: nat :: IsBadOption(EchoedRuns()(i).out);
    hide IsBadOption;
    ExecutionsExactly(EchoedRuns(), 0, 3, 2);
  }

  // ----- the native client -----

  /** What a cached or fresh connection comes to: none to be had, no session on it, or a session. */
  datatype Connection = NoConnection | NoSession(transport: nat) | Session(transport: nat)

  /** How the command on a session ended: with an exit status, or with the connection in doubt. */
  datatype Ending = Exited | Suspect

  /** The native run: at most two connections, the command on the first that gives a session. */
  method NativeSSHRun(first: Connection, second: Connection, ending: Ending)
    returns (ran: bool, dropped: seq<nat>, ghost executed: nat)
    ensures executed == if ran then 1 else 0
    ensures ran <==> first.Session? || (first.NoSession? && second.Session?)
    ensures forall t :: t in dropped <==>
              || first == NoSession(t)
              || (first.NoSession? && second == NoSession(t))
              || (ending == Suspect && (first == Session(t) || (first.NoSession? && second == Session(t))))
  {
    dropped, executed := [], 0;
    var client := first;
    if client.NoConnection? {
      return false, [], 0;
    }
    if client.NoSession? {
      dropped := dropped + [client.transport];
      client := second;
      if client.NoConnection? {
        return false, dropped, 0;
      }
      if client.NoSession? {
        dropped := dropped + [client.transport];
        return false, dropped, 0;
      }
    }
    executed := 1;
    if ending == Suspect {
      dropped := dropped + [client.transport];
    }
    return true, dropped, executed;
  }

  /** The whole call: the fallback chain runs only where the native client never executed the command. */
  method BoxSSHOutput(flags: FlagCache, first: Connection, second: Connection, ending: Ending, n: nat, runs: FlagRuns)
    returns (ghost executed: nat)
    requires flags.active.Some? ==> flags.active.value < n
    modifies flags
    ensures (forall i :: 0 <= i < n && IsBadOption(runs(i).out) ==> !runs(i).executed) ==> executed <= 1
    ensures first.Session? || (first.NoSession? && second.Session?) ==>
              executed == 1 && flags.active == old(flags.active)
  {
    hide IsBadOption, Executions;
    var ran, dropped;
    ran, dropped, executed := NativeSSHRun(first, second, ending);
    if ran {
      return;
    }
    var start := if flags.active.Some? then flags.active.value else 0;
    var last;
    last, executed := flags.TrySSHFlagSets(n, runs);
    if forall i :: 0 <= i < n && IsBadOption(runs(i).out) ==> !runs(i).executed {
      ExecutedAtMostOnce(runs, start, n);
    }
  }
}
