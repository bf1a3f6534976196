/** The four durable stores as running processes share them.

    A service method does its store calls one at a time.  Between two of them it yields: any number of
    atomic actions of other processes may happen, and the next database call may fail before it writes
    anything.  Every successful call is recorded in the log, and Valid says that the log is a legal run
    of the protocol whose stores are the ones in memory.  So each method body below is, step by step,
    part of a run of the step system, and a process may die at any yield. */
module Deployment {
  import opened Protocol
  import opened ProtocolInvariants
  import MissionStore
  import AttemptStore
  import AuthorizationLedger

  /** later continues before, and what was added is the work of other processes. */
  predicate ContinuedByOthers(pid: Pid, before: Run, later: Run) {
    && before <= later
    && forall a :: a in later && a.pid == pid ==> a in before
  }

  /** After a yield and one action, that action is all a process has added. */
  lemma OneMore(pid: Pid, before: Run, later: Run, a: Action)
    requires ContinuedByOthers(pid, before, later)
    ensures before <= later + [a]
    ensures forall b :: b in later + [a] && b.pid == pid && b !in before ==> b == a
  {
  }

  predicate Foreign(pid: Pid, more: Run) {
    forall a :: a in more ==> a.pid != pid
  }

  class System {
    const cfg: Config
    /** No other process acts and no database call fails. */
    const quiet: bool
    const missions: MissionStore.Store
    const attempts: AttemptStore.Store
    const ledger: AuthorizationLedger.Ledger
    const references: AuthorizationLedger.ReferenceStore
    var log: Run

    ghost function Now(): Stores
      reads this, missions, attempts, ledger, references
    {
      Stores(missions.rows, attempts.rows, ledger.rows, references.rows)
    }

    ghost predicate Valid()
      reads this, missions, attempts, ledger, references
    {
      Legal(cfg, log) && Now() == Replay(log)
    }

    /** A process that has not acted yet. */
    ghost predicate Fresh(pid: Pid)
      reads this
    {
      forall a :: a in log ==> a.pid != pid
    }

    constructor (cfg: Config, quiet: bool)
      ensures Valid() && log == [] && this.cfg == cfg && this.quiet == quiet
      ensures fresh(missions) && fresh(attempts) && fresh(ledger) && fresh(references)
    {
      this.cfg := cfg;
      this.quiet := quiet;
      missions := new MissionStore.Store();
      attempts := new AttemptStore.Store();
      ledger := new AuthorizationLedger.Ledger();
      references := new AuthorizationLedger.ReferenceStore();
      log := [];
    }

    /** Let other processes act; fault says whether the caller's next database call fails. */
    method Yield(pid: Pid) returns (fault: bool)
      requires Valid()
      modifies this, missions, attempts, ledger, references
      ensures Valid() && ContinuedByOthers(pid, old(log), log) && StoresEvolve(old(Now()), Now())
      ensures quiet ==> !fault && log == old(log) && Now() == old(Now())
    {
      var more: Run := *;
      var failing: bool := *;
      fault := false;
      if !quiet {
        fault := failing;
        if Foreign(pid, more) && Legal(cfg, log + more) {
          log := log + more;
          var s := Replay(log);
          missions.rows, attempts.rows, ledger.rows, references.rows := s.missions, s.attempts, s.ledger, s.references;
        }
      }
      Evolved(old(log));
    }

    /** Record the action whose effect on the stores has just been carried out. */
    method Commit(a: Action)
      requires Legal(cfg, log) && Enabled(cfg, Replay(log), log, a)
      requires Now() == Apply(Replay(log), a)
      modifies this
      ensures Valid() && log == old(log) + [a] && Now() == old(Now())
    {
      StepExtends(cfg, log, a);
      log := log + [a];
    }

    lemma Shows()
      ensures Now() == Stores(missions.rows, attempts.rows, ledger.rows, references.rows)
    {
    }

    lemma Evolved(before: Run)
      requires Valid() && before <= log
      ensures StoresEvolve(Replay(before), Now())
    {
      assert log[..|before|] == before;
      RunEvolves(cfg, log, |before|);
    }
  }
}
