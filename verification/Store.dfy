// The database session that the repositories and the engine change in place. Its view is
// the protocol's state, so every method is specified against the protocol's functions.
module Store {
  import opened Domain
  import opened Protocol
  import P = Predictions

  class Session {
    var runs: seq<Run>
    var coverages: seq<Coverage>
    var locks: map<CoverageId, RunId>
    var ledger: seq<P.Prediction>
    var outbox: seq<Emission>
    var now: Time

    constructor ()
      ensures View() == EMPTY
    {
      runs, coverages, locks, ledger, outbox, now := [], [], map[], [], [], 0.0;
    }

    function View(): Db
      reads this
    {
      Db(runs, coverages, locks, ledger, outbox, now)
    }

    // What an exception leaves behind: the state the request began with
    // (core/api/deps.py, get_session).
    method Rollback(to: Db)
      modifies this
      ensures View() == to
    {
      runs, coverages, locks, ledger, outbox, now := to.runs, to.coverages, to.locks, to.ledger, to.outbox, to.now;
    }

    method SetRun(rid: RunId, r: Run)
      requires rid < |runs|
      modifies this`runs
      ensures View() == Protocol.SetRun(old(View()), rid, r)
    {
      runs := runs[rid := r];
    }
  }
}
