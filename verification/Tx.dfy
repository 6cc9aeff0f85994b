// WithImmediateTx: BEGIN IMMEDIATE, the callback, and COMMIT or ROLLBACK on one connection.
module Tx {
  import opened Common
  import opened Store
  import opened Booking
  import opened Scripts
  import ScriptProofs
  import Handlers

  /** Where it goes wrong: no connection, no lock, a failed statement or a panic after some
      number of good ones, or a failed COMMIT. */
  datatype Fault = NoFault | NoConnection | NoLock | FailsAfter(statements: nat) | NoCommit

  /** The request is lost to the fault. */
  ghost predicate Strikes(fault: Fault, e: Event, t: Tables)
  {
    match fault
    case NoFault => false
    case NoConnection => true
    case NoLock => true
    case FailsAfter(n) => Run(ScriptOf(e), t, n).Unfinished?
    case NoCommit => Perform(t, e).Done?
  }

  predicate Served(e: Event, t: Tables)
  {
    EarlyError(e).None? && (Anonymous(e.request) || (e.actor.id in t.users && e.actor.id != 0))
  }

  /** Enough statements for the script to end. */
  lemma EnoughFuel(e: Event, t: Tables) returns (fuel: nat)
    requires Served(e, t)
    ensures Run(ScriptOf(e), t, fuel).Ended?
  {
    ScriptProofs.ScriptIsPerform(e, t);
    fuel :| ScriptProofs.EndsWithin(ScriptOf(e), t, Perform(t, e), fuel);
  }

  class Database {
    var committed: Tables
    var session: Handlers.Conn?   // the open transaction on the pooled connection

    constructor ()
      ensures committed == EmptyTables() && session == null
    {
      committed := EmptyTables();
      session := null;
    }

    /** BEGIN IMMEDIATE, to run e's script. */
    method Begin(e: Event, fault: Fault) returns (ok: bool)
      requires session == null && Served(e, committed)
      modifies this
      ensures committed == old(committed) && (ok <==> !fault.NoLock?) && (ok <==> session != null)
      ensures ok ==>
        fresh(session) && session.Ready(ScriptOf(e)) && session.tables == committed
        && (session.fate.Unfinished? <==> fault.FailsAfter? && Strikes(fault, e, committed))
    {
      if fault.NoLock? {
        return false;
      }
      ghost var fuel := EnoughFuel(e, committed);
      if fault.FailsAfter? {
        fuel := fault.statements;
      }
      var left := if fault.FailsAfter? then Some(fault.statements) else None;
      session := new Handlers.Conn(committed, left, ScriptOf(e), fuel);
      return true;
    }

    method Commit(fault: Fault) returns (ok: bool)
      requires session != null
      modifies this
      ensures ok <==> !fault.NoCommit?
      ensures if ok then committed == old(session.tables) && session == null else unchanged(this)
    {
      if fault.NoCommit? {
        return false;
      }
      committed := session.tables;
      session := null;
      return true;
    }

    method Rollback()
      requires session != null
      modifies this
      ensures committed == old(committed) && session == null
    {
      session := null;
    }

    /** The request's callback, inside the transaction. */
    method Call(e: Event) returns (r: Handlers.Answer<()>)
      requires session != null && session.Ready(ScriptOf(e)) && Served(e, session.tables)
      modifies session
      ensures session.Concluded(r)
      ensures !session.broken ==> Handlers.Answers(r, session.tables, Perform(old(session.tables), e))
    {
      if OnBooking(e.request) {
        r := session.HandleBooking(e);
      } else if OnListing(e.request) {
        r := session.HandleListing(e);
      } else {
        r := session.HandleAccount(e);
      }
    }

    /** Unless the fault strikes, the committed tables move by the whole request, and the answer
        is the request's; if it does, they stay and the answer is an error. Either way no
        transaction stays open. */
    method WithImmediateTx(e: Event, fault: Fault) returns (r: Handlers.Answer<()>)
      requires session == null && Served(e, committed)
      modifies this
      ensures session == null
      ensures Strikes(fault, e, old(committed)) ==> r == Handlers.Err(ServerError)
      ensures !Strikes(fault, e, old(committed)) ==> Handlers.Answers(r, committed, Perform(old(committed), e))
      ensures r.Err? ==> committed == old(committed)
    {
      if fault.NoConnection? {
        return Handlers.Err(ServerError);
      }
      var begun := Begin(e, fault);
      if !begun {
        return Handlers.Err(ServerError);
      }
      var done := false;

      r := Call(e);
      if r.Ok? {
        var ok := Commit(fault);
        if ok {
          done := true;
        } else {
          r := Handlers.Err(ServerError);
        }
      }

      if !done {
        Rollback();   // deferred: on an error, a panic or a failed COMMIT
      }
    }
  }
}
