/** The two locks of the control service as it keeps them (apps/cliproxy-control/src/service.ts). */
module ServiceLocks {
  import opened Prelude
  import opened PromiseLock

  /** The promise a task resolves when it is finished, and the promise it awaits first (null: already resolved). */
  class Ticket {
    const key: string
    const previous: Ticket?
    var released: bool

    constructor (key: string, previous: Ticket?)
      ensures this.key == key && this.previous == previous && !released
    {
      this.key := key;
      this.previous := previous;
      released := false;
    }
  }

  /** Tickets are the tasks of the model, one for one. */
  ghost predicate Matches(tickets: seq<Ticket>, model: Lock, i: nat)
    requires i < |tickets| == |model.tasks|
    reads tickets[i]
  {
    var t := tickets[i];
    var task := model.tasks[i];
    && t.key == task.key
    && t.released == task.phase.Done?
    && if t.previous == null then task.previous.None?
       else task.previous.Some? && task.previous.value < |tickets| && t.previous == tickets[task.previous.value]
  }

  ghost predicate Reflects(tickets: seq<Ticket>, model: Lock)
    reads tickets
  {
    && |tickets| == |model.tasks|
    && (forall i, j :: 0 <= i < j < |tickets| ==> tickets[i] != tickets[j])
    && (forall i: nat :: i < |tickets| ==> Matches(tickets, model, i))
  }

  /** One promise chain per OAuth provider; the last task of a chain removes its map entry. */
  class ProviderLocks {
    var tails: map<string, Ticket>
    ghost var tickets: seq<Ticket>
    ghost var model: Lock

    ghost predicate Valid()
      reads this, tickets
    {
      && Reflects(tickets, model)
      && tails.Keys == model.tails.Keys
      && forall key :: key in tails ==> model.tails[key] < |tickets| && tails[key] == tickets[model.tails[key]]
    }

    constructor ()
      ensures Valid() && model == Empty() && tickets == []
    {
      tails, tickets, model := map[], [], Empty();
    }

    /** Up to the await: queue behind the provider's last task. */
    method Arrive(provider: string) returns (ticket: Ticket)
      requires Valid()
      modifies this
      ensures Valid() && fresh(ticket) && tickets == old(tickets) + [ticket]
      ensures model == Step(true, old(model), PromiseLock.Arrive(provider))
    {
      var previous: Ticket? := if provider in tails then tails[provider] else null;
      ticket := new Ticket(provider, previous);
      ghost var before := tickets;
      model := Step(true, model, PromiseLock.Arrive(provider));
      tickets := tickets + [ticket];
      tails := tails[provider := ticket];
      forall i: nat | i < |tickets| ensures Matches(tickets, model, i) {
        if i < |before| { assert Matches(before, old(model), i); }
      }
    }

    /** The awaited promise is resolved and the action starts. */
    ghost method Resume(i: nat)
      requires Valid() && i < |tickets| && model.tasks[i].phase.Waiting?
      requires tickets[i].previous != null ==> tickets[i].previous.released
      modifies this`model
      ensures Valid() && CanEnter(old(model), i) && model == Step(true, old(model), Enter(i))
    {
      assert Matches(tickets, model, i);
      if tickets[i].previous != null { assert Matches(tickets, model, model.tasks[i].previous.value); }
      model := Step(true, model, Enter(i));
      forall j: nat | j < |tickets| ensures Matches(tickets, model, j) { assert old(Matches(tickets, model, j)); }
    }

    /** The finally block, run whether the action returned or threw. */
    method Finish(ticket: Ticket, ghost i: nat)
      requires Valid() && i < |tickets| && tickets[i] == ticket && model.tasks[i].phase.Holding?
      modifies this, ticket
      ensures Valid() && tickets == old(tickets)
      ensures model == Step(true, old(model), Leave(i))
    {
      assert Matches(tickets, model, i);
      ticket.released := true;
      model := Step(true, model, Leave(i));
      if ticket.key in tails && tails[ticket.key] == ticket {
        tails := tails - {ticket.key};
      }
      forall j: nat | j < |tickets| ensures Matches(tickets, model, j) { assert old(Matches(tickets, model, j)); }
    }
  }

  /** The one chain through which all store changes go; its tail is never removed. */
  class MutationLock {
    var tail: Ticket?
    ghost var tickets: seq<Ticket>
    ghost var model: Lock

    ghost predicate Valid()
      reads this, tickets
    {
      && Reflects(tickets, model)
      && model.tails.Keys == (if tail == null then {} else {""})
      && (tail != null ==> model.tails[""] < |tickets| && tail == tickets[model.tails[""]])
      && forall i :: 0 <= i < |model.tasks| ==> model.tasks[i].key == ""
    }

    constructor ()
      ensures Valid() && model == Empty() && tickets == []
    {
      tail, tickets, model := null, [], Empty();
    }

    method Arrive() returns (ticket: Ticket)
      requires Valid()
      modifies this
      ensures Valid() && fresh(ticket) && tickets == old(tickets) + [ticket]
      ensures model == Step(false, old(model), PromiseLock.Arrive(""))
    {
      var previous := tail;
      ticket := new Ticket("", previous);
      ghost var before := tickets;
      model := Step(false, model, PromiseLock.Arrive(""));
      tickets := tickets + [ticket];
      tail := ticket;
      forall i: nat | i < |tickets| ensures Matches(tickets, model, i) {
        if i < |before| { assert Matches(before, old(model), i); }
      }
    }

    ghost method Resume(i: nat)
      requires Valid() && i < |tickets| && model.tasks[i].phase.Waiting?
      requires tickets[i].previous != null ==> tickets[i].previous.released
      modifies this`model
      ensures Valid() && CanEnter(old(model), i) && model == Step(false, old(model), Enter(i))
    {
      assert Matches(tickets, model, i);
      if tickets[i].previous != null { assert Matches(tickets, model, model.tasks[i].previous.value); }
      model := Step(false, model, Enter(i));
      forall j: nat | j < |tickets| ensures Matches(tickets, model, j) { assert old(Matches(tickets, model, j)); }
    }

    method Finish(ticket: Ticket, ghost i: nat)
      requires Valid() && i < |tickets| && tickets[i] == ticket && model.tasks[i].phase.Holding?
      modifies this`model, ticket
      ensures Valid()
      ensures model == Step(false, old(model), Leave(i))
    {
      assert Matches(tickets, model, i);
      ticket.released := true;
      model := Step(false, model, Leave(i));
      forall j: nat | j < |tickets| ensures Matches(tickets, model, j) { assert old(Matches(tickets, model, j)); }
    }
  }
}
