/** The registry of tables: server.h and server.cpp. */
module Servers {
  import opened Wrappers
  import opened Tables
  import opened Handlers

  datatype Exception =
    | OperationException(text: string)
    | FailedTransaction(text: string)
    | InvalidMessage(text: string)

  // How a call ends: it returns, it throws, or its thread waits for a mutex another one holds.
  datatype Status = Returned | Threw(e: Exception) | Waiting

  class Server {
    var tables: map<string, Table>
    // The owner of the registry mutex.
    var registryOwner: Option<Conn>

    // Tables are registered under their own names, so two names never share a table.
    ghost predicate Valid()
      reads this
    {
      forall n :: n in tables ==> tables[n].name == n
    }

    ghost function Shared(): World
      reads this, tables.Values
    {
      World(map n | n in tables :: tables[n].Value(), registryOwner)
    }

    constructor ()
      ensures Valid() && Shared() == World(map[], None)
    {
      tables, registryOwner := map[], None;
    }

    method CreateTable(name: string, me: Conn) returns (status: Status)
      requires Valid()
      modifies this
      ensures Valid() && registryOwner == old(registryOwner)
      ensures status == if registryOwner.Some? then Waiting
                        else if name in old(tables) then Threw(OperationException(DUPLICATE_TABLE))
                        else Returned
      ensures !status.Returned? ==> tables == old(tables)
      ensures status.Returned? ==>
                && name in tables && tables == old(tables)[name := tables[name]]
                && fresh(tables[name]) && tables[name].Value() == NewTable(name)
    {
      if registryOwner.Some? {
        return Waiting;
      }
      registryOwner := Some(me);
      if name in tables {
        registryOwner := None;
        return Threw(OperationException(DUPLICATE_TABLE));
      }
      var table := new Table(name);
      tables := tables[name := table];
      registryOwner := None;
      return Returned;
    }

    method FindTable(name: string, me: Conn) returns (status: Status, table: Table?)
      requires Valid()
      modifies this`registryOwner
      ensures Valid() && registryOwner == old(registryOwner)
      ensures status == if registryOwner.Some? then Waiting
                        else if name in tables then Returned
                        else Threw(OperationException(NO_SUCH_TABLE))
      ensures if status.Returned? then table == tables[name] else table == null
    {
      if registryOwner.Some? {
        return Waiting, null;
      }
      registryOwner := Some(me);
      if name in tables {
        table := tables[name];
        status := Returned;
      } else {
        table := null;
        status := Threw(OperationException(NO_SUCH_TABLE));
      }
      registryOwner := None;
    }
  }
}
