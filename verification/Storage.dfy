/** The tables one database session works on, updated in place. */
module Storage {
  import opened Wrappers
  import opened WorkflowModel

  class Database {
    var definitions: seq<Definition>
    var nextId: Id
    var instances: seq<Instance>
    var executions: seq<Execution>
    var records: seq<Record>
    var timers: seq<Timer>
    var outbox: seq<Event>

    /** The contents of all tables as one value. */
    function Rows(): Platform
      reads this
    {
      Platform(Catalog(definitions, nextId), instances, executions, records, timers, outbox)
    }

    constructor (p: Platform)
      ensures Rows() == p
    {
      definitions, nextId := p.catalog.defs, p.catalog.nextId;
      instances, executions, records := p.instances, p.executions, p.records;
      timers, outbox := p.timers, p.outbox;
    }

    /** Closing a session without commit (db/session.py): back to where it began. */
    method Rollback(p: Platform)
      modifies this
      ensures Rows() == p
    {
      definitions, nextId := p.catalog.defs, p.catalog.nextId;
      instances, executions, records := p.instances, p.executions, p.records;
      timers, outbox := p.timers, p.outbox;
    }
  }
}
