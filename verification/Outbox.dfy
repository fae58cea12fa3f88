/** The runner's durable store (LocalStore in backend/runner/store.py).

Three of its tables are modelled:

- the idempotency claims;
- the executed remote commands;
- the event outbox.

Each is described by functions on values; the class applies them to its fields.  Everything else that the store holds is
not part of this model. */
module Outbox {
  import opened Common

  datatype Event = Event(id: string, payload: string)

  /** An outbox row.  Its number is AUTOINCREMENT: it is never given out twice, even after its row is gone. */
  datatype Row = Row(num: nat, key: Option<string>, event: Event)

  datatype Table = Table(rows: seq<Row>, next: nat)

  const EMPTY := Table([], 1)

  /** An empty dedupe key counts as none. */
  predicate Coalesces(key: Option<string>) { key.Some? && key.value != "" }

  function Without(rows: seq<Row>, key: Option<string>): (r: seq<Row>)
    ensures forall x :: x in r <==> x in rows && x.key != key
  {
    if rows == [] then []
    else if rows[0].key == key then Without(rows[1..], key)
    else [rows[0]] + Without(rows[1..], key)
  }

  function Above(rows: seq<Row>, upTo: int): (r: seq<Row>)
    ensures forall x :: x in r <==> x in rows && x.num > upTo
  {
    if rows == [] then []
    else if rows[0].num <= upTo then Above(rows[1..], upTo)
    else [rows[0]] + Above(rows[1..], upTo)
  }

  /** outbox_add: a coalescing event replaces the unsent one with the same key and goes to the back of the queue. */
  function Add(t: Table, event: Event, key: Option<string>): Table {
    Table((if Coalesces(key) then Without(t.rows, key) else t.rows) + [Row(t.next, key, event)], t.next + 1)
  }

  /** outbox_pending: the oldest rows, at most limit of them. */
  function Pending(t: Table, limit: nat): seq<Row> {
    if |t.rows| <= limit then t.rows else t.rows[..limit]
  }

  /** outbox_ack. */
  function Ack(t: Table, upTo: int): Table {
    t.(rows := Above(t.rows, upTo))
  }

  ghost predicate Increasing(rows: seq<Row>) {
    forall i, j :: 0 <= i < j < |rows| ==> rows[i].num < rows[j].num
  }

  /** The table is in sequence order and every number in it was handed out. */
  ghost predicate Wellformed(t: Table) {
    t.next >= 1 && Increasing(t.rows) && forall x :: x in t.rows ==> 1 <= x.num < t.next
  }

  lemma {:induction false} WithoutIncreasing(rows: seq<Row>, key: Option<string>)
    requires Increasing(rows)
    ensures Increasing(Without(rows, key))
  {
    if rows != [] {
      WithoutIncreasing(rows[1..], key);
      FirstIsLeast(rows);
    }
  }

  lemma {:induction false} AboveIncreasing(rows: seq<Row>, upTo: int)
    requires Increasing(rows)
    ensures Increasing(Above(rows, upTo))
  {
    if rows != [] {
      AboveIncreasing(rows[1..], upTo);
      FirstIsLeast(rows);
    }
  }

  lemma FirstIsLeast(rows: seq<Row>)
    requires Increasing(rows) && rows != []
    ensures forall x :: x in rows[1..] ==> rows[0].num < x.num
  {
    forall x | x in rows[1..] ensures rows[0].num < x.num {
      var i :| 0 <= i < |rows| - 1 && rows[1..][i] == x;
      assert rows[i + 1] == x;
    }
  }

  lemma TablesStayWellformed(t: Table, event: Event, key: Option<string>, upTo: int)
    requires Wellformed(t)
    ensures Wellformed(Add(t, event, key)) && Wellformed(Ack(t, upTo))
  {
    WithoutIncreasing(t.rows, key);
    AboveIncreasing(t.rows, upTo);
    var kept := if Coalesces(key) then Without(t.rows, key) else t.rows;
    assert forall i :: 0 <= i < |kept| ==> kept[i] in kept;
  }

  /** What a dedupe key is for: after an add, the row just added is the only one in the queue with its key. */
  lemma AddCoalesces(t: Table, event: Event, key: Option<string>, x: Row)
    requires Wellformed(t) && Coalesces(key)
    ensures x in Add(t, event, key).rows && x.key == key <==> x == Row(t.next, key, event)
  {
  }

  class LocalStore {
    var idempotency: map<Key, Option<string>>
    var commands: set<string>
    var outbox: seq<Row>
    var nextSeq: nat

    ghost predicate Valid()
      reads this
    {
      Wellformed(Queue())
    }

    ghost function Queue(): Table
      reads this
    {
      Table(outbox, nextSeq)
    }

    constructor ()
      ensures Valid() && Queue() == EMPTY && idempotency == map[] && commands == {}
    {
      idempotency, commands, outbox, nextSeq := map[], {}, [], 1;
    }

    // ---- idempotency (atomic claim)

    method IdemClaim(key: Key) returns (claimed: bool)
      modifies this`idempotency
      ensures claimed == (key !in old(idempotency))
      ensures idempotency == if claimed then old(idempotency)[key := None] else old(idempotency)
    {
      claimed := key !in idempotency;
      if claimed { idempotency := idempotency[key := None]; }
    }

    method IdemRelease(key: Key)
      modifies this`idempotency
      ensures idempotency == old(idempotency) - {key}
    {
      idempotency := idempotency - {key};
    }

    method IdemComplete(key: Key, result: string)
      modifies this`idempotency
      ensures idempotency == if key in old(idempotency) then old(idempotency)[key := Some(result)] else old(idempotency)
    {
      if key in idempotency { idempotency := idempotency[key := Some(result)]; }
    }

    /** INSERT OR IGNORE: a claim already present keeps its result. */
    method IdemSeed(key: Key, result: Option<string>)
      modifies this`idempotency
      ensures idempotency == map[key := result] + old(idempotency)
    {
      if key !in idempotency { idempotency := idempotency[key := result]; }
    }

    // ---- outbox

    method OutboxAdd(event: Event, key: Option<string>) returns (num: nat)
      requires Valid()
      modifies this`outbox, this`nextSeq
      ensures Valid() && Queue() == Add(old(Queue()), event, key) && num == old(nextSeq)
    {
      TablesStayWellformed(Queue(), event, key, 0);
      if Coalesces(key) {
        outbox := Without(outbox, key);
      }
      num := nextSeq;
      outbox, nextSeq := outbox + [Row(nextSeq, key, event)], nextSeq + 1;
    }

    method OutboxPending(limit: nat) returns (rows: seq<Row>)
      ensures rows == Pending(Queue(), limit)
    {
      rows := if |outbox| <= limit then outbox else outbox[..limit];
    }

    method OutboxAck(upTo: int)
      requires Valid()
      modifies this`outbox
      ensures Valid() && Queue() == Ack(old(Queue()), upTo)
    {
      TablesStayWellformed(Queue(), Event("", ""), None, upTo);
      outbox := Above(outbox, upTo);
    }

    // ---- remote commands

    method CommandSeen(id: string) returns (seen: bool)
      ensures seen == (id in commands)
    {
      seen := id in commands;
    }

    method MarkCommand(id: string)
      modifies this`commands
      ensures commands == old(commands) + {id}
    {
      commands := commands + {id};
    }
  }
}
