/** The signal mailbox: a table of events ordered by row id, shared by all instances and signal names. */
module Events {
  import opened Prelude

  datatype Event = Event(rowId: nat, instance: string, name: string, payload: Bytes)

  predicate Matches(e: Event, instance: string, name: string) {
    e.instance == instance && e.name == name
  }

  /** The payloads buffered for one instance and name, in table order. */
  function Buffered(rows: seq<Event>, instance: string, name: string): seq<Bytes> {
    if rows == [] then [] else
    (if Matches(rows[0], instance, name) then [rows[0].payload] else []) + Buffered(rows[1..], instance, name)
  }

  lemma {:induction false} BufferedConcat(a: seq<Event>, b: seq<Event>, instance: string, name: string)
    ensures Buffered(a + b, instance, name) == Buffered(a, instance, name) + Buffered(b, instance, name)
    decreases |a|
  {
    if a == [] {
      assert a + b == b;
    } else {
      assert (a + b)[1..] == a[1..] + b;
      BufferedConcat(a[1..], b, instance, name);
    }
  }

  /** Row ids grow along the table, and new ids are larger than all of them. */
  ghost predicate Ordered(rows: seq<Event>, nextId: nat) {
    && (forall i, j :: 0 <= i < j < |rows| ==> rows[i].rowId < rows[j].rowId)
    && forall i :: 0 <= i < |rows| ==> rows[i].rowId < nextId
  }

  /** What one operation may do: a statement either works or fails without effect. */
  datatype Op =
    | Send(instance: string, name: string, payload: Bytes)
    | Consume(instance: string, name: string)

  datatype Reply = Accepted | Delivered(payload: Bytes) | Nothing | Failure

  datatype Step = Step(op: Op, reply: Reply)

  /** The matching row with the smallest id. */
  function Oldest(rows: seq<Event>, instance: string, name: string): (r: Option<nat>)
    ensures r.None? ==> Buffered(rows, instance, name) == []
    ensures r.Some? ==> r.value < |rows| && Matches(rows[r.value], instance, name)
    ensures r.Some? ==> forall i :: 0 <= i < r.value ==> !Matches(rows[i], instance, name)
    ensures r.Some? ==>
      Buffered(rows, instance, name) != [] && Buffered(rows, instance, name)[0] == rows[r.value].payload
  {
    if rows == [] then None
    else if Matches(rows[0], instance, name) then Some(0)
    else
      var r := Oldest(rows[1..], instance, name);
      if r.None? then None else Some(r.value + 1)
  }

  lemma {:induction false} NoneBuffered(rows: seq<Event>, instance: string, name: string)
    requires forall i :: 0 <= i < |rows| ==> !Matches(rows[i], instance, name)
    ensures Buffered(rows, instance, name) == []
  {
    if rows != [] {
      NoneBuffered(rows[1..], instance, name);
    }
  }

  function Part(here: bool, payload: Bytes): seq<Bytes> {
    if here then [payload] else []
  }

  lemma AppendBuffered(rows: seq<Event>, e: Event, instance: string, name: string)
    ensures Buffered(rows + [e], instance, name) ==
      Buffered(rows, instance, name) + Part(Matches(e, instance, name), e.payload)
  {
    BufferedConcat(rows, [e], instance, name);
    assert [e][1..] == [];
  }

  /** Deleting the oldest row takes its payload from its own mailbox, and nothing from any other. */
  lemma DeleteBuffered(rows: seq<Event>, at: nat, instance: string, name: string)
    requires at < |rows|
    requires Matches(rows[at], instance, name) ==> forall i :: 0 <= i < at ==> !Matches(rows[i], instance, name)
    ensures Buffered(rows, instance, name) ==
            Part(Matches(rows[at], instance, name), rows[at].payload) +
              Buffered(rows[..at] + rows[at + 1..], instance, name)
  {
    var a, e, b := rows[..at], rows[at], rows[at + 1..];
    assert rows == a + ([e] + b) && ([e] + b)[1..] == b;
    BufferedConcat(a, [e] + b, instance, name);
    BufferedConcat(a, b, instance, name);
    if Matches(e, instance, name) {
      NoneBuffered(a, instance, name);
    }
  }

  // ----- conservation -----

  /** What a step put into a mailbox, and what it took out. */
  function SentBy(s: Step, instance: string, name: string): seq<Bytes> {
    if s.op.Send? then Part(s.reply.Accepted? && s.op.instance == instance && s.op.name == name, s.op.payload) else []
  }

  function ReceivedBy(s: Step, instance: string, name: string): seq<Bytes> {
    if s.op.Consume? && s.reply.Delivered? then
      Part(s.op.instance == instance && s.op.name == name, s.reply.payload)
    else []
  }

  function Sent(log: seq<Step>, instance: string, name: string): seq<Bytes> {
    if log == [] then [] else
    Sent(log[..|log| - 1], instance, name) + SentBy(log[|log| - 1], instance, name)
  }

  function Received(log: seq<Step>, instance: string, name: string): seq<Bytes> {
    if log == [] then [] else
    Received(log[..|log| - 1], instance, name) + ReceivedBy(log[|log| - 1], instance, name)
  }

  /** What was sent is what was received, followed by what is still buffered. */
  ghost predicate Conserved(log: seq<Step>, rows: seq<Event>, instance: string, name: string) {
    Sent(log, instance, name) == Received(log, instance, name) + Buffered(rows, instance, name)
  }

  /** A step that moves payloads only as its reply says keeps the balance. */
  lemma ConservedStep(log: seq<Step>, rows: seq<Event>, s: Step, rows': seq<Event>, instance: string, name: string)
    requires Conserved(log, rows, instance, name)
    requires Buffered(rows, instance, name) + SentBy(s, instance, name) ==
      ReceivedBy(s, instance, name) + Buffered(rows', instance, name)
    ensures Conserved(log + [s], rows', instance, name)
  {
    assert (log + [s])[..|log|] == log;
    var sent, received := Sent(log, instance, name), Received(log, instance, name);
    hide Sent, Received, Buffered, SentBy, ReceivedBy;
    Regroup(received, Buffered(rows, instance, name), SentBy(s, instance, name));
    Regroup(received, ReceivedBy(s, instance, name), Buffered(rows', instance, name));
  }

  class EventStore {
    var rows: seq<Event>
    var nextId: nat
    ghost var log: seq<Step>

    /** The table is ordered, and every mailbox balances over the whole history. */
    ghost predicate Valid()
      reads this
    {
      Ordered(rows, nextId) && forall instance, name :: Conserved(log, rows, instance, name)
    }

    constructor ()
      ensures Valid() && rows == [] && log == []
    {
      rows, nextId, log := [], 1, [];
    }

    /** Appends an event; `works` is the fate of the insert statement. */
    method SendEvent(instance: string, name: string, payload: Bytes, works: bool) returns (r: Reply)
      requires Valid()
      modifies this
      ensures Valid() && log == old(log) + [Step(Send(instance, name, payload), r)]
      ensures r == if works then Accepted else Failure
      ensures rows == old(rows) + if works then [Event(old(nextId), instance, name, payload)] else []
    {
      hide Conserved, Buffered;
      r := Failure;
      if works {
        rows := rows + [Event(nextId, instance, name, payload)];
        nextId := nextId + 1;
        r := Accepted;
      }
      ghost var s := Step(Send(instance, name, payload), r);
      log := log + [s];
      forall i, n ensures Conserved(log, rows, i, n) {
        assert Conserved(old(log), old(rows), i, n);
        if works {
          AppendBuffered(old(rows), Event(old(nextId), instance, name, payload), i, n);
        }
        ConservedStep(old(log), old(rows), s, rows, i, n);
      }
    }

    /**
     Hands out the oldest matching event and deletes it. `found` and `deleted` are the fates of the
     select and the delete statement.
     */
    method ConsumeEvent(instance: string, name: string, found: bool, deleted: bool) returns (r: Reply)
      requires Valid()
      modifies this
      ensures Valid() && log == old(log) + [Step(Consume(instance, name), r)]
      ensures
        var b := Buffered(old(rows), instance, name);
        r == if !found then Failure else if b == [] then Nothing else if !deleted then Failure else Delivered(b[0])
      ensures
        var b := Buffered(old(rows), instance, name);
        Buffered(rows, instance, name) == if r.Delivered? then b[1..] else b
      ensures !r.Delivered? ==> rows == old(rows)
    {
      hide Conserved, Buffered;
      var at := Oldest(rows, instance, name);
      r := if !found then Failure else if at.None? then Nothing else if !deleted then Failure
        else Delivered(rows[at.value].payload);
      ghost var s := Step(Consume(instance, name), r);
      if r.Delivered? {
        forall i, n
          ensures Buffered(rows, i, n) == ReceivedBy(s, i, n) + Buffered(rows[..at.value] + rows[at.value + 1..], i, n)
        {
          DeleteBuffered(rows, at.value, i, n);
        }
        rows := rows[..at.value] + rows[at.value + 1..];
      }
      assert r.Delivered? ==> ReceivedBy(s, instance, name) == [r.payload];
      log := log + [s];
      forall i, n ensures Conserved(log, rows, i, n) {
        assert Conserved(old(log), old(rows), i, n);
        assert !r.Delivered? ==> ReceivedBy(s, i, n) == [];
        ConservedStep(old(log), old(rows), s, rows, i, n);
      }
    }
  }
}
