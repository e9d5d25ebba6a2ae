/** The client's selective receive: a queue in front of the socket. */
module Mailbox {
  import opened Wrappers
  import opened Bytes
  import opened Messages
  import opened StructFormat
  import opened Bridge

  datatype Item = Item(id: MsgId, payload: Value)

  /** The valid messages among the datagrams, in order. */
  function Valid(inbox: seq<seq<byte>>): seq<Item> {
    if inbox == [] then []
    else
      var m := Decode(inbox[0]);
      (if m.Some? then [Item(m.value.0, m.value.1)] else []) + Valid(inbox[1..])
  }

  lemma {:induction false} ValidAppend(a: seq<seq<byte>>, b: seq<seq<byte>>)
    ensures Valid(a + b) == Valid(a) + Valid(b)
  {
    hide Decode;
    if a == [] {
      assert a + b == b;
    } else {
      assert (a + b)[1..] == a[1..] + b && (a + b)[0] == a[0];
      ValidAppend(a[1..], b);
      var m := Decode(a[0]);
      var first := if m.Some? then [Item(m.value.0, m.value.1)] else [];
      assert (first + Valid(a[1..])) + Valid(b) == first + (Valid(a[1..]) + Valid(b));
    }
  }

  /** What a receive asks for: a message of one id, or any. */
  predicate Wanted(expected: Option<MsgId>, i: Item) {
    expected.None? || i.id == expected.value
  }

  /** Position of the first wanted message. */
  function FirstWanted(items: seq<Item>, expected: Option<MsgId>): (r: Option<nat>)
    ensures r.Some? ==>
              && r.value < |items| && Wanted(expected, items[r.value])
              && forall j | 0 <= j < r.value :: !Wanted(expected, items[j])
    ensures r.None? ==> forall j | 0 <= j < |items| :: !Wanted(expected, items[j])
  {
    if items == [] then None
    else if Wanted(expected, items[0]) then Some(0)
    else
      var r := FirstWanted(items[1..], expected);
      if r.Some? then Some(r.value + 1) else None
  }

  lemma FirstIsFirst(items: seq<Item>, expected: Option<MsgId>, k: nat)
    requires k < |items| && Wanted(expected, items[k]) && forall j | 0 <= j < k :: !Wanted(expected, items[j])
    ensures FirstWanted(items, expected) == Some(k)
  {
    var r := FirstWanted(items, expected);
    assert r.Some? && !(r.value < k) && !(k < r.value);
  }

  function Without<T>(s: seq<T>, k: nat): seq<T>
    requires k < |s|
  {
    s[..k] + s[k + 1..]
  }

  /** A receive on everything outstanding: the message it returns, and what stays. */
  function Receive(items: seq<Item>, expected: Option<MsgId>): (Option<Item>, seq<Item>) {
    var at := FirstWanted(items, expected);
    if at.Some? then (Some(items[at.value]), Without(items, at.value)) else (None, items)
  }

  class UdpClient {
    var queue: seq<Item>
    var inbox: seq<seq<byte>>   // datagrams the socket holds, and those that arrive before the next timeout

    constructor ()
      ensures queue == [] && inbox == []
    {
      queue, inbox := [], [];
    }

    /** Everything received or receivable and not yet returned. */
    function Outstanding(): seq<Item>
      reads this
    {
      queue + Valid(inbox)
    }

    method Arrive(data: seq<byte>)
      modifies this`inbox
      ensures Outstanding() == old(Outstanding()) + Valid([data])
    {
      ValidAppend(inbox, [data]);
      inbox := inbox + [data];
      assert queue + (Valid(old(inbox)) + Valid([data])) == (queue + Valid(old(inbox))) + Valid([data]);
    }

    /** The search in the queue. */
    method FindQueued(expected: Option<MsgId>) returns (at: Option<nat>)
      ensures at == FirstWanted(queue, expected)
    {
      var k := 0;
      while k < |queue|
        invariant 0 <= k <= |queue|
        invariant forall j | 0 <= j < k :: !Wanted(expected, queue[j])
      {
        if expected.None? || queue[k].id == expected.value {
          FirstIsFirst(queue, expected, k);
          return Some(k);
        }
        k := k + 1;
      }
      return None;
    }

    /** recv_msg; None is the timeout. */
    method RecvMsg(expected: Option<MsgId>) returns (r: Option<Item>)
      modifies this
      ensures (r, Outstanding()) == Receive(old(Outstanding()), expected)
    {
      var at := FindQueued(expected);
      if at.Some? {
        r := Some(queue[at.value]);
        QueuedIsFirst(queue, Valid(inbox), expected, at.value);
        queue := Without(queue, at.value);
        return;
      }
      ghost var all := Outstanding();
      while inbox != []
        invariant Outstanding() == all
        invariant FirstWanted(queue, expected) == None
        decreases |inbox|
      {
        var data := inbox[0];
        ghost var before := Valid(inbox);
        inbox := inbox[1..];
        var m := Decode(data);
        if m.Some? {
          var item := Item(m.value.0, m.value.1);
          assert before == [item] + Valid(inbox);
          if Wanted(expected, item) {
            FetchedIsFirst(queue, item, Valid(inbox), expected);
            return Some(item);
          }
          QueueGrows(queue, item, Valid(inbox), expected);
          queue := queue + [item];
        }
      }
      assert Outstanding() == queue;
      return None;
    }

    /** drain */
    method Drain()
      modifies this
      ensures Outstanding() == []
    {
      queue := [];
      while inbox != []
        invariant queue == []
        decreases |inbox|
      {
        inbox := inbox[1..];
      }
    }
  }

  lemma QueuedIsFirst(queue: seq<Item>, more: seq<Item>, expected: Option<MsgId>, k: nat)
    requires FirstWanted(queue, expected) == Some(k)
    ensures Receive(queue + more, expected) == (Some(queue[k]), Without(queue, k) + more)
  {
    FirstIsFirst(queue + more, expected, k);
    assert Without(queue + more, k) == Without(queue, k) + more;
  }

  lemma FetchedIsFirst(queue: seq<Item>, item: Item, more: seq<Item>, expected: Option<MsgId>)
    requires FirstWanted(queue, expected) == None && Wanted(expected, item)
    ensures Receive(queue + ([item] + more), expected) == (Some(item), queue + more)
  {
    var all := queue + ([item] + more);
    FirstIsFirst(all, expected, |queue|);
    assert Without(all, |queue|) == queue + more;
  }

  lemma QueueGrows(queue: seq<Item>, item: Item, more: seq<Item>, expected: Option<MsgId>)
    requires FirstWanted(queue, expected) == None && !Wanted(expected, item)
    ensures FirstWanted(queue + [item], expected) == None
    ensures (queue + [item]) + more == queue + ([item] + more)
  {
  }

  // ---- runs without drain ----------------------------------------------------------------------------

  datatype Event = Arrival(data: seq<byte>) | Recv(expected: Option<MsgId>)

  /** Outstanding messages, returned messages, and valid messages that arrived. */
  datatype Client = Client(outstanding: seq<Item>, returned: seq<Item>, arrived: seq<Item>)

  function Step(c: Client, e: Event): Client {
    match e
    case Arrival(data) => Client(c.outstanding + Valid([data]), c.returned, c.arrived + Valid([data]))
    case Recv(expected) =>
      var (r, rest) := Receive(c.outstanding, expected);
      Client(rest, c.returned + (if r.Some? then [r.value] else []), c.arrived)
  }

  function Run(es: seq<Event>): Client {
    if es == [] then Client([], [], []) else Step(Run(es[..|es| - 1]), es[|es| - 1])
  }

  /** The messages of one id, in order. */
  function Of(items: seq<Item>, id: MsgId): seq<Item> {
    if items == [] then []
    else Of(items[..|items| - 1], id) + if items[|items| - 1].id == id then [items[|items| - 1]] else []
  }

  lemma {:induction false} OfAppend(a: seq<Item>, b: seq<Item>, id: MsgId)
    ensures Of(a + b, id) == Of(a, id) + Of(b, id)
    decreases |b|
  {
    if b == [] {
      assert a + b == a;
    } else {
      assert (a + b)[..|a + b| - 1] == a + b[..|b| - 1];
      OfAppend(a, b[..|b| - 1], id);
    }
  }

  lemma {:induction false} OfNone(items: seq<Item>, id: MsgId)
    requires forall j | 0 <= j < |items| :: items[j].id != id
    ensures Of(items, id) == []
  {
    if items != [] {
      OfNone(items[..|items| - 1], id);
    }
  }

  lemma OfOne(i: Item, id: MsgId)
    ensures Of([i], id) == if i.id == id then [i] else []
  {
    assert [i][..0] == [];
  }

  lemma NoneBefore(items: seq<Item>, expected: Option<MsgId>, k: nat)
    requires FirstWanted(items, expected) == Some(k)
    ensures Of(items[..k], items[k].id) == []
  {
    forall j | 0 <= j < k ensures items[..k][j].id != items[k].id {
      assert !Wanted(expected, items[j]);
    }
    OfNone(items[..k], items[k].id);
  }

  /** Removing the first wanted message takes the first of its id, and leaves the order of every id. */
  lemma ReceiveTakesFirst(items: seq<Item>, expected: Option<MsgId>, id: MsgId)
    requires FirstWanted(items, expected).Some?
    ensures var (r, rest) := Receive(items, expected); Of(items, id) == Of([r.value], id) + Of(rest, id)
  {
    hide Of, FirstWanted;
    var k := FirstWanted(items, expected).value;
    var front, i, back := items[..k], items[k], items[k + 1..];
    NoneBefore(items, expected, k);
    assert items == front + ([i] + back);
    OfAppend(front, [i] + back, id);
    OfAppend([i], back, id);
    OfAppend(front, back, id);
    OfOne(i, id);
  }

  /**
    In every run, for every id: the messages returned, followed by those outstanding, are exactly the valid
    messages that arrived, in order. So what was returned is a prefix of what arrived, nothing is returned
    twice, and nothing is lost.
   */
  lemma {:induction false} ReturnedThenOutstanding(es: seq<Event>, id: MsgId)
    ensures var c := Run(es); Of(c.returned, id) + Of(c.outstanding, id) == Of(c.arrived, id)
  {
    if es != [] {
      ReturnedThenOutstanding(es[..|es| - 1], id);
      StepKeeps(Run(es[..|es| - 1]), es[|es| - 1], id);
    }
  }

  lemma StepKeeps(c: Client, e: Event, id: MsgId)
    requires Of(c.returned, id) + Of(c.outstanding, id) == Of(c.arrived, id)
    ensures var c' := Step(c, e); Of(c'.returned, id) + Of(c'.outstanding, id) == Of(c'.arrived, id)
  {
    hide Of;
    match e
    case Arrival(data) =>
      OfAppend(c.outstanding, Valid([data]), id);
      OfAppend(c.arrived, Valid([data]), id);
      assert Of(c.returned, id) + (Of(c.outstanding, id) + Of(Valid([data]), id))
          == (Of(c.returned, id) + Of(c.outstanding, id)) + Of(Valid([data]), id);
    case Recv(expected) =>
      var (r, rest) := Receive(c.outstanding, expected);
      if r.Some? {
        ReceiveTakesFirst(c.outstanding, expected, id);
        OfAppend(c.returned, [r.value], id);
        assert (Of(c.returned, id) + Of([r.value], id)) + Of(rest, id)
          == Of(c.returned, id) + (Of([r.value], id) + Of(rest, id));
      } else {
        assert c.returned + [] == c.returned;
      }
  }

  /** A receive for an id returns the oldest outstanding message of it, and times out only when there is none. */
  lemma TypedTakesItsId(items: seq<Item>, id: MsgId)
    ensures var (r, rest) := Receive(items, Some(id));
            var ours := Of(items, id);
            if ours == [] then r == None && rest == items
            else r == Some(ours[0]) && Of(rest, id) == ours[1..]
  {
    var (r, rest) := Receive(items, Some(id));
    if r.Some? {
      assert Wanted(Some(id), r.value);
      ReceiveTakesFirst(items, Some(id), id);
      OfOne(r.value, id);
      assert [r.value] + Of(rest, id) == Of(items, id);
    } else {
      OfNone(items, id);
    }
  }

  /** Other ids are not touched. */
  lemma TypedLeavesOthers(items: seq<Item>, id: MsgId, other: MsgId)
    requires other != id
    ensures Of(Receive(items, Some(id)).1, other) == Of(items, other)
  {
    var (r, rest) := Receive(items, Some(id));
    if r.Some? {
      ReceiveTakesFirst(items, Some(id), other);
      OfOne(r.value, other);
      assert [] + Of(rest, other) == Of(rest, other);
    }
  }

  /** A receive without an id returns the oldest outstanding message, and times out only when there is none. */
  lemma UntypedIsOldest(items: seq<Item>)
    ensures Receive(items, None) == if items == [] then (None, []) else (Some(items[0]), items[1..])
  {
    if items != [] {
      FirstIsFirst(items, None, 0);
      assert Without(items, 0) == items[1..];
    }
  }
}
