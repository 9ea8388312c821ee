/** Named FIFO lists: RPUSH appends, BLPOP takes the head. A payload that does not decode is taken and dropped. */
module Queue {
  import opened Base

  datatype Payload<T> = Json(value: T) | Malformed

  datatype QueueError = EmptyQueueName | RedisError | DecodeError

  /** The values that a reader will get to see. */
  function Decodable<T>(items: seq<Payload<T>>): seq<T> {
    if items == [] then []
    else if items[0].Json? then [items[0].value] + Decodable(items[1..])
    else Decodable(items[1..])
  }

  lemma {:induction false} DecodableConcat<T>(a: seq<Payload<T>>, b: seq<Payload<T>>)
    ensures Decodable(a + b) == Decodable(a) + Decodable(b)
  {
    if a == [] {
      assert a + b == b;
    } else {
      assert (a + b)[1..] == a[1..] + b;
      DecodableConcat(a[1..], b);
    }
  }

  class RedisQueue<T(!new)> {
    var lists: map<string, seq<Payload<T>>>

    constructor ()
      ensures lists == map[]
    {
      lists := map[];
    }

    function Items(name: string): seq<Payload<T>>
      reads this
    {
      if name in lists then lists[name] else []
    }

    /** RPUSH, unless the name is blank or Redis does not answer. */
    method Enqueue(name: string, value: T, fault: bool) returns (err: Option<QueueError>)
      modifies this
      ensures err == if Blank(name) then Some(EmptyQueueName) else if fault then Some(RedisError) else None
      ensures Items(name) == old(Items(name)) + if err.None? then [Json(value)] else []
      ensures forall other | other != name :: Items(other) == old(Items(other))
    {
      if Blank(name) {
        return Some(EmptyQueueName);
      }
      if fault {
        return Some(RedisError);
      }
      lists := lists[name := Items(name) + [Json(value)]];
      return None;
    }

    /** BLPOP: the head of the list, or nothing when the list stayed empty until the timeout. */
    method Dequeue(name: string, fault: bool) returns (result: Result<Option<Payload<T>>, QueueError>)
      modifies this
      ensures var items := old(Items(name));
        if Blank(name) then result == Err(EmptyQueueName) && Items(name) == items
        else if fault then result == Err(RedisError) && Items(name) == items
        else if items == [] then result == Ok(None) && Items(name) == []
        else result.Ok? && result.value.Some? && [result.value.value] + Items(name) == items
      ensures forall other | other != name :: Items(other) == old(Items(other))
    {
      if Blank(name) {
        return Err(EmptyQueueName);
      }
      if fault {
        return Err(RedisError);
      }
      var items := Items(name);
      if items == [] {
        return Ok(None);
      }
      lists := lists[name := items[1..]];
      return Ok(Some(items[0]));
    }

    /** Dequeue and decode. A head that does not decode is gone, and the caller sees an error. */
    method DequeueInto(name: string, fault: bool) returns (result: Result<Option<T>, QueueError>)
      modifies this
      ensures var items := old(Items(name));
        if Blank(name) then result == Err(EmptyQueueName) && Items(name) == items
        else if fault then result == Err(RedisError) && Items(name) == items
        else if items == [] then result == Ok(None) && Items(name) == []
        else
          && Items(name) == items[1..]
          && result == if items[0].Json? then Ok(Some(items[0].value)) else Err(DecodeError)
      ensures result.Ok? && result.value.Some? ==> [result.value.value] + Decodable(Items(name)) == Decodable(old(Items(name)))
      ensures !(result.Ok? && result.value.Some?) ==> Decodable(Items(name)) == Decodable(old(Items(name)))
      ensures forall other | other != name :: Items(other) == old(Items(other))
    {
      var head := Dequeue(name, fault);
      match head
      case Err(e) => return Err(e);
      case Ok(None) => return Ok(None);
      case Ok(Some(payload)) =>
        if payload.Malformed? {
          return Err(DecodeError);
        }
        return Ok(Some(payload.value));
    }
  }

  // ----- first in, first out, over whole traces -----

  datatype Op<T> = Push(value: T) | PushMalformed | Pop

  function ItemsAfter<T>(items: seq<Payload<T>>, ops: seq<Op<T>>): seq<Payload<T>>
    decreases |ops|
  {
    if ops == [] then items
    else
      match ops[0]
      case Push(value) => ItemsAfter(items + [Json(value)], ops[1..])
      case PushMalformed => ItemsAfter(items + [Malformed], ops[1..])
      case Pop => ItemsAfter(if items == [] then [] else items[1..], ops[1..])
  }

  function Pushed<T>(ops: seq<Op<T>>): seq<T> {
    if ops == [] then [] else (if ops[0].Push? then [ops[0].value] else []) + Pushed(ops[1..])
  }

  /** The values that the trace's readers received, in order. */
  function Received<T>(items: seq<Payload<T>>, ops: seq<Op<T>>): seq<T>
    decreases |ops|
  {
    if ops == [] then []
    else
      match ops[0]
      case Push(value) => Received(items + [Json(value)], ops[1..])
      case PushMalformed => Received(items + [Malformed], ops[1..])
      case Pop =>
        if items == [] then Received([], ops[1..])
        else (if items[0].Json? then [items[0].value] else []) + Received(items[1..], ops[1..])
  }

  /** What was received, followed by what is still queued, is what was there followed by what was pushed. */
  lemma {:induction false} FirstInFirstOut<T>(items: seq<Payload<T>>, ops: seq<Op<T>>)
    ensures Received(items, ops) + Decodable(ItemsAfter(items, ops)) == Decodable(items) + Pushed(ops)
    decreases |ops|
  {
    if ops != [] {
      match ops[0]
      case Push(value) =>
        FirstInFirstOut(items + [Json(value)], ops[1..]);
        DecodableConcat(items, [Json(value)]);
        assert Decodable([Json(value)]) == [value];
      case PushMalformed =>
        FirstInFirstOut(items + [Malformed], ops[1..]);
        DecodableConcat(items, [Malformed]);
        assert Decodable<T>([Malformed]) == [];
      case Pop =>
        var rest := if items == [] then [] else items[1..];
        var head := if items != [] && items[0].Json? then [items[0].value] else [];
        FirstInFirstOut(rest, ops[1..]);
        assert Received(items, ops) == head + Received(rest, ops[1..]);
        assert Decodable(items) == head + Decodable(rest);
        assert head + Received(rest, ops[1..]) + Decodable(ItemsAfter(rest, ops[1..]))
            == head + (Received(rest, ops[1..]) + Decodable(ItemsAfter(rest, ops[1..])));
    }
  }
}
