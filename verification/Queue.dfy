/** src/queue/queue.c as one caller at a time sees it: the fields of fq_queue_t
    updated in place, against the abstract contents of the queue. What happens
    when callers overlap is the subject of Ring.dfy. */
module Queue {
  import opened Common
  import opened Bits

  /** FQ_QUEUE_MIN_CAPACITY and FQ_QUEUE_MAX_CAPACITY. */
  const MIN_CAPACITY: nat := 64
  const MAX_CAPACITY: nat := 0x100_0000

  // ---- slots of the ring ----

  /** The slot `i` places after `head` in a ring of `p` slots. */
  function Slot(head: int, i: int, p: int): (s: int)
    requires 0 <= head < p && 0 <= i <= p
    ensures 0 <= s < p
  {
    if head + i < p then head + i else head + i - p
  }

  /** The ring holds `contents` from `head` on. */
  ghost predicate Holds(buf: seq<Option<Task>>, head: int, contents: seq<Task>) {
    && 0 <= head < |buf| && |contents| <= |buf|
    && forall i :: 0 <= i < |contents| ==> buf[Slot(head, i, |buf|)] == Some(contents[i])
  }

  lemma HoldsPush(buf: seq<Option<Task>>, head: int, contents: seq<Task>, t: Task)
    requires Holds(buf, head, contents) && |contents| < |buf|
    ensures Holds(buf[Slot(head, |contents|, |buf|) := Some(t)], head, contents + [t])
  {
  }

  lemma HoldsPop(buf: seq<Option<Task>>, head: int, contents: seq<Task>)
    requires Holds(buf, head, contents) && contents != []
    ensures buf[head] == Some(contents[0])
    ensures Holds(buf, Slot(head, 1, |buf|), contents[1..])
  {
    var p := |buf|;
    assert buf[Slot(head, 0, p)] == Some(contents[0]);
    forall i | 0 <= i < |contents[1..]|
      ensures buf[Slot(Slot(head, 1, p), i, p)] == Some(contents[1..][i])
    {
      assert Slot(Slot(head, 1, p), i, p) == Slot(head, i + 1, p);
    }
  }

  class TaskQueue {
    var buffer: array<Option<Task>>
    var capacity: nat
    var mask: nat
    var head: int
    var tail: int

    /** The base-2 logarithm of the capacity. */
    ghost var lg: nat
    /** The queued tasks, oldest first. */
    ghost var contents: seq<Task>

    ghost predicate Valid()
      reads this, buffer
    {
      && 6 <= lg <= 24
      && capacity == Pow2(lg) == buffer.Length
      && mask == capacity - 1
      && 0 <= head < capacity && |contents| < capacity
      && tail == Slot(head, |contents|, capacity)
      && Holds(buffer[..], head, contents)
    }

    constructor (cap: nat)
      ensures fresh(buffer) && buffer.Length == capacity == cap
      ensures forall k: nat :: 6 <= k <= 24 && cap == Pow2(k) ==> Valid()
      ensures contents == []
    {
      buffer := new Option<Task>[cap](_ => None);
      capacity := cap;
      mask := (cap - 1) % WORD64;
      head, tail := 0, 0;
      contents := [];
      lg := if exists k: nat :: 6 <= k <= 24 && cap == Pow2(k) then LogOf(cap) else 0;
      new;
      forall k: nat | 6 <= k <= 24 && cap == Pow2(k)
        ensures Valid()
      {
        Pow2Constants();
        Pow2Mono(6, k);
        Pow2Mono(k, 24);
      }
    }

    static ghost function LogOf(cap: nat): (k: nat)
      requires exists k: nat :: 6 <= k <= 24 && cap == Pow2(k)
      ensures 6 <= k <= 24 && cap == Pow2(k)
    {
      var k: nat :| 6 <= k <= 24 && cap == Pow2(k);
      k
    }

    /** fq_queue_create: the capacity is the least power of two that is at least
        64 and at least the request. Requests above 2^24 are refused, except that
        above 2^63 the rounding wraps to 0 and the size check lets 0 through, so
        that a queue without any slot is returned. */
    static method Create(requested: nat) returns (st: Status, q: TaskQueue?)
      requires requested < WORD64
      ensures st == OK <==> requested <= MAX_CAPACITY || requested > TOP64
      ensures st != OK ==> st == Inval && q == null
      ensures st == OK ==> q != null && fresh(q) && fresh(q.buffer) && q.contents == []
      ensures requested <= MAX_CAPACITY ==> q.Valid() && requested <= q.capacity
      ensures requested <= MAX_CAPACITY ==>
                forall k: nat :: MIN_CAPACITY <= Pow2(k) && requested <= Pow2(k) ==> q.capacity <= Pow2(k)
      ensures requested > TOP64 ==> q.capacity == 0 && !q.Valid()
    {
      Pow2Constants();
      var asked := if requested < MIN_CAPACITY then MIN_CAPACITY else requested;
      var cap := NextPow2(asked);
      if cap > MAX_CAPACITY {
        Pow2Mono(24, 63);
        return Inval, null;
      }
      q := new TaskQueue(cap);
      st := OK;
      Pow2Mono(24, 63);
      if asked <= TOP64 {
        var k: nat :| cap == Pow2(k);
        if k < 6 { Pow2Mono(k, 5); }
        if k > 24 { Pow2Mono(25, k); }
        assert q.Valid();
      }
    }

    /** fq_queue_push. */
    method Push(task: Option<Task>) returns (st: Status)
      requires Valid()
      modifies this`tail, this`contents, buffer
      ensures Valid()
      ensures task == None ==> st == Inval && contents == old(contents)
      ensures task != None && |old(contents)| == capacity - 1 ==> st == Overflow && contents == old(contents)
      ensures task != None && |old(contents)| < capacity - 1 ==>
                st == OK && contents == old(contents) + [task.value]
    {
      if task == None { return Inval; }
      var next := MaskInt(tail + 1, mask);
      MaskNext(tail, lg);
      if next == head { return Overflow; }
      HoldsPush(buffer[..], head, contents, task.value);
      ghost var was := buffer[..];
      buffer[tail] := task;
      assert buffer[..] == was[tail := task];
      tail := next;
      contents := contents + [task.value];
      return OK;
    }

    /** fq_queue_pop; with one caller fq_queue_try_pop takes the same branches,
        because the trylock succeeds. */
    method Pop() returns (st: Status, task: Option<Task>)
      requires Valid()
      modifies this`head, this`contents
      ensures Valid()
      ensures old(contents) == [] ==> st == Busy && task == None && contents == []
      ensures old(contents) != [] ==>
                st == OK && task == Some(old(contents)[0]) && contents == old(contents)[1..]
    {
      if head == tail { return Busy, None; }
      HoldsPop(buffer[..], head, contents);
      task := buffer[head];
      MaskNext(head, lg);
      head := MaskInt(head + 1, mask);
      contents := contents[1..];
      st := OK;
    }

    /** fq_queue_size of a quiescent queue. */
    method Size() returns (n: nat)
      requires Valid()
      ensures n == |contents|
    {
      n := MaskInt(tail - head, mask);
      MaskDifference(tail, head, lg);
    }

    /** fq_queue_empty of a quiescent queue. */
    method Empty() returns (e: bool)
      requires Valid()
      ensures e <==> contents == []
    {
      var n := Size();
      e := n == 0;
    }

    /** fq_queue_drain with nobody else on the queue: exactly the first
        min(max, size) tasks, in order, and the rest of `out` untouched. */
    method Drain(out: array?<Option<Task>>, max: nat) returns (count: nat)
      requires Valid() && out != buffer
      requires out != null ==> max <= out.Length
      modifies this`head, this`contents, out
      ensures Valid()
      ensures out == null ==> count == 0
      ensures out != null ==> count == if max < |old(contents)| then max else |old(contents)|
      ensures contents == old(contents)[count..]
      ensures forall i :: 0 <= i < count ==> out[i] == Some(old(contents)[i])
      ensures out != null ==> out[count..] == old(out[count..])
    {
      count := 0;
      if out == null || max == 0 { return; }
      while count < max
        invariant Valid() && count <= max && count <= |old(contents)|
        invariant contents == old(contents)[count..]
        invariant forall i :: 0 <= i < count ==> out[i] == Some(old(contents)[i])
        invariant out[count..] == old(out[count..])
      {
        var st, task := Pop();
        if st != OK { break; }
        out[count] := task;
        count := count + 1;
        assert out[count..] == old(out[count..]) by {
          assert old(out[count..]) == old(out[count - 1..])[1..];
        }
      }
    }
  }
}
