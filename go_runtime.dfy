/** The two pieces of Go's runtime that carry output: a buffered channel,
    seen sequentially as a bounded first-in first-out queue, and the
    records written to standard output by the message receivers. */
module GoRuntime {

  /** `make(chan T, capacity)`: a bounded FIFO queue. A send is possible
      only while the queue is not full and a receive only while it is not
      empty; in Go the caller blocks until that holds. */
  class Channel<T> {
    const capacity: nat
    var buf: seq<T>

    ghost predicate Valid()
      reads this
    {
      0 < capacity && |buf| <= capacity
    }

    constructor (capacity: nat)
      requires 0 < capacity
      ensures Valid() && this.capacity == capacity && buf == []
    {
      this.capacity := capacity;
      buf := [];
    }

    predicate Full()
      reads this
    {
      |buf| >= capacity
    }

    /** `c <- x` on a channel with room. */
    method Send(x: T)
      requires Valid() && !Full()
      modifies this
      ensures Valid() && buf == old(buf) + [x]
    {
      buf := buf + [x];
    }

    /** `x := <-c` on a channel holding a value: the oldest one. */
    method Receive() returns (x: T)
      requires Valid() && buf != []
      modifies this
      ensures Valid() && x == old(buf)[0] && buf == old(buf)[1..]
    {
      x := buf[0];
      buf := buf[1..];
    }
  }

  /** The `[host] line` records written to standard output, in order. Log
      lines go to the same stream in the program but are not recorded here. */
  class Stdout {
    var written: seq<string>

    constructor ()
      ensures written == []
    {
      written := [];
    }

    method Write(s: string)
      modifies this
      ensures written == old(written) + [s]
    {
      written := written + [s];
    }
  }
}
