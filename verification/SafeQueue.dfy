/** The bounded queue between the reactor and the worker threads. */
module SafeQueues {

  class SafeQueue<T> {
    var q: seq<T>
    const maxsize: nat

    constructor (maxsize: nat)
      ensures q == [] && this.maxsize == maxsize
    {
      q := [];
      this.maxsize := maxsize;
    }

    /** Refused, and nothing changed, when the queue is full. */
    method Enqueue(t: T) returns (ok: bool)
      modifies this
      ensures ok <==> |old(q)| < maxsize
      ensures q == old(q) + if ok then [t] else []
    {
      if |q| >= maxsize {
        return false;
      }
      q := q + [t];
      return true;
    }

    /** The first element, if there is one.  With `block`, a caller that finds the queue empty waits, and when it wakes
        up finds what other threads have left in the queue by then: `left`, which is empty when the queue is being
        destructed or another caller was faster. */
    method Dequeue(was: T, block: bool, left: seq<T>) returns (ok: bool, data: T)
      requires |left| <= maxsize
      modifies this
      ensures var found := if old(q) == [] && block then left else old(q);
        && (ok <==> found != [])
        && found == (if ok then [data] else []) + q
      ensures !ok ==> data == was
    {
      data := was;
      if q == [] {
        if block {
          q := left;
        } else {
          return false, data;
        }
      }
      if q == [] {
        return false, data;
      }
      data := q[0];
      q := q[1..];
      return true, data;
    }
  }
}
