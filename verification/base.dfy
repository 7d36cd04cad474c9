/**
 Values shared by every part of the scraper model: Python exceptions, the
 outcome of a call that may raise, the browser driver handle, and the
 "call each in order until one raises" discipline that the runner's hook
 loop and both notifier loops follow.
 */
module Base {

  datatype Option<+T> = None | Some(value: T)

  /** A raised Python exception: its class name and the text `str(e)` gives. */
  datatype Exc = Exc(cls: string, text: string)

  /** Either a value or the exception raised while producing it. */
  datatype Result<+T> = Ok(value: T) | Err(error: Exc)

  /** What one call did: returned normally, or raised `error`. */
  datatype Outcome = Returns | Raises(error: Exc)

  /**
   The Selenium driver as an opaque handle. `NoDriver` stands for `None`;
   a live session object is always truthy in Python.
   */
  datatype Driver = NoDriver | Session(id: nat)

  predicate Present(d: Driver) {
    d.Session?
  }

  /** Index of the first call that raises, or `|outs|` when none does. */
  function FirstRaise(outs: seq<Outcome>): (j: nat)
    ensures j <= |outs|
    ensures forall t :: 0 <= t < j ==> outs[t].Returns?
    ensures j < |outs| ==> outs[j].Raises?
  {
    if |outs| == 0 then 0
    else if outs[0].Raises? then 0
    else 1 + FirstRaise(outs[1..])
  }

  /**
   How many calls a loop without a handler makes: every call up to and
   including the first one that raises.
   */
  function CallsMade(outs: seq<Outcome>): (c: nat)
    ensures c <= |outs|
    ensures forall t :: 0 <= t < c - 1 ==> outs[t].Returns?
    ensures c < |outs| ==> 0 < c && outs[c - 1].Raises?
    ensures (forall t :: 0 <= t < |outs| ==> outs[t].Returns?) ==> c == |outs|
  {
    var j := FirstRaise(outs);
    if j < |outs| then j + 1 else |outs|
  }

  /** What such a loop does as a whole: it raises what its first raising call raised. */
  function Propagated(outs: seq<Outcome>): (o: Outcome)
    ensures o.Returns? <==> forall t :: 0 <= t < |outs| ==> outs[t].Returns?
    ensures o.Raises? ==> 0 < CallsMade(outs) && o == outs[CallsMade(outs) - 1]
  {
    var j := FirstRaise(outs);
    if j < |outs| then outs[j] else Returns
  }
}
