/** What both relay clients see of the browser: an optional value, the
    readyState of a WebSocket, and the table of armed timers that
    setInterval/setTimeout/clearInterval/clearTimeout maintain. */
module Host {

  datatype Option<T> = None | Some(value: T)

  /** The set holding the handle of an optional timer field (empty when the
      field is undefined). */
  function HandleSet(h: Option<nat>): (r: set<nat>)
    ensures h.None? <==> r == {}
    ensures forall x :: x in r <==> h == Some(x)
  {
    if h.Some? then {h.value} else {}
  }

  /** WebSocket.readyState. */
  datatype ReadyState = CONNECTING | OPEN | CLOSING | CLOSED

  /** The effect of WebSocket.close() on a socket's readyState: a socket that
      is connecting or open starts its closing handshake; otherwise nothing. */
  function CloseRequested(rs: ReadyState): (r: ReadyState)
    ensures rs in {CONNECTING, OPEN} ==> r == CLOSING
    ensures rs !in {CONNECTING, OPEN} ==> r == rs
  {
    if rs == CONNECTING || rs == OPEN then CLOSING else rs
  }

  /** The browser's timers: armed intervals and armed timeouts, each handle
      mapped to its delay in milliseconds. Both kinds draw handles from one
      counter, and clearInterval/clearTimeout clear either kind. */
  datatype Timers = Timers(intervals: map<nat, nat>, timeouts: map<nat, nat>, next: nat)

  const NoTimers := Timers(map[], map[], 1)

  /** Every armed handle was handed out before, and to one timer only. */
  ghost predicate TimersWellFormed(t: Timers) {
    && (forall h :: h in t.intervals ==> h < t.next)
    && (forall h :: h in t.timeouts ==> h < t.next)
    && t.intervals.Keys !! t.timeouts.Keys
  }

  /** setInterval: arms a new interval under the fresh handle `t.next`. */
  function SetInterval(t: Timers, delay: nat): (r: Timers)
    ensures r.intervals.Keys == t.intervals.Keys + {t.next}
    ensures r.intervals[t.next] == delay
    ensures forall h :: h in t.intervals && h != t.next ==> r.intervals[h] == t.intervals[h]
    ensures r.timeouts == t.timeouts && r.next == t.next + 1
    ensures TimersWellFormed(t) ==> TimersWellFormed(r)
  {
    Timers(t.intervals[t.next := delay], t.timeouts, t.next + 1)
  }

  /** setTimeout: arms a new one-shot timeout under the fresh handle `t.next`. */
  function SetTimeout(t: Timers, delay: nat): (r: Timers)
    ensures r.timeouts.Keys == t.timeouts.Keys + {t.next}
    ensures r.timeouts[t.next] == delay
    ensures forall h :: h in t.timeouts && h != t.next ==> r.timeouts[h] == t.timeouts[h]
    ensures r.intervals == t.intervals && r.next == t.next + 1
    ensures TimersWellFormed(t) ==> TimersWellFormed(r)
  {
    Timers(t.intervals, t.timeouts[t.next := delay], t.next + 1)
  }

  /** clearInterval/clearTimeout: disarms the timer with handle `h`, if any. */
  function ClearTimer(t: Timers, h: nat): (r: Timers)
    ensures r.intervals.Keys == t.intervals.Keys - {h}
    ensures r.timeouts.Keys == t.timeouts.Keys - {h}
    ensures forall g :: g in r.intervals ==> r.intervals[g] == t.intervals[g]
    ensures forall g :: g in r.timeouts ==> r.timeouts[g] == t.timeouts[g]
    ensures r.next == t.next
    ensures TimersWellFormed(t) ==> TimersWellFormed(r)
  {
    Timers(t.intervals - {h}, t.timeouts - {h}, t.next)
  }

  /** A one-shot timeout that has fired is no longer armed. */
  function TimeoutFired(t: Timers, h: nat): (r: Timers)
    ensures r.timeouts.Keys == t.timeouts.Keys - {h}
    ensures r.intervals == t.intervals && r.next == t.next
    ensures TimersWellFormed(t) ==> TimersWellFormed(r)
  {
    t.(timeouts := t.timeouts - {h})
  }
}
