/**
 `WaitableCell`: a write-once cell that tasks can wait on.  Waiters and setters interleave at the
 points where the code can be preempted: creating the `Notified` future, checking the cell, awaiting;
 storing the value and notifying.
 */
module Sync {
  import opened Options

  /** A call of `wait`.  The future counts as notified once `notify_waiters` ran after its creation. */
  datatype Waiter<T> =
    | Registered(epoch: nat)   // has created the future
    | Blocked(epoch: nat)      // found the cell empty and awaits the future
    | Returned(value: T)
    | Undefined                // would have read an empty cell with `unwrap_unchecked`

  /** A call of `set`, directly or by dropping a guard. */
  datatype Setter<T> =
    | Calling(value: T)
    | Stored                   // the cell took the value, waiters are not notified yet
    | Told(ok: bool)

  /** `epoch` counts the calls of `notify_waiters`. */
  datatype Cell<T> = Cell(
    value: Option<T>, epoch: nat, waiters: map<nat, Waiter<T>>, setters: map<nat, Setter<T>>)

  datatype Event<T> =
    | Register(id: nat)
    | Check(id: nat)
    | Poll(id: nat)
    | Call(id: nat, value: T)
    | Store(id: nat)
    | Notify(id: nat)

  function Empty<T>(): Cell<T> {
    Cell(None, 0, map[], map[])
  }

  function Do<T>(s: Cell<T>, e: Event<T>): Cell<T> {
    match e
    case Register(id) =>
      if id in s.waiters then s else s.(waiters := s.waiters[id := Registered(s.epoch)])
    case Check(id) =>
      if id !in s.waiters || !s.waiters[id].Registered? then s
      else if s.value.Some? then s.(waiters := s.waiters[id := Returned(s.value.value)])
      else s.(waiters := s.waiters[id := Blocked(s.waiters[id].epoch)])
    case Poll(id) =>
      if id !in s.waiters || !s.waiters[id].Blocked? || s.epoch <= s.waiters[id].epoch then s
      else if s.value.Some? then s.(waiters := s.waiters[id := Returned(s.value.value)])
      else s.(waiters := s.waiters[id := Undefined])
    case Call(id, value) =>
      if id in s.setters then s else s.(setters := s.setters[id := Calling(value)])
    case Store(id) =>
      if id !in s.setters || !s.setters[id].Calling? then s
      else if s.value.Some? then s.(setters := s.setters[id := Told(false)])
      else s.(value := Some(s.setters[id].value), setters := s.setters[id := Stored])
    case Notify(id) =>
      if id !in s.setters || !s.setters[id].Stored? then s
      else s.(epoch := s.epoch + 1, setters := s.setters[id := Told(true)])
  }

  function Exec<T>(s: Cell<T>, events: seq<Event<T>>): Cell<T> {
    if events == [] then s
    else Do(Exec(s, events[..|events| - 1]), events[|events| - 1])
  }

  /** The setter whose value the cell took. */
  predicate Won<T>(setter: Setter<T>) {
    setter.Stored? || setter == Told(true)
  }

  ghost predicate Inv<T>(s: Cell<T>) {
    && (s.epoch > 0 <==> exists id :: id in s.setters && s.setters[id] == Told(true))
    && (s.value.Some? <==> exists id :: id in s.setters && Won(s.setters[id]))
    && (forall i, j :: i in s.setters && j in s.setters && Won(s.setters[i]) && Won(s.setters[j]) ==> i == j)
    && (forall id :: id in s.setters && s.setters[id] == Told(false) ==> s.value.Some?)
    && forall id :: id in s.waiters ==>
         match s.waiters[id]
         case Registered(epoch) => epoch <= s.epoch
         case Blocked(epoch) => epoch == 0
         case Returned(value) => s.value == Some(value)
         case Undefined => false
  }

  lemma WaitKeepsInv<T>(s: Cell<T>, e: Event<T>)
    requires Inv(s) && (e.Register? || e.Check? || e.Poll?)
    ensures Inv(Do(s, e)) && Do(s, e).value == s.value
  {
  }

  lemma SetKeepsInv<T>(s: Cell<T>, e: Event<T>)
    requires Inv(s) && (e.Call? || e.Store? || e.Notify?)
    ensures Inv(Do(s, e))
    ensures s.value.Some? ==> Do(s, e).value == s.value
  {
    var s' := Do(s, e);
    if s' != s {
      assert forall x :: x in s.setters && x != e.id ==> s'.setters[x] == s.setters[x];
      assert e.id in s'.setters;
      if e.Notify? { assert s'.setters[e.id] == Told(true); }
    }
  }

  lemma DoKeepsInv<T>(s: Cell<T>, e: Event<T>)
    requires Inv(s)
    ensures Inv(Do(s, e))
    ensures s.value.Some? ==> Do(s, e).value == s.value
  {
    if e.Register? || e.Check? || e.Poll? { WaitKeepsInv(s, e); } else { SetKeepsInv(s, e); }
  }

  lemma {:induction false} RunKeepsInv<T>(s: Cell<T>, events: seq<Event<T>>)
    requires Inv(s)
    ensures Inv(Exec(s, events))
    ensures s.value.Some? ==> Exec(s, events).value == s.value
  {
    if events != [] {
      RunKeepsInv(s, events[..|events| - 1]);
      DoKeepsInv(Exec(s, events[..|events| - 1]), events[|events| - 1]);
    }
  }

  /** A woken waiter always finds the value: reading the cell without a check is sound in every run. */
  lemma WokenFindsValue<T>(events: seq<Event<T>>, id: nat)
    requires id in Exec(Empty<T>(), events).waiters
    ensures !Exec(Empty<T>(), events).waiters[id].Undefined?
  {
    RunKeepsInv(Empty<T>(), events);
  }

  /** The first value stored is the one every waiter returns, then and in every continuation of the run. */
  lemma FirstSetWins<T>(events: seq<Event<T>>, more: seq<Event<T>>, id: nat)
    requires Exec(Empty<T>(), events).value.Some?
    ensures var s := Exec(Exec(Empty<T>(), events), more);
            && s.value == Exec(Empty<T>(), events).value
            && (id in s.waiters && s.waiters[id].Returned? ==>
                  s.waiters[id].value == Exec(Empty<T>(), events).value.value)
  {
    RunKeepsInv(Empty<T>(), events);
    RunKeepsInv(Exec(Empty<T>(), events), more);
  }

  /** Exactly one `set` succeeds once the cell has a value, and the others are refused. */
  lemma OneSetterWins<T>(events: seq<Event<T>>, i: nat, j: nat)
    requires var s := Exec(Empty<T>(), events).setters; i in s && j in s && s[i] == Told(true) && s[j].Told?
    ensures Exec(Empty<T>(), events).setters[j].ok <==> i == j
  {
    RunKeepsInv(Empty<T>(), events);
    assert Won(Exec(Empty<T>(), events).setters[i]);
    assert Exec(Empty<T>(), events).setters[j].ok ==> Won(Exec(Empty<T>(), events).setters[j]);
  }

  /** No lost wakeup: once a `set` has notified, every waiter returns as soon as it is scheduled. */
  lemma NoLostWakeup<T>(events: seq<Event<T>>, setter: nat, id: nat)
    requires var s := Exec(Empty<T>(), events);
             && setter in s.setters && s.setters[setter] == Told(true)
             && id in s.waiters
    ensures var s := Exec(Empty<T>(), events);
            var s' := Do(Do(s, Check(id)), Poll(id));
            s.value.Some? && id in s'.waiters && s'.waiters[id] == Returned(s.value.value)
  {
    var s := Exec(Empty<T>(), events);
    RunKeepsInv(Empty<T>(), events);
    assert Won(s.setters[setter]);
    DoKeepsInv(s, Check(id));
  }

  /**
   What a `set` does, in every run: on an empty cell it stores its value, notifies and succeeds; on a
   full one it is refused and changes nothing.
   */
  lemma SetStoresOrIsRefused<T>(events: seq<Event<T>>, id: nat, v: T)
    requires id !in Exec(Empty<T>(), events).setters
    ensures var s := Exec(Empty<T>(), events);
            var s' := Do(Do(Do(s, Call(id, v)), Store(id)), Notify(id));
            && id in s'.setters && s'.waiters == s.waiters
            && if s.value.None? then
                 s'.value == Some(v) && s'.setters[id] == Told(true) && s'.epoch == s.epoch + 1
               else
                 s'.value == s.value && s'.setters[id] == Told(false) && s'.epoch == s.epoch
  {
    var called := Do(Exec(Empty<T>(), events), Call(id, v));
    assert id in called.setters && called.setters[id] == Calling(v);
    assert Do(called, Store(id)).setters[id] == if called.value.None? then Stored else Told(false);
  }

  /** A waiter that comes to a full cell returns its value without waiting; on an empty one it waits. */
  lemma WaiterChecks<T>(events: seq<Event<T>>, id: nat)
    requires id !in Exec(Empty<T>(), events).waiters
    ensures var s := Exec(Empty<T>(), events);
            var s' := Do(Do(s, Register(id)), Check(id));
            && id in s'.waiters && s'.value == s.value
            && if s.value.Some? then s'.waiters[id] == Returned(s.value.value) else s'.waiters[id].Blocked?
  {
  }

  /** The cell as the code that owns it sees it: the first value set stays. */
  class WaitableCell<T> {
    var value: Option<T>

    constructor ()
      ensures value.None?
    {
      value := None;
    }

    method Set(v: T) returns (ok: bool)
      modifies this
      ensures ok == old(value).None?
      ensures value == if ok then Some(v) else old(value)
    {
      ok := value.None?;
      if ok { value := Some(v); }
    }
  }

  /** `set_guard_with`: dropping the guard sets the cell, once, unless it already has a value. */
  class SetGuard<T> {
    const cell: WaitableCell<T>
    var fallback: Option<T>

    constructor (cell: WaitableCell<T>, fallback: T)
      ensures this.cell == cell && this.fallback == Some(fallback)
    {
      this.cell, this.fallback := cell, Some(fallback);
    }

    method Drop()
      requires fallback.Some?
      modifies this, cell
      ensures fallback.None? && cell.value.Some?
      ensures old(cell.value).Some? ==> cell.value == old(cell.value)
      ensures old(cell.value).None? ==> cell.value == old(fallback)
    {
      var v := fallback.value;
      fallback := None;
      var _ := cell.Set(v);
    }
  }
}
