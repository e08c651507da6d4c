/** One-shot callbacks that run when the record at their offset is committed. */
module OnceCallbacks {

  type Id = nat

  /** The callbacks waiting at each offset, and the committed offset they wait for. */
  datatype Table = Table(waiting: map<nat, seq<Id>>, committed: nat)

  datatype Action =
    | Register(offset: nat, id: Id)
    | Publish(committed: nat)    // the I/O thread stores a new committed offset
    | Fire                       // and then runs what has become due

  /** The committed offset never moves back. */
  predicate Enabled(t: Table, a: Action) {
    a.Publish? ==> a.committed >= t.committed
  }

  function Waiting(t: Table, offset: nat): seq<Id> {
    if offset in t.waiting then t.waiting[offset] else []
  }

  function Apply(t: Table, a: Action): Table {
    match a
    case Register(offset, id) =>
      if offset < t.committed then t
      else t.(waiting := t.waiting[offset := Waiting(t, offset) + [id]])
    case Publish(committed) => t.(committed := committed)
    case Fire => t.(waiting := map o | o in t.waiting && o >= t.committed :: t.waiting[o])
  }

  /** How often an action runs callback `id` of `offset`. */
  function Runs(t: Table, a: Action, offset: nat, id: Id): nat {
    match a
    case Register(o, i) => if o < t.committed && o == offset && i == id then 1 else 0
    case Publish(_) => 0
    case Fire => if offset < t.committed then multiset(Waiting(t, offset))[id] else 0
  }

  // ------------------------------------------------------------------- runs

  predicate RunOk(t: Table, acts: seq<Action>) {
    acts == [] || (RunOk(t, acts[..|acts| - 1]) && Enabled(After(t, acts[..|acts| - 1]), acts[|acts| - 1]))
  }

  function After(t: Table, acts: seq<Action>): Table {
    if acts == [] then t else Apply(After(t, acts[..|acts| - 1]), acts[|acts| - 1])
  }

  function Registered(acts: seq<Action>, offset: nat, id: Id): nat {
    if acts == [] then 0
    else Registered(acts[..|acts| - 1], offset, id)
         + if acts[|acts| - 1] == Register(offset, id) then 1 else 0
  }

  function Ran(t: Table, acts: seq<Action>, offset: nat, id: Id): nat {
    if acts == [] then 0
    else
      var n := |acts| - 1;
      Ran(t, acts[..n], offset, id) + Runs(After(t, acts[..n]), acts[n], offset, id)
  }

  const Start := Table(map[], 0)

  /**
   * Under every interleaving, registrations are conserved: each one either has run, once, or still
   * waits. Nothing runs before its offset is committed, so what has not been committed all waits.
   */
  lemma {:induction false} Conserved(acts: seq<Action>, offset: nat, id: Id)
    requires RunOk(Start, acts)
    ensures var t := After(Start, acts);
            && Registered(acts, offset, id) == Ran(Start, acts, offset, id) + multiset(Waiting(t, offset))[id]
            && (offset >= t.committed ==> Ran(Start, acts, offset, id) == 0)
  {
    if acts != [] {
      var n := |acts| - 1;
      Conserved(acts[..n], offset, id);
      OneStep(After(Start, acts[..n]), acts[n], offset, id);
    }
  }

  lemma OneStep(t: Table, a: Action, offset: nat, id: Id)
    requires Enabled(t, a)
    ensures multiset(Waiting(Apply(t, a), offset))[id] + Runs(t, a, offset, id)
         == multiset(Waiting(t, offset))[id] + if a == Register(offset, id) then 1 else 0
    ensures Apply(t, a).committed >= t.committed
    ensures Runs(t, a, offset, id) > 0 ==> offset < t.committed
  {
    match a
    case Register(o, i) =>
      assert multiset(Waiting(t, o) + [i]) == multiset(Waiting(t, o)) + multiset{i};
    case Publish(_) =>
    case Fire =>
  }

  /** No wake-up is lost: once the I/O thread has fired, all that is committed has run. */
  lemma NothingLost(acts: seq<Action>, offset: nat, id: Id)
    requires RunOk(Start, acts + [Fire])
    ensures var t := After(Start, acts + [Fire]);
            offset < t.committed ==>
              offset !in t.waiting && Ran(Start, acts + [Fire], offset, id) == Registered(acts, offset, id)
  {
    Conserved(acts + [Fire], offset, id);
    assert (acts + [Fire])[..|acts|] == acts;
  }

  // ----------------------------------------------------------- the object

  datatype Call = Call(offset: nat, id: Id)

  class CallbackTable {
    var waiting: map<nat, seq<Id>>
    var committed: nat

    function View(): Table
      reads this
    {
      Table(waiting, committed)
    }

    constructor ()
      ensures View() == Start
    {
      waiting, committed := map[], 0;
    }

    /** Runs the callback at once if its offset is already committed, otherwise keeps it. */
    method SetOnceCommitCallback(offset: nat, id: Id) returns (calls: seq<Call>)
      modifies this`waiting
      ensures View() == Apply(old(View()), Register(offset, id))
      ensures forall o, i :: multiset(calls)[Call(o, i)] == Runs(old(View()), Register(offset, id), o, i)
    {
      if offset < committed {
        return [Call(offset, id)];
      }
      waiting := waiting[offset := (if offset in waiting then waiting[offset] else []) + [id]];
      return [];
    }

    /** Takes out every entry below `limit`, in whatever order the table is walked, and runs it. */
    method FireOnceCallbacks() returns (calls: seq<Call>)
      modifies this`waiting
      ensures View() == Apply(old(View()), Fire)
      ensures forall o, i :: multiset(calls)[Call(o, i)] == Runs(old(View()), Fire, o, i)
    {
      calls := [];
      var left := waiting.Keys;
      ghost var before := View();
      while left != {}
        invariant left <= before.waiting.Keys
        invariant waiting == map o | o in before.waiting && (o in left || o >= committed) :: before.waiting[o]
        invariant forall o, i :: multiset(calls)[Call(o, i)] == if o in left then 0 else Runs(before, Fire, o, i)
        decreases |left|
      {
        var o :| o in left;
        left := left - {o};
        if o < committed {
          var due := Calls(o, waiting[o]);
          CallsCount(o, waiting[o]);
          assert multiset(calls + due) == multiset(calls) + multiset(due);
          calls := calls + due;
          waiting := waiting - {o};
        }
      }
    }
  }

  function Calls(offset: nat, ids: seq<Id>): seq<Call> {
    if ids == [] then [] else Calls(offset, ids[..|ids| - 1]) + [Call(offset, ids[|ids| - 1])]
  }

  lemma {:induction false} CallsCount(offset: nat, ids: seq<Id>)
    ensures forall o, i :: multiset(Calls(offset, ids))[Call(o, i)]
                        == if o == offset then multiset(ids)[i] else 0
  {
    if ids != [] {
      var n := |ids| - 1;
      CallsCount(offset, ids[..n]);
      assert ids == ids[..n] + [ids[n]];
    }
  }
}
