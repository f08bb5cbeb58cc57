// The registry of controller-destroy handlers (ara2-bridge-companion/src/binding.rs).  It holds weak
// references: a handler lives while its registration does, or while a notification is running it.
module DestroyHandlers {
  import opened Prelude

  type Id = nat
  type Controller = nat
  type Table = map<Controller, seq<Id>>

  // The handlers of a list that are alive and not `gone`.
  function Retain(handlers: seq<Id>, alive: set<Id>, gone: Option<Id>): seq<Id> {
    Filter(handlers, (id: Id) => id in alive && gone != Some(id))
  }

  function Listed(t: Table, c: Controller): seq<Id> {
    if c in t then t[c] else []
  }

  // An empty list leaves no entry.
  function Entry(t: Table, c: Controller, handlers: seq<Id>): Table {
    if handlers == [] then t - {c} else t[c := handlers]
  }

  class DestroyRegistry {
    var table: Table

    constructor ()
      ensures table == map[]
    {
      table := map[];
    }

    method Keep(handlers: seq<Id>, alive: set<Id>, gone: Option<Id>) returns (kept: seq<Id>)
      ensures kept == Retain(handlers, alive, gone)
    {
      kept := [];
      assert handlers[..|handlers|] == handlers;
      for i := 0 to |handlers|
        invariant kept == Retain(handlers[..i], alive, gone)
      {
        assert handlers[..i + 1][..i] == handlers[..i];
        if handlers[i] in alive && gone != Some(handlers[i]) {
          kept := kept + [handlers[i]];
        }
      }
    }

    method Register(c: Controller, id: Id)
      modifies this
      ensures table == old(table)[c := Listed(old(table), c) + [id]]
    {
      table := table[c := (if c in table then table[c] else []) + [id]];
    }

    // The drop of a registration; its own handler is still alive then.
    method Deregister(c: Controller, id: Id, alive: set<Id>)
      modifies this
      ensures table ==
              if c in old(table) then Entry(old(table), c, Retain(old(table)[c], alive, Some(id))) else old(table)
    {
      if c in table {
        var kept := Keep(table[c], alive, Some(id));
        if kept == [] {
          table := table - {c};
        } else {
          table := table[c := kept];
        }
      }
    }

    // The handlers to call, collected under the lock and called after it is released.
    method Notify(c: Controller, alive: set<Id>) returns (called: seq<Id>)
      modifies this
      ensures called == Retain(Listed(old(table), c), alive, None)
      ensures table ==
              if c in old(table) then Entry(old(table), c, Retain(old(table)[c], alive, None)) else old(table)
    {
      if c !in table { return []; }
      called := Keep(table[c], alive, None);
      if called == [] {
        table := table - {c};
      } else {
        table := table[c := called];
      }
    }

    method Count(c: Controller, alive: set<Id>) returns (n: nat)
      modifies this
      ensures n == |Retain(Listed(old(table), c), alive, None)|
    {
      var called := Notify(c, alive);
      n := |called|;
    }
  }

  // ---- Runs: registrations come and go, and notifications overlap with both

  datatype Registration = Registration(id: Id, controller: Controller)

  // `live`: the registrations that exist, oldest first; `running`: handlers that notifications hold.
  datatype World = World(table: Table, live: seq<Registration>, running: multiset<Id>, used: nat)

  datatype Step =
    | Register(controller: Controller)
    | Drop(registration: Registration)
    | Notify(controller: Controller)
    | Finish(id: Id)                   // a notification is done with a handler

  function Alive(w: World): set<Id> {
    (set r | r in w.live :: r.id) + (set id | id in w.running)
  }

  predicate Enabled(w: World, a: Step) {
    match a
    case Drop(r) => r in w.live
    case Finish(id) => w.running[id] > 0
    case _ => true
  }

  function Remove(rs: seq<Registration>, gone: Registration): seq<Registration> {
    if rs == [] then []
    else Remove(rs[..|rs| - 1], gone) + if rs[|rs| - 1] == gone then [] else [rs[|rs| - 1]]
  }

  function Called(w: World, c: Controller): seq<Id> {
    Retain(Listed(w.table, c), Alive(w), None)
  }

  function Next(w: World, a: Step): World {
    match a
    case Register(c) =>
      w.(table := w.table[c := Listed(w.table, c) + [w.used]],
         live := w.live + [Registration(w.used, c)], used := w.used + 1)
    case Drop(r) =>
      var table := if r.controller in w.table
                   then Entry(w.table, r.controller, Retain(w.table[r.controller], Alive(w), Some(r.id)))
                   else w.table;
      w.(table := table, live := Remove(w.live, r))
    case Notify(c) =>
      var table := if c in w.table then Entry(w.table, c, Called(w, c)) else w.table;
      w.(table := table, running := w.running + multiset(Called(w, c)))
    case Finish(id) => w.(running := w.running - multiset{id})
  }

  // The live registrations of a controller, oldest first.
  function Of(rs: seq<Registration>, c: Controller): seq<Id> {
    if rs == [] then []
    else Of(rs[..|rs| - 1], c) + if rs[|rs| - 1].controller == c then [rs[|rs| - 1].id] else []
  }

  ghost predicate Sound(w: World) {
    && (forall c :: Listed(w.table, c) == Of(w.live, c))
    && (forall c :: c in w.table ==> w.table[c] != [])
    && (forall i :: 0 <= i < |w.live| ==> w.live[i].id < w.used)
    && (forall i, j :: 0 <= i < j < |w.live| ==> w.live[i].id != w.live[j].id)
  }

  lemma {:induction false} OfIsLive(rs: seq<Registration>, c: Controller)
    ensures forall id :: id in Of(rs, c) ==> Registration(id, c) in rs
  {
    if rs != [] {
      OfIsLive(rs[..|rs| - 1], c);
    }
  }

  lemma {:induction false} RetainAll(ids: seq<Id>, alive: set<Id>)
    requires forall id :: id in ids ==> id in alive
    ensures Retain(ids, alive, None) == ids
  {
    if ids != [] {
      RetainAll(ids[..|ids| - 1], alive);
    }
  }

  lemma {:induction false} RemoveKeeps(rs: seq<Registration>, gone: Registration)
    ensures forall r :: r in Remove(rs, gone) <==> r in rs && r != gone
    ensures (forall i, j :: 0 <= i < j < |rs| ==> rs[i].id != rs[j].id) ==>
              forall i, j :: 0 <= i < j < |Remove(rs, gone)| ==> Remove(rs, gone)[i].id != Remove(rs, gone)[j].id
  {
    if rs != [] {
      var init, last := rs[..|rs| - 1], rs[|rs| - 1];
      RemoveKeeps(init, gone);
      assert rs == init + [last];
      forall i | 0 <= i < |Remove(init, gone)| ensures Remove(init, gone)[i] in init {
        assert Remove(init, gone)[i] in Remove(init, gone);
      }
    }
  }

  lemma OfAppend(rs: seq<Registration>, r: Registration, c: Controller)
    ensures Of(rs + [r], c) == if r.controller == c then Of(rs, c) + [r.id] else Of(rs, c)
  {
    assert (rs + [r])[..|rs + [r]| - 1] == rs && Of(rs, c) + [] == Of(rs, c);
  }

  lemma RemoveAppend(rs: seq<Registration>, r: Registration, gone: Registration)
    ensures Remove(rs + [r], gone) == if r == gone then Remove(rs, gone) else Remove(rs, gone) + [r]
  {
    assert (rs + [r])[..|rs + [r]| - 1] == rs && Remove(rs, gone) + [] == Remove(rs, gone);
  }

  lemma RetainAppend(ids: seq<Id>, id: Id, alive: set<Id>, gone: Option<Id>)
    ensures Retain(ids + [id], alive, gone) ==
            if id in alive && gone != Some(id) then Retain(ids, alive, gone) + [id] else Retain(ids, alive, gone)
  {
    assert (ids + [id])[..|ids + [id]| - 1] == ids && Retain(ids, alive, gone) + [] == Retain(ids, alive, gone);
  }

  // Removing a registration from the list of its controller, and from no other.
  lemma {:induction false} OfRemoved(rs: seq<Registration>, gone: Registration, c: Controller, alive: set<Id>)
    requires forall r :: r in rs ==> r.id in alive && (r.id == gone.id ==> r == gone)
    ensures Of(Remove(rs, gone), c) ==
            if c == gone.controller then Retain(Of(rs, c), alive, Some(gone.id)) else Of(rs, c)
  {
    hide Of, Remove, Retain;
    if rs == [] {
      Nothing(gone, c, alive);
    } else {
      var init, last := rs[..|rs| - 1], rs[|rs| - 1];
      assert rs == init + [last] && last in rs;
      OfRemoved(init, gone, c, alive);
      OfAppend(init, last, c);
      RemoveAppend(init, last, gone);
      OfAppend(Remove(init, gone), last, c);
      RetainAppend(Of(init, c), last.id, alive, Some(gone.id));
    }
  }

  lemma Nothing(gone: Registration, c: Controller, alive: set<Id>)
    ensures Remove([], gone) == [] && Of([], c) == [] && Retain([], alive, Some(gone.id)) == []
  {
  }

  // Every registered handler of a live controller is alive, so a notification calls all of them.
  lemma CalledAreLive(w: World, c: Controller)
    requires Sound(w)
    ensures Called(w, c) == Of(w.live, c)
  {
    OfIsLive(w.live, c);
    RetainAll(Of(w.live, c), Alive(w));
  }

  lemma NextSound(w: World, a: Step)
    requires Sound(w) && Enabled(w, a)
    ensures Sound(Next(w, a))
  {
    hide Of, Remove, Retain, Alive;
    match a
    case Register(c) =>
      forall d ensures Listed(Next(w, a).table, d) == Of(Next(w, a).live, d) {
        OfAppend(w.live, Registration(w.used, c), d);
      }
    case Drop(r) => DropSound(w, r);
    case Notify(c) =>
      CalledAreLive(w, c);
      assert Listed(w.table, c) == Of(w.live, c);
    case Finish(_) =>
  }

  lemma DropSound(w: World, r: Registration)
    requires Sound(w) && r in w.live
    ensures Sound(Next(w, Drop(r)))
  {
    hide Of, Remove, Retain;
    var w' := Next(w, Drop(r));
    RemoveKeeps(w.live, r);
    assert forall s :: s in w.live && s.id == r.id ==> s == r;
    forall d ensures Listed(w'.table, d) == Of(w'.live, d) {
      assert Listed(w.table, d) == Of(w.live, d);
      OfRemoved(w.live, r, d, Alive(w));
      Nothing(r, d, Alive(w));
    }
    forall i | 0 <= i < |w'.live| ensures w'.live[i].id < w.used {
      assert w'.live[i] in w.live;
    }
  }

  const START := World(map[], [], multiset{}, 0)

  ghost predicate IsRun(ws: seq<World>, steps: seq<Step>) {
    && |ws| == |steps| + 1 && ws[0] == START
    && forall i :: 0 <= i < |steps| ==> Enabled(ws[i], steps[i]) && ws[i + 1] == Next(ws[i], steps[i])
  }

  lemma {:induction false} RunSound(ws: seq<World>, steps: seq<Step>, n: nat)
    requires IsRun(ws, steps) && n < |ws|
    ensures Sound(ws[n])
  {
    hide Next;
    if n > 0 {
      RunSound(ws, steps, n - 1);
      NextSound(ws[n - 1], steps[n - 1]);
    }
  }

  // In every run a notification calls exactly the registrations of that controller that are live then,
  // in the order in which they were made, whatever other notifications are still running.
  lemma NotifiesTheLive(ws: seq<World>, steps: seq<Step>, n: nat, c: Controller)
    requires IsRun(ws, steps) && n < |ws|
    ensures Called(ws[n], c) == Of(ws[n].live, c)
    ensures c in ws[n].table <==> Of(ws[n].live, c) != []
  {
    RunSound(ws, steps, n);
    CalledAreLive(ws[n], c);
    assert Listed(ws[n].table, c) == Of(ws[n].live, c);
  }
}
