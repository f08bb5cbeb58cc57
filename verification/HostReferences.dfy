// The references in the host tables are those that the host gave: each entry stems from the callback
// that created its object, and no callback touches it while the object is there.
module HostReferences {
  import opened Prelude
  import opened Registries
  import opened DocumentGraph
  import opened Controllers
  import opened ControllerInvariant
  import opened ContextCallbacks
  import opened CallbackEffects
  import Updates

  // Region sequences have no table.
  function HostsOf(c: Controller, kind: Kind): map<RawHandle, HostRef> {
    match kind
    case MusicalContextKind => c.contextHosts
    case RegionSequenceKind => map[]
    case AudioSourceKind => c.sourceHosts
    case AudioModificationKind => c.modificationHosts
    case PlaybackRegionKind => c.regionHosts
  }

  // The kind of object that a callback creates under a reference of the host.
  function Introduces(cb: Callback): Option<(Kind, Option<HostRef>)> {
    match cb
    case CreateContext(host, _, _) => Some((MusicalContextKind, host))
    case CreateSource(host, _) => Some((AudioSourceKind, host))
    case CreateModification(_, host, _) => Some((AudioModificationKind, host))
    case CloneModification(_, host, _) => Some((AudioModificationKind, host))
    case CreateRegion(_, host, _, _, _) => Some((PlaybackRegionKind, host))
    case _ => None
  }

  // The callback created the object, and the host gave `x` for it.
  ghost predicate Gives(c: Controller, cb: Callback, r: RawHandle, x: HostRef) {
    Introduces(cb) == Some((r.kind, Some(x))) && Act(c, cb).answer == Reference(Some(r.handle))
  }

  // Entries are as they were, or given by the callback; what it gives is entered.
  ghost predicate Follow(before: Controller, cb: Callback, t: Turn, kind: Kind) {
    match kind
    case k =>
      && (forall r :: r in HostsOf(t.now, k) ==>
            || (r in HostsOf(before, k) && HostsOf(t.now, k)[r] == HostsOf(before, k)[r])
            || (Introduces(cb) == Some((k, Some(HostsOf(t.now, k)[r]))) && r.kind == k
                && t.answer == Reference(Some(r.handle))))
      && (forall h, x :: Introduces(cb) == Some((k, Some(x))) && t.answer == Reference(Some(h)) ==>
            RawHandle(k, h) in HostsOf(t.now, k) && HostsOf(t.now, k)[RawHandle(k, h)] == x)
  }

  lemma EnteredFollows(before: map<RawHandle, HostRef>, kind: Kind, host: Option<HostRef>, answer: Controllers.Answer)
    ensures
      var after := Entered(before, kind, host, answer);
      && (forall r :: r in after ==>
            || (r in before && after[r] == before[r])
            || (host == Some(after[r]) && r.kind == kind && answer == Reference(Some(r.handle))))
      && (forall h, x :: host == Some(x) && answer == Reference(Some(h)) ==>
            RawHandle(kind, h) in after && after[RawHandle(kind, h)] == x)
  {
  }

  lemma LeftFollows(before: map<RawHandle, HostRef>, r: RawHandle, gone: bool)
    ensures forall q :: q in Left(before, r, gone) ==> q in before && Left(before, r, gone)[q] == before[q]
  {
  }

  lemma ContextFollows(c: Controller, cb: Callback, t: Turn)
    requires (cb.CreateContext? || cb.DestroyContext?) && t.now == UpperSides(c, cb, t)
    ensures Follow(c, cb, t, MusicalContextKind)
  {
    hide ViewLeft, Entered, Left;
    match cb
    case CreateContext(host, _, _) => EnteredFollows(c.contextHosts, MusicalContextKind, host, t.answer);
    case DestroyContext(h) =>
      LeftFollows(c.contextHosts, Ctx(h), c.graph.Some? && h !in ViewLeft(c, h).outline.contexts);
  }

  lemma SourceFollows(c: Controller, cb: Callback, t: Turn)
    requires (cb.CreateSource? || cb.DestroySource?) && t.now == UpperSides(c, cb, t)
    ensures Follow(c, cb, t, AudioSourceKind)
  {
    hide Works, StopsAnalysis, JobsLeft, QueueLeft, StartsLeft, Entered, Left;
    match cb
    case CreateSource(host, _) => EnteredFollows(c.sourceHosts, AudioSourceKind, host, t.answer);
    case DestroySource(s) => LeftFollows(c.sourceHosts, Src(s), Works(c, cb));
  }

  lemma ModificationFollows(c: Controller, cb: Callback, t: Turn)
    requires cb.CreateModification? || cb.CloneModification? || cb.DestroyModification?
    requires t.now == LowerSides(c, cb, t)
    ensures Follow(c, cb, t, AudioModificationKind)
  {
    hide Works, Entered, Left, Follow;
    match cb
    case CreateModification(_, host, _) => ModificationEnters(c, cb, t, host);
    case CloneModification(_, host, _) => ModificationEnters(c, cb, t, host);
    case DestroyModification(m) => ModificationLeaves(c, cb, t);
  }

  lemma ModificationEnters(c: Controller, cb: Callback, t: Turn, host: Option<HostRef>)
    requires Introduces(cb) == Some((AudioModificationKind, host))
    requires t.now.modificationHosts == Entered(c.modificationHosts, AudioModificationKind, host, t.answer)
    ensures Follow(c, cb, t, AudioModificationKind)
  {
    hide Entered, Introduces;
    EnteredFollows(c.modificationHosts, AudioModificationKind, host, t.answer);
  }

  lemma ModificationLeaves(c: Controller, cb: Callback, t: Turn)
    requires cb.DestroyModification?
    requires t.now.modificationHosts == Left(c.modificationHosts, Mod(cb.modification), Works(c, cb))
    ensures Follow(c, cb, t, AudioModificationKind)
  {
    hide Left, Works;
    LeftFollows(c.modificationHosts, Mod(cb.modification), Works(c, cb));
  }

  lemma RegionFollows(c: Controller, cb: Callback, t: Turn)
    requires (cb.CreateRegion? || cb.DestroyRegion?) && t.now == LowerSides(c, cb, t)
    ensures Follow(c, cb, t, PlaybackRegionKind)
  {
    hide Works, Entered, Left, Follow;
    match cb
    case CreateRegion(_, host, _, _, _) => RegionEnters(c, cb, t);
    case DestroyRegion(r) => RegionLeaves(c, cb, t);
  }

  lemma RegionEnters(c: Controller, cb: Callback, t: Turn)
    requires cb.CreateRegion? && t.now.regionHosts == Entered(c.regionHosts, PlaybackRegionKind, cb.host, t.answer)
    ensures Follow(c, cb, t, PlaybackRegionKind)
  {
    hide Entered;
    EnteredFollows(c.regionHosts, PlaybackRegionKind, cb.host, t.answer);
  }

  lemma RegionLeaves(c: Controller, cb: Callback, t: Turn)
    requires cb.DestroyRegion? && t.now.regionHosts == Left(c.regionHosts, Reg(cb.region), Works(c, cb))
    ensures Follow(c, cb, t, PlaybackRegionKind)
  {
    hide Left, Works;
    LeftFollows(c.regionHosts, Reg(cb.region), Works(c, cb));
  }

  // A table that a callback does not belong to is as it was.
  lemma OtherTableFollows(c: Controller, cb: Callback, t: Turn, kind: Kind)
    requires HostsOf(t.now, kind) == HostsOf(c, kind)
    requires Introduces(cb).Some? ==> Introduces(cb).value.0 != kind
    ensures Follow(c, cb, t, kind)
  {
    hide HostsOf, Introduces;
  }

  // Every callback.
  lemma EntriesFollow(c: Controller, cb: Callback, kind: Kind)
    requires Tidy(c)
    ensures Follow(c, cb, Act(c, cb), kind)
  {
    hide Tidy, Act, Follow, UpperSides, LowerSides, OwnSides, InnerSides, SignalsFor, NoticesFor, Answers, Stays;
    var t := Act(c, cb);
    EffectsAreExact(c, cb);
    if (cb.CreateContext? || cb.DestroyContext?) && kind.MusicalContextKind? {
      ContextFollows(c, cb, t);
    } else if (cb.CreateSource? || cb.DestroySource?) && kind.AudioSourceKind? {
      SourceFollows(c, cb, t);
    } else if (cb.CreateModification? || cb.CloneModification? || cb.DestroyModification?)
              && kind.AudioModificationKind? {
      ModificationFollows(c, cb, t);
    } else if (cb.CreateRegion? || cb.DestroyRegion?) && kind.PlaybackRegionKind? {
      RegionFollows(c, cb, t);
    } else {
      WhatStays(c, cb);
      TableStays(c, cb, t.now, kind);
      OtherTableFollows(c, cb, t, kind);
    }
  }

  lemma TableStays(c: Controller, cb: Callback, now: Controller, kind: Kind)
    requires Stays(c, cb, now)
    ensures
      match kind
      case MusicalContextKind => cb.CreateContext? || cb.DestroyContext? || now.contextHosts == c.contextHosts
      case RegionSequenceKind => true
      case AudioSourceKind => cb.CreateSource? || cb.DestroySource? || now.sourceHosts == c.sourceHosts
      case AudioModificationKind =>
        cb.CreateModification? || cb.CloneModification? || cb.DestroyModification?
        || now.modificationHosts == c.modificationHosts
      case PlaybackRegionKind => cb.CreateRegion? || cb.DestroyRegion? || now.regionHosts == c.regionHosts
  {
    hide Tellable, Updates.Marked;
  }

  // In every run from a controller without entries the reference of an object is the one that the host
  // gave with the callback that created it, and it has been that ever since.
  lemma {:induction false} ReferencesAreGiven(c: Controller, cbs: seq<Callback>, r: RawHandle) returns (i: nat)
    requires Tidy(c) && HostsOf(c, r.kind) == map[] && r in HostsOf(After(c, cbs).now, r.kind)
    ensures i < |cbs| && Gives(After(c, cbs[..i]).now, cbs[i], r, HostsOf(After(c, cbs).now, r.kind)[r])
    ensures forall k :: i < k <= |cbs| ==>
              var hosts := HostsOf(After(c, cbs[..k]).now, r.kind);
              r in hosts && hosts[r] == HostsOf(After(c, cbs).now, r.kind)[r]
  {
    hide Act, Tidy, HostsOf, Introduces;
    assert cbs[..|cbs|] == cbs;
    var init, cb := cbs[..|cbs| - 1], cbs[|cbs| - 1];
    var before := After(c, init).now;
    RunKeepsTidy(c, init);
    EntriesFollow(before, cb, r.kind);
    if Gives(before, cb, r, HostsOf(After(c, cbs).now, r.kind)[r]) {
      i := |cbs| - 1;
    } else {
      i := ReferencesAreGiven(c, init, r);
      assert init[..i] == cbs[..i];
      forall k | i < k <= |cbs| ensures
        var hosts := HostsOf(After(c, cbs[..k]).now, r.kind);
        r in hosts && hosts[r] == HostsOf(After(c, cbs).now, r.kind)[r]
      {
        if k < |cbs| {
          assert init[..k] == cbs[..k];
        }
      }
    }
  }
}
