/** The controller's behaviour as values: the selector check, the directional
    predicate, the class updates of `stick` and `unstick`, and what one scroll
    event (or a run of them) does to the targets and the subscription. */
module StickItBehavior {
  import opened StickItOptions

  /** `private.check`: a jQuery collection passes when it is not empty. */
  predicate Found(count: nat)
  {
    count != 0
  }

  /** The two checks `init` runs. Both are applied to the trigger collection,
      so the number of targets plays no part: only an empty trigger fails. */
  function SelectorsFound(triggerCount: nat, targetCount: nat): (ok: bool)
    ensures ok <==> triggerCount > 0
  {
    Found(triggerCount) && Found(triggerCount)
  }

  /** `private.determineAction`: "before" fires once the page has scrolled past
      the threshold; "after" and every other value fire while it has not. */
  function DetermineAction(ref: string, pos: int, scrollTop: int): (passed: bool)
    ensures ref == "before" ==> (passed <==> pos < scrollTop)
    ensures ref != "before" ==> (passed <==> scrollTop < pos)
    ensures scrollTop == pos ==> !passed
  {
    if ref == "after" then pos > scrollTop
    else if ref == "before" then pos < scrollTop
    else pos > scrollTop
  }

  /** The classes neither list mentions. */
  function Others(c: set<string>, s: Settings): set<string>
  {
    c - (s.activeClasses + s.inActiveClasses)
  }

  /** The "stuck" state of one element: every active class, and no inactive class
      that is not also active. */
  predicate Stuck(c: set<string>, s: Settings)
  {
    s.activeClasses <= c && c !! (s.inActiveClasses - s.activeClasses)
  }

  /** The "unstuck" state of one element, the mirror image of `Stuck`. */
  predicate Unstuck(c: set<string>, s: Settings)
  {
    s.inActiveClasses <= c && c !! (s.activeClasses - s.inActiveClasses)
  }

  /** `stick` on one element: remove the inactive classes, then add the active ones. */
  function StickClasses(c: set<string>, s: Settings): (r: set<string>)
    ensures Stuck(r, s)
    ensures Others(r, s) == Others(c, s)
  {
    (c - s.inActiveClasses) + s.activeClasses
  }

  /** `unstick` on one element: remove the active classes, then add the inactive ones. */
  function UnstickClasses(c: set<string>, s: Settings): (r: set<string>)
    ensures Unstuck(r, s)
    ensures Others(r, s) == Others(c, s)
  {
    (c - s.activeClasses) + s.inActiveClasses
  }

  /** A class named in both lists is present in both states. */
  lemma OverlapAlwaysPresent(c: set<string>, s: Settings, name: string)
    requires name in s.activeClasses && name in s.inActiveClasses
    ensures name in StickClasses(c, s) && name in UnstickClasses(c, s)
  {
  }

  /** Applying `stick` after `stick` or after `unstick` gives the same classes
      as applying it once; likewise for `unstick`. */
  lemma LastUpdateWins(c: set<string>, s: Settings)
    ensures StickClasses(StickClasses(c, s), s) == StickClasses(c, s)
    ensures StickClasses(UnstickClasses(c, s), s) == StickClasses(c, s)
    ensures UnstickClasses(UnstickClasses(c, s), s) == UnstickClasses(c, s)
    ensures UnstickClasses(StickClasses(c, s), s) == UnstickClasses(c, s)
  {
  }

  /** The targets keep their number, and each keeps every class neither list mentions. */
  predicate OthersKept(before: seq<set<string>>, after: seq<set<string>>, s: Settings)
  {
    |after| == |before| &&
    forall i :: 0 <= i < |before| ==> Others(after[i], s) == Others(before[i], s)
  }

  /** `stick` on the whole collection: the number of targets is the same, every
      target is stuck, and every class neither list mentions is as it was. */
  function StickAll(cs: seq<set<string>>, s: Settings): (r: seq<set<string>>)
    ensures AllStuck(r, s) && OthersKept(cs, r, s)
  {
    seq(|cs|, i requires 0 <= i < |cs| => StickClasses(cs[i], s))
  }

  /** `unstick` on the whole collection: the number of targets is the same, every
      target is unstuck, and every class neither list mentions is as it was. */
  function UnstickAll(cs: seq<set<string>>, s: Settings): (r: seq<set<string>>)
    ensures AllUnstuck(r, s) && OthersKept(cs, r, s)
  {
    seq(|cs|, i requires 0 <= i < |cs| => UnstickClasses(cs[i], s))
  }

  predicate AllStuck(cs: seq<set<string>>, s: Settings)
  {
    forall i :: 0 <= i < |cs| ==> Stuck(cs[i], s)
  }

  predicate AllUnstuck(cs: seq<set<string>>, s: Settings)
  {
    forall i :: 0 <= i < |cs| ==> Unstuck(cs[i], s)
  }

  /** The targets are all in one of the two states. */
  predicate Uniform(cs: seq<set<string>>, s: Settings)
  {
    AllStuck(cs, s) || AllUnstuck(cs, s)
  }

  /** `LastUpdateWins`, lifted to every target. */
  lemma LastUpdateWinsAll(cs: seq<set<string>>, s: Settings)
    ensures StickAll(StickAll(cs, s), s) == StickAll(cs, s)
    ensures StickAll(UnstickAll(cs, s), s) == StickAll(cs, s)
    ensures UnstickAll(UnstickAll(cs, s), s) == UnstickAll(cs, s)
    ensures UnstickAll(StickAll(cs, s), s) == UnstickAll(cs, s)
  {
    forall i | 0 <= i < |cs| {
      LastUpdateWins(cs[i], s);
    }
  }

  /** What a controller exposes to the page: each target's classes and whether
      its scroll handler is bound. */
  datatype Snapshot = Snapshot(classes: seq<set<string>>, attached: bool)

  /** The state construction leaves: subscribed, and every target unstuck with
      its other classes kept, whatever the scroll position. */
  function Initial(cs: seq<set<string>>, s: Settings): (v: Snapshot)
    ensures v.attached && AllUnstuck(v.classes, s) && OthersKept(cs, v.classes, s)
  {
    Snapshot(UnstickAll(cs, s), true)
  }

  /** `private.action`: in toggle mode a true predicate unsticks and a false one
      sticks; otherwise a true predicate sticks and detaches (`private.runOnce`)
      and a false one does nothing. */
  function Action(s: Settings, pos: int, v: Snapshot, scrollTop: int): (r: Snapshot)
    ensures OthersKept(v.classes, r.classes, s)
    ensures r.attached <==> v.attached && (s.toggle || !DetermineAction(s.ref, pos, scrollTop))
    ensures s.toggle && DetermineAction(s.ref, pos, scrollTop) ==> AllUnstuck(r.classes, s)
    ensures s.toggle && !DetermineAction(s.ref, pos, scrollTop) ==> AllStuck(r.classes, s)
    ensures !s.toggle && DetermineAction(s.ref, pos, scrollTop) ==> AllStuck(r.classes, s)
    ensures !s.toggle && !DetermineAction(s.ref, pos, scrollTop) ==> r == v
  {
    var passed := DetermineAction(s.ref, pos, scrollTop);
    if s.toggle then
      if passed then v.(classes := UnstickAll(v.classes, s))
      else v.(classes := StickAll(v.classes, s))
    else if passed then Snapshot(StickAll(v.classes, s), false)
    else v
  }

  /** A scroll of the document: it reaches `action` only while the handler is bound. */
  function Scrolled(s: Settings, pos: int, v: Snapshot, scrollTop: int): (r: Snapshot)
    ensures !v.attached ==> r == v
    ensures r.attached ==> v.attached
    ensures OthersKept(v.classes, r.classes, s)
  {
    if v.attached then Action(s, pos, v, scrollTop) else v
  }

  /** A sequence of scroll events, oldest first. */
  function Run(s: Settings, pos: int, v: Snapshot, scrollTops: seq<int>): Snapshot
    decreases |scrollTops|
  {
    if scrollTops == [] then v
    else Run(s, pos, Scrolled(s, pos, v, scrollTops[0]), scrollTops[1..])
  }

  /** Toggle mode: one event leaves the targets unstuck when the predicate holds
      and stuck otherwise, keeps their number and their other classes, and stays
      subscribed. */
  lemma ToggleScroll(s: Settings, pos: int, v: Snapshot, scrollTop: int)
    requires s.toggle && v.attached
    ensures var r := Scrolled(s, pos, v, scrollTop);
      && r.attached && OthersKept(v.classes, r.classes, s)
      && (DetermineAction(s.ref, pos, scrollTop) ==> AllUnstuck(r.classes, s))
      && (!DetermineAction(s.ref, pos, scrollTop) ==> AllStuck(r.classes, s))
  {
  }

  /** Toggle mode: the outcome of two events is that of the second alone. */
  lemma ToggleLastEventWins(s: Settings, pos: int, v: Snapshot, first: int, second: int)
    requires s.toggle && v.attached
    ensures Scrolled(s, pos, Scrolled(s, pos, v, first), second) == Scrolled(s, pos, v, second)
  {
    LastUpdateWinsAll(v.classes, s);
  }

  /** Toggle mode: repeating an event at the same position changes nothing more. */
  lemma ToggleIdempotent(s: Settings, pos: int, v: Snapshot, scrollTop: int)
    requires s.toggle && v.attached
    ensures var r := Scrolled(s, pos, v, scrollTop); Scrolled(s, pos, r, scrollTop) == r
  {
    ToggleLastEventWins(s, pos, v, scrollTop, scrollTop);
  }

  /** Latch mode: an event whose predicate is false changes nothing. */
  lemma LatchQuiet(s: Settings, pos: int, v: Snapshot, scrollTop: int)
    requires !s.toggle && !DetermineAction(s.ref, pos, scrollTop)
    ensures Scrolled(s, pos, v, scrollTop) == v
  {
  }

  /** Latch mode: an event whose predicate is true sticks every target (keeping
      its other classes) and unsubscribes, and from then on no event changes anything. */
  lemma LatchFires(s: Settings, pos: int, v: Snapshot, scrollTop: int, later: int)
    requires !s.toggle && v.attached && DetermineAction(s.ref, pos, scrollTop)
    ensures var r := Scrolled(s, pos, v, scrollTop);
      && !r.attached && OthersKept(v.classes, r.classes, s) && AllStuck(r.classes, s)
      && Scrolled(s, pos, r, later) == r
  {
  }

  /** Once unsubscribed, a controller ignores every further scroll. */
  lemma {:induction false} DetachedRunIsInert(s: Settings, pos: int, v: Snapshot, scrollTops: seq<int>)
    requires !v.attached
    ensures Run(s, pos, v, scrollTops) == v
    decreases |scrollTops|
  {
    if scrollTops != [] {
      DetachedRunIsInert(s, pos, v, scrollTops[1..]);
    }
  }

  /** Latch mode over a whole run: if some event's predicate holds, the targets
      end stuck (exactly once) and the controller unsubscribed; otherwise nothing
      changed at all. */
  lemma {:induction false} LatchRun(s: Settings, pos: int, v: Snapshot, scrollTops: seq<int>)
    requires !s.toggle && v.attached
    ensures Run(s, pos, v, scrollTops) ==
      if exists k :: 0 <= k < |scrollTops| && DetermineAction(s.ref, pos, scrollTops[k])
      then Snapshot(StickAll(v.classes, s), false)
      else v
    decreases |scrollTops|
  {
    if scrollTops != [] {
      var rest := scrollTops[1..];
      if DetermineAction(s.ref, pos, scrollTops[0]) {
        DetachedRunIsInert(s, pos, Snapshot(StickAll(v.classes, s), false), rest);
      } else {
        LatchRun(s, pos, v, rest);
        if exists k :: 0 <= k < |scrollTops| && DetermineAction(s.ref, pos, scrollTops[k]) {
          var k :| 0 <= k < |scrollTops| && DetermineAction(s.ref, pos, scrollTops[k]);
          assert rest[k - 1] == scrollTops[k];
        } else {
          forall k | 0 <= k < |rest|
            ensures !DetermineAction(s.ref, pos, rest[k])
          {
            assert rest[k] == scrollTops[k + 1];
          }
        }
      }
    }
  }

  /** Toggle mode over a whole non-empty run: only the last event matters, and
      the controller stays subscribed. */
  lemma {:induction false} ToggleRun(s: Settings, pos: int, v: Snapshot, scrollTops: seq<int>)
    requires s.toggle && v.attached && scrollTops != []
    ensures Run(s, pos, v, scrollTops) == Scrolled(s, pos, v, scrollTops[|scrollTops| - 1])
    ensures Run(s, pos, v, scrollTops).attached
    decreases |scrollTops|
  {
    var next := Scrolled(s, pos, v, scrollTops[0]);
    if |scrollTops| > 1 {
      ToggleRun(s, pos, next, scrollTops[1..]);
      ToggleLastEventWins(s, pos, v, scrollTops[0], scrollTops[|scrollTops| - 1]);
    }
  }

  /** `detach` on the observable state: unsubscribe, targets untouched. */
  function Detached(v: Snapshot): (r: Snapshot)
    ensures !r.attached && r.classes == v.classes
  {
    v.(attached := false)
  }

  /** Detaching twice is the same as detaching once. */
  lemma DetachIdempotent(v: Snapshot)
    ensures Detached(Detached(v)) == Detached(v)
  {
  }

  /** Every event keeps the targets all in one state. */
  lemma ScrollKeepsUniform(s: Settings, pos: int, v: Snapshot, scrollTop: int)
    requires Uniform(v.classes, s)
    ensures Uniform(Scrolled(s, pos, v, scrollTop).classes, s)
  {
  }
}
