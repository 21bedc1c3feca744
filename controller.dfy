/** One `$.stickIt` controller: the trigger's threshold, the merged options, the
    target elements whose class lists it changes in place, and whether its scroll
    handler is bound. */
module StickIt {
  import opened StickItOptions
  import B = StickItBehavior

  class Sticky {
    /** `base.$targetEls`: the class list of each target element. The elements
        belong to the page; the controller changes their classes in place. */
    const targets: array<set<string>>
    /** `base.options` */
    var options: Settings
    /** `base.pos`: the trigger's top plus `offsetY`, fixed by `Init`. */
    var pos: int
    /** Whether the document scroll handler is bound. */
    var attached: bool

    ghost function State(): B.Snapshot
      reads this, targets
    {
      B.Snapshot(targets[..], attached)
    }

    /** The targets are all stuck or all unstuck. */
    ghost predicate Valid()
      reads this, targets
    {
      B.Uniform(targets[..], options)
    }

    /** The constructor's sequence: `init`, then `attach`, then `unstick`.
        `defaults` is the current value of `$.stickIt.defaultOptions`, which a
        page may change before it builds a controller. */
    constructor (triggerCount: nat, triggerTop: int, targets: array<set<string>>,
                 defaults: Settings, supplied: Overrides)
      requires B.SelectorsFound(triggerCount, targets.Length)
      modifies targets
      ensures this.targets == targets
      ensures options == Extend(defaults, supplied)
      ensures pos == triggerTop + options.offsetY
      ensures State() == B.Initial(old(targets[..]), options)
      ensures Valid()
    {
      this.targets := targets;
      options := defaults;
      pos := 0;
      attached := false;
      new;
      Init(triggerTop, defaults, supplied);
      Attach();
      Unstick();
    }

    /** `init`: merge the options and fix the threshold. */
    method Init(triggerTop: int, defaults: Settings, supplied: Overrides)
      modifies this`options, this`pos
      ensures options == Extend(defaults, supplied)
      ensures pos == triggerTop + options.offsetY
    {
      options := Extend(defaults, supplied);
      pos := triggerTop + options.offsetY;
    }

    /** `stick`: remove the inactive classes from every target, then add the
        active classes to every target. */
    method Stick()
      modifies targets
      ensures targets[..] == B.StickAll(old(targets[..]), options)
      ensures Valid()
    {
      forall i | 0 <= i < targets.Length {
        targets[i] := targets[i] - options.inActiveClasses;
      }
      forall i | 0 <= i < targets.Length {
        targets[i] := targets[i] + options.activeClasses;
      }
    }

    /** `unstick`: remove the active classes from every target, then add the
        inactive classes to every target. */
    method Unstick()
      modifies targets
      ensures targets[..] == B.UnstickAll(old(targets[..]), options)
      ensures Valid()
    {
      forall i | 0 <= i < targets.Length {
        targets[i] := targets[i] - options.activeClasses;
      }
      forall i | 0 <= i < targets.Length {
        targets[i] := targets[i] + options.inActiveClasses;
      }
    }

    /** `private.attach`: bind the scroll handler. */
    method Attach()
      modifies this`attached
      ensures attached
      ensures Valid() == old(Valid())
    {
      attached := true;
    }

    /** `detach`: unbind the scroll handler; the targets are not touched. */
    method Detach()
      modifies this`attached
      ensures State() == B.Detached(old(State()))
      ensures Valid() == old(Valid())
    {
      attached := false;
    }

    /** `private.runOnce`: stick, then detach. */
    method RunOnce()
      modifies this`attached, targets
      ensures State() == B.Snapshot(B.StickAll(old(targets[..]), options), false)
      ensures Valid()
    {
      Stick();
      Detach();
    }

    /** `private.action`, at the document's current scroll position. */
    method Action(scrollTop: int)
      modifies this`attached, targets
      ensures State() == B.Action(options, pos, old(State()), scrollTop)
      ensures old(Valid()) ==> Valid()
    {
      var passed := B.DetermineAction(options.ref, pos, scrollTop);
      if options.toggle {
        if passed {
          Unstick();
        } else {
          Stick();
        }
      } else {
        if passed {
          RunOnce();
        }
      }
    }

    /** A scroll of the document: the handler runs `action` while it is bound. */
    method OnScroll(scrollTop: int)
      modifies this`attached, targets
      ensures State() == B.Scrolled(options, pos, old(State()), scrollTop)
      ensures old(Valid()) ==> Valid()
    {
      if attached {
        Action(scrollTop);
      }
    }
  }

  /** `new $.stickIt(...)`: fails (`$.error` throws) exactly when the trigger
      selector finds nothing; an empty target collection is accepted. The
      options are merged over `defaults`, the value `$.stickIt.defaultOptions`
      has at that moment (`DefaultOptions` unless the page changed it). */
  method Register(triggerCount: nat, triggerTop: int, targets: array<set<string>>,
                  defaults: Settings, supplied: Overrides)
    returns (r: Option<Sticky>)
    modifies targets
    ensures r.None? <==> triggerCount == 0
    ensures r.None? ==> targets[..] == old(targets[..])
    ensures r.Some? ==> fresh(r.value) && r.value.targets == targets && r.value.Valid()
    ensures r.Some? ==> r.value.options == Extend(defaults, supplied)
    ensures r.Some? ==> r.value.pos == triggerTop + r.value.options.offsetY
    ensures r.Some? ==> r.value.State() == B.Initial(old(targets[..]), r.value.options)
  {
    if B.SelectorsFound(triggerCount, targets.Length) {
      var c := new Sticky(triggerCount, triggerTop, targets, defaults, supplied);
      r := Some(c);
    } else {
      r := None;
    }
  }
}
