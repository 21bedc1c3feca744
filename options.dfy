/** The plugin's option bag: the documented defaults (`$.stickIt.defaultOptions`)
    and the merge of the caller's options over them (`$.extend({}, defaults, options)`). */
module StickItOptions {

  datatype Option<T> = None | Some(value: T)

  /** The merged options a controller keeps. Class lists are sets of class names. */
  datatype Settings = Settings(
    toggle: bool,
    ref: string,
    offsetY: int,
    activeClasses: set<string>,
    inActiveClasses: set<string>,
    debug: bool)

  /** The options a caller supplies: `None` is a key that is absent or undefined,
      which `$.extend` skips. */
  datatype Overrides = Overrides(
    toggle: Option<bool>,
    ref: Option<string>,
    offsetY: Option<int>,
    activeClasses: Option<set<string>>,
    inActiveClasses: Option<set<string>>,
    debug: Option<bool>)

  const DefaultOptions: Settings :=
    Settings(true, "after", 0, {"stick"}, {"unstick"}, false)

  /** A call that passes no options object at all. */
  const NothingSupplied: Overrides :=
    Overrides(None, None, None, None, None, None)

  function Pick<T>(supplied: Option<T>, fallback: T): T
  {
    match supplied
    case Some(v) => v
    case None => fallback
  }

  /** Every supplied key takes its supplied value; every other key keeps the default. */
  function Extend(defaults: Settings, supplied: Overrides): (r: Settings)
    ensures supplied.toggle.Some? ==> r.toggle == supplied.toggle.value
    ensures supplied.toggle.None? ==> r.toggle == defaults.toggle
    ensures supplied.ref.Some? ==> r.ref == supplied.ref.value
    ensures supplied.ref.None? ==> r.ref == defaults.ref
    ensures supplied.offsetY.Some? ==> r.offsetY == supplied.offsetY.value
    ensures supplied.offsetY.None? ==> r.offsetY == defaults.offsetY
    ensures supplied.activeClasses.Some? ==> r.activeClasses == supplied.activeClasses.value
    ensures supplied.activeClasses.None? ==> r.activeClasses == defaults.activeClasses
    ensures supplied.inActiveClasses.Some? ==> r.inActiveClasses == supplied.inActiveClasses.value
    ensures supplied.inActiveClasses.None? ==> r.inActiveClasses == defaults.inActiveClasses
    ensures supplied.debug.Some? ==> r.debug == supplied.debug.value
    ensures supplied.debug.None? ==> r.debug == defaults.debug
  {
    Settings(
      Pick(supplied.toggle, defaults.toggle),
      Pick(supplied.ref, defaults.ref),
      Pick(supplied.offsetY, defaults.offsetY),
      Pick(supplied.activeClasses, defaults.activeClasses),
      Pick(supplied.inActiveClasses, defaults.inActiveClasses),
      Pick(supplied.debug, defaults.debug))
  }

  /** With no options supplied a controller toggles, compares "after", adds no
      offset, uses the classes "stick" and "unstick" and does not log. */
  lemma ExtendNothingGivesDefaults()
    ensures var r := Extend(DefaultOptions, NothingSupplied);
      && r.toggle && r.ref == "after" && r.offsetY == 0
      && r.activeClasses == {"stick"} && r.inActiveClasses == {"unstick"} && !r.debug
  {
  }
}
