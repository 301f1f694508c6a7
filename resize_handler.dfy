/**
 * The resize handler: once a burst of resize events has settled, it compares
 * the class (mobile or not) of the previous width with that of the current
 * width and, on a change, toggles the `is-mobile` body class, refreshes
 * ScrollTrigger and replaces the ScrollSmoother instance.
 */
module ResizeHandler {
  import opened Wrappers
  import opened Breakpoints

  /** The effects the handler has on the page, in the order it performs them. */
  datatype Action =
    | AddMobileClass            // document.body.classList.add('is-mobile')
    | RemoveMobileClass         // document.body.classList.remove('is-mobile')
    | RefreshTriggers           // ScrollTrigger.refresh()
    | KillSmoother(id: nat)     // window.smoother.kill()
    | CreateSmoother(id: nat)   // window.smoother = initScrollSmoother()

  /** The previous and the current width lie on different sides of the mobile breakpoint. */
  predicate Crosses(prevWidth: int, currentWidth: int) {
    IsMobile(prevWidth) != IsMobile(currentWidth)
  }

  /**
   * What one settled resize does, given the previous width, the current
   * width, the live smoother (if any) and the number the next smoother gets.
   */
  function SettleActions(prevWidth: int, currentWidth: int, smoother: Option<nat>, nextId: nat): (acts: seq<Action>)
    ensures acts == [] <==> !Crosses(prevWidth, currentWidth)
    ensures RefreshTriggers in acts <==> Crosses(prevWidth, currentWidth)
    ensures AddMobileClass in acts <==> !IsMobile(prevWidth) && IsMobile(currentWidth)
    ensures RemoveMobileClass in acts <==> IsMobile(prevWidth) && !IsMobile(currentWidth)
  {
    if !Crosses(prevWidth, currentWidth) then []
    else
      [if IsMobile(currentWidth) then AddMobileClass else RemoveMobileClass, RefreshTriggers]
      + (if smoother.Some? then [KillSmoother(smoother.value), CreateSmoother(nextId)] else [])
  }

  /**
   * The live smoother is killed, and only it, exactly when a crossing happens
   * with a smoother present, and its replacement is created right after it.
   */
  lemma KillThenCreate(prevWidth: int, currentWidth: int, smoother: Option<nat>, nextId: nat)
    ensures var acts := SettleActions(prevWidth, currentWidth, smoother, nextId);
      && (forall i :: 0 <= i < |acts| && acts[i].KillSmoother? ==>
            smoother == Some(acts[i].id) && i + 1 < |acts| && acts[i + 1] == CreateSmoother(nextId))
      && (forall i :: 0 <= i < |acts| && acts[i].CreateSmoother? ==>
            acts[i].id == nextId && 0 < i && acts[i - 1].KillSmoother?)
      && (Crosses(prevWidth, currentWidth) && smoother.Some? ==>
            KillSmoother(smoother.value) in acts && CreateSmoother(nextId) in acts)
  {
  }

  /**
   * The settle step of the top-level `setupResizeHandler`, which nothing
   * calls: it only refreshes ScrollTrigger on a crossing.
   */
  function LegacySettleActions(prevWidth: int, currentWidth: int): (acts: seq<Action>)
    ensures forall i :: 0 <= i < |acts| ==> acts[i] == RefreshTriggers
    ensures RefreshTriggers in acts <==> Crosses(prevWidth, currentWidth)
  {
    if Crosses(prevWidth, currentWidth) then [RefreshTriggers] else []
  }

  /** Both copies of the handler refresh ScrollTrigger on exactly the same resizes. */
  lemma LegacyRefreshesAlike(prevWidth: int, currentWidth: int, smoother: Option<nat>, nextId: nat)
    ensures RefreshTriggers in LegacySettleActions(prevWidth, currentWidth) <==>
            RefreshTriggers in SettleActions(prevWidth, currentWidth, smoother, nextId)
    ensures LegacySettleActions(prevWidth, currentWidth) == [] <==>
            SettleActions(prevWidth, currentWidth, smoother, nextId) == []
  {
  }

  /**
   * The smoother log discipline: every kill is of a smoother older than the
   * live one and is followed at once by the creation of the next smoother;
   * every smoother created is numbered below `created`.
   */
  ghost predicate LogValid(log: seq<Action>, smoother: Option<nat>, created: nat) {
    && (forall i :: 0 <= i < |log| && log[i].KillSmoother? ==>
          smoother.Some? && log[i].id < smoother.value
          && i + 1 < |log| && log[i + 1] == CreateSmoother(log[i].id + 1))
    && (forall i :: 0 <= i < |log| && log[i].CreateSmoother? ==> log[i].id < created)
  }

  /** Appending the effects of a settled resize keeps the smoother log discipline. */
  lemma SettleKeepsLog(log: seq<Action>, prevWidth: int, currentWidth: int, smoother: Option<nat>, created: nat)
    requires LogValid(log, smoother, created)
    requires smoother.Some? ==> smoother.value + 1 == created
    ensures Crosses(prevWidth, currentWidth) && smoother.Some? ==>
      LogValid(log + SettleActions(prevWidth, currentWidth, smoother, created), Some(created), created + 1)
    ensures !(Crosses(prevWidth, currentWidth) && smoother.Some?) ==>
      LogValid(log + SettleActions(prevWidth, currentWidth, smoother, created), smoother, created)
  {
    KillThenCreate(prevWidth, currentWidth, smoother, created);
  }

  /**
   * The page state the handler works on: the width seen at the last settled
   * resize (its closure variable `prevWidth`), whether the body carries the
   * `is-mobile` class, `window.smoother`, how many smoothers were created, and
   * the log of every effect performed by settled resizes (the start-up effects
   * are recorded in the initial state, not in the log).
   */
  class Handler {
    var prevWidth: int
    var mobileClass: bool
    var smoother: Option<nat>
    var created: nat
    var log: seq<Action>

    /**
     * The body class reflects the last settled width; the live smoother is the
     * one created last; every kill in the log is of an earlier smoother and is
     * followed at once by the creation of its replacement.
     */
    ghost predicate Valid()
      reads this
    {
      && mobileClass == IsMobile(prevWidth)
      && (smoother.Some? ==> smoother.value + 1 == created)
      && LogValid(log, smoother, created)
    }

    /**
     * Page start-up: `is-mobile` is added when the first width is mobile, the
     * first smoother (number 0) is created, and the handler records the width.
     */
    constructor (initialWidth: int)
      ensures Valid()
      ensures prevWidth == initialWidth && mobileClass == IsMobile(initialWidth)
      ensures smoother == Some(0) && created == 1 && log == []
    {
      prevWidth := initialWidth;
      mobileClass := IsMobile(initialWidth);
      smoother := Some(0);
      created := 1;
      log := [];
    }

    /** The debounced callback, run with the width once resizing has settled. */
    method Settle(currentWidth: int) returns (fired: seq<Action>)
      requires Valid()
      modifies this
      ensures Valid()
      ensures fired == SettleActions(old(prevWidth), currentWidth, old(smoother), old(created))
      ensures log == old(log) + fired
      ensures prevWidth == currentWidth
      ensures mobileClass == IsMobile(currentWidth)
      ensures smoother.Some? == old(smoother).Some?
      ensures Crosses(old(prevWidth), currentWidth) && old(smoother).Some? ==>
        smoother == Some(old(created)) && created == old(created) + 1
      ensures !(Crosses(old(prevWidth), currentWidth) && old(smoother).Some?) ==>
        smoother == old(smoother) && created == old(created)
    {
      var wasMobile := IsMobile(prevWidth);
      var isMobile := IsMobile(currentWidth);
      fired := [];
      if (wasMobile && !isMobile) || (!wasMobile && isMobile) {
        var toggle;
        if isMobile {
          mobileClass, toggle := true, AddMobileClass;
        } else {
          mobileClass, toggle := false, RemoveMobileClass;
        }
        fired := [toggle, RefreshTriggers];
        if smoother.Some? {
          fired := fired + [KillSmoother(smoother.value), CreateSmoother(created)];
          smoother := Some(created);
          created := created + 1;
        }
      }
      SettleKeepsLog(log, prevWidth, currentWidth, old(smoother), old(created));
      log := log + fired;
      prevWidth := currentWidth;
    }
  }
}
