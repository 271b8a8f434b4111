/**
 * The exit-intent popup: a single-shot promotional popup that appears when
 * the pointer leaves the window through its top edge, armed only after a
 * startup delay and at most once per browser session.
 *
 * Everything the component touches outside itself is explicit state here:
 * the session store (a string map), the pending timer, and the document's
 * list of mouse-leave listeners. Each run of the component's effect creates
 * a fresh `Closure` (its handler function and its timer callback), which
 * remembers the values the run saw. `State` and `Step` are the
 * specification, one event at a time; `Popup` is the component as a class
 * whose methods are proved to move its fields exactly as `Step` says.
 */
module ExitIntentPopup {

  datatype Option<T> = None | Some(value: T)

  /** The session-store key that records that the popup was shown. */
  const SessionKey: string := "mikrolearn_exit_popup_session"

  /** The value written under `SessionKey`. */
  const SessionValue: string := "true"

  /**
   * The functions created by one run of the effect: `handleMouseLeave` and
   * the timer callback. `run` tells apart the closures of different runs;
   * `sawShow` and `sawSession` are the values of `showPopup` and of the
   * session check that the run captured.
   */
  datatype Closure = Closure(run: nat, sawShow: bool, sawSession: bool)

  datatype State = State(
    mounted: bool,             // the component instance is mounted
    showPopup: bool,           // React state: the popup is visible
    hasTriggered: bool,        // ref: this instance has fired
    listenerActive: bool,      // ref: bookkeeping of an attached listener
    session: map<string, string>,   // the tab's session store
    timer: Option<Closure>,    // the pending 3000 ms timer, if any
    cleanup: Option<Closure>,  // the cleanup the last effect run returned
    listeners: seq<Closure>,   // document mouse-leave listeners, in order
    effectShow: bool,          // the showPopup dependency the last run saw
    runs: nat,                 // effect runs so far (fresh closure ids)
    triggers: nat,             // times a handler fired the popup
    signups: nat)              // times onSignup was called

  /** `sessionStorage.getItem(SessionKey)` is truthy: present and not "". */
  function HasShownInSession(session: map<string, string>): (b: bool)
    ensures SessionKey !in session ==> !b
    ensures SessionKey in session && session[SessionKey] == "" ==> !b
    ensures SessionKey in session && session[SessionKey] != "" ==> b
    ensures SessionKey in session && session[SessionKey] == SessionValue ==> b
  {
    SessionKey in session && session[SessionKey] != ""
  }

  /** A mouse-leave through the top edge of the window into nothing. */
  function Qualifies(clientY: int, relatedTargetIsNull: bool): (b: bool)
    ensures clientY > 0 ==> !b
    ensures !relatedTargetIsNull ==> !b
    ensures clientY <= 0 && relatedTargetIsNull ==> b
  {
    clientY <= 0 && relatedTargetIsNull
  }

  /** `removeEventListener` for the closure of run `run`. */
  function Remove(ls: seq<Closure>, run: nat): (r: seq<Closure>)
    ensures forall c :: c in r <==> c in ls && c.run != run
    ensures |r| <= |ls|
  {
    if ls == [] then []
    else if ls[0].run == run then Remove(ls[1..], run)
    else [ls[0]] + Remove(ls[1..], run)
  }

  /**
   * One run of the effect. If the session store already records the popup,
   * or this instance has fired, it returns at once: no timer, no listener,
   * no cleanup. Otherwise it schedules the arming timer and returns its
   * cleanup. It never attaches a listener itself.
   */
  function EffectBody(s: State): (r: State)
    ensures r.listeners == s.listeners && r.listenerActive == s.listenerActive
    ensures r.showPopup == s.showPopup && r.hasTriggered == s.hasTriggered
    ensures r.session == s.session && r.mounted == s.mounted
    ensures r.triggers == s.triggers && r.signups == s.signups
    ensures r.runs == s.runs + 1 && r.effectShow == s.showPopup
    ensures (HasShownInSession(s.session) || s.hasTriggered) ==> r.timer == s.timer && r.cleanup == None
    ensures !(HasShownInSession(s.session) || s.hasTriggered) ==>
      r.timer == Some(Closure(s.runs, s.showPopup, false)) && r.cleanup == r.timer
  {
    var c := Closure(s.runs, s.showPopup, HasShownInSession(s.session));
    var s1 := s.(runs := s.runs + 1, effectShow := s.showPopup);
    if HasShownInSession(s.session) || s.hasTriggered then
      s1.(cleanup := None)
    else
      s1.(timer := Some(c), cleanup := Some(c))
  }

  /**
   * The arming timer expires: it attaches its run's handler unless this
   * instance has fired meanwhile (or its run had seen the session record).
   */
  function TimerCallback(s: State): (r: State)
    ensures s.timer == None ==> r == s
    ensures r.timer == None
    ensures r == s.(timer := r.timer, listeners := r.listeners, listenerActive := r.listenerActive)
    ensures s.timer.Some? && !s.hasTriggered && !s.timer.value.sawSession ==>
      s.timer.value in r.listeners && r.listenerActive
      && forall c :: c in r.listeners <==> c in s.listeners || c == s.timer.value
    ensures !(s.timer.Some? && !s.hasTriggered && !s.timer.value.sawSession) ==>
      r.listeners == s.listeners && r.listenerActive == s.listenerActive
  {
    match s.timer
    case None => s
    case Some(c) =>
      var s1 := s.(timer := None);
      if !s.hasTriggered && !c.sawSession then
        // adding a listener that is already attached changes nothing
        s1.(listeners := if c in s.listeners then s.listeners else s.listeners + [c],
            listenerActive := true)
      else
        s1
  }

  /**
   * `handleMouseLeave` of closure `c`. A no-op once this instance has fired
   * or when the run that made it saw the popup visible; a qualifying event
   * latches, shows the popup, records the session and detaches `c`.
   */
  function HandleMouseLeave(s: State, c: Closure, clientY: int, relatedTargetIsNull: bool): (r: State)
    ensures (s.hasTriggered || c.sawShow || !Qualifies(clientY, relatedTargetIsNull)) ==> r == s
    ensures !(s.hasTriggered || c.sawShow || !Qualifies(clientY, relatedTargetIsNull)) ==>
      && r.hasTriggered && r.showPopup && HasShownInSession(r.session)
      && r.session == s.session[SessionKey := SessionValue]
      && (forall d :: d in r.listeners <==> d in s.listeners && d.run != c.run)
      && !r.listenerActive
      && r.triggers == s.triggers + 1
      && r == s.(hasTriggered := true, showPopup := true, session := r.session,
                 listeners := r.listeners, listenerActive := false, triggers := r.triggers)
  {
    if s.hasTriggered || c.sawShow then
      s
    else if Qualifies(clientY, relatedTargetIsNull) then
      s.(hasTriggered := true,
         showPopup := true,
         session := s.session[SessionKey := SessionValue],
         listeners := Remove(s.listeners, c.run),
         listenerActive := false,
         triggers := s.triggers + 1)
    else
      s
  }

  /**
   * The document dispatches one mouse-leave event to the listeners it had
   * when the event began, in order, skipping any removed meanwhile.
   */
  function Deliver(s: State, pending: seq<Closure>, clientY: int, relatedTargetIsNull: bool): (r: State)
    ensures r.mounted == s.mounted && r.timer == s.timer && r.cleanup == s.cleanup
    ensures r.effectShow == s.effectShow && r.runs == s.runs && r.signups == s.signups
    ensures forall c :: c in r.listeners ==> c in s.listeners
    ensures s.triggers <= r.triggers
    ensures HasShownInSession(s.session) ==> HasShownInSession(r.session)
    ensures s.hasTriggered ==> r.hasTriggered
    decreases |pending|
  {
    if pending == [] then s
    else
      var s1 := if pending[0] in s.listeners
                then HandleMouseLeave(s, pending[0], clientY, relatedTargetIsNull)
                else s;
      Deliver(s1, pending[1..], clientY, relatedTargetIsNull)
  }

  /**
   * The cleanup the last effect run returned: it clears that run's timer,
   * and detaches that run's handler if the bookkeeping flag says a listener
   * is active. Without a registered cleanup nothing happens.
   */
  function Cleanup(s: State): (r: State)
    ensures r.cleanup == None
    ensures s.cleanup == None ==> r == s
    ensures s.cleanup.Some? ==> !r.listenerActive && r.timer != s.cleanup
    ensures s.cleanup.Some? && s.listenerActive ==>
      forall d :: d in r.listeners <==> d in s.listeners && d.run != s.cleanup.value.run
    ensures !(s.cleanup.Some? && s.listenerActive) ==> r.listeners == s.listeners
    ensures r == s.(timer := r.timer, cleanup := None, listeners := r.listeners, listenerActive := r.listenerActive)
  {
    match s.cleanup
    case None => s
    case Some(c) =>
      var s1 := s.(timer := if s.timer == Some(c) then None else s.timer, cleanup := None);
      if s.listenerActive then
        s1.(listeners := Remove(s.listeners, c.run), listenerActive := false)
      else
        s1
  }

  /**
   * `handleClose`: hides the popup and clears the bookkeeping flag. Its
   * `removeEventListener` is given a fresh function, which was never
   * attached, so the listener list is left as it was.
   */
  function HandleClose(s: State): (r: State)
    ensures !r.showPopup && !r.listenerActive
    ensures r.listeners == s.listeners
    ensures r == s.(showPopup := false, listenerActive := false)
  {
    var s1 := s.(showPopup := false);
    if s1.listenerActive then s1.(listenerActive := false) else s1
  }

  /** `handleSignup`: as `handleClose`, and calls `onSignup` once. */
  function HandleSignup(s: State): (r: State)
    ensures !r.showPopup && !r.listenerActive
    ensures r.listeners == s.listeners
    ensures r.signups == s.signups + 1
    ensures r == s.(showPopup := false, listenerActive := false, signups := s.signups + 1)
  {
    var s1 := s.(showPopup := false, signups := s.signups + 1);
    if s1.listenerActive then s1.(listenerActive := false) else s1
  }

  /**
   * A page load in the same browser session: a new document (no listeners,
   * no timers), a new component instance, the session store kept; then the
   * mount run of the effect.
   */
  function Load(s: State): (r: State)
    ensures r.mounted && !r.showPopup && !r.hasTriggered && !r.listenerActive && r.listeners == []
    ensures r.session == s.session && r.triggers == s.triggers && r.signups == s.signups
    ensures r.timer.Some? <==> !HasShownInSession(s.session)
  {
    EffectBody(State(true, false, false, false, s.session, None, None, [], false,
                     s.runs, s.triggers, s.signups))
  }

  /** The first page load of a session whose store is `session`. */
  function Start(session: map<string, string>): (r: State)
    ensures r.mounted && !r.showPopup && !r.hasTriggered && r.listeners == []
    ensures r.session == session && r.triggers == 0 && r.signups == 0
    ensures r.timer.Some? <==> !HasShownInSession(session)
  {
    Load(State(false, false, false, false, session, None, None, [], false, 0, 0, 0))
  }

  datatype Event =
    | PageLoad                                        // the page is loaded again in this tab
    | Unmount                                         // the component is removed
    | TimerElapsed                                    // 3000 ms have passed since the timer was set
    | MouseLeave(clientY: int, relatedTargetIsNull: bool)  // the document's mouseleave
    | CloseClicked                                    // the backdrop or the close button
    | SignupClicked                                   // the offer button
    | EffectFlush                                     // React re-runs the effect after showPopup changed

  /**
   * Whether `e` can happen: the popup's buttons exist only while it is
   * shown, and the effect re-runs only when its dependency has changed.
   */
  function Enabled(s: State, e: Event): (b: bool)
    ensures b && (e == CloseClicked || e == SignupClicked) ==> s.mounted && s.showPopup
    ensures b && e == EffectFlush ==> s.mounted && s.showPopup != s.effectShow
    ensures e == TimerElapsed ==> (b <==> s.timer.Some?)
    ensures b && e == Unmount ==> s.mounted
  {
    match e
    case PageLoad => true
    case Unmount => s.mounted
    case TimerElapsed => s.timer.Some?
    case MouseLeave(_, _) => true
    case CloseClicked => s.mounted && s.showPopup
    case SignupClicked => s.mounted && s.showPopup
    case EffectFlush => s.mounted && s.showPopup != s.effectShow
  }

  function Step(s: State, e: Event): (r: State)
    ensures !Enabled(s, e) ==> r == s
    ensures HasShownInSession(s.session) ==> HasShownInSession(r.session)
    ensures s.triggers <= r.triggers
    ensures r.signups <= s.signups + 1 && (r.signups == s.signups + 1 ==> e == SignupClicked)
  {
    if !Enabled(s, e) then s
    else match e
      case PageLoad => Load(s)
      case Unmount => Cleanup(s).(mounted := false)
      case TimerElapsed => TimerCallback(s)
      case MouseLeave(y, rel) => Deliver(s, s.listeners, y, rel)
      case CloseClicked => HandleClose(s)
      case SignupClicked => HandleSignup(s)
      case EffectFlush => EffectBody(Cleanup(s))
  }

  function Run(s: State, events: seq<Event>): (r: State)
    decreases |events|
  {
    if events == [] then s else Run(Step(s, events[0]), events[1..])
  }

  /** How many times the popup goes from hidden to shown along `events`. */
  function Reveals(s: State, events: seq<Event>): (n: nat)
    ensures n <= |events|
    decreases |events|
  {
    if events == [] then 0
    else
      var t := Step(s, events[0]);
      (if !s.showPopup && t.showPopup then 1 else 0) + Reveals(t, events[1..])
  }

  /**
   * The state of every reachable popup: at most one listener, attached only
   * while armed and untriggered and tracked by the bookkeeping flag; a
   * pending timer belongs to the registered cleanup; the popup shows only
   * after a trigger, a trigger is recorded in the session, and there has
   * been at most one.
   */
  predicate Inv(s: State) {
    && |s.listeners| <= 1
    && (s.listenerActive <==> s.listeners != [])
    && (s.listeners != [] ==>
          && s.cleanup == Some(s.listeners[0]) && s.timer == None && s.mounted
          && !s.hasTriggered && !s.listeners[0].sawShow && !HasShownInSession(s.session))
    && (s.timer.Some? ==>
          && s.cleanup == s.timer && s.listeners == [] && s.mounted && !s.hasTriggered
          && !s.timer.value.sawShow && !s.timer.value.sawSession && !HasShownInSession(s.session))
    && (s.cleanup.Some? ==> s.mounted)
    && (s.showPopup ==> s.hasTriggered)
    && (s.hasTriggered ==> HasShownInSession(s.session))
    && s.triggers <= 1
    && (s.triggers == 1 ==> HasShownInSession(s.session))
  }

  // ---------------------------------------------------------------------
  // Properties of the handlers, for every state.

  /** A mouse-leave that is not through the top edge into nothing changes no state. */
  lemma {:induction false} NonQualifyingIgnored(s: State, pending: seq<Closure>, clientY: int, rel: bool)
    requires !Qualifies(clientY, rel)
    ensures Deliver(s, pending, clientY, rel) == s
    decreases |pending|
  {
    if pending != [] {
      NonQualifyingIgnored(s, pending[1..], clientY, rel);
    }
  }

  /** Once the in-memory latch is set, no handler does anything. */
  lemma {:induction false} LatchedIgnored(s: State, pending: seq<Closure>, clientY: int, rel: bool)
    requires s.hasTriggered
    ensures Deliver(s, pending, clientY, rel) == s
    decreases |pending|
  {
    if pending != [] {
      LatchedIgnored(s, pending[1..], clientY, rel);
    }
  }

  /**
   * The latch alone closes the same-event race: however many handlers are
   * attached, one dispatch fires the popup at most once, and not at all if
   * the latch was already set.
   */
  lemma {:induction false} OneTriggerPerDispatch(s: State, pending: seq<Closure>, clientY: int, rel: bool)
    ensures Deliver(s, pending, clientY, rel).triggers <= s.triggers + (if s.hasTriggered then 0 else 1)
    ensures Deliver(s, pending, clientY, rel).triggers > s.triggers ==> Deliver(s, pending, clientY, rel).hasTriggered
    decreases |pending|
  {
    if pending != [] {
      var s1 := if pending[0] in s.listeners then HandleMouseLeave(s, pending[0], clientY, rel) else s;
      OneTriggerPerDispatch(s1, pending[1..], clientY, rel);
      if s1.hasTriggered {
        LatchedIgnored(s1, pending[1..], clientY, rel);
      }
    }
  }

  lemma MouseLeaveIgnoredUnlessQualifying(s: State, clientY: int, rel: bool)
    ensures !Qualifies(clientY, rel) ==> Step(s, MouseLeave(clientY, rel)) == s
    ensures s.hasTriggered ==> Step(s, MouseLeave(clientY, rel)) == s
    ensures s.listeners == [] ==> Step(s, MouseLeave(clientY, rel)) == s
  {
    if !Qualifies(clientY, rel) { NonQualifyingIgnored(s, s.listeners, clientY, rel); }
    if s.hasTriggered { LatchedIgnored(s, s.listeners, clientY, rel); }
  }

  predicate OnlyMouseLeaves(events: seq<Event>) {
    forall i :: 0 <= i < |events| ==> events[i].MouseLeave?
  }

  /** Before the timer has attached a listener, any number of mouse-leaves change nothing. */
  lemma {:induction false} UnarmedIgnoresMouseLeaves(s: State, events: seq<Event>)
    requires s.listeners == [] && OnlyMouseLeaves(events)
    ensures Run(s, events) == s
    decreases |events|
  {
    if events != [] {
      MouseLeaveIgnoredUnlessQualifying(s, events[0].clientY, events[0].relatedTargetIsNull);
      assert OnlyMouseLeaves(events[1..]) by {
        forall i | 0 <= i < |events[1..]| ensures events[1..][i].MouseLeave? {
          assert events[1..][i] == events[i + 1];
        }
      }
      UnarmedIgnoresMouseLeaves(s, events[1..]);
    }
  }

  // ---------------------------------------------------------------------
  // The invariant and what it gives over whole sessions.

  lemma StartInv(session: map<string, string>)
    ensures Inv(Start(session))
    ensures Start(session).listeners == [] && Start(session).triggers == 0 && !Start(session).showPopup
    ensures Start(session).timer.Some? <==> !HasShownInSession(session)
  {
  }

  lemma MouseLeavePreservesInv(s: State, clientY: int, rel: bool)
    requires Inv(s)
    ensures Inv(Step(s, MouseLeave(clientY, rel)))
  {
    if s.listeners != [] {
      var c := s.listeners[0];
      assert s.listeners == [c];
      assert s.listeners[1..] == [];
      var t := HandleMouseLeave(s, c, clientY, rel);
      assert Deliver(s, s.listeners, clientY, rel) == Deliver(t, [], clientY, rel);
    }
  }

  lemma FlushPreservesInv(s: State)
    requires Inv(s) && s.mounted
    ensures Inv(EffectBody(Cleanup(s)))
    ensures Cleanup(s).timer == None && Cleanup(s).listeners == [] && !Cleanup(s).listenerActive
  {
  }

  lemma StepPreservesInv(s: State, e: Event)
    requires Inv(s)
    ensures Inv(Step(s, e))
  {
    match e
    case MouseLeave(y, rel) => MouseLeavePreservesInv(s, y, rel);
    case EffectFlush => if Enabled(s, e) { FlushPreservesInv(s); }
    case Unmount => if Enabled(s, e) { FlushPreservesInv(s); }
    case _ =>
  }

  lemma {:induction false} RunPreservesInv(s: State, events: seq<Event>)
    requires Inv(s)
    ensures Inv(Run(s, events))
    decreases |events|
  {
    if events != [] {
      StepPreservesInv(s, events[0]);
      RunPreservesInv(Step(s, events[0]), events[1..]);
    }
  }

  /**
   * One event: the session record is never erased, the trigger count moves
   * only by one and only while the session has no record, and the popup
   * goes from hidden to shown only by a trigger.
   */
  lemma StepTriggers(s: State, e: Event)
    requires Inv(s)
    ensures HasShownInSession(s.session) ==> HasShownInSession(Step(s, e).session)
    ensures Step(s, e).triggers == s.triggers
         || (Step(s, e).triggers == s.triggers + 1 && !HasShownInSession(s.session))
    ensures !s.showPopup && Step(s, e).showPopup ==> Step(s, e).triggers == s.triggers + 1
  {
    if e.MouseLeave? && s.listeners != [] {
      var c := s.listeners[0];
      assert s.listeners == [c];
      assert s.listeners[1..] == [];
      var t := HandleMouseLeave(s, c, e.clientY, e.relatedTargetIsNull);
      assert Step(s, e) == Deliver(t, [], e.clientY, e.relatedTargetIsNull);
    }
  }

  /** Every reveal along a run is paid for by a trigger. */
  lemma {:induction false} RevealsAreTriggers(s: State, events: seq<Event>)
    requires Inv(s)
    ensures s.triggers + Reveals(s, events) <= Run(s, events).triggers
    ensures HasShownInSession(s.session) ==> Run(s, events).triggers == s.triggers
    decreases |events|
  {
    if events != [] {
      StepTriggers(s, events[0]);
      StepPreservesInv(s, events[0]);
      RevealsAreTriggers(Step(s, events[0]), events[1..]);
    }
  }

  /**
   * At most one reveal per browser session, whatever the events (timers,
   * mouse-leaves, closes, sign-ups, effect re-runs, unmounts and page loads);
   * none at all if the session already holds the record.
   */
  lemma AtMostOneRevealPerSession(session: map<string, string>, events: seq<Event>)
    ensures Reveals(Start(session), events) <= 1
    ensures Run(Start(session), events).triggers <= 1
    ensures HasShownInSession(session) ==> Reveals(Start(session), events) == 0
  {
    StartInv(session);
    RevealsAreTriggers(Start(session), events);
    RunPreservesInv(Start(session), events);
  }

  /** Every state reachable from the first load of a session satisfies the invariant. */
  lemma ReachableInv(session: map<string, string>, events: seq<Event>)
    ensures Inv(Run(Start(session), events))
  {
    StartInv(session);
    RunPreservesInv(Start(session), events);
  }

  /**
   * A qualifying mouse-leave while armed: the latch is set, the popup
   * shown, the session record written, the listener gone and the flag
   * cleared, and nothing else changes.
   */
  lemma ArmedQualifyingFires(s: State, clientY: int, rel: bool)
    requires Inv(s) && s.listeners != [] && Qualifies(clientY, rel)
    ensures Step(s, MouseLeave(clientY, rel))
         == s.(hasTriggered := true, showPopup := true,
               session := s.session[SessionKey := SessionValue],
               listeners := [], listenerActive := false, triggers := s.triggers + 1)
  {
    var c := s.listeners[0];
    assert s.listeners == [c];
    assert s.listeners[1..] == [];
    var t := HandleMouseLeave(s, c, clientY, rel);
    assert Step(s, MouseLeave(clientY, rel)) == Deliver(t, [], clientY, rel);
    assert t.listeners == [];
  }

  /**
   * When the effect runs with the session record present or the latch set,
   * no timer is pending afterwards, nothing is attached, and the timer
   * event cannot happen.
   */
  lemma EarlyReturnArmsNothing(s: State)
    requires Inv(s) && s.mounted && s.showPopup != s.effectShow
    requires HasShownInSession(s.session) || s.hasTriggered
    ensures Step(s, EffectFlush).timer == None && Step(s, EffectFlush).listeners == []
    ensures Step(s, EffectFlush).cleanup == None
    ensures Step(Step(s, EffectFlush), TimerElapsed) == Step(s, EffectFlush)
  {
    FlushPreservesInv(s);
  }

  /** A page load in a session that holds the record arms nothing either. */
  lemma ReloadAfterShownArmsNothing(s: State)
    requires HasShownInSession(s.session)
    ensures Step(s, PageLoad).timer == None && Step(s, PageLoad).listeners == []
    ensures !Step(s, PageLoad).showPopup
  {
  }

  /**
   * Teardown cancels the pending timer and detaches the listener, so a timer
   * that would have fired later finds nothing to do.
   */
  lemma UnmountLeavesNothingBehind(s: State)
    requires Inv(s) && s.mounted
    ensures Step(s, Unmount).timer == None && Step(s, Unmount).listeners == []
    ensures !Step(s, Unmount).listenerActive && !Step(s, Unmount).mounted
    ensures Step(Step(s, Unmount), TimerElapsed) == Step(s, Unmount)
  {
    FlushPreservesInv(s);
  }

  /**
   * Closing and signing up hide the popup and never reset the latch or the
   * session record; signing up calls onSignup exactly once.
   */
  lemma CloseAndSignupKeepLatch(s: State)
    requires s.mounted && s.showPopup
    ensures !Step(s, CloseClicked).showPopup && !Step(s, SignupClicked).showPopup
    ensures Step(s, CloseClicked).hasTriggered == s.hasTriggered
    ensures Step(s, SignupClicked).hasTriggered == s.hasTriggered
    ensures Step(s, CloseClicked).session == s.session && Step(s, SignupClicked).session == s.session
    ensures Step(s, CloseClicked).signups == s.signups
    ensures Step(s, SignupClicked).signups == s.signups + 1
  {
  }

  /**
   * While the popup is shown no listener is attached, so the fresh function
   * handed to removeEventListener by close and sign-up misses nothing.
   */
  lemma ShownMeansDetached(s: State)
    requires Inv(s) && s.showPopup
    ensures s.listeners == [] && !s.listenerActive
    ensures Step(s, CloseClicked).listeners == [] && Step(s, SignupClicked).listeners == []
  {
  }

  /**
   * Called outside the UI, while armed, `handleClose` would clear the
   * bookkeeping flag and leave the handler attached, after which the
   * cleanup no longer detaches it: the leak that the visibility of the close
   * button rules out.
   */
  lemma StrayCloseWouldLeak()
    ensures var armed := Step(Start(map[]), TimerElapsed);
            && armed.listeners == [Closure(0, false, false)]
            && HandleClose(armed).listeners == armed.listeners
            && Cleanup(HandleClose(armed)).listeners == [Closure(0, false, false)]
            && Step(armed, CloseClicked) == armed
  {
  }

  /**
   * The arming delay: a qualifying mouse-leave before the timer changes
   * nothing; after it, two qualifying mouse-leaves reveal the popup exactly
   * once.
   */
  lemma ExampleArmingDelay()
    ensures Run(Start(map[]), [MouseLeave(0, true)]) == Start(map[])
    ensures Reveals(Start(map[]), [MouseLeave(0, true)]) == 0
    ensures Reveals(Start(map[]), [TimerElapsed, MouseLeave(0, true), MouseLeave(-5, true)]) == 1
    ensures Run(Start(map[]), [TimerElapsed, MouseLeave(0, true), MouseLeave(-5, true)]).showPopup
    ensures HasShownInSession(Run(Start(map[]), [TimerElapsed, MouseLeave(0, true), MouseLeave(-5, true)]).session)
  {
    var s0 := Start(map[]);
    var s1 := Step(s0, TimerElapsed);
    assert s1.listeners == [Closure(0, false, false)];
    ArmedQualifyingFires(s1, 0, true);
    var s2 := Step(s1, MouseLeave(0, true));
    MouseLeaveIgnoredUnlessQualifying(s2, -5, true);
  }

  // ---------------------------------------------------------------------
  // The component: its state, refs and outside resources as fields.

  class Popup {
    var mounted: bool
    var showPopup: bool
    var hasTriggered: bool
    var listenerActive: bool
    var session: map<string, string>
    var timer: Option<Closure>
    var cleanup: Option<Closure>
    var listeners: seq<Closure>
    var effectShow: bool
    var runs: nat
    var triggers: nat
    var signups: nat

    function Snapshot(): State
      reads this
    {
      State(mounted, showPopup, hasTriggered, listenerActive, session, timer, cleanup,
            listeners, effectShow, runs, triggers, signups)
    }

    ghost predicate Valid()
      reads this
    {
      Inv(Snapshot())
    }

    /**
     * The effect body (without the cleanup of the previous run). This is an
     * inner step of `Load` and `FlushEffect`, not an event of its own: called
     * on an armed popup it would leave a timer and a listener at once, which
     * `Valid()` excludes, so its contract does not mention `Valid()`.
     */
    method RunEffect()
      modifies this
      ensures Snapshot() == EffectBody(old(Snapshot()))
    {
      var hasShownInSession := HasShownInSession(session);
      var c := Closure(runs, showPopup, hasShownInSession);
      runs := runs + 1;
      effectShow := showPopup;
      if hasShownInSession || hasTriggered {
        cleanup := None;
        return;
      }
      timer := Some(c);
      cleanup := Some(c);
    }

    /**
     * The cleanup returned by the last effect run, if it returned one. This
     * is an inner step of `Unmount` and `FlushEffect`, not an event of its
     * own; those methods are the ones that keep `Valid()`.
     */
    method RunCleanup()
      modifies this
      ensures Snapshot() == Cleanup(old(Snapshot()))
    {
      if cleanup.Some? {
        var c := cleanup.value;
        if timer == Some(c) {
          timer := None;
        }
        if listenerActive {
          listeners := Remove(listeners, c.run);
          listenerActive := false;
        }
        cleanup := None;
      }
    }

    /** First load of the page in a tab whose session store is `store`. */
    constructor (store: map<string, string>)
      ensures Snapshot() == Start(store) && Valid()
    {
      mounted, showPopup, hasTriggered, listenerActive := true, false, false, false;
      session, timer, cleanup, listeners := store, None, None, [];
      effectShow, runs, triggers, signups := false, 0, 0, 0;
      new;
      RunEffect();
      StartInv(store);
    }

    /** The page is loaded again in the same tab. */
    method Load()
      requires Valid()
      modifies this
      ensures Snapshot() == Step(old(Snapshot()), PageLoad) && Valid()
    {
      StepPreservesInv(Snapshot(), PageLoad);
      mounted, showPopup, hasTriggered, listenerActive := true, false, false, false;
      timer, cleanup, listeners, effectShow := None, None, [], false;
      RunEffect();
    }

    method Unmount()
      requires Valid()
      modifies this
      ensures Snapshot() == Step(old(Snapshot()), Event.Unmount) && Valid()
    {
      StepPreservesInv(Snapshot(), Event.Unmount);
      if mounted {
        RunCleanup();
        mounted := false;
      }
    }

    /** The arming timer expires. */
    method TimerFires()
      requires Valid()
      modifies this
      ensures Snapshot() == Step(old(Snapshot()), TimerElapsed) && Valid()
    {
      StepPreservesInv(Snapshot(), TimerElapsed);
      if timer.Some? {
        var c := timer.value;
        timer := None;
        if !hasTriggered && !c.sawSession {
          if c !in listeners {
            listeners := listeners + [c];
          }
          listenerActive := true;
        }
      }
    }

    /** The document's mouse-leave reaches the (at most one) attached handler. */
    method MouseLeave(clientY: int, relatedTargetIsNull: bool)
      requires Valid()
      modifies this
      ensures Snapshot() == Step(old(Snapshot()), Event.MouseLeave(clientY, relatedTargetIsNull)) && Valid()
    {
      StepPreservesInv(Snapshot(), Event.MouseLeave(clientY, relatedTargetIsNull));
      ghost var s := Snapshot();
      if listeners != [] {
        var c := listeners[0];
        assert listeners == [c] && listeners[1..] == [];
        assert Deliver(s, s.listeners, clientY, relatedTargetIsNull)
            == Deliver(HandleMouseLeave(s, c, clientY, relatedTargetIsNull), [], clientY, relatedTargetIsNull);
        if !(hasTriggered || c.sawShow) {
          if clientY <= 0 && relatedTargetIsNull {
            hasTriggered := true;
            showPopup := true;
            session := session[SessionKey := SessionValue];
            listeners := Remove(listeners, c.run);
            listenerActive := false;
            triggers := triggers + 1;
          }
        }
      }
    }

    /** The backdrop or the close button. */
    method Close()
      modifies this
      ensures Snapshot() == Step(old(Snapshot()), CloseClicked)
      ensures old(Valid()) ==> Valid()
    {
      if Valid() { StepPreservesInv(Snapshot(), CloseClicked); }
      if mounted && showPopup {
        showPopup := false;
        if listenerActive {
          // removeEventListener with a fresh function: nothing is detached
          listenerActive := false;
        }
      }
    }

    /** The offer button: close, and call onSignup. */
    method Signup()
      modifies this
      ensures Snapshot() == Step(old(Snapshot()), SignupClicked)
      ensures old(Valid()) ==> Valid()
    {
      if Valid() { StepPreservesInv(Snapshot(), SignupClicked); }
      if mounted && showPopup {
        showPopup := false;
        signups := signups + 1;
        if listenerActive {
          // removeEventListener with a fresh function: nothing is detached
          listenerActive := false;
        }
      }
    }

    /** React re-runs the effect after `showPopup` changed: cleanup first, then the body. */
    method FlushEffect()
      requires Valid()
      modifies this
      ensures Snapshot() == Step(old(Snapshot()), EffectFlush) && Valid()
    {
      StepPreservesInv(Snapshot(), EffectFlush);
      if mounted && showPopup != effectShow {
        RunCleanup();
        RunEffect();
      }
    }
  }
}
