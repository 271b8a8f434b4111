# Mikrolearn landing page: the demo wizard and the exit-intent popup

The landing page has two pieces of interaction logic. This project models both and proves their properties.

- **The interactive demo** (`MikrolearnDemo`, `mikrolearn_demo.dfy`) is a three-step wizard: onboarding, then skill selection, then a daily feed. It holds an order-preserving list of skills with no duplicates, filled from a pending input box. It has a one-way "shared" flag and a fixed `progress` counter. The feed's five cards are derived from the skill list, and the star rows and the invite count are derived from the cards and the flag. Closing the demo only hides it: the page keeps it mounted (app/page.tsx:791), so its state survives a close and reopen. Nothing in the component resets its state on close.
- **The exit-intent popup** (`ExitIntentPopup`, `exit_intent_popup.dfy`) fires once. Its effect runs on mount and again whenever `showPopup` changes. A run returns early if the session store already holds a non-empty value under the key `mikrolearn_exit_popup_session` or the in-memory latch is set. Otherwise it sets a 3000 ms timer, which attaches a document `mouseleave` handler. A mouse-leave through the top edge into nothing sets the latch, shows the popup, writes the session record and detaches the handler. Close and sign-up hide the popup. Sign-up also calls `onSignup`, which the page uses to open the signup modal.

Each component is modelled the same way:

- A `State` datatype holds the component's fields.
- An `Event` datatype lists what can happen to it: clicks, key presses, the timer, mouse-leaves, effect re-runs, page loads.
- A step function (`Apply` or `Step`) gives the new state after one event, and `Run` folds it over a sequence of events. An event aimed at a control that is not rendered or is disabled changes nothing.
- The lemmas about the step function state the properties over any event sequence.
- A class (`DemoWizard`, `Popup`) has the component's state as fields and one method per handler. Each method's body updates the fields step by step, and its `ensures` says the new fields are exactly what the step function gives.

The popup's model also makes the outside world explicit:
- `session: map<string, string>` is the tab's `sessionStorage`;
- `timer` is the pending `setTimeout`;
- `listeners` is the document's list of `mouseleave` listeners.

Each effect run that gets past the early return creates a fresh `Closure`: its `handleMouseLeave` and timer callback, identified by the run number and remembering the `showPopup` and session-check values the run captured. So the handler reads the `showPopup` it captured when the effect ran, not the current one. `HandleClose` and `HandleSignup` pass a fresh arrow function to `removeEventListener`, so they detach nothing. They only clear `listenerActive`.

## Model

| member | source | states |
|---|---|---|
| `MikrolearnDemo.Initial` | components/mikrolearn-demo.tsx:20-25 | the wizard starts closed, in onboarding, with no skills, an empty input, progress 2 and not shared |
| `MikrolearnDemo.AddPendingSkill` | components/mikrolearn-demo.tsx:27-32 | the state changes iff the input is non-empty and not already a skill; then the skill is appended and the input cleared, otherwise nothing changes (a duplicate stays in the input); old skills stay a prefix; the skill set gains exactly the non-empty input; no-duplicates and no-empty are kept |
| `MikrolearnDemo.KeyPress` | components/mikrolearn-demo.tsx:34-38 | Enter runs add-skill; any other key leaves the state unchanged |
| `MikrolearnDemo.PressKeyIsAddOnEnter` | components/mikrolearn-demo.tsx:166 | a key press on the skill input is the same event as clicking Add Skill when the key is Enter, and changes nothing otherwise |
| `MikrolearnDemo.CategoryOr` | components/mikrolearn-demo.tsx:46-56 | `skills[i] \|\| fallback`: the i-th skill when present and non-empty, else the fallback |
| `MikrolearnDemo.FeedCards` | components/mikrolearn-demo.tsx:40-89 | five cards with ids 1..5; cards 1-3 unlocked and rated, 4-5 locked and unrated; categories: skill 0 or "Product Management", skill 1 or "UX Design", then "Development", "Data Science", "Growth" |
| `MikrolearnDemo.Stars` | components/mikrolearn-demo.tsx:229-235 | no star row unless the card is unlocked with rating > 0; otherwise five stars, star i filled iff i < rating |
| `MikrolearnDemo.FilledStarsIsRating` | components/mikrolearn-demo.tsx:231-235 | a shown row has exactly `rating` filled stars |
| `MikrolearnDemo.FeedStars` | components/mikrolearn-demo.tsx:49-87 | the feed shows 5, 4 and 5 filled stars on the open cards and no row on the two locked ones |
| `MikrolearnDemo.FriendsInvited` | components/mikrolearn-demo.tsx:322 | the friends-invited stat is 1 iff shared, else 0 |
| `MikrolearnDemo.Enabled` | components/mikrolearn-demo.tsx:91-284 | a control can be used only while the demo is open (line 91) and its step is shown (lines 115, 139, 186); Finish Setup only with a skill selected (line 177); Share only while not yet shared (line 275) |
| `MikrolearnDemo.Apply` | components/mikrolearn-demo.tsx:27-284 | one event: none at all on a control that is not usable; progress unchanged; the step never goes back; old skills stay a prefix; shared stays set; opening or closing changes visibility only |
| `MikrolearnDemo.ApplyPreservesInv` | components/mikrolearn-demo.tsx:27-32 | one event keeps the skills free of duplicates and of "", keeps progress at 2, and keeps the feed step only with skills |
| `MikrolearnDemo.RunPreservesInv` | components/mikrolearn-demo.tsx:27-32 | the same over any sequence of events |
| `MikrolearnDemo.ReachableInv` | components/mikrolearn-demo.tsx:24 | every reachable wizard has no duplicate or empty skill, progress still 2 (no handler changes it), and no feed without skills |
| `MikrolearnDemo.StepOnlyForward` | components/mikrolearn-demo.tsx:128-177 | one event moves the step forward by at most one place, and only onboarding to skills by Continue, or skills to feed by Finish Setup with at least one skill |
| `MikrolearnDemo.SkillsOnlyGrow` | components/mikrolearn-demo.tsx:29 | one event only appends to the skills list |
| `MikrolearnDemo.RunMonotone` | components/mikrolearn-demo.tsx:27-32 | over any events the step never goes back, earlier skills keep their first-insertion positions, and shared stays true |
| `MikrolearnDemo.AddSkillIdempotent` | components/mikrolearn-demo.tsx:28-30 | adding twice in a row equals adding once |
| `MikrolearnDemo.CloseThenReopenKeepsState` | components/mikrolearn-demo.tsx:91 | closing changes only visibility, and reopening gives back the same step, skills, input and shared flag |
| `MikrolearnDemo.ShareIdempotent` | components/mikrolearn-demo.tsx:284 | sharing sets shared; sharing again changes nothing; the invite count shows 1 |
| `MikrolearnDemo.FeedCategoriesFollowSkills` | components/mikrolearn-demo.tsx:46-56 | in a reachable state card 1 shows the first skill (else "Product Management") and card 2 the second (else "UX Design") |
| `MikrolearnDemo.ExampleFeed` | components/mikrolearn-demo.tsx:40-70 | with skills ["Data Science", "UX Design"] cards 1-3 show "Data Science", "UX Design", "Development" |
| `MikrolearnDemo.ExampleWalkthrough` | components/mikrolearn-demo.tsx:128-177 | a concrete session reaches the feed with one skill and a duplicate kept in the input; Finish Setup before any skill does nothing |
| `MikrolearnDemo.DemoWizard.constructor` | components/mikrolearn-demo.tsx:20-25 | fields start as `Initial()` |
| `MikrolearnDemo.DemoWizard.Open` | app/page.tsx:175 | the page's Watch Demo button sets `isOpen` |
| `MikrolearnDemo.DemoWizard.Close` | components/mikrolearn-demo.tsx:101-106 | the close button clears `isOpen` only |
| `MikrolearnDemo.DemoWizard.TypeSkill` | components/mikrolearn-demo.tsx:165 | onChange sets the pending input, in the skills step |
| `MikrolearnDemo.DemoWizard.AddSkill` | components/mikrolearn-demo.tsx:27-32 | fields become `AddPendingSkill` of the old ones; the invariant is kept (every handler method keeps it) |
| `MikrolearnDemo.DemoWizard.ClickAddSkill` | components/mikrolearn-demo.tsx:169 | the Add Skill button runs add-skill in the skills step |
| `MikrolearnDemo.DemoWizard.HandleKeyPress` | components/mikrolearn-demo.tsx:34-38 | Enter runs add-skill, other keys do nothing |
| `MikrolearnDemo.DemoWizard.ContinueWithLinkedIn` | components/mikrolearn-demo.tsx:128 | onboarding moves to skills |
| `MikrolearnDemo.DemoWizard.FinishSetup` | components/mikrolearn-demo.tsx:174-180 | skills moves to feed, only when a skill is selected (the button is disabled otherwise) |
| `MikrolearnDemo.DemoWizard.Share` | components/mikrolearn-demo.tsx:275-288 | the share button, shown only until shared, sets shared |
| `ExitIntentPopup.HasShownInSession` | components/exit-intent-popup.tsx:19-20 | the session record counts iff the key is present with a non-empty value (JavaScript truthiness); the value `"true"` the handler writes counts |
| `ExitIntentPopup.Qualifies` | components/exit-intent-popup.tsx:31 | a mouse-leave qualifies iff `clientY <= 0` and there is no related target |
| `ExitIntentPopup.EffectBody` | components/exit-intent-popup.tsx:17-49 | with the session record or the latch set: no timer scheduled, no cleanup returned; otherwise one timer for a fresh closure that captured `showPopup`, plus its cleanup; never attaches a listener |
| `ExitIntentPopup.TimerCallback` | components/exit-intent-popup.tsx:43-48 | the timer is consumed; its handler is attached and `listenerActive` set iff the latch is still clear (and the run had seen no record); otherwise the listeners are unchanged |
| `ExitIntentPopup.HandleMouseLeave` | components/exit-intent-popup.tsx:24-40 | a no-op when latched, when the captured `showPopup` is true, or when the event does not qualify; otherwise it sets the latch, shows the popup, writes "true" under the session key, detaches its own closure, clears `listenerActive` and counts one trigger, changing nothing else |
| `ExitIntentPopup.Cleanup` | components/exit-intent-popup.tsx:51-57 | the registered cleanup clears its run's timer, detaches its handler when `listenerActive`, and leaves `listenerActive` false |
| `ExitIntentPopup.HandleClose` | components/exit-intent-popup.tsx:60-67 | hides the popup and clears `listenerActive`, and detaches nothing |
| `ExitIntentPopup.HandleSignup` | components/exit-intent-popup.tsx:69-77 | as close, and calls onSignup exactly once |
| `ExitIntentPopup.Remove` | components/exit-intent-popup.tsx:37 | `removeEventListener` for one run's handler: the remaining listeners are exactly those of other runs |
| `ExitIntentPopup.Deliver` | components/exit-intent-popup.tsx:24-40 | one dispatch to the listeners attached when it began: it only removes listeners, never erases the session record or the latch, never lowers the trigger count, and leaves timer, cleanup, mount and counters alone |
| `ExitIntentPopup.Load` | components/exit-intent-popup.tsx:12-22 | a reload in the same session: a fresh instance and document (no listeners, latch and flag clear, popup hidden) with the same session store, and a timer pending iff the store has no record |
| `ExitIntentPopup.Start` | components/exit-intent-popup.tsx:12-22 | the first mount: nothing shown or attached, no triggers or sign-ups yet, and a timer pending iff the store has no record |
| `ExitIntentPopup.Enabled` | components/exit-intent-popup.tsx:58-81 | close and sign-up need the popup shown (line 81); an effect re-run needs `showPopup` to differ from the last run's dependency (line 58); the timer event needs a pending timer; unmount needs a mounted instance |
| `ExitIntentPopup.Step` | components/exit-intent-popup.tsx:17-77 | one event: none at all when not enabled; the session record is never erased; triggers never decrease; onSignup runs at most once, and only on a sign-up click |
| `ExitIntentPopup.NonQualifyingIgnored` | components/exit-intent-popup.tsx:31 | a mouse-leave with clientY > 0 or a related target changes no state, whatever listeners are attached |
| `ExitIntentPopup.LatchedIgnored` | components/exit-intent-popup.tsx:26-28 | once the latch is set, a mouse-leave changes no state |
| `ExitIntentPopup.OneTriggerPerDispatch` | components/exit-intent-popup.tsx:32 | setting the latch first means one dispatch fires at most once, even with several handlers attached |
| `ExitIntentPopup.MouseLeaveIgnoredUnlessQualifying` | components/exit-intent-popup.tsx:26-31 | a mouse-leave event is a no-op if it does not qualify, if latched, or if no listener is attached yet |
| `ExitIntentPopup.UnarmedIgnoresMouseLeaves` | components/exit-intent-popup.tsx:42-48 | before the timer attaches the handler, any sequence of mouse-leaves changes nothing |
| `ExitIntentPopup.StartInv` | components/exit-intent-popup.tsx:13-22 | the first load satisfies the invariant, shows nothing, attaches nothing, and schedules the timer iff the session has no record |
| `ExitIntentPopup.MouseLeavePreservesInv` | components/exit-intent-popup.tsx:24-40 | a mouse-leave keeps the invariant |
| `ExitIntentPopup.FlushPreservesInv` | components/exit-intent-popup.tsx:51-58 | an effect re-run keeps the invariant; its cleanup leaves no timer, no listener and `listenerActive` false |
| `ExitIntentPopup.StepPreservesInv` | components/exit-intent-popup.tsx:17-77 | every event keeps the invariant (at most one listener, attached only while armed and untriggered; a shown popup implies a trigger; a trigger implies the session record; at most one trigger) |
| `ExitIntentPopup.RunPreservesInv` | components/exit-intent-popup.tsx:17-77 | the same over any sequence of events |
| `ExitIntentPopup.ReachableInv` | components/exit-intent-popup.tsx:14-15 | every state reachable from the first load satisfies the invariant |
| `ExitIntentPopup.StepTriggers` | components/exit-intent-popup.tsx:32-34 | the session record is never erased; triggers grow by at most one and only while there is no record; the popup goes from hidden to shown only by a trigger |
| `ExitIntentPopup.RevealsAreTriggers` | components/exit-intent-popup.tsx:19-34 | every hidden-to-shown change along a run is paid for by a trigger; with the record present no trigger happens |
| `ExitIntentPopup.AtMostOneRevealPerSession` | components/exit-intent-popup.tsx:19-34 | over any events in one session, including reloads and remount cleanups, the popup is revealed at most once, and never if the session already had the record |
| `ExitIntentPopup.ArmedQualifyingFires` | components/exit-intent-popup.tsx:31-39 | a qualifying event while armed sets the latch, shows the popup, writes the record, empties the listeners and clears `listenerActive`, and nothing else |
| `ExitIntentPopup.EarlyReturnArmsNothing` | components/exit-intent-popup.tsx:19-22 | an effect re-run with the record or the latch leaves no timer, no listener and no cleanup, so no timer event follows |
| `ExitIntentPopup.ReloadAfterShownArmsNothing` | components/exit-intent-popup.tsx:19-21 | a page load in a session that has the record schedules nothing and attaches nothing |
| `ExitIntentPopup.UnmountLeavesNothingBehind` | components/exit-intent-popup.tsx:51-57 | teardown cancels the timer and detaches the listener, so a late timer does nothing |
| `ExitIntentPopup.CloseAndSignupKeepLatch` | components/exit-intent-popup.tsx:60-77 | close and sign-up hide the popup, keep the latch and the session record, and only sign-up calls onSignup, once |
| `ExitIntentPopup.ShownMeansDetached` | components/exit-intent-popup.tsx:62-66 | while the popup is shown no listener is attached and `listenerActive` is false, so the no-op removal misses nothing |
| `ExitIntentPopup.StrayCloseWouldLeak` | components/exit-intent-popup.tsx:64 | called directly while armed, close would leave the handler attached with `listenerActive` false, and cleanup would then keep it; through the UI that call cannot happen |
| `ExitIntentPopup.ExampleArmingDelay` | components/exit-intent-popup.tsx:43-48 | a qualifying exit before the timer does nothing; after it, two qualifying exits reveal the popup exactly once and write the record |
| `ExitIntentPopup.Popup.RunEffect` | components/exit-intent-popup.tsx:17-49 | fields become `EffectBody` of the old ones |
| `ExitIntentPopup.Popup.RunCleanup` | components/exit-intent-popup.tsx:51-57 | fields become `Cleanup` of the old ones |
| `ExitIntentPopup.Popup.constructor` | components/exit-intent-popup.tsx:12-22 | the first mount: fields equal `Start(store)`, invariant holds |
| `ExitIntentPopup.Popup.Load` | components/exit-intent-popup.tsx:13-19 | a reload: fresh instance and document, same session store, then the mount run |
| `ExitIntentPopup.Popup.Unmount` | components/exit-intent-popup.tsx:50-57 | teardown runs the registered cleanup |
| `ExitIntentPopup.Popup.TimerFires` | components/exit-intent-popup.tsx:43-48 | the timer callback, as `TimerCallback` |
| `ExitIntentPopup.Popup.MouseLeave` | components/exit-intent-popup.tsx:24-40 | the attached handler, if any, as `HandleMouseLeave` |
| `ExitIntentPopup.Popup.Close` | components/exit-intent-popup.tsx:60-67 | `handleClose`, while the popup is shown |
| `ExitIntentPopup.Popup.Signup` | components/exit-intent-popup.tsx:69-77 | `handleSignup`, while the popup is shown |
| `ExitIntentPopup.Popup.FlushEffect` | components/exit-intent-popup.tsx:58 | after `showPopup` changed: the old run's cleanup, then a new run |

## Left out

- HandleMouseLeave: assumes `sessionStorage.setItem` succeeds. In a browser it can throw (storage disabled, quota exceeded), and the source does not catch it. The latch and `setShowPopup(true)` have then already run, but the record is not written and the listener is not detached (lines 37-38 are skipped), so a later reload can show the popup again.
- EffectBody: assumes `sessionStorage.getItem` succeeds. In a browser it can throw when storage is disabled, and the source does not catch it. The session store is a total map here, so neither call can fail.
- AtMostOneRevealPerSession: "at most once per session" is proved only under the two storage assumptions above.
- Rendering, styling, animations (framer-motion), icons and UI-kit components are not modelled. The model keeps only one thing from the markup: which controls are rendered and enabled in each state.
- ExitIntentPopup.Enabled: lets close and sign-up happen only while `showPopup` is true. During the popup's exit animation, `AnimatePresence` keeps its buttons on screen for a moment after it is hidden, and each click on the offer button then runs `handleSignup` again and calls `onSignup` again (lines 69-71). The model does not capture those extra `onSignup` calls, nor extra close clicks in that window.
- The demo's `name` state (components/mikrolearn-demo.tsx:21) is not modelled. Nothing reads or sets it after it is initialised.
- The progress bar's percentage `(progress / 5) * 100` is a floating-point display value and is not modelled. Only `progress` itself is; the label's denominator is the literal 5.
- The "Personalized content for: ..." line, the skill badges, the "(n skills selected)" label, and the `alert` placeholders for premium, app-store and download buttons are not modelled. They are display text with no state.
- Real time is not modelled. The 3000 ms delay is the `TimerElapsed` event, so "before 3000 ms" means "before that event".
- `clientY` is an integer, not a floating-point coordinate. Mouse events are reduced to `clientY` and whether `relatedTarget` is null.
- React's scheduling is abstracted to events. A state update is committed at once, and the effect re-run after a `showPopup` change is its own `EffectFlush` event, so it can interleave with other events.
- `onSignup`'s effect on the page (opening the signup modal, app/page.tsx:795) is modelled only as a call count.
- app/layout.tsx, components/comparison-section.tsx, components/signup-modal.tsx, components/clarity.tsx and the rest of app/page.tsx are not part of this model. They are static markup, metadata, third-party scripts, or a form whose fields are discarded.
