# CareConnect dashboard wizard and stateful widgets, in Dafny

This project models the only parts of the CareConnect marketing site that hold logic: the
device-connection wizard of the dashboard page, the rotating stack of heart-health cards,
and the single-open FAQ accordion.

The wizard is modelled in the form the page uses. It is one object holding the page's state
fields (`DashboardPage.Dashboard`). That state is:

- whether the modal is shown;
- the chosen device family;
- the modal step;
- the devices found;
- the selected device;
- the current question;
- the setup answers;
- the connected flag;
- the connected device.

Each event handler is a method on that object: open, close, select a device, answer and
continue. Each of the page's two `setTimeout` callbacks is also a method, which the caller
invokes later. The handler that schedules a callback returns a `PendingTimer` value. That
value holds what the callback's closure captured:

- the discovery callback captures the device family it was scheduled for;
- the connect callback captures the `selectedDevice` of the moment it was scheduled.

The data the page works from is modelled as pure functions:

- the device catalogue;
- the four-question list;
- the device-family names;
- the signal-bar rule;
- the health-conditions toggle, defined as a reference function and carried out by a method
  that searches for the answer and then splices or pushes.

The card rotation is a method on arrays. It copies the previous array, then pops the last
card and puts it in front, leaving the previous array unchanged. The accordion is a pure
click function over `openIndex`.

The wizard is modelled as the code behaves, including where that differs from what the
interface suggests:

- Neither timer callback is guarded. A discovery callback that fires after the modal was
  closed still lists devices and sets the step to "devices". One left over from an earlier
  search overwrites the list of a later search and can pull the wizard back from the
  questions to the device list. `DashboardScenarios.CancelThenLateDiscovery` and
  `DashboardScenarios.StaleDiscoveryAcrossSearches` show both cases.
- A connect callback that fires after the modal was closed still connects the device
  (`DashboardScenarios.CloseWhileConnecting`).
- Closing the modal does not clear the answers or the question position. The connected view
  reads `setupAnswers.personName` after the modal has closed.
- `selectedDevice` is not checked against `foundDevices`.
- The health conditions are a list, not a set. A toggle removes the first occurrence or
  appends. On a duplicate-free list this is a set symmetric difference. Toggling a present
  option twice moves it to the end.
- In `handleAnswerSelect`, the branch that starts connecting after a single-select answer
  cannot be reached. Only the last question is multi-select, so the connecting step is
  reached only through "Continue".

## Model

| member | source | states |
|---|---|---|
| `DashboardPage.CatalogueWellFormed` | app/dashboard/page.tsx:26-42 | each family lists three devices, strongest to weakest signal; device ids are unique across the whole catalogue |
| `DashboardPage.GetDeviceName` | app/dashboard/page.tsx:170-181 | the generic name "Device" is given exactly when no family is chosen |
| `DashboardPage.DeviceNameInjective` | app/dashboard/page.tsx:170-181 | distinct families (and none) get distinct names |
| `DashboardPage.SignalIconLightsRank` | app/dashboard/page.tsx:183-190 | bar b of the icon is lit iff b is at most the signal's rank (weak 1, medium 2, strong 3); so exactly that many bars are lit |
| `DashboardPage.GetQuestions` | app/dashboard/page.tsx:146-168 | four questions with distinct fields; a question is multi-select iff it is the last, and only the last is the health-conditions question; every question has options |
| `DashboardPage.WithAnswer` | app/dashboard/page.tsx:115 | writing a single-select answer sets that field to the answer and leaves the other single-select fields and the health conditions unchanged |
| `DashboardPage.IndexOf` | app/dashboard/page.tsx:108-109 | -1 iff the value is absent, else the first index holding it |
| `DashboardPage.ToggleCondition` | app/dashboard/page.tsx:106-113 | copying the list and then splicing out the first occurrence, or pushing the value, yields the reference toggle `Toggled` |
| `DashboardPage.RemoveFirstFacts` | app/dashboard/page.tsx:109 | removing the first occurrence leaves an absent value's list unchanged; otherwise it shortens the list by one; it preserves every other value's membership; on a duplicate-free list it removes the value entirely and stays duplicate-free |
| `DashboardPage.SpliceIsRemoveFirst` | app/dashboard/page.tsx:109 | `splice(indexOf(x), 1)` at the first index of x equals removal of the first occurrence |
| `DashboardPage.RemoveFirstAfterAppend` | app/dashboard/page.tsx:109-111 | removing the first occurrence of a value just pushed onto a list that lacked it gives back the list |
| `DashboardPage.ToggledIsSymmetricDifference` | app/dashboard/page.tsx:106-113 | on a duplicate-free list a toggle is set symmetric difference with the option; it changes the length by exactly one and keeps the list duplicate-free |
| `DashboardPage.ToggleAbsentTwice` | app/dashboard/page.tsx:106-113 | toggling an absent option twice restores the list exactly |
| `DashboardPage.TogglePresentTwice` | app/dashboard/page.tsx:106-113 | toggling a present option twice (duplicate-free list) restores membership but moves the option to the end |
| `DashboardPage.DiscoveredFor` | app/dashboard/page.tsx:83 | discovery yields the catalogue list of the captured family, the "other" list when none; always three devices |
| `DashboardPage.Dashboard.constructor` | app/dashboard/page.tsx:47-60 | the page starts with the modal hidden, nothing chosen, found or connected, question 0 and empty answers |
| `DashboardPage.Dashboard.OpenDeviceModal` | app/dashboard/page.tsx:68-86 | modal shown, family set, step searching, no device selected, question 0, answers emptied; found devices and connection untouched; a discovery timer capturing the family is scheduled |
| `DashboardPage.Dashboard.DiscoveryElapsed` | app/dashboard/page.tsx:82-85 | unconditionally sets the found devices to the captured family's list and the step to devices; nothing else changes |
| `DashboardPage.Dashboard.CloseModal` | app/dashboard/page.tsx:88-94 | hides the modal and clears the family, step, found devices and selection; keeps question, answers and connection |
| `DashboardPage.Dashboard.HandleDeviceSelect` | app/dashboard/page.tsx:96-100 | selects the device, step questions, question 0; nothing else changes |
| `DashboardPage.Dashboard.HandleAnswerSelect` | app/dashboard/page.tsx:102-130 | on the health-conditions question: toggles the answer, which flips exactly that option's membership and keeps the list duplicate-free (part of the page invariant), and changes nothing else; otherwise it writes only the current field, then advances by one below the last question or starts connecting (scheduling a connect timer with the current selection); it never schedules a timer with this question list; question index stays in 0..3 |
| `DashboardPage.Dashboard.HandleNextQuestion` | app/dashboard/page.tsx:132-144 | advances by one below the last question; at the last it starts connecting and schedules a connect timer capturing the current selection; answers untouched; index stays in 0..3 |
| `DashboardPage.Dashboard.ConnectElapsed` | app/dashboard/page.tsx:123-127 | sets connected to true with the captured device, then closes the modal; answers and question kept |
| `DashboardScenarios.ConnectFitbit` | app/dashboard/page.tsx:68-144 | a full Fitbit run ends connected to the picked device with the modal closed and the answers ("Mum", "Son/Daughter", "70-79", the two conditions in click order) still readable |
| `DashboardScenarios.CancelThenLateDiscovery` | app/dashboard/page.tsx:82-94 | after cancelling a search, the late discovery callback still lists the devices and sets the step to devices |
| `DashboardScenarios.StaleDiscoveryAcrossSearches` | app/dashboard/page.tsx:68-100 | a discovery timer from a cancelled search lists its devices in a later search; the later timer then pulls the wizard back to the device list, which no longer holds the selected device |
| `DashboardScenarios.CloseWhileConnecting` | app/dashboard/page.tsx:122-127 | closing during connecting does not stop the connect callback: the device ends up connected |
| `HeartHealth.InitialMetrics` | components/features3.tsx:130-152 | three cards with distinct ids |
| `HeartHealth.RotatedShape` | components/features3.tsx:156-159 | a tick keeps the length, puts the old last card first and every other card one position later |
| `HeartHealth.RotatedIsPermutation` | components/features3.tsx:157-158 | a tick keeps the multiset of cards and of card ids |
| `HeartHealth.Rotations` | components/features3.tsx:155-163 | any number of ticks keeps the length |
| `HeartHealth.RotatedSplit` | components/features3.tsx:158 | a tick on the split of a list at m is its split at m - 1 |
| `HeartHealth.RotationsSplit` | components/features3.tsx:155-163 | after k ticks (k at most the length) the last k cards are in front, in order |
| `HeartHealth.FullCycle` | components/features3.tsx:155-163 | after as many ticks as there are cards the stack is back in its original order |
| `HeartHealth.MetricsNeverEmpty` | components/features3.tsx:130-163 | the metrics always hold three cards, so every pop finds a card |
| `HeartHealth.RotateMetrics` | components/features3.tsx:156-160 | returns a fresh array equal to the rotation of the previous one, which is left unmodified |
| `HeartHealth.ZIndexOrder` | components/features3.tsx:188-192 | z-index len - i is positive, strictly decreasing in position, highest at position 0 |
| `HeartHealth.ZIndexAfterTick` | components/features3.tsx:156-191 | a tick moves every card one z-level down, except the bottom card (z-index 1), which comes out on top with z-index equal to the number of cards |
| `Faq.AtMostOneOpen` | components/faq.tsx:71 | at most one answer is on show; none in the initial state |
| `Faq.ClickOpenClosesAll` | components/faq.tsx:58 | clicking the open item leaves no item open |
| `Faq.ClickClosedOpensOnlyIt` | components/faq.tsx:58 | clicking a closed item makes it the one and only open item |
| `Faq.ClickTwice` | components/faq.tsx:58 | two clicks on one item restore the state iff that item or nothing was open; from another open item they close everything; from all-closed two clicks give all-closed |

## Left out

- Authentication gating, the login redirect and sign-out (app/dashboard/page.tsx:45-66, 193-203, 229) call into next-auth and the Next router. They are not part of this model.
- Timer delays (2500 ms, 2000 ms) and the interval period (4000 ms) are left out. Each callback is an explicit event the caller fires in any order it chooses. The model does not schedule or interleave them.
- All rendering is left out: JSX, CSS classes, SVG, animations, the highlighted-option test (app/dashboard/page.tsx:585-589) and which buttons appear on which step. Every handler may be called in any state. The UI offers each handler only on some steps, and the model does not restrict this.
- The card offsets and scales (`top: index * -8`, `scale: 1 - index * 0.05`) are presentation and floating point. The same goes for the orbit, chart and sleep-bar geometry of the other components.
- The hard-coded demo figures (weekly scores, the score 87, today's stats) are left out, because nothing computes them.
- The purely presentational components and the marketing, legal and authentication pages are not part of this model.
- RotateMetrics: requires a non-empty array. The source's `pop()!` asserts that a card is there. On an empty array it would produce `[undefined]`, which this model does not represent. The metrics never become empty (`HeartHealth.MetricsNeverEmpty`).
