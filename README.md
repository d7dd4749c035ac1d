# Medicine-analysis demo: the wizard, the landing toggle and the rotating headline

A Dafny model of the three small state machines of the well-nav front end:

- **The medicine-analysis wizard** (`MedicineAnalysis`, file `medicine_analysis.dfy`). It asks
  for an age, a gender and a medicine name, one step each, then runs a simulated analysis
  that a timeout ends, and shows fixed mock results that echo the medicine name. The pure
  transition functions `Next`, `Back`, `SetAnswer` and `Complete` describe the handlers on a
  `WizardState` value. `Consistent` is the invariant of every reachable state.
  `Dispatch`/`Run` deliver a sequence of user and timer events; an event whose control is
  absent or disabled does nothing. The class `Wizard` holds the component's state cells as
  fields, and each of its methods is proved to follow the matching function.
- **The landing page** (`Index`, file `index.dfy`). The class `App` owns the `showAnalysis`
  flag and the mounted wizard, if any. Entering the analysis view creates a new `Wizard`;
  leaving it drops the object.
- **The rotating headline** (`AnimatedText`, file `animated_text.dfy`). The class `Rotator`
  holds `currentIndex` and `isVisible`. `Hide` is the interval callback and `Reveal` is the
  300 ms timeout callback. A ghost tick counter ties the index to `IndexAfter`, and the
  cycle lemmas are proved about that function.

How the guards are modelled. The Next handler itself has no guard: the button that calls it
is disabled unless `canProceed()` holds, and it is only rendered outside the analysis and the
results views. The pure `Next` is therefore unguarded, and `Dispatch` applies the guard
through `Available`. The class methods instead *require* that their control is rendered and
enabled (`NextEnabled`, `BackShown`, `InputShown`, a pending timer), because the component
offers no other way to call them. Under those requirements they preserve `Consistent`.

Two behaviours of the code that are easy to miss:

- The Back button stays on screen during the analysis. Pressing it changes the step while
  the analysis keeps running, and the pending timeout still fires.
- Only the headline's interval is cancelled on unmount. The wizard's 3 s timeout and the
  headline's 300 ms timeout are never cleared. When the wizard is left mid-analysis, the
  timeout updates a component that is no longer mounted, and that update has no effect. The
  model gets the same result by dropping the `Wizard` object, pending timer included.

## Model

| member | source | states |
|---|---|---|
| `MedicineAnalysis.StepOf` | src/components/MedicineAnalysis.tsx:229-296 | each question is asked at a step between 1 and 3 |
| `MedicineAnalysis.OneQuestionPerStep` | src/components/MedicineAnalysis.tsx:229-296 | no two questions are asked at the same step |
| `MedicineAnalysis.WithAnswer` | src/components/MedicineAnalysis.tsx:244-290 | the edited question gets the new value; every other answer is unchanged |
| `MedicineAnalysis.CanProceed` | src/components/MedicineAnalysis.tsx:43-50 | true exactly when the question of the current step has a non-empty answer; false for any step outside 1..3 |
| `MedicineAnalysis.Next` | src/components/MedicineAnalysis.tsx:23-33 | below step 3, the step goes up by one and nothing else changes; at step 3, the step and answers stay and the analysis starts with its timeout armed; beyond 3, nothing changes; an enabled Next keeps the state consistent and starts the analysis only at step 3 |
| `MedicineAnalysis.Back` | src/components/MedicineAnalysis.tsx:35-41 | exit is signalled exactly when step <= 1, and then the state is unchanged; otherwise the step goes down by one; answers, both flags and the pending timeout are always kept; consistency is preserved |
| `MedicineAnalysis.SetAnswer` | src/components/MedicineAnalysis.tsx:244-290 | only the edited answer changes; step, flags and timer are kept; editing through a rendered input keeps the state consistent |
| `MedicineAnalysis.Complete` | src/components/MedicineAnalysis.tsx:28-31 | the analysis flag and the timer are cleared and the results are shown; step and answers are kept; from a pending timer the state stays consistent |
| `MedicineAnalysis.MockResults` | src/components/MedicineAnalysis.tsx:52-70 | the medicine shown is the entered name when it is non-empty and "Ibuprofen" otherwise; it is never empty; every other field is the same constant whatever the answers |
| `MedicineAnalysis.Dispatch` | src/components/MedicineAnalysis.tsx:72-301 | an event whose control is absent or disabled (or a timer not armed) changes nothing; Next does nothing while the current question is unanswered; consistency is preserved |
| `MedicineAnalysis.RunConsistent` | src/components/MedicineAnalysis.tsx:23-50 | every event sequence from a consistent state ends in a consistent state, so the step stays within 1..3 |
| `MedicineAnalysis.ReachableConsistent` | src/components/MedicineAnalysis.tsx:14-21 | the initial state is consistent, and so is every state reached from it |
| `MedicineAnalysis.AgeWalkthrough` | src/components/MedicineAnalysis.tsx:23-45 | Next with no age does nothing; after the age is entered, Next reaches step 2, and Back returns to step 1 with the age kept |
| `MedicineAnalysis.AnalysisWalkthrough` | src/components/MedicineAnalysis.tsx:23-53 | answering the three questions and pressing Next starts the analysis; its completion shows results for "Aspirin" |
| `MedicineAnalysis.ResultsAreFinal` | src/components/MedicineAnalysis.tsx:72-181 | once the results are shown, no event changes the wizard's state, and no completion fires again |
| `MedicineAnalysis.CompletesAtMostOnce` | src/components/MedicineAnalysis.tsx:26-31 | in any event sequence from a consistent state, the completion timeout fires at most once, and never after the results are shown |
| `MedicineAnalysis.Wizard.constructor` | src/components/MedicineAnalysis.tsx:14-21 | a new wizard is at step 1 with three empty answers, not analysing, not showing results, no timer armed |
| `MedicineAnalysis.Wizard.HandleNext` | src/components/MedicineAnalysis.tsx:23-33 | with the button enabled, the new state is `Next` of the old one, and the invariant holds |
| `MedicineAnalysis.Wizard.HandleBack` | src/components/MedicineAnalysis.tsx:35-41 | the new state and whether `onBack` was called are those of `Back`; this holds during the analysis too |
| `MedicineAnalysis.Wizard.SetAge` | src/components/MedicineAnalysis.tsx:244 | the new state is `SetAnswer` for the age; only the age changes |
| `MedicineAnalysis.Wizard.SetGender` | src/components/MedicineAnalysis.tsx:261 | the new state is `SetAnswer` for the gender; only the gender changes |
| `MedicineAnalysis.Wizard.SetMedicine` | src/components/MedicineAnalysis.tsx:290 | the new state is `SetAnswer` for the medicine; only the medicine changes |
| `MedicineAnalysis.Wizard.CompleteAnalysis` | src/components/MedicineAnalysis.tsx:28-31 | the armed timeout fires: the new state is `Complete` of the old one, and the invariant holds |
| `Index.App.constructor` | src/pages/Index.tsx:7 | the app starts on the hero view with no wizard mounted |
| `Index.App.CurrentView` | src/pages/Index.tsx:20-24 | exactly one view is shown: the wizard view exactly when a wizard is mounted, the hero view otherwise |
| `Index.App.HandleGetStarted` | src/pages/Index.tsx:9-11 | the analysis view is shown; coming from the hero view, a new wizard in its initial state is mounted; when the analysis view is already shown, the mounted wizard is kept |
| `Index.App.HandleBackToHome` | src/pages/Index.tsx:13-15 | the hero view is shown and no wizard remains, whatever the previous state |
| `Index.App.WizardBack` | src/pages/Index.tsx:21 | Back at step 1 calls `onBack` and returns to the hero view; at a later step, Back moves the same wizard back one step |
| `Index.App.ResultsBackToHome` | src/components/MedicineAnalysis.tsx:76-77 | "Back to Home" on the results screen returns to the hero view and drops the wizard |
| `AnimatedText.NextIndex` | src/components/AnimatedText.tsx:17 | `(i + 1) % n` is always a valid index: the next one, or 0 after the last |
| `AnimatedText.IndexAfter` | src/components/AnimatedText.tsx:13-19 | after any number of ticks, the index is within the list |
| `AnimatedText.IndexAfterWithinCycle` | src/components/AnimatedText.tsx:17 | within one cycle, k ticks move the index k places and wrap once past the end |
| `AnimatedText.FullCycle` | src/components/AnimatedText.tsx:17 | after as many ticks as there are texts, the index is back where it was |
| `AnimatedText.OncePerCycle` | src/components/AnimatedText.tsx:17 | within n consecutive ticks every index from 0 to n-1 is reached, and no index twice |
| `AnimatedText.Rotator.constructor` | src/components/AnimatedText.tsx:9-10 | the headline starts at index 0 and is visible |
| `AnimatedText.Rotator.Shown` | src/components/AnimatedText.tsx:32 | `texts[currentIndex]` is defined and is one of the texts |
| `AnimatedText.Rotator.Hide` | src/components/AnimatedText.tsx:13-14 | the first phase hides the text and leaves the index unchanged |
| `AnimatedText.Rotator.Reveal` | src/components/AnimatedText.tsx:16-18 | the second phase moves the index to `(prev + 1) % texts.length`, shows the text again and completes one tick |
| `AnimatedText.Tick` | src/components/AnimatedText.tsx:13-20 | a whole tick moves to the next index and leaves the text visible |

## Left out

- Rendering: markup, styling, icons, animations and the step indicator. They are presentational only.
- The UI primitives (`Button`, `Input`, `Card`, `RadioGroup`, `Label`). They are foreign components. The model only records which controls of the wizard are rendered.
- React mechanics: `useState`, re-rendering, and effect set-up and clean-up (src/components/AnimatedText.tsx:12-23). Fields, methods, and a fresh object when a component is mounted stand in for them.
- The headline's effect runs again when `texts.length` changes. The model fixes the texts when the `Rotator` is created. With a live change of length, the source keeps an index that may be out of range.
- AnimatedText.Rotator.constructor: requires a non-empty list. The source computes a NaN index for an empty one and renders nothing.
- Real time: the 3000 ms and 300 ms delays and interval scheduling are not modelled. Timer firings are explicit events (`CompleteAnalysis`, `AnalysisTimer`, `Hide`, `Reveal`). `Hide` and `Reveal` are not forced to alternate. In the source, timing forces it (a 300 ms timeout inside a 3000 ms interval), but no property depends on it.
- The numeric input type of the age field. The source stores the age as a string and only checks that it is non-empty.
- src/components/HeroSection.tsx and src/components/Navigation.tsx are not part of this model. Their only content used here is the hero's five headline texts (`AnimatedText.HeroTexts`), which the scenario `AnimatedText.HeroScenario` runs through once.
- The contents of the mock result lists are copied as constants. No analysis is modelled, because the source has none.
