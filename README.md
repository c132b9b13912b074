# Vedaraa site logic in Dafny

This project models the small amount of real logic in the Vedaraa interior-design studio website, a React front end. It covers:

- the three client-side forms. The **booking page** holds an eight-field draft, meeting cards and a required-field check. The **contact page** holds a seven-field enquiry. The **client brief form** holds five fields, an optional file list and a 2000-code-unit limit on the brief;
- the **portfolio** page's category filter and project-detail dialog;
- the **preloader**, a tick-driven counter from 0 to 100 that then hides the overlay;
- the two **scroll-reveal wrappers**. Each maps an animation type, a visibility flag and timings to the Tailwind classes it puts on its `div`.

Each source file is a module:

- `MeetingPage`, `ContactPage`, `ClientBrief`, `PortfolioPage`, `PreloaderScreen`, `ScrollReveal` and `Staggered` model the core files.
- Four shared modules support them. `Wrappers` holds `Option`. `Toasts` holds the notifications the forms raise. `Decimal` renders integers as a template literal prints a whole number up to 2^53, and parses them back. `ClassTokens` holds the utility classes as a datatype, their rendering to class names, and the animation `switch` that both wrappers share.

State that the source keeps in React `useState` becomes a class whose fields are those state variables. The preloader's class adds `intervalActive` and `hideScheduled` for its interval and hide timeout. The brief form's `scrollY` is left out, because it feeds only the parallax background. Each handler is a method that states the whole new state. Each class is specified against pure functions: `Set`, `CanSubmit`/`WithinLimit`, `FilteredItems`, `AfterTick`/`AfterHide`. The lemmas about those functions carry the properties. The class mappings take no state and are functions.

Some modelling choices:

- Timings are whole milliseconds. A prop of `0.8` seconds is `800` here, because the components print `Math.round(seconds * 1000)`.
- Visibility is an input, because the hook that detects it is not part of this model.
- Ticks of the preloader's interval and the firing of its hide timeout are events (the methods `Tick` and `FireHide`).
- The booking page's `handleSubmit` raises a toast when a required field is empty. The contact page does the same. The brief form raises an error toast only for an over-long brief, and a success toast otherwise. Each toast is returned as a `Toast` value.

Notes on the code:

- The brief handler only rejects a brief whose `length` exceeds 2000. Each form resets its draft inside the submit handler itself, with no timer in between.
- The brief form's label and its rejection toast say "2000 words", but the check counts UTF-16 code units. `ClientBrief.OneWordOverLimit` shows a one-word brief that is rejected, and `ClientBrief.AstralCharactersCountTwice` one of 1001 characters that is rejected too.

## Model

| member | source | states |
|---|---|---|
| `ClassTokens.RenderedStateNames` | src/components/ScrollAnimationWrapper.tsx:26-73 | the opacity, scale, transition and easing tokens render exactly as the class names in the source |
| `ClassTokens.RenderedTimingNames` | src/components/StaggeredAnimation.tsx:26-28 | the fixed `duration-700` and bracketed `duration-[…ms]`/`delay-[…ms]` tokens render with the number printed in decimal, as here and in src/components/ScrollAnimationWrapper.tsx:27-28 |
| `ClassTokens.RenderedOffsetNames` | src/components/ScrollAnimationWrapper.tsx:36-64 | translate tokens render as `translate-y-8`, `-translate-x-8` etc., a negative step taking Tailwind's leading minus; likewise the step-6 offsets of src/components/StaggeredAnimation.tsx:37-64 such as `translate-x-6` |
| `ClassTokens.Render` | src/components/ScrollAnimationWrapper.tsx:26-28 | every token other than a caller's own class renders as one non-empty class name without a blank |
| `ClassTokens.DurationRenderReadsBack` | src/components/ScrollAnimationWrapper.tsx:27 | the number between the brackets of a rendered duration reads back as the duration |
| `ClassTokens.DelayRenderReadsBack` | src/components/ScrollAnimationWrapper.tsx:28 | the same for a rendered delay |
| `ClassTokens.TimingRenderInjective` | src/components/ScrollAnimationWrapper.tsx:27-28 | distinct durations give distinct duration classes, and distinct delays distinct delay classes |
| `Decimal.IntToString` | src/components/ScrollAnimationWrapper.tsx:27 | the interpolated number is non-empty, begins with a minus sign exactly when negative, and is otherwise all digits |
| `ClassTokens.RevealTokens` | src/components/ScrollAnimationWrapper.tsx:30-83 | the state tokens start with opacity 100 when visible and 0 when hidden; every other state token is a motion token, which is at rest exactly when visible |
| `ScrollReveal.AnimationClasses` | src/components/ScrollAnimationWrapper.tsx:25-84 | base then duration always come first; `opacity-100` iff visible and `opacity-0` iff hidden; a delay class is present iff the delay is positive, and then it carries that delay |
| `ScrollReveal.DelayClass` | src/components/ScrollAnimationWrapper.tsx:28 | one delay class carrying the delay when it is positive, none otherwise |
| `ScrollReveal.WrapperClasses` | src/components/ScrollAnimationWrapper.tsx:16-89 | absent props take their defaults, and the caller's classes follow the animation classes, in order |
| `ScrollReveal.DefaultClasses` | src/components/ScrollAnimationWrapper.tsx:16-18 | with no props, the wrapper is fadeUp with an 800 ms duration and no delay class |
| `ScrollReveal.UnknownTypeIsFadeUp` | src/components/ScrollAnimationWrapper.tsx:30-83 | any type outside the five names gives exactly fadeUp's classes |
| `ScrollReveal.FadeUpOffsets` | src/components/ScrollAnimationWrapper.tsx:31-39 | for every delay and duration, fadeUp hides at `translate-y-8` and reveals at `translate-y-0` |
| `ScrollReveal.SlideOffsets` | src/components/ScrollAnimationWrapper.tsx:47-64 | slideLeft hides at `translate-x-8`, slideRight at `-translate-x-8`, and both reveal at `translate-x-0` |
| `ScrollReveal.ScaleUpTokens` | src/components/ScrollAnimationWrapper.tsx:65-73 | scaleUp hides at `scale-95` and reveals at `scale-100`, and never carries the other scale token |
| `ScrollReveal.FadeInOnlyOpacity` | src/components/ScrollAnimationWrapper.tsx:40-46 | fadeIn emits no motion token, only base, timing and opacity classes |
| `ScrollReveal.RevealKeepsTiming` | src/components/ScrollAnimationWrapper.tsx:25-84 | revealing changes only the state tokens; base, duration and delay stay as they were |
| `Staggered.ChildDelayMs` | src/components/StaggeredAnimation.tsx:26 | child 0 starts at once, and each later child starts one stagger after the one before it |
| `Staggered.ChildClasses` | src/components/StaggeredAnimation.tsx:25-77 | every child begins with the fixed 700 transition and a delay class of `index * staggerDelay`, even when that is 0; opacity 100 iff visible |
| `Staggered.WrapChildren` | src/components/StaggeredAnimation.tsx:82-86 | exactly one wrapper per element of the children list, keyed by its index, in order, holding that element |
| `Staggered.RenderContainer` | src/components/StaggeredAnimation.tsx:81-87 | the container keeps the caller's classes and has one wrapper per child; wrapper `i` is keyed `i`, holds child `i` and carries that child's classes under the defaulted type and stagger |
| `Staggered.DelaysNonDecreasing` | src/components/StaggeredAnimation.tsx:26 | with a non-negative stagger, delays never decrease with the index |
| `Staggered.SharedVisibility` | src/components/StaggeredAnimation.tsx:18-35 | either every child is revealed or every child is hidden |
| `Staggered.UniformTiming` | src/components/StaggeredAnimation.tsx:26-28 | every child carries `duration-700` and its own delay class |
| `Staggered.HiddenOffsets` | src/components/StaggeredAnimation.tsx:30-76 | hidden offsets are step 6; scaleUp hides at `scale-95` and reveals at `scale-100`; an unknown type behaves as fadeUp, visible or hidden |
| `Staggered.DefaultStagger` | src/components/StaggeredAnimation.tsx:15-16 | by default child `i` fades up with a delay of `100 * i` ms |
| `MeetingPage.CatalogueShape` | src/pages/Meeting.tsx:15-44 | three meeting types with distinct, non-empty ids, and eight distinct time slots |
| `MeetingPage.Set` | src/pages/Meeting.tsx:61-63 | a field update sets the named field and leaves the other seven as they were |
| `MeetingPage.CanSubmit` | src/pages/Meeting.tsx:68-75 | a draft passes iff none of name, email, date, time and meeting type is empty |
| `MeetingPage.OptionalFieldsIrrelevant` | src/pages/Meeting.tsx:68 | changing phone, location or notes never changes the outcome |
| `MeetingPage.WhitespacePasses` | src/pages/Meeting.tsx:68 | blank but non-empty values pass, since the check is truthiness |
| `MeetingPage.InitialDraftRejected` | src/pages/Meeting.tsx:50-59 | the initial draft is empty except location `"virtual"`, and it cannot be submitted as it stands |
| `MeetingPage.BookingForm.constructor` | src/pages/Meeting.tsx:49-59 | the page starts with the initial draft and no card selected |
| `MeetingPage.BookingForm.ShowsBookingForm` | src/pages/Meeting.tsx:146-182 | the booking form is on screen whenever a card is highlighted |
| `MeetingPage.BookingForm.HandleInputChange` | src/pages/Meeting.tsx:61-63 | the draft becomes `Set` of the old draft; the selection is unchanged |
| `MeetingPage.BookingForm.SelectMeeting` | src/pages/Meeting.tsx:150-153 | after a card click, the selection and the draft's meeting type both equal the card's id; only that field changes; the form is shown iff the id is non-empty |
| `MeetingPage.BookingForm.HandleSubmit` | src/pages/Meeting.tsx:65-97 | missing required fields give the destructive toast and change nothing; otherwise the success toast, the initial draft, no selection, and the form is hidden |
| `ContactPage.Set` | src/pages/Contact.tsx:52-54 | a field update sets the named field and leaves the other six as they were |
| `ContactPage.EmptyDraftIsEmpty` | src/pages/Contact.tsx:42-50 | all seven fields of the initial draft are empty |
| `ContactPage.CanSubmit` | src/pages/Contact.tsx:60-67 | a draft passes iff none of name, email and message is empty |
| `ContactPage.OptionalFieldsIrrelevant` | src/pages/Contact.tsx:60 | phone, project type, budget and timeline never change the outcome |
| `ContactPage.MissingNameRejected` | src/pages/Contact.tsx:60-67 | with email and message filled, an empty name alone rejects, and filling it is enough to pass |
| `ContactPage.EnquiryForm.constructor` | src/pages/Contact.tsx:42-50 | the form starts with the empty draft |
| `ContactPage.EnquiryForm.HandleInputChange` | src/pages/Contact.tsx:52-54 | the draft becomes `Set` of the old draft |
| `ContactPage.EnquiryForm.HandleSubmit` | src/pages/Contact.tsx:56-87 | rejection toast and unchanged draft iff a required field is empty; otherwise the success toast and all seven fields empty; either way the resulting draft cannot be submitted |
| `ContactPage.SubmitTwice` | src/pages/Contact.tsx:60-86 | a second submit straight after any first one is always rejected |
| `ClientBrief.Set` | src/components/ContactForm.tsx:73-129 | each input's setter replaces its own field and preserves the other four |
| `ClientBrief.Utf16Length` | src/components/ContactForm.tsx:34 | a string's `length` is at least its number of characters and at most twice that |
| `ClientBrief.BmpLength` | src/components/ContactForm.tsx:34 | for text within the Basic Multilingual Plane, `length` is the number of characters |
| `ClientBrief.WithinLimit` | src/components/ContactForm.tsx:34 | a brief of at most 1000 characters always passes, and one of more than 2000 characters never does |
| `ClientBrief.AcceptanceIsLengthOnly` | src/components/ContactForm.tsx:31-42 | a draft passes iff its brief's `length` is at most 2000; no other field matters and the empty draft passes |
| `ClientBrief.LimitBoundary` | src/components/ContactForm.tsx:34-37 | a brief of `length` 2000 passes and one of 2001 is rejected; for Basic Multilingual Plane text, the bound is 2000 characters |
| `ClientBrief.OneWordOverLimit` | src/components/ContactForm.tsx:34-35 | a brief of one 2001-letter word is rejected, although the message speaks of a 2000-word limit |
| `ClientBrief.AstralCharactersCountTwice` | src/components/ContactForm.tsx:34 | 1000 emoji and a letter are 1001 characters but `length` 2001, and are rejected |
| `ClientBrief.CounterText` | src/components/ContactForm.tsx:134 | the counter starts with the decimal digits of the brief's `length`, which read back as that length, and ends with " / 2000 characters" |
| `ClientBrief.BriefForm.constructor` | src/components/ContactForm.tsx:12-19 | five empty fields and no file list |
| `ClientBrief.BriefForm.SetField` | src/components/ContactForm.tsx:73-129 | the draft becomes `Set` of the old draft; the files are unchanged |
| `ClientBrief.BriefForm.SelectFiles` | src/components/ContactForm.tsx:148 | the file list becomes what the input holds; the draft is unchanged |
| `ClientBrief.BriefForm.HandleSubmit` | src/components/ContactForm.tsx:31-42 | an over-long brief gives the error toast and changes nothing; otherwise the success toast, the empty draft and no files |
| `PortfolioPage.FilterByCategory` | src/pages/Portfolio.tsx:82 | every result has the category; each matching item appears as often as in the input and no other item appears; the result is an order-preserving subsequence of the input |
| `PortfolioPage.FilteredItems` | src/pages/Portfolio.tsx:80-82 | "All" gives the whole list; any other category gives exactly that category's items, each as often as in the list; always a subsequence |
| `PortfolioPage.FilterAppend` | src/pages/Portfolio.tsx:82 | filtering a concatenation is concatenating the filters |
| `PortfolioPage.EveryProjectCategorised` | src/pages/Portfolio.tsx:17-79 | every project's category is one of the two buttons after "All", Residential or Commercial |
| `PortfolioPage.CommercialProjects` | src/pages/Portfolio.tsx:17-82 | the Commercial filter shows exactly the fifth project |
| `PortfolioPage.TwoCategoriesPartition` | src/pages/Portfolio.tsx:79-82 | when every item is in one of two distinct categories, the two filters' lengths add up to the list's length |
| `PortfolioPage.ShowcaseCounts` | src/pages/Portfolio.tsx:17-72 | "Residential" shows 5 projects, "Commercial" 1, and any filter at most 6 |
| `PortfolioPage.ShowcasePage.constructor` | src/pages/Portfolio.tsx:75-76 | category "All" and no project selected |
| `PortfolioPage.ShowcasePage.Visible` | src/pages/Portfolio.tsx:80-82 | the shown list is a subsequence of the six projects |
| `PortfolioPage.ShowcasePage.DialogOpen` | src/pages/Portfolio.tsx:156 | the dialog's `open` prop: open exactly while a project is selected |
| `PortfolioPage.ShowcasePage.SelectCategory` | src/pages/Portfolio.tsx:117 | the category changes, the open project does not, and the grid shows that category's filter |
| `PortfolioPage.ShowcasePage.OpenProject` | src/pages/Portfolio.tsx:135 | clicking a tile selects it and opens the dialog |
| `PortfolioPage.ShowcasePage.OpenChange` | src/pages/Portfolio.tsx:156 | any open-change clears the selection and closes the dialog |
| `PreloaderScreen.AfterTick` | src/components/Preloader.tsx:10-17 | a tick keeps the invariant (counter in 0..100, hide only at 100); it adds 1 below 100; at 100 it keeps 100, stops the interval and schedules the hide |
| `PreloaderScreen.AfterHide` | src/components/Preloader.tsx:15 | the hide ends loading, keeps the counter at 100 and keeps the invariant |
| `PreloaderScreen.Ticks` | src/components/Preloader.tsx:9-19 | any number of ticks keeps the invariant, the counter never falls and rises by at most one per tick, and ticks never end loading |
| `PreloaderScreen.TicksFrom` | src/components/Preloader.tsx:9-19 | from counter `c`, `k` ticks reach `c + k` while that is at most 100; more ticks stop at 100 with the hide scheduled |
| `PreloaderScreen.CounterAfterTicks` | src/components/Preloader.tsx:9-19 | after `k` ticks from mount, the counter is min(k, 100); the interval runs iff `k <= 100`; the hide is scheduled iff `k > 100` |
| `PreloaderScreen.PercentShown` | src/components/Preloader.tsx:26-38 | the percentage is in the rendered tree iff loading, and shows the counter; once it is gone the counter is 100 |
| `PreloaderScreen.Preloader.constructor` | src/components/Preloader.tsx:5-9 | counter 0, loading, the interval started |
| `PreloaderScreen.Preloader.Tick` | src/components/Preloader.tsx:10-17 | the state becomes `AfterTick` of the old one; the counter never decreases |
| `PreloaderScreen.Preloader.FireHide` | src/components/Preloader.tsx:15 | loading ends, and only with the counter at 100 |
| `PreloaderScreen.Preloader.Unmount` | src/components/Preloader.tsx:21 | the cleanup clears the interval and nothing else |

## Left out

- The class-name utility: `cn` joins classes with spaces and lets tailwind-merge drop conflicting ones, and the utility's source is not part of this model. The model keeps the class list as tokens in the order given. A caller's class that conflicts with an animation class is therefore not merged away.
- Fractional timings. Durations, delays and the stagger are whole milliseconds, so `Math.round(x * 1000)` is the identity. Three cases are not represented: a positive delay under half a millisecond (it emits `delay-[0ms]`); whole numbers above 2^53, which a double cannot hold exactly and which JavaScript prints with its shortest round-trip digits (`2 ** 55` prints as `36028797018963970`, where `Decimal.IntToString` gives `36028797018963968`); and the exponential format from 10^21. A stagger in whole milliseconds is not one of them: the floating-point product rounds back to the exact one (`3 * 0.15 * 1000` is 449.99999999999994, which `Math.round` takes to 450), so `ChildDelayMs` matches the delays of the source's `staggerDelay={0.15}` grids.
- The visibility hook `useScrollAnimation` and its threshold and root margin: visibility is a parameter, so "reveal once" is not modelled.
- Parallax (`useParallax`, the `(scrollY - N) * 0.4` backgrounds) is floating-point DOM geometry and not modelled. Smooth scrolling, the 3D viewers, the canvas and framer-motion effects, the custom cursor, the error boundary, routing and the static pages are out of scope too.
- Field names. The handlers take a field name string; the model takes a field enumeration. An arbitrary string key, which in JavaScript would add a new property to the draft, is not represented. All call sites pass one of the declared names.
- Brief length. `brief.length` counts UTF-16 code units. A `char` here is a Unicode scalar value, so `Utf16Length` counts two units for a character above the Basic Multilingual Plane and one otherwise. Lone surrogates, which a JavaScript string may hold, cannot be represented.
- The children list. `Staggered` takes the list that `React.Children.toArray(children)` returns. That call drops null, undefined and boolean children and flattens nested arrays, so "one wrapper per child" holds of that list, not of the raw `children` prop.
- Browser-enforced validation: the `required`, `maxLength`, `type="email"` and date `min` attributes are applied by the browser before the handler runs, so they are not modelled.
- Toast presentation and logging. How toasts are displayed is not modelled, and neither is `console.log` of the submitted data.
- Controls not bound to the draft. The booking page's time and location selects are uncontrolled, but they sit inside the booking form, which unmounts when a successful submit clears the selection; on the next card click they mount afresh, matching the initial draft. The contact page's project type, budget and timeline selects are uncontrolled too (src/pages/Contact.tsx:198, 212 and 228). That form stays on screen after a reset, so those selects keep showing the old choices while the draft holds "". The brief form's file input has no `value` either (src/components/ContactForm.tsx:143-150), and a file input cannot be controlled; after a successful submit clears `files`, the form stays on screen and the input still lists the old files. Only the draft is modelled, not what a control displays.
- Timer periods. The 20 ms interval and the 500 ms hide delay are not modelled; order is what matters here. `Tick` requires an active interval because a cleared interval never calls back, and `FireHide` requires a scheduled hide for the same reason.
- PreloaderScreen.PercentShown: models the `isLoading && …` condition, not the one-second exit animation of `AnimatePresence` (src/components/Preloader.tsx:25-29), during which "100%" stays on screen after loading ends.
- React scheduling. Double invocation of state updaters and effects in development mode is not modelled. The preloader's cleanup does not cancel the hide timeout, so `Unmount` leaves `hideScheduled` as it was.
- Imported images are represented by their asset file names, and the contact page's static business-information cards are not modelled.
