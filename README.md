# Robosoc site: carousel, member roster and contact form in Dafny

This project models the three pieces of sequential state in the Robosoc
student-society website that carry real logic, and proves what they promise.

- **Merchandise carousel** (`MerchItem`). The slide list is the product images,
  plus an `"instagram"` marker slide when a reel is given. A current index
  starts at 0. "Next" and "previous" move it with wrap-around. The page shows
  either the reel embed or the current image, and shows the controls only when
  there is more than one slide. Module `MerchCarousel`, class `Carousel`.
- **Member roster** (`Members`). Four tier lists start empty. `fetchMembers`
  queries the four collections one after another and stores all four lists
  only when every query succeeded. The page shows tier 4, 3, 2 and 1 in that
  order, one card per member: the profile picture, or a placeholder when it is
  missing, optional GitHub/LinkedIn
  buttons and an Instagram button from `insta` or `instagram`. It decides which
  scroll reveals to register. Module `MemberRoster`, class `Roster`.
- **Contact form** (`ContactUs`). Three fields are edited one at a time. A
  submit is skipped when the form is not mounted. Otherwise it raises
  `isSubmitting`, hands the form to the e-mail relay, clears the fields only
  on success and always lowers the flag again. The submit button follows the
  flag. Module `ContactForm`, class `ContactUs`.

Module `Js` holds the JavaScript semantics the three rely on: truthiness of
optional strings, the or-fallback `||`, and `%`, which truncates toward zero.

The document store and the e-mail relay are parameters. `FetchMembers` takes a
function from collection id to `Documents(list)` or `Failure`. `HandleSubmit`
takes whether the relay call resolves. Whether the form ref and the title/grid
refs are mounted are boolean parameters too.

The four roster queries are awaited one after another; a rejection skips
the rest. A failed query leaves all four lists unchanged, so the page never
shows a partial roster.

## Model

| member | source | states |
|---|---|---|
| `Js.Or` | robosoc/src/members.tsx:151-152 | the JavaScript or-fallback on optional strings: truthy iff either side is, and equal to `a` when `a` is truthy, else `b` |
| `Js.JsRem` | robosoc/src/pages/Merch.tsx:14-16 | JavaScript `%` for a positive divisor: the result is within (-n, n), has the dividend's sign and is congruent to it modulo n |
| `MerchCarousel.CarouselItems` | robosoc/src/pages/Merch.tsx:11 | the slides are the images in order, followed by the `"instagram"` marker exactly when the reel is truthy; length is images + 1 or + 0 |
| `MerchCarousel.NextIndex` | robosoc/src/pages/Merch.tsx:13-14 | from an index in [0, n) the next index is in [0, n): i + 1, and 0 after the last slide |
| `MerchCarousel.PrevIndex` | robosoc/src/pages/Merch.tsx:15-16 | from an index in [0, n) the previous index is in [0, n): i - 1, and n - 1 before the first slide |
| `MerchCarousel.PrevNeedsOffset` | robosoc/src/pages/Merch.tsx:16 | without the `+ length`, stepping back from slide 0 would give -1; with it, n - 1 |
| `MerchCarousel.NextThenPrev` | robosoc/src/pages/Merch.tsx:13-16 | previous after next returns to the original index |
| `MerchCarousel.PrevThenNext` | robosoc/src/pages/Merch.tsx:13-16 | next after previous returns to the original index |
| `MerchCarousel.NextTimesAdvances` | robosoc/src/pages/Merch.tsx:13-14 | k presses of next move the index to (i + k) mod n |
| `MerchCarousel.PrevTimesRetreats` | robosoc/src/pages/Merch.tsx:15-16 | k presses of previous move the index to (i - k) mod n |
| `MerchCarousel.FullCycle` | robosoc/src/pages/Merch.tsx:13-16 | n presses of next, or of previous, return to the starting slide |
| `MerchCarousel.RenderSlide` | robosoc/src/pages/Merch.tsx:27-41 | the reel embed, with the reel as permalink, is shown iff the current item is the marker and the reel is truthy; otherwise the current item is the image source (undefined outside the list) with the product name as alt text |
| `MerchCarousel.ReelOnlyAfterImages` | robosoc/src/pages/Merch.tsx:11-41 | when no image URL is the marker, the reel is shown exactly at the index just after the images, given a truthy reel, and every image index shows that image |
| `MerchCarousel.MarkerImageShowsReel` | robosoc/src/pages/Merch.tsx:27-38 | an image whose URL is literally `"instagram"` is shown as the reel when a reel is given |
| `MerchCarousel.ControlsForMoreThanOneSlide` | robosoc/src/pages/Merch.tsx:43 | the previous/next controls are shown iff there are two or more images, or one image and a truthy reel |
| `MerchCarousel.ShowControls` | robosoc/src/pages/Merch.tsx:43 | the previous/next controls are shown iff the list has more than one slide, which is exactly when next (or previous) from the first slide leads to a different slide |
| `MerchCarousel.Carousel.constructor` | robosoc/src/pages/Merch.tsx:9-11 | the slide list is built from the props and the index starts at 0 |
| `MerchCarousel.Carousel.Next` | robosoc/src/pages/Merch.tsx:13-14 | `nextItem` sets the index to `NextIndex` of the old one and keeps it on a slide |
| `MerchCarousel.Carousel.Prev` | robosoc/src/pages/Merch.tsx:15-16 | `prevItem` sets the index to `PrevIndex` of the old one and keeps it on a slide |
| `MerchCarousel.Carousel.Current` | robosoc/src/pages/Merch.tsx:27-41 | the slide on screen is `RenderSlide` of the current state; with at least one slide an image never has an undefined source |
| `MemberRoster.AllOf` | robosoc/src/members.tsx:32 | `allMembers` is tier 4, then 3, 2, 1, each list intact and in its own order, with length the sum of the four |
| `MemberRoster.AllOfHoldsEveryTier` | robosoc/src/members.tsx:32 | a member is in `allMembers` iff it is in one of the four tier lists |
| `MemberRoster.FetchAll` | robosoc/src/members.tsx:37-45 | lists are stored iff all four queries succeed, and then each tier is exactly its own collection's documents in returned order |
| `MemberRoster.Queried` | robosoc/src/members.tsx:37-48 | the queries run in the fixed order tier 4, 3, 2, 1; every query before the last succeeded, and stopping before the fourth means the last one failed |
| `MemberRoster.StoredOnlyAfterAllQueries` | robosoc/src/members.tsx:37-48 | lists are stored iff all four collections were queried and the last query succeeded |
| `MemberRoster.FetchDependsOnlyOnCollections` | robosoc/src/members.tsx:37-45 | the stored lists depend only on what the four collections return |
| `MemberRoster.LinkButton` | robosoc/src/members.tsx:141-150 | a link button is rendered iff its field is truthy, and then links to that field |
| `MemberRoster.CardOf` | robosoc/src/members.tsx:115-155 | a card keys on the id and shows name and post; the image is `profilepic` when truthy, else `/placeholder.webp`; GitHub/LinkedIn buttons iff their field is truthy, each linking to its own field; one Instagram button iff `insta` or `instagram` is truthy, linking to `insta` first |
| `MemberRoster.RenderGrid` | robosoc/src/members.tsx:112-115 | "Loading members..." iff the list is empty, else one card per member in list order |
| `MemberRoster.MemberReveals` | robosoc/src/members.tsx:55-83 | no reveal unless both refs are mounted; then the title reveal at 80% exactly once, and the staggered card reveal at 75% exactly once iff there is at least one member, and nothing else |
| `MemberRoster.InitiallyLoading` | robosoc/src/members.tsx:24-27 | with the initial empty tiers the grid shows the loading message and at most the title reveal is registered |
| `MemberRoster.FetchedGrid` | robosoc/src/members.tsx:37-45 | after a successful fetch the first cards are tier 4's documents in order, and the card reveal is registered iff some tier is non-empty |
| `MemberRoster.Roster.constructor` | robosoc/src/members.tsx:24-27 | all four tier lists start empty, so `allMembers` is empty |
| `MemberRoster.Roster.FetchMembers` | robosoc/src/members.tsx:35-49 | returns the collections queried (`Queried`); on success each tier list is its collection's documents, on any failure all four lists are unchanged |
| `MemberRoster.Roster.Grid` | robosoc/src/members.tsx:112-115 | the grid is `RenderGrid(allMembers)`, showing the loading message iff all four lists are empty |
| `ContactForm.WithField` | robosoc/src/contactus.tsx:25-28 | the named field takes the new value and every other field keeps its value |
| `ContactForm.LastEditWins` | robosoc/src/contactus.tsx:25-28 | two edits of one field leave only the later value |
| `ContactForm.EditsCommute` | robosoc/src/contactus.tsx:25-28 | edits of two different fields commute |
| `ContactForm.EditWithSameValue` | robosoc/src/contactus.tsx:25-28 | writing a field's current value back changes nothing |
| `ContactForm.AfterSubmit` | robosoc/src/contactus.tsx:37-61 | without a mounted form nothing changes; otherwise the flag ends lowered, the fields are all empty after success and unchanged after failure |
| `ContactForm.SuccessResetsPage` | robosoc/src/contactus.tsx:49-55 | a successful submit returns the page to its initial state (empty fields, flag lowered) |
| `ContactForm.FailureKeepsInputForRetry` | robosoc/src/contactus.tsx:56-58 | a failed submit keeps the input, so a retry fails or sends the same data |
| `ContactForm.SubmitButton` | robosoc/src/contactus.tsx:198-204 | the button is disabled iff submitting and reads "Sending..." iff submitting, "Send Message" otherwise |
| `ContactForm.ButtonEnabledAfterSubmit` | robosoc/src/contactus.tsx:59-61 | after any completed submit the button is enabled and reads "Send Message" |
| `ContactForm.ContactReveals` | robosoc/src/contactus.tsx:66-83 | each of title, contact info, form and social block gets exactly one reveal iff its ref is mounted |
| `ContactForm.ContactUs.constructor` | robosoc/src/contactus.tsx:17-23 | the fields start as three empty strings and `isSubmitting` starts false |
| `ContactForm.ContactUs.HandleInputChange` | robosoc/src/contactus.tsx:25-28 | the form becomes `WithField` of the old one; `isSubmitting` is unchanged |
| `ContactForm.ContactUs.HandleSubmit` | robosoc/src/contactus.tsx:30-62 | without a mounted form nothing is sent and nothing changes; otherwise the relay gets the service/template/key ids and the current fields while `isSubmitting` is true, the alert matches the outcome, and the new state is `AfterSubmit` |
| `ContactForm.ContactUs.RenderButton` | robosoc/src/contactus.tsx:198-204 | the rendered button is `SubmitButton` of the current flag |

## Left out

- The loading screen's canvas renderer (`LineFollowerLoader`) is not modelled. It is floating-point drawing with `Math.random` and animation-frame scheduling.
- The scroll animations themselves are not modelled: tweens, easing, stagger timing, toggle actions and the cleanup with `ctx.revert()`. They belong to the animation library. Only the decision whether a reveal is registered is modelled.
- React's re-run of the roster's reveal effect on every render is framework scheduling. It is not modelled.
- The document store and the e-mail relay are parameters of the model. The network, `alert` and `console.error` are I/O and are left out. The alert text is returned as a value.
- The Instagram embed processing (`window.instgrm.Embeds.process()`) calls a foreign global. It is not modelled.
- `App.tsx` (a timed loading gate and routing), `header.tsx` (navigation markup) and `inventory.tsx` (a modal flag and animations) have no logic beyond markup and timers. They are not part of this model.
- The merchandise card's "Book Now" link, the SEO metadata and the rest of the markup are not modelled.
- MerchCarousel.Carousel.Next and MerchCarousel.Carousel.Prev require at least one slide. With zero slides JavaScript would compute `NaN`. Both are reachable only from the controls, and the controls are rendered only when there are at least two slides.
- MerchCarousel.Carousel: the props are assumed fixed for the card's lifetime. If they changed and the slide list shrank, the index could be left past the end. That case is not modelled.
- ContactForm.ContactUs.HandleSubmit runs from start to finish in one step. Edits typed while the relay call is pending are not modelled. They would be wiped by a successful send. A second submit during the pending call is not modelled either; the disabled button prevents it.
- ContactForm.ContactUs.HandleInputChange takes one of the three field names. The page has no other input, so the source's computed key `[name]` cannot add a fourth key.
- ContactForm.ContactUs.HandleSubmit accepts any form contents, the empty form included. The inputs are marked `required` and the address input `type="email"`, so the browser runs the submit handler only on a filled form with a well-formed address. That browser validation is not modelled.
