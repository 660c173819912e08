# Scroll reveal, parallax, particles and booking form: a Dafny model

This project models the small pieces of logic inside the components of a
single-page tourism site. Everything else on the page is markup.

- **PlaceCard** (`place_card.dfy`): each card shifts its image by a parallax
  offset. On every scroll, and once when it mounts, the card takes the
  distance from its vertical centre to the viewport's, damps it by 0.15 and
  clamps it to [-30, 30] px. This is the class `PlaceCard.Card`, whose
  `parallaxOffset` field starts at 0. The card also picks a reveal class from
  its visibility and the last scroll direction.
- **Footer** and **Header** (`footer.dfy`, `header.dfy`): each picks its own
  reveal class. The footer's rule is the same as a card's. The header reads
  only the visibility flag and slides in from a shorter distance.
- **Particles** (`particles.dfy`): the decorative background generates one
  batch of particles when it mounts. A viewport narrower than 768 px gets 20
  particles; a wider one gets 35. Each particle's six attributes are affine
  images of six consecutive random draws, taken in the order x, y, size,
  duration, delay, opacity.
- **BookingModal** (`booking_modal.dfy`): the booking form has four string
  fields, an error map and a submitted flag. Submitting checks the fields
  against the booking schema:
  - name, e-mail and phone are trimmed before their checks;
  - every check of a field runs, even after an earlier check of that field failed;
  - the submit handler folds the issues into a field-to-message map, so a
    field's last message wins.
  
  On success the errors are cleared and the form latches into its submitted
  state. Closing resets everything. Each input's change handler rewrites only
  its own field.
- `scroll_animation.dfy` holds what the three reveal rules share: the scroll
  direction the visibility hook reports (`none`, `up`, `down`), the revealed
  class list, and a substring predicate.

The visibility hook (`@/hooks/useScrollAnimation`) is not part of this model.
Its two outputs, `isVisible` and `scrollDirection`, are parameters. Browser
reads are parameters too: the bounding box, `innerHeight` and `innerWidth`.
`Math.random` is replaced by a sequence of draws in [0, 1). The e-mail format
check is the function parameter `isEmail`, applied to the trimmed e-mail.

## Model

| member | source | states |
|---|---|---|
| `PlaceCard.RawOffset` | src/components/PlaceCard.tsx:21-22 | The damped centre-to-centre distance is positive exactly when the element's centre is above the window's, and zero exactly when the two centres coincide. `ClampedOffset` and the lemmas below carry the clamping. |
| `PlaceCard.ClampedOffset` | src/components/PlaceCard.tsx:21-23 | The offset is always within [-30, 30]. It equals the damped distance `(innerHeight/2 - (top + height/2)) * 0.15` whenever that lies in the range. It is 30 when that value is at least 30 and -30 when it is at most -30. |
| `PlaceCard.CentredElementHasZeroOffset` | src/components/PlaceCard.tsx:21-22 | An element whose centre is at half the window height gets offset 0. |
| `PlaceCard.OffsetNonIncreasingInTop` | src/components/PlaceCard.tsx:21-23 | For a fixed height and window, a larger `rect.top` never gives a larger offset. |
| `PlaceCard.FarBelowCentreSaturates` | src/components/PlaceCard.tsx:21-23 | An element whose centre is 10,000 px below the window's centre gets -30. |
| `PlaceCard.Card.constructor` | src/components/PlaceCard.tsx:14 | The offset cell starts at 0, inside the clamping range. |
| `PlaceCard.Card.HandleScroll` | src/components/PlaceCard.tsx:17-25 | With an attached element, the stored offset becomes the clamped offset of its bounding box. Without one, the offset is unchanged, so it stays at its initial 0. The range [-30, 30] is kept as an invariant. |
| `PlaceCard.AnimationClass` | src/components/PlaceCard.tsx:32-42 | Visible gives `opacity-100 translate-y-0` whatever the direction. Hidden gives `opacity-0 -translate-y-16` for `down` and `opacity-0 translate-y-16` for `up` and `none`. |
| `PlaceCard.HiddenIffNotVisible` | src/components/PlaceCard.tsx:32-42 | The class list contains `opacity-0` if and only if the card is not visible. |
| `ScrollAnimation.RevealedIsNotHidden` | src/components/PlaceCard.tsx:41 | The revealed class list `opacity-100 translate-y-0` does not contain `opacity-0`. |
| `Footer.AnimationClass` | src/components/Footer.tsx:11-21 | Visible gives `opacity-100 translate-y-0`. Hidden gives `opacity-0 translate-y-16` for `up`, `opacity-0 -translate-y-16` for `down`, and `opacity-0 translate-y-16` for `none`. |
| `Footer.AgreesWithPlaceCard` | src/components/Footer.tsx:11-21 | For every visibility and direction, the footer's class equals a card's class. |
| `Footer.HiddenIffNotVisible` | src/components/Footer.tsx:12-20 | The footer's class list contains `opacity-0` if and only if the footer is not visible. |
| `Header.AnimationClass` | src/components/Header.tsx:7-12 | Visible gives `opacity-100 translate-y-0`; hidden gives `opacity-0 translate-y-8`. The function takes no direction, because the header reads only `isVisible` from the hook. |
| `Header.VisibleClassShared` | src/components/Header.tsx:11 | The header's visible class is the visible class of a card and of the footer, for every direction. |
| `Header.HiddenClassDiffers` | src/components/Header.tsx:8-9 | The header's hidden class differs from a card's hidden class for every direction. |
| `Header.HiddenIffNotVisible` | src/components/Header.tsx:7-12 | The header's class list contains `opacity-0` if and only if the header is not visible. |
| `Particles.BatchSize` | src/components/Particles.tsx:19 | The batch size is 20 or 35. It is 20 exactly when the viewport width is below 768. |
| `Particles.BatchSizeBoundary` | src/components/Particles.tsx:19 | Width 767 gives 20 particles and width 768 gives 35. |
| `Particles.MakeParticle` | src/components/Particles.tsx:22-30 | The particle carries the given id. With draws in [0, 1), its fields satisfy `0 ≤ x < 100`, `0 ≤ y < 100`, `2 ≤ size < 6`, `6 ≤ duration < 14`, `0 ≤ delay < 5` and `0.2 ≤ opacity < 0.8`. |
| `Particles.DrawsOf` | src/components/Particles.tsx:22-30 | Particle i uses the six consecutive draws starting at position 6·i. |
| `Particles.Batch` | src/components/Particles.tsx:17-33 | The batch for a width and a draw sequence has `BatchSize(width)` particles, and particle i has id i. By its definition particle i is `MakeParticle` of draws 6·i to 6·i+5 (`DrawsOf`); `BatchShape` adds the field ranges. |
| `Particles.BatchShape` | src/components/Particles.tsx:18-33 | A batch has exactly the chosen number of particles, and particle i has id i. With draws in [0, 1), every particle's fields lie in their ranges. |
| `Particles.BatchIdsUnique` | src/components/Particles.tsx:21-23 | Two different positions in a batch hold different ids. |
| `Particles.GenerateParticles` | src/components/Particles.tsx:17-33 | The loop's result is the batch for the given width and draws. It has `BatchSize(width)` particles, ids 0, 1, 2, … in order, and with draws in [0, 1) every field in range. |
| `Particles.ParticleField.constructor` | src/components/Particles.tsx:14 | Before generation the particle list is empty. |
| `Particles.ParticleField.Mount` | src/components/Particles.tsx:16-36 | The mount effect replaces the particle list with the generated batch. |
| `BookingModal.TourId` | src/components/BookingModal.tsx:17-21 | A tour's radio value is `weekend`, `week` or `premium`, and it is never empty. |
| `BookingModal.SelectedTourPassesCheck` | src/components/BookingModal.tsx:14 | Whatever else the form holds, a selected tour raises no issue for `tourType`. |
| `BookingModal.TrimStart` | src/components/BookingModal.tsx:11-13 | Removing leading white space never lengthens a string. `TrimStartDropsLeadingBlank` states exactly what is removed. |
| `BookingModal.TrimEnd` | src/components/BookingModal.tsx:11-13 | Removing trailing white space never lengthens a string. `TrimEndDropsTrailingBlank` states exactly what is removed. |
| `BookingModal.Trim` | src/components/BookingModal.tsx:11-13 | The `.trim()` step of the schema never lengthens a string. `TrimIsInfix` characterises its result: the input without its leading and trailing white-space runs. |
| `BookingModal.TrimIsInfix` | src/components/BookingModal.tsx:11-13 | The trimmed string is a contiguous piece `s[i..j]` of the input, and everything before `i` and from `j` on is white space. Together with `TrimmedHasNoBlankEnds` this pins down exactly which characters `.trim()` removes. |
| `BookingModal.TrimStartDropsLeadingBlank` | src/components/BookingModal.tsx:11-13 | Trimming the front removes a run of white space and nothing else. The result is a suffix of the input and does not start with white space. |
| `BookingModal.TrimEndDropsTrailingBlank` | src/components/BookingModal.tsx:11-13 | Trimming the back removes a run of white space and nothing else. The result is a prefix of the input and does not end with white space. |
| `BookingModal.TrimmedHasNoBlankEnds` | src/components/BookingModal.tsx:11-13 | A trimmed string is no longer than its input and neither starts nor ends with white space. |
| `BookingModal.TrimEmptyIffBlank` | src/components/BookingModal.tsx:11-13 | A string trims to the empty string if and only if it is all white space. |
| `BookingModal.Check` | src/components/BookingModal.tsx:10-15 | One schema check yields no issue when it passes, and one issue for its field and message when it fails. |
| `BookingModal.FieldIssues` | src/components/BookingModal.tsx:10-15 | Every issue the schema reports for a field is about that field. |
| `BookingModal.Issues` | src/components/BookingModal.tsx:10-15 | The issue list of `safeParse` is empty if and only if four conditions hold: the trimmed name has 1..100 characters; the trimmed e-mail is well-formed and at most 255 long; the trimmed phone has 10..20 characters; `tourType` is non-empty. |
| `BookingModal.BlankNameOrPhoneRejected` | src/components/BookingModal.tsx:11-13 | A name or phone of white space only is rejected, because trimming comes before the length checks. Its error is the "missing" message. |
| `BookingModal.ErrorMap` | src/components/BookingModal.tsx:47-52 | In the map the submit handler folds from a non-empty issue list, the last issue's field maps to the last issue's message. `ErrorMapKeys`, `ErrorMapLastWins` and `ErrorMapSkipsOtherFields` give the rest. |
| `BookingModal.ErrorMapSkipsOtherFields` | src/components/BookingModal.tsx:48-51 | Folding further issues that are all about other fields keeps a field's key and leaves its message as it was. |
| `BookingModal.ErrorMapKeys` | src/components/BookingModal.tsx:47-52 | The error map has a key for exactly the fields that some issue is about. |
| `BookingModal.ErrorMapLastWins` | src/components/BookingModal.tsx:48-51 | A field's message in the error map is the message of its last issue, because later assignments overwrite earlier ones. |
| `BookingModal.ErrorKeysAreFailingFields` | src/components/BookingModal.tsx:45-54 | After parsing, a field is a key of the error map if and only if at least one of its checks failed. |
| `BookingModal.FieldMessageIsLastIssue` | src/components/BookingModal.tsx:45-54 | A failing field's message is the message of its last failed check. |
| `BookingModal.LongMalformedEmailShowsLengthMessage` | src/components/BookingModal.tsx:12 | An e-mail that is both malformed and longer than 255 shows `Email слишком длинный`, the later of its two messages. |
| `BookingModal.CollectFieldErrors` | src/components/BookingModal.tsx:47-52 | The `forEach` loop builds exactly the error map of the issue list. |
| `BookingModal.BookingForm.constructor` | src/components/BookingModal.tsx:31-38 | The form starts blank, with no errors and not submitted. |
| `BookingModal.BookingForm.HandleSubmit` | src/components/BookingModal.tsx:42-59 | The form data never changes. If the schema accepts, errors become empty and `isSubmitted` becomes true. If it rejects, errors become the non-empty error map of the issues, and `isSubmitted` keeps its value (false whenever the form is on screen). |
| `BookingModal.BookingForm.HandleClose` | src/components/BookingModal.tsx:61-66 | From any state, all four fields become "", errors become empty and `isSubmitted` becomes false. The result does not depend on the old state, so closing twice is the same as closing once. |
| `BookingModal.BookingForm.ChangeName` | src/components/BookingModal.tsx:171 | Only `name` changes; the other fields, the errors and the flag keep their values. |
| `BookingModal.BookingForm.ChangeEmail` | src/components/BookingModal.tsx:186 | Only `email` changes; the other fields, the errors and the flag keep their values. |
| `BookingModal.BookingForm.ChangePhone` | src/components/BookingModal.tsx:201 | Only `phone` changes; the other fields, the errors and the flag keep their values. |
| `BookingModal.BookingForm.SelectTour` | src/components/BookingModal.tsx:138-140 | Only `tourType` changes, and it becomes the chosen tour's id: `weekend`, `week` or `premium`. |

## Left out

- The `useScrollAnimation` hook: its source is not part of this model. `isVisible` and `scrollDirection` are inputs; how the hook observes intersections and infers direction is not modelled.
- Browser and React plumbing:
  - adding and removing the scroll listener, and its passive option;
  - effect mount and cleanup order, and `useState` update scheduling;
  - the `getBoundingClientRect`, `innerHeight` and `innerWidth` reads, which become parameters.

  The eager `handleScroll()` call at mount is one more `Card.HandleScroll` call.
- `Math.random`: replaced by an injected sequence of draws; its distribution is not modelled. `GenerateParticles` requires at least six draws per particle.
- Floating point: the parallax and particle arithmetic is over exact reals, so IEEE-754 rounding and NaN are not modelled.
- zod: its internals and its e-mail regular expression are left out. The e-mail format check is the parameter `isEmail`. The schema's `min`/`max` count UTF-16 code units; the model counts `char`s.
- The inputs' `maxLength` attributes are not modelled. They cap typed name, e-mail and phone at 100, 255 and 20 UTF-16 code units (src/components/BookingModal.tsx:173, 188, 203). `ChangeName`, `ChangeEmail` and `ChangePhone` accept any string. So the three "too long" messages, including the case `LongMalformedEmailShowsLengthMessage` describes, cannot come from typing on the page; the schema still defines them.
- The whitespace set of JavaScript's `trim` is written out as the ECMAScript white-space and line-terminator characters.
- The issue path check in the submit handler (`err.path[0]` truthy) always holds for this schema, whose issue paths are the non-empty field names. It is therefore not a branch of the model.
- The parent's `onClose` callback, which the close handler calls last, is outside this component and not modelled. So is the `isOpen` prop that hides the modal.
- All JSX markup, CSS strings beyond the reveal classes, icons and inline styles are left out, including the particle style templates. `src/components/PlaceDetailModal.tsx` is presentational and not modelled.
