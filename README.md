# Course catalog and lead forms of the ASPEDU site, modelled in Dafny

The site lists the institute's courses, lets visitors narrow the list by
category and by a text search, gives every course card a stable image, and
collects course bookings and contact messages through validated forms. This
project models that logic and proves its properties:

- `catalog.dfy` (module `Catalog`): the constant catalog of twelve courses, the
  category labels, lookup by id (`find`) and the category filter with the "All"
  wildcard.
- `course_card.dfy` (module `CourseCard`): the `Course` record and the image
  selection: an explicit image wins; otherwise the category's image pool (a
  one-image fallback pool for unknown categories) indexed by the sum of the
  id's character codes modulo the pool size.
- `courses_page.dfy` (module `CoursesPage`): the page's result list (category
  filter, then case-insensitive substring search over title or description),
  the singular/plural result wording, and a class `CatalogFilters` holding the
  two pieces of page state that the category pills, the search box and "Clear
  Filters" overwrite.
- `schema.dfy` (module `Schema`): a small interpreter for the declarative field
  rules both forms use (length bounds, the ten-digit pattern, the e-mail check,
  enums, optional fields, "or the empty string"), with the per-field error set.
- `booking.dfy` (module `Booking`): the booking rules, the default values, the
  record written to the booking collection, and a class `BookingForm` for the
  submission state machine (`isSubmitting`, `isSuccess`, the field values).
- `contact.dfy` (module `Contact`): the contact rules and a class `ContactForm`
  for its submission state machine.
- `seqs.dfy` (`Filter` as `Array.prototype.filter`, and "ordered subsequence"),
  `text.dfy` (ASCII lower-casing and substring containment), `wrappers.dfy`
  (`Option`).

Modelling choices:

- The e-mail format check is library behaviour the model cannot see; every
  validator takes it as a parameter `isEmail: string -> bool`.
- Form values are a map from field name to `Undefined | Text(s)`; a name not
  in the map reads as undefined. The contact form declares no default values,
  so its empty (and reset) state is the empty map.
- Each form's asynchronous submit handler is split into two atomic events:
  `Submit` (the click: validation, `isSubmitting := true`, the write issued)
  and `Settle` / `Finish` (the write's outcome, or the end of the contact
  form's delay). Between the two, the disabled button refuses further clicks.
  The write's outcome is the parameter `writeSucceeded`. A failed write
  leaves the form idle with its input intact, so the error state and the idle
  state coincide: the same input can be submitted again.
- The forms are not rendered while the confirmation panel is shown, so `Edit`
  and `Submit` require `!isSuccess`; the "Book Another Course" and "Send
  Another Message" buttons exist only on that panel, so they require
  `isSuccess`.

Behaviour of the code worth noting:

- The name rule at `src/pages/Booking.tsx:17` is `min(2)`, so a two-character
  name such as "Al" is accepted: a booking with name "Al" and phone "12345"
  fails on the phone alone (`Booking.ShortPhoneOnlyError`).
- The course rule at `src/pages/Booking.tsx:20` is `min(1)`: any non-empty
  text is accepted, whether or not it is a catalog title
  (`Booking.AnyCourseNameAccepted`).
- `reset()` after a successful booking restores the default values of
  `src/pages/Booking.tsx:41-48`, whose course is the preselected one, so the
  course field is not cleared when a course was preselected.

## Model

| member | source | states |
|---|---|---|
| `Seqs.Filter` | src/data/courses.ts:110 | what `filter` keeps: every element of the result is an input element satisfying the predicate, every satisfying input element is in the result, each satisfying value occurs as often as in the input and a failing one not at all, and the result is no longer than the input |
| `Seqs.Occurrences` | src/data/courses.ts:110 | the number of times a value occurs in a list (no contract: the reference count used by `Seqs.Filter` and `CoursesPage.Search`) |
| `Seqs.OccurrencesIsMultiplicity` | src/data/courses.ts:110 | the occurrence count equals the value's multiplicity in the list's multiset |
| `Seqs.FilterNone` | src/data/courses.ts:110 | a predicate no element satisfies leaves the empty list |
| `Seqs.FilterIsSubseq` | src/data/courses.ts:110 | filtering keeps the surviving elements in their original order (the result is an ordered subsequence) |
| `Seqs.FilterKeepsAll` | src/pages/Courses.tsx:14-16 | a predicate every element satisfies gives back the list unchanged |
| `Seqs.FilterAgrees` | src/pages/Courses.tsx:14-16 | predicates agreeing on the list's elements filter it identically |
| `Seqs.FilterNarrows` | src/pages/Courses.tsx:14-16 | a stronger predicate keeps an ordered subsequence of what a weaker one keeps |
| `Seqs.IsSubseqTransitive` | src/pages/Courses.tsx:14 | an ordered subsequence of an ordered subsequence of the catalog is one of the catalog |
| `Seqs.IsSubseqMembers` | src/pages/Courses.tsx:14 | every element of an ordered subsequence is an element of the list it was taken from |
| `Text.LowerChar` | src/pages/Courses.tsx:15-16 | 'A'..'Z' move up by 32 to 'a'..'z', every other character is unchanged, and no upper-case ASCII letter remains |
| `Text.Lower` | src/pages/Courses.tsx:15-16 | `toLowerCase` keeps the length and lowers position by position |
| `Text.LowerIdempotent` | src/pages/Courses.tsx:15-16 | lowering twice is lowering once |
| `Text.Contains` | src/pages/Courses.tsx:15-16 | `String.prototype.includes`: the needle is a prefix of the haystack or occurs in its tail (no contract: its partner is `Text.ContainsIffOccurs`) |
| `Text.ContainsIffOccurs` | src/pages/Courses.tsx:15-16 | `includes` holds exactly when the needle is a prefix of the haystack from some position |
| `Text.ContainsTransitive` | src/pages/Courses.tsx:15-16 | a substring of a substring is a substring |
| `CourseCard.ImagePool` | src/components/CourseCard.tsx:28-42 | every category, known or not, yields a non-empty pool, and a category missing from the table yields the one-image pool `basic-1.jpg` |
| `CourseCard.HasExplicitImage` | src/components/CourseCard.tsx:23 | the truthiness test of `course.image`: present and not the empty string (no contract: the definition `CourseCard.ImageSource` branches on) |
| `CourseCard.CodeSum` | src/components/CourseCard.tsx:45-47 | the `reduce` over the id's character codes, folded from the left from 0 (no contract: its properties are `CourseCard.CodeSumAppend` and `CourseCard.CodeSumPermutation`) |
| `CourseCard.ImageIndex` | src/components/CourseCard.tsx:44-48 | the hash-derived index is always a valid position in the pool |
| `CourseCard.ImageSource` | src/components/CourseCard.tsx:21-52 | a non-empty explicit image is returned verbatim; otherwise the result is `/courses/` followed by the pool entry at the id's character-code sum modulo the pool size, which is a member of the category's pool |
| `CourseCard.CodeSumAppend` | src/components/CourseCard.tsx:45-47 | the character-code sum of a concatenation is the sum of the parts |
| `CourseCard.CodeSumRemove` | src/components/CourseCard.tsx:45-47 | taking one character out of an id lowers its hash by that character's code |
| `CourseCard.CodeSumPermutation` | src/components/CourseCard.tsx:45-47 | ids with the same characters in any order have the same hash |
| `CourseCard.SameImageForAnagramIds` | src/components/CourseCard.tsx:45-50 | two courses of one category without explicit images whose ids are rearrangements of each other get the same image |
| `CourseCard.ImageDependsOnIdAndCategory` | src/components/CourseCard.tsx:41-50 | without an explicit image, courses equal in id and category get the same image whatever their other fields |
| `CourseCard.UnknownCategoryFallsBack` | src/components/CourseCard.tsx:42-50 | a category missing from the table always yields `/courses/basic-1.jpg` |
| `CourseCard.AccountingSingleImage` | src/components/CourseCard.tsx:37 | every Accounting course without an explicit image shows `/courses/accounting-1.jpg` |
| `CourseCard.DiplomaSharesBasicPool` | src/components/CourseCard.tsx:36-38 | Diploma and Basic share one pool, so equal ids give equal images across the two |
| `CourseCard.ProgrammingImagesSpread` | src/components/CourseCard.tsx:30-50 | two Programming courses without explicit images, with ids "python" and "java", show different images: programming-3.jpg and programming-2.jpg |
| `CourseCard.PythonImage` | src/components/CourseCard.tsx:30-50 | a Programming course with id "python" and no explicit image shows `/courses/programming-3.jpg` (674 mod 3 = 2) |
| `CourseCard.JavaImage` | src/components/CourseCard.tsx:30-50 | a Programming course with id "java" and no explicit image shows `/courses/programming-2.jpg` (418 mod 3 = 1) |
| `Catalog.FindById` | src/data/courses.ts:104-106 | `find` returns the first course with the id, and nothing exactly when no course has it |
| `Catalog.CourseById` | src/data/courses.ts:104-106 | `getCourseById` returns a catalog course with that id, and undefined exactly when no catalog course has it |
| `Catalog.FindByIdDistinct` | src/data/courses.ts:104-106 | in a list with distinct ids, looking up an element's id returns that element |
| `Catalog.CourseByIdFindsEach` | src/data/courses.ts:3-106 | every catalog course is found by its own id |
| `Catalog.InCategory` | src/data/courses.ts:110 | the filter callback `course => course.category === category`, an exact comparison (no contract: `Catalog.CoursesByCategory` is specified in terms of it) |
| `Catalog.CoursesByCategory` | src/data/courses.ts:108-111 | "All" returns the catalog unchanged; any other category returns an ordered subsequence of the catalog holding exactly the courses of that category |
| `Catalog.UnusedCategoryIsEmpty` | src/data/courses.ts:108-111 | a category no course carries (other than "All") yields the empty list |
| `Catalog.CoursesByCategoryIsSubseq` | src/data/courses.ts:108-111 | for every category, including "All", the result is an ordered subsequence of the catalog |
| `Catalog.CatalogIdsDistinct` | src/data/courses.ts:3-100 | no two catalog courses share an id |
| `Catalog.CatalogCategoriesListed` | src/data/courses.ts:3-102 | every course's category is one of the listed labels, is not "All", and has an image pool |
| `Catalog.DcaImage` | src/components/CourseCard.tsx:38-50 | the "dca" Diploma course always shows `/courses/basic-1.jpg` |
| `CoursesPage.Matches` | src/pages/Courses.tsx:15-16 | the search test: the lowered query occurs in the lowered title or in the lowered description (no contract: `CoursesPage.Search` and `CoursesPage.FilteredCourses` are specified in terms of it) |
| `CoursesPage.Search` | src/pages/Courses.tsx:14-17 | the text search keeps, in order, exactly the courses whose lowered title or description contains the lowered query, each matching course as often as it occurs in the input |
| `CoursesPage.FilteredCourses` | src/pages/Courses.tsx:14-17 | the page result is an ordered subsequence of the selected category's courses, kept iff they match the query |
| `CoursesPage.FilteredWithinCatalog` | src/pages/Courses.tsx:14 | the page result is always an ordered subsequence of the whole catalog, so every course it shows is a catalog course |
| `CoursesPage.EmptyQueryKeepsCategory` | src/pages/Courses.tsx:14-16 | the empty query keeps every course of the selected category |
| `CoursesPage.CaseInsensitive` | src/pages/Courses.tsx:15-16 | queries equal after lowering give identical results |
| `CoursesPage.NarrowingQuery` | src/pages/Courses.tsx:15-16 | when the lowered query q occurs in the lowered query q', the results for q' are an ordered subsequence of those for q |
| `CoursesPage.ClearedFiltersShowCatalog` | src/pages/Courses.tsx:93-96 | the state ("All", "") shows the entire catalog in order |
| `CoursesPage.ResultNoun` | src/pages/Courses.tsx:79 | the count is followed by "courses" unless it is exactly one, then by "course" |
| `CoursesPage.CatalogFilters.constructor` | src/pages/Courses.tsx:11-12 | the page starts on "All" with an empty search |
| `CoursesPage.CatalogFilters.Shown` | src/pages/Courses.tsx:14-17 | the grid shows exactly the page result for the current category and query, hence an ordered subsequence of the catalog whose every course matches the query |
| `CoursesPage.CatalogFilters.SelectCategory` | src/pages/Courses.tsx:58 | a pill click replaces the category and keeps the query |
| `CoursesPage.CatalogFilters.SetSearchQuery` | src/pages/Courses.tsx:48 | typing replaces the query and keeps the category |
| `CoursesPage.CatalogFilters.ClearFilters` | src/pages/Courses.tsx:87-101 | "Clear Filters", offered only while no course is shown, restores ("All", "") and the grid then shows the whole catalog |
| `Schema.IsTenDigits` | src/pages/Booking.tsx:18 | the pattern `/^[0-9]{10}$/`: exactly ten characters, each '0' to '9' (no contract: its partners are `Booking.BookingFieldRules` and `Contact.ContactFieldRules`) |
| `Schema.Holds` | src/pages/Booking.tsx:17-19 | whether a string passes one refinement: `.min`, `.max`, the ten-digit `.regex` or the e-mail check (no contract: its partners are `Booking.BookingFieldRules` and `Contact.ContactFieldRules`) |
| `Schema.Accepts` | src/pages/Booking.tsx:16-23 | whether one field rule accepts a value: a string passing all its refinements, an enum member, `undefined` for an optional rule, or the literal of an `.or(z.literal(...))` (no contract: its plain-terms readings are `Schema.AcceptsOneCheck`, `Schema.AcceptsTwoChecks` and the field-rule lemmas) |
| `Schema.Passes` | src/pages/Booking.tsx:16-23 | the object check: every field of the schema accepts its value (no contract: its partner is `Schema.PassesIffNoErrors`) |
| `Schema.Errors` | src/pages/Booking.tsx:16-23 | the error set holds exactly the schema fields whose rule rejects their value, all of them at once |
| `Schema.PassesIffNoErrors` | src/pages/Booking.tsx:16-23 | a form object is accepted exactly when its error set is empty |
| `Schema.ExtraFieldsIgnored` | src/pages/Booking.tsx:16-23 | values of fields outside the schema do not affect the verdict |
| `Schema.AcceptsOneCheck` | src/pages/Booking.tsx:18 | a one-refinement string rule accepts exactly the strings that pass the refinement |
| `Schema.AcceptsTwoChecks` | src/pages/Booking.tsx:17 | a two-refinement string rule accepts exactly the strings that pass both |
| `Booking.BookingFieldRules` | src/pages/Booking.tsx:17-22 | name length 2 to 100; phone exactly ten digits; e-mail format and at most 255; course non-empty; mode "online" or "offline" (undefined rejected); message absent or at most 500 |
| `Booking.BookingPassesIff` | src/pages/Booking.tsx:16-23 | a booking is accepted exactly when all six field rules hold |
| `Booking.Defaults` | src/pages/Booking.tsx:41-48 | the default values hold exactly the six schema fields (the values themselves are checked by `Booking.UntouchedFormRejected`) |
| `Booking.UntouchedFormRejected` | src/pages/Booking.tsx:41-48 | the default values always fail on name, phone and mode, fail on the course exactly when none was preselected, and never on the message |
| `Booking.ShortPhoneOnlyError` | src/pages/Booking.tsx:17-18 | name "Al", phone "12345", a valid e-mail, a course and mode "online" fail on the phone alone |
| `Booking.AnyCourseNameAccepted` | src/pages/Booking.tsx:20 | any non-empty course text is accepted, catalog title or not |
| `Booking.ToRecord` | src/pages/Booking.tsx:61-69 | the written record copies name, phone, e-mail, course and mode verbatim, turns an absent message into "", is tagged "Website", and itself satisfies every booking rule |
| `Booking.BookingForm.constructor` | src/pages/Booking.tsx:28-49 | a new form holds the default values, is neither submitting nor confirmed, has no write in flight and nothing written |
| `Booking.BookingForm.Edit` | src/pages/Booking.tsx:169-271 | input replaces one field's value and nothing else |
| `Booking.BookingForm.Submit` | src/pages/Booking.tsx:57-70 | while submitting the click is refused and nothing changes; an invalid form reports all its errors and nothing changes; a valid one starts submitting with exactly its record in flight |
| `Booking.BookingForm.Settle` | src/pages/Booking.tsx:72-80 | the submission ends; on success the record is stored, the confirmation is shown and the fields return to the defaults; on failure the fields, the store and the confirmation flag are unchanged |
| `Booking.BookingForm.BookAnother` | src/pages/Booking.tsx:121-124 | "Book Another Course" hides the confirmation and restores the default values |
| `Booking.RetryAfterFailure` | src/pages/Booking.tsx:57-80 | a valid booking submitted, clicked again while pending (refused), failed, resubmitted unchanged and then written ends confirmed, not submitting, with exactly the record of the entered values stored and the defaults restored |
| `Contact.ContactFieldRules` | src/pages/Contact.tsx:12-16 | name length 2 to 100; e-mail format and at most 255; phone absent, empty or exactly ten digits; subject 3 to 200; message 10 to 1000 |
| `Contact.ContactPassesIff` | src/pages/Contact.tsx:11-17 | a message is accepted exactly when all five field rules hold |
| `Contact.EmptyForm` | src/pages/Contact.tsx:25-32 | the form without default values: every field reads as undefined |
| `Contact.EmptyFormErrors` | src/pages/Contact.tsx:25-32 | the empty form fails on exactly name, e-mail, subject and message |
| `Contact.ContactForm.constructor` | src/pages/Contact.tsx:21-32 | a new form is empty, neither submitting nor confirmed |
| `Contact.ContactForm.Edit` | src/pages/Contact.tsx:168-236 | input replaces one field's value and nothing else |
| `Contact.ContactForm.Submit` | src/pages/Contact.tsx:34-35 | while submitting the click is refused; an invalid form reports all its errors; a valid one starts submitting |
| `Contact.ContactForm.Finish` | src/pages/Contact.tsx:38-44 | the send always ends with not submitting, the confirmation shown and every field emptied |
| `Contact.ContactForm.SendAnother` | src/pages/Contact.tsx:151 | "Send Another Message" only hides the confirmation; the fields stay as they are |
| `Contact.SendTwice` | src/pages/Contact.tsx:34-44 | a valid message submitted, clicked again while sending (refused), finished and followed by "Send Another Message" leaves an idle, emptied form; submitting that form is rejected on exactly name, e-mail, subject and message |

## Left out

- Page layout, styling, animation, icons, routing and the static pages: no logic.
- The course detail page only renders the result of `getCourseById`, and it is not part of this model. Its "Book This Course" link passes the course title, URL-encoded, as the booking page's `course` query parameter (the form's `preselectedCourse`); the encoding is a foreign call and is not modelled.
- The image `onError` fallback replaces the image in the DOM; it is a rendering side effect, not part of image selection.
- `categoryImages` is a plain JavaScript object, so a category named like an inherited property (for example "constructor") would be found on the prototype; the model treats every name outside the six keys as unknown. No catalog category is such a name.
- Character codes: JavaScript's `charCodeAt` and `length` count UTF-16 code units and `toLowerCase` is Unicode-aware; the model uses Unicode scalar values, ASCII lower-casing and sequence length. They agree on the ASCII text of the catalog. They can disagree on the user's query: a query letter outside ASCII whose JavaScript lower case is ASCII, such as the Kelvin sign U+212A (lowered to "k"), matches on the page but not in the model.
- The hash is a JavaScript number, exact up to 2^53; the model uses unbounded integers.
- The e-mail format check of the validation library is a parameter (`isEmail`), not a definition.
- The document store: the write is modelled only by its success or failure (`Settle`'s `writeSucceeded`); the collection name and the server timestamp are not modelled.
- Toast notifications, console logging and the contact form's 1.5-second delay.
- The preselected course comes from the page's query string; the model takes it as a constructor argument, and the effect that copies it into the field again is not modelled (it writes the value the defaults already hold).
- The form library's mechanics (registration, resolver, re-renders) beyond "the handler runs only when the schema accepts the values"; each event is one atomic step.
- The validation library's per-field messages: the model reports which fields fail, not the message text.
