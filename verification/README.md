# Property Management Gibraltar site: form and SEO core

A Dafny model of the logic inside the marketing site for a Gibraltar
property-management business, with the React rendering and HTTP plumbing
taken away. Three pieces remain:

- **Quote wizard** (`QuoteCalculator.tsx`). A three-step form: property
  details, then services, then contact details. Its state is the step
  shown (1..3), the submission status (`idle`, `sending`, `success`,
  `error`) and the form record. Continue is guarded. Back is always
  allowed. A toggle edits the list of wanted services. A submit builds one
  request body with the number of properties coerced to an integer and an
  empty rent sent as `null`.
- **Contact form** (`ContactForm.tsx`). A one-step lead form with the same
  four statuses. A successful send clears the form. A failed send keeps it.
  "Send another" returns from the success view to `idle`.
- **SEO helpers** (`seo.ts`). The canonical URL of a page, and the
  schema.org JSON-LD documents for services, breadcrumbs, FAQ pages and
  articles. These are built as JSON value trees, not as text.

The awaited POST of each form is split into two events. `Submit` moves
the status to `sending` and yields the request body. `Respond(Ok | NotOk |
Exception)` later reports how the request settled. Every UI control is an
event. An event whose control the current view does not render leaves the
state unchanged. For example, service toggles exist only on step 2, and the
success views render no form controls.

Modules, one per file:

| file | module | models |
|---|---|---|
| wrappers.dfy | `Wrappers` | `Option` |
| seqs.dfy | `Seqs` | `Distinct`, `AllIn` |
| json.dfy | `Json` | JSON values; an object keeps its key order and its key/value map |
| parse_int.dfy | `ParseInt` | the decimal reading of `parseInt` |
| submission.dfy | `Submission` | the status, the response, the `site` tag |
| quote_form.dfy | `QuoteForm` | the wizard's form, `toggleService`, the request body |
| quote_wizard.dfy | `QuoteWizard` | the wizard's state machine and its reachable-state invariant |
| contact.dfy | `Contact` | the contact form's state machine, reset and request body |
| seo.dfy | `Seo` | `getCanonical` and the JSON-LD builders |

Two behaviours of the code are worth stating plainly:

- The number of properties is not clamped. The code applies only
  `parseInt(..) || 1`. The `min="1"` and `max="50"` attributes sit on an
  input of step 1, which is no longer mounted when step 3 submits. They
  bound the input's spinner, but nothing validates or clamps the value that
  is sent. `-3` and `75` reach the request unchanged, as
  `QuoteForm.NumPropertiesExamples` shows.
- The contact form resets its fields when the response is 2xx
  (src/components/ContactForm.tsx line 14). "Send another" changes only the
  status.

The contact form's record has a `phone` field, but the form renders no
phone input. So the phone is always sent empty, and `Contact.Reachable`
proves it.

## Model

| member | source | states |
|---|---|---|
| ParseInt.Parse | src/components/QuoteCalculator.tsx:32 | `parseInt` is NaN exactly when no digit follows the optional sign; a leading `-` gives a non-positive result, anything else a non-negative one |
| ParseInt.DigitsValue | src/components/QuoteCalculator.tsx:32 | the value of a digit string, most significant digit first; n digits denote less than 10^n |
| ParseInt.DigitsValueConcat | src/components/QuoteCalculator.tsx:32 | reading `a + b` gives the value of `a` shifted left by the length of `b`, plus the value of `b` |
| ParseInt.DigitsValueZeros | src/components/QuoteCalculator.tsx:32 | a run of '0's reads as zero |
| ParseInt.ParseLeadingZeros | src/components/QuoteCalculator.tsx:32 | leading zeros do not change the parse: `"007"` reads as 7, unsigned, after `-` or after `+`, with any suffix that does not start with a digit |
| ParseInt.DigitsValueZerosThenDecimal | src/components/QuoteCalculator.tsx:32 | the decimal digits of n after any run of '0's still read as n |
| ParseInt.ParseDigits | src/components/QuoteCalculator.tsx:32 | the unsigned digit run of `parseInt`: NaN exactly when the text does not start with a digit |
| ParseInt.ParseDigitsThen | src/components/QuoteCalculator.tsx:32 | a non-empty digit string followed by a non-digit reads as exactly those digits; the suffix is ignored |
| ParseInt.ParseSigned | src/components/QuoteCalculator.tsx:32 | a leading `-` negates what the digits read and a leading `+` leaves it unchanged |
| ParseInt.DigitRun | src/components/QuoteCalculator.tsx:32 | the digits read are the longest all-digit prefix: the run stops at the end or at a non-digit |
| ParseInt.ParseDecimal | src/components/QuoteCalculator.tsx:32 | `parseInt` reads back the decimal spelling of any n, signed or not, ignoring a suffix that does not start with a digit |
| ParseInt.DigitsValueOfDecimal | src/components/QuoteCalculator.tsx:32 | the digit value of the decimal spelling of n is n |
| QuoteForm.Toggle | src/components/QuoteCalculator.tsx:17-23 | after a toggle `s` is present iff it was absent; an absent `s` is appended at the end; every other entry keeps its count and, with `s` filtered out, the list is unchanged (relative order kept) |
| QuoteForm.Without | src/components/QuoteCalculator.tsx:21 | the filter keeps exactly the members other than `s` and never grows the list |
| QuoteForm.WithoutConcat | src/components/QuoteCalculator.tsx:21 | filtering commutes with concatenation, so surviving entries keep their relative order |
| QuoteForm.WithoutCounts | src/components/QuoteCalculator.tsx:21 | filtering removes every occurrence of `s` and keeps every occurrence of anything else |
| QuoteForm.WithoutAbsent | src/components/QuoteCalculator.tsx:21 | filtering out an absent value returns the list unchanged |
| QuoteForm.WithoutDistinct | src/components/QuoteCalculator.tsx:21 | filtering a duplicate-free list gives a duplicate-free list |
| QuoteForm.ToggleKeepsDistinct | src/components/QuoteCalculator.tsx:20-21 | a duplicate-free service list stays duplicate-free after a toggle |
| QuoteForm.ToggleTwiceAbsent | src/components/QuoteCalculator.tsx:17-23 | toggling an absent service twice restores exactly the original list |
| QuoteForm.ToggleTwicePresent | src/components/QuoteCalculator.tsx:17-23 | toggling a present service twice keeps the same members, is a permutation when there were no duplicates, and moves `s` to the end |
| QuoteForm.DistinctCount | src/components/QuoteCalculator.tsx:20-21 | in a duplicate-free list every member occurs exactly once |
| QuoteForm.NumProperties | src/components/QuoteCalculator.tsx:32 | the sent count is never 0: it is the parsed integer when that is a nonzero number, and 1 otherwise |
| QuoteForm.NumPropertiesExamples | src/components/QuoteCalculator.tsx:32 | `"abc"`, `""` and `"0"` give 1; `"12abc"` gives 12; `"-3"` and `"75"` pass through unclamped |
| QuoteForm.EstimatedRent | src/components/QuoteCalculator.tsx:33 | the rent is `null` exactly when its text is empty, otherwise the float parsed from that text |
| QuoteForm.Payload | src/components/QuoteCalculator.tsx:31-35 | the body has the form's keys in spread order plus `site`; `services_needed` passes through; `num_properties` and `estimated_rent` are the coerced values |
| QuoteForm.PayloadPassesThrough | src/components/QuoteCalculator.tsx:31-32 | every text field of the form reaches the body unchanged under its own key |
| QuoteForm.PayloadWellFormed | src/components/QuoteCalculator.tsx:31-35 | the body names each of its keys exactly once |
| QuoteWizard.Edit | src/components/QuoteCalculator.tsx:74-148 | each control sets its own field to the value it carries, and only on the step that renders it; an edit keeps step and status; step 1 edits only type, count, area and rent, step 2 only services and situation, step 3 only name, email, phone and message; selections take only offered values; services change only by toggling an offered service |
| QuoteWizard.Next | src/components/QuoteCalculator.tsx:25-152 | success is a no-op; a request is sent iff a submit on step 3 with status idle or error, carrying the form's body and moving to `sending`; only Continue or Back move the step, by one; only a submit or a settled request changes the status; an edit changes only the form |
| QuoteWizard.StartInvariant | src/components/QuoteCalculator.tsx:10-15 | the wizard starts on step 1, idle, with no services and `num_properties` "1", and satisfies the invariant |
| QuoteWizard.NextKeepsInvariant | src/components/QuoteCalculator.tsx:68-157 | every event preserves the invariant: property type empty or offered, chosen past step 1, a service chosen on step 3, services duplicate-free and offered |
| QuoteWizard.RunKeepsInvariant | src/components/QuoteCalculator.tsx:68-157 | any sequence of events preserves the invariant |
| QuoteWizard.Reachable | src/components/QuoteCalculator.tsx:5-15 | every state reachable from the start satisfies the invariant (step >= 2 implies an offered property type; step 3 implies a non-empty service list) |
| QuoteWizard.ContinueGuard | src/components/QuoteCalculator.tsx:98-131 | Continue moves 1 to 2 iff a property type is set and 2 to 3 iff a service is chosen; a blocked Continue changes nothing and Continue never edits the form |
| QuoteWizard.BackAlwaysAllowed | src/components/QuoteCalculator.tsx:129-151 | Back from steps 2 and 3 always goes back one step and keeps status and form |
| QuoteWizard.SubmitSends | src/components/QuoteCalculator.tsx:25-36 | a submit sends a request iff on step 3 with status idle or error; it moves to `sending` with the current form's body; while sending it does nothing |
| QuoteWizard.OnlySubmitSends | src/components/QuoteCalculator.tsx:25-28 | no event other than a submit sends a request |
| QuoteWizard.RespondSettles | src/components/QuoteCalculator.tsx:37-38 | a 2xx response moves `sending` to `success`, any failure to `error`, with step and form kept |
| QuoteWizard.SuccessIsTerminal | src/components/QuoteCalculator.tsx:41-49 | from `success` no event changes the state or sends a request |
| QuoteWizard.SentRequestValid | src/components/QuoteCalculator.tsx:31-35 | every request sent from a reachable state carries the current form with an offered property type and a non-empty, duplicate-free service list |
| QuoteWizard.SelectThenContinue | src/components/QuoteCalculator.tsx:74-98 | on step 1 with no type chosen Continue is blocked; choosing any offered type and then Continue shows step 2 with that type kept and nothing else changed |
| QuoteWizard.ServicesGate | src/components/QuoteCalculator.tsx:130 | on step 2 with nothing chosen Continue is blocked; one toggle unblocks it and toggling back re-blocks it |
| Submission.Settle | src/components/QuoteCalculator.tsx:37-38 | only a 2xx response gives `success`; a non-2xx response and a transport failure both give `error` |
| Contact.Edit | src/components/ContactForm.tsx:29-39 | each control sets its own field (name, email, enquiry type, message) to the typed or chosen value and changes no other; the phone is never edited; the enquiry type takes only an offered value |
| Contact.Next | src/components/ContactForm.tsx:6-41 | a request is sent iff a submit with status idle or error, carrying the form's body and moving to `sending`; the status changes only by a submit, a settled request or "Send another" from success; the form changes only by an edit outside success or by the reset a 2xx response triggers; success is left only by "Send another" |
| Contact.StartInvariant | src/components/ContactForm.tsx:4-5 | the form starts idle with empty name, email, phone and message and enquiry type "Property management enquiry" |
| Contact.Payload | src/components/ContactForm.tsx:12 | the body holds the five form fields unchanged, then `site` "propertymanagementgibraltar.com" and `source` "contact-form" |
| Contact.PayloadWellFormed | src/components/ContactForm.tsx:12 | the body names each of its seven keys exactly once |
| Contact.PayloadRoundTrip | src/components/ContactForm.tsx:12 | the lead reads back out of the body unchanged, so no field is dropped or renamed |
| Contact.NextKeepsInvariant | src/components/ContactForm.tsx:6-36 | every event keeps the enquiry type among the offered options, the phone empty, and the form blank while in `success` |
| Contact.RunKeepsInvariant | src/components/ContactForm.tsx:6-36 | any sequence of events keeps the invariant |
| Contact.Reachable | src/components/ContactForm.tsx:4-36 | every reachable state has an offered enquiry type and an empty phone, and is blank while in `success` |
| Contact.SubmitSends | src/components/ContactForm.tsx:6-12 | a submit sends a request iff the status is idle or error, moving to `sending` with the current form's body; while sending it does nothing |
| Contact.OnlySubmitSends | src/components/ContactForm.tsx:6-9 | no event other than a submit sends a request |
| Contact.RespondSettles | src/components/ContactForm.tsx:14-16 | a 2xx response gives `success` and resets the form to its defaults; a failure gives `error` and keeps the form |
| Contact.TypedThenSent | src/components/ContactForm.tsx:6-30 | a name typed and then submitted from idle or error is the name sent, with the other fields unchanged |
| Contact.SendAnotherResets | src/components/ContactForm.tsx:18-23 | "Send another" moves `success` to `idle` and changes nothing else; no other event leaves `success` |
| Contact.SuccessThenSendAnother | src/components/ContactForm.tsx:14-23 | a successful send followed by "Send another" returns exactly to the state at mount |
| Seo.Canonical | src/lib/seo.ts:2-4 | every canonical URL starts with the domain; "/" gives the bare domain; any other path is appended verbatim |
| Seo.CanonicalCollision | src/lib/seo.ts:2-4 | two paths give the same URL iff they are equal or both are "/" or "" |
| Seo.ServiceLD | src/lib/seo.ts:16-20 | the Service document copies name, description and url, and its provider is a LocalBusiness at the domain |
| Seo.ServiceWellFormed | src/lib/seo.ts:16-20 | the Service document names each key once |
| Seo.ServiceRoundTrip | src/lib/seo.ts:16-20 | the service's fields read back out of its document unchanged |
| Seo.ListItem | src/lib/seo.ts:24 | one breadcrumb entry: a `ListItem` with the given position, the crumb's name and its url as `item`, each key once |
| Seo.ListItems | src/lib/seo.ts:24 | the mapped list has the input's length, and element i is the list item for the i-th crumb at position first + i |
| Seo.BreadcrumbLD | src/lib/seo.ts:22-24 | `itemListElement` has the input's length; element i has position i + 1 and the i-th crumb's name and url |
| Seo.ReadListItems | src/lib/seo.ts:24 | the list items read back as the crumbs, with positions checked consecutive from `first` |
| Seo.BreadcrumbRoundTrip | src/lib/seo.ts:22-24 | the breadcrumb document reads back as its crumbs, positions 1..n |
| Seo.Question | src/lib/seo.ts:28 | one FAQ entry: a `Question` named by the entry's question, whose `acceptedAnswer` is an `Answer` with the entry's answer as `text`, each key once |
| Seo.Questions | src/lib/seo.ts:28 | the mapped list keeps length and order: element i is the question built from the i-th entry |
| Seo.FaqLD | src/lib/seo.ts:26-28 | `mainEntity` has the input's length and order; question i is named `q` and answered by `a` |
| Seo.ReadQuestionsOf | src/lib/seo.ts:28 | the questions read back as the FAQ entries |
| Seo.FaqRoundTrip | src/lib/seo.ts:26-28 | the FAQ document reads back as its entries |
| Seo.AuthorName | src/lib/seo.ts:33 | the author shown is the given author when non-empty and the business name otherwise; it is never empty |
| Seo.ArticleLD | src/lib/seo.ts:30-34 | the `image` key is present iff a non-empty image is given and then holds it; the author is a Person named by the given author or the default; the publisher's url is the domain |
| Seo.ArticleCopiesFields | src/lib/seo.ts:30-32 | the Article document copies title, description, url and publication date |
| Seo.ArticleWellFormed | src/lib/seo.ts:30-34 | the Article document names each key once, with or without an image |
| Seo.ArticleEmptyIsAbsent | src/lib/seo.ts:32-33 | an empty image or author gives the same document as an absent one |
| Seo.ArticleRoundTrip | src/lib/seo.ts:30-34 | an Article document reads back as its input, with empty optional fields as absent and the author as shown |

## Left out

- The HTTP calls: URLs, headers, API keys, and the hosted client in
  src/lib/supabase.ts. A response is the abstract `Ok | NotOk | Exception`.
- React rendering, JSX, CSS classes, and tailwind.config.mjs. These hold no
  logic.
- Browser constraint validation: `required`, `type="email"`, and the
  `min`/`max` of the count input. These are HTML attributes, not code. A
  submit is therefore not blocked on an empty name or email.
- QuoteForm.EstimatedRent: the float `parseFloat` computes is not modelled.
  A non-empty rent is kept as its text (`JFloat`). The `null` that
  `JSON.stringify` writes for a NaN rent is not modelled either.
- ParseInt.Parse: leading whitespace, the `0x` radix prefix, and the
  precision lost above 2^53 are not modelled. Integers are unbounded.
- The text `JSON.stringify` produces. Documents are JSON value trees, and
  an object is its key order plus its key/value map.
- Timing, double submits across tabs, and a request that never settles.
  Such a request simply leaves the status at `sending`.
- `generateWebsiteLD` and `generateLocalBusinessLD`. They take no input and
  build constant documents.
- Values a select or button group does not offer. The property-type
  buttons, the service toggles and the area, current-situation and
  enquiry-type selects can only produce their listed values. An event
  carrying any other value leaves the state unchanged.
