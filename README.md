# LogIQ Transport reservations: a verified model

LogIQ Transport's website rents out vans. Two of its parts have logic worth proving things about, and this project models those two in Dafny.

- **The reservation-email handler** (`supabase/functions/send-reservation-email/index.ts`). It is a serverless function. It answers the CORS preflight. It reads a JSON booking payload and checks that four fields are present. It stamps a reference `LQ-YYYYMMDD-NNN` on the booking. It reads the SMTP settings from the environment. It then sends two emails over SMTP, in order: a notice to the business account, then a confirmation to the customer. It answers 200, 400 or 500.
- **The reservation form's rules** (`src/pages/Reservation.tsx`). These are the three option checkboxes and the two calendars' "disabled" rules. They also include the fixed table of half-hour time slots and the vehicle catalogue.

## Layout

| file | module | what it holds |
|---|---|---|
| `common.dfy` | `Common` | `Option`; `Present`, JavaScript truthiness of an optional string |
| `decimal.dfy` | `Decimal` | `String(n)` (`Show`), `padStart` (`PadStart`), reading digits back (`Value`), stripping leading zeros, and the round-trip lemmas between them |
| `reference.dfy` | `ReservationReference` | the `LQ-YYYYMMDD-NNN` formatter (`Format`, `Generate`) and a strict reader (`Parse`), which is its partner in the round-trip lemmas |
| `email.dfy` | `ReservationEmail` | the pure decision (`Decide`), its effects (`Respond`, `Transcript`), the class `SmtpClient` whose operations append to an event trace, the methods `Handle` and `SendBoth` that follow the handler step by step, and the properties |
| `form.dfy` | `ReservationForm` | option flags and `Toggle`, the form state, the calendar predicates, picking dates, times and vehicles, the time-slot table and the catalogue |

### How the handler is modelled

- The clock and the random draw are inputs. `Clock(year, monthIndex, day)` stands for `new Date()`, where `monthIndex` is what `getMonth()` returns. `random` stands for `Math.floor(Math.random() * 1000)`.
- The environment is a record of four optional strings. An unset variable and an empty string are both falsy, as in JavaScript.
- The request body is either a readable payload or a thrown value. Each payload field is optional.
- The mail server is a `Network` value. It says how each `send`, in order, and the `close` end: either they complete or they throw.
- `SmtpClient` keeps a trace of `Opened(connection)`, `Sent(message, outcome)` and `Closed(outcome)` events. Each outcome records whether that operation completed or threw. `Attempted` lists the messages handed to `send`. `Delivered` lists those whose `send` completed.
- `Handle` is proved equal to `Respond(Decide(...))`, and the trace it returns is proved equal to `Transcript(Decide(...))`. The properties are lemmas about those functions.

### Behaviour of the code worth knowing

- No price calculator exists in these files. The handler receives the totals as ready-made strings.
- The form does not keep the end date on or after the start date:
  - only the end calendar compares against the start;
  - a start picked later than an already chosen end is accepted (`ReservationForm.PickStartCanBreakOrder`).
- The submit button has no handler, so nothing blocks an incomplete form.
- The start calendar disables every day whose midnight is before the current instant. So today itself cannot be picked as a start, except at exactly midnight (`ReservationForm.StartDaysSelectable`).
- A caller cannot tell the two send failures apart (`ReservationEmail.PartialSendIndistinguishable`):
  - when the first send throws, nothing was delivered;
  - when the second send throws, the business notice was already delivered;
  - both give the same 500.
- When either send throws, the client is never closed.
- `SENDER_EMAIL` is declared but never used: both messages come from the SMTP user.

## Model

| member | source | states |
|---|---|---|
| `Decimal.Show` | supabase/functions/send-reservation-email/index.ts:33-35 | `String(n)` is a non-empty string of decimal digits, and it starts with `0` exactly when `n` is zero |
| `Decimal.PadStart` | supabase/functions/send-reservation-email/index.ts:33-35 | `padStart` gives a string of length `max(len, width)`: the original string as its suffix, fill characters before it |
| `Decimal.ValueOfShow` | supabase/functions/send-reservation-email/index.ts:33-35 | reading back what `String(n)` writes gives `n` |
| `Decimal.ShowLength` | supabase/functions/send-reservation-email/index.ts:33-35 | `String(n)` has at most `w` digits if and only if `n < 10^w` |
| `Decimal.ValueInjective` | supabase/functions/send-reservation-email/index.ts:33-35 | two digit strings of the same length with the same value are equal |
| `Decimal.PadRoundTrip` | supabase/functions/send-reservation-email/index.ts:33-35 | a number below `10^w`, zero-padded to `w`, is exactly `w` digits and reads back as the number (month and day to 2, suffix to 3) |
| `Decimal.PadOfValue` | supabase/functions/send-reservation-email/index.ts:33-35 | every `w`-digit string is the zero-padding of its own value, so padding is onto the `w`-digit strings |
| `Decimal.StripPadded` | supabase/functions/send-reservation-email/index.ts:33-35 | stripping the leading zeros of a padded positive number gives back its unpadded `String(n)` |
| `Decimal.ShowInt` | supabase/functions/send-reservation-email/index.ts:36 | `${year}` for any integer: the digits of a non-negative year, a minus sign before the digits of a negative one |
| `ReservationReference.Parse` | supabase/functions/send-reservation-email/index.ts:29-36 | every reference the reader accepts has a four-digit year, two-digit month and day, and a three-digit suffix |
| `ReservationReference.Format` | supabase/functions/send-reservation-email/index.ts:36 | the template `LQ-${year}${month}${day}-${random}`: every reference starts with `LQ-`. Its layout and its inverse are given by `FormatShape` and `ParseFormat` |
| `ReservationReference.Generate` | supabase/functions/send-reservation-email/index.ts:30-37 | `generateReservationReference` with the clock and the draw as inputs. It starts with `LQ-`. For a real clock reading in a four-digit year and a draw below 1000, it reads back as the year, `getMonth() + 1`, the day and the draw |
| `ReservationReference.FormatShape` | supabase/functions/send-reservation-email/index.ts:30-36 | from parts that fit, the reference is 15 characters: `LQ-`, the year, the padded month and day, `-` at index 11, the padded suffix, with `-` at indices 2 and 11 |
| `ReservationReference.GenerateShape` | supabase/functions/send-reservation-email/index.ts:30-36 | for a real clock reading in a four-digit year and a draw in 0..999, the generated reference is 15 characters with `-` at indices 2 and 11 |
| `ReservationReference.ParseFormat` | supabase/functions/send-reservation-email/index.ts:30-36 | reading a formatted reference recovers the year, month, day and suffix |
| `ReservationReference.FormatParse` | supabase/functions/send-reservation-email/index.ts:30-36 | every string the reader accepts is the formatting of the parts it reads |
| `ReservationReference.FormatInjective` | supabase/functions/send-reservation-email/index.ts:30-36 | distinct dates or suffixes give distinct references |
| `ReservationEmail.ErrorMessage` | supabase/functions/send-reservation-email/index.ts:273 | a thrown `Error` yields its own message; anything else thrown yields `Failed to send email` |
| `ReservationEmail.HasRequiredFields` | supabase/functions/send-reservation-email/index.ts:52 | client name, client email, start date and vehicle name must all be truthy. `MissingFieldsRejected`, `OptionalFieldsIgnored` and `BadRequestExactly` state its consequences |
| `ReservationEmail.HasSmtpConfig` | supabase/functions/send-reservation-email/index.ts:69 | host, user and password must all be truthy; the port may be unset. `ConfigErrorSendsNothing` and `NoClientWithoutChecks` state its consequences |
| `ReservationEmail.PortSetting` | supabase/functions/send-reservation-email/index.ts:65 | the port text: `SMTP_PORT` when it is truthy, else `"465"`; `DefaultPort` and `ConfiguredPort` state what port results |
| `ReservationEmail.LeadingDigits` | supabase/functions/send-reservation-email/index.ts:65 | the result is the longest run of digits at the front of the string |
| `ReservationEmail.ParseInt` | supabase/functions/send-reservation-email/index.ts:65 | NaN (`None`) exactly when the string does not start with a digit |
| `ReservationEmail.ParseIntOfShow` | supabase/functions/send-reservation-email/index.ts:65 | `parseInt` reads back the decimal form of any number, whatever non-digit text follows it |
| `ReservationEmail.Port` | supabase/functions/send-reservation-email/index.ts:65 | `parseInt` of the port text; its values are given by `DefaultPort` and `ConfiguredPort` |
| `ReservationEmail.DefaultPort` | supabase/functions/send-reservation-email/index.ts:65 | an unset or empty `SMTP_PORT` gives port 465 |
| `ReservationEmail.ConfiguredPort` | supabase/functions/send-reservation-email/index.ts:65 | a port set in the environment as a decimal number, such as `"587"`, is the port the client uses |
| `ReservationEmail.FromAddress` | supabase/functions/send-reservation-email/index.ts:243 | the sender is `LogIQ Transport <user>`; `DispatchContents` states that both messages use it |
| `ReservationEmail.BusinessMessage` | supabase/functions/send-reservation-email/index.ts:243-252 | the notice goes to the SMTP user, from `LogIQ Transport <user>`, and carries the reference |
| `ReservationEmail.ClientMessage` | supabase/functions/send-reservation-email/index.ts:254-261 | the confirmation goes to the client email, from `LogIQ Transport <user>`, and carries the reference |
| `ReservationEmail.Decide` | supabase/functions/send-reservation-email/index.ts:44-75 | the early returns as a decision: preflight exactly for `OPTIONS`, and a dispatch carries the generated reference in both messages. `DecideCases` gives the condition of every outcome |
| `ReservationEmail.Transcript` | supabase/functions/send-reservation-email/index.ts:78-263 | no client activity exactly when the decision is not a dispatch. A dispatch opens the client first and does at most four things in all |
| `ReservationEmail.Respond` | supabase/functions/send-reservation-email/index.ts:45-277 | the status is 200, 400 or 500, and the body is the success JSON if and only if the request was dispatched and both sends and the close completed |
| `ReservationEmail.SmtpClient.constructor` | supabase/functions/send-reservation-email/index.ts:78-88 | a new client has the configured connection and a trace holding only its opening |
| `ReservationEmail.SmtpClient.Send` | supabase/functions/send-reservation-email/index.ts:246-261 | each send appends its message and its outcome to the client's trace; the outcome is the network's reply for that send |
| `ReservationEmail.SmtpClient.Close` | supabase/functions/send-reservation-email/index.ts:263 | closing appends the close and its outcome to the trace; the outcome is the network's close reply |
| `ReservationEmail.SendBoth` | supabase/functions/send-reservation-email/index.ts:243-277 | the send sequence is proved to produce exactly the response and the trace that `Respond` and `Transcript` give for the dispatch |
| `ReservationEmail.Handle` | supabase/functions/send-reservation-email/index.ts:42-279 | the whole handler, with its early returns, is proved to give the response `Respond(Decide(...))` and the client trace `Transcript(Decide(...))` |
| `ReservationEmail.DecideCases` | supabase/functions/send-reservation-email/index.ts:44-75 | each outcome (preflight, unreadable body, missing fields, missing configuration, dispatch) is reached if and only if its own check fails and every earlier check passed |
| `ReservationEmail.DispatchContents` | supabase/functions/send-reservation-email/index.ts:78-88 | a dispatch opens a TLS connection with the configured host, port and credentials. The notice goes to the user with subject `[ref] Nouvelle réservation: <vehicle> - <start>`. The confirmation goes to the client with subject `[ref] Confirmation de votre demande de réservation`. Both come from `LogIQ Transport <user>`, and both use the same reference in their HTML |
| `ReservationEmail.PreflightShortCircuits` | supabase/functions/send-reservation-email/index.ts:44-46 | `OPTIONS` gets status 200 with the CORS headers and a null body, whatever the body and environment, and nothing is done to a client |
| `ReservationEmail.UnreadableBodyFails` | supabase/functions/send-reservation-email/index.ts:49 | a body that cannot be read gives a 500 with the thrown message, and nothing is sent |
| `ReservationEmail.MissingFieldsRejected` | supabase/functions/send-reservation-email/index.ts:52-57 | a payload missing name, email, start date or vehicle name gets 400 `Missing required fields` and nothing is sent, in every environment (validation comes before the configuration check) |
| `ReservationEmail.OptionalFieldsIgnored` | supabase/functions/send-reservation-email/index.ts:52 | validation depends only on the four required fields; phone, end date and times are not required |
| `ReservationEmail.BadRequestExactly` | supabase/functions/send-reservation-email/index.ts:52-57 | the status is 400 if and only if the request is not a preflight and its readable payload misses a required field |
| `ReservationEmail.ConfigErrorSendsNothing` | supabase/functions/send-reservation-email/index.ts:64-75 | a valid payload with host, user or password missing gets 500 `Server configuration error`, and nothing is sent |
| `ReservationEmail.NoClientWithoutChecks` | supabase/functions/send-reservation-email/index.ts:52-78 | any client activity implies the request was not a preflight, the payload was valid and the SMTP configuration was present |
| `ReservationEmail.TranscriptSends` | supabase/functions/send-reservation-email/index.ts:246-263 | before dispatch nothing is attempted or delivered. When the first send throws, the notice was attempted and nothing delivered. When the second throws, both were attempted and only the notice delivered. Otherwise both were delivered |
| `ReservationEmail.SuccessfulDispatch` | supabase/functions/send-reservation-email/index.ts:243-270 | when every reply completes, the trace is exactly open, notice sent and completed, confirmation sent and completed, close completed. Both messages are delivered and the response is 200 `{success: true}` |
| `ReservationEmail.SuccessOnlyAfterBothSends` | supabase/functions/send-reservation-email/index.ts:246-270 | a success response implies a dispatch in which both sends and the close completed, and exactly the two messages were delivered |
| `ReservationEmail.FailedStepGives500` | supabase/functions/send-reservation-email/index.ts:246-277 | a throwing send or close gives a 500 with the message of the first thrown value. A throwing first send delivers nothing. A throwing second send has delivered only the notice. A throwing close comes after both were delivered. The client is closed if and only if both sends completed |
| `ReservationEmail.PartialSendIndistinguishable` | supabase/functions/send-reservation-email/index.ts:246-277 | the first send throwing and the second send throwing give the same response, yet the first case delivered nothing and the second had already delivered the notice |
| `ReservationEmail.RespondCases` | supabase/functions/send-reservation-email/index.ts:45-277 | every response carries the CORS headers; every response with a body also carries the JSON content type; the status is 200, 400 or 500; it is 400 exactly for missing fields |
| `ReservationEmail.CorsOnEveryResponse` | supabase/functions/send-reservation-email/index.ts:4-8 | every response of the handler contains both CORS headers with their values |
| `ReservationForm.Toggle` | src/pages/Reservation.tsx:49-51 | the chosen option flag is negated and the other two are unchanged |
| `ReservationForm.Flag` | src/pages/Reservation.tsx:49-50 | `prev[option]`, the flag of a key. `FlagsExtensional` proves the three keys determine the record |
| `ReservationForm.FlagsExtensional` | src/pages/Reservation.tsx:30-34 | two option records that agree on every key are equal |
| `ReservationForm.ToggleTwice` | src/pages/Reservation.tsx:50 | toggling the same option twice restores the original record |
| `ReservationForm.ToggleCommutes` | src/pages/Reservation.tsx:50 | toggles of two options give the same record in either order |
| `ReservationForm.InitialFormIsBlank` | src/pages/Reservation.tsx:25-34 | at first there are no dates, the times and vehicle are empty strings, and every option flag is false |
| `ReservationForm.InitialForm` | src/pages/Reservation.tsx:25-34 | the form's initial state; `InitialFormIsBlank` gives each field |
| `ReservationForm.HandleOptionChange` | src/pages/Reservation.tsx:49-51 | a checkbox change negates only its flag; dates, times and vehicle are unchanged |
| `ReservationForm.StartDisabled` | src/pages/Reservation.tsx:110 | `date < new Date()`; `StartDaysSelectable` and `EndWithoutStartLikeStart` state its consequences |
| `ReservationForm.EndDisabled` | src/pages/Reservation.tsx:154 | `date` is before the chosen start, or before now when no start is chosen; `EndSelectableIffNotBeforeStart` and `EndWithoutStartLikeStart` state its consequences |
| `ReservationForm.EndSelectableIffNotBeforeStart` | src/pages/Reservation.tsx:154 | with a start chosen, an end day can be selected if and only if it is not earlier than the start: the same day can, an earlier one never |
| `ReservationForm.EndWithoutStartLikeStart` | src/pages/Reservation.tsx:110-154 | when no start is chosen, the end calendar disables exactly what the start calendar disables |
| `ReservationForm.StartDaysSelectable` | src/pages/Reservation.tsx:110 | while the current instant is after today's midnight, a day is disabled as a start if and only if it is today or earlier |
| `ReservationForm.PickStart` | src/pages/Reservation.tsx:106-110 | picking a disabled start day changes nothing; picking an enabled one sets the start date and nothing else |
| `ReservationForm.PickEnd` | src/pages/Reservation.tsx:150-154 | picking a disabled end day changes nothing; picking an enabled one sets the end date and nothing else |
| `ReservationForm.PickEndKeepsOrder` | src/pages/Reservation.tsx:150-154 | picking an end keeps the end not earlier than the start |
| `ReservationForm.PickStartCanBreakOrder` | src/pages/Reservation.tsx:106-110 | picking a start later than the chosen end is accepted and leaves the end earlier than the start |
| `ReservationForm.ClockMinutesOfHourMinute` | src/pages/Reservation.tsx:36-41 | reading back an `HH:MM` string gives its minutes after midnight |
| `ReservationForm.TimeSlots` | src/pages/Reservation.tsx:36-41 | the 21 slot strings; `TimeSlotsAreHalfHours` and `TimeSlotsAscending` state what they are |
| `ReservationForm.TimeSlotsAreHalfHours` | src/pages/Reservation.tsx:36-41 | the table has 21 entries, and entry `i` is `HH:MM` for 08:00 plus `30·i` minutes, ending at 18:00 |
| `ReservationForm.TimeSlotsAscending` | src/pages/Reservation.tsx:36-41 | entry `i` reads as `480 + 30·i` minutes, so the slots rise by 30 minutes from 08:00 to 18:00 and no two are equal (they serve as React keys) |
| `ReservationForm.PickStartTime` | src/pages/Reservation.tsx:121-130 | a chosen start time is an entry of the table, and nothing else in the form changes |
| `ReservationForm.PickEndTime` | src/pages/Reservation.tsx:165-174 | a chosen end time is an entry of the table, and nothing else in the form changes |
| `ReservationForm.Vehicles` | src/pages/Reservation.tsx:43-47 | the three catalogue vehicles with their ids, names and descriptions; `CatalogueIds` states that the ids are distinct and non-empty |
| `ReservationForm.CatalogueIds` | src/pages/Reservation.tsx:43-47 | the catalogue has three vehicles with pairwise distinct, non-empty ids |
| `ReservationForm.FindVehicle` | src/pages/Reservation.tsx:186-192 | a lookup by id returns a catalogue vehicle with that id, or `None` when no vehicle has that id |
| `ReservationForm.FindById` | src/pages/Reservation.tsx:43-47 | when ids are distinct, looking up a listed vehicle's id returns that vehicle |
| `ReservationForm.SelectVehicle` | src/pages/Reservation.tsx:189 | clicking a vehicle card stores its id and changes nothing else |
| `ReservationForm.SelectedVehicleHighlighted` | src/pages/Reservation.tsx:186-195 | after choosing a catalogue vehicle, its id leads back to it, and exactly its card matches `vehicle === v.id` |
| `ReservationForm.NoVehicleInitially` | src/pages/Reservation.tsx:29 | at first no catalogue vehicle is selected |

## Left out

- SMTP transport, `serve`, the `Request`/`Response` objects, `Deno.env` and `console` logging. These are I/O; they appear only as the `Network`, `Env`, `Request` and `Response` values and the client's event trace.
- The `SMTPClient` constructor is taken not to throw; a connection failure appears as the first send throwing.
- `new Date()` and `Math.random()` are nondeterministic, so they are inputs. The floating-point draw and `Math.floor` are not modelled; the suffix arrives as an integer.
- `req.json()` parsing is not modelled. A body that cannot be read becomes `Unreadable(thrown)`. This covers malformed JSON and JSON such as `null`, whose field access throws. Payload fields are typed as strings, so non-string JSON values and their truthiness are not modelled.
- `ReservationEmail.ParseInt`: reads only a leading run of decimal digits. It does not model `parseInt`'s skipping of leading whitespace, signs or the `0x` prefix, because the port string is environment configuration whose non-numeric forms are floating-point/NaN corners.
- The HTML template bodies are large literal blocks. An `Html` value names the template and carries the reference and payload substituted into it; the markup itself is not modelled.
- Price arithmetic is not modelled: the handler receives `totalPrice`, `vehicleTotal` and `optionsTotal` as opaque strings, and the 140/180 CHF rates are literal text.
- The displayed prices of the options (15 CHF, 25 CHF/jour) are display text and are not modelled.
- Calendar days are modelled as multiples of a day in milliseconds; time zones and daylight-saving shifts, and the calendar widget's deselect-on-reclick, belong to the UI toolkit and are not modelled.
- The submit button has no handler, so there is no submission flow to model.
- date-fns formatting, animations, the Navbar's scroll listener and menu, and the presentational pages and components (FAQ, About, Hero, FeaturedPack, PricingGrid, Options, TrustSection, Footer, Index) are UI and are not part of this model.
