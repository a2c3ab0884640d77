# Typed event emitter, login validators and branded values

This project models the runtime parts of a TypeScript tutorial repository:

- **`EventEmitter`** (`typescript/real-world-examples.ts`). A table maps each of five event names to the ordered list of callbacks subscribed to it:
  - 'user:created', 'user:updated', 'user:deleted', 'auth:login' and 'auth:logout'.
  - `on` creates an event's list on first use and pushes the callback onto its end.
  - `emit` calls every callback in the list, in order, with the same payload.
  - The event map fixes the payload type of each event. Here that is the `Payload` datatype, whose `Name()` gives its event. `Emit` requires the payload to belong to the event it is emitted under.
  - Callbacks are opaque identifiers. `Emit` returns the sequence of calls it makes.
- **Login-form validators** (`loginValidation`, same file). Each takes a field value and returns an error message, or `None` for the program's `undefined`.
- **Branded constructors** (`typescript/level4-advanced-programming.ts`). Each brand is its own datatype, so a `UserId` cannot stand where a `ProductId` is expected.
  - Plain constructors wrap their argument.
  - Smart constructors return the argument unchanged, branded, when a check passes. Otherwise they return `None` (the program's `null`).

Modules:
- `Wrappers`: the `Option` type.
- `JsText`: JavaScript string facts — the `\s` character class, `length` in UTF-16 code units, and `startsWith`.
- `Events`: the emitter.
- `LoginValidation`: the login validators.
- `Branding`: the brand types and their constructors.

Each of the two email regular expressions has two definitions:
- its literal meaning, as a concatenation of segments, used by the body of the validator or constructor;
- a plain characterisation, stated in its `ensures`.

A lemma proves that the two agree: `ContainsEmailPatternIff` for the login check, `EmailPatternMeansSingleAt` for `createEmail`. The hex-colour pattern is a fixed-length repetition. The `ensures` of the recursive `IsHexDigits` turns it into a per-character condition.

## Model

| member | source | states |
|---|---|---|
| `Events.Subscribe` | typescript/real-world-examples.ts:139-144 | subscribing appends `cb` to the end of the event's list; a missing list becomes exactly `[cb]`; the key set grows by `e` alone; every other event's list is unchanged; non-empty lists stay non-empty |
| `Events.Dispatch` | typescript/real-world-examples.ts:146-150 | publishing to a list makes one call per entry, in list order, each with the same payload |
| `Events.EventEmitter.constructor` | typescript/real-world-examples.ts:137 | a new emitter has an empty listener table |
| `Events.EventEmitter.On` | typescript/real-world-examples.ts:139-144 | the table becomes `Subscribe(old table, e, cb)`; `e`'s callbacks gain `cb` at the end; all other events' callbacks are unchanged; the table invariant is kept |
| `Events.EventEmitter.Emit` | typescript/real-world-examples.ts:146-151 | returns exactly the calls `Dispatch` describes for `e`'s current callbacks; some call is made iff `e` has a list (the `if (callbacks)` test), so an event with no list yields no calls; with no `modifies` clause it changes no state |
| `Events.EventEmitter.OnEach` | typescript/real-world-examples.ts:139-144 | calling `on` for each subscription of a history, in order, leaves the table `Replay(old table, history)`, which ties the history lemmas to the emitter |
| `Events.ReplayAppends` | typescript/real-world-examples.ts:139-144 | after any history of subscriptions, an event's callbacks are the earlier ones followed by the ones the history added to that event, in order |
| `Events.ReplayWellFormed` | typescript/real-world-examples.ts:140-143 | no history of subscriptions leaves an empty list in the table |
| `Events.SubscribedToMember` | typescript/real-world-examples.ts:139-144 | a callback is among an event's subscribers iff some subscription paired it with that event |
| `Events.SubscribedToCount` | typescript/real-world-examples.ts:143 | no deduplication: a callback appears among an event's subscribers once per subscription to that event |
| `Events.PublishAfterHistory` | typescript/real-world-examples.ts:136-152 | publishing on a fresh emitter after a history calls exactly the callbacks subscribed to that event, in subscription order |
| `Events.CalledIffSubscribed` | typescript/real-world-examples.ts:146-150 | a callback is called for a payload iff it was subscribed to that payload's event, so subscribers of other events are never called |
| `Events.CallCountIsSubscriptionCount` | typescript/real-world-examples.ts:149 | a callback is called as many times per publish as it occurs in the list, so one subscribed twice is called twice |
| `Events.PublishAfterSubscribing` | typescript/real-world-examples.ts:136-152 | on a fresh emitter, after any history of `on` calls, `emit` calls exactly the callbacks subscribed to that event, in subscription order, each with the payload |
| `Events.CreatedThenDeleted` | typescript/real-world-examples.ts:136-152 | subscribing to 'user:created', then publishing 'user:created' and 'user:deleted', calls the subscriber once with the created payload and then not at all |
| `Events.OrderAndDuplicates` | typescript/real-world-examples.ts:136-152 | subscribing `first`, `second`, `first` to one event and publishing gives three calls in that order, all with the same payload |
| `JsText.Utf16Length` | typescript/real-world-examples.ts:80 | a string's JavaScript `length` lies between its character count and twice that; it equals the count iff there are no astral characters; it is 0 iff the string is empty |
| `JsText.StartsWith` | typescript/level4-advanced-programming.ts:214 | `startsWith` holds iff the prefix is no longer than the string and equals the string's first characters |
| `LoginValidation.ContainsEmailPatternIff` | typescript/real-world-examples.ts:76 | `/\S+@\S+\.\S+/` matches somewhere iff some `@` at index a > 0 has a non-space before it, a `.` at index d >= a+2 follows with only non-spaces strictly between, and a non-space follows the `.` |
| `LoginValidation.ValidateEmail` | typescript/real-world-examples.ts:74-77 | 'Email is required' iff empty; 'Email is invalid' iff non-empty with no such `@`/`.` arrangement; no error iff the arrangement exists |
| `LoginValidation.EmailSamples` | typescript/real-world-examples.ts:74-77 | the empty value is reported as required; a value without `@` as invalid |
| `LoginValidation.ValidatePassword` | typescript/real-world-examples.ts:78-81 | 'Password is required' iff empty; the too-short message iff the length is 1 to 5 code units; no error iff at least 6; 6 or more characters always pass; 1 or 2 characters never do |
| `LoginValidation.AstralPasswordLongEnough` | typescript/real-world-examples.ts:80 | three astral characters make six code units and pass the length check |
| `LoginValidation.BrandedEmailPassesLogin` | typescript/real-world-examples.ts:76 | every address `createEmail` accepts also passes the login email check |
| `LoginValidation.LoginLooserThanBrandedEmail` | typescript/real-world-examples.ts:76 | the unanchored login check accepts `a@b@c.d`, which `createEmail` rejects |
| `Branding.CreateUserId` | typescript/level4-advanced-programming.ts:163 | the user id brand always succeeds and keeps the number |
| `Branding.CreateProductId` | typescript/level4-advanced-programming.ts:164 | the product id brand always succeeds and keeps the number |
| `Branding.CreateOrderId` | typescript/level4-advanced-programming.ts:165 | the order id brand always succeeds and keeps the string |
| `Branding.ToUsd` | typescript/level4-advanced-programming.ts:221 | the dollar brand always succeeds and keeps the amount |
| `Branding.ToEur` | typescript/level4-advanced-programming.ts:222 | the euro brand always succeeds and keeps the amount |
| `Branding.EmailPatternMeansSingleAt` | typescript/level4-advanced-programming.ts:186 | `/^[^\s@]+@[^\s@]+\.[^\s@]+$/` matches iff the string has no whitespace and exactly one `@`, with something before it and a `.` after it that is neither the first nor the last character of the part after the `@` |
| `Branding.CreateEmail` | typescript/level4-advanced-programming.ts:185-188 | returns the input unchanged iff it has that single-`@` shape, otherwise `None` |
| `Branding.EmailSample` | typescript/level4-advanced-programming.ts:194 | `user@example.com` is accepted unchanged |
| `Branding.CreateSecureUrl` | typescript/level4-advanced-programming.ts:213-215 | returns the URL unchanged iff its first 8 characters are `https://`, otherwise `None` |
| `Branding.CreateLatitude` | typescript/level4-advanced-programming.ts:242-244 | accepts exactly -90 <= lat <= 90, both ends included, and returns it unchanged |
| `Branding.CreateLongitude` | typescript/level4-advanced-programming.ts:246-248 | accepts exactly -180 <= lng <= 180, both ends included, and returns it unchanged |
| `Branding.CreatePositiveNumber` | typescript/level4-advanced-programming.ts:264-266 | accepts exactly n > 0 (0 is rejected) and returns it unchanged |
| `Branding.RangeEndpoints` | typescript/level4-advanced-programming.ts:242-266 | sample boundary values: ±90 and ±180 are accepted, ±90.5 and ±180.5 are rejected, and 0 is not a positive number |
| `Branding.BangkokAccepted` | typescript/level4-advanced-programming.ts:255-258 | the sample coordinates 13.7563, 100.5018 are accepted |
| `Branding.IsHexDigits` | typescript/level4-advanced-programming.ts:272 | `[0-9A-Fa-f]` repeated over the whole string holds iff every character is a hex digit |
| `Branding.CreateHexColor` | typescript/level4-advanced-programming.ts:271-274 | returns the input unchanged iff it has length 7, starts with `#` and has hex digits at positions 1 to 6, otherwise `None` |
| `Branding.HexColorSamples` | typescript/level4-advanced-programming.ts:280-284 | `#FF5733` is accepted and `#invalid` is rejected |

## Left out

- Callbacks are identifiers, not code. The model leaves out:
  - their side effects;
  - an exception thrown by a callback, which in the program escapes `emit` and skips the callbacks after it.
- Events.EventEmitter.Emit: its lack of a `modifies` clause is what says it is read-only. No `ensures` clause states it.
- Numbers:
  - identifiers (`UserId`, `ProductId`, user and event ids) are modelled as `int`;
  - amounts, coordinates and the positive-number check are modelled as `real`;
  - IEEE double rounding, `NaN` and the infinities are not modelled (in the program a `NaN` latitude, longitude or positive number is rejected);
  - a `Date` is modelled as an integer time value.
- Strings are sequences of Unicode scalar values.
  - Only `length` (the password check) counts UTF-16 code units, through `Utf16Length`.
  - The regular expressions have no `u` flag. An astral character's two code units are each non-space, not `@`, not `.` and not a hex digit, so counting it as one character changes no match.
  - A lone surrogate cannot be represented.
- `createUrl` is not part of this model: it relies on the platform's URL parser. `CreateSecureUrl` takes an already-branded `Url`.
- `getDistance` (square root and powers) and `calculateTax` (multiplication by 1.1) are floating-point computations and are not part of this model.
- The `console.log` bodies of `getUserById`, `getProductById`, `sendEmail` and `setBackgroundColor` are not part of this model.
- `UserService`, the `example` function and the cache, logger and HTTP client interfaces are not part of this model. They are asynchronous and call interfaces with no implementation.
- The type-level programming is not part of this model: mapped, conditional, template-literal and recursive types have no runtime behaviour. The React file is entirely commented out.
- The one-line helpers of the first three tutorial files are not part of this model.
