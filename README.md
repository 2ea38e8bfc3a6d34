# Notigram in Dafny

Notigram is a React component that renders nothing. Once per mount it collects
facts about the visitor and sends them as one HTML-formatted message to a
Telegram chat:

- the public IP address, from ipify;
- the geolocation of that address, from ipwho.is;
- the device, browser and OS, from a user-agent parser;
- the page, the referrer and the local time.

This project models its core:

- the HTML escaper and the built-in message formatter (`buildDefaultMessage`);
- the rules that derive the visitor record's device, browser, OS and referrer;
- the run of `collectAndNotify`: its requests, its error routing and its callbacks;
- the one-shot trigger, which schedules the run on mount, cancels it on
  unmount, and guards it so its body runs at most once.

Modules, one concept each:

- `JsValues` (js_values.dfy): `undefined`-able values and `Result`. It also has
  the JavaScript rules the code relies on: string truthiness, `${undefined}`
  rendering as "undefined", and `a || b`.
- `HtmlEscape` (html_escape.dfy): `escapeHTML` as the source's chain of five
  global replacements.
  - A character-by-character reference definition, `Escaped`, and a decoder,
    `Unescape`, are its partners.
  - The chain is proved equal to the reference. From that follow markup
    freedom, the round trip and the identity on plain text.
- `Visitor` (visitor.dfy): the visitor record, the geolocation reply, the
  user-agent parser's result and the page context.
  - It also holds the derivations of the device label, the browser and OS
    strings and the referrer.
  - `Merge` builds the record.
- `Formatter` (formatter.dfy): the template table `fieldMap`, keyed by the 22
  recognised field names. `BuildDefaultMessage` appends the lines in a loop.
  - A line exists exactly when its template is non-empty. Only the `flag` and
    `postal` templates are ever empty.
  - Each field-list occurrence adds its line, in order.
  - Unknown keys add nothing.
  - Provided the flag emoji holds no `<`, every `<` in the message is one the
    banners or the templates put there, never one from the record. The emoji
    is inserted unescaped, so a `<` in it would reach the message.
- `Pipeline` (pipeline.dfy): the body of `collectAndNotify` after its guard, as
  a function of the props and an `Environment`.
  - The `Environment` is what each remote call answers or throws, plus the
    parser's and the page's values.
  - The result is the requests made and the callbacks invoked, in order.
- `Dispatch` (dispatch.dfy): `class Notigram`, with its mutable fields:
  - `hasNotified`
  - `mounted`
  - `timerPending`
  - `inFlight`: the body is suspended at its first `await`
  - a ghost trace of effects

  Its events are mount, cleanup, timer fire, a direct call of
  `collectAndNotify`, and the resumption of a suspended body. Methods at the end
  of the module run whole event sequences.
- `WorkedCases` (worked_cases.dfy): concrete records run through the
  formatter.

Where the component's prose description and its code differ, the model follows
the code:

- **Empty values still get a line.** Every recognised key except `flag` and
  `postal` emits its labelled line even when the value is missing. For example,
  `isp` without connection data gives the ISP line with an empty value, as
  `WorkedCases.HomeWakandaMessage` shows.
- **Delivery is not checked.** The answer to the Telegram request is never
  inspected, so only a thrown request counts as a failure. A non-OK status is a
  success.
- **A geolocation reply with `success: false` is not a failure.** It still
  forms the record.
- **A throw from `onSuccess` also triggers `onError`.** `onSuccess` is called
  inside the `try` block, so when it throws, the `catch` block calls `onError`
  with that error. Both callbacks then run in one run.
- **The run itself does not check `disabled`.** If `collectAndNotify` were
  entered directly, its body would run even when the component is disabled.
- **The flag emoji is not escaped.** Its template inserts it as it is.
- **The default field list** is page, country, flag, city, device, time.

## Model

| member | source | states |
|---|---|---|
| JsValues.Interpolate | src/index.tsx:160-161 | a template literal shows a defined value as itself and an undefined one as "undefined" |
| JsValues.OrElse | src/index.tsx:159 | the logical-or fallback gives its first operand when that is a non-empty string, otherwise the second |
| HtmlEscape.ReplaceAll | src/index.tsx:202-207 | defines one global `.replace(/c/g, rep)`: every occurrence of `c`, left to right, becomes `rep` |
| HtmlEscape.EscapeChain | src/index.tsx:202-207 | defines the chain as written: `&`, then `<`, `>`, `"` and `'` replaced in that order |
| HtmlEscape.EscapeHtml | src/index.tsx:200-208 | undefined or empty text gives ""; any other text gives the per-character escape `Escaped` of it |
| HtmlEscape.ChainIsPerCharacter | src/index.tsx:202-207 | the five global replacements, `&` first, equal escaping each character on its own |
| HtmlEscape.EscapedIsMarkupFree | src/index.tsx:202-207 | the escaped text holds no `<`, `>`, `"` or `'` |
| HtmlEscape.EscapedPlainText | src/index.tsx:202-207 | a text without any of `& < > " '` is unchanged |
| HtmlEscape.EscapedAppend | src/index.tsx:202-207 | escaping a concatenation is the concatenation of the escapes |
| HtmlEscape.UnescapeEscaped | src/index.tsx:202-207 | decoding the five entities after escaping gives the text back: nothing is escaped twice |
| HtmlEscape.EscapeHtmlMarkupFree | src/index.tsx:200-208 | `escapeHTML` output never holds a raw `<`, `>`, `"` or `'` |
| HtmlEscape.EscapeHtmlProperties | src/index.tsx:200-208 | output is markup free; any non-empty text is recovered by decoding; plain text passes unchanged |
| Visitor.DeviceLabel | src/index.tsx:156-159 | vendor and model joined by a space when both are non-empty, else the device type when non-empty, else "Desktop"; never empty |
| Visitor.NameVersion | src/index.tsx:160-161 | defines the browser and OS strings: the parser's name and version joined by a space, each rendered by a template literal |
| Visitor.Referrer | src/index.tsx:166 | the document referrer when non-empty, otherwise "Direct" |
| Visitor.Merge | src/index.tsx:124-169 | the record holds the geolocation reply's fields unchanged, the derived device label, `name version` browser and OS strings, and the page context |
| Visitor.DerivedFieldsPresent | src/index.tsx:156-166 | device, browser, OS and referrer of every record are non-empty |
| Formatter.Template | src/index.tsx:211-234 | defines each field's table entry: its icon, bold caption and value, or "" for a flag or postal code that is empty |
| Formatter.FieldMap | src/index.tsx:210-235 | defines `fieldMap`, the object literal of the 22 templates for one record |
| Formatter.Lookup | src/index.tsx:238 | defines `fieldMap[field]`: the entry, or undefined for a key the table lacks |
| Formatter.LineFor | src/index.tsx:238-241 | defines what one field-list entry appends: its entry and "\n" when truthy, else nothing |
| Formatter.Lines | src/index.tsx:237-242 | defines the text the `forEach` loop appends over the whole field list, in its order |
| Formatter.DefaultMessage | src/index.tsx:197-248 | defines the built-in message: header, the field list's lines, divider and credit |
| Formatter.FieldNamed | src/index.tsx:210-235 | a name resolved to a table field is that field's key |
| Formatter.NamesOfKeys | src/index.tsx:210-235 | every field's key resolves back to that field |
| Formatter.KeysDistinct | src/index.tsx:210-235 | no two table fields share a key |
| Formatter.RecognisedKeysNamed | src/index.tsx:210-235 | a name is one of the 22 recognised keys exactly when it resolves to a field |
| Formatter.AllFieldsOrdered | src/index.tsx:210-235 | every field has an entry in the table's declaration order |
| Formatter.TableEntries | src/index.tsx:210-235 | an object literal built field by field holds exactly those fields' keys, each with its own field's entry |
| Formatter.FieldMapKeys | src/index.tsx:210-235 | `fieldMap` holds exactly the 22 recognised keys |
| Formatter.FieldMapEntry | src/index.tsx:210-235 | the entry of a field's key is that field's template for the record |
| Formatter.TemplateEmits | src/index.tsx:211-234 | a template is non-empty exactly when the field emits |
| Formatter.FieldLine | src/index.tsx:211-241 | a recognised key adds its template and "\n" when the field emits, else nothing; every field but flag and postal emits |
| Formatter.UnrecognisedKeyLine | src/index.tsx:238-239 | a key outside the table adds nothing |
| Formatter.LineEmittedIff | src/index.tsx:237-242 | a key adds a line exactly when it is the key of a field that emits |
| Formatter.FlagLine | src/index.tsx:215-217 | the flag line is the raw emoji with the escaped country when the emoji is non-empty, and absent otherwise |
| Formatter.PostalLine | src/index.tsx:232 | the postal line shows the escaped code when the code is non-empty, and is absent otherwise |
| Formatter.CallingCodeLine | src/index.tsx:233 | the calling-code line is always emitted, with "+" directly before the escaped code |
| Formatter.LocationLine | src/index.tsx:234 | the location line is always emitted: escaped city, region and country joined by ", " |
| Formatter.BuildDefaultMessage | src/index.tsx:197-248 | the message is the header, the field list's lines and the footer |
| Formatter.AppendFieldLines | src/index.tsx:237-242 | the loop appends exactly the lines of the field list, in order, to what was there |
| Formatter.LinesSnoc | src/index.tsx:237-242 | one more field adds its own line at the end |
| Formatter.LinesAppend | src/index.tsx:237-242 | the lines of two concatenated field lists are the two lists' lines in order |
| Formatter.LinesSingle | src/index.tsx:237-242 | a one-key list adds that key's line |
| Formatter.LinesInOrder | src/index.tsx:237-242 | a key's line sits between the lines of the keys before it and those after it |
| Formatter.LinesSkip | src/index.tsx:239-241 | a key with an empty line can be dropped from the list without changing the message |
| Formatter.UnknownKeyIgnored | src/index.tsx:237-242 | an unrecognised key anywhere in the list changes nothing |
| Formatter.RepeatedKeyRepeats | src/index.tsx:237-242 | a key given twice adds its line twice |
| Formatter.BannersAlwaysPresent | src/index.tsx:198-245 | every message starts with the header banner and ends with the footer banner |
| Formatter.NoFieldsMessage | src/index.tsx:198-245 | an empty field list gives the header followed by the footer |
| Formatter.CountAppend | src/index.tsx:237-242 | occurrences of a character in a concatenation add up |
| Formatter.CountAbsent | src/index.tsx:211-234 | a character that does not occur is counted zero times |
| Formatter.LabeledMarkup | src/index.tsx:211-234 | a labelled line whose icon, caption and value hold no `<` holds exactly the two of its bold tags |
| Formatter.IconPlain | src/index.tsx:211-234 | no icon holds `<`, provided the flag emoji does not |
| Formatter.CaptionPlain | src/index.tsx:211-234 | no caption holds `<` |
| Formatter.ValueMarkupFree | src/index.tsx:211-234 | every value part of every template is free of `<`, `>`, `"` and `'` |
| Formatter.MarkupFreeJoin | src/index.tsx:227-234 | joining markup-free texts with the templates' separators adds no markup character |
| Formatter.TemplateMarkup | src/index.tsx:211-234 | an emitted template holds exactly two `<`, an absent one none, provided the flag emoji holds no `<` |
| Formatter.LineMarkup | src/index.tsx:237-241 | a line added for any key holds exactly two `<`, provided the flag emoji holds no `<` |
| Formatter.LinesMarkup | src/index.tsx:237-242 | the field lines hold two `<` per emitted line, provided the flag emoji holds no `<` |
| Formatter.MessageMarkup | src/index.tsx:197-248 | every `<` of the message belongs to a banner or to an emitted line's bold caption; record values add none |
| WorkedCases.EscapedTag | src/index.tsx:202-207 | a tag around plain text becomes `&lt;` text `&gt;` |
| WorkedCases.TagCountryLine | src/index.tsx:213 | a country written as a tag appears in its line only as entities |
| WorkedCases.ScriptCountryLine | src/index.tsx:213 | a country "<script>" renders as "&lt;script&gt;" |
| WorkedCases.CallingCodeOne | src/index.tsx:233 | a calling code "1" renders as "+1" |
| WorkedCases.PlainLine | src/index.tsx:211-213 | the page and country lines show plain text unchanged |
| WorkedCases.MissingIspLine | src/index.tsx:228 | without connection data the ISP line is still emitted, with an empty value |
| WorkedCases.ThreeLines | src/index.tsx:237-242 | a three-key list adds the three keys' lines in order |
| WorkedCases.PageCountryIspMessage | src/index.tsx:197-248 | a record with only plain page and country, and fields page, country, isp: header, page line, country line, empty ISP line, footer |
| WorkedCases.HomeWakandaMessage | src/index.tsx:197-248 | the same with page "/home" and country "Wakanda" |
| Pipeline.EffectiveFields | src/index.tsx:88 | the caller's field list when given, otherwise page, country, flag, city, device, time |
| Pipeline.Disabled | src/index.tsx:91-97 | defines `disabled` after its default `false` |
| Pipeline.GeoLookupUrl | src/index.tsx:117 | the geolocation URL ends with the IP, or with "undefined" when the IP reply had none |
| Pipeline.SendUrl | src/index.tsx:177 | defines the Telegram endpoint: the bot token between `https://api.telegram.org/bot` and `/sendMessage` |
| Pipeline.MessageOf | src/index.tsx:172-174 | the caller's formatter's result or throw when one is given, otherwise the built-in message over the effective fields |
| Pipeline.Run | src/index.tsx:111-185 | defines the try block: the requests made, in order, and either the merged record or the error of the first step that throws |
| Pipeline.Callbacks | src/index.tsx:187-190 | defines the callbacks after the try block: onSuccess with the record after completion, onError with the error after a throw, including one from onSuccess |
| Pipeline.CaughtError | src/index.tsx:187-190 | defines the errors the `catch` block can receive: the failing step's, or after completion the one onSuccess threw |
| Pipeline.Effects | src/index.tsx:111-191 | defines one run's observable effects: its requests, then its callbacks |
| Pipeline.SentAll | src/index.tsx:113-185 | the requests become send effects one for one, in order |
| Pipeline.DeliveredIff | src/index.tsx:111-187 | the try block completes exactly when both lookups, the formatter and the delivery succeed; the requests are then the IP lookup, the lookup of that IP and the delivery of the message in HTML parse mode, and the record is the merged one |
| Pipeline.AbortedAtFirstFailure | src/index.tsx:111-190 | a throw ends the try block with that step's error, and nothing after the failing step is requested |
| Pipeline.RequestsInOrder | src/index.tsx:113-185 | one to three requests, always IP lookup, then geolocation, then delivery |
| Pipeline.CountsAppend | src/index.tsx:187-190 | callback counts of concatenated effects add up |
| Pipeline.SentAllNoCallbacks | src/index.tsx:113-185 | sending requests invokes no callback |
| Pipeline.CallbackCounts | src/index.tsx:187-190 | onSuccess runs once exactly when supplied and the try block completed, with the record; onError runs once exactly when supplied and a step or onSuccess threw, and receives that throw's error |
| Pipeline.CallbacksOfRun | src/index.tsx:111-191 | per run each callback runs at most once; onSuccess runs exactly when supplied and the whole try block completed, and receives the merged record; onError receives the failing step's error, or the one onSuccess threw |
| Pipeline.ExactlyOneCallback | src/index.tsx:187-190 | with both callbacks supplied and an onSuccess that returns normally, exactly one of them runs |
| Pipeline.ThrowingSuccessCallbackReachesOnError | src/index.tsx:187-190 | an onSuccess that throws is followed by onError with its error |
| Pipeline.GeoFailureReported | src/index.tsx:117-118 | a failed geolocation lookup never reaches onSuccess and hands that lookup's error to onError |
| Pipeline.DefaultMessageDelivered | src/index.tsx:172-185 | without a custom formatter the delivery carries the chat id, the built-in message over the effective fields and parse mode "HTML" |
| Dispatch.Notigram.Valid | src/index.tsx:94-109 | defines the reachable states: a timer only while mounted and never when disabled, the body run once exactly when the guard is set, and the trace of a finished body that of one run |
| Dispatch.Notigram.constructor | src/index.tsx:95 | a new instance is unmounted, has no timer and has not notified |
| Dispatch.Notigram.Mount | src/index.tsx:97-102 | a timer is scheduled exactly when not disabled and not yet notified; nothing else changes |
| Dispatch.Notigram.Cleanup | src/index.tsx:104 | the pending timer is cancelled; a body in flight goes on |
| Dispatch.Notigram.CollectAndNotify | src/index.tsx:107-109 | the body is entered exactly when the guard was clear, and the guard is set before the first suspension |
| Dispatch.Notigram.FireTimer | src/index.tsx:100-102 | the timer is spent and calls the routine, which enters exactly when the guard was clear |
| Dispatch.Notigram.TryBlock | src/index.tsx:111-185 | the step-by-step try block makes the requests and reaches the outcome of `Pipeline.Run` |
| Dispatch.Notigram.Report | src/index.tsx:187-190 | the callbacks invoked are those of `Pipeline.Callbacks` |
| Dispatch.Notigram.Resume | src/index.tsx:111-191 | the suspended body finishes with exactly the effects of one run, appended to the trace; the guard stays set |
| Dispatch.DisabledMount | src/index.tsx:98 | a disabled component schedules no timer, so nothing is sent and no callback runs |
| Dispatch.UnmountBeforeFire | src/index.tsx:104 | cleanup before the timer fires leaves the body unrun and nothing sent or called back |
| Dispatch.FireRaceRemount | src/index.tsx:98-109 | an entry racing the first body returns at the guard, and a remount schedules nothing; the trace is one run's |
| Dispatch.RemountThenFire | src/index.tsx:97-109 | mount, cleanup and mount again run the body once |
| Dispatch.UnmountWhileInFlight | src/index.tsx:104-109 | unmounting after the timer fired does not stop the body |
| Dispatch.NoRetryAfterFailure | src/index.tsx:98-109 | after a failed run, a remount and another entry do nothing: no retry |
| Dispatch.AtMostOnce | src/index.tsx:107-109 | in any reachable state the body has run at most once and each callback has run at most once |

## Left out

- The three `fetch` calls and their JSON parsing. Each becomes an answer or a
  throw in `Pipeline.Environment`. The IP reply's `ip` is carried as an
  optional string.
- The user-agent parser. Its result is an input (`Visitor.AgentInfo`).
- `window.location`, `document.referrer`, `navigator.userAgent` and
  `new Date().toLocaleString()`. These are environment reads and locale
  formatting; they are inputs (`Visitor.PageContext`).
- `toString` of latitude, longitude and ASN, which is number formatting. The
  record carries these values as already-rendered optional strings. The
  timezone's numeric `offset` is carried as an integer; no template shows it.
- React's `useEffect`, `useRef`, `setTimeout` and `clearTimeout` timing. These
  become discrete events. `debounceMs` only sets when the timer fires, so it is
  not modelled.
- Later suspension points. The body after its first `await` is one step,
  `Resume`. After that point no event reads or changes the component's state,
  so finer interleavings lead to the same result.
- A remote call that never answers. It is a body that is never resumed.
- The bodies of `customMessage`, `onSuccess` and `onError`, which are the
  caller's code.
  - The custom formatter is a function from the record to a string or a throw.
  - For the callbacks, only whether each is supplied and whether onSuccess
    throws.
  - A throw from inside `onError` escapes the component as an unhandled
    rejection; the model does not follow it.
- Props that change between renders. The effect runs with the props of its
  first render, and the class's `props` is fixed.
- `console.error`, which is logging.
- Prototype lookups of `fieldMap[field]` for names such as "constructor". The
  table is a finite map.
- `dist/index.d.ts`, a generated declaration file with no logic.
- Pipeline.ExactlyOneCallback: holds only for an onSuccess that returns
  normally, because an onSuccess that throws leads to onError as well (see
  `Pipeline.ThrowingSuccessCallbackReachesOnError`).
- Formatter.MessageMarkup: holds only for a flag emoji without `<`, because the
  flag template inserts the emoji unescaped.
