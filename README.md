# SMS2Telegram forwarding core, in Dafny

SMS2Telegram is an Android app that forwards every incoming SMS to a Telegram
chat through the Bot API. This project models the four pieces of the app that
decide what happens:

- **The settings repository** (`settings.dfy`, module `Settings`). The preferences
  file holds four keys. `Prefs` is a snapshot of them, with one `Option` per key.
  The loaders are functions on a snapshot. Class `SettingsRepository` wraps a
  `prefs` field, and its three setters overwrite keys in place. Each write is
  also an `Edit` value, and `Replay` gives the file after a history of edits.
- **The Telegram client** (`telegram.dfy`, module `Telegram`). `sendMessage` cuts
  the text to 3900 characters and builds one form-encoded POST. It then turns
  the outcome of the single HTTP exchange into a `Result`. That outcome is an
  input: a response code, an `IOException`, or another exception that escapes.
- **The SMS receiver** (`sms_receiver.dfy`, module `Receiver`). `onReceive` is a
  method over the repository. It records a trace of effects: `goAsync`, status
  writes, "status updated" announcements, the call of `sendMessage`, and
  `finish`. The launched coroutine is the method's second phase. The method is
  proved against `ReceiveTrace`, a function of the stored settings, the event,
  the clock and the HTTP outcome. The lemmas about that function state the
  guard order, the exact status lines, the single send and the single release.
- **The wizard logic of the main activity** (`main_activity.dfy`, module
  `MainActivity`). This covers:
  - the choice of the first page;
  - the validate-then-save gate;
  - the reset;
  - the test message;
  - the permission callback;
  - the forwarding switch and the status preview.

  Each handler is a method over the repository. A function gives its outputs
  and its edits, and lemmas state what the store holds afterwards.

`text.dfy` (module `Text`) holds the parts of Kotlin's string library these
rely on: `Char.isWhitespace`, `isBlank`, `trim`, `joinToString` with a split
that undoes it, and `Int.toString` with a digit reader that undoes it.
`wrappers.dfy` holds `Option`, which models Kotlin's nullable types.

The clock is a parameter `now: nat -> string`. In the receiver, `now(k)` is the
formatted time of the k-th `Date()` read during one event:
- the "Time:" line of the forwarded text and the guard statuses read `now(0)`;
- the "Forwarding…" status reads `now(1)`;
- the final status reads `now(2)`.

The activity reads the clock once on each path, as a `time` parameter.
String resources are a `Labels` value. `hasSmsPermission()` is a boolean
parameter.

The request's form fields are `chat_id` and `text` (app/src/main/java/com/tigerworkshop/sms2telegram/data/TelegramForwarder.kt:22-25).
The client makes no other call than `sendMessage`.

## Model

| member | source | states |
|---|---|---|
| Settings.NonBlank | app/src/main/java/com/tigerworkshop/sms2telegram/data/SettingsRepository.kt:17-18 | a stored value is kept exactly when it is present and not blank |
| Settings.LoadSettings | app/src/main/java/com/tigerworkshop/sms2telegram/data/SettingsRepository.kt:16-24 | a pair is loaded iff both values are present and non-blank, and it holds the stored values; a partial configuration loads nothing |
| Settings.IsFirstLaunch | app/src/main/java/com/tigerworkshop/sms2telegram/data/SettingsRepository.kt:26-28 | defines first launch: no token stored, or a blank one; the chat id plays no part |
| Settings.LoadLastForwardStatus | app/src/main/java/com/tigerworkshop/sms2telegram/data/SettingsRepository.kt:36 | defines the status read: the stored string, absent if none was ever stored |
| Settings.IsForwardingEnabled | app/src/main/java/com/tigerworkshop/sms2telegram/data/SettingsRepository.kt:38 | defines the flag read: the stored flag, true when never set |
| Settings.LoadAfterSaveSettings | app/src/main/java/com/tigerworkshop/sms2telegram/data/SettingsRepository.kt:9-28 | after saving, the loaded pair is the trimmed values, or nothing if either is blank; first launch holds iff the token is blank; status and forwarding flag unchanged |
| Settings.LoadAfterSaveStatus | app/src/main/java/com/tigerworkshop/sms2telegram/data/SettingsRepository.kt:30-36 | the saved status, also "", is the one loaded; no other key changes |
| Settings.LoadAfterSetForwarding | app/src/main/java/com/tigerworkshop/sms2telegram/data/SettingsRepository.kt:38-44 | the flag set is the flag read; no other key changes |
| Settings.LastWriteWins | app/src/main/java/com/tigerworkshop/sms2telegram/data/SettingsRepository.kt:9-44 | after any history of writes: the status is the last one written or the earlier one; the flag is the last set or the earlier one (true on a new install); the settings come from the last save |
| Settings.FreshInstallHistory | app/src/main/java/com/tigerworkshop/sms2telegram/data/SettingsRepository.kt:30-44 | from a new installation: the status is absent iff none was ever written; forwarding is on unless last set to false; settings load only after a save of two non-blank values |
| Settings.SettingsRepository.constructor | app/src/main/java/com/tigerworkshop/sms2telegram/data/SettingsRepository.kt:6-7 | the repository opens the file as stored |
| Settings.Apply | app/src/main/java/com/tigerworkshop/sms2telegram/data/SettingsRepository.kt:9-44 | defines what each `edit {}` block does to the file: `saveSettings` puts both trimmed values (:10-13), `saveLastForwardStatus` puts the status (:31-33), `setForwardingEnabled` puts the flag (:41-43); every other key keeps its value |
| Settings.SettingsRepository.SaveSettings | app/src/main/java/com/tigerworkshop/sms2telegram/data/SettingsRepository.kt:9-14 | both keys get the trimmed values in one edit; loading then gives the trimmed pair or nothing; first launch iff the token is blank |
| Settings.SettingsRepository.SaveLastForwardStatus | app/src/main/java/com/tigerworkshop/sms2telegram/data/SettingsRepository.kt:30-34 | only the status key changes, and it reads back as the given status |
| Settings.SettingsRepository.SetForwardingEnabled | app/src/main/java/com/tigerworkshop/sms2telegram/data/SettingsRepository.kt:40-44 | only the flag changes, and it reads back as the given value |
| Text.TrimStart | app/src/main/java/com/tigerworkshop/sms2telegram/data/SettingsRepository.kt:11-12 | the result is a suffix; all that is dropped is whitespace; it starts with a non-whitespace character or is empty |
| Text.TrimEnd | app/src/main/java/com/tigerworkshop/sms2telegram/data/SettingsRepository.kt:11-12 | the result is a prefix; all that is dropped is whitespace; it ends with a non-whitespace character or is empty |
| Text.IsWhitespace | app/src/main/java/com/tigerworkshop/sms2telegram/data/SettingsRepository.kt:11-12 | defines Kotlin's `Char.isWhitespace()`, the character set that `trim()` drops and `isBlank()` tests: the JVM whitespace characters and the Unicode space, line and paragraph separators |
| Text.IsBlank | app/src/main/java/com/tigerworkshop/sms2telegram/data/SettingsRepository.kt:17-18 | defines `isBlank()`: every character is whitespace, the empty string included; `isNotBlank()` here, `isNullOrBlank()` at :27 and `isBlank()` at MainActivity.kt:227 and :234 are this predicate |
| Text.Trim | app/src/main/java/com/tigerworkshop/sms2telegram/data/SettingsRepository.kt:11-12 | defines `trim()` as dropping the leading, then the trailing whitespace |
| Text.TrimEnds | app/src/main/java/com/tigerworkshop/sms2telegram/data/SettingsRepository.kt:11-12 | a non-empty trimmed string starts and ends with a non-whitespace character |
| Text.TrimEmptyIffBlank | app/src/main/java/com/tigerworkshop/sms2telegram/data/SettingsRepository.kt:17-18 | trimming leaves nothing iff the string is blank |
| Text.BlankAfterTrim | app/src/main/java/com/tigerworkshop/sms2telegram/data/SettingsRepository.kt:9-18 | a string is blank iff its trimmed form is |
| Text.TrimIdempotent | app/src/main/java/com/tigerworkshop/sms2telegram/ui/MainActivity.kt:222-254 | trimming the already trimmed inputs again when saving changes nothing |
| Text.SplitJoin | app/src/main/java/com/tigerworkshop/sms2telegram/sms/SmsReceiver.kt:59 | for one part or more, splitting a `joinToString` on its separator gives back the parts, when no part holds the separator (zero parts join to "", which splits to one empty part) |
| Text.Join | app/src/main/java/com/tigerworkshop/sms2telegram/sms/SmsReceiver.kt:59 | defines `joinToString(sep)`: the parts with the separator between neighbours |
| Text.NatToStringRoundTrip | app/src/main/java/com/tigerworkshop/sms2telegram/data/TelegramForwarder.kt:37 | the decimal digits of a number read back as that number |
| Text.IntToString | app/src/main/java/com/tigerworkshop/sms2telegram/data/TelegramForwarder.kt:37 | defines `Int.toString()`: a minus sign for a negative number, then its decimal digits |
| Text.IntToStringRoundTrip | app/src/main/java/com/tigerworkshop/sms2telegram/data/TelegramForwarder.kt:37 | `Int.toString` has a minus sign iff the number is negative, then only digits, and reads back as the number |
| Telegram.SafeMessage | app/src/main/java/com/tigerworkshop/sms2telegram/data/TelegramForwarder.kt:20 | the text sent has at most 3900 characters and is a prefix of the message; the whole message if it fits, exactly 3900 characters otherwise |
| Telegram.RequestShape | app/src/main/java/com/tigerworkshop/sms2telegram/data/TelegramForwarder.kt:20-30 | the URL is the API base, the token and "/sendMessage", and the token can be read back from it; the form is exactly `chat_id` then `text`, holding the cut message |
| Telegram.BuildRequest | app/src/main/java/com/tigerworkshop/sms2telegram/data/TelegramForwarder.kt:20-30 | defines the request: a POST to the bot URL with the token, and the form `chat_id`, `text` with the cut message |
| Telegram.IsSuccessful | app/src/main/java/com/tigerworkshop/sms2telegram/data/TelegramForwarder.kt:34 | defines a successful response as a 2xx status |
| Telegram.Classify | app/src/main/java/com/tigerworkshop/sms2telegram/data/TelegramForwarder.kt:32-42 | success iff the response is 2xx; any other response is "Telegram API error <code>"; an IOException is a failure with its message; any other exception is not caught |
| Telegram.ApiErrorNamesCode | app/src/main/java/com/tigerworkshop/sms2telegram/data/TelegramForwarder.kt:37 | the status code can be read back from the failure message of a non-2xx response |
| Telegram.SendMessage | app/src/main/java/com/tigerworkshop/sms2telegram/data/TelegramForwarder.kt:15-43 | defines one call: the one request it builds, and the classification of what the exchange produced; no retry |
| Receiver.OnReceive | app/src/main/java/com/tigerworkshop/sms2telegram/sms/SmsReceiver.kt:21-90 | the effects recorded are those of `ReceiveTrace`, and the store afterwards is the old store with the trace's writes replayed |
| Receiver.ReceiveTrace | app/src/main/java/com/tigerworkshop/sms2telegram/sms/SmsReceiver.kt:21-90 | defines the effects of one broadcast: none for another action; otherwise `goAsync`, the guarded effects, then `finish` |
| Receiver.Handle | app/src/main/java/com/tigerworkshop/sms2telegram/sms/SmsReceiver.kt:34-88 | defines the guard chain in order: disabled, incomplete settings, no payload, each with its status line and announcement; otherwise the last path |
| Receiver.ForwardPath | app/src/main/java/com/tigerworkshop/sms2telegram/sms/SmsReceiver.kt:58-84 | defines the last path: the "Forwarding…" status and its announcement, then the send phase with the formatted text |
| Receiver.SendPhase | app/src/main/java/com/tigerworkshop/sms2telegram/sms/SmsReceiver.kt:70-85 | defines the coroutine up to `finally`: one send, then the result status and its announcement unless the call raised |
| Receiver.Parts | app/src/main/java/com/tigerworkshop/sms2telegram/sms/SmsReceiver.kt:50 | defines the decoded parts, none when the platform decodes nothing |
| Receiver.Sender | app/src/main/java/com/tigerworkshop/sms2telegram/sms/SmsReceiver.kt:58 | defines the sender: the first part's address, or "Unknown" when there is no part or no address |
| Receiver.Bodies | app/src/main/java/com/tigerworkshop/sms2telegram/sms/SmsReceiver.kt:59 | defines the part bodies, a null body read as "" |
| Receiver.Body | app/src/main/java/com/tigerworkshop/sms2telegram/sms/SmsReceiver.kt:59 | defines the body: the part bodies joined with line breaks |
| Receiver.ForwardedText | app/src/main/java/com/tigerworkshop/sms2telegram/sms/SmsReceiver.kt:60-65 | defines the text sent: the "From:" line, the "Time:" line, an empty line, then the body |
| Receiver.DisabledStatus | app/src/main/java/com/tigerworkshop/sms2telegram/sms/SmsReceiver.kt:35 | defines the status when forwarding is off: the time, then ": Forwarding disabled, SMS ignored" |
| Receiver.IncompleteStatus | app/src/main/java/com/tigerworkshop/sms2telegram/sms/SmsReceiver.kt:44 | defines the status when settings are missing: the time, then ": Incomplete settings: Missing API token or Chat ID" |
| Receiver.ForwardingStatus | app/src/main/java/com/tigerworkshop/sms2telegram/sms/SmsReceiver.kt:67 | defines the status before the send: the time, two spaces, "from <sender> - Forwarding…" |
| Receiver.ResultStatus | app/src/main/java/com/tigerworkshop/sms2telegram/sms/SmsReceiver.kt:78-84 | defines the final status: "<time> - From <sender> - Success", or "<time> from <sender> - Failed: <message>" with "Unknown Error" when there is no message |
| Receiver.Forwardable | app/src/main/java/com/tigerworkshop/sms2telegram/sms/SmsReceiver.kt:22-56 | defines an event that passes every guard: SMS action, forwarding on, settings configured, at least one part |
| Receiver.ForwardRequest | app/src/main/java/com/tigerworkshop/sms2telegram/sms/SmsReceiver.kt:72-76 | defines the request the last path sends: the stored token and chat id, and the formatted text |
| Receiver.RunGuards | app/src/main/java/com/tigerworkshop/sms2telegram/sms/SmsReceiver.kt:34-70 | the guards in order, each early exit writing, announcing and finishing; the store follows the trace |
| Receiver.Forward | app/src/main/java/com/tigerworkshop/sms2telegram/sms/SmsReceiver.kt:58-89 | the last path: the "Forwarding…" status, then the send phase and `finish` |
| Receiver.ForwardInBackground | app/src/main/java/com/tigerworkshop/sms2telegram/sms/SmsReceiver.kt:70-89 | one send, the result status and its announcement unless the call raised, then `finish` in any case |
| Receiver.Announce | app/src/main/java/com/tigerworkshop/sms2telegram/sms/SmsReceiver.kt:35-36 | defines the pair every path uses: the status write immediately followed by the "status updated" announcement (also :44-45, :52-53, :67-68 and :78-85) |
| Receiver.SaveAndNotify | app/src/main/java/com/tigerworkshop/sms2telegram/sms/SmsReceiver.kt:67-68 | a status write is recorded with its announcement, and the store follows the trace |
| Receiver.StatusLines | app/src/main/java/com/tigerworkshop/sms2telegram/sms/SmsReceiver.kt:34-84 | an SMS broadcast writes one or two status lines |
| Receiver.ForwardPathFacts | app/src/main/java/com/tigerworkshop/sms2telegram/sms/SmsReceiver.kt:58-85 | the last path sends exactly the request with the stored token and chat id and the formatted text; it writes the "Forwarding…" line, then the result line unless the call raised |
| Receiver.HandleFacts | app/src/main/java/com/tigerworkshop/sms2telegram/sms/SmsReceiver.kt:34-88 | after `goAsync`: no second `goAsync`, no early `finish`, each write announced at once, a send only past every guard, and writes that are the status lines in order |
| Receiver.ReleasedExactlyOnce | app/src/main/java/com/tigerworkshop/sms2telegram/sms/SmsReceiver.kt:21-90 | a non-SMS broadcast has no effect at all; an SMS broadcast takes the pending result first and finishes it last, exactly once each; every status write is announced before the release |
| Receiver.SendsOnlyWhenForwardable | app/src/main/java/com/tigerworkshop/sms2telegram/sms/SmsReceiver.kt:34-76 | a request is sent iff the broadcast is an SMS broadcast, forwarding is on, settings are configured and a part is present, and then exactly once, with the stored token and chat id |
| Receiver.StatusSequence | app/src/main/java/com/tigerworkshop/sms2telegram/sms/SmsReceiver.kt:34-84 | the store writes are exactly the status lines in order: the disabled, incomplete or no-payload line; or "Forwarding…" then the result line |
| Receiver.ReplayStatusWrites | app/src/main/java/com/tigerworkshop/sms2telegram/sms/SmsReceiver.kt:67-84 | successive status writes leave the last one as the status and every other key as it was |
| Receiver.StoreAfterReceive | app/src/main/java/com/tigerworkshop/sms2telegram/sms/SmsReceiver.kt:34-85 | after a broadcast, the settings, the flag and first launch are as before, and the status is the last status line |
| Receiver.ForwardedTextLines | app/src/main/java/com/tigerworkshop/sms2telegram/sms/SmsReceiver.kt:58-65 | for one part or more, when neither the sender, the time nor any part body holds a line break, the forwarded text splits into the "From:" line, the "Time:" line, an empty line and one line per part body |
| Receiver.ExampleReachesSend | app/src/main/java/com/tigerworkshop/sms2telegram/sms/SmsReceiver.kt:34-58 | a configured store with one part from 12345 passes every guard, and the sender is 12345 |
| Receiver.FinalStatus | app/src/main/java/com/tigerworkshop/sms2telegram/sms/SmsReceiver.kt:78-84 | when every guard passes and the call returns, the status left names the sender and the result |
| Receiver.ExampleSuccess | app/src/main/java/com/tigerworkshop/sms2telegram/sms/SmsReceiver.kt:78-79 | a 200 answer leaves "<ts> - From 12345 - Success" |
| Receiver.ExampleApiError | app/src/main/java/com/tigerworkshop/sms2telegram/sms/SmsReceiver.kt:80-84 | a 403 answer leaves "<ts> from 12345 - Failed: Telegram API error 403" |
| Receiver.ApiError403 | app/src/main/java/com/tigerworkshop/sms2telegram/data/TelegramForwarder.kt:37 | a 403 answer is the failure "Telegram API error 403" |
| Receiver.FailedLineText | app/src/main/java/com/tigerworkshop/sms2telegram/sms/SmsReceiver.kt:81-83 | the failure status for 12345 and that message is "<ts> from 12345 - Failed: Telegram API error 403" |
| Receiver.ExampleSuccessText | app/src/main/java/com/tigerworkshop/sms2telegram/sms/SmsReceiver.kt:79 | the success status for 12345 is "<ts> - From 12345 - Success" |
| MainActivity.StartStepCases | app/src/main/java/com/tigerworkshop/sms2telegram/ui/MainActivity.kt:91-96 | welcome iff first launch; configuration iff a token is stored but the chat id is missing or blank; permission iff configured and not granted; summary iff configured and granted |
| MainActivity.InitialStep | app/src/main/java/com/tigerworkshop/sms2telegram/ui/MainActivity.kt:91-96 | defines the `when`: welcome on first launch, then configuration without settings, then permission without it, else the summary |
| MainActivity.StartStep | app/src/main/java/com/tigerworkshop/sms2telegram/ui/MainActivity.kt:90-96 | defines the first page for a store and a permission state |
| MainActivity.InitWizardInitialStep | app/src/main/java/com/tigerworkshop/sms2telegram/ui/MainActivity.kt:82-101 | the inputs are prefilled from the loaded settings; the first page is chosen as above; `setFirstLaunch(false)` is called iff that page is not the welcome page |
| MainActivity.TrimmedInput | app/src/main/java/com/tigerworkshop/sms2telegram/ui/MainActivity.kt:222-223 | the trimmed input is blank iff the text is missing or blank |
| MainActivity.FieldError | app/src/main/java/com/tigerworkshop/sms2telegram/ui/MainActivity.kt:227-239 | defines an input's error: its hint when the trimmed input is blank, none otherwise |
| MainActivity.TestStatus | app/src/main/java/com/tigerworkshop/sms2telegram/ui/MainActivity.kt:255-277 | defines the status of a test: the time, a space, and the success text or the error text around the failure's message ("unknown error" without one) |
| MainActivity.TestSendEdits | app/src/main/java/com/tigerworkshop/sms2telegram/ui/MainActivity.kt:252-278 | defines the writes after a returned test: the settings then the success status, or only the error status |
| MainActivity.TestSendOutcomeEdits | app/src/main/java/com/tigerworkshop/sms2telegram/ui/MainActivity.kt:243-285 | defines the writes of the test send for each outcome; none when the call raised |
| MainActivity.Validate | app/src/main/java/com/tigerworkshop/sms2telegram/ui/MainActivity.kt:221-286 | defines the result of `validateAndContinue()`: the two errors, the request, the writes and the next page |
| MainActivity.FieldErrors | app/src/main/java/com/tigerworkshop/sms2telegram/ui/MainActivity.kt:225-239 | each input shows its hint iff it is blank, independently of the other |
| MainActivity.BlockedOnError | app/src/main/java/com/tigerworkshop/sms2telegram/ui/MainActivity.kt:241 | with an error shown: no send, no store write, no page change |
| MainActivity.SendsTrimmed | app/src/main/java/com/tigerworkshop/sms2telegram/ui/MainActivity.kt:243-250 | without errors, the test message goes to the trimmed token and chat id |
| MainActivity.ValidationGate | app/src/main/java/com/tigerworkshop/sms2telegram/ui/MainActivity.kt:221-250 | the three facts above together |
| MainActivity.TestSendEffects | app/src/main/java/com/tigerworkshop/sms2telegram/ui/MainActivity.kt:252-281 | once the test send returns, the settings load as saved iff it succeeded and are unchanged otherwise; the status is the test's outcome; the flag is unchanged |
| MainActivity.SettingsAfterValidate | app/src/main/java/com/tigerworkshop/sms2telegram/ui/MainActivity.kt:252-254 | the settings load back as the trimmed inputs if the test send succeeded, and load as before otherwise |
| MainActivity.StatusAfterValidate | app/src/main/java/com/tigerworkshop/sms2telegram/ui/MainActivity.kt:255-278 | the status is the test's outcome if a test was sent and returned, and unchanged otherwise; the flag is never touched |
| MainActivity.KeysKeptUnlessSaved | app/src/main/java/com/tigerworkshop/sms2telegram/ui/MainActivity.kt:252-256 | unless the test send succeeds, the new store equals the old one in every key but the status, the token behind first launch included |
| MainActivity.SavedOnlyOnSuccess | app/src/main/java/com/tigerworkshop/sms2telegram/ui/MainActivity.kt:243-285 | settings are saved only on success, and then load as the trimmed inputs; otherwise every key but the status is kept, the status is written only when the call returned, and the forwarding flag is never touched |
| MainActivity.ValidatedResumes | app/src/main/java/com/tigerworkshop/sms2telegram/ui/MainActivity.kt:266-271 | after success the wizard moves to the page it would open on when restarted, never back to configuration |
| MainActivity.ValidateAndContinue | app/src/main/java/com/tigerworkshop/sms2telegram/ui/MainActivity.kt:221-286 | errors, request, next page and store are those `Validate` gives |
| MainActivity.TestAndSave | app/src/main/java/com/tigerworkshop/sms2telegram/ui/MainActivity.kt:243-285 | one test send; on success the settings and the success status are saved and the page moves on (summary if permitted, else permission); on failure only the error status is saved |
| MainActivity.AfterReset | app/src/main/java/com/tigerworkshop/sms2telegram/ui/MainActivity.kt:299-310 | after a reset, from any store: no settings; first launch; status "" rather than absent; forwarding off; the wizard restarts at welcome; the preview shows "" |
| MainActivity.ResetApp | app/src/main/java/com/tigerworkshop/sms2telegram/ui/MainActivity.kt:299-311 | `setFirstLaunch(true)`, then the three writes in order; shows the welcome page |
| MainActivity.ResetReplay | app/src/main/java/com/tigerworkshop/sms2telegram/ui/MainActivity.kt:302-304 | the three reset writes leave every key present: empty token and chat id, status "", forwarding false |
| MainActivity.TestMessageEffects | app/src/main/java/com/tigerworkshop/sms2telegram/ui/MainActivity.kt:352-385 | a test is sent iff settings are configured, to the stored token and chat id; without settings nothing is written; settings and flag never change; the status is the outcome when the call returns |
| MainActivity.TestMessage | app/src/main/java/com/tigerworkshop/sms2telegram/ui/MainActivity.kt:352-385 | defines the result of `sendTestMessage()`: no request and no write without settings; otherwise one request and the status of a returned call |
| MainActivity.SendTestMessage | app/src/main/java/com/tigerworkshop/sms2telegram/ui/MainActivity.kt:352-385 | the request sent and the store are those `TestMessage` gives |
| MainActivity.AfterPermissionResult | app/src/main/java/com/tigerworkshop/sms2telegram/ui/MainActivity.kt:42-65 | a grant sets only the forwarding flag, to on, so settings, first launch and status are as before, and the summary page it shows is where a configured wizard opens next; a denial leaves the store as it was |
| MainActivity.PermissionEdits | app/src/main/java/com/tigerworkshop/sms2telegram/ui/MainActivity.kt:52-60 | defines the writes of the permission callback: forwarding on after a grant, nothing after a denial |
| MainActivity.OnPermissionResult | app/src/main/java/com/tigerworkshop/sms2telegram/ui/MainActivity.kt:42-65 | a grant sets the flag and moves to the summary page; a denial does neither |
| MainActivity.SwitchReadBack | app/src/main/java/com/tigerworkshop/sms2telegram/ui/MainActivity.kt:174-177 | a pressed switch stores and then shows the user's choice; a programmatic change writes nothing |
| MainActivity.SwitchEdits | app/src/main/java/com/tigerworkshop/sms2telegram/ui/MainActivity.kt:175-176 | defines the writes of the switch listener: the chosen flag when pressed, nothing otherwise |
| MainActivity.OnForwardingSwitch | app/src/main/java/com/tigerworkshop/sms2telegram/ui/MainActivity.kt:174-185 | only a pressed switch writes the chosen flag, and only then is the view refreshed from the store; an unpressed change returns at once |
| MainActivity.PreviewShowsLastStatus | app/src/main/java/com/tigerworkshop/sms2telegram/ui/MainActivity.kt:342-350 | the preview shows the last status written, or the "not configured" text while none ever was; the switch shows the last flag set, or on |
| MainActivity.LastStatusView | app/src/main/java/com/tigerworkshop/sms2telegram/ui/MainActivity.kt:342-350 | defines what `updateLastStatus()` shows: the stored flag on the switch, and the stored status or the "not configured" text in the preview |

## Left out

- The HTTP exchange (OkHttp, its client and timeouts) is not modelled. Its outcome is an input.
- Coroutines, `Dispatchers.IO`, `lifecycleScope` and the lifetime of the pending broadcast are not modelled. Each launched coroutine runs, in the model, after the code that launches it, as the second phase of the same method. Interleavings with other events are not modelled.
- An exception other than `IOException` that escapes `sendMessage` is not modelled beyond its immediate effect. In the receiver, `finally` still finishes the broadcast and no final status is written. In the activity, nothing more is stored. The crash that follows is not modelled.
- `getMessagesFromIntent` and PDU decoding are not modelled. The decoded parts are an input, each with an optional address and an optional body.
- `SimpleDateFormat` and `Date()` are not modelled. The formatted times are input strings, one per read of the clock.
- `LocalBroadcastManager` is not modelled; the announcement is a `Notify` effect. Toasts, views, button enabling, `updatePermissionUi` and `updateSummaryStatuses` are not modelled either.
- String resources are opaque values in `Labels`. The error resource is a function applied to the message.
- `setFirstLaunch` is not defined in `SettingsRepository`, so its behaviour is not part of this model. The handlers return the argument they pass to it, and it changes no modelled key.
- `requestPermissionIfNeeded`, the welcome page's continue button and `openHowToUsePage` are outside the modelled logic.
- The SharedPreferences file is modelled as a snapshot of its four keys, and each `edit {}` block as one atomic edit. Persistence and concurrent writers are not modelled.
- Telegram.SafeMessage: counts Unicode scalar values, while Kotlin's `take` counts UTF-16 code units. A message with characters outside the Basic Multilingual Plane is cut at a different place.
- Text.IsWhitespace: fixes Kotlin's whitespace set as a list of ranges. The Unicode database it comes from is not modelled.
- Telegram.Classify: an `Int` status code is an unbounded integer. HTTP codes are small, so the 32-bit width never matters here.
