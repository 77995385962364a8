/**
 * SmsReceiver.onReceive: the forwarding pipeline run for each broadcast. The
 * guards are checked in a fixed order (action, forwarding enabled, settings
 * present, payload present); each exit writes a status, announces it and
 * releases the broadcast. The last path sends the message in a second,
 * asynchronous phase, modelled here as the continuation of the same method.
 *
 * What happens is recorded as a trace of effects: taking the pending result
 * (`goAsync`), status writes to the store, announcements to observers, the
 * call of `sendMessage`, and `finish` on the pending result.
 */
module Receiver {
  import opened Wrappers
  import opened Text
  import opened Settings
  import opened Telegram

  /** Android's `Telephony.Sms.Intents.SMS_RECEIVED_ACTION`. */
  const SMS_RECEIVED_ACTION := "android.provider.Telephony.SMS_RECEIVED"

  const UNKNOWN_SENDER := "Unknown"
  const UNKNOWN_ERROR := "Unknown Error"
  const NO_PAYLOAD := "No SMS payload detected."

  /** One message part the platform decodes from the broadcast: its originating
      address and its body, either of which may be null. */
  datatype SmsPart = SmsPart(address: Option<string>, body: Option<string>)

  /** The broadcast: its action and the parts decoded from it (null when the
      platform decodes nothing). */
  datatype Intent = Intent(action: string, messages: Option<seq<SmsPart>>)

  datatype Effect =
    | GoAsync                 // the pending result is taken: the broadcast is kept alive
    | WriteStatus(status: string)
    | Notify                  // the local "status updated" broadcast
    | Send(request: Request)  // one call of sendMessage, with the request it builds
    | Finish                  // the pending result is finished: the broadcast is released

  /** `getMessagesFromIntent(intent).orEmpty()` */
  function Parts(intent: Intent): seq<SmsPart> {
    intent.messages.GetOr([])
  }

  /** `messages.firstOrNull()?.displayOriginatingAddress ?: "Unknown"` */
  function Sender(parts: seq<SmsPart>): string {
    if parts == [] then UNKNOWN_SENDER else parts[0].address.GetOr(UNKNOWN_SENDER)
  }

  /** The part bodies, a null body read as "". */
  function Bodies(parts: seq<SmsPart>): seq<string> {
    seq(|parts|, i requires 0 <= i < |parts| => parts[i].body.GetOr(""))
  }

  /** `messages.joinToString("\n") { it.displayMessageBody ?: "" }` */
  function Body(parts: seq<SmsPart>): string {
    Join(Bodies(parts), "\n")
  }

  /** The text sent: a "From:" line, a "Time:" line, an empty line, then the body. */
  function ForwardedText(sender: string, time: string, body: string): string {
    "From: " + sender + "\n" + "Time: " + time + "\n" + "\n" + body
  }

  function DisabledStatus(time: string): string {
    time + ": Forwarding disabled, SMS ignored"
  }

  function IncompleteStatus(time: string): string {
    time + ": Incomplete settings: Missing API token or Chat ID"
  }

  function ForwardingStatus(time: string, sender: string): string {
    time + "  from " + sender + " - Forwarding\U{2026}"
  }

  /** The status once the call has returned; a failure without a message is
      reported as "Unknown Error". */
  function ResultStatus(time: string, sender: string, result: SendResult): string {
    match result
    case Success => time + " - From " + sender + " - Success"
    case Failure(message) => time + " from " + sender + " - Failed: " + message.GetOr(UNKNOWN_ERROR)
  }

  /** `saveLastForwardStatus(status)` followed at once by `notifyStatusUpdated()`. */
  function Announce(status: string): seq<Effect> {
    [WriteStatus(status), Notify]
  }

  /** An event that gets past every guard: an SMS broadcast, forwarding enabled,
      settings configured and at least one message part. */
  predicate Forwardable(p: Prefs, intent: Intent) {
    && intent.action == SMS_RECEIVED_ACTION
    && IsForwardingEnabled(p)
    && LoadSettings(p).Some?
    && Parts(intent) != []
  }

  /** The request the last path sends, with the stored token and chat id. */
  function ForwardRequest(p: Prefs, intent: Intent, now: nat -> string): Request
    requires Forwardable(p, intent)
  {
    var settings := LoadSettings(p).value;
    var parts := Parts(intent);
    BuildRequest(settings.apiToken, settings.chatId,
                 ForwardedText(Sender(parts), now(0), Body(parts)))
  }

  /** The effects of one SMS broadcast between taking and releasing the pending
      result, given the store it finds (`p`), the clock (`now(k)` is the k-th time
      read during the event) and what the HTTP exchange produces. On the last path
      the message's "Time:" line reads the clock first, the "Forwarding…" status
      second and the final status third; when the call raises, the `finally` block
      releases the broadcast without a final status. */
  function Handle(p: Prefs, intent: Intent, now: nat -> string, outcome: HttpOutcome): seq<Effect> {
    if !IsForwardingEnabled(p) then Announce(DisabledStatus(now(0)))
    else if LoadSettings(p).None? then Announce(IncompleteStatus(now(0)))
    else if Parts(intent) == [] then Announce(NO_PAYLOAD)
    else ForwardPath(LoadSettings(p).value, Parts(intent), now, outcome)
  }

  /** The effects of the last path up to the release: the "Forwarding…" status
      with its announcement, then the send phase with the formatted text. */
  function ForwardPath(settings: TelegramSettings, parts: seq<SmsPart>, now: nat -> string,
                       outcome: HttpOutcome): seq<Effect> {
    var sender := Sender(parts);
    Announce(ForwardingStatus(now(1), sender))
    + SendPhase(settings, sender, ForwardedText(sender, now(0), Body(parts)), now, outcome)
  }

  /** The launched coroutine, up to its `finally`: one call of `sendMessage`, then
      the result status and its announcement unless the call raised. */
  function SendPhase(settings: TelegramSettings, sender: string, message: string, now: nat -> string,
                     outcome: HttpOutcome): seq<Effect> {
    var call := SendMessage(settings.apiToken, settings.chatId, message, outcome);
    [Send(call.request)]
    + match call.completion
      case Returned(result) => Announce(ResultStatus(now(2), sender, result))
      case Raised => []
  }

  /** The effects of one broadcast: none unless it is an SMS broadcast; otherwise
      the pending result is taken first and finished last. */
  function ReceiveTrace(p: Prefs, intent: Intent, now: nat -> string, outcome: HttpOutcome): seq<Effect> {
    if intent.action != SMS_RECEIVED_ACTION then []
    else [GoAsync] + Handle(p, intent, now, outcome) + [Finish]
  }

  /** The store writes a trace makes, in order. */
  function StoreEdits(trace: seq<Effect>): seq<Edit> {
    if trace == [] then []
    else
      var last := trace[|trace| - 1];
      StoreEdits(trace[..|trace| - 1]) + if last.WriteStatus? then [PutLastForwardStatus(last.status)] else []
  }

  /** The requests a trace sends, in order. */
  function SentRequests(trace: seq<Effect>): seq<Request> {
    if trace == [] then []
    else
      var last := trace[|trace| - 1];
      SentRequests(trace[..|trace| - 1]) + if last.Send? then [last.request] else []
  }

  lemma {:induction false} StoreEditsAppend(a: seq<Effect>, b: seq<Effect>)
    ensures StoreEdits(a + b) == StoreEdits(a) + StoreEdits(b)
  {
    if b != [] {
      var b' := b[..|b| - 1];
      StoreEditsAppend(a, b');
      assert (a + b)[..|a + b| - 1] == a + b';
      assert (a + b)[|a + b| - 1] == b[|b| - 1];
    } else {
      assert a + b == a;
    }
  }

  lemma {:induction false} SentRequestsAppend(a: seq<Effect>, b: seq<Effect>)
    ensures SentRequests(a + b) == SentRequests(a) + SentRequests(b)
  {
    if b != [] {
      var b' := b[..|b| - 1];
      SentRequestsAppend(a, b');
      assert (a + b)[..|a + b| - 1] == a + b';
      assert (a + b)[|a + b| - 1] == b[|b| - 1];
    } else {
      assert a + b == a;
    }
  }

  lemma FiltersOfOne(e: Effect)
    ensures StoreEdits([e]) == if e.WriteStatus? then [PutLastForwardStatus(e.status)] else []
    ensures SentRequests([e]) == if e.Send? then [e.request] else []
  {
    assert [e][..0] == [];
  }

  lemma FiltersOfAnnounce(status: string)
    ensures StoreEdits(Announce(status)) == [PutLastForwardStatus(status)]
    ensures SentRequests(Announce(status)) == []
  {
    assert Announce(status) == [WriteStatus(status)] + [Notify];
    StoreEditsAppend([WriteStatus(status)], [Notify]);
    SentRequestsAppend([WriteStatus(status)], [Notify]);
    FiltersOfOne(WriteStatus(status));
    FiltersOfOne(Notify);
  }

  /** Every status write in `t` is followed at once by an announcement. */
  predicate AnnouncesEachWrite(t: seq<Effect>) {
    forall i | 0 <= i < |t| && t[i].WriteStatus? :: i + 1 < |t| && t[i + 1] == Notify
  }

  /** The status lines one SMS broadcast writes, in order: one line on each early
      exit (the payload line without a timestamp); on the last path the
      "Forwarding…" line and then the result line, unless the call raised. */
  function StatusLines(p: Prefs, intent: Intent, now: nat -> string, outcome: HttpOutcome): (lines: seq<string>)
    ensures 1 <= |lines| <= 2
  {
    var sender := Sender(Parts(intent));
    if !IsForwardingEnabled(p) then [DisabledStatus(now(0))]
    else if LoadSettings(p).None? then [IncompleteStatus(now(0))]
    else if Parts(intent) == [] then [NO_PAYLOAD]
    else match Classify(outcome)
      case Returned(result) => [ForwardingStatus(now(1), sender), ResultStatus(now(2), sender, result)]
      case Raised => [ForwardingStatus(now(1), sender)]
  }

  /** The store edits that write `lines` as statuses, in order. */
  function StatusWrites(lines: seq<string>): seq<Edit> {
    seq(|lines|, i requires 0 <= i < |lines| => PutLastForwardStatus(lines[i]))
  }

  /** The shape of the last path's effects, for the "Forwarding…" line, the
      request and the result line if the call returned. */
  lemma SendPathShape(forwarding: string, request: Request, result: Option<string>)
    ensures var h := Announce(forwarding) + [Send(request)] + (if result.Some? then Announce(result.value) else []);
      GoAsync !in h && Finish !in h && AnnouncesEachWrite(h)
  {
    var h := Announce(forwarding) + [Send(request)] + (if result.Some? then Announce(result.value) else []);
    if result.Some? {
      assert h == [WriteStatus(forwarding), Notify, Send(request), WriteStatus(result.value), Notify];
    } else {
      assert h == [WriteStatus(forwarding), Notify, Send(request)];
    }
  }

  lemma {:induction false} SendPathFilters(forwarding: string, request: Request, result: Option<string>)
    ensures var h := Announce(forwarding) + [Send(request)] + (if result.Some? then Announce(result.value) else []);
      && SentRequests(h) == [request]
      && StoreEdits(h) == [PutLastForwardStatus(forwarding)] + if result.Some? then [PutLastForwardStatus(result.value)] else []
  {
    var first := Announce(forwarding) + [Send(request)];
    var rest := if result.Some? then Announce(result.value) else [];
    FiltersOfAnnounce(forwarding);
    FiltersOfOne(Send(request));
    StoreEditsAppend(Announce(forwarding), [Send(request)]);
    SentRequestsAppend(Announce(forwarding), [Send(request)]);
    StoreEditsAppend(first, rest);
    SentRequestsAppend(first, rest);
    if result.Some? {
      FiltersOfAnnounce(result.value);
    }
  }

  lemma {:induction false} ForwardPathFacts(settings: TelegramSettings, parts: seq<SmsPart>, now: nat -> string,
                                            outcome: HttpOutcome)
    ensures var h := ForwardPath(settings, parts, now, outcome);
      GoAsync !in h && Finish !in h && AnnouncesEachWrite(h)
    ensures SentRequests(ForwardPath(settings, parts, now, outcome)) ==
      [BuildRequest(settings.apiToken, settings.chatId, ForwardedText(Sender(parts), now(0), Body(parts)))]
    ensures StoreEdits(ForwardPath(settings, parts, now, outcome)) ==
      [PutLastForwardStatus(ForwardingStatus(now(1), Sender(parts)))]
      + match Classify(outcome)
        case Returned(r) => [PutLastForwardStatus(ResultStatus(now(2), Sender(parts), r))]
        case Raised => []
  {
    var sender := Sender(parts);
    var fwd := ForwardingStatus(now(1), sender);
    var req := BuildRequest(settings.apiToken, settings.chatId, ForwardedText(sender, now(0), Body(parts)));
    var result := match Classify(outcome)
      case Returned(r) => Some(ResultStatus(now(2), sender, r))
      case Raised => None;
    var rest := if result.Some? then Announce(result.value) else [];
    assert ForwardPath(settings, parts, now, outcome) == Announce(fwd) + ([Send(req)] + rest);
    Assoc(Announce(fwd), [Send(req)], rest);
    SendPathShape(fwd, req, result);
    SendPathFilters(fwd, req, result);
  }

  /** What happens between taking and releasing the pending result: the status
      lines written, the one request sent when the event passes every guard, no
      second `goAsync` and no early `finish`, and an announcement after each write. */
  lemma {:induction false} HandleFacts(p: Prefs, intent: Intent, now: nat -> string, outcome: HttpOutcome)
    requires intent.action == SMS_RECEIVED_ACTION
    ensures var h := Handle(p, intent, now, outcome);
      && GoAsync !in h && Finish !in h && AnnouncesEachWrite(h)
      && SentRequests(h) == (if Forwardable(p, intent) then [ForwardRequest(p, intent, now)] else [])
      && StoreEdits(h) == StatusWrites(StatusLines(p, intent, now, outcome))
  {
    if Forwardable(p, intent) {
      ForwardedFacts(p, intent, now, outcome);
    } else {
      var line := StatusLines(p, intent, now, outcome)[0];
      assert Handle(p, intent, now, outcome) == Announce(line);
      FiltersOfAnnounce(line);
    }
  }

  lemma {:induction false} ForwardedFacts(p: Prefs, intent: Intent, now: nat -> string, outcome: HttpOutcome)
    requires Forwardable(p, intent)
    ensures var h := Handle(p, intent, now, outcome);
      && GoAsync !in h && Finish !in h && AnnouncesEachWrite(h)
      && SentRequests(h) == [ForwardRequest(p, intent, now)]
      && StoreEdits(h) == StatusWrites(StatusLines(p, intent, now, outcome))
  {
    var settings, parts := LoadSettings(p).value, Parts(intent);
    ForwardPathFacts(settings, parts, now, outcome);
  }

  /** Sequence associativity, stated once so that the solver need not find it. */
  lemma Assoc(a: seq<Effect>, b: seq<Effect>, c: seq<Effect>)
    ensures a + (b + c) == a + b + c
  {
  }

  /** Bracketing effects between one `goAsync` and one `finish`. */
  lemma Bracketed(h: seq<Effect>)
    requires GoAsync !in h && Finish !in h && AnnouncesEachWrite(h)
    ensures var t := [GoAsync] + h + [Finish];
      && t[0] == GoAsync && t[|t| - 1] == Finish
      && multiset(t)[GoAsync] == 1 && multiset(t)[Finish] == 1
      && (forall i | 0 <= i < |t| && t[i].WriteStatus? :: i + 1 < |t| - 1 && t[i + 1] == Notify)
  {
    var t := [GoAsync] + h + [Finish];
    assert multiset(h)[GoAsync] == 0 && multiset(h)[Finish] == 0;
    forall i | 0 <= i < |t| && t[i].WriteStatus?
      ensures i + 1 < |t| - 1 && t[i + 1] == Notify
    {
      assert t[i] == h[i - 1];
      assert t[i + 1] == h[i];
    }
  }

  /** The pending result is taken exactly once per SMS broadcast, as the first
      effect, and finished exactly once, as the last; every status write is
      announced at once, before the release. Any other broadcast has no effect. */
  lemma {:induction false} ReleasedExactlyOnce(p: Prefs, intent: Intent, now: nat -> string, outcome: HttpOutcome)
    ensures var t := ReceiveTrace(p, intent, now, outcome);
      && (intent.action != SMS_RECEIVED_ACTION ==> t == [])
      && (intent.action == SMS_RECEIVED_ACTION ==>
            && t[0] == GoAsync && t[|t| - 1] == Finish
            && multiset(t)[GoAsync] == 1 && multiset(t)[Finish] == 1)
      && (forall i | 0 <= i < |t| && t[i].WriteStatus? :: i + 1 < |t| - 1 && t[i + 1] == Notify)
  {
    if intent.action == SMS_RECEIVED_ACTION {
      HandleFacts(p, intent, now, outcome);
      Bracketed(Handle(p, intent, now, outcome));
    }
  }

  /** Taking and releasing the pending result neither writes nor sends. */
  lemma Unbracketed(h: seq<Effect>)
    ensures StoreEdits([GoAsync] + h + [Finish]) == StoreEdits(h)
    ensures SentRequests([GoAsync] + h + [Finish]) == SentRequests(h)
  {
    FiltersOfOne(GoAsync);
    FiltersOfOne(Finish);
    StoreEditsAppend([GoAsync], h);
    StoreEditsAppend([GoAsync] + h, [Finish]);
    SentRequestsAppend([GoAsync], h);
    SentRequestsAppend([GoAsync] + h, [Finish]);
  }

  /** A message is sent only when the event passes every guard, and then exactly
      once, with the stored token and chat id; a disabled switch, missing settings
      or an empty payload each prevent the call whatever else holds. */
  lemma {:induction false} SendsOnlyWhenForwardable(p: Prefs, intent: Intent, now: nat -> string, outcome: HttpOutcome)
    ensures SentRequests(ReceiveTrace(p, intent, now, outcome)) ==
      if Forwardable(p, intent) then [ForwardRequest(p, intent, now)] else []
  {
    if intent.action == SMS_RECEIVED_ACTION {
      HandleFacts(p, intent, now, outcome);
      Unbracketed(Handle(p, intent, now, outcome));
    }
  }

  /** The store writes of one broadcast are exactly its status lines, in order;
      a broadcast that is not an SMS writes nothing. */
  lemma {:induction false} StatusSequence(p: Prefs, intent: Intent, now: nat -> string, outcome: HttpOutcome)
    ensures StoreEdits(ReceiveTrace(p, intent, now, outcome)) ==
      if intent.action != SMS_RECEIVED_ACTION then [] else StatusWrites(StatusLines(p, intent, now, outcome))
  {
    if intent.action == SMS_RECEIVED_ACTION {
      HandleFacts(p, intent, now, outcome);
      Unbracketed(Handle(p, intent, now, outcome));
    }
  }

  /** Writing status lines one after the other leaves the last of them as the
      status and every other key as it was. */
  lemma {:induction false} ReplayStatusWrites(p: Prefs, lines: seq<string>)
    ensures Replay(p, StatusWrites(lines)) ==
      if lines == [] then p else p.(lastForwardStatus := Some(lines[|lines| - 1]))
  {
    if lines != [] {
      var init := lines[..|lines| - 1];
      assert StatusWrites(lines)[..|lines| - 1] == StatusWrites(init);
      ReplayStatusWrites(p, init);
    }
  }

  /** What the store holds after a broadcast: the settings, the forwarding flag and
      first launch as before, and as status the last of the broadcast's status
      lines (unchanged only for a broadcast that is not an SMS). */
  lemma {:induction false} StoreAfterReceive(p: Prefs, intent: Intent, now: nat -> string, outcome: HttpOutcome)
    ensures var q := Replay(p, StoreEdits(ReceiveTrace(p, intent, now, outcome)));
      && LoadSettings(q) == LoadSettings(p)
      && IsForwardingEnabled(q) == IsForwardingEnabled(p)
      && IsFirstLaunch(q) == IsFirstLaunch(p)
      && LoadLastForwardStatus(q) ==
        if intent.action != SMS_RECEIVED_ACTION then LoadLastForwardStatus(p)
        else var lines := StatusLines(p, intent, now, outcome); Some(lines[|lines| - 1])
  {
    StatusSequence(p, intent, now, outcome);
    if intent.action == SMS_RECEIVED_ACTION {
      ReplayStatusWrites(p, StatusLines(p, intent, now, outcome));
    }
  }

  /** The forwarded text splits back into its lines: the sender line, the time
      line, the empty line, then one line per message part, as long as neither the
      sender, the time nor any part holds a line break. */
  lemma {:induction false} ForwardedTextLines(sender: string, time: string, parts: seq<SmsPart>)
    requires parts != []
    requires '\n' !in sender && '\n' !in time
    requires forall i | 0 <= i < |parts| :: '\n' !in Bodies(parts)[i]
    ensures SplitOn(ForwardedText(sender, time, Body(parts)), '\n') ==
      ["From: " + sender, "Time: " + time, ""] + Bodies(parts)
  {
    var from, at, body := "From: " + sender, "Time: " + time, Body(parts);
    assert '\n' !in from && '\n' !in at;
    assert ForwardedText(sender, time, body) == from + ['\n'] + (at + ['\n'] + ([] + ['\n'] + body));
    SplitAfterField(from, '\n', at + ['\n'] + ([] + ['\n'] + body));
    SplitAfterField(at, '\n', [] + ['\n'] + body);
    SplitAfterField([], '\n', body);
    SplitJoin(Bodies(parts), '\n');
  }

  /** The store and the broadcast of the two worked examples below. */
  const ExampleStore := Prefs(Some("123:abc"), Some("42"), None, None)
  const ExampleSms := Intent(SMS_RECEIVED_ACTION, Some([SmsPart(Some("12345"), Some("hello"))]))

  lemma ExampleReachesSend()
    ensures Forwardable(ExampleStore, ExampleSms)
    ensures Sender(Parts(ExampleSms)) == "12345"
  {
    assert !IsWhitespace("123:abc"[0]) && !IsWhitespace("42"[0]);
  }

  /** When the event passes every guard and the call returns, the status left
      in the store names the sender and the result. */
  lemma {:induction false} FinalStatus(p: Prefs, intent: Intent, now: nat -> string, outcome: HttpOutcome)
    requires Forwardable(p, intent) && Classify(outcome).Returned?
    ensures LoadLastForwardStatus(Replay(p, StoreEdits(ReceiveTrace(p, intent, now, outcome))))
      == Some(ResultStatus(now(2), Sender(Parts(intent)), Classify(outcome).result))
  {
    StoreAfterReceive(p, intent, now, outcome);
  }

  /** A worked example: a forwarded "hello" from 12345 that
      the API accepts leaves "<ts> - From 12345 - Success". */
  lemma ExampleSuccess(p: Prefs, intent: Intent, now: nat -> string)
    requires p == ExampleStore && intent == ExampleSms
    ensures LoadLastForwardStatus(Replay(p, StoreEdits(ReceiveTrace(p, intent, now, Response(200)))))
      == Some(now(2) + " - From 12345 - Success")
  {
    ExampleReachesSend();
    FinalStatus(p, intent, now, Response(200));
    ExampleSuccessText(now(2));
  }

  lemma ExampleSuccessText(time: string)
    ensures ResultStatus(time, "12345", Success) == time + " - From 12345 - Success"
  {
    assert " - From " + "12345" + " - Success" == " - From 12345 - Success";
    assert time + " - From " + "12345" + " - Success" == time + (" - From " + "12345" + " - Success");
  }

  /** A worked example: a 403 answer leaves a status ending
      in "Failed: Telegram API error 403". */
  lemma ExampleApiError(p: Prefs, intent: Intent, now: nat -> string)
    requires p == ExampleStore && intent == ExampleSms
    ensures LoadLastForwardStatus(Replay(p, StoreEdits(ReceiveTrace(p, intent, now, Response(403)))))
      == Some(now(2) + " from 12345 - Failed: Telegram API error 403")
  {
    ExampleReachesSend();
    FinalStatus(p, intent, now, Response(403));
    ApiError403();
    FailedLineText(now(2));
  }

  /** A 403 answer is the failure "Telegram API error 403". */
  lemma ApiError403()
    ensures Classify(Response(403)) == Returned(Failure(Some("Telegram API error 403")))
  {
    assert NatToString(4) == [DigitChar(4)] == "4";
    assert NatToString(40) == "4" + [DigitChar(0)] == "40";
    assert NatToString(403) == "40" + [DigitChar(3)] == "403";
    assert API_ERROR_PREFIX + "403" == "Telegram API error 403";
  }

  lemma FailedLineText(time: string)
    ensures ResultStatus(time, "12345", Failure(Some("Telegram API error 403")))
      == time + " from 12345 - Failed: Telegram API error 403"
  {
    var tail := " from " + "12345" + " - Failed: " + "Telegram API error 403";
    assert tail == " from 12345 - Failed: Telegram API error 403";
    assert time + " from " + "12345" + " - Failed: " + "Telegram API error 403" == time + tail;
  }

  /** Appending an effect that writes nothing adds no store edit. */
  lemma StoreEditsSkip(trace: seq<Effect>, e: Effect)
    requires !e.WriteStatus?
    ensures StoreEdits(trace + [e]) == StoreEdits(trace)
  {
    assert (trace + [e])[..|trace|] == trace;
  }

  /** `onReceive`. The store is the repository the receiver opens on the app's
      preferences; the send phase runs after the guards, as the launched coroutine
      does, and finishes the pending result in its `finally` block. */
  method OnReceive(store: SettingsRepository, intent: Intent, now: nat -> string, outcome: HttpOutcome)
    returns (trace: seq<Effect>)
    modifies store
    ensures trace == ReceiveTrace(old(store.prefs), intent, now, outcome)
    ensures store.prefs == Replay(old(store.prefs), StoreEdits(trace))
  {
    trace := [];
    if intent.action != SMS_RECEIVED_ACTION {
      return;
    }
    trace := Record(trace, GoAsync);
    trace := RunGuards(store, intent, now, outcome, trace, store.prefs);
  }

  /** `onReceive` after `goAsync()`: the guards in order, each exit writing its
      status, announcing it and finishing the pending result, and on the last
      path the "Forwarding…" status and the launched coroutine. */
  method RunGuards(store: SettingsRepository, intent: Intent, now: nat -> string, outcome: HttpOutcome,
                   trace: seq<Effect>, ghost p0: Prefs)
    returns (trace': seq<Effect>)
    requires store.prefs == Replay(p0, StoreEdits(trace)) && store.prefs == p0
    modifies store
    ensures trace' == trace + Handle(p0, intent, now, outcome) + [Finish]
    ensures store.prefs == Replay(p0, StoreEdits(trace'))
  {
    if !IsForwardingEnabled(store.prefs) {
      trace' := SaveAndNotify(store, DisabledStatus(now(0)), trace, p0);
      trace' := Record(trace', Finish);
      return;
    }

    var settings := LoadSettings(store.prefs);
    if settings.None? {
      trace' := SaveAndNotify(store, IncompleteStatus(now(0)), trace, p0);
      trace' := Record(trace', Finish);
      return;
    }

    var messages := Parts(intent);
    if messages == [] {
      trace' := SaveAndNotify(store, NO_PAYLOAD, trace, p0);
      trace' := Record(trace', Finish);
      return;
    }

    trace' := Forward(store, settings.value, messages, now, outcome, trace, p0);
  }

  /** The last path of `onReceive`: the sender and the text, the "Forwarding…"
      status, then the launched coroutine. */
  method Forward(store: SettingsRepository, settings: TelegramSettings, messages: seq<SmsPart>,
                 now: nat -> string, outcome: HttpOutcome, trace: seq<Effect>, ghost p0: Prefs)
    returns (trace': seq<Effect>)
    requires store.prefs == Replay(p0, StoreEdits(trace))
    modifies store
    ensures trace' == trace + ForwardPath(settings, messages, now, outcome) + [Finish]
    ensures store.prefs == Replay(p0, StoreEdits(trace'))
  {
    var sender := Sender(messages);
    var formattedMessage := ForwardedText(sender, now(0), Body(messages));
    trace' := SaveAndNotify(store, ForwardingStatus(now(1), sender), trace, p0);
    ghost var announced := Announce(ForwardingStatus(now(1), sender));
    ghost var phase := SendPhase(settings, sender, formattedMessage, now, outcome);
    trace' := ForwardInBackground(store, settings, sender, formattedMessage, now, outcome, trace', p0);
    Assoc(trace, announced, phase);
  }

  /** The coroutine `onReceive` launches: the call, the result status, and
      `finish` in the `finally` block whether or not the call raised. */
  method ForwardInBackground(store: SettingsRepository, settings: TelegramSettings, sender: string,
                             formattedMessage: string, now: nat -> string, outcome: HttpOutcome,
                             trace: seq<Effect>, ghost p0: Prefs)
    returns (trace': seq<Effect>)
    requires store.prefs == Replay(p0, StoreEdits(trace))
    modifies store
    ensures trace' == trace + SendPhase(settings, sender, formattedMessage, now, outcome) + [Finish]
    ensures store.prefs == Replay(p0, StoreEdits(trace'))
  {
    var call := SendMessage(settings.apiToken, settings.chatId, formattedMessage, outcome);
    trace' := Record(trace, Send(call.request));
    if call.completion.Returned? {
      trace' := SaveAndNotify(store, ResultStatus(now(2), sender, call.completion.result), trace', p0);
    }
    SendPhaseSteps(settings, sender, formattedMessage, now, outcome, trace, trace');
    trace' := Record(trace', Finish);
  }

  /** The trace of the send phase, step by step: the request, then the result
      status with its announcement when the call returned. This only unfolds
      `SendPhase` for the solver. */
  lemma SendPhaseSteps(settings: TelegramSettings, sender: string, message: string, now: nat -> string,
                       outcome: HttpOutcome, trace: seq<Effect>, trace': seq<Effect>)
    requires var call := SendMessage(settings.apiToken, settings.chatId, message, outcome);
      trace' == trace + [Send(call.request)]
        + if call.completion.Returned? then Announce(ResultStatus(now(2), sender, call.completion.result)) else []
    ensures trace' == trace + SendPhase(settings, sender, message, now, outcome)
  {
  }

  /** Records an effect that does not touch the store. */
  function Record(trace: seq<Effect>, e: Effect): (trace': seq<Effect>)
    requires !e.WriteStatus?
    ensures trace' == trace + [e]
    ensures StoreEdits(trace') == StoreEdits(trace)
  {
    StoreEditsSkip(trace, e);
    trace + [e]
  }

  /** One status write followed by its announcement, recorded on the trace. */
  method SaveAndNotify(store: SettingsRepository, status: string, trace: seq<Effect>, ghost p0: Prefs)
    returns (trace': seq<Effect>)
    requires store.prefs == Replay(p0, StoreEdits(trace))
    modifies store
    ensures trace' == trace + Announce(status)
    ensures store.prefs == Replay(p0, StoreEdits(trace'))
  {
    store.SaveLastForwardStatus(status);
    trace' := trace + Announce(status);
    StoreEditsAppend(trace, Announce(status));
    assert StoreEdits(Announce(status)) == [PutLastForwardStatus(status)] by {
      StoreEditsSkip([WriteStatus(status)], Notify);
      assert [WriteStatus(status)][..0] == [];
    }
    var edits := StoreEdits(trace) + [PutLastForwardStatus(status)];
    assert edits[..|edits| - 1] == StoreEdits(trace);
  }
}
