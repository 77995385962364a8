/**
 * MainActivity: the set-up wizard's decisions. Views, toasts and the coroutine
 * scope are not modelled; what remains is which step the wizard shows, which
 * request it sends, and what it writes to the settings repository.
 *
 * Each handler is a method over the repository, proved against a function that
 * gives its outputs and the edits it makes to the store; the lemmas below state
 * what those edits leave behind. Resource strings are a `Labels` parameter,
 * the formatted time of the one `Date()` read on each path is a `time` string,
 * and `hasSmsPermission()` is a boolean input.
 */
module MainActivity {
  import opened Wrappers
  import opened Text
  import opened Settings
  import opened Telegram

  /** The four pages of the wizard. */
  datatype WizardStep = Welcome | Config | Permission | Summary

  /** The string resources the wizard reads. `testMessageError` is the format
      resource applied to the error message. */
  datatype Labels = Labels(
    hintApiToken: string,
    hintChatId: string,
    testMessageBody: string,
    testMessageSuccess: string,
    testMessageError: string -> string,
    notConfigured: string)

  /** Used when a failed send carries no message. */
  const UNKNOWN_ERROR := "unknown error"

  /** The `when` choosing the first page: the welcome page on first launch, then
      the first missing prerequisite, then the summary. */
  function InitialStep(firstLaunch: bool, hasSettings: bool, hasPermission: bool): WizardStep {
    if firstLaunch then Welcome
    else if !hasSettings then Config
    else if !hasPermission then Permission
    else Summary
  }

  /** The page the wizard opens on for a store and a permission state. */
  function StartStep(p: Prefs, hasPermission: bool): WizardStep {
    InitialStep(IsFirstLaunch(p), LoadSettings(p).Some?, hasPermission)
  }

  /** The wizard opens on the welcome page exactly when no usable token is
      stored; on the configuration page exactly when a token is stored but the
      chat id is missing or blank; it never skips a missing prerequisite, and a
      configured app never reopens the first two pages. */
  lemma StartStepCases(p: Prefs, hasPermission: bool)
    ensures StartStep(p, hasPermission) == Welcome <==> IsFirstLaunch(p)
    ensures StartStep(p, hasPermission) == Config <==>
      !IsFirstLaunch(p) && (p.chatId.None? || IsBlank(p.chatId.value))
    ensures StartStep(p, hasPermission) == Permission <==> LoadSettings(p).Some? && !hasPermission
    ensures StartStep(p, hasPermission) == Summary <==> LoadSettings(p).Some? && hasPermission
  {
  }

  /** `initWizardInitialStep()`: the stored settings prefill the inputs, the
      first page is chosen, and `setFirstLaunch(false)` is called (its argument
      is returned) unless that page is the welcome page. */
  method InitWizardInitialStep(store: SettingsRepository, hasPermission: bool)
    returns (prefill: Option<TelegramSettings>, step: WizardStep, firstLaunchWrite: Option<bool>)
    ensures prefill == LoadSettings(store.prefs)
    ensures step == StartStep(store.prefs, hasPermission)
    ensures firstLaunchWrite.Some? <==> step != Welcome
    ensures firstLaunchWrite.Some? ==> !firstLaunchWrite.value
  {
    prefill := LoadSettings(store.prefs);
    var hasSettings := prefill.Some?;
    step := InitialStep(IsFirstLaunch(store.prefs), hasSettings, hasPermission);
    firstLaunchWrite := None;
    if step != Welcome {
      firstLaunchWrite := Some(false);
    }
  }

  /** `text?.toString()?.trim().orEmpty()` */
  function TrimmedInput(text: Option<string>): (s: string)
    ensures IsBlank(s) <==> text.None? || IsBlank(text.value)
  {
    match text
    case None => ""
    case Some(t) => BlankAfterTrim(t); Trim(t)
  }

  /** The status a test send leaves: the time, a space, and the success text or
      the error text around the failure's message. */
  function TestStatus(time: string, labels: Labels, result: SendResult): string {
    match result
    case Success => time + " " + labels.testMessageSuccess
    case Failure(message) => time + " " + labels.testMessageError(message.GetOr(UNKNOWN_ERROR))
  }

  /** What `validateAndContinue()` does: the error shown under each input, the
      request sent, the store edits, and the page it moves to. */
  datatype Validation = Validation(
    tokenError: Option<string>,
    chatIdError: Option<string>,
    sent: Option<Request>,
    edits: seq<Edit>,
    next: Option<WizardStep>)

  /** The error shown under an input: its hint when the trimmed input is blank. */
  function FieldError(value: string, hint: string): Option<string> {
    if IsBlank(value) then Some(hint) else None
  }

  /** The writes after the test message returned: the settings and a success
      status when it went through, only the error status otherwise. */
  function TestSendEdits(token: string, chatId: string, result: SendResult, labels: Labels, time: string): seq<Edit> {
    var status := PutLastForwardStatus(TestStatus(time, labels, result));
    if result.Success? then [PutSettings(token, chatId), status] else [status]
  }

  /** The writes of the test send for what the exchange produced. */
  function TestSendOutcomeEdits(token: string, chatId: string, outcome: HttpOutcome, labels: Labels, time: string): seq<Edit> {
    match Classify(outcome)
    case Returned(result) => TestSendEdits(token, chatId, result, labels, time)
    case Raised => []
  }

  function Validate(tokenText: Option<string>, chatIdText: Option<string>, labels: Labels,
                    outcome: HttpOutcome, time: string, hasPermission: bool): Validation
  {
    var token := TrimmedInput(tokenText);
    var chatId := TrimmedInput(chatIdText);
    if IsBlank(token) || IsBlank(chatId) then
      Validation(FieldError(token, labels.hintApiToken), FieldError(chatId, labels.hintChatId), None, [], None)
    else
      var call := SendMessage(token, chatId, labels.testMessageBody, outcome);
      Validation(None, None, Some(call.request),
                 TestSendOutcomeEdits(token, chatId, outcome, labels, time),
                 if call.completion == Returned(Success) then Some(if hasPermission then Summary else Permission) else None)
  }

  lemma FieldErrors(tokenText: Option<string>, chatIdText: Option<string>, labels: Labels,
                    outcome: HttpOutcome, time: string, hasPermission: bool)
    ensures Validate(tokenText, chatIdText, labels, outcome, time, hasPermission).tokenError ==
      if tokenText.None? || IsBlank(tokenText.value) then Some(labels.hintApiToken) else None
    ensures Validate(tokenText, chatIdText, labels, outcome, time, hasPermission).chatIdError ==
      if chatIdText.None? || IsBlank(chatIdText.value) then Some(labels.hintChatId) else None
  {
  }

  lemma BlockedOnError(tokenText: Option<string>, chatIdText: Option<string>, labels: Labels,
                       outcome: HttpOutcome, time: string, hasPermission: bool)
    ensures var v := Validate(tokenText, chatIdText, labels, outcome, time, hasPermission);
      v.tokenError.Some? || v.chatIdError.Some? ==> v.sent.None? && v.edits == [] && v.next.None?
  {
  }

  lemma SendsTrimmed(tokenText: Option<string>, chatIdText: Option<string>, labels: Labels,
                     outcome: HttpOutcome, time: string, hasPermission: bool)
    ensures var v := Validate(tokenText, chatIdText, labels, outcome, time, hasPermission);
      v.tokenError.None? && v.chatIdError.None? ==>
        v.sent == Some(BuildRequest(Trim(tokenText.value), Trim(chatIdText.value), labels.testMessageBody))
  {
  }

  /** Both inputs are checked, each one's error set independently of the other;
      when either is blank nothing is sent, nothing is stored and the page does
      not change. Otherwise the trimmed values are sent once, as a test message. */
  lemma ValidationGate(tokenText: Option<string>, chatIdText: Option<string>, labels: Labels,
                       outcome: HttpOutcome, time: string, hasPermission: bool)
    ensures var v := Validate(tokenText, chatIdText, labels, outcome, time, hasPermission);
      && v.tokenError == (if tokenText.None? || IsBlank(tokenText.value) then Some(labels.hintApiToken) else None)
      && v.chatIdError == (if chatIdText.None? || IsBlank(chatIdText.value) then Some(labels.hintChatId) else None)
      && (v.tokenError.Some? || v.chatIdError.Some? ==> v.sent.None? && v.edits == [] && v.next.None?)
      && (v.tokenError.None? && v.chatIdError.None? ==>
            v.sent == Some(BuildRequest(Trim(tokenText.value), Trim(chatIdText.value), labels.testMessageBody)))
  {
    FieldErrors(tokenText, chatIdText, labels, outcome, time, hasPermission);
    BlockedOnError(tokenText, chatIdText, labels, outcome, time, hasPermission);
    SendsTrimmed(tokenText, chatIdText, labels, outcome, time, hasPermission);
  }

  /** The writes after a returned test message: the status is the test's
      outcome; the settings are saved exactly when it went through; the
      forwarding flag is untouched. */
  lemma {:induction false} TestSendEffects(p: Prefs, token: string, chatId: string, result: SendResult,
                                           labels: Labels, time: string)
    ensures LoadSettings(Replay(p, TestSendEdits(token, chatId, result, labels, time))) ==
      if result.Success? then SavedSettings(token, chatId) else LoadSettings(p)
    ensures LoadLastForwardStatus(Replay(p, TestSendEdits(token, chatId, result, labels, time))) ==
      Some(TestStatus(time, labels, result))
    ensures IsForwardingEnabled(Replay(p, TestSendEdits(token, chatId, result, labels, time))) ==
      IsForwardingEnabled(p)
  {
    var status := PutLastForwardStatus(TestStatus(time, labels, result));
    ReplayOneTwo(p, PutSettings(token, chatId), status);
    ReplayOneTwo(p, status, status);
    if result.Success? {
      LoadAfterSaveSettings(p, token, chatId);
    }
  }

  lemma {:induction false} SettingsAfterValidate(p: Prefs, tokenText: Option<string>, chatIdText: Option<string>,
                                                 labels: Labels, outcome: HttpOutcome, time: string, hasPermission: bool)
    ensures var v := Validate(tokenText, chatIdText, labels, outcome, time, hasPermission);
      LoadSettings(Replay(p, v.edits)) ==
        if v.sent.Some? && Classify(outcome) == Returned(Success)
        then Some(TelegramSettings(Trim(tokenText.value), Trim(chatIdText.value)))
        else LoadSettings(p)
  {
    var v := Validate(tokenText, chatIdText, labels, outcome, time, hasPermission);
    var token, chatId := TrimmedInput(tokenText), TrimmedInput(chatIdText);
    if IsBlank(token) || IsBlank(chatId) {
      assert v.edits == [];
    } else {
      var c := Classify(outcome);
      if c.Returned? {
        assert v.edits == TestSendEdits(token, chatId, c.result, labels, time);
        TestSendEffects(p, token, chatId, c.result, labels, time);
        if c.result.Success? {
          assert LoadSettings(Replay(p, v.edits)) == SavedSettings(token, chatId);
          assert SavedSettings(token, chatId) == Some(TelegramSettings(Trim(token), Trim(chatId)));
          TrimIdempotent(tokenText.value);
          TrimIdempotent(chatIdText.value);
        }
      } else {
        assert v.edits == [];
      }
    }
  }

  lemma {:induction false} StatusAfterValidate(p: Prefs, tokenText: Option<string>, chatIdText: Option<string>,
                                               labels: Labels, outcome: HttpOutcome, time: string, hasPermission: bool)
    ensures var v := Validate(tokenText, chatIdText, labels, outcome, time, hasPermission);
      && LoadLastForwardStatus(Replay(p, v.edits)) ==
           (if v.sent.Some? && Classify(outcome).Returned?
            then Some(TestStatus(time, labels, Classify(outcome).result))
            else LoadLastForwardStatus(p))
      && IsForwardingEnabled(Replay(p, v.edits)) == IsForwardingEnabled(p)
  {
    var v := Validate(tokenText, chatIdText, labels, outcome, time, hasPermission);
    var token, chatId := TrimmedInput(tokenText), TrimmedInput(chatIdText);
    if IsBlank(token) || IsBlank(chatId) {
      assert v.edits == [];
    } else {
      var c := Classify(outcome);
      if c.Returned? {
        assert v.edits == TestSendEdits(token, chatId, c.result, labels, time);
        TestSendEffects(p, token, chatId, c.result, labels, time);
      } else {
        assert v.edits == [];
      }
    }
  }

  /** Unless the test message goes through, every key but the status keeps its
      stored value, the token behind first launch included. */
  lemma {:induction false} KeysKeptUnlessSaved(p: Prefs, tokenText: Option<string>, chatIdText: Option<string>,
                                               labels: Labels, outcome: HttpOutcome, time: string, hasPermission: bool)
    ensures var v := Validate(tokenText, chatIdText, labels, outcome, time, hasPermission);
      var q := Replay(p, v.edits);
      !(v.sent.Some? && Classify(outcome) == Returned(Success)) ==> q == p.(lastForwardStatus := q.lastForwardStatus)
  {
    var v := Validate(tokenText, chatIdText, labels, outcome, time, hasPermission);
    var token, chatId := TrimmedInput(tokenText), TrimmedInput(chatIdText);
    if IsBlank(token) || IsBlank(chatId) {
      assert v.edits == [];
    } else {
      var c := Classify(outcome);
      if c.Returned? && c.result.Failure? {
        var status := PutLastForwardStatus(TestStatus(time, labels, c.result));
        assert v.edits == [status];
        ReplayOneTwo(p, status, status);
      } else if c.Raised? {
        assert v.edits == [];
      }
    }
  }

  /** The settings are saved only when the test message goes through, and then
      they load back as the trimmed inputs; a failed send writes only the status,
      a raised exception writes nothing, and the forwarding flag is never touched. */
  lemma {:induction false} SavedOnlyOnSuccess(p: Prefs, tokenText: Option<string>, chatIdText: Option<string>,
                                              labels: Labels, outcome: HttpOutcome, time: string, hasPermission: bool)
    ensures var v := Validate(tokenText, chatIdText, labels, outcome, time, hasPermission);
      var q := Replay(p, v.edits);
      && LoadSettings(q) ==
           (if v.sent.Some? && Classify(outcome) == Returned(Success)
            then Some(TelegramSettings(Trim(tokenText.value), Trim(chatIdText.value)))
            else LoadSettings(p))
      && LoadLastForwardStatus(q) ==
           (if v.sent.Some? && Classify(outcome).Returned?
            then Some(TestStatus(time, labels, Classify(outcome).result))
            else LoadLastForwardStatus(p))
      && IsForwardingEnabled(q) == IsForwardingEnabled(p)
      && (!(v.sent.Some? && Classify(outcome) == Returned(Success)) ==> q == p.(lastForwardStatus := q.lastForwardStatus))
  {
    SettingsAfterValidate(p, tokenText, chatIdText, labels, outcome, time, hasPermission);
    StatusAfterValidate(p, tokenText, chatIdText, labels, outcome, time, hasPermission);
    KeysKeptUnlessSaved(p, tokenText, chatIdText, labels, outcome, time, hasPermission);
  }

  /** After a successful validation the wizard moves to the page it would open
      on when started again with the same permission state. */
  lemma {:induction false} ValidatedResumes(p: Prefs, tokenText: Option<string>, chatIdText: Option<string>,
                                            labels: Labels, outcome: HttpOutcome, time: string, hasPermission: bool)
    ensures var v := Validate(tokenText, chatIdText, labels, outcome, time, hasPermission);
      v.next.Some? ==> v.next.value == StartStep(Replay(p, v.edits), hasPermission) && v.next.value != Config
  {
    var v := Validate(tokenText, chatIdText, labels, outcome, time, hasPermission);
    SettingsAfterValidate(p, tokenText, chatIdText, labels, outcome, time, hasPermission);
    if v.next.Some? {
      assert v.sent.Some? && Classify(outcome) == Returned(Success);
      assert LoadSettings(Replay(p, v.edits)).Some?;
    }
  }

  /** `validateAndContinue()`, with the send phase run after the checks as the
      launched coroutine does. */
  method ValidateAndContinue(store: SettingsRepository, tokenText: Option<string>, chatIdText: Option<string>,
                             labels: Labels, outcome: HttpOutcome, time: string, hasPermission: bool)
    returns (tokenError: Option<string>, chatIdError: Option<string>, sent: Option<Request>, next: Option<WizardStep>)
    modifies store
    ensures tokenError == Validate(tokenText, chatIdText, labels, outcome, time, hasPermission).tokenError
    ensures chatIdError == Validate(tokenText, chatIdText, labels, outcome, time, hasPermission).chatIdError
    ensures sent == Validate(tokenText, chatIdText, labels, outcome, time, hasPermission).sent
    ensures next == Validate(tokenText, chatIdText, labels, outcome, time, hasPermission).next
    ensures store.prefs == Replay(old(store.prefs), Validate(tokenText, chatIdText, labels, outcome, time, hasPermission).edits)
  {
    ghost var v := Validate(tokenText, chatIdText, labels, outcome, time, hasPermission);
    var token := TrimmedInput(tokenText);
    var chatId := TrimmedInput(chatIdText);
    var hasError := false;
    if IsBlank(token) {
      tokenError := Some(labels.hintApiToken);
      hasError := true;
    } else {
      tokenError := None;
    }
    if IsBlank(chatId) {
      chatIdError := Some(labels.hintChatId);
      hasError := true;
    } else {
      chatIdError := None;
    }
    sent, next := None, None;
    if hasError {
      assert v.edits == [];
      return;
    }

    assert v.sent == Some(SendMessage(token, chatId, labels.testMessageBody, outcome).request);
    assert v.edits == TestSendOutcomeEdits(token, chatId, outcome, labels, time);
    sent, next := TestAndSave(store, token, chatId, labels, outcome, time, hasPermission);
  }

  /** The coroutine `validateAndContinue()` launches: the test message with the
      trimmed inputs, then the writes for its result and the next page. */
  method TestAndSave(store: SettingsRepository, token: string, chatId: string, labels: Labels,
                     outcome: HttpOutcome, time: string, hasPermission: bool)
    returns (sent: Option<Request>, next: Option<WizardStep>)
    modifies store
    ensures sent == Some(SendMessage(token, chatId, labels.testMessageBody, outcome).request)
    ensures next == if Classify(outcome) == Returned(Success) then Some(if hasPermission then Summary else Permission) else None
    ensures store.prefs == Replay(old(store.prefs), TestSendOutcomeEdits(token, chatId, outcome, labels, time))
  {
    var call := SendMessage(token, chatId, labels.testMessageBody, outcome);
    sent, next := Some(call.request), None;
    if call.completion.Returned? {
      var result := call.completion.result;
      var status := TestStatus(time, labels, result);
      ghost var edits := TestSendEdits(token, chatId, result, labels, time);
      ReplayOneTwo(store.prefs, PutSettings(token, chatId), PutLastForwardStatus(status));
      ReplayOneTwo(store.prefs, PutLastForwardStatus(status), PutLastForwardStatus(status));
      if result.Success? {
        assert edits == [PutSettings(token, chatId), PutLastForwardStatus(status)];
        store.SaveSettings(token, chatId);
        store.SaveLastForwardStatus(status);
        next := Some(if hasPermission then Summary else Permission);
      } else {
        assert edits == [PutLastForwardStatus(status)];
        store.SaveLastForwardStatus(status);
      }
    }
  }

  /** The writes of `resetApp()`, in order; `setFirstLaunch(true)` comes first
      and is not one of them. */
  const ResetEdits := [PutSettings("", ""), PutLastForwardStatus(""), PutForwardingEnabled(false)]

  /** What `updateLastStatus()` displays: the switch shows the stored flag, the
      preview the stored status, or the "not configured" text when none is stored. */
  datatype StatusView = StatusView(switchChecked: bool, preview: string)

  function LastStatusView(p: Prefs, labels: Labels): StatusView {
    StatusView(IsForwardingEnabled(p), LoadLastForwardStatus(p).GetOr(labels.notConfigured))
  }

  /** After a reset, whatever was stored before: no settings, first launch again
      (so the wizard restarts at the welcome page), forwarding off, and an empty
      status, which the preview shows as an empty text rather than as the
      "not configured" text. */
  lemma {:induction false} AfterReset(p: Prefs, hasPermission: bool, labels: Labels)
    ensures var q := Replay(p, ResetEdits);
      && LoadSettings(q).None?
      && IsFirstLaunch(q)
      && LoadLastForwardStatus(q) == Some("")
      && !IsForwardingEnabled(q)
      && StartStep(q, hasPermission) == Welcome
      && LastStatusView(q, labels) == StatusView(false, "")
  {
    ResetReplay(p);
    assert Trim("") == "";
  }

  /** The three reset writes replayed: each key is overwritten, none is removed. */
  lemma ResetReplay(p: Prefs)
    ensures Replay(p, ResetEdits) == Prefs(Some(Trim("")), Some(Trim("")), Some(""), Some(false))
  {
    var e0, e1, e2 := PutSettings("", ""), PutLastForwardStatus(""), PutForwardingEnabled(false);
    assert ResetEdits == [] + [e0] + [e1] + [e2];
    ReplaySnoc(p, [], e0);
    ReplaySnoc(p, [e0], e1);
    ReplaySnoc(p, [e0] + [e1], e2);
  }

  /** `resetApp()`: returns the argument of `setFirstLaunch` and the page shown;
      what the store then holds is stated by `AfterReset`. */
  method ResetApp(store: SettingsRepository) returns (firstLaunchWrite: Option<bool>, step: WizardStep)
    modifies store
    ensures firstLaunchWrite == Some(true) && step == Welcome
    ensures store.prefs == Replay(old(store.prefs), ResetEdits)
  {
    firstLaunchWrite := Some(true);
    store.SaveSettings("", "");
    store.SaveLastForwardStatus("");
    store.SetForwardingEnabled(false);
    step := Welcome;
    ResetReplay(old(store.prefs));
  }

  /** What `sendTestMessage()` does: the request sent and the store edits. */
  datatype TestRun = TestRun(sent: Option<Request>, edits: seq<Edit>)

  function TestMessage(p: Prefs, labels: Labels, outcome: HttpOutcome, time: string): TestRun {
    match LoadSettings(p)
    case None => TestRun(None, [])
    case Some(settings) =>
      var call := SendMessage(settings.apiToken, settings.chatId, labels.testMessageBody, outcome);
      match call.completion
      case Returned(result) => TestRun(Some(call.request), [PutLastForwardStatus(TestStatus(time, labels, result))])
      case Raised => TestRun(Some(call.request), [])
  }

  /** A test message is sent exactly when settings are configured, with the
      stored token and chat id; without them nothing is sent or written. The
      settings and the forwarding flag never change; the status becomes the
      test's outcome when the call returns. */
  lemma {:induction false} TestMessageEffects(p: Prefs, labels: Labels, outcome: HttpOutcome, time: string)
    ensures var t := TestMessage(p, labels, outcome, time);
      var q := Replay(p, t.edits);
      && (t.sent.Some? <==> LoadSettings(p).Some?)
      && (t.sent.Some? ==>
            t.sent.value == BuildRequest(LoadSettings(p).value.apiToken, LoadSettings(p).value.chatId, labels.testMessageBody))
      && (t.sent.None? ==> q == p)
      && LoadSettings(q) == LoadSettings(p)
      && IsForwardingEnabled(q) == IsForwardingEnabled(p)
      && LoadLastForwardStatus(q) ==
           (if t.sent.Some? && Classify(outcome).Returned?
            then Some(TestStatus(time, labels, Classify(outcome).result))
            else LoadLastForwardStatus(p))
  {
    var t := TestMessage(p, labels, outcome, time);
    if t.edits != [] {
      assert t.edits[..0] == [];
    }
  }

  /** `sendTestMessage()`, with the send phase run after the check. */
  method SendTestMessage(store: SettingsRepository, labels: Labels, outcome: HttpOutcome, time: string)
    returns (sent: Option<Request>)
    modifies store
    ensures sent == TestMessage(old(store.prefs), labels, outcome, time).sent
    ensures store.prefs == Replay(old(store.prefs), TestMessage(old(store.prefs), labels, outcome, time).edits)
  {
    var settings := LoadSettings(store.prefs);
    if settings.None? {
      return None;
    }

    // the launched coroutine
    var call := SendMessage(settings.value.apiToken, settings.value.chatId, labels.testMessageBody, outcome);
    sent := Some(call.request);
    if call.completion.Returned? {
      var status := TestStatus(time, labels, call.completion.result);
      store.SaveLastForwardStatus(status);
      assert [PutLastForwardStatus(status)][..0] == [];
    }
  }

  /** The writes of the permission callback. */
  function PermissionEdits(granted: bool): seq<Edit> {
    if granted then [PutForwardingEnabled(true)] else []
  }

  /** A granted permission turns forwarding on and touches nothing else, and the
      summary page it moves to is where the wizard would open next time when the
      settings are configured; a denial leaves the store as it was. */
  lemma {:induction false} AfterPermissionResult(p: Prefs, granted: bool)
    ensures var q := Replay(p, PermissionEdits(granted));
      && (!granted ==> q == p)
      && (granted ==> q == p.(forwardingEnabled := Some(true)) && IsForwardingEnabled(q))
      && LoadSettings(q) == LoadSettings(p)
      && IsFirstLaunch(q) == IsFirstLaunch(p)
      && LoadLastForwardStatus(q) == LoadLastForwardStatus(p)
      && (granted && LoadSettings(p).Some? ==> StartStep(q, true) == Summary)
  {
    if granted {
      assert PermissionEdits(granted)[..0] == [];
    }
  }

  /** The `permissionLauncher` callback: returns the page it moves to, if any. */
  method OnPermissionResult(store: SettingsRepository, granted: bool) returns (next: Option<WizardStep>)
    modifies store
    ensures next == if granted then Some(Summary) else None
    ensures store.prefs == Replay(old(store.prefs), PermissionEdits(granted))
  {
    next := None;
    if granted {
      store.SetForwardingEnabled(true);
      next := Some(Summary);
      assert [PutForwardingEnabled(true)][..0] == [];
    }
  }

  /** The writes of the forwarding switch's listener: only a change the user made
      by pressing the switch is stored. */
  function SwitchEdits(pressed: bool, checked: bool): seq<Edit> {
    if pressed then [PutForwardingEnabled(checked)] else []
  }

  /** After the switch changes, the view shows the flag the user chose; a change
      made by `updateLastStatus()` itself (not pressed) writes nothing, so
      refreshing the view never feeds back into the store. */
  lemma {:induction false} SwitchReadBack(p: Prefs, pressed: bool, checked: bool, labels: Labels)
    ensures var q := Replay(p, SwitchEdits(pressed, checked));
      && LastStatusView(q, labels).switchChecked == (if pressed then checked else IsForwardingEnabled(p))
      && LastStatusView(q, labels).preview == LastStatusView(p, labels).preview
      && (!pressed ==> q == p)
  {
    if pressed {
      assert SwitchEdits(pressed, checked)[..0] == [];
    }
  }

  /** The forwarding switch's listener: a change the user did not make by
      pressing the switch returns at once; a pressed change stores the flag and
      refreshes the view from the store. */
  method OnForwardingSwitch(store: SettingsRepository, pressed: bool, checked: bool, labels: Labels)
    returns (view: Option<StatusView>)
    modifies store
    ensures store.prefs == Replay(old(store.prefs), SwitchEdits(pressed, checked))
    ensures view == if pressed then Some(LastStatusView(store.prefs, labels)) else None
  {
    if !pressed {
      return None;
    }
    store.SetForwardingEnabled(checked);
    assert [PutForwardingEnabled(checked)][..0] == [];
    view := Some(LastStatusView(store.prefs, labels));
  }

  /** The preview always shows the last status written, whatever was written in
      between; it shows the "not configured" text only while no status was ever
      written, and the switch shows the last flag set, or on if none was. */
  lemma {:induction false} PreviewShowsLastStatus(p: Prefs, edits: seq<Edit>, labels: Labels)
    ensures var view := LastStatusView(Replay(p, edits), labels);
      && view.preview == (match LastStatusWritten(edits)
                          case Some(status) => status
                          case None => LastStatusView(p, labels).preview)
      && view.switchChecked == LastFlagWritten(edits).GetOr(IsForwardingEnabled(p))
  {
    LastWriteWins(p, edits);
  }
}
