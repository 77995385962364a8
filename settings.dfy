/**
 * SettingsRepository: the app's key/value store. It wraps one private preferences
 * file, "sms_forwarder_prefs", and reads and writes four keys in it. The store is
 * modelled as a snapshot of those keys (`Prefs`), loaders that read a snapshot,
 * and a class whose setters overwrite keys in place.
 */
module Settings {
  import opened Wrappers
  import opened Text

  /** The pair `loadSettings` hands out once both values are configured. */
  datatype TelegramSettings = TelegramSettings(apiToken: string, chatId: string)

  /** The contents of the preferences file: one optional value per key
      ("api_token", "chat_id", "last_forward_status", "forwarding_enabled").
      `None` means that nothing was ever stored under that key. */
  datatype Prefs = Prefs(
    apiToken: Option<string>,
    chatId: Option<string>,
    lastForwardStatus: Option<string>,
    forwardingEnabled: Option<bool>)

  /** The file of a new installation: no key has been written. */
  const FreshInstall := Prefs(None, None, None, None)

  /** `getString(key, null)?.takeIf { it.isNotBlank() }` */
  function NonBlank(stored: Option<string>): (r: Option<string>)
    ensures r.Some? <==> stored.Some? && !IsBlank(stored.value)
    ensures r.Some? ==> r == stored
  {
    if stored.Some? && !IsBlank(stored.value) then stored else None
  }

  /** `loadSettings()`: the stored pair when both values are present and not blank,
      otherwise nothing; a partial configuration is not an error. */
  function LoadSettings(p: Prefs): (r: Option<TelegramSettings>)
    ensures r.Some? <==>
      p.apiToken.Some? && !IsBlank(p.apiToken.value) && p.chatId.Some? && !IsBlank(p.chatId.value)
    ensures r.Some? ==> r.value.apiToken == p.apiToken.value && r.value.chatId == p.chatId.value
  {
    var token := NonBlank(p.apiToken);
    var chatId := NonBlank(p.chatId);
    if token.Some? && chatId.Some? then Some(TelegramSettings(token.value, chatId.value)) else None
  }

  /** `isFirstLaunch()`: no token, or a blank one, is stored; the chat id plays no part. */
  predicate IsFirstLaunch(p: Prefs) {
    p.apiToken.None? || IsBlank(p.apiToken.value)
  }

  /** `loadLastForwardStatus()` */
  function LoadLastForwardStatus(p: Prefs): Option<string> {
    p.lastForwardStatus
  }

  /** `isForwardingEnabled()`: the stored flag, `true` when it was never set. */
  predicate IsForwardingEnabled(p: Prefs) {
    p.forwardingEnabled.GetOr(true)
  }

  /** The three writes the repository makes, each one `edit {}` block. */
  datatype Edit =
    | PutSettings(token: string, chatId: string)
    | PutLastForwardStatus(status: string)
    | PutForwardingEnabled(enabled: bool)

  /** The file after one edit: `saveSettings` stores both values trimmed, the other
      two overwrite their single key; every other key keeps its value. */
  function Apply(p: Prefs, e: Edit): Prefs {
    match e
    case PutSettings(token, chatId) => p.(apiToken := Some(Trim(token)), chatId := Some(Trim(chatId)))
    case PutLastForwardStatus(status) => p.(lastForwardStatus := Some(status))
    case PutForwardingEnabled(enabled) => p.(forwardingEnabled := Some(enabled))
  }

  /** The file after a sequence of edits, oldest first. */
  function Replay(p: Prefs, edits: seq<Edit>): Prefs {
    if edits == [] then p else Apply(Replay(p, edits[..|edits| - 1]), edits[|edits| - 1])
  }

  /** Replaying one more edit applies it to the file the earlier ones left. */
  lemma ReplaySnoc(p: Prefs, edits: seq<Edit>, e: Edit)
    ensures Replay(p, edits + [e]) == Apply(Replay(p, edits), e)
  {
    assert (edits + [e])[..|edits|] == edits;
  }

  /** One edit, and two edits in a row, replayed. */
  lemma ReplayOneTwo(p: Prefs, e1: Edit, e2: Edit)
    ensures Replay(p, [e1]) == Apply(p, e1)
    ensures Replay(p, [e1, e2]) == Apply(Apply(p, e1), e2)
  {
    assert [e1][..0] == [];
    assert [e1, e2][..1] == [e1];
  }

  /** The pair that `saveSettings(token, chatId)` makes `loadSettings()` return: the
      trimmed values when neither is blank, nothing otherwise. */
  function SavedSettings(token: string, chatId: string): Option<TelegramSettings> {
    if IsBlank(token) || IsBlank(chatId) then None else Some(TelegramSettings(Trim(token), Trim(chatId)))
  }

  /** Saving then loading the settings round-trips the trimmed values, or yields
      nothing when either value is blank; first launch then depends on the token
      alone, and the status and the forwarding flag are untouched. */
  lemma {:induction false} LoadAfterSaveSettings(p: Prefs, token: string, chatId: string)
    ensures LoadSettings(Apply(p, PutSettings(token, chatId))) == SavedSettings(token, chatId)
    ensures IsFirstLaunch(Apply(p, PutSettings(token, chatId))) <==> IsBlank(token)
    ensures LoadLastForwardStatus(Apply(p, PutSettings(token, chatId))) == LoadLastForwardStatus(p)
    ensures IsForwardingEnabled(Apply(p, PutSettings(token, chatId))) == IsForwardingEnabled(p)
  {
    BlankAfterTrim(token);
    BlankAfterTrim(chatId);
  }

  /** Saving a status makes it the loaded status, whatever it is (also ""), and
      touches no other key. */
  lemma LoadAfterSaveStatus(p: Prefs, status: string)
    ensures LoadLastForwardStatus(Apply(p, PutLastForwardStatus(status))) == Some(status)
    ensures LoadSettings(Apply(p, PutLastForwardStatus(status))) == LoadSettings(p)
    ensures IsFirstLaunch(Apply(p, PutLastForwardStatus(status))) == IsFirstLaunch(p)
    ensures IsForwardingEnabled(Apply(p, PutLastForwardStatus(status))) == IsForwardingEnabled(p)
  {
  }

  /** Setting the forwarding flag makes it the loaded flag and touches no other key. */
  lemma LoadAfterSetForwarding(p: Prefs, enabled: bool)
    ensures IsForwardingEnabled(Apply(p, PutForwardingEnabled(enabled))) == enabled
    ensures LoadSettings(Apply(p, PutForwardingEnabled(enabled))) == LoadSettings(p)
    ensures IsFirstLaunch(Apply(p, PutForwardingEnabled(enabled))) == IsFirstLaunch(p)
    ensures LoadLastForwardStatus(Apply(p, PutForwardingEnabled(enabled))) == LoadLastForwardStatus(p)
  {
  }

  /** The status of the last `PutLastForwardStatus` among `edits`, if any. */
  function LastStatusWritten(edits: seq<Edit>): Option<string> {
    if edits == [] then None
    else match edits[|edits| - 1]
      case PutLastForwardStatus(status) => Some(status)
      case _ => LastStatusWritten(edits[..|edits| - 1])
  }

  /** The flag of the last `PutForwardingEnabled` among `edits`, if any. */
  function LastFlagWritten(edits: seq<Edit>): Option<bool> {
    if edits == [] then None
    else match edits[|edits| - 1]
      case PutForwardingEnabled(enabled) => Some(enabled)
      case _ => LastFlagWritten(edits[..|edits| - 1])
  }

  /** The last `PutSettings` among `edits`, if any. */
  function LastSettingsWritten(edits: seq<Edit>): (r: Option<Edit>)
    ensures r.Some? ==> r.value.PutSettings? && r.value in edits
  {
    if edits == [] then None
    else if edits[|edits| - 1].PutSettings? then Some(edits[|edits| - 1])
    else LastSettingsWritten(edits[..|edits| - 1])
  }

  /** Every key is overwritten, never appended to: after any history of edits the
      status read back is the last one written (also ""), or the earlier one if
      none was; the forwarding flag is the last one set, or the earlier one; the
      settings are those of the last `saveSettings`, or the earlier ones. From a
      new installation this reads: the status is absent only if none was ever
      written, and forwarding is enabled unless it was last set to `false`. */
  lemma {:induction false} LastWriteWins(p: Prefs, edits: seq<Edit>)
    ensures LoadLastForwardStatus(Replay(p, edits)) == LastStatusWritten(edits).Or(LoadLastForwardStatus(p))
    ensures IsForwardingEnabled(Replay(p, edits)) == LastFlagWritten(edits).GetOr(IsForwardingEnabled(p))
    ensures LoadSettings(Replay(p, edits)) ==
      match LastSettingsWritten(edits)
      case Some(PutSettings(token, chatId)) => SavedSettings(token, chatId)
      case _ => LoadSettings(p)
  {
    if edits != [] {
      var init, e := edits[..|edits| - 1], edits[|edits| - 1];
      LastWriteWins(p, init);
      if e.PutSettings? {
        LoadAfterSaveSettings(Replay(p, init), e.token, e.chatId);
      }
    }
  }

  /** From a new installation: the status is absent exactly when none was ever
      written, forwarding is on unless it was last set to `false`, and settings
      load only after a save of two non-blank values. */
  lemma FreshInstallHistory(edits: seq<Edit>)
    ensures LoadLastForwardStatus(Replay(FreshInstall, edits)).None? <==> LastStatusWritten(edits).None?
    ensures IsForwardingEnabled(Replay(FreshInstall, edits)) <==> LastFlagWritten(edits) != Some(false)
    ensures LoadSettings(Replay(FreshInstall, edits)).Some? ==>
      LastSettingsWritten(edits).Some? && !IsBlank(LastSettingsWritten(edits).value.token)
      && !IsBlank(LastSettingsWritten(edits).value.chatId)
  {
    LastWriteWins(FreshInstall, edits);
  }

  /** The repository object. Its one field is the preferences file it wraps; the
      loaders above read `prefs`, the setters below overwrite keys in it. */
  class SettingsRepository {
    var prefs: Prefs

    /** Opens the file as it is currently stored. */
    constructor (stored: Prefs)
      ensures prefs == stored
    {
      prefs := stored;
    }

    /** `saveSettings(token, chatId)`: both values trimmed, written in one edit. */
    method SaveSettings(token: string, chatId: string)
      modifies this
      ensures prefs == Apply(old(prefs), PutSettings(token, chatId))
      ensures LoadSettings(prefs) == SavedSettings(token, chatId)
      ensures IsFirstLaunch(prefs) <==> IsBlank(token)
    {
      prefs := prefs.(apiToken := Some(Trim(token)), chatId := Some(Trim(chatId)));
      LoadAfterSaveSettings(old(prefs), token, chatId);
    }

    /** `saveLastForwardStatus(status)`: the status is overwritten, never appended. */
    method SaveLastForwardStatus(status: string)
      modifies this
      ensures prefs == Apply(old(prefs), PutLastForwardStatus(status))
      ensures LoadLastForwardStatus(prefs) == Some(status)
    {
      prefs := prefs.(lastForwardStatus := Some(status));
    }

    /** `setForwardingEnabled(enabled)` */
    method SetForwardingEnabled(enabled: bool)
      modifies this
      ensures prefs == Apply(old(prefs), PutForwardingEnabled(enabled))
      ensures IsForwardingEnabled(prefs) == enabled
    {
      prefs := prefs.(forwardingEnabled := Some(enabled));
    }
  }
}
