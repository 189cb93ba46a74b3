/**
 * The request body the telephony bots start from, and how they read it: the
 * dial-in fields, which may arrive capitalised or lower-case and in camelCase
 * or snake_case, and the switch for voicemail detection.
 */
module DialIn {
  import opened Wrappers
  import opened Dialing

  /**
   * The parts of the body the bots read. `voicemailDetection` holds the
   * truthiness of the `voicemail_detection` value when it is present.
   */
  datatype Body = Body(
    dialinSettings: Option<map<string, string>>,
    dialoutSettings: Option<seq<DialoutSetting>>,
    voicemailDetection: Option<bool>)

  datatype DialinSettings = DialinSettings(callId: Option<string>, callDomain: Option<string>)

  /** What the voicemail bot derives from the dial-in settings. */
  datatype Dialin = Dialin(dialled: Option<string>, caller: Option<string>, settings: Option<DialinSettings>)

  /**
   * What the plain PSTN bot derives: the same, except that a trailing comma
   * makes each phone number a one-element tuple.
   */
  datatype TupledDialin = TupledDialin(
    dialled: Option<seq<Option<string>>>, caller: Option<seq<Option<string>>>, settings: Option<DialinSettings>)

  function Get(m: map<string, string>, key: string): Option<string>
  {
    if key in m then Some(m[key]) else None
  }

  /**
   * Python's `m.get(first) or m.get(fallback)`: the first key's value when it
   * is a non-empty string, otherwise whatever the fallback key holds.
   */
  function FirstTruthy(m: map<string, string>, first: string, fallback: string): (r: Option<string>)
    ensures first in m && m[first] != "" ==> r == Some(m[first])
    ensures !(first in m && m[first] != "") ==> r == Get(m, fallback)
    ensures r.None? <==> !(first in m && m[first] != "") && fallback !in m
    ensures r.Some? ==> (first in m && r.value == m[first]) || (fallback in m && r.value == m[fallback])
  {
    if first in m && m[first] != "" then Some(m[first]) else Get(m, fallback)
  }

  /** A dictionary or list body value is truthy when present and non-empty. */
  predicate HasDialin(body: Body)
  {
    body.dialinSettings.Some? && body.dialinSettings.value != map[]
  }

  predicate HasDialout(body: Body)
  {
    body.dialoutSettings.Some? && body.dialoutSettings.value != []
  }

  function SettingsOf(raw: map<string, string>): (s: DialinSettings)
    ensures s.callId == FirstTruthy(raw, "callId", "call_id")
    ensures s.callDomain == FirstTruthy(raw, "callDomain", "call_domain")
  {
    DialinSettings(FirstTruthy(raw, "callId", "call_id"), FirstTruthy(raw, "callDomain", "call_domain"))
  }

  /**
   * The voicemail bot's reading of the dial-in settings. Nothing is derived
   * unless the settings are present and non-empty; then each field takes
   * the capitalised or camelCase key when it holds a non-empty string, and
   * otherwise the lower-case or snake_case key, absent only when that key is
   * missing too.
   */
  function NormaliseDialin(body: Body): (d: Dialin)
    ensures !HasDialin(body) ==> d == Dialin(None, None, None)
    ensures HasDialin(body) ==> d.settings.Some?
    ensures HasDialin(body) ==>
              var raw := body.dialinSettings.value;
              && ("To" in raw && raw["To"] != "" ==> d.dialled == Some(raw["To"]))
              && (!("To" in raw && raw["To"] != "") ==> d.dialled == (if "to" in raw then Some(raw["to"]) else None))
              && ("From" in raw && raw["From"] != "" ==> d.caller == Some(raw["From"]))
              && (!("From" in raw && raw["From"] != "") ==> d.caller == (if "from" in raw then Some(raw["from"]) else None))
  {
    if HasDialin(body) then
      var raw := body.dialinSettings.value;
      Dialin(FirstTruthy(raw, "To", "to"), FirstTruthy(raw, "From", "from"), Some(SettingsOf(raw)))
    else
      Dialin(None, None, None)
  }

  /** The plain PSTN bot's reading of the dial-in settings. */
  function NormaliseDialinTupled(body: Body): (d: TupledDialin)
    ensures d.dialled.Some? ==> |d.dialled.value| == 1
    ensures d.caller.Some? ==> |d.caller.value| == 1
  {
    if HasDialin(body) then
      var raw := body.dialinSettings.value;
      TupledDialin(Some([FirstTruthy(raw, "To", "to")]), Some([FirstTruthy(raw, "From", "from")]), Some(SettingsOf(raw)))
    else
      TupledDialin(None, None, None)
  }

  /** The two bots read the same fields; the plain bot only wraps each phone number in a tuple. */
  lemma TupledAgreesWithPlain(body: Body)
    ensures var plain := NormaliseDialin(body);
            var tupled := NormaliseDialinTupled(body);
            && tupled.settings == plain.settings
            && tupled.dialled == (if HasDialin(body) then Some([plain.dialled]) else None)
            && tupled.caller == (if HasDialin(body) then Some([plain.caller]) else None)
  {
  }

  /** `bool(voicemail_detection and dialout_settings)`. */
  predicate UsingVoicemailDetection(body: Body)
  {
    body.voicemailDetection == Some(true) && HasDialout(body)
  }

  /** Which event handlers the voicemail bot creates for a body. */
  datatype Handlers = Handlers(dialin: bool, dialout: bool, general: bool)

  /**
   * A dial-in handler when dial-in settings were derived, a dial-out handler
   * when there are dial-out settings, and always the general handler.
   */
  function HandlersFor(body: Body): (h: Handlers)
    ensures h.general
    ensures h.dialin <==> HasDialin(body)
    ensures h.dialout <==> HasDialout(body)
  {
    Handlers(NormaliseDialin(body).settings.Some?, HasDialout(body), true)
  }

  /**
   * The voicemail flow only runs when there is a dial-out handler to place the
   * call, and asking for it without dial-out settings leaves the bot in
   * standard conversation mode.
   */
  lemma VoicemailFlowHasDialer(body: Body)
    ensures UsingVoicemailDetection(body) ==> HandlersFor(body).dialout
    ensures !HasDialout(body) ==> !UsingVoicemailDetection(body)
    ensures UsingVoicemailDetection(body) <==> body.voicemailDetection == Some(true) && HandlersFor(body).dialout
  {
  }

  /**
   * How the call fields are read: the camelCase key wins when it holds a
   * non-empty string; otherwise the snake_case key is used, and the field is
   * absent only when that is missing too.
   */
  lemma KeyPrecedence(raw: map<string, string>)
    ensures var s := SettingsOf(raw);
            && ("callId" in raw && raw["callId"] != "" ==> s.callId == Some(raw["callId"]))
            && (!("callId" in raw && raw["callId"] != "") ==> s.callId == (if "call_id" in raw then Some(raw["call_id"]) else None))
            && ("callDomain" in raw && raw["callDomain"] != "" ==> s.callDomain == Some(raw["callDomain"]))
            && (!("callDomain" in raw && raw["callDomain"] != "")
                ==> s.callDomain == (if "call_domain" in raw then Some(raw["call_domain"]) else None))
  {
  }
}
