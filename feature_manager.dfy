/**
 * The base image's feature manager. It records, for each optional feature,
 * whether it is enabled, filling its table in dependency order: the two
 * built-in transports, then the SmallWebRTC session support, and only when
 * that is enabled the SmallWebRTC transport, and only when that is enabled
 * the ICE-candidate patch and the WhatsApp integration.
 *
 * What the imports, the client signature and the environment report is an
 * `Environment` value given to the manager.
 */
module FeatureManager {
  import opened Wrappers
  import opened Text

  datatype FeatureStatus = Enabled | Disabled | Error | MissingConfig

  datatype FeatureKey =
    | DailyTransport | WebsocketTransport | SmallWebrtcSession
    | SmallwebrtcTransport | SmallwebrtcPatch | WhatsApp

  datatype FeatureInfo = FeatureInfo(
    name: string,
    status: FeatureStatus,
    versionRequired: string,
    errorMessage: string,
    configRequirements: seq<string>)

  /** An import whose only failure the manager catches is `ImportError`. */
  datatype GuardedImport = Available | Unavailable(message: string)

  /** An import whose failures are split into `ImportError` and any other exception. */
  datatype CheckedImport = Loaded | ImportFailed(message: string) | Crashed(message: string)

  datatype Environment = Environment(
    sessionImport: GuardedImport,
    transportImport: CheckedImport,
    patchImport: GuardedImport,
    whatsappImport: CheckedImport,
    /** Whether the WhatsApp client's constructor takes a `whatsapp_secret` parameter. */
    clientTakesSecret: bool,
    vars: map<string, string>)

  type Features = map<FeatureKey, FeatureInfo>

  const SessionUnavailable := "Requires small_webrtc_session to be enabled"
  const TransportUnavailable := "Requires SmallWebRTCTransport to be enabled"
  const SecretUnsupported := "WhatsApp client doesn't support whatsapp_secret parameter"
  const WhatsAppEnvVars: seq<string> := ["WHATSAPP_TOKEN", "WHATSAPP_PHONE_NUMBER_ID", "WHATSAPP_APP_SECRET"]

  /** A feature record; an absent requirements list is stored as the empty list. */
  function MakeFeatureInfo(name: string, versionRequired: string, status: FeatureStatus,
                           errorMessage: string, configRequirements: Option<seq<string>>): (fi: FeatureInfo)
    ensures fi.name == name && fi.versionRequired == versionRequired
    ensures fi.status == status && fi.errorMessage == errorMessage
    ensures configRequirements.None? ==> fi.configRequirements == []
    ensures configRequirements.Some? ==> fi.configRequirements == configRequirements.value
  {
    FeatureInfo(name, status, versionRequired, errorMessage,
                if configRequirements.Some? then configRequirements.value else [])
  }

  /**
   * Records are normalised on creation: rebuilding a record from its own
   * fields gives it back, and an absent requirements list and an empty one
   * give the same record.
   */
  lemma RequirementsDefault(name: string, versionRequired: string, status: FeatureStatus,
                            errorMessage: string, configRequirements: Option<seq<string>>)
    ensures var fi := MakeFeatureInfo(name, versionRequired, status, errorMessage, configRequirements);
            MakeFeatureInfo(fi.name, fi.versionRequired, fi.status, fi.errorMessage, Some(fi.configRequirements)) == fi
    ensures MakeFeatureInfo(name, versionRequired, status, errorMessage, None)
         == MakeFeatureInfo(name, versionRequired, status, errorMessage, Some([]))
  {
  }

  predicate IsEnabledIn(features: Features, key: FeatureKey)
  {
    key in features && features[key].status == Enabled
  }

  // The records each detector writes.

  function Info(key: FeatureKey, status: FeatureStatus, message: string): (fi: FeatureInfo)
    ensures fi.status == status && fi.errorMessage == message
  {
    match key
    case DailyTransport => MakeFeatureInfo("Daily Transport", "", status, message, None)
    case WebsocketTransport => MakeFeatureInfo("Websocket Transport", "", status, message, None)
    case SmallWebrtcSession => MakeFeatureInfo("SmallWebRTC Session Arguments", "pipecatcloud>=0.2.5", status, message, None)
    case SmallwebrtcTransport => MakeFeatureInfo("SmallWebRTC Transport", "pipecat-ai[webrtc]", status, message, None)
    case SmallwebrtcPatch => MakeFeatureInfo("SmallWebRTC ICE Candidates", "pipecat-ai>=0.0.91", status, message, None)
    case WhatsApp => MakeFeatureInfo("WhatsApp Integration", "pipecat-ai>=0.0.89", status, message, None)
  }

  function GuardedInfo(key: FeatureKey, outcome: GuardedImport): (fi: FeatureInfo)
    ensures fi.status == Enabled <==> outcome.Available?
    ensures fi.status == Enabled || fi.status == Disabled
  {
    match outcome
    case Available => Info(key, Enabled, "")
    case Unavailable(message) => Info(key, Disabled, message)
  }

  function CheckedInfo(key: FeatureKey, outcome: CheckedImport): (fi: FeatureInfo)
    ensures fi.status == Enabled <==> outcome.Loaded?
    ensures fi.status == Disabled <==> outcome.ImportFailed?
    ensures fi.status == Error <==> outcome.Crashed?
  {
    match outcome
    case Loaded => Info(key, Enabled, "")
    case ImportFailed(message) => Info(key, Disabled, message)
    case Crashed(message) => Info(key, Error, message)
  }

  /** The required variables that are unset or empty, in their declared order. */
  function MissingVars(vars: map<string, string>, required: seq<string>): (missing: seq<string>)
    ensures |missing| <= |required|
    ensures forall v :: v in missing <==> v in required && (v !in vars || vars[v] == "")
  {
    if required == [] then []
    else
      var v := required[0];
      (if v !in vars || vars[v] == "" then [v] else []) + MissingVars(vars, required[1..])
  }

  /** The variables are checked one by one, so the missing ones are listed in declared order. */
  lemma {:induction false} MissingVarsAppend(vars: map<string, string>, a: seq<string>, b: seq<string>)
    ensures MissingVars(vars, a + b) == MissingVars(vars, a) + MissingVars(vars, b)
    decreases |a|
  {
    if a == [] {
      assert a + b == b;
    } else {
      var ab := a + b;
      assert ab[0] == a[0];
      assert ab[1..] == a[1..] + b;
      MissingVarsAppend(vars, a[1..], b);
    }
  }

  function WhatsAppInfo(env: Environment): (fi: FeatureInfo)
    ensures fi.status == Disabled <==> env.whatsappImport.ImportFailed?
    ensures fi.status == Error <==> env.whatsappImport.Crashed? || (env.whatsappImport.Loaded? && !env.clientTakesSecret)
    ensures !env.whatsappImport.Loaded? ==> fi.errorMessage == env.whatsappImport.message
    ensures fi.status == Enabled <==>
              env.whatsappImport.Loaded? && env.clientTakesSecret && MissingVars(env.vars, WhatsAppEnvVars) == []
    ensures fi.status == MissingConfig <==>
              env.whatsappImport.Loaded? && env.clientTakesSecret && MissingVars(env.vars, WhatsAppEnvVars) != []
    ensures env.whatsappImport.Loaded? && !env.clientTakesSecret ==> fi.status == Error && fi.errorMessage == SecretUnsupported
    ensures fi.status == MissingConfig ==>
              fi.errorMessage == "Missing environment variables: " + Join(MissingVars(env.vars, WhatsAppEnvVars), ", ")
    ensures env.whatsappImport.Loaded? && env.clientTakesSecret ==> fi.configRequirements == WhatsAppEnvVars
  {
    match env.whatsappImport
    case ImportFailed(message) => Info(WhatsApp, Disabled, message)
    case Crashed(message) => Info(WhatsApp, Error, message)
    case Loaded =>
      if !env.clientTakesSecret then Info(WhatsApp, Error, SecretUnsupported)
      else
        var missing := MissingVars(env.vars, WhatsAppEnvVars);
        if missing != [] then
          MakeFeatureInfo("WhatsApp Integration", "pipecat-ai>=0.0.89", MissingConfig,
                          "Missing environment variables: " + Join(missing, ", "), Some(WhatsAppEnvVars))
        else
          MakeFeatureInfo("WhatsApp Integration", "pipecat-ai>=0.0.89", Enabled, "", Some(WhatsAppEnvVars))
  }

  // The stages of construction, each a function of the table before it.

  const DefaultKeys: seq<FeatureKey> := [DailyTransport, WebsocketTransport]

  /** The table after enabling the first `n` built-in transports. */
  function WithDefaults(features: Features, keys: seq<FeatureKey>): Features
  {
    if keys == [] then features
    else WithDefaults(features, keys[..|keys| - 1])[keys[|keys| - 1] := Info(keys[|keys| - 1], Enabled, "")]
  }

  function SmallWebrtcStage(features: Features, env: Environment): (r: Features)
    ensures r.Keys == features.Keys + {SmallwebrtcTransport, SmallwebrtcPatch, WhatsApp}
    ensures forall key | key in features && key !in {SmallwebrtcTransport, SmallwebrtcPatch, WhatsApp} ::
              r[key] == features[key]
    // Without session support, the three records say so.
    ensures !IsEnabledIn(features, SmallWebrtcSession) ==>
              forall key | key in {SmallwebrtcTransport, SmallwebrtcPatch, WhatsApp} ::
                r[key].status == Disabled && r[key].errorMessage == SessionUnavailable
    // With it, the transport's own check stands; without the transport, the other two say so.
    ensures IsEnabledIn(features, SmallWebrtcSession) ==>
              r[SmallwebrtcTransport] == CheckedInfo(SmallwebrtcTransport, env.transportImport)
    ensures IsEnabledIn(features, SmallWebrtcSession) && !env.transportImport.Loaded? ==>
              forall key | key in {SmallwebrtcPatch, WhatsApp} ::
                r[key].status == Disabled && r[key].errorMessage == TransportUnavailable
    ensures IsEnabledIn(features, SmallWebrtcSession) && env.transportImport.Loaded? ==>
              r[SmallwebrtcPatch] == GuardedInfo(SmallwebrtcPatch, env.patchImport) && r[WhatsApp] == WhatsAppInfo(env)
  {
    if !IsEnabledIn(features, SmallWebrtcSession) then
      features[SmallwebrtcTransport := Info(SmallwebrtcTransport, Disabled, SessionUnavailable)]
              [SmallwebrtcPatch := Info(SmallwebrtcPatch, Disabled, SessionUnavailable)]
              [WhatsApp := Info(WhatsApp, Disabled, SessionUnavailable)]
    else
      var withTransport := features[SmallwebrtcTransport := CheckedInfo(SmallwebrtcTransport, env.transportImport)];
      if !IsEnabledIn(withTransport, SmallwebrtcTransport) then
        withTransport[SmallwebrtcPatch := Info(SmallwebrtcPatch, Disabled, TransportUnavailable)]
                     [WhatsApp := Info(WhatsApp, Disabled, TransportUnavailable)]
      else
        withTransport[SmallwebrtcPatch := GuardedInfo(SmallwebrtcPatch, env.patchImport)]
                     [WhatsApp := WhatsAppInfo(env)]
  }

  /**
   * When a feature is enabled after construction, as a dependency graph: the
   * built-in transports always; the session support when its import works;
   * the SmallWebRTC transport when, in addition, it loads; the patch and
   * WhatsApp when, in addition to the transport, their own checks pass.
   */
  predicate EnabledFor(env: Environment, key: FeatureKey)
  {
    match key
    case DailyTransport => true
    case WebsocketTransport => true
    case SmallWebrtcSession => env.sessionImport.Available?
    case SmallwebrtcTransport => env.sessionImport.Available? && env.transportImport.Loaded?
    case SmallwebrtcPatch =>
      env.sessionImport.Available? && env.transportImport.Loaded? && env.patchImport.Available?
    case WhatsApp =>
      && env.sessionImport.Available? && env.transportImport.Loaded? && env.whatsappImport.Loaded?
      && env.clientTakesSecret && MissingVars(env.vars, WhatsAppEnvVars) == []
  }

  /** A freshly constructed manager reports a feature enabled exactly when the dependency graph says so. */
  lemma EnabledAfterConstruction(env: Environment, key: FeatureKey)
    ensures IsEnabledIn(Cascade(env), key) <==> EnabledFor(env, key)
  {
    var features := Cascade(env);
    EveryFeatureRecorded(env, key);
    match key {
      case DailyTransport =>
      case WebsocketTransport =>
      case SmallWebrtcSession =>
      case SmallwebrtcTransport =>
        if env.sessionImport.Available? {
          assert features[SmallwebrtcTransport] == CheckedInfo(SmallwebrtcTransport, env.transportImport);
        }
      case SmallwebrtcPatch =>
      case WhatsApp =>
    }
  }

  /** The table a freshly constructed manager holds. */
  function Cascade(env: Environment): (features: Features)
    // Every feature has a record, and the built-in transports are always enabled.
    ensures features.Keys == AllKeys
    ensures IsEnabledIn(features, DailyTransport) && IsEnabledIn(features, WebsocketTransport)
    // Without session support, everything after it is disabled for that reason.
    ensures env.sessionImport.Unavailable? ==>
              forall key | key in {SmallwebrtcTransport, SmallwebrtcPatch, WhatsApp} ::
                features[key].status == Disabled && features[key].errorMessage == SessionUnavailable
    // With session support but no transport, the patch and WhatsApp are disabled for that reason.
    ensures env.sessionImport.Available? && !env.transportImport.Loaded? ==>
              forall key | key in {SmallwebrtcPatch, WhatsApp} ::
                features[key].status == Disabled && features[key].errorMessage == TransportUnavailable
    // Dependencies: WhatsApp or the patch enabled needs the transport, which needs the session support.
    ensures IsEnabledIn(features, WhatsApp) || IsEnabledIn(features, SmallwebrtcPatch) ==>
              IsEnabledIn(features, SmallwebrtcTransport)
    ensures IsEnabledIn(features, SmallwebrtcTransport) ==> IsEnabledIn(features, SmallWebrtcSession)
    // When every dependency is there, each detector's own outcome stands.
    ensures env.sessionImport.Available? && env.transportImport.Loaded? ==>
              features[SmallwebrtcPatch] == GuardedInfo(SmallwebrtcPatch, env.patchImport)
              && features[WhatsApp] == WhatsAppInfo(env)
    ensures features[SmallWebrtcSession].status == Enabled <==> env.sessionImport.Available?
  {
    DefaultsTable();
    var defaults := WithDefaults(map[], DefaultKeys);
    var withSession := defaults[SmallWebrtcSession := GuardedInfo(SmallWebrtcSession, env.sessionImport)];
    assert withSession.Keys == {DailyTransport, WebsocketTransport, SmallWebrtcSession};
    assert IsEnabledIn(withSession, DailyTransport) && IsEnabledIn(withSession, WebsocketTransport);
    assert IsEnabledIn(withSession, SmallWebrtcSession) <==> env.sessionImport.Available?;
    SmallWebrtcStage(withSession, env)
  }

  const AllKeys: set<FeatureKey> :=
    {DailyTransport, WebsocketTransport, SmallWebrtcSession, SmallwebrtcTransport, SmallwebrtcPatch, WhatsApp}

  lemma EveryKeyListed()
    ensures forall key: FeatureKey :: key in AllKeys
  {
    forall key: FeatureKey
      ensures key in AllKeys
    {
      match key
      case DailyTransport =>
      case WebsocketTransport =>
      case SmallWebrtcSession =>
      case SmallwebrtcTransport =>
      case SmallwebrtcPatch =>
      case WhatsApp =>
    }
  }

  lemma DefaultsTable()
    ensures WithDefaults(map[], DefaultKeys)
         == map[DailyTransport := Info(DailyTransport, Enabled, ""),
                WebsocketTransport := Info(WebsocketTransport, Enabled, "")]
  {
    assert DefaultKeys[..1] == [DailyTransport];
    assert [DailyTransport][..0] == [];
  }

  /** After construction every feature key has a record. */
  lemma EveryFeatureRecorded(env: Environment, key: FeatureKey)
    ensures key in Cascade(env)
  {
    EveryKeyListed();
  }

  /** With the first and last required variables missing, the message names them in declared order. */
  lemma MissingConfigMessage(vars: map<string, string>)
    requires "WHATSAPP_TOKEN" !in vars
    requires "WHATSAPP_PHONE_NUMBER_ID" in vars && vars["WHATSAPP_PHONE_NUMBER_ID"] != ""
    requires "WHATSAPP_APP_SECRET" in vars && vars["WHATSAPP_APP_SECRET"] == ""
    ensures var env := Environment(Available, Loaded, Available, Loaded, true, vars);
            Cascade(env)[WhatsApp].status == MissingConfig
            && Cascade(env)[WhatsApp].errorMessage
               == "Missing environment variables: " + ("WHATSAPP_TOKEN" + ", " + "WHATSAPP_APP_SECRET")
  {
    var env := Environment(Available, Loaded, Available, Loaded, true, vars);
    FirstAndLastMissing(vars);
    var missing := MissingVars(vars, WhatsAppEnvVars);
    assert missing != [];
    var info := WhatsAppInfo(env);
    assert info.status == MissingConfig;
    assert info.errorMessage == "Missing environment variables: " + Join(missing, ", ");
    assert Cascade(env)[WhatsApp] == info;
  }

  lemma FirstAndLastMissing(vars: map<string, string>)
    requires "WHATSAPP_TOKEN" !in vars
    requires "WHATSAPP_PHONE_NUMBER_ID" in vars && vars["WHATSAPP_PHONE_NUMBER_ID"] != ""
    requires "WHATSAPP_APP_SECRET" in vars && vars["WHATSAPP_APP_SECRET"] == ""
    ensures MissingVars(vars, WhatsAppEnvVars) == ["WHATSAPP_TOKEN", "WHATSAPP_APP_SECRET"]
    ensures Join(MissingVars(vars, WhatsAppEnvVars), ", ") == "WHATSAPP_TOKEN" + ", " + "WHATSAPP_APP_SECRET"
  {
    var missing := MissingVars(vars, WhatsAppEnvVars);
    var rest := ["WHATSAPP_PHONE_NUMBER_ID", "WHATSAPP_APP_SECRET"];
    var last := ["WHATSAPP_APP_SECRET"];
    assert WhatsAppEnvVars[1..] == rest && rest[1..] == last && last[1..] == [];
    assert MissingVars(vars, last) == last;
    assert MissingVars(vars, rest) == last;
    assert missing == ["WHATSAPP_TOKEN", "WHATSAPP_APP_SECRET"];
    assert missing[1..] == last;
    assert Join(missing, ", ") == "WHATSAPP_TOKEN" + ", " + "WHATSAPP_APP_SECRET";
  }

  /** The manager object: its table is filled in place by the detectors. */
  class Manager {
    var features: Features
    const env: Environment

    /** Construction runs the defaults, then the detection cascade. */
    constructor (env: Environment)
      ensures features == Cascade(env)
      ensures this.env == env
    {
      this.env := env;
      features := map[];
      new;
      CreateDefaultFeatures();
      DetectFeatures();
    }

    /** `is_enabled`; on a freshly constructed manager it answers as the dependency graph says. */
    function IsEnabled(key: FeatureKey): (r: bool)
      reads this
      ensures r <==> key in features && features[key].status == Enabled
      ensures features == Cascade(env) ==> (r <==> EnabledFor(env, key))
    {
      EnabledAfterConstruction(env, key);
      IsEnabledIn(features, key)
    }

    /** Writes the always-enabled built-in transports, one per loop turn. */
    method CreateDefaultFeatures()
      modifies this`features
      ensures features == WithDefaults(old(features), DefaultKeys)
    {
      var i := 0;
      while i < |DefaultKeys|
        invariant 0 <= i <= |DefaultKeys|
        invariant features == WithDefaults(old(features), DefaultKeys[..i])
      {
        var key := DefaultKeys[i];
        assert DefaultKeys[..i + 1][..i] == DefaultKeys[..i];
        features := features[key := Info(key, Enabled, "")];
        i := i + 1;
      }
      assert DefaultKeys[..i] == DefaultKeys;
    }

    method DetectFeatures()
      modifies this`features
      ensures features == SmallWebrtcStage(old(features)[SmallWebrtcSession := GuardedInfo(SmallWebrtcSession, env.sessionImport)], env)
    {
      DetectPipecatcloudFeatures();
      DetectSmallwebrtcFeatures();
    }

    method DetectPipecatcloudFeatures()
      modifies this`features
      ensures features == old(features)[SmallWebrtcSession := GuardedInfo(SmallWebrtcSession, env.sessionImport)]
    {
      match env.sessionImport {
        case Available =>
          features := features[SmallWebrtcSession := Info(SmallWebrtcSession, Enabled, "")];
        case Unavailable(message) =>
          features := features[SmallWebrtcSession := Info(SmallWebrtcSession, Disabled, message)];
      }
    }

    /** The dependency cascade, reading back what the earlier steps wrote. */
    method DetectSmallwebrtcFeatures()
      modifies this`features
      ensures features == SmallWebrtcStage(old(features), env)
    {
      if !IsEnabled(SmallWebrtcSession) {
        CreateDisabledSmallwebrtcFeatures(SessionUnavailable);
        CreateDisabledSmallwebrtcPatchFeatures(SessionUnavailable);
        CreateDisabledWhatsAppFeature(SessionUnavailable);
        return;
      }
      DetectSmallwebrtcTransport();
      if !IsEnabled(SmallwebrtcTransport) {
        CreateDisabledSmallwebrtcPatchFeatures(TransportUnavailable);
        CreateDisabledWhatsAppFeature(TransportUnavailable);
        return;
      }
      DetectSmallwebrtcPatch();
      DetectWhatsAppFeatures();
    }

    method DetectSmallwebrtcTransport()
      modifies this`features
      ensures features == old(features)[SmallwebrtcTransport := CheckedInfo(SmallwebrtcTransport, env.transportImport)]
    {
      features := features[SmallwebrtcTransport := CheckedInfo(SmallwebrtcTransport, env.transportImport)];
    }

    method DetectSmallwebrtcPatch()
      modifies this`features
      ensures features == old(features)[SmallwebrtcPatch := GuardedInfo(SmallwebrtcPatch, env.patchImport)]
    {
      features := features[SmallwebrtcPatch := GuardedInfo(SmallwebrtcPatch, env.patchImport)];
    }

    method DetectWhatsAppFeatures()
      modifies this`features
      ensures features == old(features)[WhatsApp := WhatsAppInfo(env)]
    {
      features := features[WhatsApp := WhatsAppInfo(env)];
    }

    method CreateDisabledSmallwebrtcFeatures(reason: string)
      modifies this`features
      ensures features == old(features)[SmallwebrtcTransport := Info(SmallwebrtcTransport, Disabled, reason)]
    {
      features := features[SmallwebrtcTransport := Info(SmallwebrtcTransport, Disabled, reason)];
    }

    method CreateDisabledSmallwebrtcPatchFeatures(reason: string)
      modifies this`features
      ensures features == old(features)[SmallwebrtcPatch := Info(SmallwebrtcPatch, Disabled, reason)]
    {
      features := features[SmallwebrtcPatch := Info(SmallwebrtcPatch, Disabled, reason)];
    }

    method CreateDisabledWhatsAppFeature(reason: string)
      modifies this`features
      ensures features == old(features)[WhatsApp := Info(WhatsApp, Disabled, reason)]
    {
      features := features[WhatsApp := Info(WhatsApp, Disabled, reason)];
    }
  }
}
