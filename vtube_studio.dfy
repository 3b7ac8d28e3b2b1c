/**
 * `VTubeStudioPlugin` (plugins/core_plugins/vtube_studio.py): the requests the plugin sends to
 * VTube Studio's public API (the two-step authentication, expression activation and hotkeys),
 * the map from the AI's emotion to an avatar expression, and when an AI message changes the
 * expression. The websocket is modelled by whether it is connected and by the list of requests
 * sent through it; VTube Studio's replies are given as parameters.
 */
module VTubeStudio {
  import opened Collections
  import opened EmotionTypes
  import PluginBase

  const ApiName: string := "VTubeStudioPublicAPI"
  const ApiVersion: string := "1.0"
  const PluginName: string := "AI Companion"
  const PluginDeveloper: string := "AI Companion Team"

  /** A value inside a request's `data` object. */
  datatype Field = Str(text: string) | Flag(flag: bool)

  /** One JSON request sent over the websocket. */
  datatype Request = Request(apiName: string, apiVersion: string, requestId: string, messageType: string,
                             data: seq<(string, Field)>)

  /** The fields of a VTube Studio reply the plugin reads. */
  datatype Reply = Reply(messageType: Option<string>, authenticationToken: Option<string>, authenticated: bool)

  // ---------------------------------------------------------------- expressions

  /** `expression_map` in `set_expression`. */
  const ExpressionMap: seq<(string, string)> := [
    ("joy", "happy"), ("sadness", "sad"), ("anger", "angry"), ("fear", "fear"), ("surprise", "surprised"),
    ("curiosity", "thinking"), ("excitement", "excited"), ("contentment", "content"), ("neutral", "idle")
  ]

  /** `expression_map.get(expression, "idle")` */
  function ExpressionFor(name: string): string {
    GetOr(ExpressionMap, name, "idle")
  }

  /** The avatar expression each emotion is meant to show; DISGUST has none of its own. */
  function AvatarExpression(e: Emotion): string {
    match e
    case Joy => "happy"
    case Sadness => "sad"
    case Anger => "angry"
    case Fear => "fear"
    case Surprise => "surprised"
    case Curiosity => "thinking"
    case Excitement => "excited"
    case Contentment => "content"
    case Disgust => "idle"
    case Neutral => "idle"
  }

  /** The map's keys are distinct, told apart by their length and first letter. */
  lemma ExpressionMapDistinct()
    ensures DistinctKeys(ExpressionMap)
  {
    forall i, j | 0 <= i < j < |ExpressionMap|
      ensures |ExpressionMap[i].0| != |ExpressionMap[j].0| || ExpressionMap[i].0[0] != ExpressionMap[j].0[0]
    {
    }
  }

  /** Looking an emotion's value up in the map gives the expression meant for it. */
  lemma EmotionExpression(e: Emotion)
    ensures ExpressionFor(Value(e)) == AvatarExpression(e)
  {
    ExpressionMapDistinct();
    match e
    case Joy => GetOfMember(ExpressionMap, 0);
    case Sadness => GetOfMember(ExpressionMap, 1);
    case Anger => GetOfMember(ExpressionMap, 2);
    case Fear => GetOfMember(ExpressionMap, 3);
    case Surprise => GetOfMember(ExpressionMap, 4);
    case Curiosity => GetOfMember(ExpressionMap, 5);
    case Excitement => GetOfMember(ExpressionMap, 6);
    case Contentment => GetOfMember(ExpressionMap, 7);
    case Neutral => GetOfMember(ExpressionMap, 8);
    case Disgust =>
      forall i | 0 <= i < |ExpressionMap| ensures ExpressionMap[i].0 != "disgust" {
        assert |ExpressionMap[i].0| != 7 || ExpressionMap[i].0[0] != 'd';
      }
      GetAbsent(ExpressionMap, "disgust");
  }

  /** A name that is no emotion's value shows "idle". */
  lemma UnknownIsIdle(name: string)
    requires forall e :: Value(e) != name
    ensures ExpressionFor(name) == "idle"
  {
    assert Value(Joy) == "joy" && Value(Sadness) == "sadness" && Value(Anger) == "anger";
    assert Value(Fear) == "fear" && Value(Surprise) == "surprise" && Value(Curiosity) == "curiosity";
    assert Value(Excitement) == "excitement" && Value(Contentment) == "contentment" && Value(Neutral) == "neutral";
    GetAbsent(ExpressionMap, name);
  }

  // ---------------------------------------------------------------- requests

  function MakeRequest(requestId: string, messageType: string, data: seq<(string, Field)>): Request {
    Request(ApiName, ApiVersion, requestId, messageType, data)
  }

  const TokenRequest: Request :=
    MakeRequest("auth_request", "AuthenticationTokenRequest",
                [("pluginName", Str(PluginName)), ("pluginDeveloper", Str(PluginDeveloper))])

  function AuthRequest(token: string): Request {
    MakeRequest("auth_use", "AuthenticationRequest",
                [("pluginName", Str(PluginName)), ("pluginDeveloper", Str(PluginDeveloper)),
                 ("authenticationToken", Str(token))])
  }

  function ExpressionRequest(expression: string): Request {
    MakeRequest("expression_" + expression, "ExpressionActivationRequest",
                [("expressionFile", Str(expression + ".exp3.json")), ("active", Flag(true))])
  }

  function HotkeyRequest(hotkey: string): Request {
    MakeRequest("hotkey_" + hotkey, "HotkeyTriggerRequest", [("hotkeyID", Str(hotkey))])
  }

  /** The expression an activation request turns on: its request id after "expression_". */
  function ActivatedExpression(r: Request): Option<string> {
    var prefix := "expression_";
    if r.messageType == "ExpressionActivationRequest" && |prefix| <= |r.requestId| && r.requestId[..|prefix|] == prefix
    then Some(r.requestId[|prefix|..])
    else None
  }

  /** The hotkey a trigger request fires: its `hotkeyID`. */
  function TriggeredHotkey(r: Request): Option<string> {
    if r.messageType == "HotkeyTriggerRequest" then
      var field: Option<Field> := Get(r.data, "hotkeyID");
      if field.Some? && field.value.Str? then Some(field.value.text) else None
    else None
  }

  /**
   * The requests say what they ask for: an activation request names its expression in its id
   * and in its file "<expression>.exp3.json" with `active` true; a hotkey request names its hotkey
   * in its id "hotkey_<name>" and its `hotkeyID`; only the second authentication request carries
   * the token.
   */
  lemma RequestsRoundTrip(expression: string, hotkey: string, token: string)
    ensures ActivatedExpression(ExpressionRequest(expression)) == Some(expression)
    ensures Get(ExpressionRequest(expression).data, "expressionFile") == Some(Str(expression + ".exp3.json"))
    ensures Get(ExpressionRequest(expression).data, "active") == Some(Flag(true))
    ensures TriggeredHotkey(HotkeyRequest(hotkey)) == Some(hotkey)
    ensures HotkeyRequest(hotkey).requestId == "hotkey_" + hotkey
    ensures ActivatedExpression(HotkeyRequest(hotkey)).None? && TriggeredHotkey(ExpressionRequest(expression)).None?
    ensures Get(AuthRequest(token).data, "authenticationToken") == Some(Str(token))
    ensures Get(TokenRequest.data, "authenticationToken").None?
  {
    var r := ExpressionRequest(expression);
    assert r.requestId[..11] == "expression_" && r.requestId[11..] == expression;
    assert |"pluginName"| != |"authenticationToken"| && |"pluginDeveloper"| != |"authenticationToken"|;
    assert TokenRequest.data[0].0 != "authenticationToken" && TokenRequest.data[1].0 != "authenticationToken";
    GetAbsent(TokenRequest.data, "authenticationToken");
    var a := AuthRequest(token).data;
    assert a[0].0 != "authenticationToken" && a[1].0 != "authenticationToken";
    assert a[1..][1..] == [("authenticationToken", Str(token))];
    assert Get(a[1..][1..], "authenticationToken") == Some(Str(token));
    assert Get(a[1..], "authenticationToken") == Some(Str(token));
  }

  class Studio {
    const base: PluginBase.Plugin
    /** `self.websocket` is set. */
    var connected: bool
    /** `self.authenticated` */
    var authenticated: bool
    /** `self.current_expression` */
    var currentExpression: string
    /** The requests sent over the websocket, oldest first. */
    var sent: seq<Request>
    /** The websocket thread has been started. */
    var started: bool

    constructor ()
      ensures fresh(base) && base.name == "vtube_studio" && base.enabled
      ensures !connected && !authenticated && currentExpression == "neutral" && sent == [] && !started
    {
      base := new PluginBase.Plugin("vtube_studio");
      connected := false;
      authenticated := false;
      currentExpression := "neutral";
      sent := [];
      started := false;
    }

    /** `initialize`: true, starting the websocket thread only when the integration is on. */
    method Initialize(vtsEnabled: bool) returns (ok: bool)
      modifies this
      ensures ok && started == (old(started) || vtsEnabled)
      ensures connected == old(connected) && authenticated == old(authenticated) && sent == old(sent)
      ensures currentExpression == old(currentExpression)
    {
      if vtsEnabled {
        started := true;
      }
      return true;
    }

    /** `websockets.connect` succeeded. */
    method Connect()
      modifies this
      ensures connected && authenticated == old(authenticated) && sent == old(sent)
      ensures currentExpression == old(currentExpression) && started == old(started)
    {
      connected := true;
    }

    /**
     * `authenticate`, given VTube Studio's two replies: the token is asked for; only a token
     * reply that carries a token leads to the second request, and only a second reply saying
     * `authenticated` sets the flag. A failure logs and leaves the flag as it was.
     */
    method Authenticate(first: Reply, second: Reply)
      modifies this
      ensures authenticated == (old(authenticated) ||
        (connected && first.messageType == Some("AuthenticationTokenResponse") &&
         first.authenticationToken.Some? && second.authenticated))
      ensures sent == old(sent) +
        if !connected then []
        else if first.messageType != Some("AuthenticationTokenResponse") || first.authenticationToken.None? then [TokenRequest]
        else [TokenRequest, AuthRequest(first.authenticationToken.value)]
      ensures connected == old(connected) && currentExpression == old(currentExpression) && started == old(started)
    {
      if !connected {
        return;
      }
      sent := sent + [TokenRequest];
      if first.messageType == Some("AuthenticationTokenResponse") {
        match first.authenticationToken
        case None =>
          return;
        case Some(token) =>
          sent := sent + [AuthRequest(token)];
          if second.authenticated {
            authenticated := true;
          }
      }
    }

    /**
     * `set_expression`: without authentication or a websocket nothing happens; otherwise the
     * mapped expression is activated and the unmapped name becomes the current expression.
     */
    method SetExpression(expression: string)
      modifies this
      ensures sent == old(sent) + (if authenticated && connected then [ExpressionRequest(ExpressionFor(expression))] else [])
      ensures currentExpression == if authenticated && connected then expression else old(currentExpression)
      ensures connected == old(connected) && authenticated == old(authenticated) && started == old(started)
    {
      if !authenticated || !connected {
        return;
      }
      var vtsExpression := ExpressionFor(expression);
      sent := sent + [ExpressionRequest(vtsExpression)];
      currentExpression := expression;
    }

    /** `trigger_hotkey`: a no-op without authentication or a websocket. */
    method TriggerHotkey(hotkey: string)
      modifies this
      ensures sent == old(sent) + (if authenticated && connected then [HotkeyRequest(hotkey)] else [])
      ensures connected == old(connected) && authenticated == old(authenticated)
      ensures currentExpression == old(currentExpression) && started == old(started)
    {
      if !authenticated || !connected {
        return;
      }
      sent := sent + [HotkeyRequest(hotkey)];
    }

    /**
     * `on_message_sent`: an AI message, once authenticated, shows the AI's primary emotion when
     * its intensity is above 0.3; the request is scheduled on the websocket loop, which the model
     * runs at once.
     */
    method OnMessageSent(message: string, messageType: string, state: EmotionalState)
      modifies this
      ensures var shows := authenticated && connected && messageType == "ai" && state.intensity > 0.3;
        && sent == old(sent) + (if shows then [ExpressionRequest(AvatarExpression(state.primary))] else [])
        && currentExpression == (if shows then Value(state.primary) else old(currentExpression))
      ensures connected == old(connected) && authenticated == old(authenticated) && started == old(started)
    {
      EmotionExpression(state.primary);
      if !authenticated || messageType != "ai" {
        return;
      }
      if state.intensity > 0.3 {
        SetExpression(Value(state.primary));
      }
    }
  }
}
