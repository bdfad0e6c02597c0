/**
 * The older front-end (app_old.js): a chat history with its message and
 * token counters, locally stored preferences, the "model loaded" gate of
 * the controls and of sending, and the toast icons.  Server answers are
 * parameters; the requests sent are appended to `requests`.
 */
module Studio {
  import opened JsValues
  import Text
  import Themes

  /** One `chatHistory` entry; `messageType` is the source's `type` field. */
  datatype HistoryEntry = HistoryEntry(messageType: string, content: JsValue, timestamp: string)

  /** The five preferences saved under 'lambeck-llm-settings'. */
  datatype Settings = Settings(theme: JsValue, animationSpeed: JsValue, autoScroll: JsValue,
                               soundEffects: JsValue, voiceOutput: JsValue)

  datatype Request = ChatRequest(message: string) | LoadModelRequest(name: string) | UnloadModelRequest

  /** The outcome of POST /chat: an ok answer carrying `response`, a non-ok
   *  answer carrying `detail` and the status text, or a failed request. */
  datatype ChatOutcome =
    | Replied(response: JsValue)
    | Rejected(detail: JsValue, statusText: string)
    | Unreachable(message: string)

  /** The outcome of POST /load_model/{name}. */
  datatype LoadOutcome =
    | Loaded(model: JsValue)
    | LoadRejected(statusText: string)
    | LoadUnreachable(message: string)

  /** The outcome of POST /unload_model. */
  datatype UnloadOutcome =
    | Unloaded
    | UnloadRejected(statusText: string)
    | UnloadUnreachable(message: string)

  /** The state updateUI gives the controls. */
  datatype Controls = Controls(inputDisabled: bool, sendDisabled: bool, voiceDisabled: bool,
                               unloadDisabled: bool, statusActive: bool,
                               placeholder: string, modelLabel: string)

  const ModelMissingNotice: string := "Please load a model first!"

  /** The rough token estimate of the input handler: four characters a token,
   *  rounded up, i.e. the least count whose four-fold covers the characters. */
  function EstimateTokens(charCount: nat): (r: nat)
    ensures 4 * r >= charCount
    ensures r > 0 ==> 4 * (r - 1) < charCount
  {
    (charCount + 3) / 4
  }

  /** The two bounds pin the estimate down: no other count satisfies both. */
  lemma EstimateTokensUnique(charCount: nat, other: nat)
    requires 4 * other >= charCount
    requires other > 0 ==> 4 * (other - 1) < charCount
    ensures other == EstimateTokens(charCount)
  {
  }

  /** A longer input never estimates fewer tokens. */
  lemma EstimateTokensMonotone(a: nat, b: nat)
    requires a <= b
    ensures EstimateTokens(a) <= EstimateTokens(b)
  {
  }

  /** The Font Awesome icon of a toast type, with 'info-circle' as the fallback. */
  function ToastIcon(toastType: string): (r: string)
    ensures toastType == "success" ==> r == "check-circle"
    ensures toastType == "error" ==> r == "exclamation-circle"
    ensures toastType == "warning" ==> r == "exclamation-triangle"
    ensures toastType !in {"success", "error", "warning"} ==> r == "info-circle"
  {
    if toastType == "success" then "check-circle"
    else if toastType == "error" then "exclamation-circle"
    else if toastType == "warning" then "exclamation-triangle"
    else "info-circle"
  }

  /** Icons tell the three marked types apart, and every other type looks
   *  like 'info'. */
  lemma ToastIconInfoFallback(toastType: string)
    ensures ToastIcon(toastType) == "info-circle" <==> toastType !in {"success", "error", "warning"}
    ensures ToastIcon(toastType) == ToastIcon("info") <==> toastType !in {"success", "error", "warning"}
  {
  }

  /** updateUI's test: a model counts as loaded unless it is null or ''. */
  predicate HasModel(currentModel: JsValue)
    ensures Truthy(currentModel) ==> HasModel(currentModel)
    ensures currentModel == Null || currentModel == Str("") ==> !HasModel(currentModel)
  {
    currentModel != Null && currentModel != Str("")
  }

  /** The controls updateUI sets for `currentModel`. */
  function ControlsFor(currentModel: JsValue): (r: Controls)
    ensures r.inputDisabled <==> currentModel == Null || currentModel == Str("")
    ensures r.sendDisabled == r.voiceDisabled == r.unloadDisabled == r.inputDisabled
    ensures r.statusActive == !r.sendDisabled
    ensures r.sendDisabled ==> r.placeholder == "Load a model to start chatting..."
    ensures !r.sendDisabled ==> r.placeholder == "Chat with " + ToJsString(currentModel) + "..."
    ensures !Truthy(currentModel) ==> r.modelLabel == "No model loaded"
    ensures Truthy(currentModel) ==> r.modelLabel == ToJsString(currentModel)
  {
    var hasModel := HasModel(currentModel);
    Controls(!hasModel, !hasModel, !hasModel, !hasModel, hasModel,
             if hasModel then "Chat with " + ToJsString(currentModel) + "..." else "Load a model to start chatting...",
             ToJsString(Or(currentModel, Str("No model loaded"))))
  }

  /** The controls and sendMessage use different tests: the controls are
   *  enabled for every truthy model, but also for undefined, false and 0,
   *  which sendMessage refuses as "no model". */
  lemma ModelGatesDisagree(currentModel: JsValue)
    ensures Truthy(currentModel) ==> HasModel(currentModel)
    ensures HasModel(currentModel) && !Truthy(currentModel)
            <==> currentModel == Undefined || currentModel == Bool(false) || currentModel == Num(0)
  {
  }

  /** loadSettings: the theme defaults to 'dark' and the animation speed to 1
   *  when falsy, each flag to true only when undefined. */
  function LocalDefaults(saved: Settings): (r: Settings)
    ensures Truthy(r.theme) && Truthy(r.animationSpeed)
    ensures r.autoScroll != Undefined && r.soundEffects != Undefined && r.voiceOutput != Undefined
    ensures Truthy(saved.theme) ==> r.theme == saved.theme
    ensures !Truthy(saved.theme) ==> r.theme == Themes.Dark
    ensures Truthy(saved.animationSpeed) ==> r.animationSpeed == saved.animationSpeed
    ensures !Truthy(saved.animationSpeed) ==> r.animationSpeed == Num(1)
    ensures saved.autoScroll != Undefined ==> r.autoScroll == saved.autoScroll
    ensures saved.soundEffects != Undefined ==> r.soundEffects == saved.soundEffects
    ensures saved.voiceOutput != Undefined ==> r.voiceOutput == saved.voiceOutput
    ensures saved.autoScroll == Undefined ==> r.autoScroll == Bool(true)
    ensures saved.soundEffects == Undefined ==> r.soundEffects == Bool(true)
    ensures saved.voiceOutput == Undefined ==> r.voiceOutput == Bool(true)
  {
    Settings(Or(saved.theme, Themes.Dark), Or(saved.animationSpeed, Num(1)),
             DefinedOr(saved.autoScroll, Bool(true)),
             DefinedOr(saved.soundEffects, Bool(true)),
             DefinedOr(saved.voiceOutput, Bool(true)))
  }

  /** Loading is idempotent: defaults applied once are stable. */
  lemma LocalDefaultsIdempotent(saved: Settings)
    ensures LocalDefaults(LocalDefaults(saved)) == LocalDefaults(saved)
  {
  }

  /** The history entry that reports how a chat request ended. */
  function ReplyEntry(outcome: ChatOutcome, now: string): (e: HistoryEntry)
    ensures e.timestamp == now
    ensures outcome.Replied? <==> e.messageType == "ai"
    ensures outcome.Replied? ==> e.content == outcome.response
    ensures !outcome.Replied? ==> e.messageType == "system"
    ensures outcome.Rejected? && Truthy(outcome.detail) ==> e.content == Str("Error: " + ToJsString(outcome.detail))
    ensures outcome.Rejected? && !Truthy(outcome.detail) ==>
      e.content == Str("Error: " + ("Failed to get response: " + outcome.statusText))
    ensures outcome.Unreachable? ==> e.content == Str("Error: " + outcome.message)
  {
    match outcome
    case Replied(response) => HistoryEntry("ai", response, now)
    case Rejected(detail, statusText) =>
      var message := if Truthy(detail) then ToJsString(detail) else "Failed to get response: " + statusText;
      HistoryEntry("system", Str("Error: " + message), now)
    case Unreachable(message) => HistoryEntry("system", Str("Error: " + message), now)
  }

  class StudioApp {
    var currentModel: JsValue
    var currentTheme: JsValue
    var animationSpeed: JsValue
    var autoScroll: JsValue
    var soundEffects: JsValue
    var voiceOutput: JsValue
    var messageCount: nat
    var tokenCount: nat
    var chatHistory: seq<HistoryEntry>
    /** The 'lambeck-llm-settings' local-storage entry; None when absent. */
    var storedSettings: Option<Settings>
    /** Every request sent to the backend, oldest first. */
    var requests: seq<Request>

    /** The counter always equals the number of history entries. */
    ghost predicate Valid()
      reads this
    {
      messageCount == |chatHistory|
    }

    function Preferences(): Settings
      reads this
    {
      Settings(currentTheme, animationSpeed, autoScroll, soundEffects, voiceOutput)
    }

    /** updateUI. */
    function UiControls(): (r: Controls)
      reads this
      ensures r.sendDisabled <==> !HasModel(currentModel)
      ensures r.inputDisabled == r.voiceDisabled == r.unloadDisabled == r.sendDisabled
      ensures r.statusActive <==> HasModel(currentModel)
    {
      ControlsFor(currentModel)
    }

    constructor (stored: Option<Settings>)
      ensures Valid()
      ensures currentModel == Null && chatHistory == [] && tokenCount == 0
      ensures Preferences() == Settings(Themes.Dark, Num(1), Bool(true), Bool(true), Bool(true))
      ensures storedSettings == stored && requests == []
    {
      currentModel := Null;
      currentTheme, animationSpeed := Themes.Dark, Num(1);
      autoScroll, soundEffects, voiceOutput := Bool(true), Bool(true), Bool(true);
      messageCount, tokenCount, chatHistory := 0, 0, [];
      storedSettings, requests := stored, [];
    }

    // --- chat history --------------------------------------------------

    /** addMessage: counts the message and appends one history entry. */
    method AddMessage(messageType: string, content: JsValue, now: string)
      requires Valid()
      modifies this`messageCount, this`chatHistory
      ensures Valid()
      ensures messageCount == old(messageCount) + 1
      ensures chatHistory == old(chatHistory) + [HistoryEntry(messageType, content, now)]
    {
      messageCount := messageCount + 1;
      chatHistory := chatHistory + [HistoryEntry(messageType, content, now)];
    }

    /** clearChat. */
    method ClearChat()
      modifies this`messageCount, this`chatHistory
      ensures Valid()
      ensures messageCount == 0 && chatHistory == []
    {
      messageCount := 0;
      chatHistory := [];
    }

    /** The input handler: the token estimate follows the input's length. */
    method OnInput(value: string)
      modifies this`tokenCount
      ensures tokenCount == EstimateTokens(|value|)
    {
      var charCount := |value|;
      tokenCount := EstimateTokens(charCount);
    }

    /** sendMessage: an input that trims to nothing is ignored; without a
     *  model a notice is added and nothing is sent; otherwise the message is
     *  added, sent, and the reply or the error is added.  The token
     *  estimate is left as it was. */
    method SendMessage(input: string, outcome: ChatOutcome, now: string)
      requires Valid()
      modifies this`messageCount, this`chatHistory, this`requests
      ensures Valid()
      ensures var message := Text.Strip(input, JsWhitespace);
        && (message == [] ==> chatHistory == old(chatHistory) && requests == old(requests))
        && (message != [] && !Truthy(currentModel) ==>
              chatHistory == old(chatHistory) + [HistoryEntry("system", Str(ModelMissingNotice), now)]
              && requests == old(requests))
        && (message != [] && Truthy(currentModel) ==>
              chatHistory == old(chatHistory) + [HistoryEntry("user", Str(message), now), ReplyEntry(outcome, now)]
              && requests == old(requests) + [ChatRequest(message)])
    {
      var message := Text.Strip(input, JsWhitespace);
      if message == [] {
        return;
      }
      if !Truthy(currentModel) {
        AddMessage("system", Str(ModelMissingNotice), now);
        return;
      }
      AddMessage("user", Str(message), now);
      requests := requests + [ChatRequest(message)];
      var entry := ReplyEntry(outcome, now);
      AddMessage(entry.messageType, entry.content, now);
    }

    // --- model management ----------------------------------------------

    /** loadModel: on success the answer's `model` becomes the current model. */
    method LoadModel(name: string, outcome: LoadOutcome, now: string)
      requires Valid()
      modifies this`currentModel, this`messageCount, this`chatHistory, this`requests
      ensures Valid()
      ensures requests == old(requests) + [LoadModelRequest(name)]
      ensures currentModel == if outcome.Loaded? then outcome.model else old(currentModel)
      ensures |chatHistory| == |old(chatHistory)| + 1 && chatHistory[..|old(chatHistory)|] == old(chatHistory)
      ensures chatHistory[|old(chatHistory)|] == HistoryEntry("system", Str(
        match outcome
        case Loaded(model) => "Model \"" + ToJsString(model) + "\" loaded successfully!"
        case LoadRejected(statusText) => "Error loading model: " + ("Failed to load model: " + statusText)
        case LoadUnreachable(message) => "Error loading model: " + message), now)
    {
      requests := requests + [LoadModelRequest(name)];
      match outcome
      case Loaded(model) =>
        currentModel := model;
        AddMessage("system", Str("Model \"" + ToJsString(currentModel) + "\" loaded successfully!"), now);
      case LoadRejected(statusText) =>
        AddMessage("system", Str("Error loading model: " + ("Failed to load model: " + statusText)), now);
      case LoadUnreachable(message) =>
        AddMessage("system", Str("Error loading model: " + message), now);
    }

    /** unloadModel: on success there is no current model any more. */
    method UnloadModel(outcome: UnloadOutcome, now: string)
      requires Valid()
      modifies this`currentModel, this`messageCount, this`chatHistory, this`requests
      ensures Valid()
      ensures requests == old(requests) + [UnloadModelRequest]
      ensures currentModel == if outcome.Unloaded? then Null else old(currentModel)
      ensures outcome.Unloaded? ==> UiControls().sendDisabled
      ensures |chatHistory| == |old(chatHistory)| + 1 && chatHistory[..|old(chatHistory)|] == old(chatHistory)
      ensures chatHistory[|old(chatHistory)|] == HistoryEntry("system", Str(
        match outcome
        case Unloaded => "Model unloaded successfully!"
        case UnloadRejected(statusText) => "Error unloading model: " + ("Failed to unload model: " + statusText)
        case UnloadUnreachable(message) => "Error unloading model: " + message), now)
    {
      requests := requests + [UnloadModelRequest];
      match outcome
      case Unloaded =>
        currentModel := Null;
        AddMessage("system", Str("Model unloaded successfully!"), now);
      case UnloadRejected(statusText) =>
        AddMessage("system", Str("Error unloading model: " + ("Failed to unload model: " + statusText)), now);
      case UnloadUnreachable(message) =>
        AddMessage("system", Str("Error unloading model: " + message), now);
    }

    // --- preferences ---------------------------------------------------

    /** saveSettings: local storage only. */
    method SaveSettings()
      modifies this`storedSettings
      ensures storedSettings == Some(Preferences())
    {
      storedSettings := Some(Preferences());
    }

    /** loadSettings. */
    method LoadSettings()
      modifies this`currentTheme, this`animationSpeed, this`autoScroll, this`soundEffects, this`voiceOutput
      ensures storedSettings.Some? ==> Preferences() == LocalDefaults(storedSettings.value)
      ensures storedSettings.None? ==> Preferences() == old(Preferences())
    {
      if storedSettings.Some? {
        var local := LocalDefaults(storedSettings.value);
        currentTheme, animationSpeed := local.theme, local.animationSpeed;
        autoScroll, soundEffects, voiceOutput := local.autoScroll, local.soundEffects, local.voiceOutput;
      }
    }

    /** setupThemeSystem: a light system preference switches to 'light';
     *  otherwise the theme stays. */
    method SetupThemeSystem(prefersLight: bool)
      modifies this`currentTheme
      ensures currentTheme == if prefersLight then Themes.Light else old(currentTheme)
    {
      if prefersLight {
        currentTheme := Themes.Light;
      }
    }

    /** toggleTheme. */
    method ToggleTheme()
      modifies this`currentTheme, this`storedSettings
      ensures currentTheme == Themes.Toggled(old(currentTheme))
      ensures storedSettings == Some(Preferences())
    {
      currentTheme := Themes.Toggled(currentTheme);
      SaveSettings();
    }

    /** changeTheme. */
    method ChangeTheme(theme: JsValue, prefersDark: bool)
      modifies this`currentTheme, this`storedSettings
      ensures currentTheme == Themes.Resolved(theme, prefersDark)
      ensures storedSettings == Some(Preferences())
    {
      currentTheme := Themes.Resolved(theme, prefersDark);
      SaveSettings();
    }

    /** toggleAutoScroll. */
    method ToggleAutoScroll(enabled: JsValue)
      modifies this`autoScroll, this`storedSettings
      ensures autoScroll == enabled && storedSettings == Some(Preferences())
    {
      autoScroll := enabled;
      SaveSettings();
    }

    /** toggleSoundEffects. */
    method ToggleSoundEffects(enabled: JsValue)
      modifies this`soundEffects, this`storedSettings
      ensures soundEffects == enabled && storedSettings == Some(Preferences())
    {
      soundEffects := enabled;
      SaveSettings();
    }

    /** toggleVoiceOutput. */
    method ToggleVoiceOutput(enabled: JsValue)
      modifies this`voiceOutput, this`storedSettings
      ensures voiceOutput == enabled && storedSettings == Some(Preferences())
    {
      voiceOutput := enabled;
      SaveSettings();
    }
  }
}
