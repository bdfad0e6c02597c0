/**
 * The stub backend (app.py): the placeholder model handler, the /chat
 * endpoint's mapping of exceptions to HTTP statuses, the discovery of a
 * model file next to the application, and the index page.  Whether a path
 * exists (as a file or a directory) is a predicate passed in.
 */
module Backend {
  import opened JsValues
  import Text

  /** Python's `str.isspace()` characters, the set `str.strip()` removes. */
  predicate PyWhitespace(c: char)
  {
    || ('\t' <= c <= '\r')
    || ('\U{001C}' <= c <= '\U{001F}')
    || c == ' ' || c == '\U{0085}' || c == '\U{00A0}' || c == '\U{1680}'
    || ('\U{2000}' <= c <= '\U{200A}')
    || c == '\U{2028}' || c == '\U{2029}' || c == '\U{202F}' || c == '\U{205F}' || c == '\U{3000}'
  }

  /** The exceptions the handler can raise: ValueError (with its subclasses)
   *  and everything else. */
  datatype Exception = ValueError(message: string) | OtherError(message: string)

  /** A Python call either returns a value or raises. */
  datatype Outcome<T> = Returned(value: T) | Raised(error: Exception)

  /** An HTTP answer of the application. */
  datatype HttpReply =
    | JsonReply(response: string)
    | FileReply(path: string)
    | HttpError(status: int, detail: string)

  const ReplyPrefix: string := "(placeholder) You said: "
  const EmptyPromptMessage: string := "Prompt cannot be empty."

  /** The candidate model files, in priority order. */
  const KnownModelNames: seq<string> := ["test_model.gguf", "test_model_ablated.gguf", "test_model_ablated_ablated.gguf"]

  /** `base / name` for a directory and a file name. */
  function Candidate(baseDir: string, name: string): string
  {
    baseDir + "/" + name
  }

  /** The placeholder handler; its model path is fixed at construction and
   *  not consulted when generating. */
  datatype ModelHandler = ModelHandler(modelPath: Option<string>)
  {
    /** A prompt that is empty once stripped is refused with ValueError;
     *  any other prompt is echoed, unstripped, after a fixed prefix. */
    function Generate(prompt: string): (r: Outcome<string>)
      ensures r.Raised? <==> Text.AllSpace(prompt, PyWhitespace)
      ensures r.Raised? ==> r.error == ValueError(EmptyPromptMessage)
      ensures r.Returned? ==>
        |r.value| == |ReplyPrefix| + |prompt|
        && r.value[..|ReplyPrefix|] == ReplyPrefix && r.value[|ReplyPrefix|..] == prompt
    {
      Text.StripEmptyIffAllSpace(prompt, PyWhitespace);
      if Text.Strip(prompt, PyWhitespace) == [] then Raised(ValueError(EmptyPromptMessage))
      else Returned(ReplyPrefix + prompt)
    }
  }

  /** Different accepted prompts get different replies. */
  lemma GenerateInjective(handler: ModelHandler, p: string, q: string)
    requires handler.Generate(p).Returned? && handler.Generate(q).Returned?
    requires p != q
    ensures handler.Generate(p).value != handler.Generate(q).value
  {
    var rp, rq := handler.Generate(p).value, handler.Generate(q).value;
    assert rp[|ReplyPrefix|..] == p && rq[|ReplyPrefix|..] == q;
  }

  /** The model path never influences the reply. */
  lemma GenerateIgnoresModelPath(a: ModelHandler, b: ModelHandler, prompt: string)
    ensures a.Generate(prompt) == b.Generate(prompt)
  {
  }

  /** The /chat endpoint's mapping of the handler's outcome: the reply as
   *  JSON, a ValueError as 400 with its message, anything else as 500. */
  function ChatReply(outcome: Outcome<string>): (r: HttpReply)
    ensures r.JsonReply? <==> outcome.Returned?
    ensures outcome.Returned? ==> r.response == outcome.value
    ensures outcome.Raised? && outcome.error.ValueError? ==> r == HttpError(400, outcome.error.message)
    ensures outcome.Raised? && outcome.error.OtherError? ==> r == HttpError(500, "Model inference failed")
  {
    match outcome
    case Returned(reply) => JsonReply(reply)
    case Raised(ValueError(message)) => HttpError(400, message)
    case Raised(OtherError(_)) => HttpError(500, "Model inference failed")
  }

  /** POST /chat with the placeholder handler: 400 exactly for blank
   *  messages, otherwise the echo. */
  function Chat(handler: ModelHandler, message: string): (r: HttpReply)
    ensures r == HttpError(400, EmptyPromptMessage) <==> Text.AllSpace(message, PyWhitespace)
    ensures !Text.AllSpace(message, PyWhitespace) ==> r == JsonReply(ReplyPrefix + message)
  {
    var outcome := handler.Generate(message);
    if outcome.Returned? then
      assert outcome.value == outcome.value[..|ReplyPrefix|] + outcome.value[|ReplyPrefix|..];
      ChatReply(outcome)
    else
      ChatReply(outcome)
  }

  /** The placeholder handler never makes /chat answer 500. */
  lemma ChatNeverServerError(handler: ModelHandler, message: string)
    ensures !(Chat(handler, message).HttpError? && Chat(handler, message).status == 500)
  {
  }

  /** The first candidate, in order, that exists, as `base / name`. */
  function FirstExisting(names: seq<string>, baseDir: string, pathExists: string -> bool): (r: Option<string>)
    ensures r.None? <==> forall i | 0 <= i < |names| :: !pathExists(Candidate(baseDir, names[i]))
    ensures r.Some? ==> pathExists(r.value)
    ensures r.Some? ==> exists i | 0 <= i < |names| ::
      r.value == Candidate(baseDir, names[i]) && forall j | 0 <= j < i :: !pathExists(Candidate(baseDir, names[j]))
  {
    if names == [] then None
    else if pathExists(Candidate(baseDir, names[0])) then Some(Candidate(baseDir, names[0]))
    else
      var r := FirstExisting(names[1..], baseDir, pathExists);
      assert forall i | 1 <= i < |names| :: names[i] == names[1..][i - 1];
      if r.Some? then
        var k :| 0 <= k < |names[1..]| && r.value == Candidate(baseDir, names[1..][k])
                 && forall j | 0 <= j < k :: !pathExists(Candidate(baseDir, names[1..][j]));
        assert forall j | 0 <= j < k + 1 :: !pathExists(Candidate(baseDir, names[j])) by {
          forall j | 0 <= j < k + 1 ensures !pathExists(Candidate(baseDir, names[j])) {
            if j > 0 { assert names[j] == names[1..][j - 1]; }
          }
        }
        r
      else
        r
  }

  /** find_model_path: returns the first known model file that exists. */
  method FindModelPath(baseDir: string, pathExists: string -> bool) returns (path: Option<string>)
    ensures path == FirstExisting(KnownModelNames, baseDir, pathExists)
  {
    var i := 0;
    while i < |KnownModelNames|
      invariant 0 <= i <= |KnownModelNames|
      invariant FirstExisting(KnownModelNames, baseDir, pathExists) == FirstExisting(KnownModelNames[i..], baseDir, pathExists)
    {
      var candidate := Candidate(baseDir, KnownModelNames[i]);
      if pathExists(candidate) {
        return Some(candidate);
      }
      assert KnownModelNames[i..][1..] == KnownModelNames[i + 1..];
      i := i + 1;
    }
    return None;
  }

  /** The module-level handler: built once, with the discovered model path. */
  method CreateModelHandler(baseDir: string, pathExists: string -> bool) returns (handler: ModelHandler)
    ensures handler.modelPath == FirstExisting(KnownModelNames, baseDir, pathExists)
  {
    var path := FindModelPath(baseDir, pathExists);
    handler := ModelHandler(path);
  }

  /** GET /: the index page, or 404 when index.html is missing. */
  function ServeIndex(baseDir: string, pathExists: string -> bool): (r: HttpReply)
    ensures r.HttpError? <==> !pathExists(Candidate(baseDir, "index.html"))
    ensures r.HttpError? ==> r == HttpError(404, "index.html not found")
    ensures r.FileReply? ==> r.path == Candidate(baseDir, "index.html")
  {
    var indexPath := Candidate(baseDir, "index.html");
    if !pathExists(indexPath) then HttpError(404, "index.html not found") else FileReply(indexPath)
  }

  /** The front-end trims JavaScript whitespace, the backend strips Python
   *  whitespace, and the sets differ: a message made of U+0085 survives the
   *  front-end's trim and is sent, and the backend refuses it with 400. */
  lemma TrimAndStripDisagree(handler: ModelHandler)
    ensures Text.Strip("\U{0085}", JsWhitespace) == "\U{0085}"
    ensures Chat(handler, "\U{0085}") == HttpError(400, EmptyPromptMessage)
  {
    var m := "\U{0085}";
    assert !JsWhitespace(m[0]) && PyWhitespace(m[0]);
    assert Text.ContentStart(m, JsWhitespace, 0) == 0;
    assert Text.ContentEnd(m, JsWhitespace, 0, 1) == 1;
    assert Text.AllSpace(m, PyWhitespace);
  }
}
