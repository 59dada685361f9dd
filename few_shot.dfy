/** The checks `BaseLLMHandler` runs on its prompt files when it is created:
    the shape check on the few-shot examples and the error mapping of both
    loaders. Reading the file and parsing JSON are outside the model: their
    outcome is an input. */
module FewShot {
  import opened Wrappers

  /** A JSON value as `json.load` returns it. Object keys are always strings. */
  datatype Json =
    | JNull
    | JBool(b: bool)
    | JNumber(n: int)
    | JString(s: string)
    | JArray(items: seq<Json>)
    | JObject(fields: map<string, Json>)

  /** One few-shot example: a string-to-string object. */
  type Example = map<string, string>

  /** How reading the file ended. */
  datatype FileLoad =
    | Loaded(data: Json)
    | FileNotFound(message: string)
    | JsonDecodeError(message: string)
    | OtherFailure(message: string)

  /** The exception the loader raises: a `ValueError` it creates, or an
      exception it lets through unchanged. */
  datatype LoadError = ValueError(message: string) | PassedThrough(message: string)

  const INVALID_FORMAT := "Invalid few-shot examples format"
  const LOAD_ERROR_PREFIX := "Error loading few-shot examples: "
  const PROMPT_NOT_FOUND_PREFIX := "System prompt file not found: "
  const PROMPTS_DIR := "globe_news_post_processor/post_process_pipeline/langchain/prompts/"

  /** The specification of the shape: a list whose every element is an object
      whose every value is a string. */
  predicate IsStringObject(item: Json) {
    item.JObject? && forall k :: k in item.fields ==> item.fields[k].JString?
  }

  predicate IsFewShotData(data: Json) {
    data.JArray? && forall i :: 0 <= i < |data.items| ==> IsStringObject(data.items[i])
  }

  /** The `all(...)` over the list as the code runs it, element by element. */
  function AllStringObjects(items: seq<Json>): bool {
    if items == [] then true
    else IsStringObject(items[0]) && AllStringObjects(items[1..])
  }

  lemma {:induction false} AllStringObjectsCorrect(items: seq<Json>)
    ensures AllStringObjects(items) <==> forall i :: 0 <= i < |items| ==> IsStringObject(items[i])
  {
    if items != [] {
      AllStringObjectsCorrect(items[1..]);
      assert forall i :: 1 <= i < |items| ==> items[i] == items[1..][i - 1];
    }
  }

  function ToExample(item: Json): Example
    requires IsStringObject(item)
  {
    map k | k in item.fields :: item.fields[k].s
  }

  function FromExample(e: Example): Json {
    JObject(map k | k in e :: JString(e[k]))
  }

  /** The validation in `_load_few_shot_examples`. */
  function CheckFewShotExamples(data: Json): (r: Result<seq<Example>, LoadError>)
    ensures r.Ok? <==> IsFewShotData(data)
    ensures r.Ok? ==> JArray(seq(|r.value|, i requires 0 <= i < |r.value| => FromExample(r.value[i]))) == data
    ensures r.Err? ==> r.error == ValueError(INVALID_FORMAT)
  {
    AllStringObjectsCorrect(if data.JArray? then data.items else []);
    if !data.JArray? || !AllStringObjects(data.items) then
      Err(ValueError(INVALID_FORMAT))
    else
      var examples := seq(|data.items|, i requires 0 <= i < |data.items| => ToExample(data.items[i]));
      assert forall i :: 0 <= i < |examples| ==> FromExample(examples[i]) == data.items[i] by {
        forall i | 0 <= i < |examples|
          ensures FromExample(examples[i]) == data.items[i]
        {
          ExampleRoundTrip(data.items[i]);
        }
      }
      Ok(examples)
  }

  lemma ExampleRoundTrip(item: Json)
    requires IsStringObject(item)
    ensures FromExample(ToExample(item)) == item
  {
    var back := FromExample(ToExample(item));
    assert back.fields.Keys == item.fields.Keys;
    forall k | k in item.fields
      ensures back.fields[k] == item.fields[k]
    {
      assert item.fields[k].JString?;
    }
  }

  /** `_load_few_shot_examples`. */
  function LoadFewShotExamples(load: FileLoad): (r: Result<seq<Example>, LoadError>)
    ensures r.Ok? <==> load.Loaded? && IsFewShotData(load.data)
    ensures r.Ok? ==> JArray(seq(|r.value|, i requires 0 <= i < |r.value| => FromExample(r.value[i]))) == load.data
    ensures load.Loaded? && r.Err? ==> r.error == ValueError(INVALID_FORMAT)
    ensures load.FileNotFound? || load.JsonDecodeError? ==> r == Err(ValueError(LOAD_ERROR_PREFIX + load.message))
    ensures load.OtherFailure? ==> r == Err(PassedThrough(load.message))
  {
    match load
    case Loaded(data) => CheckFewShotExamples(data)
    case FileNotFound(message) => Err(ValueError(LOAD_ERROR_PREFIX + message))
    case JsonDecodeError(message) => Err(ValueError(LOAD_ERROR_PREFIX + message))
    case OtherFailure(message) => Err(PassedThrough(message))
  }

  /** The empty list passes: the `all` over it is vacuously true. */
  lemma EmptyListAccepted()
    ensures LoadFewShotExamples(Loaded(JArray([]))) == Ok([])
  {
  }

  /** What reading a text file gave. */
  datatype TextRead = Text(contents: string) | TextNotFound | TextFailure(message: string)

  /** `os.path.join` of the prompts directory and `filename`: an absolute
      `filename` discards the directory. Either way the path ends with
      `filename`. */
  function PromptPath(filename: string): (p: string)
    ensures |filename| <= |p| && p[|p| - |filename|..] == filename
    ensures |filename| > 0 && filename[0] == '/' ==> p == filename
    ensures (|filename| == 0 || filename[0] != '/') ==> p == PROMPTS_DIR + filename
  {
    if |filename| > 0 && filename[0] == '/' then filename else PROMPTS_DIR + filename
  }

  /** `_load_system_prompt`: the file's text, or a `ValueError` naming the path. */
  function LoadSystemPrompt(filename: string, read: TextRead): (r: Result<string, LoadError>)
    ensures read.Text? ==> r == Ok(read.contents)
    ensures read.TextNotFound? ==> r == Err(ValueError(PROMPT_NOT_FOUND_PREFIX + PromptPath(filename)))
    ensures read.TextFailure? ==> r == Err(PassedThrough(read.message))
  {
    match read
    case Text(contents) => Ok(contents)
    case TextNotFound => Err(ValueError(PROMPT_NOT_FOUND_PREFIX + PromptPath(filename)))
    case TextFailure(message) => Err(PassedThrough(message))
  }
}
