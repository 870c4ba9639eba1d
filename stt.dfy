/**
 * The server's `POST /stt` handler: configuration and input checks, the upload and the
 * transcription job at AssemblyAI, the poll loop over the job's status, and the task
 * details pulled out of Gemini's reply (the first single-level `{...}` in it, parsed and
 * spread over fixed defaults).
 *
 * The provider calls are inputs: what each call returned (or threw) is given, and the
 * handler reports the calls it made, in order. `JSON.parse` is the partial function `parse`.
 */
module Stt {
  import opened Wrappers
  import opened Js
  import Strings

  /** The two secrets read from the process environment. */
  datatype Env = Env(assemblyAiKey: Option<string>, geminiKey: Option<string>)

  /** An AssemblyAI call: the response's `data`, or the error it threw (its details). */
  datatype Fetch = Fetched(data: Obj) | Threw(details: Value)

  /** The Gemini call: it threw, or it answered and `text()` threw (`None`) or returned the reply text. */
  datatype Generation = GenerationThrew(details: Value) | Generated(text: Option<string>)

  /** An outbound call. */
  datatype Call = Upload(audio: seq<bv8>) | CreateJob(audioUrl: Value) | PollJob(id: Value) | Generate(transcript: Option<Value>)

  /** The response: 200 with the result, an error status with `{error, details}`, or none yet while the job is pending. */
  datatype Reply =
    | Ok(text: Option<Value>, id: Value, taskDetails: Obj)
    | Failure(status: int, error: Option<Value>, details: Option<Value>)
    | Waiting

  const MissingAssemblyKey := "Missing ASSEMBLYAI_API_KEY env var"
  const NoAudio := "No audio found. Send multipart/form-data with field `audio` or JSON with `audioBase64`."
  const UploadFailed := "Failed to upload audio to AssemblyAI"
  const JobFailed := "Failed to create transcription job"
  const MissingGeminiKey := "Missing GEMINI_API_KEY env var"

  /** The catch-all: status 500, 'Internal server error', and what the thrown error carried. */
  function InternalError(details: Value): Reply {
    Failure(500, Some(Str("Internal server error")), Some(details))
  }

  /** The task details used when nothing usable comes back from Gemini. */
  const Defaults: Obj := map["taskName" := Str("Untitled Task"), "status" := Str("to-do"), "deadline" := Value.Null,
                             "priority" := Str("medium")]

  /** `if (!process.env.KEY)` fails exactly for a key that is unset or empty. */
  predicate KeySet(key: Option<string>) {
    key.Some? && key.value != ""
  }

  // ------------------------------------------------------------- the stages

  /** `uploadResp.data?.upload_url || uploadResp.data?.url` */
  function UploadUrl(data: Obj): (v: Option<Value>)
    ensures Truthy(Get(data, "upload_url")) ==> v == Get(data, "upload_url")
    ensures !Truthy(Get(data, "upload_url")) ==> v == Get(data, "url")
  {
    if Truthy(Get(data, "upload_url")) then Get(data, "upload_url") else Get(data, "url")
  }

  /** The URL the job is created from, when the upload returned one. */
  function UploadedUrl(upload: Fetch): (v: Option<Value>)
    ensures v.Some? <==> upload.Fetched? && Truthy(UploadUrl(upload.data))
    ensures v.Some? ==> upload.Fetched? && v == UploadUrl(upload.data) && Truthy(v)
  {
    if upload.Fetched? && Truthy(UploadUrl(upload.data)) then UploadUrl(upload.data) else None
  }

  /** The job id, when the job creation returned one. */
  function JobId(create: Fetch): (v: Option<Value>)
    ensures v.Some? <==> create.Fetched? && Truthy(Get(create.data, "id"))
    ensures v.Some? ==> create.Fetched? && v == Get(create.data, "id") && Truthy(v)
  {
    if create.Fetched? && Truthy(Get(create.data, "id")) then Get(create.data, "id") else None
  }

  /** The poll loop ends on this response: a thrown error, or status 'completed' or 'error'. */
  predicate Terminal(poll: Fetch) {
    poll.Threw? || Get(poll.data, "status") == Some(Str("completed")) || Get(poll.data, "status") == Some(Str("error"))
  }

  predicate Completed(poll: Fetch) {
    poll.Fetched? && Get(poll.data, "status") == Some(Str("completed"))
  }

  /** The index of the first poll response, from `from` on, that ends the loop. */
  function FirstTerminal(polls: seq<Fetch>, from: nat): (k: Option<nat>)
    requires from <= |polls|
    ensures k.Some? ==> from <= k.value < |polls| && Terminal(polls[k.value])
    ensures forall j :: from <= j < |polls| && (k.None? || j < k.value) ==> !Terminal(polls[j])
    decreases |polls| - from
  {
    if from == |polls| then None
    else if Terminal(polls[from]) then Some(from)
    else FirstTerminal(polls, from + 1)
  }

  /** `n` status requests for job `id`. */
  function PollCalls(id: Value, n: nat): (r: seq<Call>)
    ensures |r| == n && forall c :: c in r ==> c == PollJob(id)
  {
    seq(n, _ => PollJob(id))
  }

  /**
   * The poll loop: one status request for job `id` per response, until a response ends the
   * loop or the responses run out. Returns the index of the response that ended it.
   */
  method PollUntilTerminal(id: Value, polls: seq<Fetch>) returns (k: Option<nat>, calls: seq<Call>)
    ensures k == FirstTerminal(polls, 0)
    ensures calls == PollCalls(id, if k.Some? then k.value + 1 else |polls|)
  {
    calls := [];
    var i := 0;
    while i < |polls|
      invariant i <= |polls|
      invariant forall j :: 0 <= j < i ==> !Terminal(polls[j])
      invariant calls == PollCalls(id, i)
    {
      calls := calls + [PollJob(id)];
      if Terminal(polls[i]) {
        return Some(i), calls;
      }
      i := i + 1;
    }
    return None, calls;
  }

  // ------------------------------------------------ the first `{...}` in a string

  predicate IsBrace(c: char) {
    c == '{' || c == '}'
  }

  /** The index of the first brace at or after `i`, or `|s|` when there is none. */
  function NextBrace(s: string, i: nat): (j: nat)
    requires i <= |s|
    ensures i <= j <= |s|
    ensures forall k :: i <= k < j ==> !IsBrace(s[k])
    ensures j < |s| ==> IsBrace(s[j])
    decreases |s| - i
  {
    if i == |s| || IsBrace(s[i]) then i else NextBrace(s, i + 1)
  }

  /** The regular expression `/\{[^{}]*\}/` matches `s[i..j + 1]`. */
  ghost predicate MatchSpan(s: string, i: int, j: int) {
    0 <= i < j < |s| && s[i] == '{' && s[j] == '}' && forall k :: i < k < j ==> !IsBrace(s[k])
  }

  /** A match starts at `i`: `s[i]` is `{` and the next brace after it is `}`. */
  predicate MatchesAt(s: string, i: nat)
    requires i < |s|
  {
    s[i] == '{' && NextBrace(s, i + 1) < |s| && s[NextBrace(s, i + 1)] == '}'
  }

  /** `MatchesAt` is the regular expression: a match starts at `i` exactly when some span from `i` matches, and that span ends at the next brace. */
  lemma MatchesAtIsRegex(s: string, i: nat, j: int)
    requires i < |s|
    ensures MatchesAt(s, i) ==> MatchSpan(s, i, NextBrace(s, i + 1))
    ensures MatchSpan(s, i, j) ==> MatchesAt(s, i) && j == NextBrace(s, i + 1)
  {
    var n := NextBrace(s, i + 1);
    if MatchSpan(s, i, j) {
      assert !(n < j) && !(j < n);
    }
  }

  /** The leftmost match start at or after `from`. */
  function FirstMatchFrom(s: string, from: nat): (r: Option<nat>)
    requires from <= |s|
    ensures r.Some? ==> from <= r.value < |s| && MatchesAt(s, r.value)
    ensures forall i :: from <= i < |s| && (r.None? || i < r.value) ==> !MatchesAt(s, i)
    decreases |s| - from
  {
    if from == |s| then None
    else if MatchesAt(s, from) then Some(from)
    else FirstMatchFrom(s, from + 1)
  }

  /** `responseText.match(/\{[^{}]*\}/)`, as the matched text. */
  function FirstObjectText(s: string): (m: Option<string>)
    ensures m.Some? ==> |m.value| >= 2 && m.value[0] == '{' && m.value[|m.value| - 1] == '}'
    ensures m.Some? ==> forall k :: 0 < k < |m.value| - 1 ==> !IsBrace(m.value[k])
    ensures m.Some? ==> Strings.Includes(s, m.value)
  {
    match FirstMatchFrom(s, 0)
    case None => None
    case Some(i) =>
      var j := NextBrace(s, i + 1);
      assert s[i..j + 1] <= s[i..];
      Some(s[i..j + 1])
  }

  /**
   * The text `FirstObjectText` returns is the leftmost regular-expression match: it is the span
   * starting at the first match start, and no span starting earlier matches. When it returns
   * nothing, no span matches at all.
   */
  lemma FirstObjectIsLeftmostMatch(s: string)
    ensures FirstObjectText(s).None? ==> forall i, j :: !MatchSpan(s, i, j)
    ensures FirstObjectText(s).Some? ==>
              var i, m := FirstMatchFrom(s, 0).value, FirstObjectText(s).value;
              MatchSpan(s, i, i + |m| - 1) && m == s[i..i + |m|] && forall i', j :: i' < i ==> !MatchSpan(s, i', j)
  {
    var first := FirstMatchFrom(s, 0);
    forall i, j | MatchSpan(s, i, j)
      ensures first.Some? && first.value <= i
    {
      MatchesAtIsRegex(s, i, j);
    }
    if first.Some? {
      MatchesAtIsRegex(s, first.value, 0);
    }
  }

  /** A single-level object embedded after brace-free text is what the scan finds. */
  lemma {:induction false} EmbeddedObjectFound(prefix: string, obj: string, suffix: string)
    requires forall k :: 0 <= k < |prefix| ==> !IsBrace(prefix[k])
    requires |obj| >= 2 && obj[0] == '{' && obj[|obj| - 1] == '}'
    requires forall k :: 0 < k < |obj| - 1 ==> !IsBrace(obj[k])
    ensures FirstObjectText(prefix + obj + suffix) == Some(obj)
  {
    var s := prefix + obj + suffix;
    var i := |prefix|;
    assert s[i..i + |obj|] == obj;
    assert MatchSpan(s, i, i + |obj| - 1);
    MatchesAtIsRegex(s, i, i + |obj| - 1);
    forall k | 0 <= k < i
      ensures !MatchesAt(s, k)
    {
      assert s[k] == prefix[k];
    }
    LeftmostFrom(s, 0, i);
  }

  /** When no match starts in `[from, i)` and one starts at `i`, the scan from `from` finds `i`. */
  lemma {:induction false} LeftmostFrom(s: string, from: nat, i: nat)
    requires from <= i < |s| && MatchesAt(s, i)
    requires forall k :: from <= k < i ==> !MatchesAt(s, k)
    ensures FirstMatchFrom(s, from) == Some(i)
    decreases i - from
  {
    if from < i {
      LeftmostFrom(s, from + 1, i);
    }
  }

  // ---------------------------------------------------------- task details

  /** What `JSON.parse` produced from the first `{...}` of the reply, if the reply was read, matched and parsed. */
  function ParsedObject(replyText: Option<string>, parse: string -> Option<Obj>): Option<Obj> {
    if replyText.None? then None
    else match FirstObjectText(replyText.value)
      case None => None
      case Some(m) => parse(m)
  }

  /** `taskDetails`: the parsed object spread over the defaults, or the defaults when anything failed. */
  function TaskDetails(replyText: Option<string>, parse: string -> Option<Obj>): (d: Obj)
    ensures Defaults.Keys <= d.Keys
    ensures ParsedObject(replyText, parse).None? ==> d == Defaults
    ensures ParsedObject(replyText, parse).Some? ==>
              var o := ParsedObject(replyText, parse).value;
              d.Keys == Defaults.Keys + o.Keys
              && (forall k :: k in o ==> d[k] == o[k])
              && (forall k :: k in Defaults && k !in o ==> d[k] == Defaults[k])
  {
    match ParsedObject(replyText, parse)
    case None => Defaults
    case Some(o) => Spread(Defaults, o)
  }

  /** A reply without any single-level `{...}` yields exactly the defaults. */
  lemma NoObjectGivesDefaults(replyText: string, parse: string -> Option<Obj>)
    requires forall i, j :: !MatchSpan(replyText, i, j)
    ensures TaskDetails(Some(replyText), parse) == Defaults
  {
    if FirstObjectText(replyText).Some? {
      FirstObjectIsLeftmostMatch(replyText);
    }
  }

  /** `{"priority":"high"}` inside prose: the priority becomes 'high', every other field keeps its default. */
  lemma HighPriorityInProse(prefix: string, suffix: string, parse: string -> Option<Obj>)
    requires forall k :: 0 <= k < |prefix| ==> !IsBrace(prefix[k])
    requires parse("{\"priority\":\"high\"}") == Some(map["priority" := Str("high")])
    ensures TaskDetails(Some(prefix + "{\"priority\":\"high\"}" + suffix), parse) == Defaults["priority" := Str("high")]
  {
    var obj := "{\"priority\":\"high\"}";
    EmbeddedObjectFound(prefix, obj, suffix);
    HighOverDefaults();
  }

  lemma HighOverDefaults()
    ensures Spread(Defaults, map["priority" := Str("high")]) == Defaults["priority" := Str("high")]
  {
  }

  // --------------------------------------------------------------- handler

  /** What happened up to the poll loop: both keys' checks, the file, the upload and the job passed. */
  predicate Polling(env: Env, file: Option<seq<bv8>>, upload: Fetch, create: Fetch) {
    KeySet(env.assemblyAiKey) && file.Some? && UploadedUrl(upload).Some? && JobId(create).Some?
  }

  /**
   * The handler, given the environment, the uploaded file's buffer, what each provider call
   * returned and the status responses the loop reads. Returns the response and the
   * outbound calls made, in order.
   */
  method HandleStt(env: Env, file: Option<seq<bv8>>, upload: Fetch, create: Fetch, polls: seq<Fetch>,
                   generation: Generation, parse: string -> Option<Obj>)
    returns (reply: Reply, calls: seq<Call>)
    // The guards, in order, before anything is polled.
    ensures !KeySet(env.assemblyAiKey) ==> reply == Failure(500, Some(Str(MissingAssemblyKey)), None) && calls == []
    ensures KeySet(env.assemblyAiKey) && file.None? ==> reply == Failure(400, Some(Str(NoAudio)), None) && calls == []
    ensures KeySet(env.assemblyAiKey) && file.Some? ==> |calls| >= 1 && calls[0] == Upload(file.value)
    ensures KeySet(env.assemblyAiKey) && file.Some? && upload.Threw? ==>
              reply == InternalError(upload.details) && calls == [Upload(file.value)]
    ensures KeySet(env.assemblyAiKey) && file.Some? && upload.Fetched? && UploadedUrl(upload).None? ==>
              reply == Failure(500, Some(Str(UploadFailed)), None) && calls == [Upload(file.value)]
    ensures KeySet(env.assemblyAiKey) && file.Some? && UploadedUrl(upload).Some? ==>
              |calls| >= 2 && calls[1] == CreateJob(UploadedUrl(upload).value)
    ensures KeySet(env.assemblyAiKey) && file.Some? && UploadedUrl(upload).Some? && create.Threw? ==>
              reply == InternalError(create.details) && |calls| == 2
    ensures KeySet(env.assemblyAiKey) && file.Some? && UploadedUrl(upload).Some? && create.Fetched? && JobId(create).None? ==>
              reply == Failure(500, Some(Str(JobFailed)), None) && |calls| == 2
    // Polling: only with a job, and until the first terminal status.
    ensures !Polling(env, file, upload, create) ==> |calls| <= 2
    ensures Polling(env, file, upload, create) && FirstTerminal(polls, 0).None? ==>
              reply == Waiting && calls[2..] == PollCalls(JobId(create).value, |polls|)
    ensures Polling(env, file, upload, create) && FirstTerminal(polls, 0).Some? ==>
              var k := FirstTerminal(polls, 0).value;
              |calls| >= k + 3 && calls[2..k + 3] == PollCalls(JobId(create).value, k + 1)
              && (polls[k].Threw? ==> reply == InternalError(polls[k].details) && |calls| == k + 3)
              && (polls[k].Fetched? && !Completed(polls[k]) ==>
                    reply == Failure(500, Get(polls[k].data, "error"), None) && |calls| == k + 3)
              && (Completed(polls[k]) && !KeySet(env.geminiKey) ==>
                    reply == Failure(500, Some(Str(MissingGeminiKey)), None) && |calls| == k + 3)
              && (Completed(polls[k]) && KeySet(env.geminiKey) ==>
                    calls[k + 3..] == [Generate(Get(polls[k].data, "text"))]
                    && (generation.GenerationThrew? ==> reply == InternalError(generation.details))
                    && (generation.Generated? ==>
                          reply == Ok(Get(polls[k].data, "text"), JobId(create).value, TaskDetails(generation.text, parse))))
    // Gemini is asked only about a completed transcript, and only a successful reply is a 200.
    ensures (exists c :: c in calls && c.Generate?) ==>
              Polling(env, file, upload, create) && FirstTerminal(polls, 0).Some? && Completed(polls[FirstTerminal(polls, 0).value])
    ensures reply.Ok? ==> Polling(env, file, upload, create) && generation.Generated?
  {
    if !KeySet(env.assemblyAiKey) {
      return Failure(500, Some(Str(MissingAssemblyKey)), None), [];
    }
    if file.None? {
      return Failure(400, Some(Str(NoAudio)), None), [];
    }
    calls := [Upload(file.value)];
    if upload.Threw? {
      return InternalError(upload.details), calls;
    }
    var uploadUrl := UploadUrl(upload.data);
    if !Truthy(uploadUrl) {
      return Failure(500, Some(Str(UploadFailed)), None), calls;
    }
    calls := calls + [CreateJob(uploadUrl.value)];
    if create.Threw? {
      return InternalError(create.details), calls;
    }
    var id := Get(create.data, "id");
    if !Truthy(id) {
      return Failure(500, Some(Str(JobFailed)), None), calls;
    }

    var k, polled := PollUntilTerminal(id.value, polls);
    calls := calls + polled;
    if k.None? {
      return Waiting, calls;
    }
    var poll := polls[k.value];
    if poll.Threw? {
      return InternalError(poll.details), calls;
    }
    if !Completed(poll) {
      return Failure(500, Get(poll.data, "error"), None), calls;
    }
    var transcript := poll.data;

    if !KeySet(env.geminiKey) {
      return Failure(500, Some(Str(MissingGeminiKey)), None), calls;
    }
    var text := Get(transcript, "text");
    calls := calls + [Generate(text)];
    match generation
    case GenerationThrew(details) =>
      reply := InternalError(details);
    case Generated(replyText) =>
      reply := Ok(text, id.value, TaskDetails(replyText, parse));
  }
}
